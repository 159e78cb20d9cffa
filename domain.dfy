/** The records of the shop, as declared in types.ts. Amounts of money are
    `real` (the source uses JavaScript numbers); stock quantities and cart
    quantities are `int`; dates and timestamps are the strings the source
    stores (ISO 8601 text). Optional properties (`x?: T`) are `Option`s. */
module Domain {
  import opened Wrappers

  type Money = real

  datatype SaleStatus = EnAttente | EnPreparation | Pret | Livre | Annule
  datatype PaymentStatus = NonPaye | Avance | Paye
  datatype PaymentMethod = Espece | Carte | Virement
  datatype StaffRole = Opticien | Secretaire | Vendeur | Technicien | Administrateur
  datatype StaffStatus = Actif | Inactif
  datatype VisionType = Loin | Pres | Separe
  datatype ProductType = Vue | Soleil
  datatype AppointmentStatus = Planifie | Confirme | Termine | Annulee

  datatype ShopSettings = ShopSettings(
    name: string, ice: string, address: string, phone: string,
    tva: real, primaryColor: string, logoUrl: Option<string>)

  datatype StaffMember = StaffMember(
    id: string, firstName: string, lastName: string, email: string, phone: string,
    role: StaffRole, salary: Option<Money>, hireDate: string, status: StaffStatus)

  datatype Customer = Customer(
    id: string, firstName: string, lastName: string, email: string, phone: string,
    address: string, birthDate: string, notes: Option<string>, photoUrl: Option<string>,
    createdAt: string)

  datatype VisionPrescription = VisionPrescription(sphere: real, cylinder: real, axis: real, addition: real)

  datatype SalePrescription = SalePrescription(
    visionType: VisionType,
    loinOD: Option<VisionPrescription>, loinOG: Option<VisionPrescription>,
    presOD: Option<VisionPrescription>, presOG: Option<VisionPrescription>,
    glassType: string, insuranceType: string,
    doctorName: Option<string>, doctorPhone: Option<string>, doctorAddress: Option<string>)

  datatype Product = Product(
    id: string, brand: string, model: string, reference: string, kind: ProductType,
    category: string, color: string, purchasePrice: Money, sellingPrice: Money,
    quantity: int, minStock: int, imageUrl: Option<string>, supplierId: Option<string>)

  datatype Supplier = Supplier(
    id: string, name: string, email: string, phone: string, address: string, createdAt: string)

  /** A sale line as copied onto the sale when it is completed. */
  datatype SaleProductItem = SaleProductItem(brand: string, model: string, quantity: int, price: Money)

  datatype PurchaseOrderItem = PurchaseOrderItem(
    productId: string, brand: string, model: string, quantity: int, unitPrice: Money)

  datatype PurchaseOrder = PurchaseOrder(
    id: string, supplierId: string, invoiceNumber: string, date: string, totalAmount: Money,
    paymentMethod: PaymentMethod, paymentStatus: PaymentStatus, items: seq<PurchaseOrderItem>,
    notes: Option<string>, createdAt: string)

  /** `method` is a Dafny keyword: the payment's means of payment is `mode`. */
  datatype Payment = Payment(id: string, amount: Money, mode: PaymentMethod, date: string)

  datatype Sale = Sale(
    id: string, customerId: string, staffId: Option<string>, totalAmount: Money,
    discount: Money, taxRate: real, paymentMethod: PaymentMethod, payments: seq<Payment>,
    prescription: Option<SalePrescription>, items: Option<seq<SaleProductItem>>,
    status: SaleStatus, createdAt: string)

  /** `Omit<Sale, 'id'>` as the sales page builds it: everything but the id and
      the item snapshot, which the store adds. */
  datatype SaleData = SaleData(
    customerId: string, staffId: Option<string>, totalAmount: Money,
    discount: Money, taxRate: real, paymentMethod: PaymentMethod, payments: seq<Payment>,
    prescription: Option<SalePrescription>, status: SaleStatus, createdAt: string)

  datatype Appointment = Appointment(
    id: string, customerId: string, employeeId: string, appointmentDate: string,
    status: AppointmentStatus, notes: Option<string>)

  // The id of each kind of record, as a function value for the keyed list operations.
  function CustomerKey(c: Customer): string { c.id }
  function ProductKey(p: Product): string { p.id }
  function SaleKey(s: Sale): string { s.id }
  function StaffKey(m: StaffMember): string { m.id }
  function SupplierKey(s: Supplier): string { s.id }
  function AppointmentKey(a: Appointment): string { a.id }

  function PaymentAmount(p: Payment): Money { p.amount }
  function SaleTotal(s: Sale): Money { s.totalAmount }

  /** `${first_name} ${last_name}`. */
  function FullName(first: string, last: string): string {
    first + " " + last
  }
}
