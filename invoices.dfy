/** The invoice page (pages/Invoices.tsx): the balance figures printed on an
    invoice, the balance column of the invoice list, the search, the print
    file name and which prescription tables are printed. */
module Invoices {
  import opened Wrappers
  import opened Text
  import opened Seqs
  import opened Domain
  import Orders
  import Sales
  import App

  /** The figures of the printed invoice. */
  datatype InvoiceFigures = InvoiceFigures(
    totalPayable: Money, totalPaid: Money, discount: Money, rest: Money, netHT: Money)

  /** `InvoicePrintLayout`'s arithmetic: the rest is the total less the payments,
      not clamped; "Net HT" is the total with the discount added back. */
  function Figures(sale: Sale): (f: InvoiceFigures)
    ensures f.totalPayable == sale.totalAmount && f.discount == sale.discount
    ensures f.totalPaid == Orders.TotalPaid(sale.payments)
    ensures f.rest + f.totalPaid == f.totalPayable
    ensures f.netHT - f.discount == f.totalPayable
  {
    var paid := Orders.TotalPaid(sale.payments);
    InvoiceFigures(sale.totalAmount, paid, sale.discount, sale.totalAmount - paid,
                   sale.totalAmount + sale.discount)
  }

  /** The "Remise" line is printed only for a positive discount. */
  predicate ShowsDiscountLine(sale: Sale) {
    Figures(sale).discount > 0.0
  }

  /** The order page's remaining amount is the invoice's rest clamped at zero. */
  lemma RemainingIsClampedRest(sale: Sale)
    ensures Orders.PaymentCalculations(sale).remaining == Orders.Max(0.0, Figures(sale).rest)
    ensures Figures(sale).rest < 0.0 <==> Orders.TotalPaid(sale.payments) > sale.totalAmount
  {
  }

  /** An overpaid sale: the invoice prints a negative rest where the order page shows 0. */
  lemma OverpaymentShowsNegativeRest(sale: Sale)
    requires sale.totalAmount == 100.0 && sale.payments == [Payment("p", 150.0, Espece, "d")]
    ensures Figures(sale).rest == -50.0
    ensures Orders.PaymentCalculations(sale).remaining == 0.0
  {
    assert sale.payments[1..] == [];
    assert Orders.TotalPaid(sale.payments) == PaymentAmount(sale.payments[0]) + SumOf(sale.payments[1..], PaymentAmount);
  }

  /** A sale recorded from the sales page with a discount no larger than the
      cart's subtotal: "Net HT" prints that subtotal. */
  lemma NetHTIsSubTotal(f: Sales.CheckoutForm, cart: seq<Sales.CartLine>, mode: PaymentMethod,
                        paymentId: string, now: string, id: string, items: seq<SaleProductItem>)
    requires Sales.FinishSale(f, cart, mode, paymentId, now).Success?
    requires f.discount <= Sales.SubTotal(cart)
    ensures Figures(App.Enrich(Sales.FinishSale(f, cart, mode, paymentId, now).value.data, id, items)).netHT
            == Sales.SubTotal(cart)
  {
  }

  /** A discount above the subtotal: the sale is recorded with total 0 and
      "Net HT" prints the discount instead of the subtotal. */
  lemma NetHTAfterExcessDiscount(f: Sales.CheckoutForm, cart: seq<Sales.CartLine>, mode: PaymentMethod,
                                 paymentId: string, now: string, id: string, items: seq<SaleProductItem>)
    requires Sales.FinishSale(f, cart, mode, paymentId, now).Success?
    requires f.discount > Sales.SubTotal(cart)
    ensures Figures(App.Enrich(Sales.FinishSale(f, cart, mode, paymentId, now).value.data, id, items)).netHT
            == f.discount
  {
  }

  /** The balance column of the list. */
  datatype Balance = Settled | Outstanding(amount: Money)

  /** `remaining > 0 ? 'Reste: …' : 'Payé'`. */
  function ListBalance(sale: Sale): (b: Balance)
    ensures b.Settled? <==> sale.totalAmount - Orders.TotalPaid(sale.payments) <= 0.0
    ensures b.Outstanding? ==> b.amount > 0.0 && b.amount == Figures(sale).rest
  {
    var remaining := sale.totalAmount - Orders.TotalPaid(sale.payments);
    if remaining > 0.0 then Outstanding(remaining) else Settled
  }

  /** The list says 'Payé' exactly when the order page's status is 'Payé', and
      otherwise shows the order page's remaining amount. */
  lemma ListBalanceAgreesWithOrders(sale: Sale)
    ensures ListBalance(sale).Settled? <==> Orders.PaymentCalculations(sale).status == Paye
    ensures ListBalance(sale).Outstanding? ==>
              ListBalance(sale).amount == Orders.PaymentCalculations(sale).remaining
  {
  }

  // ---------------------------------------------------------------------------
  // Search

  /** A sale is listed when the lower-cased term occurs in its id or in its
      client's full name ('' for an unknown client), both lower-cased. */
  predicate InvoiceMatches(sale: Sale, customers: seq<Customer>, term: string) {
    Contains(Lower(sale.id), Lower(term)) || Contains(Orders.ClientName(sale, customers), Lower(term))
  }

  function InvoiceFilter(customers: seq<Customer>, term: string): Sale -> bool {
    s => InvoiceMatches(s, customers, term)
  }

  /** `filteredSales`. */
  function FilteredInvoices(sales: seq<Sale>, customers: seq<Customer>, term: string): (r: seq<Sale>)
    ensures IsSubsequence(r, sales)
    ensures forall s :: s in r <==> s in sales && InvoiceMatches(s, customers, term)
    ensures forall s :: multiset(r)[s] == if InvoiceMatches(s, customers, term) then multiset(sales)[s] else 0
  {
    Filter(sales, InvoiceFilter(customers, term))
  }

  /** An empty search lists every sale. */
  lemma {:induction false} EmptySearchListsAll(sales: seq<Sale>, customers: seq<Customer>)
    ensures FilteredInvoices(sales, customers, "") == sales
  {
    forall s | s in sales ensures InvoiceFilter(customers, "")(s) {
      ContainsEmpty(Lower(s.id));
    }
    FilterKeepsAll(sales, InvoiceFilter(customers, ""));
  }

  /** The invoice search finds what the order search finds with 'Tous', apart from
      matches on the seller's name. */
  lemma InvoiceMatchesAreOrderMatches(sale: Sale, customers: seq<Customer>, staff: seq<StaffMember>, term: string)
    ensures InvoiceMatches(sale, customers, term) ==> Orders.OrderMatches(sale, customers, staff, term, Orders.Tous)
  {
  }

  // ---------------------------------------------------------------------------
  // Printing

  /** The document title used as the print file name: `last_first_date` with
      each run of whitespace made one '_'; `localeDate` is the creation date as
      the browser formats it. No title is set for an unknown client. */
  function PrintFileName(customers: seq<Customer>, sale: Sale, localeDate: string): (r: Option<string>)
    ensures r.None? <==> FindKey(customers, CustomerKey, sale.customerId).None?
    ensures r.Some? ==> NoWhitespace(r.value)
    ensures r.Some? ==>
      var c := FindKey(customers, CustomerKey, sale.customerId).value;
      r.value == UnderscoreWhitespace(c.lastName + "_" + c.firstName + "_" + ReplaceChar(localeDate, '/', '-'))
  {
    match FindKey(customers, CustomerKey, sale.customerId)
    case None => None
    case Some(c) =>
      var raw := c.lastName + "_" + c.firstName + "_" + ReplaceChar(localeDate, '/', '-');
      Some(UnderscoreWhitespace(raw))
  }

  /** A name and date without whitespace give `last_first_date` as it is. */
  lemma PlainFileName(c: Customer, sale: Sale, customers: seq<Customer>, localeDate: string)
    requires FindKey(customers, CustomerKey, sale.customerId) == Some(c)
    requires NoWhitespace(c.lastName) && NoWhitespace(c.firstName) && NoWhitespace(localeDate)
    ensures PrintFileName(customers, sale, localeDate)
            == Some(c.lastName + "_" + c.firstName + "_" + ReplaceChar(localeDate, '/', '-'))
  {
    var raw := c.lastName + "_" + c.firstName + "_" + ReplaceChar(localeDate, '/', '-');
    assert NoWhitespace(raw);
    UnderscoreWhitespaceIdentity(raw);
  }

  /** "Vision de Loin" is printed unless the vision type is 'Près' (also when
      the sale has no prescription). */
  predicate ShowsDistanceTable(sale: Sale) {
    sale.prescription.None? || sale.prescription.value.visionType != Pres
  }

  /** "Vision de Près" is printed unless the vision type is 'Loin'. */
  predicate ShowsNearTable(sale: Sale) {
    sale.prescription.None? || sale.prescription.value.visionType != Loin
  }

  /** For a prescription built by the sales page, a table is printed exactly
      when the sale carries the measurements it shows. */
  lemma TablesMatchPrescription(f: Sales.CheckoutForm, sale: Sale)
    requires sale.prescription == Some(Sales.BuildPrescription(f))
    ensures ShowsDistanceTable(sale) <==> sale.prescription.value.loinOD.Some?
    ensures ShowsNearTable(sale) <==> sale.prescription.value.presOD.Some?
    ensures ShowsDistanceTable(sale) || ShowsNearTable(sale)
  {
  }
}
