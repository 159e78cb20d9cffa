/** The order follow-up page (pages/Orders.tsx): what has been paid against a
    sale, how much remains, the derived payment status, adding a payment,
    changing the fulfilment status, and the order search. The page builds new
    sale values and hands them to the store (`App.Database.UpdateSale`). */
module Orders {
  import opened Wrappers
  import opened Text
  import opened Seqs
  import opened Domain

  /** `(sale.payments || []).reduce((acc, p) => acc + p.amount, 0)`. */
  function TotalPaid(payments: seq<Payment>): (t: Money)
    ensures payments == [] ==> t == 0.0
    ensures (forall p :: p in payments ==> p.amount >= 0.0) ==> t >= 0.0
  {
    SumOfNonNegativeIf(payments, PaymentAmount);
    SumOf(payments, PaymentAmount)
  }

  function Min(a: real, b: real): real { if a <= b then a else b }
  function Max(a: real, b: real): real { if a >= b then a else b }

  /** `Math.min(100, (paid / total) * 100)`. With a zero total JavaScript
      divides by zero: a positive amount gives Infinity, clamped to 100; no
      payment gives NaN and a negative amount -Infinity, both `None` here. */
  function Progress(paid: Money, total: Money): (r: Option<real>)
    ensures total > 0.0 ==> r.Some? && r.value <= 100.0
    ensures total > 0.0 && paid >= 0.0 ==> r.Some? && r.value >= 0.0
    ensures total > 0.0 && paid >= total ==> r == Some(100.0)
    ensures total == 0.0 ==> (r.Some? <==> paid > 0.0) && (r.Some? ==> r.value == 100.0)
  {
    if total != 0.0 then
      QuotientBounds(paid, total);
      Some(Min(100.0, paid / total * 100.0))
    else if paid > 0.0 then Some(100.0)
    else None
  }

  /** Dividing by a positive total: a non-negative amount gives a non-negative
      quotient, and an amount of at least the total a quotient of at least 1. */
  lemma QuotientBounds(p: real, t: real)
    ensures t > 0.0 && p >= 0.0 ==> p / t >= 0.0
    ensures t > 0.0 && p >= t ==> p / t >= 1.0
  {
    if t > 0.0 && p >= t {
      QuotientAtLeastOne(p, t);
    }
  }

  lemma QuotientAtLeastOne(p: real, t: real)
    requires t > 0.0 && p >= t
    ensures p / t >= 1.0
  {
    var q := p / t;
    assert q * t == p;
  }

  /** The `let status` chain: 'Payé' once the payments reach the total,
      'Avance' for a positive amount below it, 'Non payé' otherwise. */
  function StatusOf(paid: Money, total: Money): (st: PaymentStatus)
    ensures st == Paye <==> paid >= total
    ensures st == Avance <==> 0.0 < paid < total
    ensures st == NonPaye <==> paid <= 0.0 && paid < total
  {
    if paid >= total then Paye
    else if paid > 0.0 then Avance
    else NonPaye
  }

  datatype PaymentSummary = PaymentSummary(
    totalPaid: Money, remaining: Money, progress: Option<real>, status: PaymentStatus)

  /** `getPaymentCalculations(sale)`. */
  function PaymentCalculations(sale: Sale): (r: PaymentSummary)
    ensures r.totalPaid == TotalPaid(sale.payments)
    ensures r.remaining >= 0.0 && r.remaining >= sale.totalAmount - r.totalPaid
    ensures r.remaining == 0.0 || r.remaining == sale.totalAmount - r.totalPaid
    ensures r.remaining == 0.0 <==> r.totalPaid >= sale.totalAmount
    ensures r.remaining == 0.0 <==> r.status == Paye
    ensures r.status == StatusOf(r.totalPaid, sale.totalAmount)
    ensures r.progress == Progress(r.totalPaid, sale.totalAmount)
  {
    var paid := TotalPaid(sale.payments);
    PaymentSummary(paid, Max(0.0, sale.totalAmount - paid), Progress(paid, sale.totalAmount),
                   StatusOf(paid, sale.totalAmount))
  }

  /** A zero total with no payment counts as paid. */
  lemma ZeroTotalIsPaid(sale: Sale)
    requires sale.totalAmount == 0.0 && sale.payments == []
    ensures PaymentCalculations(sale).status == Paye
    ensures PaymentCalculations(sale).remaining == 0.0
    ensures PaymentCalculations(sale).progress.None?
  {
  }

  /** `handleAddPayment`: the sale with one more payment at the end. The amount
      is not checked: zero, negative and overpaying amounts are accepted. */
  function AddPayment(sale: Sale, id: string, amount: Money, mode: PaymentMethod, date: string): (r: Sale)
    ensures |r.payments| == |sale.payments| + 1
    ensures r.payments[..|sale.payments|] == sale.payments
    ensures r.payments[|sale.payments|] == Payment(id, amount, mode, date)
    ensures r.(payments := sale.payments) == sale
  {
    sale.(payments := sale.payments + [Payment(id, amount, mode, date)])
  }

  /** Adding a payment raises the amount paid by exactly that amount. */
  lemma AddPaymentTotalPaid(sale: Sale, id: string, amount: Money, mode: PaymentMethod, date: string)
    ensures TotalPaid(AddPayment(sale, id, amount, mode, date).payments) == TotalPaid(sale.payments) + amount
  {
    var p := Payment(id, amount, mode, date);
    SumOfAppend(sale.payments, [p], PaymentAmount);
  }

  /** A paid sale stays paid when a non-negative payment is added. */
  lemma PaidStaysPaid(sale: Sale, id: string, amount: Money, mode: PaymentMethod, date: string)
    requires amount >= 0.0 && PaymentCalculations(sale).status == Paye
    ensures PaymentCalculations(AddPayment(sale, id, amount, mode, date)).status == Paye
  {
    AddPaymentTotalPaid(sale, id, amount, mode, date);
  }

  /** The payments entered one after the other, in that order. */
  function AddPayments(sale: Sale, entries: seq<Payment>): Sale
    decreases |entries|
  {
    if entries == [] then sale
    else
      var e := entries[|entries| - 1];
      AddPayment(AddPayments(sale, entries[..|entries| - 1]), e.id, e.amount, e.mode, e.date)
  }

  /** Any sequence of payments is appended in order, and the amount paid grows
      by their sum; nothing else on the sale changes. */
  lemma {:induction false} AddPaymentsSum(sale: Sale, entries: seq<Payment>)
    ensures AddPayments(sale, entries).payments == sale.payments + entries
    ensures AddPayments(sale, entries).(payments := sale.payments) == sale
    ensures TotalPaid(AddPayments(sale, entries).payments) == TotalPaid(sale.payments) + SumOf(entries, PaymentAmount)
    decreases |entries|
  {
    if entries == [] {
      assert sale.payments + entries == sale.payments;
    } else {
      var init := entries[..|entries| - 1];
      AddPaymentsSum(sale, init);
      assert init + [entries[|entries| - 1]] == entries;
      SumOfAppend(sale.payments, entries, PaymentAmount);
    }
  }

  /** The amount paid, and so the payment status, do not depend on the order
      in which the same payments were entered. */
  lemma PaymentOrderIrrelevant(sale: Sale, entries: seq<Payment>, reordered: seq<Payment>)
    requires multiset(entries) == multiset(reordered)
    ensures TotalPaid(AddPayments(sale, entries).payments) == TotalPaid(AddPayments(sale, reordered).payments)
    ensures PaymentCalculations(AddPayments(sale, entries)) == PaymentCalculations(AddPayments(sale, reordered))
  {
    AddPaymentsSum(sale, entries);
    AddPaymentsSum(sale, reordered);
    SumOfPermutation(entries, reordered, PaymentAmount);
  }

  /** A sale of 150 paid in two instalments of 100 and 50 ends up paid. */
  lemma TwoInstalments(sale: Sale, p: Payment, q: Payment)
    requires sale.totalAmount == 150.0 && sale.payments == []
    requires p.amount == 100.0 && q.amount == 50.0
    ensures PaymentCalculations(AddPayments(sale, [p, q])).status == Paye
    ensures PaymentCalculations(AddPayments(sale, [p, q])).remaining == 0.0
  {
    AddPaymentsSum(sale, [p, q]);
    assert [p, q][1..] == [q] && [q][1..] == [];
    assert SumOf([p, q], PaymentAmount) == p.amount + SumOf([q], PaymentAmount);
    assert SumOf([q], PaymentAmount) == q.amount + SumOf([], PaymentAmount);
    assert sale.payments + [p, q] == [p, q];
  }

  /** The status edit: `{...order, status}`, any status from any status. */
  function WithStatus(sale: Sale, status: SaleStatus): (r: Sale)
    ensures r.status == status
    ensures r.(status := sale.status) == sale
  {
    sale.(status := status)
  }

  /** Changing the fulfilment status leaves the payment figures alone. */
  lemma WithStatusKeepsPayments(sale: Sale, status: SaleStatus)
    ensures PaymentCalculations(WithStatus(sale, status)) == PaymentCalculations(sale)
  {
  }

  // ---------------------------------------------------------------------------
  // Search

  datatype StatusFilter = Tous | Only(status: SaleStatus)

  /** The client's lower-cased full name, or '' when the client is unknown. */
  function ClientName(sale: Sale, customers: seq<Customer>): string {
    match FindKey(customers, CustomerKey, sale.customerId)
    case Some(c) => Lower(FullName(c.firstName, c.lastName))
    case None => ""
  }

  /** The seller's lower-cased full name, or '' when there is none. */
  function SellerName(sale: Sale, staff: seq<StaffMember>): string {
    match sale.staffId
    case None => ""
    case Some(sid) =>
      match FindKey(staff, StaffKey, sid)
      case Some(m) => Lower(FullName(m.firstName, m.lastName))
      case None => ""
  }

  predicate OrderMatches(sale: Sale, customers: seq<Customer>, staff: seq<StaffMember>,
                         term: string, filter: StatusFilter) {
    var t := Lower(term);
    (Contains(Lower(sale.id), t) || Contains(ClientName(sale, customers), t) || Contains(SellerName(sale, staff), t))
    && (filter.Tous? || sale.status == filter.status)
  }

  function OrderFilter(customers: seq<Customer>, staff: seq<StaffMember>, term: string,
                       filter: StatusFilter): Sale -> bool {
    s => OrderMatches(s, customers, staff, term, filter)
  }

  /** `filteredOrders`. */
  function FilteredOrders(sales: seq<Sale>, customers: seq<Customer>, staff: seq<StaffMember>,
                          term: string, filter: StatusFilter): (r: seq<Sale>)
    ensures IsSubsequence(r, sales)
    ensures forall s :: s in r <==> s in sales && OrderMatches(s, customers, staff, term, filter)
    ensures forall s :: multiset(r)[s] == if OrderMatches(s, customers, staff, term, filter) then multiset(sales)[s] else 0
  {
    Filter(sales, OrderFilter(customers, staff, term, filter))
  }

  /** With 'Tous' and an empty search every sale is listed, in order. */
  lemma {:induction false} UnfilteredOrders(sales: seq<Sale>, customers: seq<Customer>, staff: seq<StaffMember>)
    ensures FilteredOrders(sales, customers, staff, "", Tous) == sales
  {
    forall s | s in sales ensures OrderFilter(customers, staff, "", Tous)(s) {
      ContainsEmpty(Lower(s.id));
    }
    FilterKeepsAll(sales, OrderFilter(customers, staff, "", Tous));
  }
}
