/** The dashboard (pages/Dashboard.tsx): the sales and customers created within
    the selected date range, and the revenue of those sales. Dates are compared
    as text, on the part of the timestamp before the 'T'. */
module Dashboard {
  import opened Text
  import opened Seqs
  import opened Domain

  /** The date part of an ISO timestamp: `created_at.split('T')[0]`. */
  function DatePart(createdAt: string): string {
    BeforeFirst(createdAt, 'T')
  }

  /** `d >= startDate && d <= endDate` on the date part. */
  predicate InRange(start: string, end: string, createdAt: string) {
    LexLe(start, DatePart(createdAt)) && LexLe(DatePart(createdAt), end)
  }

  function SaleInRange(start: string, end: string): Sale -> bool {
    (s: Sale) => InRange(start, end, s.createdAt)
  }

  function CustomerInRange(start: string, end: string): Customer -> bool {
    (c: Customer) => InRange(start, end, c.createdAt)
  }

  /** `filteredSales`. */
  function FilteredSales(sales: seq<Sale>, start: string, end: string): (r: seq<Sale>)
    ensures IsSubsequence(r, sales)
    ensures forall s :: s in r <==> s in sales && InRange(start, end, s.createdAt)
    ensures forall s :: multiset(r)[s] == if InRange(start, end, s.createdAt) then multiset(sales)[s] else 0
  {
    Filter(sales, SaleInRange(start, end))
  }

  /** `filteredCustomers`. */
  function FilteredCustomers(customers: seq<Customer>, start: string, end: string): (r: seq<Customer>)
    ensures IsSubsequence(r, customers)
    ensures forall c :: c in r <==> c in customers && InRange(start, end, c.createdAt)
    ensures forall c :: multiset(r)[c] == if InRange(start, end, c.createdAt) then multiset(customers)[c] else 0
  {
    Filter(customers, CustomerInRange(start, end))
  }

  /** `totalRevenue`: the kept sales' totals added up, whatever their status. */
  function TotalRevenue(sales: seq<Sale>, start: string, end: string): Money {
    SumOf(FilteredSales(sales, start, end), SaleTotal)
  }

  /** The revenue of sales with non-negative totals is itself non-negative,
      and at most the total over all sales. */
  lemma RevenueBounds(sales: seq<Sale>, start: string, end: string)
    requires forall s :: s in sales ==> s.totalAmount >= 0.0
    ensures 0.0 <= TotalRevenue(sales, start, end) <= SumOf(sales, SaleTotal)
  {
    var kept := FilteredSales(sales, start, end);
    SumOfNonNegative(kept, SaleTotal);
    SumOfSubsequence(kept, sales, SaleTotal);
  }

  /** A date within the range lies between its bounds, so a start after the
      end keeps nothing. */
  lemma InvertedRangeIsEmpty(sales: seq<Sale>, customers: seq<Customer>, start: string, end: string)
    requires !LexLe(start, end)
    ensures FilteredSales(sales, start, end) == []
    ensures FilteredCustomers(customers, start, end) == []
    ensures TotalRevenue(sales, start, end) == 0.0
  {
    forall t: string | InRange(start, end, t) ensures false {
      LexLeTransitive(start, DatePart(t), end);
    }
    FilterKeepsNone(sales, SaleInRange(start, end));
    FilterKeepsNone(customers, CustomerInRange(start, end));
  }

  /** A one-day range keeps exactly the records of that day. */
  lemma OneDayRange(day: string, createdAt: string)
    ensures InRange(day, day, createdAt) <==> DatePart(createdAt) == day
  {
    if InRange(day, day, createdAt) {
      LexLeAntisymmetric(day, DatePart(createdAt));
    }
    if DatePart(createdAt) == day {
      LexLeTotal(day, day);
    }
  }

  /** Widening the range keeps every sale kept before, in order, and with
      non-negative totals the revenue cannot fall. */
  lemma WiderRange(sales: seq<Sale>, start: string, end: string, start2: string, end2: string)
    requires LexLe(start2, start) && LexLe(end, end2)
    ensures IsSubsequence(FilteredSales(sales, start, end), FilteredSales(sales, start2, end2))
    ensures (forall s :: s in sales ==> s.totalAmount >= 0.0) ==>
              TotalRevenue(sales, start, end) <= TotalRevenue(sales, start2, end2)
  {
    forall s | s in sales && SaleInRange(start, end)(s) ensures SaleInRange(start2, end2)(s) {
      LexLeTransitive(start2, start, DatePart(s.createdAt));
      LexLeTransitive(DatePart(s.createdAt), end, end2);
    }
    FilterNarrower(sales, SaleInRange(start, end), SaleInRange(start2, end2));
    if forall s :: s in sales ==> s.totalAmount >= 0.0 {
      SumOfSubsequence(FilteredSales(sales, start, end), FilteredSales(sales, start2, end2), SaleTotal);
    }
  }
}
