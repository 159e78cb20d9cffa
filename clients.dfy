/** The customer page (pages/Clients.tsx): the customer search, the form merge
    used to edit a customer, the record built to add one, and the per-client
    statistics over the sales. The list itself is the store's
    (`App.Database.DeleteCustomer`, `EditCustomer`, `AddCustomer`). */
module Clients {
  import opened Wrappers
  import opened Text
  import opened Seqs
  import opened Domain

  // ---------------------------------------------------------------------------
  // Search

  /** The lower-cased full name contains the lower-cased term, or the phone
      number contains the term as typed. */
  predicate ClientMatches(c: Customer, term: string) {
    Contains(Lower(FullName(c.firstName, c.lastName)), Lower(term)) || Contains(c.phone, term)
  }

  function ClientFilter(term: string): Customer -> bool {
    c => ClientMatches(c, term)
  }

  /** `filteredClients`. */
  function FilteredClients(customers: seq<Customer>, term: string): (r: seq<Customer>)
    ensures IsSubsequence(r, customers)
    ensures forall c :: c in r <==> c in customers && ClientMatches(c, term)
    ensures forall c :: multiset(r)[c] == if ClientMatches(c, term) then multiset(customers)[c] else 0
  {
    Filter(customers, ClientFilter(term))
  }

  /** An empty search lists everyone, in order. */
  lemma {:induction false} EmptySearchListsAll(customers: seq<Customer>)
    ensures FilteredClients(customers, "") == customers
  {
    forall c | c in customers ensures ClientFilter("")(c) {
      ContainsEmpty(c.phone);
    }
    FilterKeepsAll(customers, ClientFilter(""));
  }

  // ---------------------------------------------------------------------------
  // The form

  /** `Partial<Customer>`: the fields the form holds. */
  datatype CustomerPatch = CustomerPatch(
    id: Option<string>, firstName: Option<string>, lastName: Option<string>, email: Option<string>,
    phone: Option<string>, address: Option<string>, birthDate: Option<string>,
    notes: Option<string>, photoUrl: Option<string>, createdAt: Option<string>)

  /** `{ ...c, ...formData }`: every field the form holds wins. */
  function MergeCustomer(c: Customer, p: CustomerPatch): (r: Customer)
    ensures r.id == p.id.GetOr(c.id) && r.firstName == p.firstName.GetOr(c.firstName)
    ensures r.lastName == p.lastName.GetOr(c.lastName) && r.email == p.email.GetOr(c.email)
    ensures r.phone == p.phone.GetOr(c.phone) && r.address == p.address.GetOr(c.address)
    ensures r.birthDate == p.birthDate.GetOr(c.birthDate) && r.createdAt == p.createdAt.GetOr(c.createdAt)
    ensures r.notes == (if p.notes.Some? then p.notes else c.notes)
    ensures r.photoUrl == (if p.photoUrl.Some? then p.photoUrl else c.photoUrl)
  {
    Customer(p.id.GetOr(c.id), p.firstName.GetOr(c.firstName), p.lastName.GetOr(c.lastName),
             p.email.GetOr(c.email), p.phone.GetOr(c.phone), p.address.GetOr(c.address),
             p.birthDate.GetOr(c.birthDate), if p.notes.Some? then p.notes else c.notes,
             if p.photoUrl.Some? then p.photoUrl else c.photoUrl, p.createdAt.GetOr(c.createdAt))
  }

  /** A whole record as a form (what `handleOpenEdit` loads). */
  function PatchOf(c: Customer): CustomerPatch {
    CustomerPatch(Some(c.id), Some(c.firstName), Some(c.lastName), Some(c.email), Some(c.phone),
                  Some(c.address), Some(c.birthDate), c.notes, c.photoUrl, Some(c.createdAt))
  }

  const EmptyPatch: CustomerPatch := CustomerPatch(None, None, None, None, None, None, None, None, None, None)

  /** A full form replaces the record; an empty one keeps it. */
  lemma MergeCustomerLaws(c: Customer, m: Customer)
    ensures MergeCustomer(c, PatchOf(m)) == m.(notes := if m.notes.Some? then m.notes else c.notes,
                                                photoUrl := if m.photoUrl.Some? then m.photoUrl else c.photoUrl)
    ensures MergeCustomer(c, EmptyPatch) == c
    ensures MergeCustomer(MergeCustomer(c, PatchOf(m)), PatchOf(m)) == MergeCustomer(c, PatchOf(m))
  {
  }

  /** The add form: the seven inputs of the modal. */
  datatype CustomerDraft = CustomerDraft(
    firstName: string, lastName: string, email: string, phone: string, address: string,
    birthDate: string, notes: string)

  const BlankDraft: CustomerDraft := CustomerDraft("", "", "", "", "", "", "")

  /** `{ ...formData, id, created_at }` for a new customer, `id` standing for the
      random id and `createdAt` for the current ISO timestamp. */
  function NewCustomer(d: CustomerDraft, id: string, createdAt: string): (c: Customer)
    ensures c.id == id && c.createdAt == createdAt && c.photoUrl.None? && c.notes == Some(d.notes)
    ensures c.firstName == d.firstName && c.lastName == d.lastName && c.email == d.email
    ensures c.phone == d.phone && c.address == d.address && c.birthDate == d.birthDate
  {
    Customer(id, d.firstName, d.lastName, d.email, d.phone, d.address, d.birthDate, Some(d.notes), None, createdAt)
  }

  /** The customer list after an edit: the form merged onto the record(s) with
      the id being edited, every other record left where it is. */
  function EditedCustomers(customers: seq<Customer>, id: string, p: CustomerPatch): (r: seq<Customer>)
    ensures |r| == |customers|
    ensures forall i :: 0 <= i < |customers| ==>
              r[i] == if customers[i].id == id then MergeCustomer(customers[i], p) else customers[i]
  {
    MapKey(customers, CustomerKey, id, MergeCustomer, p)
  }

  /** After an add, the new customer is found by its id, and every other id
      finds what it found before. */
  lemma AddedCustomerFound(customers: seq<Customer>, c: Customer, k: string)
    ensures FindKey([c] + customers, CustomerKey, c.id) == Some(c)
    ensures k != c.id ==> FindKey([c] + customers, CustomerKey, k) == FindKey(customers, CustomerKey, k)
  {
    assert ([c] + customers)[1..] == customers;
  }

  // ---------------------------------------------------------------------------
  // Statistics

  function SaleCustomer(s: Sale): string { s.customerId }

  /** Newest first by the creation time `timeOf` reads from the timestamp. */
  predicate NewestFirst(s: seq<Sale>, timeOf: string -> int) {
    forall i, j :: 0 <= i < j < |s| ==> timeOf(s[i].createdAt) >= timeOf(s[j].createdAt)
  }

  /** Insert one sale in front of the first that is not newer. */
  function Insert(x: Sale, s: seq<Sale>, timeOf: string -> int): (r: seq<Sale>)
    ensures multiset(r) == multiset(s) + multiset{x}
  {
    if s == [] then [x]
    else if timeOf(x.createdAt) >= timeOf(s[0].createdAt) then [x] + s
    else
      assert s == [s[0]] + s[1..];
      [s[0]] + Insert(x, s[1..], timeOf)
  }

  /** A sale at least as new as every sale of a newest-first list can go in front of it. */
  lemma PrependNewest(y: Sale, t: seq<Sale>, timeOf: string -> int)
    requires NewestFirst(t, timeOf)
    requires forall z :: z in t ==> timeOf(y.createdAt) >= timeOf(z.createdAt)
    ensures NewestFirst([y] + t, timeOf)
  {
    var r := [y] + t;
    forall i, j | 0 <= i < j < |r| ensures timeOf(r[i].createdAt) >= timeOf(r[j].createdAt) {
      assert r[j] == t[j - 1];
      if i > 0 {
        assert r[i] == t[i - 1];
      } else {
        assert t[j - 1] in t;
      }
    }
  }

  /** Inserting keeps a newest-first list newest first. */
  lemma {:induction false} InsertKeepsOrder(x: Sale, s: seq<Sale>, timeOf: string -> int)
    requires NewestFirst(s, timeOf)
    ensures NewestFirst(Insert(x, s, timeOf), timeOf)
  {
    if s == [] {
    } else if timeOf(x.createdAt) >= timeOf(s[0].createdAt) {
      forall z | z in s ensures timeOf(x.createdAt) >= timeOf(z.createdAt) {
        var k :| 0 <= k < |s| && s[k] == z;
      }
      PrependNewest(x, s, timeOf);
    } else {
      var rest := s[1..];
      assert NewestFirst(rest, timeOf) by {
        forall i, j | 0 <= i < j < |rest| ensures timeOf(rest[i].createdAt) >= timeOf(rest[j].createdAt) {
          assert rest[i] == s[i + 1] && rest[j] == s[j + 1];
        }
      }
      InsertKeepsOrder(x, rest, timeOf);
      var tail := Insert(x, rest, timeOf);
      forall z | z in tail ensures timeOf(s[0].createdAt) >= timeOf(z.createdAt) {
        assert z in multiset(tail);
        if z != x {
          assert z in multiset(rest);
          var k :| 0 <= k < |rest| && rest[k] == z;
          assert s[k + 1] == z;
        }
      }
      PrependNewest(s[0], tail, timeOf);
    }
  }

  /** The `sort` by descending time: an insertion sort that keeps sales of equal
      time in their list order. */
  function SortNewestFirst(s: seq<Sale>, timeOf: string -> int): (r: seq<Sale>)
    ensures multiset(r) == multiset(s)
    ensures NewestFirst(r, timeOf)
  {
    if s == [] then []
    else
      assert s == [s[0]] + s[1..];
      var sorted := SortNewestFirst(s[1..], timeOf);
      InsertKeepsOrder(s[0], sorted, timeOf);
      Insert(s[0], sorted, timeOf)
  }

  /** In a newest-first list the first element is the latest and the last the earliest. */
  lemma NewestFirstBounds(s: seq<Sale>, timeOf: string -> int)
    requires NewestFirst(s, timeOf) && |s| > 0
    ensures forall x :: x in s ==> timeOf(s[|s| - 1].createdAt) <= timeOf(x.createdAt) <= timeOf(s[0].createdAt)
  {
    forall x | x in s ensures timeOf(s[|s| - 1].createdAt) <= timeOf(x.createdAt) <= timeOf(s[0].createdAt) {
      var i :| 0 <= i < |s| && s[i] == x;
    }
  }

  /** Two sequences with the same multiset have the same length and elements. */
  lemma SameMultiset(a: seq<Sale>, b: seq<Sale>)
    requires multiset(a) == multiset(b)
    ensures |a| == |b|
    ensures forall x :: x in a <==> x in b
  {
    assert |a| == |multiset(a)|;
    assert |b| == |multiset(b)|;
    assert forall x :: x in a <==> x in multiset(a);
    assert forall x :: x in b <==> x in multiset(b);
  }

  datatype ClientStats = ClientStats(
    clientSales: seq<Sale>, totalSpent: Money, visitCount: nat,
    lastVisit: Option<string>, firstVisit: Option<string>)

  /** `getClientStats(clientId)`; `timeOf` stands for `new Date(t).getTime()`. */
  function ClientStatsOf(sales: seq<Sale>, clientId: string, timeOf: string -> int): (st: ClientStats)
    ensures multiset(st.clientSales) == multiset(SelectKey(sales, SaleCustomer, clientId))
    ensures NewestFirst(st.clientSales, timeOf)
    ensures forall s :: s in st.clientSales <==> s in sales && s.customerId == clientId
    ensures st.visitCount == Occurrences(sales, SaleCustomer, clientId)
    ensures |st.clientSales| == st.visitCount
    ensures st.visitCount > 0 ==> st.lastVisit == Some(st.clientSales[0].createdAt)
    ensures st.visitCount > 0 ==> st.firstVisit == Some(st.clientSales[|st.clientSales| - 1].createdAt)
    ensures st.totalSpent == SumOf(SelectKey(sales, SaleCustomer, clientId), SaleTotal)
    ensures st.lastVisit.None? <==> st.visitCount == 0
    ensures st.firstVisit.None? <==> st.visitCount == 0
    ensures st.lastVisit.Some? ==> st.firstVisit.Some? && timeOf(st.lastVisit.value) >= timeOf(st.firstVisit.value)
    ensures st.lastVisit.Some? ==> forall s :: s in st.clientSales ==>
              timeOf(st.firstVisit.value) <= timeOf(s.createdAt) <= timeOf(st.lastVisit.value)
  {
    var mine := SelectKey(sales, SaleCustomer, clientId);
    var sorted := SortNewestFirst(mine, timeOf);
    SortedSelection(sales, clientId, timeOf);
    var st := StatsOfSorted(sorted, timeOf);
    assert st.clientSales == sorted && multiset(sorted) == multiset(mine);
    st
  }

  /** One customer's sales, sorted: the same sales, as many and summing alike. */
  lemma SortedSelection(sales: seq<Sale>, clientId: string, timeOf: string -> int)
    ensures var sorted := SortNewestFirst(SelectKey(sales, SaleCustomer, clientId), timeOf);
            (forall s :: s in sorted <==> s in sales && s.customerId == clientId)
            && |sorted| == Occurrences(sales, SaleCustomer, clientId)
            && SumOf(sorted, SaleTotal) == SumOf(SelectKey(sales, SaleCustomer, clientId), SaleTotal)
  {
    var mine := SelectKey(sales, SaleCustomer, clientId);
    var sorted := SortNewestFirst(mine, timeOf);
    SameMultiset(sorted, mine);
    SumOfPermutation(sorted, mine, SaleTotal);
  }

  /** The figures read off a newest-first list of one customer's sales. */
  function StatsOfSorted(sorted: seq<Sale>, timeOf: string -> int): (st: ClientStats)
    requires NewestFirst(sorted, timeOf)
    ensures st.clientSales == sorted && st.visitCount == |sorted|
    ensures st.totalSpent == SumOf(sorted, SaleTotal)
    ensures st.lastVisit.None? <==> st.visitCount == 0
    ensures st.firstVisit.None? <==> st.visitCount == 0
    ensures st.visitCount > 0 ==> st.lastVisit == Some(sorted[0].createdAt)
    ensures st.visitCount > 0 ==> st.firstVisit == Some(sorted[|sorted| - 1].createdAt)
    ensures st.lastVisit.Some? ==> st.firstVisit.Some? && timeOf(st.lastVisit.value) >= timeOf(st.firstVisit.value)
    ensures st.lastVisit.Some? ==> forall s :: s in sorted ==>
              timeOf(st.firstVisit.value) <= timeOf(s.createdAt) <= timeOf(st.lastVisit.value)
  {
    if |sorted| == 0 then ClientStats(sorted, SumOf(sorted, SaleTotal), 0, None, None)
    else
      NewestFirstBounds(sorted, timeOf);
      ClientStats(sorted, SumOf(sorted, SaleTotal), |sorted|,
                  Some(sorted[0].createdAt), Some(sorted[|sorted| - 1].createdAt))
  }
}
