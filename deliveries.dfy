/** The goods-receipt page (pages/Deliveries.tsx): the receipt form with its
    editable list of lines, the suggested supplier-invoice reference, the
    receipt total, the submission check and the receipt search. */
module Deliveries {
  import opened Wrappers
  import opened Text
  import opened Seqs
  import opened Domain

  /** `quantity * unit_price`. */
  function LineAmount(it: PurchaseOrderItem): Money { (it.quantity as real) * it.unitPrice }

  /** `totalAmount`: the line amounts added up, 0 without lines. */
  function TotalAmount(items: seq<PurchaseOrderItem>): (t: Money)
    ensures items == [] ==> t == 0.0
    ensures (forall it :: it in items ==> it.quantity >= 0 && it.unitPrice >= 0.0) ==> t >= 0.0
  {
    SumOfNonNegativeIf(items, LineAmount);
    SumOf(items, LineAmount)
  }

  /** The line `handleAddItem` appends: no product, one unit at price 0. */
  const BlankItem: PurchaseOrderItem := PurchaseOrderItem("", "", "", 1, 0.0)

  // ---------------------------------------------------------------------------
  // Suggested reference

  /** `(count + 1).toString().padStart(5, '0')`. */
  function RefCounter(count: nat): (d: string)
    ensures AllDigits(d) && DecimalValue(d) == count + 1 && |d| >= 5
    ensures |d| > 5 ==> d[0] != '0'
  {
    PaddedDecimal(count + 1, 5)
  }

  /** `iso.split('T')[0].replace(/-/g, '')`: the date part without its dashes. */
  function CompactDate(iso: string): (r: string)
    ensures '-' !in r && 'T' !in r
    ensures |r| <= |iso|
  {
    var day := BeforeFirst(iso, 'T');
    RemoveAll(day, '-')
  }

  /** A timestamp `y-m-d` followed by 'T' and a time gives `ymd`. */
  lemma CompactDateOfIso(y: string, m: string, d: string, t: string)
    requires '-' !in y && '-' !in m && '-' !in d
    requires 'T' !in y && 'T' !in m && 'T' !in d
    ensures CompactDate(y + "-" + m + "-" + d + "T" + t) == y + m + d
  {
    var day := y + "-" + m + "-" + d;
    assert y + "-" + m + "-" + d + "T" + t == day + ("T" + t);
    SplitOnce(y, m, d, "T" + t, '-', 'T');
    RemoveSeparators(y, m, d, '-');
  }

  /** The part before the first `t` of `y c m c d t…`, when no part holds `t`. */
  lemma SplitOnce(y: string, m: string, d: string, rest: string, c: char, t: char)
    requires t !in y && t !in m && t !in d && c != t
    requires rest != [] && rest[0] == t
    ensures BeforeFirst(y + [c] + m + [c] + d + rest, t) == y + [c] + m + [c] + d
  {
    var day := y + [c] + m + [c] + d;
    assert t !in day;
    assert y + [c] + m + [c] + d + rest == day + rest;
    BeforeFirstAppend(day, rest, t);
  }

  /** Deleting the separator `c` from `y c m c d` joins the parts. */
  lemma RemoveSeparators(y: string, m: string, d: string, c: char)
    requires c !in y && c !in m && c !in d
    ensures RemoveAll(y + [c] + m + [c] + d, c) == y + m + d
  {
    assert RemoveAll([c], c) == [];
    var p1 := y + [c];
    RemoveAllAppend(y, [c], c);
    assert RemoveAll(p1, c) == y;
    var p2 := p1 + m;
    RemoveAllAppend(p1, m, c);
    assert RemoveAll(p2, c) == y + m;
    var p3 := p2 + [c];
    RemoveAllAppend(p2, [c], c);
    assert RemoveAll(p3, c) == y + m;
    RemoveAllAppend(p3, d, c);
  }

  /** `` `FF-${counter}-${date}` ``: each part at its place. */
  function Reference(counter: string, date: string): (r: string)
    ensures |r| == 4 + |counter| + |date| && r[..3] == "FF-"
    ensures r[3..3 + |counter|] == counter && r[3 + |counter|] == '-'
    ensures r[4 + |counter|..] == date
  {
    JoinParts("FF-", counter, "-", date);
    "FF-" + counter + "-" + date
  }

  /** The suggested reference, numbered after the existing receipts. */
  function AutoReference(count: nat, nowIso: string): (r: string)
    ensures |r| >= 9 + |CompactDate(nowIso)| && r[..3] == "FF-"
    ensures var n := |r| - |CompactDate(nowIso)|;
            r[n - 1] == '-' && r[n..] == CompactDate(nowIso)
            && AllDigits(r[3..n - 1]) && DecimalValue(r[3..n - 1]) == count + 1
    ensures |r| > 9 + |CompactDate(nowIso)| ==> r[3] != '0'
  {
    var counter, date := RefCounter(count), CompactDate(nowIso);
    NumberedReference(counter, date, count + 1);
    Reference(counter, date)
  }

  /** A reference built from a counter of at least five digits that reads
      back as `v`, its parts located from the end. */
  lemma NumberedReference(counter: string, date: string, v: nat)
    requires AllDigits(counter) && DecimalValue(counter) == v && |counter| >= 5
    requires |counter| > 5 ==> counter[0] != '0'
    ensures var r := Reference(counter, date); var n := |r| - |date|;
            |r| >= 9 + |date| && r[..3] == "FF-" && r[n - 1] == '-' && r[n..] == date
            && AllDigits(r[3..n - 1]) && DecimalValue(r[3..n - 1]) == v
            && (|r| > 9 + |date| ==> r[3] != '0')
  {
    ReferenceFromEnd(counter, date);
  }

  /** The parts of a reference, located from its end. */
  lemma ReferenceFromEnd(counter: string, date: string)
    ensures var r := Reference(counter, date); var n := |r| - |date|;
            n == 4 + |counter| && r[n - 1] == '-' && r[n..] == date && r[3..n - 1] == counter
  {
  }

  /** Where each part of a four-part join sits. */
  lemma JoinParts(a: string, x: string, b: string, c: string)
    ensures |a + x + b + c| == |a| + |x| + |b| + |c|
    ensures (a + x + b + c)[..|a|] == a
    ensures (a + x + b + c)[|a|..|a| + |x|] == x
    ensures (a + x + b + c)[|a| + |x|..|a| + |x| + |b|] == b
    ensures (a + x + b + c)[|a| + |x| + |b|..] == c
  {
    var r := a + x + b + c;
    assert r == a + (x + (b + c));
  }

  /** Different receipt counts suggest different references on the same day. */
  lemma AutoReferenceInjective(m: nat, n: nat, nowIso: string)
    requires AutoReference(m, nowIso) == AutoReference(n, nowIso)
    ensures m == n
  {
    var cm, cn := RefCounter(m), RefCounter(n);
    MiddleCancel("FF-", cm, cn, "-", CompactDate(nowIso));
    assert DecimalValue(cm) == m + 1 && DecimalValue(cn) == n + 1;
  }

  /** Equal joins with the same outer parts have the same middle part. */
  lemma MiddleCancel(a: string, x: string, y: string, b: string, c: string)
    requires a + x + b + c == a + y + b + c
    ensures x == y
  {
    var l := a + x + b + c;
    assert |x| == |y|;
    assert l[|a|..|a| + |x|] == x;
    assert (a + y + b + c)[|a|..|a| + |y|] == y;
  }

  // ---------------------------------------------------------------------------
  // Editing the lines

  /** The edits the line inputs make through `updateItem`. */
  datatype ItemEdit = SetProduct(productId: string) | SetQuantity(quantity: int) | SetUnitPrice(unitPrice: Money)

  /** The lines after `updateItem(index, field, value)`: a known product fills in
      id, brand, model and price (the purchase price) and keeps the quantity; an
      unknown product changes nothing; the other edits set their one field. */
  function EditedItems(items: seq<PurchaseOrderItem>, index: nat, edit: ItemEdit, products: seq<Product>): (r: seq<PurchaseOrderItem>)
    requires index < |items|
    ensures |r| == |items|
    ensures forall j :: 0 <= j < |items| && j != index ==> r[j] == items[j]
    ensures edit.SetQuantity? ==> r[index] == items[index].(quantity := edit.quantity)
    ensures edit.SetUnitPrice? ==> r[index] == items[index].(unitPrice := edit.unitPrice)
    ensures edit.SetProduct? && FindKey(products, ProductKey, edit.productId).None? ==> r == items
    ensures edit.SetProduct? && FindKey(products, ProductKey, edit.productId).Some? ==>
      var p := FindKey(products, ProductKey, edit.productId).value;
      r[index] == PurchaseOrderItem(edit.productId, p.brand, p.model, items[index].quantity, p.purchasePrice)
  {
    match edit
    case SetQuantity(q) => items[index := items[index].(quantity := q)]
    case SetUnitPrice(u) => items[index := items[index].(unitPrice := u)]
    case SetProduct(id) =>
      match FindKey(products, ProductKey, id)
      case None => items
      case Some(p) => items[index := items[index].(productId := id, brand := p.brand, model := p.model,
                                                   unitPrice := p.purchasePrice)]
  }

  /** Adding a blank line leaves the total as it was. */
  lemma AddItemTotal(items: seq<PurchaseOrderItem>)
    ensures TotalAmount(items + [BlankItem]) == TotalAmount(items)
  {
    SumOfAppend(items, [BlankItem], LineAmount);
    assert [BlankItem][1..] == [];
  }

  /** Editing a line changes the total by the difference of that line's amount. */
  lemma EditItemTotal(items: seq<PurchaseOrderItem>, index: nat, edit: ItemEdit, products: seq<Product>)
    requires index < |items|
    ensures TotalAmount(EditedItems(items, index, edit, products))
            == TotalAmount(items) - LineAmount(items[index]) + LineAmount(EditedItems(items, index, edit, products)[index])
  {
    var r := EditedItems(items, index, edit, products);
    assert r == items[index := r[index]];
    SumOfUpdate(items, index, r[index], LineAmount);
  }

  /** Removing a line takes its amount off the total. */
  lemma RemoveItemTotal(items: seq<PurchaseOrderItem>, index: nat)
    requires index < |items|
    ensures TotalAmount(RemoveAt(items, index)) == TotalAmount(items) - LineAmount(items[index])
  {
    SumOfRemoveAt(items, index, LineAmount);
  }

  // ---------------------------------------------------------------------------
  // The form and its submission

  datatype View = List | Create

  /** `formData` (every property the page sets is always present). */
  datatype ReceiptDraft = ReceiptDraft(
    supplierId: string, invoiceNumber: string, date: string, paymentMethod: PaymentMethod,
    paymentStatus: PaymentStatus, notes: string, items: seq<PurchaseOrderItem>)

  /** The form as it is opened and after each submission; `today` is the
      current date as `YYYY-MM-DD`. */
  function EmptyDraft(today: string): ReceiptDraft {
    ReceiptDraft("", "", today, Virement, NonPaye, "", [])
  }

  /** `Omit<PurchaseOrder, 'id'>`: what the page hands to the parent. */
  datatype PurchaseOrderData = PurchaseOrderData(
    supplierId: string, invoiceNumber: string, date: string, totalAmount: Money,
    paymentMethod: PaymentMethod, paymentStatus: PaymentStatus, items: seq<PurchaseOrderItem>,
    notes: Option<string>, createdAt: string)

  datatype ReceiptError = MissingSupplierOrItems

  /** `handleSubmit`: refused without a supplier or without lines; otherwise the
      draft with its computed total and the creation time `now`. */
  function Submission(d: ReceiptDraft, now: string): (r: Result<PurchaseOrderData, ReceiptError>)
    ensures r.Failure? <==> d.supplierId == "" || d.items == []
    ensures r.Success? ==>
      r.value.totalAmount == TotalAmount(d.items) && r.value.items == d.items
      && r.value.supplierId == d.supplierId && r.value.invoiceNumber == d.invoiceNumber
      && r.value.date == d.date && r.value.paymentMethod == d.paymentMethod
      && r.value.paymentStatus == d.paymentStatus && r.value.notes == Some(d.notes)
      && r.value.createdAt == now
  {
    if d.supplierId == "" || d.items == [] then Failure(MissingSupplierOrItems)
    else Success(PurchaseOrderData(d.supplierId, d.invoiceNumber, d.date, TotalAmount(d.items),
                                   d.paymentMethod, d.paymentStatus, d.items, Some(d.notes), now))
  }

  /** The page's view and form state cells. */
  class ReceiptForm {
    var view: View
    var draft: ReceiptDraft

    constructor (today: string)
      ensures view == List && draft == EmptyDraft(today)
    {
      view := List;
      draft := EmptyDraft(today);
    }

    /** The "new receipt" button. */
    method Open()
      modifies this
      ensures view == Create && draft == old(draft)
    {
      view := Create;
    }

    /** The back button. */
    method Close()
      modifies this
      ensures view == List && draft == old(draft)
    {
      view := List;
    }

    /** The supplier select. */
    method SetSupplier(id: string)
      modifies this
      ensures view == old(view) && draft == old(draft).(supplierId := id)
    {
      draft := draft.(supplierId := id);
    }

    /** The reference input. */
    method SetInvoiceNumber(s: string)
      modifies this
      ensures view == old(view) && draft == old(draft).(invoiceNumber := s)
    {
      draft := draft.(invoiceNumber := s);
    }

    /** The date input. */
    method SetDate(date: string)
      modifies this
      ensures view == old(view) && draft == old(draft).(date := date)
    {
      draft := draft.(date := date);
    }

    /** The effect that suggests a reference: only in the create view and only
        while the reference is empty. */
    method SuggestReference(count: nat, nowIso: string)
      modifies this
      ensures view == old(view)
      ensures draft == if old(view) == Create && old(draft).invoiceNumber == ""
                       then old(draft).(invoiceNumber := AutoReference(count, nowIso))
                       else old(draft)
    {
      if view == Create && draft.invoiceNumber == "" {
        draft := draft.(invoiceNumber := AutoReference(count, nowIso));
      }
    }

    /** `handleAddItem`. */
    method AddItem()
      modifies this
      ensures view == old(view) && draft == old(draft).(items := old(draft).items + [BlankItem])
    {
      draft := draft.(items := draft.items + [BlankItem]);
    }

    /** `updateItem(index, field, value)`: the lines are copied into a fresh
        array, the one line is assigned in place, and the copy becomes the lines. */
    method UpdateItem(index: nat, edit: ItemEdit, products: seq<Product>)
      requires index < |draft.items|
      modifies this
      ensures view == old(view)
      ensures draft == old(draft).(items := EditedItems(old(draft).items, index, edit, products))
    {
      var items := draft.items;
      var copy := new PurchaseOrderItem[|items|](i requires 0 <= i < |items| => items[i]);
      assert copy[..] == items;
      match edit {
        case SetQuantity(q) =>
          copy[index] := copy[index].(quantity := q);
        case SetUnitPrice(u) =>
          copy[index] := copy[index].(unitPrice := u);
        case SetProduct(id) =>
          var found := FindKey(products, ProductKey, id);
          if found.Some? {
            var p := found.value;
            copy[index] := copy[index].(productId := id, brand := p.brand, model := p.model,
                                        unitPrice := p.purchasePrice);
          }
      }
      assert copy[..] == EditedItems(items, index, edit, products);
      draft := draft.(items := copy[..]);
    }

    /** `removeItem(index)`. */
    method RemoveItem(index: nat)
      modifies this
      ensures view == old(view) && draft == old(draft).(items := RemoveAt(old(draft).items, index))
    {
      draft := draft.(items := RemoveAt(draft.items, index));
    }

    /** `handleSubmit`: on success the receipt goes to the parent, the page
        returns to the list and the form is cleared; on refusal nothing changes. */
    method Submit(now: string, today: string) returns (r: Result<PurchaseOrderData, ReceiptError>)
      modifies this
      ensures r == Submission(old(draft), now)
      ensures r.Success? ==> view == List && draft == EmptyDraft(today)
      ensures r.Failure? ==> view == old(view) && draft == old(draft)
    {
      r := Submission(draft, now);
      if r.Success? {
        view := List;
        draft := EmptyDraft(today);
      }
    }
  }

  // ---------------------------------------------------------------------------
  // Search

  /** The supplier's name, '' when the supplier is unknown. */
  function SupplierName(d: PurchaseOrder, suppliers: seq<Supplier>): string {
    match FindKey(suppliers, SupplierKey, d.supplierId)
    case Some(s) => s.name
    case None => ""
  }

  /** `` `${invoice_number} ${supplier name}`.toLowerCase() `` contains the lower-cased term. */
  predicate DeliveryMatches(d: PurchaseOrder, suppliers: seq<Supplier>, term: string) {
    Contains(Lower(d.invoiceNumber + " " + SupplierName(d, suppliers)), Lower(term))
  }

  function DeliveryFilter(suppliers: seq<Supplier>, term: string): PurchaseOrder -> bool {
    d => DeliveryMatches(d, suppliers, term)
  }

  /** `filteredDeliveries`. */
  function FilteredDeliveries(deliveries: seq<PurchaseOrder>, suppliers: seq<Supplier>, term: string): (r: seq<PurchaseOrder>)
    ensures IsSubsequence(r, deliveries)
    ensures forall d :: d in r <==> d in deliveries && DeliveryMatches(d, suppliers, term)
    ensures forall d :: multiset(r)[d] == if DeliveryMatches(d, suppliers, term) then multiset(deliveries)[d] else 0
  {
    Filter(deliveries, DeliveryFilter(suppliers, term))
  }

  lemma LowerAppend(a: string, b: string)
    ensures Lower(a + b) == Lower(a) + Lower(b)
  {
    assert forall i :: 0 <= i < |a| ==> (a + b)[i] == a[i];
    assert forall i :: |a| <= i < |a| + |b| ==> (a + b)[i] == b[i - |a|];
  }

  /** A term found in the reference, or in the supplier's name, finds the receipt. */
  lemma MatchOnReferenceOrName(d: PurchaseOrder, suppliers: seq<Supplier>, term: string)
    requires Contains(Lower(d.invoiceNumber), Lower(term)) || Contains(Lower(SupplierName(d, suppliers)), Lower(term))
    ensures DeliveryMatches(d, suppliers, term)
  {
    var a, b := d.invoiceNumber, SupplierName(d, suppliers);
    LowerAppend(a + " ", b);
    LowerAppend(a, " ");
    ContainsInJoin(Lower(a), Lower(" "), Lower(b), Lower(term));
  }

  lemma ContainsInJoin(x: string, y: string, z: string, t: string)
    requires Contains(x, t) || Contains(z, t)
    ensures Contains(x + y + z, t)
  {
    if Contains(x, t) {
      ContainsAppend(x, t, y + z);
      assert x + y + z == x + (y + z);
    } else {
      ContainsAppend(z, t, x + y);
    }
  }
}
