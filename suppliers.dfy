/** The supplier page (pages/Suppliers.tsx): the name search and the supplier
    list's delete, edit and add; a new supplier goes at the end of the list. */
module Suppliers {
  import opened Wrappers
  import opened Text
  import opened Seqs
  import opened Domain

  /** Only the name is searched, both sides lower-cased. */
  predicate SupplierMatches(s: Supplier, term: string) {
    Contains(Lower(s.name), Lower(term))
  }

  function SupplierFilter(term: string): Supplier -> bool {
    s => SupplierMatches(s, term)
  }

  /** `filtered`. */
  function FilteredSuppliers(suppliers: seq<Supplier>, term: string): (r: seq<Supplier>)
    ensures IsSubsequence(r, suppliers)
    ensures forall s :: s in r <==> s in suppliers && SupplierMatches(s, term)
    ensures forall s :: multiset(r)[s] == if SupplierMatches(s, term) then multiset(suppliers)[s] else 0
  {
    Filter(suppliers, SupplierFilter(term))
  }

  /** The search ignores e-mail, phone and address: two suppliers with the same
      name are both listed or both hidden. */
  lemma {:induction false} SearchByNameOnly(suppliers: seq<Supplier>, term: string, a: Supplier, b: Supplier)
    requires a in suppliers && b in suppliers && a.name == b.name
    ensures a in FilteredSuppliers(suppliers, term) <==> b in FilteredSuppliers(suppliers, term)
    ensures FilteredSuppliers(suppliers, "") == suppliers
  {
    forall s | s in suppliers ensures SupplierFilter("")(s) {
      ContainsEmpty(Lower(s.name));
    }
    FilterKeepsAll(suppliers, SupplierFilter(""));
  }

  /** `Partial<Supplier>`. */
  datatype SupplierPatch = SupplierPatch(
    id: Option<string>, name: Option<string>, email: Option<string>, phone: Option<string>,
    address: Option<string>, createdAt: Option<string>)

  /** `{ ...s, ...formData }`. */
  function MergeSupplier(s: Supplier, f: SupplierPatch): (r: Supplier)
    ensures r.id == f.id.GetOr(s.id) && r.name == f.name.GetOr(s.name)
    ensures r.email == f.email.GetOr(s.email) && r.phone == f.phone.GetOr(s.phone)
    ensures r.address == f.address.GetOr(s.address) && r.createdAt == f.createdAt.GetOr(s.createdAt)
  {
    Supplier(f.id.GetOr(s.id), f.name.GetOr(s.name), f.email.GetOr(s.email), f.phone.GetOr(s.phone),
             f.address.GetOr(s.address), f.createdAt.GetOr(s.createdAt))
  }

  /** The form `handleOpenEdit` loads from a supplier. */
  function PatchOf(s: Supplier): SupplierPatch {
    SupplierPatch(Some(s.id), Some(s.name), Some(s.email), Some(s.phone), Some(s.address), Some(s.createdAt))
  }

  /** Submitting the loaded form unchanged gives the supplier back; renaming
      changes the name alone. */
  lemma MergeSupplierLaws(s: Supplier, name: string)
    ensures MergeSupplier(s, PatchOf(s)) == s
    ensures MergeSupplier(s, PatchOf(s).(name := Some(name))) == s.(name := name)
  {
  }

  /** The add form: name, e-mail, phone and address, all '' at first. */
  datatype SupplierDraft = SupplierDraft(name: string, email: string, phone: string, address: string)

  const BlankDraft: SupplierDraft := SupplierDraft("", "", "", "")

  /** `{ ...formData, id, created_at }`, `id` standing for the random id and
      `createdAt` for the current ISO timestamp. */
  function NewSupplier(d: SupplierDraft, id: string, createdAt: string): (s: Supplier)
    ensures s.id == id && s.createdAt == createdAt
    ensures s.name == d.name && s.email == d.email && s.phone == d.phone && s.address == d.address
  {
    Supplier(id, d.name, d.email, d.phone, d.address, createdAt)
  }

  class Directory {
    var suppliers: seq<Supplier>

    constructor (suppliers0: seq<Supplier>)
      ensures suppliers == suppliers0
    {
      suppliers := suppliers0;
    }

    /** `handleDelete`: after confirmation, every supplier with the id goes. */
    method Delete(id: string, confirmed: bool)
      modifies this
      ensures suppliers == if confirmed then RemoveKey(old(suppliers), SupplierKey, id) else old(suppliers)
      ensures confirmed ==> |suppliers| == |old(suppliers)| - Occurrences(old(suppliers), SupplierKey, id)
      ensures confirmed ==> FindKey(suppliers, SupplierKey, id).None?
    {
      if confirmed {
        RemoveKeyLength(suppliers, SupplierKey, id);
        RemovedKeyNotFound(suppliers, SupplierKey, id);
        suppliers := RemoveKey(suppliers, SupplierKey, id);
      }
    }

    /** `handleSubmit` while editing `id`. */
    method Edit(id: string, form: SupplierPatch)
      modifies this
      ensures |suppliers| == |old(suppliers)|
      ensures forall i :: 0 <= i < |suppliers| ==>
                suppliers[i] == if old(suppliers)[i].id == id then MergeSupplier(old(suppliers)[i], form)
                                else old(suppliers)[i]
    {
      suppliers := MapKey(suppliers, SupplierKey, id, MergeSupplier, form);
    }

    /** `handleSubmit` for a new supplier: it goes last, so a lookup of its id
        finds it only when no earlier supplier has that id. */
    method Add(draft: SupplierDraft, id: string, createdAt: string) returns (s: Supplier)
      modifies this
      ensures s == NewSupplier(draft, id, createdAt)
      ensures suppliers == old(suppliers) + [s]
      ensures FindKey(suppliers, SupplierKey, id)
              == if FindKey(old(suppliers), SupplierKey, id).Some? then FindKey(old(suppliers), SupplierKey, id)
                 else Some(s)
    {
      s := NewSupplier(draft, id, createdAt);
      FindKeyAppend(suppliers, s, SupplierKey, id);
      suppliers := suppliers + [s];
    }
  }
}
