/** The stock page (pages/Inventory.tsx): the tabbed product search, the
    low-stock highlight, and the product list's delete, edit and add. */
module Inventory {
  import opened Wrappers
  import opened Text
  import opened Seqs
  import opened Domain

  // ---------------------------------------------------------------------------
  // Search and stock alerts

  /** The three tabs: every product, the alerts, the stock-outs. */
  datatype Tab = All | Low | Out

  /** The text searched: `"brand model reference"`, lower-cased. */
  function SearchText(p: Product): string {
    Lower(p.brand + " " + p.model + " " + p.reference)
  }

  /** The tab's stock condition: an alert is a quantity above zero and at most
      the minimum; a stock-out a quantity of exactly zero. */
  predicate InTab(p: Product, tab: Tab) {
    match tab
    case All => true
    case Low => p.quantity <= p.minStock && p.quantity > 0
    case Out => p.quantity == 0
  }

  predicate ProductMatches(p: Product, term: string, tab: Tab) {
    Contains(SearchText(p), Lower(term)) && InTab(p, tab)
  }

  function ProductFilter(term: string, tab: Tab): Product -> bool {
    p => ProductMatches(p, term, tab)
  }

  /** `filteredProducts`. */
  function FilteredProducts(products: seq<Product>, term: string, tab: Tab): (r: seq<Product>)
    ensures IsSubsequence(r, products)
    ensures forall p :: p in r <==> p in products && Contains(SearchText(p), Lower(term)) && InTab(p, tab)
    ensures forall p :: multiset(r)[p] == if Contains(SearchText(p), Lower(term)) && InTab(p, tab) then multiset(products)[p] else 0
  {
    Filter(products, ProductFilter(term, tab))
  }

  /** The alert and stock-out tabs are disjoint, and each lists a subsequence
      of what the first tab lists. */
  lemma TabsNested(products: seq<Product>, term: string)
    ensures forall p :: !(p in FilteredProducts(products, term, Low) && p in FilteredProducts(products, term, Out))
    ensures IsSubsequence(FilteredProducts(products, term, Low), FilteredProducts(products, term, All))
    ensures IsSubsequence(FilteredProducts(products, term, Out), FilteredProducts(products, term, All))
  {
    FilterNarrower(products, ProductFilter(term, Low), ProductFilter(term, All));
    FilterNarrower(products, ProductFilter(term, Out), ProductFilter(term, All));
  }

  /** A product with a negative quantity matches neither the alert nor the
      stock-out tab. */
  lemma NegativeQuantityInNoAlertTab(p: Product, term: string)
    requires p.quantity < 0
    ensures !ProductMatches(p, term, Low) && !ProductMatches(p, term, Out)
  {
  }

  /** The red highlight of the quantity column. */
  predicate IsLow(p: Product) {
    p.quantity <= p.minStock
  }

  /** The highlight covers exactly the alert tab and, for a non-negative
      minimum, the stock-outs, plus any negative quantity. */
  lemma HighlightCoversAlerts(p: Product)
    ensures InTab(p, Low) ==> IsLow(p)
    ensures InTab(p, Out) && p.minStock >= 0 ==> IsLow(p)
    ensures IsLow(p) <==> InTab(p, Low) || (p.quantity <= 0 && p.quantity <= p.minStock)
  {
  }

  // ---------------------------------------------------------------------------
  // The form

  /** `Partial<Product>`. */
  datatype ProductPatch = ProductPatch(
    id: Option<string>, brand: Option<string>, model: Option<string>, reference: Option<string>,
    kind: Option<ProductType>, category: Option<string>, color: Option<string>,
    purchasePrice: Option<Money>, sellingPrice: Option<Money>, quantity: Option<int>,
    minStock: Option<int>, imageUrl: Option<string>, supplierId: Option<string>)

  /** `{ ...p, ...formData }`. */
  function MergeProduct(p: Product, f: ProductPatch): (r: Product)
    ensures r.id == f.id.GetOr(p.id) && r.brand == f.brand.GetOr(p.brand)
    ensures r.model == f.model.GetOr(p.model) && r.reference == f.reference.GetOr(p.reference)
    ensures r.kind == f.kind.GetOr(p.kind) && r.category == f.category.GetOr(p.category)
    ensures r.color == f.color.GetOr(p.color)
    ensures r.purchasePrice == f.purchasePrice.GetOr(p.purchasePrice)
    ensures r.sellingPrice == f.sellingPrice.GetOr(p.sellingPrice)
    ensures r.quantity == f.quantity.GetOr(p.quantity) && r.minStock == f.minStock.GetOr(p.minStock)
    ensures r.imageUrl == (if f.imageUrl.Some? then f.imageUrl else p.imageUrl)
    ensures r.supplierId == (if f.supplierId.Some? then f.supplierId else p.supplierId)
  {
    Product(f.id.GetOr(p.id), f.brand.GetOr(p.brand), f.model.GetOr(p.model),
            f.reference.GetOr(p.reference), f.kind.GetOr(p.kind), f.category.GetOr(p.category),
            f.color.GetOr(p.color), f.purchasePrice.GetOr(p.purchasePrice),
            f.sellingPrice.GetOr(p.sellingPrice), f.quantity.GetOr(p.quantity),
            f.minStock.GetOr(p.minStock), if f.imageUrl.Some? then f.imageUrl else p.imageUrl,
            if f.supplierId.Some? then f.supplierId else p.supplierId)
  }

  /** The form `handleOpenEdit` loads from a product. */
  function PatchOf(p: Product): ProductPatch {
    ProductPatch(Some(p.id), Some(p.brand), Some(p.model), Some(p.reference), Some(p.kind),
                 Some(p.category), Some(p.color), Some(p.purchasePrice), Some(p.sellingPrice),
                 Some(p.quantity), Some(p.minStock), p.imageUrl, p.supplierId)
  }

  /** Submitting the loaded form unchanged gives the product back, and a
      change to one field changes only that field. */
  lemma MergeProductLaws(p: Product, q: int)
    ensures MergeProduct(p, PatchOf(p)) == p
    ensures MergeProduct(p, PatchOf(p).(quantity := Some(q))) == p.(quantity := q)
  {
  }

  /** The add form. */
  datatype ProductDraft = ProductDraft(
    brand: string, model: string, reference: string, kind: ProductType, color: string,
    purchasePrice: Money, sellingPrice: Money, quantity: int, minStock: int,
    supplierId: string, category: string)

  /** `handleOpenAdd`'s form: a 'Vue' frame ("MONTURE") with no stock, a
      minimum of 5 and the first supplier, or none when there is no supplier. */
  function DefaultDraft(suppliers: seq<Supplier>): (d: ProductDraft)
    ensures d.kind == Vue && d.category == "MONTURE" && d.quantity == 0 && d.minStock == 5
    ensures d.purchasePrice == 0.0 && d.sellingPrice == 0.0
    ensures d.brand == "" && d.model == "" && d.reference == "" && d.color == ""
    ensures d.supplierId == if |suppliers| > 0 then suppliers[0].id else ""
  {
    ProductDraft("", "", "", Vue, "", 0.0, 0.0, 0, 5, if |suppliers| > 0 then suppliers[0].id else "", "MONTURE")
  }

  /** `{ ...formData, id }`, `id` standing for the random id. */
  function NewProduct(d: ProductDraft, id: string): (p: Product)
    ensures p.id == id && p.imageUrl.None? && p.supplierId == Some(d.supplierId)
    ensures p.brand == d.brand && p.model == d.model && p.reference == d.reference
    ensures p.kind == d.kind && p.color == d.color && p.category == d.category
    ensures p.purchasePrice == d.purchasePrice && p.sellingPrice == d.sellingPrice
    ensures p.quantity == d.quantity && p.minStock == d.minStock
  {
    Product(id, d.brand, d.model, d.reference, d.kind, d.category, d.color, d.purchasePrice,
            d.sellingPrice, d.quantity, d.minStock, None, Some(d.supplierId))
  }

  /** A product added from the default form is a stock-out, listed on the
      stock-out tab and highlighted. */
  lemma NewDefaultProductIsOut(suppliers: seq<Supplier>, id: string)
    ensures InTab(NewProduct(DefaultDraft(suppliers), id), Out)
    ensures IsLow(NewProduct(DefaultDraft(suppliers), id))
  {
  }

  // ---------------------------------------------------------------------------
  // The product list

  class Stock {
    var products: seq<Product>

    constructor (products0: seq<Product>)
      ensures products == products0
    {
      products := products0;
    }

    /** `handleDelete`: after confirmation, every product with the id goes. */
    method Delete(id: string, confirmed: bool)
      modifies this
      ensures products == if confirmed then RemoveKey(old(products), ProductKey, id) else old(products)
      ensures confirmed ==> |products| == |old(products)| - Occurrences(old(products), ProductKey, id)
      ensures confirmed ==> FindKey(products, ProductKey, id).None?
    {
      if confirmed {
        RemoveKeyLength(products, ProductKey, id);
        RemovedKeyNotFound(products, ProductKey, id);
        products := RemoveKey(products, ProductKey, id);
      }
    }

    /** `handleSubmit` while editing `id`. */
    method Edit(id: string, form: ProductPatch)
      modifies this
      ensures |products| == |old(products)|
      ensures forall i :: 0 <= i < |products| ==>
                products[i] == if old(products)[i].id == id then MergeProduct(old(products)[i], form)
                               else old(products)[i]
    {
      products := MapKey(products, ProductKey, id, MergeProduct, form);
    }

    /** `handleSubmit` for a new product: it goes first. */
    method Add(draft: ProductDraft, id: string) returns (p: Product)
      modifies this
      ensures p == NewProduct(draft, id)
      ensures products == [p] + old(products)
      ensures FindKey(products, ProductKey, id) == Some(p)
    {
      p := NewProduct(draft, id);
      products := [p] + products;
    }
  }
}
