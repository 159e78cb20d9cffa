/** The application shell (App.tsx): the persisted store of customers,
    products and sales, the fallback rule used when it is loaded, the theme
    colour parser, and the completion, replacement and deletion of sales. */
module App {
  import opened Wrappers
  import opened Text
  import opened Seqs
  import opened Domain
  import Clients

  /** The single storage entry that holds the whole store. */
  const StorageKey: string := "hbg_optic_demo_db_v1"

  // ---------------------------------------------------------------------------
  // Loading the store

  /** What `JSON.parse` makes of the stored text: it throws (or yields a value
      whose properties cannot be read), or it yields an object whose own
      properties are `fields` (none for a number, string or array). */
  datatype Parsed<V> = ParseFailed | Parsed(fields: map<string, V>)

  /** `loadFromStorage(key, defaultValue)`: `saved` is what the storage holds
      under `StorageKey` (`None` for `null`) and `parse` is `JSON.parse`. */
  function LoadFromStorage<V>(saved: Option<string>, parse: string -> Parsed<V>, key: string, default: V): (r: V)
    ensures saved.None? || saved == Some("") ==> r == default
    ensures saved.Some? && saved.value != "" && parse(saved.value).ParseFailed? ==> r == default
    ensures saved.Some? && saved.value != "" && parse(saved.value).Parsed? ==>
      if key in parse(saved.value).fields then r == parse(saved.value).fields[key] else r == default
  {
    if saved.None? || saved.value == "" then default
    else
      match parse(saved.value)
      case ParseFailed => default
      case Parsed(fields) => if key in fields then fields[key] else default
  }

  /** A value differing from the default can only come from a stored entry for that key. */
  lemma LoadedValueIsStored<V>(saved: Option<string>, parse: string -> Parsed<V>, key: string, default: V)
    requires LoadFromStorage(saved, parse, key, default) != default
    ensures saved.Some? && saved.value != ""
    ensures parse(saved.value).Parsed? && key in parse(saved.value).fields
    ensures parse(saved.value).fields[key] == LoadFromStorage(saved, parse, key, default)
  {
  }

  /** The settings used when the store holds none. */
  const DefaultSettings: ShopSettings := ShopSettings(
    "Optique Belle Vue", "001234567890001", "Rue Mohamed V, Casablanca", "05 22 12 34 56",
    20.0, "#f97316", None)

  /** The one staff member of the demonstration. */
  const DemoStaff: seq<StaffMember> := [
    StaffMember("st1", "Admin", "Demo", "demo@hbg.com", "0600000000", Administrateur, None,
                "2024-01-01", Actif)
  ]

  // ---------------------------------------------------------------------------
  // Theme colour

  datatype Rgb = Rgb(r: nat, g: nat, b: nat)

  /** The colour used when the setting is not a six-digit hex colour. */
  const ThemeFallback: Rgb := Rgb(249, 115, 22)

  predicate IsHexDigit(c: char) {
    '0' <= c <= '9' || 'a' <= c <= 'f' || 'A' <= c <= 'F'
  }

  function HexDigitValue(c: char): (v: nat)
    requires IsHexDigit(c)
    ensures v < 16
  {
    if '0' <= c <= '9' then c as int - '0' as int
    else if 'a' <= c <= 'f' then c as int - 'a' as int + 10
    else c as int - 'A' as int + 10
  }

  /** The lower-case hex digit for `v`. */
  function HexChar(v: nat): (c: char)
    requires v < 16
    ensures IsHexDigit(c) && HexDigitValue(c) == v
  {
    if v < 10 then ('0' as int + v) as char else ('a' as int + v - 10) as char
  }

  /** The text after an optional leading '#'. */
  function HexDigits(hex: string): string {
    if |hex| > 0 && hex[0] == '#' then hex[1..] else hex
  }

  /** What `/^#?([a-f\d]{2})([a-f\d]{2})([a-f\d]{2})$/i` accepts. */
  predicate IsHexColor(hex: string) {
    var d := HexDigits(hex);
    |d| == 6 && forall i :: 0 <= i < 6 ==> IsHexDigit(d[i])
  }

  function HexByte(hi: char, lo: char): (v: nat)
    requires IsHexDigit(hi) && IsHexDigit(lo)
    ensures v < 256
  {
    16 * HexDigitValue(hi) + HexDigitValue(lo)
  }

  /** `hexToRgb(hex)`. */
  function HexToRgb(hex: string): (c: Rgb)
    ensures c.r < 256 && c.g < 256 && c.b < 256
    ensures !IsHexColor(hex) ==> c == ThemeFallback
  {
    if IsHexColor(hex) then
      var d := HexDigits(hex);
      Rgb(HexByte(d[0], d[1]), HexByte(d[2], d[3]), HexByte(d[4], d[5]))
    else
      ThemeFallback
  }

  /** `#rrggbb` in lower case: the inverse of `HexToRgb` on its accepted strings. */
  function RgbToHex(c: Rgb): (hex: string)
    requires c.r < 256 && c.g < 256 && c.b < 256
    ensures |hex| == 7 && hex[0] == '#' && IsHexColor(hex)
  {
    ['#', HexChar(c.r / 16), HexChar(c.r % 16), HexChar(c.g / 16), HexChar(c.g % 16),
     HexChar(c.b / 16), HexChar(c.b % 16)]
  }

  /** Parsing a formatted colour gives the colour back. */
  lemma HexRoundTrip(c: Rgb)
    requires c.r < 256 && c.g < 256 && c.b < 256
    ensures HexToRgb(RgbToHex(c)) == c
  {
    var hex := RgbToHex(c);
    assert HexDigits(hex) == hex[1..];
  }

  lemma HexCharOfDigit(c: char)
    requires IsHexDigit(c)
    ensures HexChar(HexDigitValue(c)) == LowerChar(c)
  {
  }

  lemma HexByteDigits(hi: char, lo: char)
    requires IsHexDigit(hi) && IsHexDigit(lo)
    ensures HexByte(hi, lo) / 16 == HexDigitValue(hi) && HexByte(hi, lo) % 16 == HexDigitValue(lo)
  {
  }

  /** Formatting a parsed colour gives its digits back, lower-cased, behind a '#'. */
  lemma HexRoundTripText(hex: string)
    requires IsHexColor(hex)
    ensures RgbToHex(HexToRgb(hex)) == "#" + Lower(HexDigits(hex))
  {
    var d := HexDigits(hex);
    var c := HexToRgb(hex);
    HexByteDigits(d[0], d[1]);
    HexByteDigits(d[2], d[3]);
    HexByteDigits(d[4], d[5]);
    forall i | 0 <= i < 6 ensures HexChar(HexDigitValue(d[i])) == LowerChar(d[i]) {
      HexCharOfDigit(d[i]);
    }
    var t := RgbToHex(c);
    var u := "#" + Lower(d);
    assert |t| == |u|;
    forall i | 0 <= i < 7 ensures t[i] == u[i] {
      if i > 0 {
        assert u[i] == LowerChar(d[i - 1]);
      }
    }
  }

  lemma LowerHexDigit(c: char)
    ensures IsHexDigit(LowerChar(c)) <==> IsHexDigit(c)
    ensures IsHexDigit(c) ==> HexDigitValue(LowerChar(c)) == HexDigitValue(c)
  {
  }

  /** The match ignores case: lower-casing the setting does not change the colour. */
  lemma HexToRgbIgnoresCase(hex: string)
    ensures HexToRgb(Lower(hex)) == HexToRgb(hex)
  {
    var l := Lower(hex);
    var d, e := HexDigits(hex), HexDigits(l);
    assert |e| == |d| && forall i :: 0 <= i < |d| ==> e[i] == LowerChar(d[i]);
    forall i | 0 <= i < |d| ensures IsHexDigit(e[i]) <==> IsHexDigit(d[i]) {
      LowerHexDigit(d[i]);
    }
    if IsHexColor(hex) {
      forall i | 0 <= i < 6 ensures HexDigitValue(e[i]) == HexDigitValue(d[i]) {
        LowerHexDigit(d[i]);
      }
    }
  }

  /** The '#' is optional. */
  lemma HashIsOptional(digits: string)
    requires digits == [] || digits[0] != '#'
    ensures HexToRgb("#" + digits) == HexToRgb(digits)
  {
    assert HexDigits("#" + digits) == digits;
  }

  /** The three-digit short form is not accepted. */
  lemma ShortFormFallsBack(a: char, b: char, c: char)
    ensures HexToRgb(['#', a, b, c]) == ThemeFallback
  {
  }

  /** The default setting's colour is the fallback colour itself. */
  lemma DefaultThemeColor()
    ensures HexToRgb(DefaultSettings.primaryColor) == ThemeFallback
  {
    var d := HexDigits(DefaultSettings.primaryColor);
    assert d == "f97316";
  }

  // ---------------------------------------------------------------------------
  // Completing a sale

  /** `` `C${(count + 1).toString().padStart(4, '0')}` ``: 'C' and the next
      ordinal, zero-padded to four digits. */
  function SaleId(count: nat): (id: string)
    ensures |id| >= 5 && id[0] == 'C'
    ensures AllDigits(id[1..]) && DecimalValue(id[1..]) == count + 1
    ensures |id| > 5 ==> id[1] != '0'
  {
    var digits := PaddedDecimal(count + 1, 4);
    assert (['C'] + digits)[1..] == digits;
    ['C'] + digits
  }

  /** Different list lengths give different ids. */
  lemma SaleIdInjective(m: nat, n: nat)
    requires SaleId(m) == SaleId(n)
    ensures m == n
  {
    assert SaleId(m)[1..] == SaleId(n)[1..];
  }

  /** The id depends on the count only, so it repeats an id still present once
      a sale has been deleted: of two sales numbered C0001 and C0002, delete the
      first and the next id is C0002 again. */
  lemma SaleIdAfterDeletion()
    ensures SaleId(1) == "C0002"
  {
    assert NatToDecimal(2) == "2";
    assert PadStart("2", 4, '0') == "0002";
  }

  /** A cart line as the sales page hands it over. */
  datatype CartItemRef = CartItemRef(productId: string, qty: int)

  /** `product?.brand || 'Inconnu'` and its like: an absent product or an empty
      text falls back to the placeholder. */
  function OrElse(s: string, placeholder: string): string {
    if s == "" then placeholder else s
  }

  /** One snapshot line: the product found by id (the first with that id), or
      the placeholders 'Inconnu', 'Produit' and 0 when none matches. */
  function SnapshotItem(products: seq<Product>, item: CartItemRef): (it: SaleProductItem)
    ensures it.quantity == item.qty
    ensures (forall i :: 0 <= i < |products| ==> products[i].id != item.productId) ==>
              it == SaleProductItem("Inconnu", "Produit", item.qty, 0.0)
    ensures forall i :: 0 <= i < |products| && products[i].id == item.productId
                        && (forall j :: 0 <= j < i ==> products[j].id != item.productId) ==>
              it == SaleProductItem(OrElse(products[i].brand, "Inconnu"), OrElse(products[i].model, "Produit"),
                                    item.qty, products[i].sellingPrice)
  {
    match FindKey(products, ProductKey, item.productId)
    case None => SaleProductItem("Inconnu", "Produit", item.qty, 0.0)
    case Some(p) => SaleProductItem(OrElse(p.brand, "Inconnu"), OrElse(p.model, "Produit"), item.qty, p.sellingPrice)
  }

  /** A cart line whose product is in the catalogue is priced at its selling price. */
  lemma SnapshotOfFoundProduct(products: seq<Product>, item: CartItemRef, p: Product)
    requires FindKey(products, ProductKey, item.productId) == Some(p)
    ensures SnapshotItem(products, item).price == p.sellingPrice
    ensures SnapshotItem(products, item).quantity == item.qty
  {
  }

  /** `items.map(...)`: one snapshot line per cart line, in cart order. */
  function SnapshotItems(products: seq<Product>, items: seq<CartItemRef>): (r: seq<SaleProductItem>)
    ensures |r| == |items|
    ensures forall i :: 0 <= i < |items| ==> r[i] == SnapshotItem(products, items[i])
  {
    if items == [] then [] else [SnapshotItem(products, items[0])] + SnapshotItems(products, items[1..])
  }

  /** `{ ...saleData, id, items }`. */
  function Enrich(data: SaleData, id: string, items: seq<SaleProductItem>): (s: Sale)
    ensures s.id == id && s.items == Some(items)
  {
    Sale(id, data.customerId, data.staffId, data.totalAmount, data.discount, data.taxRate,
         data.paymentMethod, data.payments, data.prescription, Some(items), data.status, data.createdAt)
  }

  /** The sale without its id and item snapshot. */
  function DataOf(s: Sale): SaleData {
    SaleData(s.customerId, s.staffId, s.totalAmount, s.discount, s.taxRate, s.paymentMethod,
             s.payments, s.prescription, s.status, s.createdAt)
  }

  /** The stored sale is the incoming data with only the id and items added. */
  lemma EnrichKeepsData(data: SaleData, id: string, items: seq<SaleProductItem>)
    ensures DataOf(Enrich(data, id, items)) == data
  {
  }

  // ---------------------------------------------------------------------------
  // Replacing and deleting sales

  /** `prev.map(old => old.id === s.id ? s : old)`. */
  function ReplaceSale(sales: seq<Sale>, s: Sale): (r: seq<Sale>)
    ensures |r| == |sales|
    ensures forall i :: 0 <= i < |sales| ==> r[i] == if sales[i].id == s.id then s else sales[i]
  {
    MapKey(sales, SaleKey, s.id, Overwrite, s)
  }

  /** After a replacement, looking the id up finds the new sale if the id was present. */
  lemma ReplaceSaleFound(sales: seq<Sale>, s: Sale)
    ensures FindKey(ReplaceSale(sales, s), SaleKey, s.id)
            == if FindKey(sales, SaleKey, s.id).Some? then Some(s) else None
  {
    var r := ReplaceSale(sales, s);
    assert forall i :: 0 <= i < |r| ==> (r[i].id == s.id <==> sales[i].id == s.id);
    if FindKey(r, SaleKey, s.id).Some? {
      var i :| 0 <= i < |r| && r[i] == FindKey(r, SaleKey, s.id).value && r[i].id == s.id;
      assert r[i] == s;
    }
  }

  /** `prev.filter(s => s.id !== id)`. */
  function DeleteSaleFrom(sales: seq<Sale>, id: string): (r: seq<Sale>)
    ensures IsSubsequence(r, sales)
    ensures forall s :: s in r <==> s in sales && s.id != id
    ensures |r| == |sales| - Occurrences(sales, SaleKey, id)
  {
    RemoveKeyLength(sales, SaleKey, id);
    RemoveKey(sales, SaleKey, id)
  }

  /** After a deletion no sale carries the id. */
  lemma DeletedSaleNotFound(sales: seq<Sale>, id: string)
    ensures FindKey(DeleteSaleFrom(sales, id), SaleKey, id).None?
  {
    RemovedKeyNotFound(sales, SaleKey, id);
  }

  /** The three lists of the store, each replaced wholesale by the handlers. */
  class Database {
    var customers: seq<Customer>
    var products: seq<Product>
    var sales: seq<Sale>

    constructor (customers0: seq<Customer>, products0: seq<Product>, sales0: seq<Sale>)
      ensures customers == customers0 && products == products0 && sales == sales0
    {
      customers := customers0;
      products := products0;
      sales := sales0;
    }

    /** `handleCompleteSale`: snapshot the cart lines, number the sale after the
        current count and put it first. Stock is not decremented. */
    method CompleteSale(data: SaleData, items: seq<CartItemRef>) returns (sale: Sale)
      modifies this
      ensures sale == Enrich(data, SaleId(|old(sales)|), SnapshotItems(old(products), items))
      ensures sales == [sale] + old(sales)
      ensures customers == old(customers) && products == old(products)
    {
      sale := Enrich(data, SaleId(|sales|), SnapshotItems(products, items));
      PutFirst(sale);
    }

    /** `[newSale, ...prev]`. */
    method PutFirst(s: Sale)
      modifies this
      ensures sales == [s] + old(sales)
      ensures customers == old(customers) && products == old(products)
    {
      sales := [s] + sales;
    }

    /** `onUpdateSale`. */
    method UpdateSale(s: Sale)
      modifies this
      ensures sales == ReplaceSale(old(sales), s)
      ensures customers == old(customers) && products == old(products)
    {
      sales := ReplaceSale(sales, s);
    }

    /** `onDeleteSale`. */
    method DeleteSale(id: string)
      modifies this
      ensures sales == DeleteSaleFrom(old(sales), id)
      ensures customers == old(customers) && products == old(products)
    {
      sales := DeleteSaleFrom(sales, id);
    }

    /** The client page's delete: only once the user confirmed, and only the
        customer record goes; the customer's sales stay in the list. */
    method DeleteCustomer(id: string, confirmed: bool)
      modifies this
      ensures customers == if confirmed then RemoveKey(old(customers), CustomerKey, id) else old(customers)
      ensures confirmed ==> FindKey(customers, CustomerKey, id).None?
      ensures sales == old(sales) && products == old(products)
    {
      if confirmed {
        customers := RemoveKey(customers, CustomerKey, id);
        RemovedKeyNotFound(old(customers), CustomerKey, id);
      }
    }

    /** The client page's submit while editing `id`: the form is merged onto the record. */
    method EditCustomer(id: string, form: Clients.CustomerPatch)
      modifies this
      ensures customers == Clients.EditedCustomers(old(customers), id, form)
      ensures sales == old(sales) && products == old(products)
    {
      customers := Clients.EditedCustomers(customers, id, form);
    }

    /** The client page's submit for a new customer: the record goes first. */
    method AddCustomer(draft: Clients.CustomerDraft, id: string, createdAt: string) returns (c: Customer)
      modifies this
      ensures c == Clients.NewCustomer(draft, id, createdAt)
      ensures customers == [c] + old(customers)
      ensures FindKey(customers, CustomerKey, id) == Some(c)
      ensures sales == old(sales) && products == old(products)
    {
      c := Clients.NewCustomer(draft, id, createdAt);
      Clients.AddedCustomerFound(customers, c, id);
      customers := [c] + customers;
    }
  }
}
