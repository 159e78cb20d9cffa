/** The point-of-sale page (pages/Sales.tsx): the cart, its totals, and the
    assembly of the sale record handed to the store when the sale is finished. */
module Sales {
  import opened Wrappers
  import opened Seqs
  import opened Domain
  import Orders
  import App

  /** One cart line: the product as it was when first added, and how many. */
  datatype CartLine = CartLine(product: Product, qty: int)

  function LineKey(l: CartLine): string { l.product.id }

  /** `selling_price * qty`. */
  function LineTotal(l: CartLine): Money { l.product.sellingPrice * (l.qty as real) }

  /** `subTotal`: the cart lines' totals added up. */
  function SubTotal(cart: seq<CartLine>): (t: Money)
    ensures cart == [] ==> t == 0.0
  {
    SumOf(cart, LineTotal)
  }

  /** Lines with non-negative prices and quantities never give a negative subtotal. */
  lemma SubTotalNonNegative(cart: seq<CartLine>)
    requires forall l :: l in cart ==> l.product.sellingPrice >= 0.0 && l.qty >= 0
    ensures SubTotal(cart) >= 0.0
  {
    forall l | l in cart ensures LineTotal(l) >= 0.0 {
      assert l.product.sellingPrice >= 0.0 && (l.qty as real) >= 0.0;
    }
    SumOfNonNegative(cart, LineTotal);
  }

  /** `totalTTC = Math.max(0, subTotal - discount)`. */
  function TotalTTC(subTotal: Money, discount: Money): (t: Money)
    ensures t >= 0.0 && t >= subTotal - discount
    ensures t == 0.0 || t == subTotal - discount
    ensures subTotal >= 0.0 && discount >= 0.0 ==> t <= subTotal
    ensures t == 0.0 <==> discount >= subTotal
  {
    Orders.Max(0.0, subTotal - discount)
  }

  /** No product id appears on two lines. */
  predicate DistinctIds(cart: seq<CartLine>) {
    forall i, j :: 0 <= i < j < |cart| ==> cart[i].product.id != cart[j].product.id
  }

  predicate InCart(cart: seq<CartLine>, id: string) {
    exists i :: 0 <= i < |cart| && cart[i].product.id == id
  }

  /** `{...item, qty: item.qty + 1}`. */
  function Bump(l: CartLine, unused: ()): CartLine { l.(qty := l.qty + 1) }

  /** The `setCart` update of `addToCart` for an in-stock product: one more of a
      product already in the cart, otherwise a new line of one at the end. */
  function AddedToCart(cart: seq<CartLine>, p: Product): (r: seq<CartLine>)
    ensures InCart(cart, p.id) ==> |r| == |cart|
    ensures InCart(cart, p.id) ==>
      forall i :: 0 <= i < |cart| ==> r[i] == if cart[i].product.id == p.id then cart[i].(qty := cart[i].qty + 1) else cart[i]
    ensures !InCart(cart, p.id) ==> r == cart + [CartLine(p, 1)]
  {
    match FindKey(cart, LineKey, p.id)
    case Some(_) => MapKey(cart, LineKey, p.id, Bump, ())
    case None => cart + [CartLine(p, 1)]
  }

  /** The prices of the lines carrying `id`, added up. */
  function PriceOf(cart: seq<CartLine>, id: string): Money {
    if cart == [] then 0.0
    else (if cart[0].product.id == id then cart[0].product.sellingPrice else 0.0) + PriceOf(cart[1..], id)
  }

  lemma {:induction false} BumpSubTotal(cart: seq<CartLine>, id: string)
    ensures SubTotal(MapKey(cart, LineKey, id, Bump, ())) == SubTotal(cart) + PriceOf(cart, id)
  {
    if cart != [] {
      BumpSubTotal(cart[1..], id);
      var r := MapKey(cart, LineKey, id, Bump, ());
      assert r[1..] == MapKey(cart[1..], LineKey, id, Bump, ());
    }
  }

  lemma {:induction false} PriceOfDistinct(cart: seq<CartLine>, i: int)
    requires DistinctIds(cart) && 0 <= i < |cart|
    ensures PriceOf(cart, cart[i].product.id) == cart[i].product.sellingPrice
  {
    var id := cart[i].product.id;
    if i == 0 {
      PriceOfAbsent(cart[1..], id);
    } else {
      assert cart[1..][i - 1] == cart[i];
      PriceOfDistinct(cart[1..], i - 1);
    }
  }

  lemma {:induction false} PriceOfAbsent(cart: seq<CartLine>, id: string)
    requires forall j :: 0 <= j < |cart| ==> cart[j].product.id != id
    ensures PriceOf(cart, id) == 0.0
  {
    if cart != [] {
      PriceOfAbsent(cart[1..], id);
    }
  }

  /** Adding raises the subtotal by one unit price, that of the line already in
      the cart or of the new product. */
  lemma AddedToCartSubTotal(cart: seq<CartLine>, p: Product)
    requires DistinctIds(cart)
    ensures !InCart(cart, p.id) ==> SubTotal(AddedToCart(cart, p)) == SubTotal(cart) + p.sellingPrice
    ensures forall i :: 0 <= i < |cart| && cart[i].product.id == p.id ==>
              SubTotal(AddedToCart(cart, p)) == SubTotal(cart) + cart[i].product.sellingPrice
  {
    if InCart(cart, p.id) {
      var i :| 0 <= i < |cart| && cart[i].product.id == p.id;
      BumpSubTotal(cart, p.id);
      PriceOfDistinct(cart, i);
      assert FindKey(cart, LineKey, p.id).Some?;
    } else {
      SumOfAppend(cart, [CartLine(p, 1)], LineTotal);
    }
  }

  /** Adding keeps the product ids distinct. */
  lemma AddedToCartDistinct(cart: seq<CartLine>, p: Product)
    requires DistinctIds(cart)
    ensures DistinctIds(AddedToCart(cart, p))
  {
  }

  /** The `setCart(c => c.filter(i => i.product.id !== id))` of the bin button. */
  function RemovedFromCart(cart: seq<CartLine>, id: string): (r: seq<CartLine>)
    ensures IsSubsequence(r, cart)
    ensures forall l :: l in r <==> l in cart && l.product.id != id
    ensures |r| == |cart| - Occurrences(cart, LineKey, id)
  {
    RemoveKeyLength(cart, LineKey, id);
    RemoveKey(cart, LineKey, id)
  }

  /** Dropping lines keeps the product ids distinct. */
  lemma {:induction false} SubsequenceDistinct(a: seq<CartLine>, b: seq<CartLine>)
    requires IsSubsequence(a, b) && DistinctIds(b)
    ensures DistinctIds(a)
    decreases |b|
  {
    if b != [] {
      assert DistinctIds(b[1..]) by {
        forall i, j | 0 <= i < j < |b| - 1 ensures b[1..][i].product.id != b[1..][j].product.id {
          assert b[1..][i] == b[i + 1] && b[1..][j] == b[j + 1];
        }
      }
      if a != [] && a[0] == b[0] && IsSubsequence(a[1..], b[1..]) {
        SubsequenceDistinct(a[1..], b[1..]);
        SubsequenceElements(a[1..], b[1..]);
        forall i, j | 0 <= i < j < |a| ensures a[i].product.id != a[j].product.id {
          if i == 0 {
            assert a[j] == a[1..][j - 1];
            assert a[j] in b[1..];
            var k :| 0 <= k < |b| - 1 && b[1..][k] == a[j];
            assert b[k + 1] == a[j];
          } else {
            assert a[i] == a[1..][i - 1] && a[j] == a[1..][j - 1];
          }
        }
      } else {
        SubsequenceDistinct(a, b[1..]);
      }
    }
  }

  /** Removing the line of a product takes exactly that line's total off. */
  lemma {:induction false} RemovedFromCartSubTotal(cart: seq<CartLine>, i: int)
    requires DistinctIds(cart) && 0 <= i < |cart|
    ensures SubTotal(RemovedFromCart(cart, cart[i].product.id)) == SubTotal(cart) - LineTotal(cart[i])
  {
    var id := cart[i].product.id;
    if i == 0 {
      RemoveAbsentKey(cart[1..], LineKey, id);
    } else {
      assert cart[1..][i - 1] == cart[i];
      assert DistinctIds(cart[1..]) by {
        forall a, b | 0 <= a < b < |cart| - 1 ensures cart[1..][a].product.id != cart[1..][b].product.id {
          assert cart[1..][a] == cart[a + 1] && cart[1..][b] == cart[b + 1];
        }
      }
      RemovedFromCartSubTotal(cart[1..], i - 1);
    }
  }

  /** The cart state cell. It never holds two lines for one product. */
  class Cart {
    var lines: seq<CartLine>

    ghost predicate Valid()
      reads this
    {
      DistinctIds(lines)
    }

    constructor ()
      ensures Valid() && lines == []
    {
      lines := [];
    }

    /** `addToCart(product)`: refused, with nothing changed, for a product whose
        stock is not positive. */
    method Add(p: Product) returns (accepted: bool)
      requires Valid()
      modifies this
      ensures Valid()
      ensures accepted <==> p.quantity > 0
      ensures lines == if accepted then AddedToCart(old(lines), p) else old(lines)
    {
      if p.quantity <= 0 {
        return false;
      }
      AddedToCartDistinct(lines, p);
      lines := AddedToCart(lines, p);
      return true;
    }

    /** The bin button of a cart line. */
    method Remove(id: string)
      requires Valid()
      modifies this
      ensures Valid()
      ensures lines == RemovedFromCart(old(lines), id)
    {
      SubsequenceDistinct(RemovedFromCart(lines, id), lines);
      lines := RemovedFromCart(lines, id);
    }
  }

  /** The catalogue shown beside the cart: one category, or 'Toutes'. */
  function CatalogueOf(products: seq<Product>, category: string): (r: seq<Product>)
    ensures IsSubsequence(r, products)
    ensures forall p :: p in r <==> p in products && (category == "Toutes" || p.category == category)
    ensures forall p :: multiset(r)[p] == if category == "Toutes" || p.category == category then multiset(products)[p] else 0
  {
    Filter(products, CategoryFilter(category))
  }

  function CategoryFilter(category: string): Product -> bool {
    (p: Product) => category == "Toutes" || p.category == category
  }

  // ---------------------------------------------------------------------------
  // Finishing the sale

  /** The page's form state when a payment button is pressed. */
  datatype CheckoutForm = CheckoutForm(
    client: Option<Customer>, staffId: string, visionType: VisionType,
    loinOD: VisionPrescription, loinOG: VisionPrescription,
    presOD: VisionPrescription, presOG: VisionPrescription,
    glassType: string, insuranceType: string,
    doctorName: string, doctorPhone: string, doctorAddress: string,
    discount: Money, advance: Money)

  datatype CheckoutError = NoClient | NoStaff | EmptyCart

  /** What `onSaleComplete` receives. */
  datatype Checkout = Checkout(data: SaleData, items: seq<App.CartItemRef>)

  /** The `prescription` record: the distance pair unless the vision type is
      'Près', the near pair unless it is 'Loin'. The doctor fields are always set. */
  function BuildPrescription(f: CheckoutForm): (p: SalePrescription)
    ensures p.visionType == f.visionType
    ensures (p.loinOD.Some? <==> f.visionType != Pres) && (p.loinOG.Some? <==> f.visionType != Pres)
    ensures (p.presOD.Some? <==> f.visionType != Loin) && (p.presOG.Some? <==> f.visionType != Loin)
    ensures p.loinOD.Some? ==> p.loinOD.value == f.loinOD && p.loinOG.value == f.loinOG
    ensures p.presOD.Some? ==> p.presOD.value == f.presOD && p.presOG.value == f.presOG
    ensures p.glassType == f.glassType && p.insuranceType == f.insuranceType
    ensures p.doctorName == Some(f.doctorName) && p.doctorPhone == Some(f.doctorPhone)
            && p.doctorAddress == Some(f.doctorAddress)
  {
    SalePrescription(
      f.visionType,
      if f.visionType != Pres then Some(f.loinOD) else None,
      if f.visionType != Pres then Some(f.loinOG) else None,
      if f.visionType != Loin then Some(f.presOD) else None,
      if f.visionType != Loin then Some(f.presOG) else None,
      f.glassType, f.insuranceType,
      Some(f.doctorName), Some(f.doctorPhone), Some(f.doctorAddress))
  }

  /** Every prescription carries at least one pair of eyes, and 'Séparé' both. */
  lemma PrescriptionHasAPair(f: CheckoutForm)
    ensures BuildPrescription(f).loinOD.Some? || BuildPrescription(f).presOD.Some?
    ensures f.visionType == Separe ==> BuildPrescription(f).loinOD.Some? && BuildPrescription(f).presOD.Some?
  {
  }

  /** `initialPayments`: one payment of the advance when it is positive. */
  function InitialPayments(advance: Money, mode: PaymentMethod, id: string, date: string): (ps: seq<Payment>)
    ensures |ps| <= 1
    ensures ps != [] <==> advance > 0.0
    ensures ps != [] ==> ps[0] == Payment(id, advance, mode, date)
  {
    if advance > 0.0 then [Payment(id, advance, mode, date)] else []
  }

  /** The new sale starts with the positive part of the advance paid. */
  lemma InitialPaymentsPaid(advance: Money, mode: PaymentMethod, id: string, date: string)
    ensures Orders.TotalPaid(InitialPayments(advance, mode, id, date)) == Orders.Max(0.0, advance)
  {
    var ps := InitialPayments(advance, mode, id, date);
    if ps != [] {
      assert ps[1..] == [];
      assert SumOf(ps, PaymentAmount) == PaymentAmount(ps[0]) + SumOf(ps[1..], PaymentAmount);
    }
  }

  /** `cart.map(i => ({ productId: i.product.id, qty: i.qty }))`. */
  function CartRefs(cart: seq<CartLine>): (r: seq<App.CartItemRef>)
    ensures |r| == |cart|
    ensures forall i :: 0 <= i < |cart| ==> r[i] == App.CartItemRef(cart[i].product.id, cart[i].qty)
  {
    if cart == [] then [] else [App.CartItemRef(cart[0].product.id, cart[0].qty)] + CartRefs(cart[1..])
  }

  /** `handleFinishSale(method)`: the checks in the order the page makes them,
      then the sale data and the cart lines handed to the store. `paymentId` and
      `now` stand for the random payment id and the current ISO timestamp. */
  function FinishSale(f: CheckoutForm, cart: seq<CartLine>, mode: PaymentMethod,
                      paymentId: string, now: string): (r: Result<Checkout, CheckoutError>)
    ensures r == Failure(NoClient) <==> f.client.None?
    ensures r == Failure(NoStaff) <==> f.client.Some? && f.staffId == ""
    ensures r == Failure(EmptyCart) <==> f.client.Some? && f.staffId != "" && cart == []
    ensures r.Success? ==> f.client.Some? && f.staffId != "" && cart != []
    ensures r.Success? ==>
      var d := r.value.data;
      d.customerId == f.client.value.id && d.staffId == Some(f.staffId)
      && d.totalAmount == TotalTTC(SubTotal(cart), f.discount) && d.discount == f.discount
      && d.taxRate == 20.0 && d.paymentMethod == mode
      && d.payments == InitialPayments(f.advance, mode, paymentId, now)
      && d.prescription == Some(BuildPrescription(f))
      && d.status == EnAttente && d.createdAt == now
      && r.value.items == CartRefs(cart)
  {
    if f.client.None? then Failure(NoClient)
    else if f.staffId == "" then Failure(NoStaff)
    else if cart == [] then Failure(EmptyCart)
    else
      var data := SaleData(
        f.client.value.id, Some(f.staffId), TotalTTC(SubTotal(cart), f.discount), f.discount, 20.0, mode,
        InitialPayments(f.advance, mode, paymentId, now), Some(BuildPrescription(f)), EnAttente, now);
      Success(Checkout(data, CartRefs(cart)))
  }

  function ItemTotal(it: SaleProductItem): Money { it.price * (it.quantity as real) }

  /** When every cart product is still the catalogue's product for its id, the
      snapshot the store takes is priced like the cart: its line totals add up
      to the subtotal. */
  lemma SnapshotOfFound(products: seq<Product>, l: CartLine)
    requires FindKey(products, ProductKey, l.product.id) == Some(l.product)
    ensures ItemTotal(App.SnapshotItem(products, App.CartItemRef(l.product.id, l.qty))) == LineTotal(l)
  {
    var it := App.SnapshotItem(products, App.CartItemRef(l.product.id, l.qty));
    App.SnapshotOfFoundProduct(products, App.CartItemRef(l.product.id, l.qty), l.product);
    SameLineTotal(it, l);
  }

  lemma SameLineTotal(it: SaleProductItem, l: CartLine)
    requires it.price == l.product.sellingPrice && it.quantity == l.qty
    ensures ItemTotal(it) == LineTotal(l)
  {
  }

  lemma SnapshotMatchesCart(products: seq<Product>, cart: seq<CartLine>)
    requires forall i :: 0 <= i < |cart| ==> FindKey(products, ProductKey, cart[i].product.id) == Some(cart[i].product)
    ensures SumOf(App.SnapshotItems(products, CartRefs(cart)), ItemTotal) == SubTotal(cart)
  {
    var snap := App.SnapshotItems(products, CartRefs(cart));
    forall i | 0 <= i < |snap| ensures ItemTotal(snap[i]) == LineTotal(cart[i]) {
      SnapshotOfFound(products, cart[i]);
    }
    SumOfPointwise(snap, ItemTotal, cart, LineTotal);
  }
}
