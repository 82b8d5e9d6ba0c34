/**
 * The cart screen (app/cart.tsx): removing a line, changing a line's
 * quantity with a floor of 1, and the pricing summary the screen saves
 * under the "cartItems" key each time the cart changes.
 */
module Cart {
  import opened Wrappers
  import opened ProductList

  /** Flat delivery charge added to every cart (app/cart.tsx:53). */
  const DeliveryCharge: int := 5
  /** No promotions: the discount is always zero (app/cart.tsx:54). */
  const Discount: int := 0

  /** The object saved under "cartItems" (`CartItems` in app/cart.tsx). */
  datatype CartItems = CartItems(
    items: seq<Product>,
    subTotal: int,
    deliveryCharge: int,
    discount: int,
    total: int)

  /** `item.price ?? 0` */
  function Price(item: Product): int {
    item.price.GetOr(0)
  }

  /** `item.quantity ?? 1` */
  function Quantity(item: Product): int {
    item.quantity.GetOr(1)
  }

  /** A line's total, `(item.price ?? 0) * (item.quantity ?? 1)`, shown in the "Total" column. */
  function LineTotal(item: Product): (r: int)
    ensures item.price == None ==> r == 0
    ensures item.quantity == None ==> r == Price(item)
  {
    Price(item) * Quantity(item)
  }

  /** `items.reduce((sum, item) => sum + LineTotal(item), 0)`, folded from the left like `reduce`. */
  function SubTotal(items: seq<Product>): (r: int)
    ensures (forall i :: 0 <= i < |items| ==> items[i].price == None) ==> r == 0
  {
    if items == [] then 0
    else SubTotal(items[..|items| - 1]) + LineTotal(items[|items| - 1])
  }

  /** The summary computed by the save effect (app/cart.tsx:52-62). */
  function Summarize(items: seq<Product>): (r: CartItems)
    ensures r.items == items && r.subTotal == SubTotal(items)
    ensures r.deliveryCharge == 5 && r.discount == 0
    ensures r.total == r.subTotal + r.deliveryCharge - r.discount
  {
    var subTotal := SubTotal(items);
    CartItems(items, subTotal, DeliveryCharge, Discount, subTotal + DeliveryCharge - Discount)
  }

  /** The "Total:" figure as the screen renders it, `subTotal + 5` (app/cart.tsx:185). */
  function RenderedTotal(items: seq<Product>): (r: int)
    ensures r == Summarize(items).total
  {
    SubTotal(items) + 5
  }

  /** Every line's quantity, read with its default, is at least 1. */
  predicate QuantitiesPositive(items: seq<Product>) {
    forall i :: 0 <= i < |items| ==> Quantity(items[i]) >= 1
  }

  /** Every line has a non-negative price (or none) and a non-negative quantity (or none). */
  predicate NonNegativeLines(items: seq<Product>) {
    forall i :: 0 <= i < |items| ==> Price(items[i]) >= 0 && Quantity(items[i]) >= 0
  }

  /** Where `splice(start, 1)` acts on an array of length `len`: a negative start counts from the end. */
  function SpliceStart(len: nat, start: int): (k: nat)
    ensures k <= len
  {
    if start < 0 then (if len + start < 0 then 0 else len + start)
    else if start > len then len
    else start
  }

  /** `removeCartItem(index)`: copy the list and `splice(index, 1)` it. */
  function RemoveCartItem(cart: seq<Product>, index: int): (r: seq<Product>)
    ensures 0 <= index < |cart| ==>
              |r| == |cart| - 1
              && (forall j :: 0 <= j < index ==> r[j] == cart[j])
              && (forall j :: index <= j < |r| ==> r[j] == cart[j + 1])
    ensures -|cart| <= index < 0 ==> r == cart[..|cart| + index] + cart[|cart| + index + 1..]
    ensures index < -|cart| && cart != [] ==> r == cart[1..]
    ensures index >= |cart| ==> r == cart
    ensures SpliceStart(|cart|, index) == |cart| ==> r == cart
  {
    var k := SpliceStart(|cart|, index);
    if k < |cart| then cart[..k] + cart[k + 1..] else cart
  }

  /** `updateCartQuantity(index, delta)`: the list with line `index` at quantity `(quantity ?? 1) + delta`, or unchanged below 1. */
  function UpdateCartQuantity(cart: seq<Product>, index: int, delta: int): (r: seq<Product>)
    requires 0 <= index < |cart|
    ensures |r| == |cart|
    ensures forall j :: 0 <= j < |cart| && j != index ==> r[j] == cart[j]
    ensures Quantity(cart[index]) + delta >= 1 ==>
              r[index] == cart[index].(quantity := Some(Quantity(cart[index]) + delta))
    ensures Quantity(cart[index]) + delta < 1 ==> r == cart
  {
    var newQty := Quantity(cart[index]) + delta;
    if newQty < 1 then cart
    else cart[index := cart[index].(quantity := Some(newQty))]
  }

  /** The subtotal of two carts laid end to end is the sum of their subtotals. */
  lemma {:induction false} SubTotalAppend(a: seq<Product>, b: seq<Product>)
    ensures SubTotal(a + b) == SubTotal(a) + SubTotal(b)
  {
    if b == [] {
      assert a + b == a;
    } else {
      var b' := b[..|b| - 1];
      assert (a + b)[..|a + b| - 1] == a + b';
      assert (a + b)[|a + b| - 1] == b[|b| - 1];
      SubTotalAppend(a, b');
    }
  }

  /** The subtotal is the sum of the line totals, taken from the front as well. */
  lemma SubTotalCons(x: Product, rest: seq<Product>)
    ensures SubTotal([x] + rest) == LineTotal(x) + SubTotal(rest)
  {
    SubTotalAppend([x], rest);
    assert [x][..0] == [];
  }

  /** With non-negative prices and quantities the subtotal is non-negative. */
  lemma {:induction false} SubTotalNonNegative(items: seq<Product>)
    requires NonNegativeLines(items)
    ensures SubTotal(items) >= 0
  {
    if items != [] {
      var init := items[..|items| - 1];
      assert NonNegativeLines(init) by {
        forall i | 0 <= i < |init| ensures Price(init[i]) >= 0 && Quantity(init[i]) >= 0 {
          assert init[i] == items[i];
        }
      }
      SubTotalNonNegative(init);
      var last := items[|items| - 1];
      assert Price(last) >= 0 && Quantity(last) >= 0;
      assert LineTotal(last) >= 0;
    }
  }

  /** Appending one line adds its line total. */
  lemma SubTotalSnoc(a: seq<Product>, x: Product)
    ensures SubTotal(a + [x]) == SubTotal(a) + LineTotal(x)
  {
    assert (a + [x])[..|a|] == a;
  }

  /** The subtotal splits around any line. */
  lemma SubTotalSplit(cart: seq<Product>, index: int)
    requires 0 <= index < |cart|
    ensures SubTotal(cart) == SubTotal(cart[..index]) + LineTotal(cart[index]) + SubTotal(cart[index + 1..])
  {
    var front, x, back := cart[..index], cart[index], cart[index + 1..];
    assert cart == (front + [x]) + back;
    SubTotalAppend(front + [x], back);
    SubTotalSnoc(front, x);
  }

  /** Removing line `index` lowers the subtotal by exactly that line's total. */
  lemma RemoveCartItemSubTotal(cart: seq<Product>, index: int)
    requires 0 <= index < |cart|
    ensures SubTotal(RemoveCartItem(cart, index)) == SubTotal(cart) - LineTotal(cart[index])
  {
    assert RemoveCartItem(cart, index) == cart[..index] + cart[index + 1..];
    SubTotalAppend(cart[..index], cart[index + 1..]);
    SubTotalSplit(cart, index);
  }

  /** Removing a line takes exactly that line out of the cart and nothing else. */
  lemma RemoveCartItemMultiset(cart: seq<Product>, index: int)
    requires 0 <= index < |cart|
    ensures multiset(RemoveCartItem(cart, index)) + multiset{cart[index]} == multiset(cart)
  {
    assert cart == cart[..index] + [cart[index]] + cart[index + 1..];
  }

  /**
   * A quantity change alters the subtotal only through the changed line: by
   * `price * delta` when accepted (see LineTotalChange), not at all when refused.
   */
  lemma UpdateCartQuantitySubTotal(cart: seq<Product>, index: int, delta: int)
    requires 0 <= index < |cart|
    ensures var r := UpdateCartQuantity(cart, index, delta);
            SubTotal(r) == SubTotal(cart) - LineTotal(cart[index]) + LineTotal(r[index])
    ensures Quantity(cart[index]) + delta < 1 ==> SubTotal(UpdateCartQuantity(cart, index, delta)) == SubTotal(cart)
  {
    var r := UpdateCartQuantity(cart, index, delta);
    assert r == cart[index := r[index]];
    SubTotalReplace(cart, index, r[index]);
  }

  /** Replacing one line changes the subtotal by the difference of the two line totals. */
  lemma SubTotalReplace(cart: seq<Product>, index: int, y: Product)
    requires 0 <= index < |cart|
    ensures SubTotal(cart[index := y]) == SubTotal(cart) - LineTotal(cart[index]) + LineTotal(y)
  {
    var r := cart[index := y];
    assert r[..index] == cart[..index];
    assert r[index + 1..] == cart[index + 1..];
    SubTotalSplit(cart, index);
    SubTotalSplit(r, index);
  }

  /** Moving a line's quantity by `delta` moves its total by `price * delta`. */
  lemma LineTotalChange(x: Product, delta: int)
    ensures LineTotal(x.(quantity := Some(Quantity(x) + delta))) == LineTotal(x) + Price(x) * delta
  {
    var p, q := Price(x), Quantity(x);
    assert p * (q + delta) == p * q + p * delta;
  }

  /** A line at quantity 1 cannot be decremented: `-1` leaves the cart as it is. */
  lemma DecrementAtOneIsNoOp(cart: seq<Product>, index: int)
    requires 0 <= index < |cart| && Quantity(cart[index]) == 1
    ensures UpdateCartQuantity(cart, index, -1) == cart
  {
  }

  /** No quantity change can push a positive quantity below 1. */
  lemma UpdateKeepsQuantitiesPositive(cart: seq<Product>, index: int, delta: int)
    requires 0 <= index < |cart| && QuantitiesPositive(cart)
    ensures QuantitiesPositive(UpdateCartQuantity(cart, index, delta))
  {
  }

  /** Removing a line keeps every remaining quantity at least 1. */
  lemma RemoveKeepsQuantitiesPositive(cart: seq<Product>, index: int)
    requires QuantitiesPositive(cart)
    ensures QuantitiesPositive(RemoveCartItem(cart, index))
  {
    var r := RemoveCartItem(cart, index);
    var k := SpliceStart(|cart|, index);
    if k < |cart| {
      forall j | 0 <= j < |r| ensures Quantity(r[j]) >= 1 {
        if j < k { assert r[j] == cart[j]; } else { assert r[j] == cart[j + 1]; }
      }
    }
  }

  /** The product list's toggle keeps every quantity at least 1: new lines start at 1. */
  lemma ToggleKeepsQuantitiesPositive(cart: seq<Product>, product: Product)
    requires QuantitiesPositive(cart)
    ensures QuantitiesPositive(HandleCartAction(cart, product))
  {
    var r := HandleCartAction(cart, product);
    forall j | 0 <= j < |r| ensures Quantity(r[j]) >= 1 {
      if IsAdded(cart, product.id) {
        assert r[j] in r;
        var i :| 0 <= i < |cart| && cart[i] == r[j];
      } else if j < |cart| {
        assert r[j] == cart[j];
      }
    }
  }

  /** The saved summary's total equals the total the screen renders, and an empty cart costs the delivery charge. */
  lemma RenderedTotalMatchesSaved(items: seq<Product>)
    ensures RenderedTotal(items) == Summarize(items).total
    ensures Summarize([]).subTotal == 0 && Summarize([]).total == 5
  {
  }

  /** Two lines at 10 x 2 and 5 x 1 give a subtotal of 25 and a total of 30. */
  lemma ExampleSummary(a: Product, b: Product)
    requires a.price == Some(10) && a.quantity == Some(2)
    requires b.price == Some(5) && b.quantity == Some(1)
    ensures Summarize([a, b]).subTotal == 25 && Summarize([a, b]).total == 30
  {
    assert LineTotal(a) == 20 && LineTotal(b) == 5;
    SubTotalSnoc([], a);
    SubTotalSnoc([a], b);
    assert [] + [a] == [a] && [a] + [b] == [a, b];
  }

  /**
   * The cart screen's state: the list `addedToCart` and the last summary the
   * save effect wrote under "cartItems". The effect runs on mount and after
   * every change of the list, so the saved summary always describes the list.
   */
  class CartScreen {
    var addedToCart: seq<Product>
    var savedCartItems: CartItems

    ghost predicate Valid()
      reads this
    {
      savedCartItems == Summarize(addedToCart)
    }

    /** Mount: the list starts empty and the save effect writes the empty summary. */
    constructor ()
      ensures Valid() && addedToCart == []
    {
      addedToCart := [];
      savedCartItems := Summarize([]);
    }

    /** The load effect: a non-empty stored "cart" value replaces the list. */
    method LoadCart(stored: Option<seq<Product>>)
      requires Valid()
      modifies this
      ensures Valid()
      ensures addedToCart == if stored.Some? then stored.value else old(addedToCart)
    {
      if stored.Some? {
        SetAddedToCart(stored.value);
      }
    }

    /** `setAddedToCart` followed by the save effect. */
    method SetAddedToCart(items: seq<Product>)
      modifies this
      ensures Valid() && addedToCart == items
    {
      addedToCart := items;
      savedCartItems := Summarize(items);
    }

    /** The delete icon of row `index`. */
    method RemoveCartItemAt(index: int)
      requires Valid()
      modifies this
      ensures Valid()
      ensures addedToCart == RemoveCartItem(old(addedToCart), index)
    {
      var updatedCart := addedToCart;
      var k := SpliceStart(|updatedCart|, index);
      if k < |updatedCart| {
        updatedCart := updatedCart[..k] + updatedCart[k + 1..];
      }
      SetAddedToCart(updatedCart);
    }

    /** The "-" and "+" buttons of row `index`; a change below 1 returns before touching state. */
    method UpdateCartQuantityAt(index: int, delta: int)
      requires Valid() && 0 <= index < |addedToCart|
      modifies this
      ensures Valid()
      ensures addedToCart == UpdateCartQuantity(old(addedToCart), index, delta)
      ensures Quantity(old(addedToCart)[index]) + delta < 1 ==> unchanged(this)
    {
      var currentQty := Quantity(addedToCart[index]);
      var newQty := currentQty + delta;
      if newQty < 1 {
        return;
      }
      var updatedCart := addedToCart[index := addedToCart[index].(quantity := Some(newQty))];
      SetAddedToCart(updatedCart);
    }
  }
}
