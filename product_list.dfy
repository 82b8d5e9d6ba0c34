/**
 * The product list's add/remove-from-cart toggle (app/product.tsx), keyed by
 * product id, and the `Product` record the cart is made of.
 */
module ProductList {
  import opened Wrappers

  /**
   * A catalogue product, and a cart line when `quantity` is set.
   * `price` and `quantity` are optional because the cart reads them with
   * `?? 0` and `?? 1`; prices are whole currency units.
   */
  datatype Product = Product(
    id: string,
    name: string,
    description: string,
    price: Option<int>,
    svgImage: string,
    quantity: Option<int>)

  /** Some cart entry carries product id `id` (`addedToCart.some(p => p.id === id)`). */
  predicate IsAdded(cart: seq<Product>, id: string) {
    exists i :: 0 <= i < |cart| && cart[i].id == id
  }

  /** The set of ids present in a cart. */
  function Ids(cart: seq<Product>): (r: set<string>)
    ensures forall p :: p in cart ==> p.id in r
  {
    if cart == [] then {} else {cart[0].id} + Ids(cart[1..])
  }

  /** No two entries share an id. */
  predicate UniqueIds(cart: seq<Product>) {
    forall i, j :: 0 <= i < j < |cart| ==> cart[i].id != cart[j].id
  }

  /** `prev.filter(p => p.id !== id)`. */
  function RemoveId(cart: seq<Product>, id: string): (r: seq<Product>)
    ensures |r| <= |cart|
    ensures forall p :: p in r ==> p in cart && p.id != id
  {
    if cart == [] then []
    else if cart[0].id == id then RemoveId(cart[1..], id)
    else [cart[0]] + RemoveId(cart[1..], id)
  }

  /** The cart line created by "Add to Cart": `{ ...product, quantity: 1 }`. */
  function NewLine(product: Product): (r: Product)
    ensures r.quantity == Some(1) && r.(quantity := product.quantity) == product
  {
    product.(quantity := Some(1))
  }

  /** `handleCartAction`: remove every entry with the product's id if one is there, else append it with quantity 1. */
  function HandleCartAction(cart: seq<Product>, product: Product): (r: seq<Product>)
    ensures IsAdded(cart, product.id) ==> !IsAdded(r, product.id) && |r| < |cart|
    ensures !IsAdded(cart, product.id) ==> r == cart + [NewLine(product)]
  {
    if IsAdded(cart, product.id) then
      RemovingShrinks(cart, product.id);
      RemoveId(cart, product.id)
    else cart + [NewLine(product)]
  }

  /** The button's caption (app/product.tsx:68). */
  function ButtonLabel(cart: seq<Product>, id: string): (r: string)
    ensures r == "Remove from cart" <==> IsAdded(cart, id)
    ensures r == "Add to Cart" <==> !IsAdded(cart, id)
  {
    if IsAdded(cart, id) then "Remove from cart" else "Add to Cart"
  }

  /** Presence through the id set agrees with the linear scan. */
  lemma {:induction false} IsAddedIffInIds(cart: seq<Product>, id: string)
    ensures IsAdded(cart, id) <==> id in Ids(cart)
  {
    if cart != [] {
      IsAddedIffInIds(cart[1..], id);
      if IsAdded(cart[1..], id) {
        var i :| 0 <= i < |cart[1..]| && cart[1..][i].id == id;
        assert cart[i + 1].id == id;
      }
      if IsAdded(cart, id) && cart[0].id != id {
        var i :| 0 <= i < |cart| && cart[i].id == id;
        assert cart[1..][i - 1].id == id;
      }
    }
  }

  /** Filtering is the identity when no entry has the id. */
  lemma {:induction false} RemoveAbsentId(cart: seq<Product>, id: string)
    requires !IsAdded(cart, id)
    ensures RemoveId(cart, id) == cart
  {
    if cart != [] {
      assert cart[0].id != id;
      RemoveAbsentId(cart[1..], id);
      assert [cart[0]] + cart[1..] == cart;
    }
  }

  /** Filtering an entry that is there makes the cart strictly shorter and leaves no entry with that id. */
  lemma {:induction false} RemovingShrinks(cart: seq<Product>, id: string)
    requires IsAdded(cart, id)
    ensures |RemoveId(cart, id)| < |cart|
    ensures !IsAdded(RemoveId(cart, id), id)
  {
    if cart[0].id != id {
      var i :| 0 <= i < |cart| && cart[i].id == id;
      assert cart[1..][i - 1].id == id;
      RemovingShrinks(cart[1..], id);
    }
  }

  /** Filtering distributes over concatenation: the kept entries stay in their order. */
  lemma {:induction false} RemoveIdAppend(a: seq<Product>, b: seq<Product>, id: string)
    ensures RemoveId(a + b, id) == RemoveId(a, id) + RemoveId(b, id)
  {
    if a == [] {
      assert a + b == b;
    } else {
      assert (a + b)[0] == a[0];
      assert (a + b)[1..] == a[1..] + b;
      RemoveIdAppend(a[1..], b, id);
    }
  }

  /** Every entry with another id survives the filter, and in the same number of copies. */
  lemma {:induction false} RemoveIdKeepsOthers(cart: seq<Product>, id: string, p: Product)
    requires p.id != id
    ensures multiset(RemoveId(cart, id))[p] == multiset(cart)[p]
  {
    if cart != [] {
      RemoveIdKeepsOthers(cart[1..], id, p);
      assert cart == [cart[0]] + cart[1..];
    }
  }

  /** The filter only drops entries: the ids left are the old ones minus `id`. */
  lemma {:induction false} RemoveIdIds(cart: seq<Product>, id: string)
    ensures Ids(RemoveId(cart, id)) == Ids(cart) - {id}
  {
    if cart != [] {
      RemoveIdIds(cart[1..], id);
      if cart[0].id != id {
        var rest := RemoveId(cart[1..], id);
        assert ([cart[0]] + rest)[1..] == rest;
      }
    }
  }

  /** A cart with unique ids and a head whose id is absent from the rest. */
  lemma {:induction false} UniqueIdsCons(x: Product, rest: seq<Product>)
    requires UniqueIds(rest) && x.id !in Ids(rest)
    ensures UniqueIds([x] + rest)
  {
    var s := [x] + rest;
    forall i, j | 0 <= i < j < |s| ensures s[i].id != s[j].id {
      if i == 0 {
        assert s[j] == rest[j - 1] && s[j] in rest;
      } else {
        assert s[i] == rest[i - 1] && s[j] == rest[j - 1];
      }
    }
  }

  lemma {:induction false} UniqueIdsTail(cart: seq<Product>)
    requires UniqueIds(cart) && cart != []
    ensures UniqueIds(cart[1..]) && cart[0].id !in Ids(cart[1..])
  {
    IsAddedIffInIds(cart[1..], cart[0].id);
  }

  /** The filter keeps ids unique. */
  lemma {:induction false} RemoveIdUnique(cart: seq<Product>, id: string)
    requires UniqueIds(cart)
    ensures UniqueIds(RemoveId(cart, id))
  {
    if cart != [] {
      UniqueIdsTail(cart);
      RemoveIdUnique(cart[1..], id);
      if cart[0].id != id {
        RemoveIdIds(cart[1..], id);
        UniqueIdsCons(cart[0], RemoveId(cart[1..], id));
      }
    }
  }

  /** Toggling keeps product ids unique. */
  lemma ToggleKeepsIdsUnique(cart: seq<Product>, product: Product)
    requires UniqueIds(cart)
    ensures UniqueIds(HandleCartAction(cart, product))
  {
    if IsAdded(cart, product.id) {
      RemoveIdUnique(cart, product.id);
    } else {
      var r := cart + [NewLine(product)];
      forall i, j | 0 <= i < j < |r| ensures r[i].id != r[j].id {
        if j == |cart| {
          assert r[i] == cart[i];
        }
      }
    }
  }

  /** Toggling a product twice, starting from a cart without it, gives back the cart. */
  lemma ToggleTwiceRestores(cart: seq<Product>, product: Product)
    requires !IsAdded(cart, product.id)
    ensures HandleCartAction(HandleCartAction(cart, product), product) == cart
  {
    var once := cart + [NewLine(product)];
    assert once[|cart|].id == product.id;
    RemoveIdAppend(cart, [NewLine(product)], product.id);
    RemoveAbsentId(cart, product.id);
    assert RemoveId([NewLine(product)], product.id) == [];
  }

  /** A toggle never alters, drops or duplicates an entry whose id differs from the product's. */
  lemma ToggleKeepsOtherEntries(cart: seq<Product>, product: Product, p: Product)
    requires p.id != product.id
    ensures multiset(HandleCartAction(cart, product))[p] == multiset(cart)[p]
  {
    if IsAdded(cart, product.id) {
      RemoveIdKeepsOthers(cart, product.id, p);
    }
  }

  /** The button offers removal exactly when pressing it would shrink the cart. */
  lemma ButtonLabelMatchesAction(cart: seq<Product>, product: Product)
    ensures ButtonLabel(cart, product.id) == "Remove from cart"
            <==> |HandleCartAction(cart, product)| < |cart|
  {
  }
}
