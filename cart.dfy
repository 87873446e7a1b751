/** The client's shopping cart: a list of `{ _id, name, price, quantity }`
    records kept in React state and persisted in `localStorage` under
    `"cart-" + email`. The updates the pages perform are stated once here;
    the pages' methods perform them step by step. Prices are integer cents. */
module Cart {
  import opened Lists

  datatype CartItem = CartItem(id: string, name: string, price: int, quantity: int)

  function ItemId(x: CartItem): string { x.id }

  /** The invariant the cart operations keep: ids are distinct and every quantity is at least 1. */
  ghost predicate WellFormed(cart: seq<CartItem>)
  {
    KeysDistinct(cart, ItemId) && forall j :: 0 <= j < |cart| ==> cart[j].quantity >= 1
  }

  /** The `localStorage` key of a user's cart. */
  function CartKey(email: string): string
  {
    "cart-" + email
  }

  /** Distinct users have distinct cart keys. */
  lemma CartKeyInjective(a: string, b: string)
    requires CartKey(a) == CartKey(b)
    ensures a == b
  {
    assert a == CartKey(a)[5..] && b == CartKey(b)[5..];
  }

  /** Add one unit of product `id`: an item already in the cart gets one more
      (found with `findIndex`), otherwise `{ id, name, price, 1 }` is pushed. */
  function Added(cart: seq<CartItem>, id: string, name: string, price: int): (r: seq<CartItem>)
    ensures var i := IndexOfKey(cart, ItemId, id);
      i >= 0 ==> |r| == |cart| && r[i] == cart[i].(quantity := cart[i].quantity + 1)
                 && forall j :: 0 <= j < |cart| && j != i ==> r[j] == cart[j]
    ensures IndexOfKey(cart, ItemId, id) == -1 ==> r == cart + [CartItem(id, name, price, 1)]
  {
    var i := IndexOfKey(cart, ItemId, id);
    if i >= 0 then cart[i := cart[i].(quantity := cart[i].quantity + 1)]
    else cart + [CartItem(id, name, price, 1)]
  }

  /** `removeOneItem`'s update: a quantity above 1 drops by one, an item with
      quantity 1 is spliced out, an absent id leaves the cart as it is. */
  function RemovedOne(cart: seq<CartItem>, id: string): (r: seq<CartItem>)
    ensures IndexOfKey(cart, ItemId, id) == -1 ==> r == cart
    ensures var i := IndexOfKey(cart, ItemId, id);
      i >= 0 && cart[i].quantity > 1 ==>
        |r| == |cart| && r[i] == cart[i].(quantity := cart[i].quantity - 1)
        && forall j :: 0 <= j < |cart| && j != i ==> r[j] == cart[j]
    ensures var i := IndexOfKey(cart, ItemId, id);
      i >= 0 && cart[i].quantity <= 1 ==> r == cart[..i] + cart[i + 1..]
  {
    var i := IndexOfKey(cart, ItemId, id);
    if i == -1 then cart
    else if cart[i].quantity > 1 then cart[i := cart[i].(quantity := cart[i].quantity - 1)]
    else cart[..i] + cart[i + 1..]
  }

  /** `removeItem`'s update: `cart.filter(item => item._id !== id)`. */
  function RemovedAll(cart: seq<CartItem>, id: string): (r: seq<CartItem>)
    ensures |r| <= |cart|
    ensures forall j :: 0 <= j < |r| ==> r[j].id != id
  {
    RemoveKey(cart, ItemId, id)
  }

  /** A left fold `s.reduce((acc, x) => acc + f(x), 0)`. */
  function SumOf(s: seq<CartItem>, f: CartItem -> int): int
  {
    if s == [] then 0 else SumOf(s[..|s| - 1], f) + f(s[|s| - 1])
  }

  function LineTotal(x: CartItem): int { x.price * x.quantity }

  /** `calculateTotal`: the sum of price × quantity, 0 for an empty cart. */
  function Total(cart: seq<CartItem>): int
  {
    SumOf(cart, LineTotal)
  }

  function QuantityIf(id: string): CartItem -> int
  {
    (x: CartItem) => if x.id == id then x.quantity else 0
  }

  /** How many units of product `id` the cart holds: the cart read as a bag. */
  function Quantity(cart: seq<CartItem>, id: string): int
  {
    SumOf(cart, QuantityIf(id))
  }

  lemma {:induction false} SumAppend(a: seq<CartItem>, b: seq<CartItem>, f: CartItem -> int)
    ensures SumOf(a + b, f) == SumOf(a, f) + SumOf(b, f)
  {
    if b == [] {
      assert a + b == a;
    } else {
      assert (a + b)[..|a + b| - 1] == a + b[..|b| - 1];
      SumAppend(a, b[..|b| - 1], f);
    }
  }

  lemma SumSingle(x: CartItem, f: CartItem -> int)
    ensures SumOf([x], f) == f(x)
  {
    assert [x][..0] == [];
  }

  /** Appending one element adds its term. */
  lemma SumSnoc(a: seq<CartItem>, x: CartItem, f: CartItem -> int)
    ensures SumOf(a + [x], f) == SumOf(a, f) + f(x)
  {
    assert (a + [x])[..|a|] == a;
  }

  /** The sum around one element is the sums of both sides plus its term. */
  lemma SumSplit(a: seq<CartItem>, x: CartItem, b: seq<CartItem>, f: CartItem -> int)
    ensures SumOf(a + [x] + b, f) == SumOf(a, f) + f(x) + SumOf(b, f)
  {
    SumAppend(a + [x], b, f);
    SumSnoc(a, x, f);
  }

  /** Replacing one element changes the sum by the difference of the two. */
  lemma SumUpdate(s: seq<CartItem>, i: int, v: CartItem, f: CartItem -> int)
    requires 0 <= i < |s|
    ensures SumOf(s[i := v], f) == SumOf(s, f) - f(s[i]) + f(v)
  {
    var a, x, b := s[..i], s[i], s[i + 1..];
    assert s == a + [x] + b;
    assert s[i := v] == a + [v] + b;
    SumSplit(a, x, b, f);
    SumSplit(a, v, b, f);
  }

  /** Splicing out one element takes its term out of the sum. */
  lemma SumRemoveAt(s: seq<CartItem>, i: int, f: CartItem -> int)
    requires 0 <= i < |s|
    ensures SumOf(s[..i] + s[i + 1..], f) == SumOf(s, f) - f(s[i])
  {
    var a, x, b := s[..i], s[i], s[i + 1..];
    assert s == a + [x] + b;
    SumSplit(a, x, b, f);
    SumAppend(a, b, f);
  }

  /** Changing a line's quantity by `d` changes its total by `d` units of its price. */
  lemma LineTotalStep(x: CartItem, d: int)
    ensures LineTotal(x.(quantity := x.quantity + d)) == LineTotal(x) + d * x.price
  {
    calc {
      LineTotal(x.(quantity := x.quantity + d));
      x.price * (x.quantity + d);
      { assert x.price * (x.quantity + d) == x.price * x.quantity + x.price * d; }
      LineTotal(x) + d * x.price;
    }
  }

  /** A product the cart does not hold has quantity 0. */
  lemma {:induction false} QuantityAbsent(cart: seq<CartItem>, id: string)
    requires forall j :: 0 <= j < |cart| ==> cart[j].id != id
    ensures Quantity(cart, id) == 0
  {
    if cart != [] {
      QuantityAbsent(cart[..|cart| - 1], id);
    }
  }

  /** In a well-formed cart the quantity of a product is that of its one item. */
  lemma QuantityOfItem(cart: seq<CartItem>, i: int)
    requires WellFormed(cart)
    requires 0 <= i < |cart|
    ensures Quantity(cart, cart[i].id) == cart[i].quantity
  {
    var id := cart[i].id;
    assert cart == cart[..i] + [cart[i]] + cart[i + 1..];
    SumAppend(cart[..i] + [cart[i]], cart[i + 1..], QuantityIf(id));
    SumAppend(cart[..i], [cart[i]], QuantityIf(id));
    SumSingle(cart[i], QuantityIf(id));
    forall j | 0 <= j < |cart| && j != i ensures cart[j].id != id {
      if j < i {
        assert ItemId(cart[j]) != ItemId(cart[i]);
      } else {
        assert ItemId(cart[i]) != ItemId(cart[j]);
      }
    }
    assert forall j :: 0 <= j < i ==> cart[..i][j] == cart[j];
    var tail := cart[i + 1..];
    assert forall j :: 0 <= j < |tail| ==> tail[j] == cart[i + 1 + j];
    QuantityAbsent(cart[..i], id);
    QuantityAbsent(cart[i + 1..], id);
  }

  /** Adding one unit of `id` adds exactly one to its quantity and changes no other. */
  lemma AddedQuantity(cart: seq<CartItem>, id: string, name: string, price: int, x: string)
    ensures Quantity(Added(cart, id, name, price), x) == Quantity(cart, x) + (if x == id then 1 else 0)
  {
    var i := IndexOfKey(cart, ItemId, id);
    if i >= 0 {
      var v := cart[i].(quantity := cart[i].quantity + 1);
      assert Added(cart, id, name, price) == cart[i := v];
      SumUpdate(cart, i, v, QuantityIf(x));
    } else {
      SumSnoc(cart, CartItem(id, name, price, 1), QuantityIf(x));
    }
  }

  /** Adding one unit raises the total by that item's price (the given price for a new item). */
  lemma AddedTotal(cart: seq<CartItem>, id: string, name: string, price: int)
    ensures var i := IndexOfKey(cart, ItemId, id);
      Total(Added(cart, id, name, price)) == Total(cart) + (if i >= 0 then cart[i].price else price)
  {
    var i := IndexOfKey(cart, ItemId, id);
    if i >= 0 {
      var v := cart[i].(quantity := cart[i].quantity + 1);
      assert Added(cart, id, name, price) == cart[i := v];
      SumUpdate(cart, i, v, LineTotal);
      LineTotalStep(cart[i], 1);
    } else {
      SumSnoc(cart, CartItem(id, name, price, 1), LineTotal);
    }
  }

  lemma AddedWellFormed(cart: seq<CartItem>, id: string, name: string, price: int)
    requires WellFormed(cart)
    ensures WellFormed(Added(cart, id, name, price))
  {
    var r := Added(cart, id, name, price);
    var i := IndexOfKey(cart, ItemId, id);
    if i >= 0 {
      forall a, b | 0 <= a < b < |r| ensures ItemId(r[a]) != ItemId(r[b]) {
        assert ItemId(r[a]) == ItemId(cart[a]) && ItemId(r[b]) == ItemId(cart[b]);
      }
    } else {
      forall a, b | 0 <= a < b < |r| ensures ItemId(r[a]) != ItemId(r[b]) {
        if b == |cart| {
          assert r[a] == cart[a];
        } else {
          assert r[a] == cart[a] && r[b] == cart[b];
        }
      }
    }
  }

  lemma RemovedOneWellFormed(cart: seq<CartItem>, id: string)
    requires WellFormed(cart)
    ensures WellFormed(RemovedOne(cart, id))
  {
    var r := RemovedOne(cart, id);
    var i := IndexOfKey(cart, ItemId, id);
    if i >= 0 && cart[i].quantity > 1 {
      forall a, b | 0 <= a < b < |r| ensures ItemId(r[a]) != ItemId(r[b]) {
        assert ItemId(r[a]) == ItemId(cart[a]) && ItemId(r[b]) == ItemId(cart[b]);
      }
    } else if i >= 0 {
      forall a, b | 0 <= a < b < |r| ensures ItemId(r[a]) != ItemId(r[b]) {
        var a', b' := if a < i then a else a + 1, if b < i then b else b + 1;
        assert r[a] == cart[a'] && r[b] == cart[b'] && a' < b';
      }
      forall j | 0 <= j < |r| ensures r[j].quantity >= 1 {
        assert r[j] == cart[if j < i then j else j + 1];
      }
    }
  }

  /** On a well-formed cart, removing one unit of a held product takes exactly
      one from its quantity and changes no other; an absent id changes nothing. */
  lemma RemovedOneQuantity(cart: seq<CartItem>, id: string, x: string)
    requires WellFormed(cart)
    ensures Quantity(RemovedOne(cart, id), x)
            == Quantity(cart, x) - (if x == id && IndexOfKey(cart, ItemId, id) >= 0 then 1 else 0)
  {
    var i := IndexOfKey(cart, ItemId, id);
    if i >= 0 && cart[i].quantity > 1 {
      var v := cart[i].(quantity := cart[i].quantity - 1);
      assert RemovedOne(cart, id) == cart[i := v];
      SumUpdate(cart, i, v, QuantityIf(x));
    } else if i >= 0 {
      assert cart[i].quantity == 1;
      assert RemovedOne(cart, id) == cart[..i] + cart[i + 1..];
      SumRemoveAt(cart, i, QuantityIf(x));
    }
  }

  /** Removing one unit lowers the total by that item's price. */
  lemma RemovedOneTotal(cart: seq<CartItem>, id: string)
    requires WellFormed(cart)
    ensures var i := IndexOfKey(cart, ItemId, id);
      Total(RemovedOne(cart, id)) == Total(cart) - (if i >= 0 then cart[i].price else 0)
  {
    var i := IndexOfKey(cart, ItemId, id);
    if i >= 0 && cart[i].quantity > 1 {
      var v := cart[i].(quantity := cart[i].quantity - 1);
      assert RemovedOne(cart, id) == cart[i := v];
      SumUpdate(cart, i, v, LineTotal);
      LineTotalStep(cart[i], -1);
    } else if i >= 0 {
      assert cart[i].quantity == 1;
      assert RemovedOne(cart, id) == cart[..i] + cart[i + 1..];
      SumRemoveAt(cart, i, LineTotal);
    }
  }

  /** `removeItem` keeps the other items in their order, and on a
      well-formed cart it is the splice of the one matching item. */
  lemma RemovedAllShape(cart: seq<CartItem>, id: string)
    requires WellFormed(cart)
    ensures var i := IndexOfKey(cart, ItemId, id);
      RemovedAll(cart, id) == if i >= 0 then cart[..i] + cart[i + 1..] else cart
  {
    var i := IndexOfKey(cart, ItemId, id);
    if i >= 0 {
      RemoveUniqueKey(cart, ItemId, i);
    } else {
      RemoveAbsentKey(cart, ItemId, id);
    }
  }

  lemma RemovedAllWellFormed(cart: seq<CartItem>, id: string)
    requires WellFormed(cart)
    ensures WellFormed(RemovedAll(cart, id))
  {
    RemovedAllShape(cart, id);
    var i := IndexOfKey(cart, ItemId, id);
    if i >= 0 {
      var r := RemovedAll(cart, id);
      forall a, b | 0 <= a < b < |r| ensures ItemId(r[a]) != ItemId(r[b]) {
        var a', b' := if a < i then a else a + 1, if b < i then b else b + 1;
        assert r[a] == cart[a'] && r[b] == cart[b'] && a' < b';
      }
      forall j | 0 <= j < |r| ensures r[j].quantity >= 1 {
        assert r[j] == cart[if j < i then j else j + 1];
      }
    }
  }

  /** `removeItem` sets the product's quantity to 0 and changes no other;
      the total loses that item's line. */
  lemma RemovedAllQuantityAndTotal(cart: seq<CartItem>, id: string, x: string)
    requires WellFormed(cart)
    ensures Quantity(RemovedAll(cart, id), x) == if x == id then 0 else Quantity(cart, x)
    ensures var i := IndexOfKey(cart, ItemId, id);
      Total(RemovedAll(cart, id)) == Total(cart) - (if i >= 0 then LineTotal(cart[i]) else 0)
  {
    RemovedAllShape(cart, id);
    var i := IndexOfKey(cart, ItemId, id);
    if i >= 0 {
      SumRemoveAt(cart, i, QuantityIf(x));
      SumRemoveAt(cart, i, LineTotal);
      if x == id {
        QuantityOfItem(cart, i);
      }
    } else if x == id {
      QuantityAbsent(cart, id);
    }
  }
}
