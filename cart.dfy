/**
 * src/context/CartContext.jsx: the cart store.  The cart is a list of lines; each action
 * replaces it through a pure updater (`setCart(prev => ...)`), and `total` and `totalItems`
 * are sums over it.
 */
module CartStore {
  import opened JsText
  import opened Wrappers

  /** One cart line: the fields copied from the menu item when it was added, and its quantity. */
  datatype CartLine = CartLine(
    id: string,
    name: Option<string>,
    price: Num,
    imageUrl: Option<string>,
    category: string,
    deliveryDate: int,
    deliveryAvailable: bool,
    dayLabel: string,
    qty: int)

  // ---------------------------------------------------------------- the updaters

  predicate HasId(cart: seq<CartLine>, id: string) {
    exists i :: 0 <= i < |cart| && cart[i].id == id
  }

  /** `prev.map(p => p.id === id ? { ...p, qty: p.qty + 1 } : p)` */
  function Bumped(cart: seq<CartLine>, id: string): seq<CartLine> {
    seq(|cart|, i requires 0 <= i < |cart| => if cart[i].id == id then cart[i].(qty := cart[i].qty + 1) else cart[i])
  }

  /** The `addToCart` updater: a present id gains one unit, a new id is appended with quantity 1. */
  function Added(cart: seq<CartLine>, item: CartLine): seq<CartLine> {
    if HasId(cart, item.id) then Bumped(cart, item.id) else cart + [item.(qty := 1)]
  }

  function Max1(q: int): int {
    if q < 1 then 1 else q
  }

  /** The `updateQty` updater: `Math.max(1, qty)` on the lines with that id. */
  function QtyUpdated(cart: seq<CartLine>, id: string, q: int): seq<CartLine> {
    seq(|cart|, i requires 0 <= i < |cart| => if cart[i].id == id then cart[i].(qty := Max1(q)) else cart[i])
  }

  /** The `removeFromCart` updater: `prev.filter(p => p.id !== id)`. */
  function Removed(cart: seq<CartLine>, id: string): seq<CartLine> {
    if cart == [] then [] else (if cart[0].id != id then [cart[0]] else []) + Removed(cart[1..], id)
  }

  // ---------------------------------------------------------------- derived values

  /** `Number(it.price) || 0` */
  function PriceOrZero(p: Num): int {
    match p
    case Finite(n) => n
    case NaN => 0
  }

  /** `it.qty || 1` */
  function QtyOr1(q: int): int {
    if q == 0 then 1 else q
  }

  function LineAmount(l: CartLine): int {
    PriceOrZero(l.price) * QtyOr1(l.qty)
  }

  /** `total`: the sum of price times quantity over the lines. */
  function CartTotal(cart: seq<CartLine>): int {
    if cart == [] then 0 else LineAmount(cart[0]) + CartTotal(cart[1..])
  }

  /** No line has a negative price or quantity. */
  predicate NoNegativeLine(cart: seq<CartLine>) {
    forall i :: 0 <= i < |cart| ==> PriceOrZero(cart[i].price) >= 0 && cart[i].qty >= 0
  }

  /** `totalItems`: the sum of the quantities (`it.qty || 0` is the quantity itself). */
  function TotalItems(cart: seq<CartLine>): int {
    if cart == [] then 0 else cart[0].qty + TotalItems(cart[1..])
  }

  // ---------------------------------------------------------------- the invariant

  predicate UniqueIds(cart: seq<CartLine>) {
    forall i, j :: 0 <= i < j < |cart| ==> cart[i].id != cart[j].id
  }

  predicate QtysPositive(cart: seq<CartLine>) {
    forall i :: 0 <= i < |cart| ==> cart[i].qty >= 1
  }

  /** What the actions keep: one line per id, every quantity at least 1. */
  predicate CartInvariant(cart: seq<CartLine>) {
    UniqueIds(cart) && QtysPositive(cart)
  }

  /** The total is never negative when no price or quantity is. */
  lemma {:induction false} TotalNonNegative(cart: seq<CartLine>)
    requires NoNegativeLine(cart)
    ensures CartTotal(cart) >= 0
    decreases |cart|
  {
    if cart != [] {
      assert NoNegativeLine(cart[1..]) by {
        forall i | 0 <= i < |cart[1..]|
          ensures PriceOrZero(cart[1..][i].price) >= 0 && cart[1..][i].qty >= 0
        {
          assert cart[1..][i] == cart[i + 1];
        }
      }
      TotalNonNegative(cart[1..]);
      var p, q := PriceOrZero(cart[0].price), QtyOr1(cart[0].qty);
      assert p >= 0 && q >= 0;
      assert LineAmount(cart[0]) == p * q >= 0;
    }
  }

  /** With every quantity at least 1 there are at least as many items as lines. */
  lemma {:induction false} TotalItemsAtLeastLines(cart: seq<CartLine>)
    requires QtysPositive(cart)
    ensures TotalItems(cart) >= |cart|
    decreases |cart|
  {
    if cart != [] {
      assert QtysPositive(cart[1..]) by {
        forall i | 0 <= i < |cart[1..]|
          ensures cart[1..][i].qty >= 1
        {
          assert cart[1..][i] == cart[i + 1];
        }
      }
      TotalItemsAtLeastLines(cart[1..]);
    }
  }

  lemma EmptyCartInvariant()
    ensures CartInvariant([]) && CartTotal([]) == 0 && TotalItems([]) == 0
  {
  }

  // ---------------------------------------------------------------- sums under one-line changes

  /** Replacing one line changes the sums by the difference of that line alone. */
  lemma {:induction false} SumsUnderUpdate(cart: seq<CartLine>, k: nat, l: CartLine)
    requires k < |cart|
    ensures CartTotal(cart[k := l]) == CartTotal(cart) - LineAmount(cart[k]) + LineAmount(l)
    ensures TotalItems(cart[k := l]) == TotalItems(cart) - cart[k].qty + l.qty
    decreases |cart|
  {
    if k > 0 {
      assert cart[k := l][1..] == cart[1..][k - 1 := l];
      SumsUnderUpdate(cart[1..], k - 1, l);
    } else {
      assert cart[k := l][1..] == cart[1..];
    }
  }

  lemma {:induction false} SumsAppend(cart: seq<CartLine>, l: CartLine)
    ensures CartTotal(cart + [l]) == CartTotal(cart) + LineAmount(l)
    ensures TotalItems(cart + [l]) == TotalItems(cart) + l.qty
    decreases |cart|
  {
    if cart == [] {
      assert [l][1..] == [];
    } else {
      assert (cart + [l])[1..] == cart[1..] + [l];
      SumsAppend(cart[1..], l);
    }
  }

  /** With unique ids, touching the lines with the id of line `k` touches line `k` alone. */
  lemma OnlyLineWithId(cart: seq<CartLine>, k: nat)
    requires UniqueIds(cart) && k < |cart|
    ensures forall i :: 0 <= i < |cart| && cart[i].id == cart[k].id ==> i == k
  {
  }

  // ---------------------------------------------------------------- addToCart

  /**
   * Adding a present id adds one to that line's quantity and changes nothing else; the cart
   * keeps its length.
   */
  lemma AddPresentId(cart: seq<CartLine>, item: CartLine, k: nat)
    requires UniqueIds(cart) && k < |cart| && cart[k].id == item.id
    ensures Added(cart, item) == cart[k := cart[k].(qty := cart[k].qty + 1)]
    ensures |Added(cart, item)| == |cart|
  {
    OnlyLineWithId(cart, k);
    assert HasId(cart, item.id);
  }

  /** Adding a new id appends one line with quantity 1 at the end. */
  lemma AddNewId(cart: seq<CartLine>, item: CartLine)
    requires !HasId(cart, item.id)
    ensures Added(cart, item) == cart + [item.(qty := 1)]
    ensures |Added(cart, item)| == |cart| + 1
  {
  }

  lemma AddedKeepsInvariant(cart: seq<CartLine>, item: CartLine)
    requires CartInvariant(cart)
    ensures CartInvariant(Added(cart, item))
  {
    if HasId(cart, item.id) {
      var k :| 0 <= k < |cart| && cart[k].id == item.id;
      AddPresentId(cart, item, k);
    } else {
      var r := Added(cart, item);
      assert forall i :: 0 <= i < |cart| ==> r[i] == cart[i];
    }
  }

  /** Adding a present id: one more unit, and the total grows by that line's price. */
  lemma AddedSumsPresent(cart: seq<CartLine>, item: CartLine, k: nat)
    requires CartInvariant(cart) && k < |cart| && cart[k].id == item.id
    ensures TotalItems(Added(cart, item)) == TotalItems(cart) + 1
    ensures CartTotal(Added(cart, item)) == CartTotal(cart) + PriceOrZero(cart[k].price)
  {
    AddPresentId(cart, item, k);
    SumsOneMore(cart, k);
  }

  /** One more unit on line `k` adds one item and that line's price. */
  lemma SumsOneMore(cart: seq<CartLine>, k: nat)
    requires k < |cart| && cart[k].qty >= 1
    ensures TotalItems(cart[k := cart[k].(qty := cart[k].qty + 1)]) == TotalItems(cart) + 1
    ensures CartTotal(cart[k := cart[k].(qty := cart[k].qty + 1)]) == CartTotal(cart) + PriceOrZero(cart[k].price)
  {
    SumsUnderUpdate(cart, k, cart[k].(qty := cart[k].qty + 1));
    AmountOfOneMore(cart[k]);
  }

  lemma AmountOfOneMore(l: CartLine)
    requires l.qty >= 1
    ensures LineAmount(l.(qty := l.qty + 1)) == LineAmount(l) + PriceOrZero(l.price)
  {
    var p, q := PriceOrZero(l.price), l.qty;
    assert QtyOr1(q) == q && QtyOr1(q + 1) == q + 1;
    assert p * (q + 1) == p * q + p;
  }

  /** Adding a new id: one more unit, and the total grows by the item's price. */
  lemma AddedSumsNew(cart: seq<CartLine>, item: CartLine)
    requires !HasId(cart, item.id)
    ensures TotalItems(Added(cart, item)) == TotalItems(cart) + 1
    ensures CartTotal(Added(cart, item)) == CartTotal(cart) + PriceOrZero(item.price)
  {
    SumsAppend(cart, item.(qty := 1));
  }

  /** Removing an id that was just added for the first time gives the cart back, so the total too. */
  lemma AddThenRemove(cart: seq<CartLine>, item: CartLine)
    requires !HasId(cart, item.id)
    ensures Removed(Added(cart, item), item.id) == cart
    ensures CartTotal(Removed(Added(cart, item), item.id)) == CartTotal(cart)
  {
    RemovedAppend(cart, item.(qty := 1), item.id);
    RemoveAbsent(cart, item.id);
  }

  lemma {:induction false} RemovedAppend(cart: seq<CartLine>, l: CartLine, id: string)
    ensures Removed(cart + [l], id) == Removed(cart, id) + (if l.id != id then [l] else [])
    decreases |cart|
  {
    if cart == [] {
      assert [l][1..] == [];
    } else {
      assert (cart + [l])[1..] == cart[1..] + [l];
      RemovedAppend(cart[1..], l, id);
    }
  }

  lemma {:induction false} RemoveAbsent(cart: seq<CartLine>, id: string)
    requires !HasId(cart, id)
    ensures Removed(cart, id) == cart
    decreases |cart|
  {
    if cart != [] {
      assert !HasId(cart[1..], id) by {
        forall i | 0 <= i < |cart[1..]| ensures cart[1..][i].id != id {
          assert cart[1..][i] == cart[i + 1];
        }
      }
      RemoveAbsent(cart[1..], id);
      assert [cart[0]] + cart[1..] == cart;
    }
  }

  // ---------------------------------------------------------------- updateQty

  /** `updateQty(id, q)`: that line's quantity becomes max(1, q); every other line is unchanged. */
  lemma QtyUpdatedEffect(cart: seq<CartLine>, id: string, q: int)
    requires CartInvariant(cart)
    ensures CartInvariant(QtyUpdated(cart, id, q))
    ensures |QtyUpdated(cart, id, q)| == |cart|
    ensures forall k :: 0 <= k < |cart| && cart[k].id == id ==>
              && QtyUpdated(cart, id, q) == cart[k := cart[k].(qty := Max1(q))]
              && TotalItems(QtyUpdated(cart, id, q)) == TotalItems(cart) - cart[k].qty + Max1(q)
    ensures !HasId(cart, id) ==> QtyUpdated(cart, id, q) == cart
  {
    forall k | 0 <= k < |cart| && cart[k].id == id
      ensures QtyUpdated(cart, id, q) == cart[k := cart[k].(qty := Max1(q))]
      ensures TotalItems(QtyUpdated(cart, id, q)) == TotalItems(cart) - cart[k].qty + Max1(q)
    {
      OnlyLineWithId(cart, k);
      SumsUnderUpdate(cart, k, cart[k].(qty := Max1(q)));
    }
  }

  /** A quantity at or below zero is stored as 1, never 0 or negative. */
  lemma QtyFloor(cart: seq<CartLine>, id: string, q: int)
    requires q <= 0
    ensures forall i :: 0 <= i < |cart| && cart[i].id == id ==> QtyUpdated(cart, id, q)[i].qty == 1
  {
  }

  // ---------------------------------------------------------------- removeFromCart

  /** `removeFromCart(id)` drops exactly the lines with that id and keeps the rest. */
  lemma {:induction false} RemovedLines(cart: seq<CartLine>, id: string)
    ensures forall l :: l in Removed(cart, id) <==> l in cart && l.id != id
    ensures |Removed(cart, id)| <= |cart|
    decreases |cart|
  {
    if cart != [] {
      RemovedLines(cart[1..], id);
      assert forall l :: l in cart <==> l == cart[0] || l in cart[1..];
    }
  }

  /** Removed lines keep their relative order: the result is a subsequence of the cart. */
  predicate Subsequence(xs: seq<CartLine>, ys: seq<CartLine>)
    decreases |ys|
  {
    xs == [] || (ys != [] && ((xs[0] == ys[0] && Subsequence(xs[1..], ys[1..])) || Subsequence(xs, ys[1..])))
  }

  lemma {:induction false} RemovedInOrder(cart: seq<CartLine>, id: string)
    ensures Subsequence(Removed(cart, id), cart)
    decreases |cart|
  {
    if cart != [] {
      RemovedInOrder(cart[1..], id);
      var r := Removed(cart, id);
      if cart[0].id != id {
        assert r == [cart[0]] + Removed(cart[1..], id);
        assert r[0] == cart[0] && r[1..] == Removed(cart[1..], id);
      } else {
        assert r == Removed(cart[1..], id);
      }
    }
  }

  lemma {:induction false} RemovedKeepsInvariant(cart: seq<CartLine>, id: string)
    requires CartInvariant(cart)
    ensures CartInvariant(Removed(cart, id))
    ensures !HasId(Removed(cart, id), id)
    decreases |cart|
  {
    if cart != [] {
      assert CartInvariant(cart[1..]);
      RemovedKeepsInvariant(cart[1..], id);
      RemovedLines(cart[1..], id);
      var rest := Removed(cart[1..], id);
      if cart[0].id != id {
        assert Removed(cart, id) == [cart[0]] + rest;
        forall l | l in rest ensures l.id != cart[0].id {
          var m :| 0 <= m < |cart[1..]| && cart[1..][m] == l;
          assert cart[m + 1] == l;
        }
        ConsKeepsInvariant(cart[0], rest, id);
      } else {
        assert Removed(cart, id) == rest;
      }
    }
  }

  /** A line with a fresh id and a positive quantity in front of a cart keeps the invariant. */
  lemma ConsKeepsInvariant(l: CartLine, rest: seq<CartLine>, id: string)
    requires CartInvariant(rest) && !HasId(rest, id) && l.qty >= 1 && l.id != id
    requires forall x :: x in rest ==> x.id != l.id
    ensures CartInvariant([l] + rest) && !HasId([l] + rest, id)
  {
    var r := [l] + rest;
    forall i, j | 0 <= i < j < |r| ensures r[i].id != r[j].id {
      assert r[j] == rest[j - 1];
      if i > 0 {
        assert r[i] == rest[i - 1];
      }
    }
    forall i | 0 <= i < |r| ensures r[i].qty >= 1 && r[i].id != id {
      if i > 0 {
        assert r[i] == rest[i - 1];
      }
    }
  }

  /** Removing the line with a present id takes exactly that line's amount off the total. */
  lemma {:induction false} RemovedTotal(cart: seq<CartLine>, k: nat)
    requires UniqueIds(cart) && k < |cart|
    ensures CartTotal(Removed(cart, cart[k].id)) == CartTotal(cart) - LineAmount(cart[k])
    ensures TotalItems(Removed(cart, cart[k].id)) == TotalItems(cart) - cart[k].qty
    decreases |cart|
  {
    var id := cart[k].id;
    if k == 0 {
      assert !HasId(cart[1..], id) by {
        forall i | 0 <= i < |cart[1..]| ensures cart[1..][i].id != id {
          assert cart[1..][i] == cart[i + 1];
        }
      }
      RemoveAbsent(cart[1..], id);
      assert Removed(cart, id) == [] + cart[1..] == cart[1..];
    } else {
      assert cart[1..][k - 1] == cart[k];
      RemovedTotal(cart[1..], k - 1);
    }
  }

  // ---------------------------------------------------------------- the store

  /** The cart state held by the provider; each action replaces `lines`. */
  class Cart {
    var lines: seq<CartLine>

    /**
     * The initial cart: the stored cart, or the empty cart when nothing is stored or the
     * stored text does not parse (`stored` is None).
     */
    constructor (stored: Option<seq<CartLine>>)
      ensures lines == stored.GetOr([])
      ensures stored == None ==> CartInvariant(lines)
    {
      lines := stored.GetOr([]);
    }

    method AddToCart(item: CartLine)
      modifies this
      ensures lines == Added(old(lines), item)
      ensures CartInvariant(old(lines)) ==> CartInvariant(lines)
    {
      if CartInvariant(lines) {
        AddedKeepsInvariant(lines, item);
      }
      lines := Added(lines, item);
    }

    method UpdateQty(id: string, q: int)
      modifies this
      ensures lines == QtyUpdated(old(lines), id, q)
      ensures CartInvariant(old(lines)) ==> CartInvariant(lines)
    {
      if CartInvariant(lines) {
        QtyUpdatedEffect(lines, id, q);
      }
      lines := QtyUpdated(lines, id, q);
    }

    method RemoveFromCart(id: string)
      modifies this
      ensures lines == Removed(old(lines), id)
      ensures CartInvariant(old(lines)) ==> CartInvariant(lines)
    {
      if CartInvariant(lines) {
        RemovedKeepsInvariant(lines, id);
      }
      lines := Removed(lines, id);
    }

    method ClearCart()
      modifies this
      ensures lines == [] && CartTotal(lines) == 0 && TotalItems(lines) == 0
    {
      lines := [];
    }
  }
}
