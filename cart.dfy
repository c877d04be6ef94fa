/** The client-side cart store: a list of cart lines, replaced as a whole
    by each of its actions, and the total derived from it. */
module Cart {
  import opened Sequences

  /** One cart line. Prices are whole Rupiah; `qty` is whatever the caller passed. */
  datatype CartItem = CartItem(id: string, name: string, price: int, qty: int)

  /** `Math.max(0, qty)`. */
  function ClampQty(qty: int): int {
    if qty < 0 then 0 else qty
  }

  predicate HasId(id: string, item: CartItem) {
    item.id == id
  }

  predicate Positive(item: CartItem) {
    item.qty > 0
  }

  function Subtotal(item: CartItem): int {
    item.price * item.qty
  }

  /** The `map` step of `updateQuantity`: every line with `id` gets the clamped quantity. */
  function SetQty(items: seq<CartItem>, id: string, qty: int): seq<CartItem> {
    Map(items, (item: CartItem) => if item.id == id then item.(qty := ClampQty(qty)) else item)
  }

  /** The new line list after `updateQuantity(id, qty)`: the `map` followed by the
      `filter` that drops every line whose quantity is not positive. */
  function WithQuantity(items: seq<CartItem>, id: string, qty: int): (r: seq<CartItem>)
    ensures forall x :: x in r ==> x.qty > 0
    ensures forall x :: x in r && x.id == id ==> qty > 0 && x.qty == qty
    ensures forall x :: x in r && x.id != id ==> x in items
    ensures forall x :: x in items && x.id != id && x.qty > 0 ==> x in r
    ensures forall x :: x in items && x.id == id && qty > 0 ==> x.(qty := qty) in r
    ensures |r| <= |items|
    ensures Subsequence(r, SetQty(items, id, qty))
  {
    var s := SetQty(items, id, qty);
    assert forall i :: 0 <= i < |items| ==> s[i] == if items[i].id == id then items[i].(qty := ClampQty(qty)) else items[i];
    Filter(s, Positive)
  }

  /** The new line list after `removeItem(id)`. */
  function Without(items: seq<CartItem>, id: string): (r: seq<CartItem>)
    ensures forall x :: x in r <==> x in items && x.id != id
    ensures forall x :: multiset(r)[x] == if x.id != id then multiset(items)[x] else 0
    ensures Subsequence(r, items)
  {
    FilterMultiset(items, (item: CartItem) => item.id != id);
    Filter(items, (item: CartItem) => item.id != id)
  }

  /** `getTotalPrice`: the `reduce` from 0 that adds `price * qty`, left to right. */
  function Total(items: seq<CartItem>): int {
    if items == [] then 0 else Total(items[..|items| - 1]) + Subtotal(items[|items| - 1])
  }

  /** Appending a line raises the total by exactly that line's subtotal. */
  lemma TotalAppend(items: seq<CartItem>, item: CartItem)
    ensures Total(items + [item]) == Total(items) + item.price * item.qty
  {
    assert (items + [item])[..|items|] == items;
  }

  /** The total of a concatenation is the sum of the totals. */
  lemma {:induction false} TotalConcat(a: seq<CartItem>, b: seq<CartItem>)
    ensures Total(a + b) == Total(a) + Total(b)
    decreases |b|
  {
    if b == [] {
      assert a + b == a;
    } else {
      var b', y := b[..|b| - 1], b[|b| - 1];
      assert b == b' + [y];
      assert a + b == (a + b') + [y];
      TotalConcat(a, b');
      TotalAppend(a + b', y);
      TotalAppend(b', y);
    }
  }

  /** Splitting the lines by any predicate splits the total accordingly. */
  lemma {:induction false} TotalSplit(items: seq<CartItem>, p: CartItem -> bool)
    ensures Total(Filter(items, p)) + Total(Filter(items, x => !p(x))) == Total(items)
  {
    if items != [] {
      var x, rest := items[0], items[1..];
      assert items == [x] + rest;
      TotalSplit(rest, p);
      TotalConcat([x], rest);
      assert Total([x]) == Subtotal(x) by { assert [x][..0] == []; }
      if p(x) {
        TotalConcat([x], Filter(rest, p));
      } else {
        TotalConcat([x], Filter(rest, y => !p(y)));
      }
    }
  }

  /** `addItem` never merges: the lines with the new line's id are the old ones
      followed by the new line, so a duplicate id becomes a second line. */
  lemma AddItemNeverMerges(items: seq<CartItem>, item: CartItem)
    ensures Filter(items + [item], x => HasId(item.id, x)) == Filter(items, x => HasId(item.id, x)) + [item]
  {
    FilterAppend(items, [item], x => HasId(item.id, x));
    assert [item][1..] == [];
  }

  /** `removeItem(id)` twice is `removeItem(id)` once. */
  lemma RemoveItemIdempotent(items: seq<CartItem>, id: string)
    ensures Without(Without(items, id), id) == Without(items, id)
  {
    FilterIdempotent(items, (item: CartItem) => item.id != id);
  }

  /** `removeItem` of an id that no line carries leaves the lines unchanged. */
  lemma RemoveAbsentItem(items: seq<CartItem>, id: string)
    requires forall x :: x in items ==> x.id != id
    ensures Without(items, id) == items
  {
    FilterKeepsAll(items, (item: CartItem) => item.id != id);
  }

  /** `removeItem(id)` lowers the total by exactly the subtotal of the lines with `id`. */
  lemma RemoveItemTotal(items: seq<CartItem>, id: string)
    ensures Total(Without(items, id)) == Total(items) - Total(Filter(items, x => HasId(id, x)))
  {
    var p := (item: CartItem) => item.id != id;
    TotalSplit(items, p);
    FilterCongruent(items, x => !p(x), x => HasId(id, x));
  }

  /** `updateQuantity(id, qty)` leaves every line with another id as it was and in
      its place; of those it drops exactly the ones whose quantity was not positive. */
  lemma {:induction false} UpdateQuantityOtherLines(items: seq<CartItem>, id: string, qty: int)
    ensures Without(WithQuantity(items, id, qty), id) == Filter(Without(items, id), Positive)
  {
    if items != [] {
      UpdateQuantityOtherLines(items[1..], id, qty);
      assert SetQty(items, id, qty) == [SetQty(items, id, qty)[0]] + SetQty(items[1..], id, qty);
    }
  }

  /** The lines with `id` after `updateQuantity(id, qty)`: the old ones, in order, with
      quantity `qty` when it is positive, and none at all otherwise. */
  lemma {:induction false} UpdateQuantityOwnLines(items: seq<CartItem>, id: string, qty: int)
    ensures Filter(WithQuantity(items, id, qty), x => HasId(id, x)) ==
            if qty > 0 then Map(Filter(items, x => HasId(id, x)), (x: CartItem) => x.(qty := qty)) else []
  {
    if items != [] {
      UpdateQuantityOwnLines(items[1..], id, qty);
      assert SetQty(items, id, qty) == [SetQty(items, id, qty)[0]] + SetQty(items[1..], id, qty);
    }
  }

  /** The store: one mutable field, `items`, that every action replaces. */
  class CartStore {
    var items: seq<CartItem>

    constructor ()
      ensures items == []
    {
      items := [];
    }

    /** `getTotalPrice`. */
    function GetTotalPrice(): int
      reads this
    {
      Total(items)
    }

    method AddItem(item: CartItem)
      modifies this
      ensures items == old(items) + [item]
      ensures GetTotalPrice() == old(GetTotalPrice()) + item.price * item.qty
    {
      TotalAppend(items, item);
      items := items + [item];
    }

    method UpdateQuantity(id: string, qty: int)
      modifies this
      ensures items == WithQuantity(old(items), id, qty)
      ensures forall x :: x in items ==> x.qty > 0
      ensures |items| <= |old(items)|
    {
      items := WithQuantity(items, id, qty);
    }

    method RemoveItem(id: string)
      modifies this
      ensures items == Without(old(items), id)
      ensures forall x :: x in items ==> x.id != id
      ensures GetTotalPrice() == old(GetTotalPrice()) - Total(Filter(old(items), x => HasId(id, x)))
    {
      RemoveItemTotal(items, id);
      items := Without(items, id);
    }

    method ClearCart()
      modifies this
      ensures items == []
      ensures GetTotalPrice() == 0
    {
      items := [];
    }
  }
}
