/**
 * The cart: a sequence of lines keyed by the product's `_id`, kept in
 * insertion order. These functions compute the new cart that each handler
 * hands to its setter, and the bill derived from the cart.
 */
module CartLines {
  import opened Products

  /** Some line belongs to product `id`. */
  predicate HasId(c: seq<Line>, id: string)
  {
    exists i :: 0 <= i < |c| && c[i].product.id == id
  }

  /** No two lines belong to the same product. */
  predicate UniqueIds(c: seq<Line>)
  {
    forall i, j :: 0 <= i < j < |c| ==> c[i].product.id != c[j].product.id
  }

  /** Every line holds at least one unit. */
  predicate AllPositive(c: seq<Line>)
  {
    forall i :: 0 <= i < |c| ==> c[i].quantity >= 1
  }

  /** The position of the first line of product `id`, or -1 when there is none. */
  function FindIndex(c: seq<Line>, id: string): (r: int)
    ensures -1 <= r < |c|
    ensures r == -1 <==> !HasId(c, id)
    ensures 0 <= r ==> c[r].product.id == id && forall j :: 0 <= j < r ==> c[j].product.id != id
  {
    if c == [] then -1
    else if c[0].product.id == id then 0
    else
      var k := FindIndex(c[1..], id);
      assert forall j :: 1 <= j < |c| ==> c[j] == c[1..][j - 1];
      if k == -1 then -1 else k + 1
  }

  /**
   * The cart after the working item `w` is committed: when a line of the
   * same product exists, the first such line grows by `w`'s quantity and
   * nothing else changes; otherwise `w` becomes a new last line.
   */
  function AddLine(c: seq<Line>, w: Line): (r: seq<Line>)
    ensures !HasId(c, w.product.id) ==> r == c + [w]
    ensures HasId(c, w.product.id) ==>
              var k := FindIndex(c, w.product.id);
              && |r| == |c|
              && r[k].product == c[k].product
              && r[k].quantity == c[k].quantity + w.quantity
              && forall i :: 0 <= i < |c| && i != k ==> r[i] == c[i]
  {
    var k := FindIndex(c, w.product.id);
    if k > -1 then
      // mapping every position to itself except `k` is a point update
      c[k := c[k].(quantity := c[k].quantity + w.quantity)]
    else
      c + [w]
  }

  /**
   * After a commit the product is in the cart; a cart with one line per
   * product keeps that property, and quantities of at least one stay so
   * when the committed quantity is at least one.
   */
  lemma AddLineKeepsInvariant(c: seq<Line>, w: Line)
    ensures HasId(AddLine(c, w), w.product.id)
    ensures UniqueIds(c) ==> UniqueIds(AddLine(c, w))
    ensures AllPositive(c) && w.quantity >= 1 ==> AllPositive(AddLine(c, w))
  {
    var r := AddLine(c, w);
    if HasId(c, w.product.id) {
      var k := FindIndex(c, w.product.id);
      assert r[k].product.id == w.product.id;
    } else {
      assert r[|c|].product.id == w.product.id;
    }
  }

  /** The cart after `increaseCart(id)`: every line of product `id` holds one unit more. */
  function IncreaseLines(c: seq<Line>, id: string): (r: seq<Line>)
    ensures |r| == |c|
    ensures forall i :: 0 <= i < |c| ==> r[i].product == c[i].product
    ensures forall i :: 0 <= i < |c| && c[i].product.id == id ==> r[i].quantity == c[i].quantity + 1
    ensures forall i :: 0 <= i < |c| && c[i].product.id != id ==> r[i] == c[i]
    ensures UniqueIds(c) ==> UniqueIds(r)
    ensures AllPositive(c) ==> AllPositive(r)
  {
    seq(|c|, i requires 0 <= i < |c| =>
          if c[i].product.id == id then c[i].(quantity := c[i].quantity + 1) else c[i])
  }

  /**
   * The cart after `decreaseCart(id)`: every line of product `id` holds one
   * unit less, but never fewer than one; no line is removed.
   */
  function DecreaseLines(c: seq<Line>, id: string): (r: seq<Line>)
    ensures |r| == |c|
    ensures forall i :: 0 <= i < |c| ==> r[i].product == c[i].product
    ensures forall i :: 0 <= i < |c| && c[i].product.id == id ==>
              && r[i].quantity >= 1
              && (c[i].quantity > 1 ==> r[i].quantity == c[i].quantity - 1)
              && (c[i].quantity <= 1 ==> r[i].quantity == 1)
    ensures forall i :: 0 <= i < |c| && c[i].product.id != id ==> r[i] == c[i]
    ensures UniqueIds(c) ==> UniqueIds(r)
    ensures AllPositive(c) ==> AllPositive(r)
  {
    seq(|c|, i requires 0 <= i < |c| =>
          if c[i].product.id == id
          then c[i].(quantity := if 1 >= c[i].quantity - 1 then 1 else c[i].quantity - 1)
          else c[i])
  }

  /** Decreasing undoes increasing on a cart whose lines all hold at least one unit. */
  lemma DecreaseUndoesIncrease(c: seq<Line>, id: string)
    requires AllPositive(c)
    ensures DecreaseLines(IncreaseLines(c, id), id) == c
  {
  }

  /** The bill: price times quantity summed over the lines, folded from the left starting at 0. */
  function Total(c: seq<Line>): (t: int)
    ensures c == [] ==> t == 0
    decreases |c|
  {
    if c == [] then 0 else Total(c[..|c| - 1]) + Cost(c[|c| - 1])
  }

  /** The bill of two carts put end to end is the sum of their bills. */
  lemma {:induction false} TotalAppend(a: seq<Line>, b: seq<Line>)
    ensures Total(a + b) == Total(a) + Total(b)
    decreases |b|
  {
    if b == [] {
      assert a + b == a;
    } else {
      var n := |b| - 1;
      assert (a + b)[..|a + b| - 1] == a + b[..n];
      TotalAppend(a, b[..n]);
    }
  }

  /** The bill of a cart is the first line's cost plus the bill of the rest. */
  lemma TotalCons(l: Line, c: seq<Line>)
    ensures Total([l] + c) == Cost(l) + Total(c)
  {
    TotalAppend([l], c);
    assert [l][..0] == [];
  }

  /**
   * Appending a line adds its cost to the bill. The resulting cart `r` is a
   * parameter so that a caller can pass the expression it already holds (such
   * as `AddLine(c, w)`), which keeps the caller's proof small.
   */
  lemma TotalSnoc(c: seq<Line>, l: Line, r: seq<Line>)
    requires r == c + [l]
    ensures Total(r) == Total(c) + Cost(l)
  {
    assert r[..|r| - 1] == c;
  }

  /** Replacing one line changes the bill by the difference of the two lines' costs. */
  lemma TotalUpdate(c: seq<Line>, k: nat, l: Line)
    requires k < |c|
    ensures Total(c[k := l]) == Total(c) - Cost(c[k]) + Cost(l)
  {
    assert c == c[..k] + ([c[k]] + c[k + 1..]);
    assert c[k := l] == c[..k] + ([l] + c[k + 1..]);
    TotalAppend(c[..k], [c[k]] + c[k + 1..]);
    TotalAppend(c[..k], [l] + c[k + 1..]);
    TotalCons(c[k], c[k + 1..]);
    TotalCons(l, c[k + 1..]);
  }

  /** With non-negative prices and quantities of at least one, the bill is never negative. */
  lemma {:induction false} TotalNonNegative(c: seq<Line>)
    requires AllPositive(c)
    requires forall i :: 0 <= i < |c| ==> c[i].product.price >= 0
    ensures Total(c) >= 0
    decreases |c|
  {
    if c != [] {
      TotalNonNegative(c[..|c| - 1]);
    }
  }

  /**
   * Adding `n` units to one line adds `n` times that line's price to the
   * bill. As in `TotalSnoc`, the resulting cart `r` is a parameter so that a
   * caller can pass the expression it already holds.
   */
  lemma TotalAddUnits(c: seq<Line>, k: nat, n: int, r: seq<Line>)
    requires k < |c| && r == c[k := c[k].(quantity := c[k].quantity + n)]
    ensures Total(r) == Total(c) + c[k].product.price * n
  {
    TotalUpdate(c, k, c[k].(quantity := c[k].quantity + n));
    CostAddUnits(c[k], n);
  }

  /** Committing an item whose product is in the cart adds its units at that line's price. */
  lemma TotalAfterMerge(c: seq<Line>, w: Line, k: int)
    requires k == FindIndex(c, w.product.id) && k != -1
    ensures Total(AddLine(c, w)) == Total(c) + c[k].product.price * w.quantity
  {
    TotalAddUnits(c, k, w.quantity, AddLine(c, w));
  }

  /**
   * Committing `w` raises the bill by `w`'s quantity times the price of the
   * line it lands on: the existing line's price when one exists, `w`'s own
   * price when it is appended.
   */
  lemma TotalAfterAdd(c: seq<Line>, w: Line)
    ensures !HasId(c, w.product.id) ==> Total(AddLine(c, w)) == Total(c) + Cost(w)
    ensures HasId(c, w.product.id) ==>
              Total(AddLine(c, w)) == Total(c) + c[FindIndex(c, w.product.id)].product.price * w.quantity
  {
    var k := FindIndex(c, w.product.id);
    if k == -1 {
      TotalSnoc(c, w, AddLine(c, w));
    } else {
      TotalAfterMerge(c, w, k);
    }
  }

  /** With unique ids, increasing the lines of a present product changes exactly its one line. */
  lemma IncreaseIsUpdate(c: seq<Line>, id: string, k: int)
    requires UniqueIds(c) && k == FindIndex(c, id)
    ensures k == -1 ==> IncreaseLines(c, id) == c
    ensures k != -1 ==> IncreaseLines(c, id) == c[k := c[k].(quantity := c[k].quantity + 1)]
  {
    var r := IncreaseLines(c, id);
    if k == -1 {
      assert forall i :: 0 <= i < |r| ==> r[i] == c[i];
    } else {
      var u := c[k := c[k].(quantity := c[k].quantity + 1)];
      assert forall i :: 0 <= i < |r| ==> r[i] == u[i];
    }
  }

  /** In a cart with unique ids, `increaseCart(id)` raises the bill by that line's price. */
  lemma TotalAfterIncrease(c: seq<Line>, id: string)
    requires UniqueIds(c)
    ensures !HasId(c, id) ==> Total(IncreaseLines(c, id)) == Total(c)
    ensures HasId(c, id) ==> Total(IncreaseLines(c, id)) == Total(c) + c[FindIndex(c, id)].product.price
  {
    var k := FindIndex(c, id);
    IncreaseIsUpdate(c, id, k);
    if k != -1 {
      TotalAddUnits(c, k, 1, IncreaseLines(c, id));
    }
  }

  /**
   * With unique ids, decreasing the lines of a present product changes at
   * most its one line, and that line only when it holds more than one unit.
   */
  lemma DecreaseIsUpdate(c: seq<Line>, id: string, k: int)
    requires UniqueIds(c) && AllPositive(c) && k == FindIndex(c, id)
    ensures k == -1 || c[k].quantity == 1 ==> DecreaseLines(c, id) == c
    ensures k != -1 && c[k].quantity > 1 ==> DecreaseLines(c, id) == c[k := c[k].(quantity := c[k].quantity - 1)]
  {
    var r := DecreaseLines(c, id);
    if k == -1 || c[k].quantity == 1 {
      assert forall i :: 0 <= i < |r| ==> r[i] == c[i];
    } else {
      var u := c[k := c[k].(quantity := c[k].quantity - 1)];
      assert forall i :: 0 <= i < |r| ==> r[i] == u[i];
    }
  }

  /**
   * In a cart with unique ids, `decreaseCart(id)` lowers the bill by that
   * line's price when the line held more than one unit, and not at all otherwise.
   */
  lemma TotalAfterDecrease(c: seq<Line>, id: string)
    requires UniqueIds(c) && AllPositive(c)
    ensures !HasId(c, id) ==> Total(DecreaseLines(c, id)) == Total(c)
    ensures HasId(c, id) ==>
              var k := FindIndex(c, id);
              Total(DecreaseLines(c, id)) == Total(c) - (if c[k].quantity > 1 then c[k].product.price else 0)
  {
    var k := FindIndex(c, id);
    DecreaseIsUpdate(c, id, k);
    if k != -1 && c[k].quantity > 1 {
      TotalAddUnits(c, k, -1, DecreaseLines(c, id));
    }
  }
}
