/**
 * The list of recently scanned products: most recent first, at most
 * `MaxRecent` entries, no two entries with the same barcode, and only the
 * first `Shown` of them rendered.
 */
module RecentList {
  import opened Products

  /** A found product is prepended to at most four older entries. */
  const MaxRecent: nat := 5

  /** Only this many entries are rendered. */
  const Shown: nat := 2

  function Min(a: int, b: int): int
  {
    if a <= b then a else b
  }

  /** Some entry carries barcode `b` (the list's `some` test). */
  predicate HasBarcode(s: seq<Product>, b: string)
  {
    exists i :: 0 <= i < |s| && s[i].barcode == b
  }

  /** No two entries share a barcode. */
  predicate DistinctBarcodes(s: seq<Product>)
  {
    forall i, j :: 0 <= i < j < |s| ==> s[i].barcode != s[j].barcode
  }

  /**
   * The recent list after product `p` was found: unchanged when an entry
   * already has `p`'s barcode, otherwise `p` followed by the first four
   * older entries.
   */
  function Update(prev: seq<Product>, p: Product): (r: seq<Product>)
    ensures r == prev <==> HasBarcode(prev, p.barcode)
    ensures HasBarcode(r, p.barcode)
    ensures !HasBarcode(prev, p.barcode) ==>
              |r| == Min(|prev| + 1, MaxRecent) && r[0] == p && r[1..] == prev[..|r| - 1]
    ensures |prev| <= MaxRecent ==> |r| <= MaxRecent
    ensures DistinctBarcodes(prev) ==> DistinctBarcodes(r)
  {
    if HasBarcode(prev, p.barcode) then prev
    else
      var r := [p] + prev[..Min(|prev|, MaxRecent - 1)];
      assert r[0].barcode == p.barcode;
      r
  }

  /** The list after a run of successful lookups, oldest first. */
  function Replay(prev: seq<Product>, found: seq<Product>): seq<Product>
    decreases |found|
  {
    if found == [] then prev else Replay(Update(prev, found[0]), found[1..])
  }

  /**
   * Whatever products are found, starting from a well-formed list the list
   * stays within `MaxRecent` entries and free of duplicate barcodes.
   */
  lemma {:induction false} ReplayKeepsInvariant(prev: seq<Product>, found: seq<Product>)
    requires |prev| <= MaxRecent && DistinctBarcodes(prev)
    ensures var r := Replay(prev, found); |r| <= MaxRecent && DistinctBarcodes(r)
    decreases |found|
  {
    if found != [] {
      ReplayKeepsInvariant(Update(prev, found[0]), found[1..]);
    }
  }

  /** A re-scan of a listed barcode keeps the list's order: nothing moves to the front. */
  lemma RescanKeepsOrder(a: Product, b: Product)
    requires a.barcode != b.barcode
    ensures Replay([], [a, b, a]) == [b, a]
  {
    var s1 := Update([], a);
    assert s1 == [a];
    var s2 := Update(s1, b);
    assert !HasBarcode(s1, b.barcode);
    assert s2 == [b, a];
    assert s2[1].barcode == a.barcode;
    assert Update(s2, a) == s2;
    assert Replay([], [a, b, a]) == Replay(s1, [b, a]);
    assert Replay(s1, [b, a]) == Replay(s2, [a]);
    assert Replay(s2, [a]) == Replay(s2, []);
  }

  /** The entries that are rendered: the first `Shown` of the list. */
  function Displayed(s: seq<Product>): (r: seq<Product>)
    ensures |r| <= Shown && r <= s
    ensures |s| >= Shown ==> |r| == Shown
    ensures |s| < Shown ==> r == s
  {
    s[..Min(|s|, Shown)]
  }
}
