/**
 * The drop handler of the grid: on a drop over a tile, the dragged tile and
 * the tile under the pointer trade places in the live sequence.
 */
module Reorder {
  import opened MockApi

  /**
   * `Array.prototype.indexOf`: the first index holding `t`, or -1. Tiles are
   * compared as values; the seed's tiles are pairwise distinct, so this
   * agrees with the reference comparison the browser performs.
   */
  function IndexOf(s: seq<Tile>, t: Tile): (i: int)
    ensures -1 <= i < |s|
    ensures i == -1 <==> t !in s
    ensures 0 <= i ==> s[i] == t && t !in s[..i]
  {
    if |s| == 0 then -1
    else if s[0] == t then 0
    else
      var k := IndexOf(s[1..], t);
      if k == -1 then -1
      else
        assert s[..k + 1] == [s[0]] + s[1..][..k];
        k + 1
  }

  /**
   * Writing `v` at index `i` of a JavaScript array: for `i == -1` the write
   * lands on a property named "-1" and no element changes.
   */
  function Store(s: seq<Tile>, i: int, v: Tile): seq<Tile>
    requires -1 <= i < |s|
  {
    if 0 <= i then s[i := v] else s
  }

  /**
   * The sequence the drop handler produces: a copy of `s` with `destination`
   * written at the index of `source` and `source` at the index of
   * `destination`, both indices taken in `s`. Nothing guards a tile that is
   * missing from `s`.
   */
  function Swapped(s: seq<Tile>, source: Tile, destination: Tile): (r: seq<Tile>)
    ensures |r| == |s|
    ensures source in s ==> r[IndexOf(s, source)] == destination
    ensures destination in s ==> r[IndexOf(s, destination)] == source
    ensures forall k :: 0 <= k < |s| && k != IndexOf(s, source) && k != IndexOf(s, destination) ==> r[k] == s[k]
  {
    var u := Store(s, IndexOf(s, source), destination);
    Store(u, IndexOf(s, destination), source)
  }

  /** What a drop does to the live sequence; `dropTargets[0]` is the innermost target. */
  function AfterDrop(gridItems: seq<Tile>, source: Tile, dropTargets: seq<Tile>): seq<Tile>
  {
    if |dropTargets| == 0 then gridItems else Swapped(gridItems, source, dropTargets[0])
  }

  /**
   * The monitor's `onDrop`: no drop target leaves the sequence as it is;
   * otherwise a copy is taken and two of its slots are written.
   */
  method OnDrop(gridItems: seq<Tile>, source: Tile, dropTargets: seq<Tile>) returns (updated: seq<Tile>)
    ensures |dropTargets| == 0 ==> updated == gridItems
    ensures |dropTargets| > 0 ==> updated == Swapped(gridItems, source, dropTargets[0])
  {
    if |dropTargets| == 0 {
      return gridItems;
    }
    var destination := dropTargets[0];
    var copy := new Tile[|gridItems|](k requires 0 <= k < |gridItems| => gridItems[k]);
    var i := IndexOf(gridItems, source);
    if 0 <= i {
      copy[i] := destination;
    }
    var j := IndexOf(gridItems, destination);
    if 0 <= j {
      copy[j] := source;
    }
    updated := copy[..];
  }

  /**
   * A drop of a present tile onto a present tile exchanges exactly the two
   * slots they occupied, keeps every other slot, and so permutes the tiles.
   */
  lemma SwapExchanges(s: seq<Tile>, a: Tile, b: Tile)
    requires a in s && b in s
    ensures var r := Swapped(s, a, b);
      && |r| == |s|
      && r[IndexOf(s, a)] == b
      && r[IndexOf(s, b)] == a
      && (forall k :: 0 <= k < |s| && k != IndexOf(s, a) && k != IndexOf(s, b) ==> r[k] == s[k])
      && multiset(r) == multiset(s)
  {
    var i, j := IndexOf(s, a), IndexOf(s, b);
    var r := Swapped(s, a, b);
    if i != j {
      assert r == s[i := b][j := a];
      calc {
        multiset(r);
        multiset(s[i := b]) - multiset{s[j]} + multiset{a};
        multiset(s) - multiset{a} + multiset{b} - multiset{b} + multiset{a};
        multiset(s);
      }
    } else {
      assert r == s;
    }
  }

  /** Dropping a tile onto itself changes nothing, whether or not it is present. */
  lemma SwapSelf(s: seq<Tile>, a: Tile)
    ensures Swapped(s, a, a) == s
  {
    var i := IndexOf(s, a);
    if 0 <= i {
      assert s[i := a][i := a] == s;
    }
  }

  /** For two present tiles, which one is dragged and which is the target does not matter. */
  lemma SwapSymmetric(s: seq<Tile>, a: Tile, b: Tile)
    requires a in s && b in s
    ensures Swapped(s, a, b) == Swapped(s, b, a)
  {
    var i, j := IndexOf(s, a), IndexOf(s, b);
    if a != b {
      assert s[i := b][j := a] == s[j := a][i := b];
    }
  }

  /** In a sequence without duplicates a tile's index is where it stands. */
  lemma IndexOfDistinct(s: seq<Tile>, k: int)
    requires Distinct(s) && 0 <= k < |s|
    ensures IndexOf(s, s[k]) == k
  {
    var i := IndexOf(s, s[k]);
    assert s[i] == s[k];
  }

  /** A swap of two present tiles keeps the tiles pairwise distinct. */
  lemma SwapKeepsDistinct(s: seq<Tile>, a: Tile, b: Tile)
    requires Distinct(s) && a in s && b in s
    ensures Distinct(Swapped(s, a, b))
  {
    SwapExchanges(s, a, b);
    var r := Swapped(s, a, b);
    var i, j := IndexOf(s, a), IndexOf(s, b);
    forall p, q | 0 <= p < q < |r|
      ensures r[p] != r[q]
    {
      var p', q' := if p == i then j else if p == j then i else p,
                    if q == i then j else if q == j then i else q;
      assert r[p] == s[p'] && r[q] == s[q'];
    }
  }

  /** Repeating a drop of one tile onto another restores the original order. */
  lemma {:induction false} SwapTwiceRestores(s: seq<Tile>, a: Tile, b: Tile)
    requires Distinct(s) && a in s && b in s
    ensures Swapped(Swapped(s, a, b), a, b) == s
  {
    var i, j := IndexOf(s, a), IndexOf(s, b);
    var r := Swapped(s, a, b);
    SwapExchanges(s, a, b);
    SwapKeepsDistinct(s, a, b);
    IndexOfDistinct(r, i);
    IndexOfDistinct(r, j);
    SwapExchanges(r, a, b);
    var r2 := Swapped(r, a, b);
    assert forall k :: 0 <= k < |s| ==> r2[k] == s[k];
  }

  /**
   * The handler does not guard a dragged tile missing from the sequence:
   * the target's slot is overwritten with it, so the drop is not a no-op.
   */
  lemma SwapStaleSource(s: seq<Tile>, a: Tile, b: Tile)
    requires a !in s && b in s
    ensures Swapped(s, a, b) == s[IndexOf(s, b) := a]
    ensures Swapped(s, a, b) != s
    ensures multiset(Swapped(s, a, b)) != multiset(s)
  {
    var j := IndexOf(s, b);
    var r := Swapped(s, a, b);
    assert r[j] == a;
    assert a in multiset(r);
  }

  /** Symmetrically, a missing target tile overwrites the dragged tile's slot. */
  lemma SwapStaleDestination(s: seq<Tile>, a: Tile, b: Tile)
    requires a in s && b !in s
    ensures Swapped(s, a, b) == s[IndexOf(s, a) := b]
  {
  }

  /** One drop event as the monitor reports it. */
  datatype DropEvent = DropEvent(source: Tile, dropTargets: seq<Tile>)

  function ApplyDrops(s: seq<Tile>, drops: seq<DropEvent>): seq<Tile>
    decreases |drops|
  {
    if |drops| == 0 then s
    else ApplyDrops(AfterDrop(s, drops[0].source, drops[0].dropTargets), drops[1..])
  }

  /** The drop involves only tiles taken from `tiles`. */
  predicate DropUses(d: DropEvent, tiles: multiset<Tile>)
  {
    |d.dropTargets| > 0 ==> d.source in tiles && d.dropTargets[0] in tiles
  }

  /**
   * Any run of drops whose tiles are all on the grid leaves the same tiles
   * on the grid: the live sequence stays a permutation of where it started.
   */
  lemma {:induction false} DropsPreserveTiles(s: seq<Tile>, drops: seq<DropEvent>)
    requires forall d :: d in drops ==> DropUses(d, multiset(s))
    ensures multiset(ApplyDrops(s, drops)) == multiset(s)
    decreases |drops|
  {
    if |drops| > 0 {
      var d := drops[0];
      var s' := AfterDrop(s, d.source, d.dropTargets);
      assert d in drops;
      if |d.dropTargets| > 0 {
        assert d.source in multiset(s) && d.dropTargets[0] in multiset(s);
        SwapExchanges(s, d.source, d.dropTargets[0]);
      }
      assert forall e :: e in drops[1..] ==> e in drops;
      DropsPreserveTiles(s', drops[1..]);
    }
  }

  /** The literal scenario: in seed order, dropping the invoice onto the first bank draft. */
  lemma SeedSwapScenario()
    ensures Swapped(SeedFiles, Invoice, BankDraft) == [Invoice, BillOfLading, BankDraft, BankDraft2, BillOfLading2]
  {
    var s := SeedFiles;
    SeedImageUrlsDiffer();
    UniqueImageUrlsImplyDistinct(s);
    IndexOfDistinct(s, 2);
    IndexOfDistinct(s, 0);
  }
}
