/** The order CanonicalMoveOrder and FormatMove put sub-moves in (gnubg/drawboard.c):
    source from high to low, then destination from high to low. */
module PairOrder {
  import opened Settling
  import opened Sorting

  /** CompareMovesSimple ranks `m` no later than `n`. */
  predicate Before(m: Pair, n: Pair) {
    m.0 > n.0 || (m.0 == n.0 && m.1 >= n.1)
  }

  ghost predicate InOrder(ms: seq<Pair>) {
    forall i, j :: 0 <= i < j < |ms| ==> Before(ms[i], ms[j])
  }

  /** What qsort leaves behind. */
  function InCanonicalOrder(ms: seq<Pair>): (r: seq<Pair>)
    ensures |r| == |ms|
  {
    Sort(Before, ms)
  }

  lemma CanonicalIsSorted(ms: seq<Pair>)
    ensures InOrder(InCanonicalOrder(ms)) && multiset(InCanonicalOrder(ms)) == multiset(ms)
  {
    SortSorts(Before, ms);
  }

  /** A sorted permutation is unique, so any qsort gives this list. */
  lemma {:induction false} SortedIsUnique(ms: seq<Pair>, ns: seq<Pair>)
    requires InOrder(ms) && InOrder(ns) && multiset(ms) == multiset(ns)
    ensures ms == ns
  {
    if ms == [] {
      assert |ns| == |multiset(ns)| == 0;
    } else {
      assert |ms| == |multiset(ms)| == |multiset(ns)| == |ns|;
      assert ms[0] in multiset(ns) && ns[0] in multiset(ms);
      assert ms[0] == ns[0] by {
        var i :| 0 <= i < |ns| && ns[i] == ms[0];
        var j :| 0 <= j < |ms| && ms[j] == ns[0];
        assert i > 0 ==> Before(ns[0], ns[i]);
        assert j > 0 ==> Before(ms[0], ms[j]);
      }
      assert ms == [ms[0]] + ms[1..] && ns == [ns[0]] + ns[1..];
      assert multiset(ms[1..]) == multiset(ms) - multiset{ms[0]};
      assert multiset(ns[1..]) == multiset(ns) - multiset{ns[0]};
      SortedIsUnique(ms[1..], ns[1..]);
    }
  }

  // ------------------------------------------------ pairs in an array of eight

  /** The pairs in cells [2i, 8) up to the first source below 0. */
  function PairsIn(cells: seq<int>, i: nat): seq<Pair>
    requires |cells| == 8 && i <= 4
    decreases 4 - i
  {
    if i == 4 || cells[2 * i] < 0 then [] else [(cells[2 * i], cells[2 * i + 1])] + PairsIn(cells, i + 1)
  }

  /** Cells [0, 2k) hold the pairs `ms`. */
  ghost predicate HoldsPairs(cells: seq<int>, ms: seq<Pair>) {
    2 * |ms| <= |cells| && forall i :: 0 <= i < |ms| ==> cells[2 * i] == ms[i].0 && cells[2 * i + 1] == ms[i].1
  }

  lemma {:induction false} PairsInHeld(cells: seq<int>, ms: seq<Pair>, i: nat)
    requires |cells| == 8 && HoldsPairs(cells, ms) && i <= |ms| <= 4
    requires forall k :: 0 <= k < |ms| ==> ms[k].0 >= 0
    requires |ms| < 4 ==> cells[2 * |ms|] < 0
    ensures PairsIn(cells, i) == ms[i..]
    decreases |ms| - i
  {
    if i < |ms| {
      PairsInHeld(cells, ms, i + 1);
      assert ms[i..] == [ms[i]] + ms[i + 1..];
    }
  }

  lemma {:induction false} PairsInBounds(cells: seq<int>, i: nat)
    requires |cells| == 8 && i <= 4
    ensures var ms := PairsIn(cells, i);
            && |ms| <= 4 - i
            && (forall k :: 0 <= k < |ms| ==> ms[k] == (cells[2 * (i + k)], cells[2 * (i + k) + 1]) && ms[k].0 >= 0)
            && (i + |ms| < 4 ==> cells[2 * (i + |ms|)] < 0)
    decreases 4 - i
  {
    if i < 4 && cells[2 * i] >= 0 {
      PairsInBounds(cells, i + 1);
    }
  }

  /** CanonicalMoveOrder sorts the leading pairs in place and touches nothing else. */
  method CanonicalMoveOrder(an: array<int>)
    requires an.Length == 8
    modifies an
    ensures var ms := PairsIn(old(an[..]), 0);
            HoldsPairs(an[..], InCanonicalOrder(ms)) && an[2 * |ms|..] == old(an[2 * |ms|..])
  {
    hide *;
    var ms := ReadPairs(an);
    CanonicalKeepsLength(an[..]);
    WritePairs(an, InCanonicalOrder(ms));
  }

  lemma CanonicalKeepsLength(cells: seq<int>)
    requires |cells| == 8
    ensures |InCanonicalOrder(PairsIn(cells, 0))| == |PairsIn(cells, 0)| <= 4
  {
    PairsInBounds(cells, 0);
  }

  method ReadPairs(an: array<int>) returns (ms: seq<Pair>)
    requires an.Length == 8
    ensures ms == PairsIn(an[..], 0)
  {
    hide PairsIn;
    ghost var all := PairsIn(an[..], 0);
    PairsInBounds(an[..], 0);
    var i := 0;
    ms := [];
    while i < 4 && an[2 * i] > -1
      invariant 0 <= i == |ms| <= |all| && (i < |all| ==> an[2 * i] == all[i].0)
      invariant forall k :: 0 <= k < i ==> ms[k] == all[k]
    {
      assert an[..][2 * i] == an[2 * i] && an[..][2 * i + 1] == an[2 * i + 1];
      ms := ms + [(an[2 * i], an[2 * i + 1])];
      i := i + 1;
    }
  }

  method WritePairs(an: array<int>, ms: seq<Pair>)
    requires an.Length == 8 && |ms| <= 4
    modifies an
    ensures HoldsPairs(an[..], ms) && an[2 * |ms|..] == old(an[2 * |ms|..])
  {
    var k := 0;
    while k < |ms|
      invariant 0 <= k <= |ms|
      invariant forall j :: 0 <= j < k ==> an[2 * j] == ms[j].0 && an[2 * j + 1] == ms[j].1
      invariant forall j :: 2 * |ms| <= j < 8 ==> an[j] == old(an[j])
    {
      an[2 * k], an[2 * k + 1] := ms[k].0, ms[k].1;
      k := k + 1;
    }
  }
}
