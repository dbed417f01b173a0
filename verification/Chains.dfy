/** Joined sub-moves: the value-level facts about chaining and folding on which
    FormatMove (gnubg/drawboard.c) rests. */
module Chains {
  import opened Boards
  import opened Settling

  /** The points one chequer visits; consecutive points are sub-moves. */
  type Chain = seq<int>

  ghost function Steps(c: Chain): multiset<Pair> {
    if |c| < 2 then multiset{} else Steps(c[..|c| - 1]) + multiset{(c[|c| - 2], c[|c| - 1])}
  }

  /** A printable chain: downhill from at most the bar, every destination open,
      every intermediate point a blot. */
  ghost predicate Printable(b: Board, c: Chain) {
    && |c| >= 2 && c[0] <= 25 && c[|c| - 1] >= 0
    && (forall k :: 0 <= k < |c| - 1 ==> c[k] > c[k + 1])
    && (forall k :: 1 <= k < |c| && 1 <= c[k] <= 24 ==> b.them[24 - c[k]] < 2)
    && (forall k :: 1 <= k < |c| - 1 ==> 1 <= c[k] <= 24 && b.them[24 - c[k]] > 0)
  }

  lemma {:induction false} StepsCount(c: Chain)
    ensures |Steps(c)| == if |c| < 2 then 0 else |c| - 1
  {
    if |c| >= 2 {
      StepsCount(c[..|c| - 1]);
    }
  }

  lemma StepsSnoc(c: Chain, x: int)
    requires |c| >= 1
    ensures Steps(c + [x]) == Steps(c) + multiset{(c[|c| - 1], x)}
  {
    assert (c + [x])[..|c|] == c;
  }

  lemma {:induction false} Downhill(b: Board, c: Chain, i: nat, j: nat)
    requires Printable(b, c) && i <= j < |c|
    ensures 0 <= c[j] <= c[i] <= 25 && (i < j ==> c[j] < c[i])
    decreases |c| - 1 - j, j - i
  {
    DownhillFrom(b, c, i, j);
    DownhillFrom(b, c, 0, i);
    DownhillFrom(b, c, j, |c| - 1);
  }

  lemma {:induction false} DownhillFrom(b: Board, c: Chain, i: nat, j: nat)
    requires Printable(b, c) && i <= j < |c|
    ensures c[j] <= c[i] && (i < j ==> c[j] < c[i])
    decreases j
  {
    if i < j {
      DownhillFrom(b, c, i, j - 1);
    }
  }

  // ---------------------------------------------------------------- joining

  /** The chain `c` continued to `x`, its end kept only if a blot is hit there. */
  function Joined(b: Board, c: Chain, x: int): Chain
    requires |c| >= 2 && 1 <= c[|c| - 1] <= 24
  {
    if b.them[24 - c[|c| - 1]] > 0 then c + [x] else c[..|c| - 1] + [x]
  }

  lemma JoinedIsPrintable(b: Board, c: Chain, d: Chain)
    requires Printable(b, c) && Printable(b, d) && |d| == 2 && d[0] == c[|c| - 1]
    ensures 1 <= c[|c| - 1] <= 24 && Printable(b, Joined(b, c, d[1]))
  {
    Downhill(b, c, |c| - 2, |c| - 1);
    if b.them[24 - c[|c| - 1]] > 0 {
      ExtendedIsPrintable(b, c, d[1]);
    } else {
      DivertedIsPrintable(b, c, d[1]);
    }
  }

  lemma ExtendedIsPrintable(b: Board, c: Chain, x: int)
    requires Printable(b, c) && 1 <= c[|c| - 1] <= 24 && b.them[24 - c[|c| - 1]] > 0
    requires 0 <= x < c[|c| - 1] && (1 <= x ==> b.them[24 - x] < 2)
    ensures Printable(b, c + [x])
  {
    var r, n := c + [x], |c|;
    assert forall k :: 0 <= k < n ==> r[k] == c[k];
    forall k | 0 <= k < n ensures r[k] > r[k + 1] {
      assert k < n - 1 ==> c[k] > c[k + 1];
    }
    forall k | 1 <= k < n ensures 1 <= r[k] <= 24 && b.them[24 - r[k]] > 0 {
      assert k < n - 1 ==> 1 <= c[k] <= 24 && b.them[24 - c[k]] > 0;
    }
  }

  lemma DivertedIsPrintable(b: Board, c: Chain, x: int)
    requires Printable(b, c) && 0 <= x < c[|c| - 1] && (1 <= x <= 24 ==> b.them[24 - x] < 2)
    ensures Printable(b, c[..|c| - 1] + [x])
  {
    var r, n := c[..|c| - 1] + [x], |c| - 1;
    assert forall k :: 0 <= k < n ==> r[k] == c[k];
    assert c[n - 1] > c[n - 1 + 1];
    forall k | 0 <= k < n ensures r[k] > r[k + 1] {
      assert k < n - 1 ==> c[k] > c[k + 1];
    }
    forall k | 1 <= k < n ensures 1 <= r[k] <= 24 && b.them[24 - r[k]] > 0 {
      assert 1 <= c[k] <= 24 && b.them[24 - c[k]] > 0;
    }
  }

  /** Joining loses no hit and no net movement. */
  lemma JoiningKeepsEffect(b: Board, rest: multiset<Pair>, c: Chain, d: Chain)
    requires Printable(b, c) && Printable(b, d) && |d| == 2 && d[0] == c[|c| - 1] && 1 <= d[0] <= 24
    ensures SameEffect(b, rest + Steps(c) + Steps(d), rest + Steps(Joined(b, c, d[1])))
    ensures rest + Steps(Joined(b, c, d[1])) == rest + Steps(c) + Steps(d)
         || |Steps(Joined(b, c, d[1]))| < |Steps(c)| + |Steps(d)|
  {
    var x := d[1];
    StepsOfPair(d);
    StepsCount(c);
    StepsCount(d);
    StepsCount(Joined(b, c, x));
    if b.them[24 - c[|c| - 1]] > 0 {
      ExtendingKeepsEffect(b, rest, c, x);
    } else {
      DivertingKeepsEffect(b, rest, c, x);
    }
  }

  lemma ExtendingKeepsEffect(b: Board, rest: multiset<Pair>, c: Chain, x: int)
    requires |c| >= 1
    ensures rest + Steps(c) + multiset{(c[|c| - 1], x)} == rest + Steps(c + [x])
    ensures SameEffect(b, rest + Steps(c) + multiset{(c[|c| - 1], x)}, rest + Steps(c + [x]))
  {
    hide *;
    StepsSnoc(c, x);
    Reassociate(rest, Steps(c), multiset{(c[|c| - 1], x)});
    SameEffectSelf(b, rest + Steps(c + [x]));
  }

  lemma DivertingKeepsEffect(b: Board, rest: multiset<Pair>, c: Chain, x: int)
    requires Printable(b, c) && 0 <= x < c[|c| - 1] && 1 <= c[|c| - 1] <= 24 && b.them[24 - c[|c| - 1]] == 0
    ensures SameEffect(b, rest + Steps(c) + multiset{(c[|c| - 1], x)}, rest + Steps(c[..|c| - 1] + [x]))
  {
    var n := |c| - 1;
    Downhill(b, c, n - 1, n);
    assert n >= 1;
    var m := (c[n - 1], c[n]);
    hide *;
    ElisionKeepsEffect(b, rest + Steps(c[..n]), m, x);
    assert c == c[..n] + [c[n]];
    StepsSnoc(c[..n], c[n]);
    StepsSnoc(c[..n], x);
    Reassociate(rest, Steps(c[..n]), multiset{m});
    Reassociate(rest, Steps(c[..n]), multiset{(m.0, x)});
  }

  lemma StepsOfPair(d: Chain)
    requires |d| == 2
    ensures Steps(d) == multiset{(d[0], d[1])}
  {
    assert Steps(d[..1]) == multiset{};
  }

  lemma Reassociate<T>(x: multiset<T>, y: multiset<T>, z: multiset<T>)
    ensures x + y + z == x + (y + z)
  {
  }

  lemma SameEffectSelf(b: Board, ms: multiset<Pair>)
    ensures SameEffect(b, ms, ms)
  {
  }

  /** Passing through an empty point is moving straight on. */
  lemma ElisionKeepsEffect(b: Board, rest: multiset<Pair>, m: Pair, x: int)
    requires IsPair(m) && 0 <= x < m.1 <= 24 && b.them[24 - m.1] == 0
    ensures SameEffect(b, rest + multiset{m} + multiset{(m.1, x)}, rest + multiset{(m.0, x)})
  {
    forall p | 1 <= p <= 25
      ensures var ms, ns := rest + multiset{m} + multiset{(m.1, x)}, rest + multiset{(m.0, x)};
              && Arrivals(ms, p) - Departures(ms, p) == Arrivals(ns, p) - Departures(ns, p)
              && (p <= 24 && b.them[24 - p] > 0 ==> Arrivals(ms, p) == Arrivals(ns, p))
    {
      Adding(rest, multiset{m}, p);
      Adding(rest + multiset{m}, multiset{(m.1, x)}, p);
      Adding(rest, multiset{(m.0, x)}, p);
      One(m, p);
      One((m.1, x), p);
      One((m.0, x), p);
    }
  }

  lemma EffectsCompose(b: Board, ms: multiset<Pair>, ns: multiset<Pair>, os: multiset<Pair>)
    requires SameEffect(b, ms, ns) && SameEffect(b, ns, os)
    ensures SameEffect(b, ms, os)
  {
    forall p | 1 <= p <= 25 ensures Arrivals(ms, p) - Departures(ms, p) == Arrivals(os, p) - Departures(os, p) {
      assert Arrivals(ns, p) - Departures(ns, p) == Arrivals(os, p) - Departures(os, p);
    }
    forall p | 1 <= p <= 24 && b.them[24 - p] > 0 ensures Arrivals(ms, p) == Arrivals(os, p) {
      assert Arrivals(ns, p) == Arrivals(os, p);
    }
  }

  // ------------------------------------------------------------ several chains

  function Times(ms: multiset<Pair>, k: nat): multiset<Pair> {
    if k == 0 then multiset{} else Times(ms, k - 1) + ms
  }

  /** The sub-moves of rows i and up, each taken its number of times. */
  ghost function RowSteps(chains: seq<Chain>, counts: seq<nat>, i: nat): multiset<Pair>
    requires |chains| == |counts| && i <= |chains|
    decreases |chains| - i
  {
    if i == |chains| then multiset{} else Times(Steps(chains[i]), counts[i]) + RowSteps(chains, counts, i + 1)
  }

  /** The sub-moves of the rows other than j. */
  ghost function OtherSteps(chains: seq<Chain>, counts: seq<nat>, j: nat, i: nat): multiset<Pair>
    requires |chains| == |counts| && i <= |chains|
    decreases |chains| - i
  {
    if i == |chains| then multiset{}
    else if i == j then OtherSteps(chains, counts, j, i + 1)
    else Times(Steps(chains[i]), counts[i]) + OtherSteps(chains, counts, j, i + 1)
  }

  lemma Unfold(chains: seq<Chain>, counts: seq<nat>, j: nat, i: nat)
    requires |chains| == |counts| && i < |chains|
    ensures RowSteps(chains, counts, i) == Times(Steps(chains[i]), counts[i]) + RowSteps(chains, counts, i + 1)
    ensures OtherSteps(chains, counts, j, i)
         == if i == j then OtherSteps(chains, counts, j, i + 1)
            else Times(Steps(chains[i]), counts[i]) + OtherSteps(chains, counts, j, i + 1)
  {
  }

  lemma {:induction false} SingleOut(chains: seq<Chain>, counts: seq<nat>, j: nat, i: nat)
    requires |chains| == |counts| && i <= |chains| && j < |chains|
    ensures RowSteps(chains, counts, i)
         == OtherSteps(chains, counts, j, i) + (if i <= j then Times(Steps(chains[j]), counts[j]) else multiset{})
    decreases |chains| - i
  {
    if i < |chains| {
      hide *;
      SingleOut(chains, counts, j, i + 1);
      Unfold(chains, counts, j, i);
      var t, o := Times(Steps(chains[i]), counts[i]), OtherSteps(chains, counts, j, i + 1);
      if i == j {
        Commute(t, o);
      } else if i < j {
        Reassociate(t, o, Times(Steps(chains[j]), counts[j]));
      } else {
        Reassociate(t, o, multiset{});
      }
    }
  }

  lemma Commute<T>(x: multiset<T>, y: multiset<T>)
    ensures x + y == y + x && y + multiset{} == y
  {
  }

  lemma {:induction false} OthersUnchanged(chains: seq<Chain>, counts: seq<nat>, j: nat, i: nat, c: Chain, k: nat)
    requires |chains| == |counts| && i <= |chains| && j < |chains|
    ensures OtherSteps(chains[j := c], counts[j := k], j, i) == OtherSteps(chains, counts, j, i)
    decreases |chains| - i
  {
    if i < |chains| {
      hide *;
      OthersUnchanged(chains, counts, j, i + 1, c, k);
      Unfold(chains, counts, j, i);
      Unfold(chains[j := c], counts[j := k], j, i);
    } else {
      assert OtherSteps(chains[j := c], counts[j := k], j, i) == multiset{} == OtherSteps(chains, counts, j, i);
    }
  }

  /** Replacing row j replaces its own contribution. */
  lemma ReplaceRow(chains: seq<Chain>, counts: seq<nat>, j: nat, c: Chain, k: nat)
    requires |chains| == |counts| && j < |chains|
    ensures RowSteps(chains, counts, 0) == OtherSteps(chains, counts, j, 0) + Times(Steps(chains[j]), counts[j])
    ensures RowSteps(chains[j := c], counts[j := k], 0) == OtherSteps(chains, counts, j, 0) + Times(Steps(c), k)
  {
    SingleOut(chains, counts, j, 0);
    SingleOut(chains[j := c], counts[j := k], j, 0);
    OthersUnchanged(chains, counts, j, 0, c, k);
  }

  lemma TimesOne(ms: multiset<Pair>)
    ensures Times(ms, 1) == ms
  {
    assert Times(ms, 1) == Times(ms, 0) + ms;
  }
}
