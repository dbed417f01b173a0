/** Where a handful of sub-moves leaves a board, whatever the order and however
    they are joined: the mover's points change by arrivals minus departures and
    exactly the blots that were landed on are sent to the bar. */
module Settling {
  import opened Boards
  import opened Plays

  /** A sub-move as gnubg/drawboard.c writes it: points from 1, 25 the bar, 0 off. */
  type Pair = (int, int)

  ghost predicate IsPair(m: Pair) {
    0 <= m.1 < m.0 <= 25
  }

  /** Sub-moves in `ms` that leave point `s` for a point below k. */
  ghost function LeaveBelow(ms: multiset<Pair>, s: int, k: nat): nat {
    if k == 0 then 0 else LeaveBelow(ms, s, k - 1) + ms[(s, k - 1)]
  }

  ghost function ArriveBelow(ms: multiset<Pair>, d: int, k: nat): nat {
    if k == 0 then 0 else ArriveBelow(ms, d, k - 1) + ms[(k - 1, d)]
  }

  ghost function Departures(ms: multiset<Pair>, s: int): nat {
    LeaveBelow(ms, s, 26)
  }

  ghost function Arrivals(ms: multiset<Pair>, d: int): nat {
    ArriveBelow(ms, d, 26)
  }

  lemma {:induction false} BelowAdds(ms: multiset<Pair>, ns: multiset<Pair>, p: int, k: nat)
    ensures LeaveBelow(ms + ns, p, k) == LeaveBelow(ms, p, k) + LeaveBelow(ns, p, k)
    ensures ArriveBelow(ms + ns, p, k) == ArriveBelow(ms, p, k) + ArriveBelow(ns, p, k)
  {
    if k > 0 {
      BelowAdds(ms, ns, p, k - 1);
    }
  }

  lemma {:induction false} BelowOne(m: Pair, p: int, k: nat)
    requires 0 <= m.0 && 0 <= m.1
    ensures LeaveBelow(multiset{m}, p, k) == if m.0 == p && m.1 < k then 1 else 0
    ensures ArriveBelow(multiset{m}, p, k) == if m.1 == p && m.0 < k then 1 else 0
  {
    if k > 0 {
      BelowOne(m, p, k - 1);
    }
  }

  lemma {:induction false} BelowNone(p: int, k: nat)
    ensures LeaveBelow(multiset{}, p, k) == 0 && ArriveBelow(multiset{}, p, k) == 0
  {
    if k > 0 {
      BelowNone(p, k - 1);
    }
  }

  lemma Adding(ms: multiset<Pair>, ns: multiset<Pair>, p: int)
    ensures Departures(ms + ns, p) == Departures(ms, p) + Departures(ns, p)
    ensures Arrivals(ms + ns, p) == Arrivals(ms, p) + Arrivals(ns, p)
  {
    BelowAdds(ms, ns, p, 26);
  }

  lemma One(m: Pair, p: int)
    requires IsPair(m)
    ensures Departures(multiset{m}, p) == if m.0 == p then 1 else 0
    ensures Arrivals(multiset{m}, p) == if m.1 == p then 1 else 0
  {
    BelowOne(m, p, 26);
  }

  // ------------------------------------------------------------ the outcome

  /** `c` is what the sub-moves `ms` make of `b`. */
  ghost predicate Settled(b: Board, ms: multiset<Pair>, c: Board) {
    && (forall p :: 0 <= p < 25 ==> c.us[p] == b.us[p] + Arrivals(ms, p + 1) - Departures(ms, p + 1))
    && (forall q :: 0 <= q < 24 ==> c.them[q] == if Arrivals(ms, 24 - q) > 0 then 0 else b.them[q])
    && Total(c.them) == Total(b.them)
  }

  lemma NothingSettles(b: Board)
    ensures Settled(b, multiset{}, b)
  {
    forall p ensures Departures(multiset{}, p) == 0 && Arrivals(multiset{}, p) == 0 {
      BelowNone(p, 26);
    }
  }

  /** One more sub-move, its destination not a made point. */
  lemma SettleStep(b: Board, ms: multiset<Pair>, c: Board, src: nat, dest: int)
    requires Settled(b, ms, c) && Unshared(c)
    requires -1 <= dest < src < 25 && c.us[src] > 0 && (dest >= 0 ==> c.them[23 - dest] < 2)
    ensures Settled(b, ms + multiset{(src + 1, dest + 1)}, SubMove(c, src, src - dest))
    ensures Unshared(SubMove(c, src, src - dest))
  {
    hide Settled, Hits, SubMove;
    SettleUs(b, ms, c, src, dest);
    SettleThem(b, ms, c, src, dest);
    SettleBoth(b, ms, c, src, dest);
  }

  lemma SettleBoth(b: Board, ms: multiset<Pair>, c: Board, src: nat, dest: int)
    requires -1 <= dest < src < 25 && c.us[src] > 0
    requires var d, ns := SubMove(c, src, src - dest), ms + multiset{(src + 1, dest + 1)};
             && (forall p :: 0 <= p < 25 ==> d.us[p] == b.us[p] + Arrivals(ns, p + 1) - Departures(ns, p + 1))
             && (forall q :: 0 <= q < 24 ==> d.them[q] == if Arrivals(ns, 24 - q) > 0 then 0 else b.them[q])
             && Total(d.them) == Total(b.them)
    ensures Settled(b, ms + multiset{(src + 1, dest + 1)}, SubMove(c, src, src - dest))
  {
  }

  lemma SettleUs(b: Board, ms: multiset<Pair>, c: Board, src: nat, dest: int)
    requires Settled(b, ms, c) && Unshared(c)
    requires -1 <= dest < src < 25 && c.us[src] > 0
    ensures var d, ns := SubMove(c, src, src - dest), ms + multiset{(src + 1, dest + 1)};
            forall p :: 0 <= p < 25 ==> d.us[p] == b.us[p] + Arrivals(ns, p + 1) - Departures(ns, p + 1)
  {
    var m := (src + 1, dest + 1);
    var d := SubMove(c, src, src - dest);
    forall p | 0 <= p < 25
      ensures d.us[p] == b.us[p] + Arrivals(ms + multiset{m}, p + 1) - Departures(ms + multiset{m}, p + 1)
    {
      Adding(ms, multiset{m}, p + 1);
      One(m, p + 1);
      assert dest >= 0 ==> c.us[dest] == 0 || c.them[23 - dest] == 0;
    }
  }

  lemma SettleThem(b: Board, ms: multiset<Pair>, c: Board, src: nat, dest: int)
    requires Settled(b, ms, c) && Unshared(c)
    requires -1 <= dest < src < 25 && c.us[src] > 0 && (dest >= 0 ==> c.them[23 - dest] < 2)
    ensures var d, ns := SubMove(c, src, src - dest), ms + multiset{(src + 1, dest + 1)};
            && (forall q :: 0 <= q < 24 ==> d.them[q] == if Arrivals(ns, 24 - q) > 0 then 0 else b.them[q])
            && Total(d.them) == Total(b.them)
            && Unshared(d)
  {
    var m := (src + 1, dest + 1);
    var d := SubMove(c, src, src - dest);
    forall q | 0 <= q < 24
      ensures d.them[q] == if Arrivals(ms + multiset{m}, 24 - q) > 0 then 0 else b.them[q]
    {
      Adding(ms, multiset{m}, 24 - q);
      One(m, 24 - q);
    }
    if dest >= 0 && c.them[23 - dest] > 0 {
      HitConserves(c.them, 23 - dest);
    }
    forall p | 0 <= p < 24 ensures d.us[p] == 0 || d.them[23 - p] == 0 {
      assert c.us[p] == 0 || c.them[23 - p] == 0;
    }
  }

  /** Two lists of sub-moves that move as many chequers net on every point and
      land equally often on every blot. */
  ghost predicate SameEffect(b: Board, ms: multiset<Pair>, ns: multiset<Pair>) {
    && (forall p :: 1 <= p <= 25 ==> Arrivals(ms, p) - Departures(ms, p) == Arrivals(ns, p) - Departures(ns, p))
    && (forall p :: 1 <= p <= 24 && b.them[24 - p] > 0 ==> Arrivals(ms, p) == Arrivals(ns, p))
  }

  /** The outcome is determined by the effect. */
  lemma SettledIsUnique(b: Board, ms: multiset<Pair>, ns: multiset<Pair>, c: Board, d: Board)
    requires SameEffect(b, ms, ns) && Settled(b, ms, c) && Settled(b, ns, d)
    ensures c == d
  {
    assert c.us == d.us by {
      forall p | 0 <= p < 25 ensures c.us[p] == d.us[p] {
        assert Arrivals(ms, p + 1) - Departures(ms, p + 1) == Arrivals(ns, p + 1) - Departures(ns, p + 1);
      }
    }
    forall q | 0 <= q < 24 ensures c.them[q] == d.them[q] {
      if b.them[24 - (24 - q)] > 0 {
        assert Arrivals(ms, 24 - q) == Arrivals(ns, 24 - q);
      }
    }
    assert c.them[..24] == d.them[..24];
    assert c.them == c.them[..24] + [c.them[24]] && d.them == d.them[..24] + [d.them[24]];
  }

  // ------------------------------------------------------------ legal plays

  /** The pair a play's sub-move is written as. */
  function PairOf(src: nat, die: nat): Pair {
    (src + 1, if die > src then 0 else src - die + 1)
  }

  ghost function PairsOf(srcs: seq<nat>, dice: seq<nat>): seq<Pair>
    requires |srcs| <= |dice|
  {
    seq(|srcs|, i requires 0 <= i < |srcs| => PairOf(srcs[i], dice[i]))
  }

  /** No sub-move lands on a point that was made at the start. */
  ghost predicate LandsOpen(b: Board, s: seq<nat>, dice: seq<nat>)
    requires |s| <= |dice|
  {
    forall i :: 0 <= i < |s| ==>
      1 <= dice[i] && s[i] < 25 && (dice[i] <= s[i] ==> b.them[23 - (s[i] - dice[i])] < 2)
  }

  /** A legal run settles its board, and never lands on a point that was made. */
  lemma {:induction false} RunSettles(b: Board, srcs: seq<nat>, dice: seq<nat>)
    requires Unshared(b) && Playable(b, srcs, dice) && |srcs| <= |dice|
    ensures Settled(b, multiset(PairsOf(srcs, dice)), After(b, srcs, dice)) && Unshared(After(b, srcs, dice))
    ensures LandsOpen(b, srcs, dice)
    decreases |srcs|
  {
    if srcs == [] {
      NothingSettles(b);
      assert PairsOf(srcs, dice) == [];
    } else {
      hide Settled, Playable, After, LandsOpen;
      var n := |srcs| - 1;
      PrefixPlayable(b, srcs, dice, n);
      RunSettles(b, srcs[..n], dice);
      assert srcs == srcs[..n] + [srcs[n]];
      RunSettlesStep(b, srcs[..n], dice, srcs[n]);
    }
  }

  lemma RunSettlesStep(b: Board, s: seq<nat>, dice: seq<nat>, src: nat)
    requires Playable(b, s, dice) && |s| < |dice| && Playable(b, s + [src], dice)
    requires Settled(b, multiset(PairsOf(s, dice)), After(b, s, dice)) && Unshared(After(b, s, dice))
    requires LandsOpen(b, s, dice)
    ensures Settled(b, multiset(PairsOf(s + [src], dice)), After(b, s + [src], dice)) && Unshared(After(b, s + [src], dice))
    ensures LandsOpen(b, s + [src], dice)
  {
    hide *;
    var die, c := dice[|s|], After(b, s, dice);
    LastStep(b, s, dice, src);
    StepFacts(c, src, die);
    SettleStep(b, multiset(PairsOf(s, dice)), c, src, Landing(src, die));
    PairsOfSnoc(s, dice, src);
    if die <= src {
      MadePointsStay(b, s, dice, c, 23 - (src - die));
    }
    LandsOpenSnoc(b, s, dice, src);
  }

  lemma LandsOpenSnoc(b: Board, s: seq<nat>, dice: seq<nat>, src: nat)
    requires |s| < |dice| && LandsOpen(b, s, dice)
    requires 1 <= dice[|s|] && src < 25 && (dice[|s|] <= src ==> b.them[23 - (src - dice[|s|])] < 2)
    ensures LandsOpen(b, s + [src], dice)
  {
  }

  lemma LastStep(b: Board, s: seq<nat>, dice: seq<nat>, src: nat)
    requires Playable(b, s, dice) && |s| < |dice| && Playable(b, s + [src], dice)
    ensures var c, die := After(b, s, dice), dice[|s|];
            Step(c, src, die) && src < 25 && 1 <= die && c.us[src] > 0
            && After(b, s + [src], dice) == SubMove(c, src, die)
  {
    PlayableSnoc(b, s, dice, src);
  }

  /** The destination, -1 standing for every point off the board. */
  function Landing(src: nat, die: nat): int {
    if die > src then -1 else src - die
  }

  lemma StepFacts(c: Board, src: nat, die: nat)
    requires Step(c, src, die)
    ensures 1 <= die && src < 25 && c.us[src] > 0 && (die <= src ==> c.them[23 - (src - die)] < 2)
    ensures -1 <= Landing(src, die) < src
    ensures Landing(src, die) >= 0 ==> c.them[23 - Landing(src, die)] < 2
    ensures SubMove(c, src, src - Landing(src, die)) == SubMove(c, src, die)
  {
  }

  lemma PairsOfSnoc(s: seq<nat>, dice: seq<nat>, src: nat)
    requires |s| < |dice|
    ensures multiset(PairsOf(s + [src], dice))
         == multiset(PairsOf(s, dice)) + multiset{(src + 1, Landing(src, dice[|s|]) + 1)}
  {
    assert PairsOf(s + [src], dice) == PairsOf(s, dice) + [PairOf(src, dice[|s|])];
  }

  lemma MadePointsStay(b: Board, s: seq<nat>, dice: seq<nat>, c: Board, q: nat)
    requires |s| <= |dice| && q < 24 && c.them[q] < 2
    requires Settled(b, multiset(PairsOf(s, dice)), c)
    requires LandsOpen(b, s, dice)
    ensures b.them[q] < 2
  {
    BlotsOnly(b, s, dice, |s|, q);
    assert c.them[q] == if Arrivals(multiset(PairsOf(s, dice)), 24 - q) > 0 then 0 else b.them[q];
  }

  lemma {:induction false} PrefixPlayable(b: Board, srcs: seq<nat>, dice: seq<nat>, k: nat)
    requires Playable(b, srcs, dice) && k <= |srcs|
    ensures Playable(b, srcs[..k], dice)
    decreases srcs
  {
    if k > 0 {
      PrefixPlayable(SubMove(b, srcs[0], dice[0]), srcs[1..], dice[1..], k - 1);
      assert srcs[..k][1..] == srcs[1..][..k - 1];
    }
  }

  /** A point the mover has landed on held at most a blot. */
  lemma {:induction false} BlotsOnly(b: Board, srcs: seq<nat>, dice: seq<nat>, k: nat, q: nat)
    requires |srcs| == k <= |dice| && q < 24
    requires LandsOpen(b, srcs, dice)
    ensures Arrivals(multiset(PairsOf(srcs, dice)), 24 - q) > 0 ==> b.them[q] < 2
  {
    if k == 0 {
      assert PairsOf(srcs, dice) == [];
      BelowNone(24 - q, 26);
    } else {
      var s := srcs[..k - 1];
      BlotsOnly(b, s, dice, k - 1, q);
      assert PairsOf(srcs, dice) == PairsOf(s, dice) + [PairOf(srcs[k - 1], dice[k - 1])];
      Adding(multiset(PairsOf(s, dice)), multiset{PairOf(srcs[k - 1], dice[k - 1])}, 24 - q);
      One(PairOf(srcs[k - 1], dice[k - 1]), 24 - q);
    }
  }
}
