/** FormatMove's text of a legal play fits the 28 characters gnubg/drawboard.h allows. */
module TextLength {
  import opened Boards
  import opened Plays
  import opened Settling
  import MoveGenerator
  import LegalPlays
  import opened Chains
  import opened MoveFormatter
  import opened RoundTrip

  /** Only board points carry marks. */
  ghost predicate Plausible(g: Group) {
    && GroupOk(g)
    && (forall k :: 1 <= k < |g.points| ==> g.points[k] != 25)
    && (forall k :: 0 <= k < |g.points| - 1 ==> g.points[k] != 0)
    && (forall k :: 0 <= k < |g.points| && g.stars[k] ==> g.points[k] != 0)
  }

  /** One sub-move from the bar, the only text that needs more than seven characters
      a sub-move with its separator. */
  ghost predicate FromBar(g: Group) {
    |g.points| == 2 && g.points[0] == 25 && g.count == 1
  }

  ghost function BarGroups(gs: seq<Group>): nat {
    if gs == [] then 0 else BarGroups(gs[..|gs| - 1]) + if FromBar(gs[|gs| - 1]) then 1 else 0
  }

  lemma {:induction false} ChainLength(g: Group, k: nat)
    requires Plausible(g) && k < |g.points|
    ensures |ChainText(g.points, g.stars, k)| <= 2 + 4 * k + if g.points[0] == 25 then 1 else 0
    decreases k
  {
    PointLength(g.points[k]);
    if k == 0 {
      assert g.points[0] == 0 ==> |g.points| > 1;
    } else {
      ChainLength(g, k - 1);
    }
  }

  lemma PointLength(n: int)
    requires 0 <= n <= 25
    ensures |PointText(n)| <= if n == 0 || n == 25 then 3 else 2
  {
  }

  /** The sub-moves of a group. */
  function Moves(g: Group): int {
    (|g.points| - 1) * g.count
  }

  lemma GroupLength(g: Group)
    requires Plausible(g)
    ensures |GroupText(g)| + 1 <= 7 * Moves(g) + if FromBar(g) then 1 else 0
    ensures Moves(g) >= 1
  {
    var m := |g.points| - 1;
    ChainLength(g, m);
    if g.count == 1 {
      assert Moves(g) == m;
    } else {
      TwiceAsMany(m, g.count);
    }
  }

  lemma TwiceAsMany(m: nat, c: nat)
    requires c >= 2
    ensures m * c >= 2 * m
  {
  }

  lemma {:induction false} TimesCount(ms: multiset<Pair>, k: nat)
    ensures |Times(ms, k)| == |ms| * k
  {
    if k > 0 {
      TimesCount(ms, k - 1);
      assert |ms| * k == |ms| * (k - 1) + |ms|;
    }
  }

  lemma LastGroupSteps(gs: seq<Group>)
    requires gs != [] && |gs[|gs| - 1].points| >= 2
    ensures var g := gs[|gs| - 1];
            && GroupSteps(gs) == GroupSteps(gs[..|gs| - 1]) + Times(Steps(g.points), g.count)
            && |GroupSteps(gs)| == |GroupSteps(gs[..|gs| - 1])| + Moves(g)
  {
    var n, g := |gs| - 1, gs[|gs| - 1];
    assert PointsOf(gs) == PointsOf(gs[..n]) + [g.points];
    assert CountsOf(gs) == CountsOf(gs[..n]) + [g.count];
    hide Steps, Times, RowSteps;
    RowStepsSnoc(PointsOf(gs[..n]), CountsOf(gs[..n]), g.points, g.count, 0);
    TimesCount(Steps(g.points), g.count);
    StepsCount(g.points);
  }

  lemma {:induction false} TextIsShort(gs: seq<Group>)
    requires forall i :: 0 <= i < |gs| ==> Plausible(gs[i])
    ensures forall i :: 0 <= i < |gs| ==> GroupOk(gs[i])
    ensures gs != [] ==> |MoveText(gs)| + 1 <= 7 * |GroupSteps(gs)| + BarGroups(gs)
    ensures BarGroups(gs) <= |GroupSteps(gs)|
  {
    if gs != [] {
      var n := |gs| - 1;
      TextIsShort(gs[..n]);
      LastGroupSteps(gs);
      GroupLength(gs[n]);
      hide GroupSteps, GroupText, FromBar, Plausible;
      if n == 0 {
        assert gs[..n] == [];
      }
    }
  }

  lemma GoodIsPlausible(b: Board, gs: seq<Group>)
    requires GoodGroups(b, gs)
    ensures forall i :: 0 <= i < |gs| ==> Plausible(gs[i])
  {
    forall i | 0 <= i < |gs| ensures Plausible(gs[i]) {
      PlausibleGroup(b, gs[..i], gs[i]);
    }
  }

  lemma PlausibleGroup(b: Board, before: seq<Group>, g: Group)
    requires GroupOk(g) && Printable(b, g.points) && StarsRight(b, before, g)
    ensures Plausible(g)
  {
    forall k | 1 <= k < |g.points| ensures g.points[k] != 25 {
      Downhill(b, g.points, 0, k);
    }
    forall k | 0 <= k < |g.points| - 1 ensures g.points[k] != 0 {
      Downhill(b, g.points, k, |g.points| - 1);
    }
  }

  // ---------------------------------------------------- one entry at the most

  lemma {:induction false} TwoFromBar(gs: seq<Group>)
    ensures BarGroups(gs) >= 1 ==> exists i :: 0 <= i < |gs| && FromBar(gs[i])
    ensures BarGroups(gs) >= 2 ==> exists i, j :: 0 <= i < j < |gs| && FromBar(gs[i]) && FromBar(gs[j])
  {
    if gs != [] {
      var n := |gs| - 1;
      TwoFromBar(gs[..n]);
      if BarGroups(gs) >= 2 && FromBar(gs[n]) {
        var i :| 0 <= i < n && FromBar(gs[..n][i]);
        assert FromBar(gs[i]);
      }
    }
  }

  lemma GroupStepIn(gs: seq<Group>, i: nat)
    requires i < |gs| && FromBar(gs[i])
    ensures (25, gs[i].points[1]) in GroupSteps(gs)
  {
    SingleOut(PointsOf(gs), CountsOf(gs), i, 0);
    assert PointsOf(gs)[i] == gs[i].points;
    assert CountsOf(gs)[i] == 1;
    TimesOne(Steps(gs[i].points));
    StepsOfPair(gs[i].points);
  }

  /** Chequers entering with the same die land on the same point, and a chain is
      printed once, so two entries are written as one. */
  lemma OneEntry(b: Board, gs: seq<Group>, p: Play)
    requires GoodGroups(b, gs) && |p.srcs| <= |p.dice|
    requires GroupSteps(gs) == multiset(PairsOf(p.srcs, p.dice))
    requires forall i :: 0 <= i < |p.srcs| ==> p.dice[i] == p.dice[0]
    ensures BarGroups(gs) <= 1
  {
    if BarGroups(gs) >= 2 {
      TwoFromBar(gs);
      var i, j :| 0 <= i < j < |gs| && FromBar(gs[i]) && FromBar(gs[j]);
      DifferentChains(b, gs, i, j);
      SameEntry(gs, p, i, j);
    }
  }

  lemma DifferentChains(b: Board, gs: seq<Group>, i: nat, j: nat)
    requires GoodGroups(b, gs) && i < j < |gs| && FromBar(gs[i]) && FromBar(gs[j])
    ensures gs[i].points != gs[j].points
  {
    assert PointsOf(gs)[i] == gs[i].points && PointsOf(gs)[j] == gs[j].points;
  }

  lemma SameEntry(gs: seq<Group>, p: Play, i: nat, j: nat)
    requires i < |gs| && j < |gs| && FromBar(gs[i]) && FromBar(gs[j]) && |p.srcs| <= |p.dice|
    requires GroupSteps(gs) == multiset(PairsOf(p.srcs, p.dice))
    requires forall i :: 0 <= i < |p.srcs| ==> p.dice[i] == p.dice[0]
    ensures gs[i].points == gs[j].points
  {
    GroupStepIn(gs, i);
    GroupStepIn(gs, j);
    EntryPoint(p, gs[i].points[1]);
    EntryPoint(p, gs[j].points[1]);
    assert gs[i].points == [25, gs[j].points[1]];
  }

  lemma EntryPoint(p: Play, x: int)
    requires |p.srcs| <= |p.dice| && (25, x) in multiset(PairsOf(p.srcs, p.dice))
    requires forall i :: 0 <= i < |p.srcs| ==> p.dice[i] == p.dice[0]
    ensures |p.dice| > 0 && (25, x) == PairOf(24, p.dice[0])
  {
    var i :| 0 <= i < |p.srcs| && PairsOf(p.srcs, p.dice)[i] == (25, x);
  }

  /** Plays of four sub-moves use one number, so every play fits. */
  lemma PlayTextFits(b: Board, p: Play, gs: seq<Group>)
    requires GoodGroups(b, gs) && |p.srcs| <= |p.dice|
    requires Shortened(multiset(PairsOf(p.srcs, p.dice)), GroupSteps(gs))
    requires |p.srcs| < 4 || (|p.srcs| == 4 && forall i :: 0 <= i < 4 ==> p.dice[i] == p.dice[0])
    ensures |MoveText(gs)| <= 28
  {
    hide MoveText, GroupSteps, BarGroups, Printable, StarsRight, Plausible;
    GoodIsPlausible(b, gs);
    TextIsShort(gs);
    assert |multiset(PairsOf(p.srcs, p.dice))| == |p.srcs|;
    if |GroupSteps(gs)| == 4 {
      OneEntry(b, gs, p);
    }
    if gs == [] {
      NoText(gs);
    }
  }

  lemma NoText(gs: seq<Group>)
    requires gs == []
    ensures MoveText(gs) == ""
  {
  }

  lemma DiceOfPlay(b: Board, n0: nat, n1: nat, p: Play)
    requires IsPlay(b, n0, n1, p) && |p.srcs| <= |p.dice|
    ensures |p.srcs| < 4 || (|p.srcs| == 4 && forall i :: 0 <= i < 4 ==> p.dice[i] == p.dice[0])
  {
  }

  /** Show a legal play, read it back and apply it: the text fits the buffer and the
      board is the one the play reaches. */
  method ShowLegalPlay(b: Board, anMove: seq<int>, ghost n0: nat, ghost n1: nat, ghost p: Play)
    returns (sz: string, r: int, e: int, c: Board)
    requires Unshared(b) && IsPlay(b, n0, n1, p) && RecordsPlay(anMove, p)
    ensures |sz| <= 28
    ensures 0 <= r <= 4 && e == 0 && c == After(b, p.srcs, p.dice)
  {
    assert Playable(b, p.srcs, p.dice);
    hide *;
    ghost var gs;
    sz, r, e, c, gs := ShowAndReadBack(b, anMove, p);
    DiceOfPlay(b, n0, n1, p);
    PlayTextFits(b, p, gs);
  }

  /** The play behind a move the generator lists. */
  lemma PlayOfListedMove(b: Board, n0: nat, n1: nat, l: MoveGenerator.ListState, fPartial: bool, i: nat) returns (p: Play)
    requires LegalPlays.ListExact(b, n0, n1, l, fPartial) && i < |l.moves|
    ensures IsPlay(b, n0, n1, p) && RecordsPlay(l.moves[i].anMove, p)
    ensures Playable(b, p.srcs, p.dice) && After(b, p.srcs, p.dice) == l.moves[i].key
  {
    assert LegalPlays.EntryExact(b, n0, n1, l.moves[i], fPartial);
    p :| MoveGenerator.Records(b, l.moves[i], p) && IsPlay(b, n0, n1, p);
    StoredMoveRecords(b, l.moves[i], p);
  }

  /** Every move the generator lists can be shown in 28 characters and read back to the
      position it is listed for. */
  method ShowListedMove(b: Board, ghost n0: nat, ghost n1: nat, ghost l: MoveGenerator.ListState, ghost fPartial: bool,
                        ghost i: nat, m: MoveGenerator.Move)
    returns (sz: string, r: int, e: int, c: Board)
    requires Unshared(b) && LegalPlays.ListExact(b, n0, n1, l, fPartial) && i < |l.moves| && m == l.moves[i]
    ensures |sz| <= 28 && 0 <= r <= 4 && e == 0 && c == m.key
  {
    hide *;
    ghost var p := PlayOfListedMove(b, n0, n1, l, fPartial, i);
    sz, r, e, c := ShowLegalPlay(b, m.anMove, n0, n1, p);
  }
}
