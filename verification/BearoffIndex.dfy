/** The numbering of home-board positions: fewer chequers first, then fewer beyond
    the ace point, and so on. Every play lowers the number. */
module BearoffIndex {
  import opened Boards
  import opened Plays
  import opened Counting
  import opened Bearoff

  // Multichoose(t, k) positions have fewer than t chequers on k points.

  function Rank(h: seq<nat>): nat {
    if h == [] then 0 else Multichoose(Total(h), |h|) + Rank(h[1..])
  }

  lemma {:induction false} TotalFromFront(h: seq<nat>)
    requires h != []
    ensures Total(h) == h[0] + Total(h[1..])
  {
    var n := |h| - 1;
    if n == 0 {
      assert h[..0] == [] && h[1..] == [];
    } else {
      TotalFromFront(h[..n]);
      assert h[1..][..n - 1] == h[..n][1..];
    }
  }

  lemma MoreChequersMorePositions(k: nat, s: nat, t: nat)
    requires k > 0 && s < t
    ensures Multichoose(s, k) < Multichoose(t, k)
  {
    MultichooseGrows(s, t - 1, k);
    SomePosition(k - 1, t);
  }

  lemma {:induction false} SomePosition(k: nat, t: nat)
    requires t > 0
    ensures Multichoose(t, k) > 0
  {
    if k > 0 {
      SomePosition(k - 1, t);
    }
  }

  lemma {:induction false} RankBelow(h: seq<nat>)
    ensures Rank(h) < Multichoose(Total(h) + 1, |h|)
  {
    if h != [] {
      TotalFromFront(h);
      RankBelow(h[1..]);
      MultichooseGrows(Total(h[1..]) + 1, Total(h) + 1, |h| - 1);
    }
  }

  lemma {:induction false} FewerChequersFirst(h: seq<nat>, g: seq<nat>)
    requires |h| == |g| > 0 && Total(h) < Total(g)
    ensures Rank(h) < Rank(g)
  {
    RankBelow(h);
    MultichooseGrows(Total(h) + 1, Total(g), |h|);
  }

  /** Different positions have different numbers. */
  lemma {:induction false} RankIsInjective(h: seq<nat>, g: seq<nat>)
    requires |h| == |g| && Rank(h) == Rank(g)
    ensures h == g
  {
    if h != [] {
      if Total(h) < Total(g) {
        FewerChequersFirst(h, g);
      } else if Total(g) < Total(h) {
        FewerChequersFirst(g, h);
      }
      RankIsInjective(h[1..], g[1..]);
      TotalFromFront(h);
      TotalFromFront(g);
      assert h == [h[0]] + h[1..] && g == [g[0]] + g[1..];
    }
  }

  /** The number of chequers in position i. */
  function Chequers(k: nat, i: nat, t: nat): (r: nat)
    requires k > 0 && Multichoose(t, k) <= i
    ensures Multichoose(r, k) <= i < Multichoose(r + 1, k)
    decreases i - Multichoose(t, k)
  {
    MoreChequersMorePositions(k, t, t + 1);
    if Multichoose(t + 1, k) <= i then Chequers(k, i, t + 1) else t
  }

  /** The position with a given number. */
  function Position(k: nat, i: nat): (h: seq<nat>)
    requires k == 0 ==> i == 0
    ensures |h| == k
  {
    if k == 0 then []
    else
      var t := Chequers(k, i, 0);
      assert i < Multichoose(t, k) + Multichoose(t + 1, k - 1);
      var tail := Position(k - 1, i - Multichoose(t, k));
      [if Total(tail) <= t then t - Total(tail) else 0] + tail
  }

  lemma {:induction false} PositionHasRank(k: nat, i: nat)
    requires k == 0 ==> i == 0
    ensures Rank(Position(k, i)) == i
  {
    hide *;
    if k == 0 {
      NoPoints(i);
    } else {
      var t, tail := PositionIs(k, i);
      PositionHasRank(k - 1, i - Multichoose(t, k));
      RankOfPosition(k, i, t, tail);
    }
  }

  lemma NoPoints(i: nat)
    requires i == 0
    ensures Rank(Position(0, i)) == 0
  {
  }

  lemma PositionIs(k: nat, i: nat) returns (t: nat, tail: seq<nat>)
    requires k > 0
    ensures Multichoose(t, k) <= i < Multichoose(t, k) + Multichoose(t + 1, k - 1)
    ensures k == 1 ==> i == Multichoose(t, k)
    ensures |tail| == k - 1 && tail == Position(k - 1, i - Multichoose(t, k))
    ensures Total(tail) <= t ==> Position(k, i) == [t - Total(tail)] + tail
  {
    t := Chequers(k, i, 0);
    assert i < Multichoose(t, k) + Multichoose(t + 1, k - 1);
    tail := Position(k - 1, i - Multichoose(t, k));
  }

  lemma RankOfPosition(k: nat, i: nat, t: nat, tail: seq<nat>)
    requires k > 0 && |tail| == k - 1 && Multichoose(t, k) <= i < Multichoose(t, k) + Multichoose(t + 1, k - 1)
    requires Rank(tail) == i - Multichoose(t, k)
    requires Total(tail) <= t ==> Position(k, i) == [t - Total(tail)] + tail
    ensures Rank(Position(k, i)) == i
  {
    hide *;
    TailFits(t, k - 1, tail);
    RankOf(t, tail);
  }

  lemma TailFits(t: nat, k: nat, tail: seq<nat>)
    requires |tail| == k && Rank(tail) < Multichoose(t + 1, k)
    ensures Total(tail) <= t
  {
    if Total(tail) > t {
      MultichooseGrows(t + 1, Total(tail), k);
      assert tail != [];
      RankAtLeast(tail);
    }
  }

  lemma RankOf(t: nat, tail: seq<nat>)
    requires Total(tail) <= t
    ensures Rank([t - Total(tail)] + tail) == Multichoose(t, |tail| + 1) + Rank(tail)
  {
    TotalFromFront([t - Total(tail)] + tail);
    assert ([t - Total(tail)] + tail)[1..] == tail;
  }

  lemma RankHasPosition(h: seq<nat>)
    ensures Position(|h|, Rank(h)) == h
  {
    PositionHasRank(|h|, Rank(h));
    RankIsInjective(Position(|h|, Rank(h)), h);
  }

  const POSITIONS := 54264

  function Rising(t: nat, k: nat): nat {
    if k == 0 then 1 else Rising(t, k - 1) * (t + k - 1)
  }

  function Factorial(k: nat): nat {
    if k == 0 then 1 else k * Factorial(k - 1)
  }

  lemma {:induction false} RisingFromNext(t: nat, k: nat)
    requires t > 0 && k > 0
    ensures Rising(t - 1, k) == (t - 1) * Rising(t, k - 1)
  {
    if k == 1 {
      assert Rising(t, 0) == 1 && Rising(t - 1, 0) == 1;
    } else {
      hide *;
      RisingFromNext(t, k - 1);
      RisingStep(t - 1, k);
      RisingStep(t, k - 1);
      Associate(t - 1, Rising(t, k - 2), t + k - 2);
    }
  }

  lemma Associate(x: nat, y: nat, z: nat)
    ensures (x * y) * z == x * (y * z)
  {
  }

  lemma {:induction false} MultichooseIs(t: nat, k: nat)
    ensures Factorial(k) * Multichoose(t, k) == Rising(t, k)
    decreases t + k
  {
    if k > 0 {
      if t == 0 {
        NoneRising(k);
      } else {
        MultichooseIs(t - 1, k);
        MultichooseIs(t, k - 1);
        RisingFromNext(t, k);
        MultichooseStep(t, k);
        hide *;
        Combine(t, k, Factorial(k - 1), Factorial(k), Multichoose(t - 1, k), Multichoose(t, k - 1), Rising(t, k - 1));
        RisingStep(t, k);
      }
    }
  }

  lemma RisingStep(t: nat, k: nat)
    requires k > 0
    ensures Rising(t, k) == Rising(t, k - 1) * (t + k - 1) && Factorial(k) == k * Factorial(k - 1)
  {
  }

  lemma Combine(t: nat, k: nat, g: nat, f: nat, x: nat, y: nat, r: nat)
    requires t > 0 && k > 0 && f * x == (t - 1) * r && g * y == r
    ensures f == k * g ==> f * (x + y) == r * (t + k - 1)
  {
    if f == k * g {
      assert f * (x + y) == f * x + f * y;
      assert (k * g) * y == k * (g * y);
      assert (t - 1) * r + k * r == r * (t + k - 1);
    }
  }

  lemma {:induction false} NoneRising(k: nat)
    requires k > 0
    ensures Rising(0, k) == 0
  {
    if k > 1 {
      NoneRising(k - 1);
    }
  }

  lemma RisingStart(t: nat)
    ensures Rising(t, 0) == 1 == Factorial(0)
  {
  }

  lemma FewerThanSixteen(t: nat, k: nat)
    requires t == 16 && k == 6
    ensures Multichoose(t, k) == 54264
  {
    hide *;
    MultichooseIs(t, k);
    RisingStart(t);
    RisingStep(t, 1);
    RisingStep(t, 2);
    RisingStep(t, 3);
    RisingStep(t, 4);
    RisingStep(t, 5);
    RisingStep(t, k);
  }

  /** The numbering is a bijection between positions of at most fifteen chequers
      and the rows of the table. */
  lemma Numbering(h: Home, i: nat)
    ensures Total(h) <= 15 <==> Rank(h) < POSITIONS
    ensures Position(6, Rank(h)) == h && Rank(Position(6, i)) == i
    ensures i < POSITIONS ==> Total(Position(6, i)) <= 15
  {
    hide Multichoose, Rank, Position, Total;
    FewerThanSixteen(16, 6);
    RowsAreSmall(h, 16, 6);
    RowsAreSmall(Position(6, i), 16, 6);
    PositionHasRank(6, i);
    RankHasPosition(h);
  }

  lemma RowsAreSmall(h: seq<nat>, t: nat, k: nat)
    requires |h| == k > 0
    ensures Total(h) < t <==> Rank(h) < Multichoose(t, k)
  {
    RankAtLeast(h);
    hide *;
    if Total(h) < t {
      RankBelow(h);
      MultichooseGrows(Total(h) + 1, t, k);
    } else {
      MultichooseGrows(t, Total(h), k);
    }
  }

  lemma RankAtLeast(h: seq<nat>)
    requires h != []
    ensures Rank(h) >= Multichoose(Total(h), |h|)
  {
  }

  // ------------------------------------------------------ plays go downwards

  lemma {:induction false} ShiftLowers(h: seq<nat>, n: nat, d: nat)
    requires d < n < |h| && h[n] > 0
    ensures Total(h[n := h[n] - 1][d := h[d] + 1]) == Total(h)
    ensures Rank(h[n := h[n] - 1][d := h[d] + 1]) < Rank(h)
  {
    var g: seq<nat> := h[n := h[n] - 1][d := h[d] + 1];
    TakeOne(h, n);
    AddOne(h[n := h[n] - 1], d);
    if d == 0 {
      TotalFromFront(h);
      TotalFromFront(g);
      FewerChequersFirst(g[1..], h[1..]);
    } else {
      assert g[1..] == h[1..][n - 1 := h[n] - 1][d - 1 := h[d] + 1];
      ShiftLowers(h[1..], n - 1, d - 1);
    }
  }

  lemma PlayedLowers(home: Home, n: nat, die: nat)
    requires n < 6 && home[n] > 0 && 1 <= die
    ensures Rank(Played(home, n, die)) < Rank(home)
  {
    if n >= die {
      ShiftLowers(home, n, n - die);
    } else {
      TakeOne(home, n);
      FewerChequersFirst(Played(home, n, die), home);
    }
  }

  /** The home-board part of a position. */
  ghost function HomeOf(b: Board): Home {
    b.us[..6]
  }

  lemma HomeOfOnBoard(home: Home, them: Side)
    ensures HomeOf(OnBoard(home, them)) == home
  {
  }

  lemma {:induction false} RunLowers(home: Home, them: Side, srcs: seq<nat>, dice: seq<nat>)
    requires Race(them) && Playable(OnBoard(home, them), srcs, dice)
    ensures var c := After(OnBoard(home, them), srcs, dice);
            c == OnBoard(HomeOf(c), them) && if srcs == [] then HomeOf(c) == home else Rank(HomeOf(c)) < Rank(home)
    decreases |srcs|
  {
    HomeOfOnBoard(home, them);
    if srcs != [] {
      StepAtHome(home, them, srcs[0], dice[0]);
      PlayedLowers(home, srcs[0], dice[0]);
      RunLowers(Played(home, srcs[0], dice[0]), them, srcs[1..], dice[1..]);
    }
  }

  lemma StepAtHome(home: Home, them: Side, n: nat, die: nat)
    requires Race(them) && Step(OnBoard(home, them), n, die)
    ensures n < 6 && home[n] > 0 && SubMove(OnBoard(home, them), n, die) == OnBoard(Played(home, n, die), them)
  {
    var b := OnBoard(home, them);
    assert forall p :: 0 <= p < 6 ==> b.us[p] == home[p];
    assert forall p :: 6 <= p < 25 ==> b.us[p] == 0;
    if die <= n {
      assert b.them[23 - (n - die)] == 0;
    }
    assert SubMove(b, n, die).us == OnBoard(Played(home, n, die), them).us;
  }

  /** Every play from a home-board race leads to a position of lower number. */
  lemma EveryPlayLowers(home: Home, them: Side, n0: nat, n1: nat, c: Board)
    requires Race(them) && Reachable(OnBoard(home, them), n0, n1, c)
    ensures c == OnBoard(HomeOf(c), them) && Rank(HomeOf(c)) < Rank(home)
  {
    var p :| IsPlay(OnBoard(home, them), n0, n1, p) && After(OnBoard(home, them), p.srcs, p.dice) == c;
    RunLowers(home, them, p.srcs, p.dice);
  }
}
