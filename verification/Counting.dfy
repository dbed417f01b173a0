/** How many positions one roll can lead to. A play of a double is a multiset of
    chosen chequers, so fifteen chequers give at most C(18,4) positions after four
    sub-moves, and strictly fewer than 3875 after one to four. */
module Counting {
  import opened Boards
  import opened Plays

  /** The positions reached with all the dice, first source at most `p`; with
      `fDouble` every later source is at most `p` too. */
  ghost function Ends(b: Board, p: int, dice: seq<nat>, fDouble: bool): set<Board>
    requires -1 <= p <= 24
    decreases |dice|, p + 1
  {
    if dice == [] then {b}
    else if p == -1 then {}
    else
      Ends(b, p - 1, dice, fDouble) +
      (if Step(b, p, dice[0]) then Ends(SubMove(b, p, dice[0]), if fDouble then p else 24, dice[1..], fDouble) else {})
  }

  lemma {:induction false} PlaysEndInEnds(b: Board, p: int, srcs: seq<nat>, dice: seq<nat>, fDouble: bool)
    requires Playable(b, srcs, dice) && |srcs| == |dice|
    requires -1 <= p <= 24 && (srcs != [] ==> srcs[0] <= p) && (fDouble ==> Descending(srcs))
    ensures After(b, srcs, dice) in Ends(b, p, dice, fDouble)
    decreases |srcs|, p + 1
  {
    if srcs == [] {
    } else if srcs[0] < p {
      PlaysEndInEnds(b, p - 1, srcs, dice, fDouble);
    } else {
      var c := SubMove(b, p, dice[0]);
      assert |srcs| > 1 ==> Step(c, srcs[1], dice[1]);
      PlaysEndInEnds(c, if fDouble then p else 24, srcs[1..], dice[1..], fDouble);
    }
  }

  // ------------------------------------------------------------ two dice

  lemma {:induction false} FewEndsPlain(b: Board, p: int, dice: seq<nat>)
    requires -1 <= p <= 24 && |dice| <= 2
    ensures |dice| == 0 ==> |Ends(b, p, dice, false)| == 1
    ensures |dice| == 1 ==> |Ends(b, p, dice, false)| <= p + 1
    ensures |dice| == 2 ==> |Ends(b, p, dice, false)| <= 25 * (p + 1)
    decreases |dice|, p + 1
  {
    if dice != [] && p >= 0 {
      FewEndsPlain(b, p - 1, dice);
      if Step(b, p, dice[0]) {
        FewEndsPlain(SubMove(b, p, dice[0]), 24, dice[1..]);
      }
    }
  }

  // ------------------------------------------------------------- doubles

  /** Multisets of size k over t kinds. */
  function Multichoose(t: nat, k: nat): nat
    decreases t + k
  {
    if k == 0 then 1 else if t == 0 then 0 else Multichoose(t - 1, k) + Multichoose(t, k - 1)
  }

  lemma MultichooseStep(t: nat, k: nat)
    requires t > 0 && k > 0
    ensures Multichoose(t, k) == Multichoose(t - 1, k) + Multichoose(t, k - 1)
  {
  }

  lemma {:induction false} MultichooseGrows(t: nat, u: nat, k: nat)
    requires t <= u
    ensures Multichoose(t, k) <= Multichoose(u, k)
    decreases u - t
  {
    if t < u {
      MultichooseGrows(t, u - 1, k);
    }
  }

  /** The mover's chequers on points up to `p`. */
  ghost function UpTo(us: Side, p: int): nat
    requires -1 <= p <= 24
  {
    Total(us[..p + 1])
  }

  lemma UpToStep(us: Side, p: nat)
    requires p <= 24
    ensures UpTo(us, p) == UpTo(us, p - 1) + us[p]
  {
    assert us[..p + 1][..p] == us[..p];
  }

  lemma UpToAfter(b: Board, p: nat, n: nat)
    requires Unshared(b) && Step(b, p, n)
    ensures UpTo(SubMove(b, p, n).us, p) == UpTo(b.us, p) - (if n > p then 1 else 0)
  {
    hide Total, Open, NoneBehind, AllHome;
    var v: seq<nat> := b.us[..p + 1];
    TakeOne(v, p);
    var lifted: seq<nat> := v[p := v[p] - 1];
    if n <= p {
      assert Hits(b, p, n) ==> b.us[p - n] == 0;
      AddOne(lifted, p - n);
      assert SubMove(b, p, n).us[..p + 1] == lifted[p - n := lifted[p - n] + 1];
    } else {
      assert SubMove(b, p, n).us[..p + 1] == lifted;
    }
  }

  lemma EndsSplit(b: Board, p: nat, n: nat, k: nat)
    requires p <= 24 && k > 0
    ensures Ends(b, p, Same(n, k), true) == Ends(b, p - 1, Same(n, k), true)
              + (if Step(b, p, n) then Ends(SubMove(b, p, n), p, Same(n, k - 1), true) else {})
  {
  }

  lemma UnionAtMost<T>(s: set<T>, t: set<T>)
    ensures |s + t| <= |s| + |t|
  {
    assert |s + t| == |s| + |t| - |s * t|;
  }

  lemma FewEndsStep(b: Board, p: nat, n: nat, k: nat)
    requires Unshared(b) && p <= 24 && k > 0
    requires |Ends(b, p - 1, Same(n, k), true)| <= Multichoose(UpTo(b.us, p - 1), k)
    requires Step(b, p, n) ==>
               |Ends(SubMove(b, p, n), p, Same(n, k - 1), true)| <= Multichoose(UpTo(SubMove(b, p, n).us, p), k - 1)
    ensures |Ends(b, p, Same(n, k), true)| <= Multichoose(UpTo(b.us, p), k)
  {
    hide SubMove, Unshared, UpTo, Ends, Multichoose, Same, Open;
    var t, u := UpTo(b.us, p), UpTo(b.us, p - 1);
    EndsSplit(b, p, n, k);
    UpToStep(b.us, p);
    if Step(b, p, n) {
      var c := SubMove(b, p, n);
      UpToAfter(b, p, n);
      MultichooseGrows(UpTo(c.us, p), t, k - 1);
      MultichooseGrows(u, t - 1, k);
      MultichooseStep(t, k);
      UnionAtMost(Ends(b, p - 1, Same(n, k), true), Ends(c, p, Same(n, k - 1), true));
    } else {
      MultichooseGrows(u, t, k);
    }
  }

  lemma {:induction false} FewEndsDouble(b: Board, p: int, n: nat, k: nat)
    requires Unshared(b) && -1 <= p <= 24
    ensures |Ends(b, p, Same(n, k), true)| <= Multichoose(UpTo(b.us, p), k)
    decreases k, p + 1
  {
    if k > 0 && p >= 0 {
      hide Unshared, UpTo, Ends, Multichoose, Same, Open;
      FewEndsDouble(b, p - 1, n, k);
      if Step(b, p, n) {
        StepConserves(b, p, n);
        FewEndsDouble(SubMove(b, p, n), p, n, k - 1);
      }
      FewEndsStep(b, p, n, k);
    }
  }

  // ------------------------------------------------- one position to spare

  /** The occupied points up to `p`. */
  ghost function Points(us: Side, p: int): set<nat> {
    set i: nat | i <= p && i < 25 && us[i] > 0
  }

  lemma {:induction false} PointsAtMostChequers(us: Side, p: int)
    requires -1 <= p <= 24
    ensures |Points(us, p)| <= UpTo(us, p)
    decreases p + 1
  {
    if p >= 0 {
      PointsAtMostChequers(us, p - 1);
      UpToStep(us, p);
      PointsStep(us, p);
    } else {
      assert Points(us, p) == {};
    }
  }

  lemma PointsStep(us: Side, p: nat)
    requires p <= 24
    ensures |Points(us, p)| == |Points(us, p - 1)| + (if us[p] > 0 then 1 else 0)
  {
    if us[p] > 0 {
      assert Points(us, p) == Points(us, p - 1) + {p};
    } else {
      assert Points(us, p) == Points(us, p - 1);
    }
  }

  /** A stacked point leaves fewer points than chequers. */
  lemma {:induction false} StackWastesPoint(us: Side, q: nat, p: int)
    requires q <= p <= 24 && us[q] >= 2
    ensures |Points(us, p)| < UpTo(us, p)
    decreases p
  {
    UpToStep(us, p);
    PointsStep(us, p);
    if q < p {
      StackWastesPoint(us, q, p - 1);
    } else {
      PointsAtMostChequers(us, p - 1);
    }
  }

  lemma {:induction false} OneSubMoveEnds(b: Board, p: int, n: nat)
    requires -1 <= p <= 24
    ensures |Ends(b, p, Same(n, 1), true)| <= |Points(b.us, p)|
    decreases p + 1
  {
    if p >= 0 {
      OneSubMoveEnds(b, p - 1, n);
      PointsStep(b.us, p);
      assert Same(n, 1)[1..] == [];
    }
  }

  /** If the chequer on `q` bears off or lands on another, two sub-moves lose a position. */
  lemma {:induction false} CollisionSparesOne(b: Board, q: nat, p: nat, n: nat)
    requires Unshared(b) && 1 <= n && q <= p <= 24 && Meets(b.us, n, q)
    ensures |Ends(b, p, Same(n, 2), true)| < Multichoose(UpTo(b.us, p), 2)
    decreases p
  {
    hide Ends, Multichoose, UpTo, Open, Unshared, Same;
    var t, u := UpTo(b.us, p), UpTo(b.us, p - 1);
    UpToStep(b.us, p);
    PairsOf(t);
    if q == p {
      FewEndsDouble(b, p - 1, n, 2);
    } else {
      CollisionSparesOne(b, q, p - 1, n);
    }
    EndsSplit(b, p, n, 2);
    SecondSubMove(b, p, n, q);
    if Step(b, p, n) {
      UnionAtMost(Ends(b, p - 1, Same(n, 2), true), Ends(SubMove(b, p, n), p, Same(n, 1), true));
    }
    if b.us[p] > 0 {
      MultichooseGrows(u, t - 1, 2);
    }
  }

  lemma SecondSubMove(b: Board, p: nat, n: nat, q: nat)
    requires Unshared(b) && 1 <= n && q <= p <= 24 && Meets(b.us, n, q)
    ensures Step(b, p, n) ==> |Ends(SubMove(b, p, n), p, Same(n, 1), true)| <= UpTo(b.us, p)
    ensures Step(b, p, n) && q == p ==> |Ends(SubMove(b, p, n), p, Same(n, 1), true)| < UpTo(b.us, p)
  {
    if Step(b, p, n) {
      var c := SubMove(b, p, n);
      UpToAfter(b, p, n);
      OneSubMoveEnds(c, p, n);
      PointsAtMostChequers(c.us, p);
      if q == p && n <= p {
        StackWastesPoint(c.us, p - n, p);
      }
    }
  }

  lemma {:induction false} PairsOf(t: nat)
    ensures Multichoose(t, 1) == t
    ensures t > 0 ==> Multichoose(t, 2) == Multichoose(t - 1, 2) + t
  {
    if t > 0 {
      PairsOf(t - 1);
    }
  }

  lemma {:induction false} Pairs(t: nat)
    ensures 2 * Multichoose(t, 2) == t * (t + 1)
  {
    PairsOf(t);
    if t > 0 {
      Pairs(t - 1);
      assert (t - 1) * t + 2 * t == t * (t + 1);
    }
  }

  lemma {:induction false} Triples(t: nat)
    ensures 6 * Multichoose(t, 3) == t * (t + 1) * (t + 2)
  {
    if t > 0 {
      Triples(t - 1);
      Pairs(t);
      TripleStep(t, t * (t + 1));
      assert Multichoose(t, 3) == Multichoose(t - 1, 3) + Multichoose(t, 2);
    }
  }

  lemma TripleStep(t: nat, x: nat)
    requires t > 0 && x == t * (t + 1)
    ensures (t - 1) * (t - 1 + 1) * (t - 1 + 2) + 3 * x == x * (t + 2)
  {
    assert (t - 1) * t * (t + 1) == (t - 1) * (t * (t + 1));
    assert (t - 1) * x + 3 * x == x * (t + 2);
  }

  lemma {:induction false} Quadruples(t: nat)
    ensures 24 * Multichoose(t, 4) == t * (t + 1) * (t + 2) * (t + 3)
  {
    if t > 0 {
      Quadruples(t - 1);
      Triples(t);
      var y := t * (t + 1) * (t + 2);
      QuadrupleStep(t, y);
      assert Multichoose(t, 4) == Multichoose(t - 1, 4) + Multichoose(t, 3);
    }
  }

  lemma QuadrupleStep(t: nat, y: nat)
    requires t > 0 && y == t * (t + 1) * (t + 2)
    ensures (t - 1) * (t - 1 + 1) * (t - 1 + 2) * (t - 1 + 3) + 4 * y == y * (t + 3)
  {
    assert (t - 1) * t * (t + 1) * (t + 2) == (t - 1) * (t * (t + 1) * (t + 2)) by {
      assert (t - 1) * t * (t + 1) == (t - 1) * (t * (t + 1));
      assert (t - 1) * (t * (t + 1)) * (t + 2) == (t - 1) * (t * (t + 1) * (t + 2));
    }
    assert (t - 1) * y + 4 * y == y * (t + 3);
  }

  /** The bounds for t chequers or fewer, at t = 15 and t = 14. */
  lemma ChoicesAt(t: nat, m: nat)
    requires t <= m && 14 <= m <= 15
    ensures m == 15 ==> Multichoose(t, 1) <= 15 && Multichoose(t, 2) <= 120 && Multichoose(t, 3) <= 680 && Multichoose(t, 4) <= 3060
    ensures m == 14 ==> Multichoose(t, 1) <= 14 && Multichoose(t, 2) <= 105 && Multichoose(t, 3) <= 560 && Multichoose(t, 4) <= 2380
  {
    hide Multichoose;
    PairsOf(t);
    Pairs(m);
    Triples(m);
    Quadruples(m);
    MultichooseGrows(t, m, 2);
    MultichooseGrows(t, m, 3);
    MultichooseGrows(t, m, 4);
  }

  lemma FewChoices(t: nat)
    requires t <= 15
    ensures Multichoose(t, 1) <= 15 && Multichoose(t, 2) <= 120 && Multichoose(t, 3) <= 680 && Multichoose(t, 4) <= 3060
    ensures t <= 14 ==> Multichoose(t, 1) <= 14 && Multichoose(t, 2) <= 105 && Multichoose(t, 3) <= 560 && Multichoose(t, 4) <= 2380
  {
    hide Multichoose;
    ChoicesAt(t, 15);
    if t <= 14 {
      ChoicesAt(t, 14);
    }
  }

  lemma {:induction false} InitialNumbers(m: nat, s: set<nat>)
    requires forall i :: i in s ==> i < m
    ensures |s| <= m
  {
    if m > 0 {
      InitialNumbers(m - 1, s - {m - 1});
    }
  }

  ghost function ShiftedDown(s: set<nat>, n: nat): set<nat> {
    set i | i in s && n <= i :: i - n
  }

  lemma InShifted(s: set<nat>, n: nat, j: nat)
    ensures j in ShiftedDown(s, n) <==> j + n in s
  {
    if j + n in s {
      assert j == (j + n) - n;
    }
  }

  lemma {:induction false} ShiftKeepsSize(s: set<nat>, n: nat)
    requires forall i :: i in s ==> n <= i
    ensures |ShiftedDown(s, n)| == |s|
  {
    if s == {} {
      assert ShiftedDown(s, n) == {};
    } else {
      var x :| x in s;
      ShiftKeepsSize(s - {x}, n);
      forall j ensures j in ShiftedDown(s, n) <==> j in ShiftedDown(s - {x}, n) + {x - n} {
        if j >= 0 {
          InShifted(s, n, j);
          InShifted(s - {x}, n, j);
        }
      }
      assert ShiftedDown(s, n) == ShiftedDown(s - {x}, n) + {x - n};
    }
  }

  /** The chequer on `q` bears off or lands on a friend. */
  ghost predicate Meets(us: Side, n: nat, q: nat) {
    q <= 24 && us[q] > 0 && (n > q || us[q - n] > 0)
  }

  /** If no chequer bears off or meets another, the points and their
      destinations are disjoint, so there are at most twelve points. */
  lemma SeparatePointsAreFew(us: Side, n: nat)
    requires 1 <= n && forall q :: !Meets(us, n, q)
    ensures |Points(us, 24)| <= 12
  {
    var s := Points(us, 24);
    forall q | q in s ensures n <= q && us[q - n] == 0 {
      assert !Meets(us, n, q);
    }
    var r := ShiftedDown(s, n);
    ShiftKeepsSize(s, n);
    assert s !! r;
    assert |s + r| == |s| + |r|;
    InitialNumbers(25, s + r);
  }

  /** Fifteen separate points cannot all move without meeting. */
  lemma FifteenPointsCollide(us: Side, n: nat) returns (q: nat)
    requires |Points(us, 24)| == 15 && 1 <= n
    ensures Meets(us, n, q)
  {
    if forall r :: !Meets(us, n, r) {
      SeparatePointsAreFew(us, n);
    }
    q :| Meets(us, n, q);
  }

  // ------------------------------------------------------------- one roll

  /** Every position the roll can lead to by playing exactly k dice. */
  ghost function EndsOf(b: Board, n0: nat, n1: nat, k: nat): set<Board>
    requires 1 <= k <= 4
  {
    if n0 == n1 then Ends(b, 24, Same(n0, k), true)
    else if k == 1 then Ends(b, 24, [n0], false) + Ends(b, 24, [n1], false)
    else if k == 2 then Ends(b, 24, [n0, n1], false) + Ends(b, 24, [n1, n0], false)
    else {}
  }

  ghost function AllEnds(b: Board, n0: nat, n1: nat): set<Board> {
    EndsOf(b, n0, n1, 1) + EndsOf(b, n0, n1, 2) + EndsOf(b, n0, n1, 3) + EndsOf(b, n0, n1, 4)
  }

  lemma {:induction false} CutDice(b: Board, srcs: seq<nat>, dice: seq<nat>)
    requires Playable(b, srcs, dice) && |srcs| <= |dice|
    ensures Playable(b, srcs, dice[..|srcs|]) && After(b, srcs, dice[..|srcs|]) == After(b, srcs, dice)
    decreases srcs
  {
    if srcs != [] {
      CutDice(SubMove(b, srcs[0], dice[0]), srcs[1..], dice[1..]);
      assert dice[1..][..|srcs| - 1] == dice[..|srcs|][1..];
    }
  }

  lemma PlayEnds(b: Board, n0: nat, n1: nat, p: Play)
    requires Unshared(b) && IsPlay(b, n0, n1, p)
    ensures |p.srcs| <= |p.dice| && 1 <= |p.srcs| <= 4
    ensures After(b, p.srcs, p.dice) in EndsOf(b, n0, n1, |p.srcs|)
  {
    PlayableLength(b, p.srcs, p.dice);
    var k := |p.srcs|;
    if n0 == n1 {
      var t := PlayFromTheBack(b, p.srcs, n0, 4);
      CutDice(b, t, p.dice);
      assert p.dice[..k] == Same(n0, k);
      PlaysEndInEnds(b, 24, t, Same(n0, k), true);
    } else {
      CutDice(b, p.srcs, p.dice);
      PlaysEndInEnds(b, 24, p.srcs, p.dice[..k], false);
      assert p.dice[..k] == if k == 1 then [p.dice[0]] else p.dice;
    }
  }

  /** A complete play's list cannot exceed 3060 positions: C(18, 4). */
  lemma FewEndsOf(b: Board, n0: nat, n1: nat, k: nat)
    requires Unshared(b) && Total(b.us) <= 15 && 1 <= k <= 4
    ensures |EndsOf(b, n0, n1, k)| <= 3060
    ensures n0 != n1 ==> |EndsOf(b, n0, n1, k)| <= 1250
  {
    hide Ends, Multichoose, Total;
    if n0 == n1 {
      assert b.us[..25] == b.us;
      FewEndsDouble(b, 24, n0, k);
      FewChoices(Total(b.us));
    } else {
      FewEndsPlain(b, 24, [n0]);
      FewEndsPlain(b, 24, [n1]);
      FewEndsPlain(b, 24, [n0, n1]);
      FewEndsPlain(b, 24, [n1, n0]);
      UnionAtMost(Ends(b, 24, [n0], false), Ends(b, 24, [n1], false));
      UnionAtMost(Ends(b, 24, [n0, n1], false), Ends(b, 24, [n1, n0], false));
    }
  }

  /** Complete or not, the positions of one roll number at most 3874. */
  lemma FewEnds(b: Board, n0: nat, n1: nat)
    requires Unshared(b) && Total(b.us) <= 15 && 1 <= n0 && 1 <= n1
    ensures |AllEnds(b, n0, n1)| <= 3874
  {
    if n0 == n1 {
      FewEndsOfDouble(b, n0);
    } else {
      FewEndsOf(b, n0, n1, 1);
      FewEndsOf(b, n0, n1, 2);
    }
  }

  lemma FewEndsOfDouble(b: Board, n: nat)
    requires Unshared(b) && Total(b.us) <= 15 && 1 <= n
    ensures |AllEnds(b, n, n)| <= 3874
  {
    hide Ends, Multichoose, Points, Total, Unshared;
    var t := Total(b.us);
    assert b.us[..25] == b.us;
    FewChoices(t);
    FewEndsDouble(b, 24, n, 1);
    FewEndsDouble(b, 24, n, 2);
    FewEndsDouble(b, 24, n, 3);
    FewEndsDouble(b, 24, n, 4);
    PointsAtMostChequers(b.us, 24);
    OneSubMoveEnds(b, 24, n);
    if t == 15 && |Points(b.us, 24)| == 15 {
      var q := FifteenPointsCollide(b.us, n);
      CollisionSparesOne(b, q, 24, n);
    }
    var e1, e2, e3, e4 := EndsOf(b, n, n, 1), EndsOf(b, n, n, 2), EndsOf(b, n, n, 3), EndsOf(b, n, n, 4);
    assert |e1| + |e2| + |e3| + |e4| <= 3874;
    UnionAtMost(e1, e2);
    UnionAtMost(e1 + e2, e3);
    UnionAtMost(e1 + e2 + e3, e4);
  }
}
