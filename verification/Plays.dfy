/** The rules of backgammon for playing a roll, independent of any search: what
    a play is, which plays are complete, and the reordering of doubles. */
module Plays {
  import opened Boards

  /** A play: the dice in the order used and the source point of each sub-move. */
  datatype Play = Play(dice: seq<nat>, srcs: seq<nat>)

  function Same(n: nat, k: nat): (dice: seq<nat>)
    ensures |dice| == k && forall i :: 0 <= i < k ==> dice[i] == n
  {
    if k == 0 then [] else [n] + Same(n, k - 1)
  }

  /** The orders in which the dice of a roll may be played. */
  function Orders(n0: nat, n1: nat): set<seq<nat>> {
    if n0 == n1 then {Same(n0, 4)} else {[n0, n1], [n1, n0]}
  }

  ghost predicate IsPlay(b: Board, n0: nat, n1: nat, p: Play) {
    p.dice in Orders(n0, n1) && p.srcs != [] && Playable(b, p.srcs, p.dice)
  }

  /** A position reached by some play, complete or not. */
  ghost predicate Reachable(b: Board, n0: nat, n1: nat, c: Board) {
    exists p :: IsPlay(b, n0, n1, p) && After(b, p.srcs, p.dice) == c
  }

  /** The pips on the dice a play uses. */
  function DicePips(p: Play): nat
    requires |p.srcs| <= |p.dice|
  {
    Total(p.dice[..|p.srcs|])
  }

  /** The rules oblige a player to use as many dice as possible and, if only one
      of two can be used, the larger. */
  ghost predicate Outdoes(q: Play, p: Play)
    requires |p.srcs| <= |p.dice| && |q.srcs| <= |q.dice|
  {
    |q.srcs| > |p.srcs| || (|q.srcs| == |p.srcs| && DicePips(q) > DicePips(p))
  }

  ghost predicate IsComplete(b: Board, n0: nat, n1: nat, p: Play) {
    && IsPlay(b, n0, n1, p)
    && |p.srcs| <= |p.dice|
    && forall q :: IsPlay(b, n0, n1, q) && |q.srcs| <= |q.dice| ==> !Outdoes(q, p)
  }

  /** A position the rules allow the player to end the turn in. */
  ghost predicate LegalEnd(b: Board, n0: nat, n1: nat, c: Board) {
    exists p :: IsComplete(b, n0, n1, p) && After(b, p.srcs, p.dice) == c
  }

  // ------------------------------------------------------------ reordering

  ghost predicate Descending(s: seq<nat>) {
    forall i, j :: 0 <= i <= j < |s| ==> s[i] >= s[j]
  }

  /** Two sub-moves with the same die, the lower source first, commute. */
  lemma SwapSteps(b: Board, low: nat, high: nat, n: nat)
    requires Unshared(b) && low < high
    requires Step(b, low, n) && Step(SubMove(b, low, n), high, n)
    ensures Step(b, high, n) && Step(SubMove(b, high, n), low, n)
    ensures SubMove(SubMove(b, high, n), low, n) == SubMove(SubMove(b, low, n), high, n)
  {
    var c := SubMove(b, low, n);
    assert forall p :: low < p < 25 ==> c.us[p] == b.us[p];
    assert high < 24;
    SwapIsLegal(b, low, high, n);
    SwapMeets(b, low, high, n);
  }

  lemma SwapIsLegal(b: Board, low: nat, high: nat, n: nat)
    requires Unshared(b) && low < high < 24
    requires Step(b, low, n) && Step(SubMove(b, low, n), high, n)
    ensures Step(b, high, n) && Step(SubMove(b, high, n), low, n)
  {
    var c, d := SubMove(b, low, n), SubMove(b, high, n);
    if n > low {
      assert b.us[high] > 0;
      assert n == low + 1;
      assert forall p :: 5 < p < 25 ==> d.us[p] == 0;
    }
  }

  lemma SwapMeets(b: Board, low: nat, high: nat, n: nat)
    requires Unshared(b) && low < high < 24
    requires Step(b, low, n) && Step(b, high, n)
    requires Step(SubMove(b, low, n), high, n) && Step(SubMove(b, high, n), low, n)
    ensures SubMove(SubMove(b, high, n), low, n) == SubMove(SubMove(b, low, n), high, n)
  {
    var x, y := SubMove(SubMove(b, high, n), low, n), SubMove(SubMove(b, low, n), high, n);
    assert forall p :: 0 <= p < 25 ==> x.us[p] == y.us[p];
    assert forall p :: 0 <= p < 25 ==> x.them[p] == y.them[p];
  }

  lemma PutFirst(b: Board, a: nat, s: seq<nat>, n: nat, k: nat)
    requires k > 0 && Step(b, a, n) && Playable(SubMove(b, a, n), s, Same(n, k - 1))
    requires Descending(s) && (s == [] || s[0] <= a)
    ensures Playable(b, [a] + s, Same(n, k))
    ensures After(b, [a] + s, Same(n, k)) == After(SubMove(b, a, n), s, Same(n, k - 1))
    ensures Descending([a] + s)
  {
    assert ([a] + s)[1..] == s && Same(n, k)[1..] == Same(n, k - 1);
  }

  /** Any legal sequence of sub-moves with one die, bar entries and bear-offs
      included, can be played from the back of the board forwards: the same
      sub-moves in descending order of source are legal and reach the same board. */
  lemma {:induction false} PlayFromTheBack(b: Board, srcs: seq<nat>, n: nat, k: nat) returns (t: seq<nat>)
    requires Unshared(b) && Playable(b, srcs, Same(n, k))
    ensures multiset(t) == multiset(srcs)
    ensures |t| == |srcs| && Descending(t)
    ensures Playable(b, t, Same(n, k)) && After(b, t, Same(n, k)) == After(b, srcs, Same(n, k))
    decreases |srcs|
  {
    if srcs == [] {
      return srcs;
    }
    var a, c := srcs[0], SubMove(b, srcs[0], n);
    StepConserves(b, a, n);
    assert srcs == [a] + srcs[1..];
    var s := PlayFromTheBack(c, srcs[1..], n, k - 1);
    t := PlayAgain(b, a, s, n, k);
  }

  /** One exchange of the first two sub-moves of a sequence. */
  lemma ExchangeFirst(b: Board, a: nat, s: seq<nat>, n: nat, k: nat)
    requires Unshared(b) && k > 0 && Step(b, a, n) && Playable(SubMove(b, a, n), s, Same(n, k - 1))
    requires s != [] && s[0] > a
    ensures k > 1 && Step(b, s[0], n) && Unshared(SubMove(b, s[0], n)) && Step(SubMove(b, s[0], n), a, n)
    ensures Playable(SubMove(SubMove(b, s[0], n), a, n), s[1..], Same(n, k - 2))
    ensures After(SubMove(SubMove(b, s[0], n), a, n), s[1..], Same(n, k - 2)) == After(SubMove(b, a, n), s, Same(n, k - 1))
  {
    assert Same(n, k - 1)[0] == n && Same(n, k - 1)[1..] == Same(n, k - 2);
    SwapSteps(b, a, s[0], n);
    StepConserves(b, s[0], n);
  }

  /** The case in which the first sub-move must be moved back past others. */
  lemma {:induction false} PlayLater(b: Board, a: nat, s: seq<nat>, n: nat, k: nat) returns (t: seq<nat>)
    requires Unshared(b) && k > 0 && Step(b, a, n) && Playable(SubMove(b, a, n), s, Same(n, k - 1))
    requires s != [] && Descending(s) && s[0] > a
    ensures multiset(t) == multiset([a] + s)
    ensures |t| == |s| + 1 && t[0] == s[0] && Descending(t)
    ensures Playable(b, t, Same(n, k))
    ensures After(b, t, Same(n, k)) == After(SubMove(b, a, n), s, Same(n, k - 1))
    decreases |s|, 0
  {
    ExchangeFirst(b, a, s, n, k);
    var v := PlayAgain(SubMove(b, s[0], n), a, s[1..], n, k - 1);
    t := [s[0]] + v;
    assert multiset(t) == multiset([a] + s) by {
      assert s == [s[0]] + s[1..];
    }
    PutFirst(b, s[0], v, n, k);
  }

  lemma {:induction false} PlayAgain(d: Board, a: nat, rest: seq<nat>, n: nat, k: nat) returns (v: seq<nat>)
    requires Unshared(d) && k > 0 && Step(d, a, n) && Playable(SubMove(d, a, n), rest, Same(n, k - 1))
    requires Descending(rest)
    ensures multiset(v) == multiset([a] + rest)
    ensures |v| == |rest| + 1 && v[0] == (if rest == [] || rest[0] <= a then a else rest[0]) && Descending(v)
    ensures Playable(d, v, Same(n, k))
    ensures After(d, v, Same(n, k)) == After(SubMove(d, a, n), rest, Same(n, k - 1))
    decreases |rest|, 1
  {
    if rest == [] || rest[0] <= a {
      PutFirst(d, a, rest, n, k);
      v := [a] + rest;
    } else {
      v := PlayLater(d, a, rest, n, k);
    }
  }

  // --------------------------------------------------------- scores of plays

  lemma {:induction false} TotalSame(n: nat, k: nat)
    ensures Total(Same(n, k)) == n * k
  {
    if k > 0 {
      TotalSame(n, k - 1);
      SameAgain(n, k - 1);
      assert Same(n, k)[..k - 1] == Same(n, k - 1);
      assert n * k == n * (k - 1) + n;
    }
  }

  lemma {:induction false} SameAgain(n: nat, k: nat)
    ensures Same(n, k + 1) == Same(n, k) + [n]
  {
  }

  /** The two measures the search compares, dice and pips, never disagree. */
  lemma MeasuresAgree(n0: nat, n1: nat, p: Play, q: Play)
    requires 1 <= n0 && 1 <= n1
    requires p.dice in Orders(n0, n1) && q.dice in Orders(n0, n1)
    requires 1 <= |p.srcs| <= |p.dice| && 1 <= |q.srcs| <= |q.dice|
    ensures |p.srcs| < |q.srcs| ==> DicePips(p) < DicePips(q)
    ensures Outdoes(q, p) <==> DicePips(q) > DicePips(p)
  {
    var j, k := |p.srcs|, |q.srcs|;
    if n0 == n1 {
      PipsOfDouble(n0, j);
      PipsOfDouble(n0, k);
      if j < k {
        TimesLess(n0, j, k);
      } else if k < j {
        TimesLess(n0, k, j);
      }
    } else {
      PipsOfTwo(p.dice, j);
      PipsOfTwo(q.dice, k);
    }
  }

  lemma TimesLess(n: nat, j: nat, k: nat)
    requires 1 <= n && j < k
    ensures n * j < n * k
  {
    assert n * k == n * j + n * (k - j);
  }

  lemma PipsOfDouble(n: nat, j: nat)
    requires j <= 4
    ensures Total(Same(n, 4)[..j]) == n * j
  {
    assert Same(n, 4)[..j] == Same(n, j);
    TotalSame(n, j);
  }

  lemma PipsOfTwo(dice: seq<nat>, j: nat)
    requires |dice| == 2 && 1 <= j <= 2
    ensures Total(dice[..j]) == if j == 1 then dice[0] else dice[0] + dice[1]
  {
    assert dice[..j][..j - 1] == dice[..j - 1];
    assert dice[..1][..0] == [];
    assert Total(dice[..1]) == dice[0];
  }
}
