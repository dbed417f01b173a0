/** Why the sanity check of gnubg/eval.c may correct an evaluation: once the sides have
    passed each other, a sub-move crosses at most one quadrant, so the crossings left bound
    the turns left. */
module RaceFacts {
  import opened Boards
  import opened Cubeful
  import opened Evaluation

  // ---------------------------------------------------------- counting crossings

  function Rear(s: Side): nat {
    Back(s, 0, 25, 0)
  }

  /** Every chequer counted once for each of six points it has left behind it, and w more
      times: with w = 1 the crossings to bear all off, with w = 0 to bring all home. */
  ghost function Crossings(s: seq<nat>, w: nat): nat {
    if s == [] then 0 else Crossings(s[..|s| - 1], w) + s[|s| - 1] * ((|s| - 1) / 6 + w)
  }

  lemma {:induction false} CrossingsOfQuadrant(s: Side, lo: nat, hi: nat, q: nat, w: nat)
    requires lo <= hi <= 25 && forall p :: lo <= p < hi ==> p / 6 == q
    ensures Crossings(s[..hi], w) == Crossings(s[..lo], w) + (q + w) * Chequers(s, lo, hi)
    ensures Total(s[..hi]) == Total(s[..lo]) + Chequers(s, lo, hi)
    decreases hi
  {
    if lo < hi {
      CrossingsOfQuadrant(s, lo, hi - 1, q, w);
      assert s[..hi][..hi - 1] == s[..hi - 1];
      Distribute(q + w, Chequers(s, lo, hi - 1), s[hi - 1]);
    }
  }

  lemma Distribute(x: nat, y: nat, z: nat)
    ensures x * (y + z) == x * y + z * x
  {
  }

  lemma BarCrossings(s: Side, w: nat)
    ensures Crossings(s, w) == Crossings(s[..24], w) + (4 + w) * s[24] && Total(s) == Total(s[..24]) + s[24]
    ensures Crossings(s[..0], w) == 0 == Total(s[..0])
  {
    assert s[..25] == s;
  }

  lemma HomeCrossings(s: Side)
    ensures Crossings(s, 0) == Chequers(s, 6, 12) + 2 * Chequers(s, 12, 18) + 3 * Chequers(s, 18, 24) + 4 * s[24]
    ensures Total(s) == Chequers(s, 0, 6) + Chequers(s, 6, 12) + Chequers(s, 12, 18) + Chequers(s, 18, 24) + s[24]
  {
    hide *;
    BarCrossings(s, 0);
    CrossingsOfQuadrant(s, 0, 6, 0, 0);
    CrossingsOfQuadrant(s, 6, 12, 1, 0);
    CrossingsOfQuadrant(s, 12, 18, 2, 0);
    CrossingsOfQuadrant(s, 18, 24, 3, 0);
  }

  lemma AllCrossings(s: Side)
    ensures Crossings(s, 1) == Chequers(s, 0, 6) + 2 * Chequers(s, 6, 12) + 3 * Chequers(s, 12, 18)
                               + 4 * Chequers(s, 18, 24) + 5 * s[24]
  {
    hide *;
    BarCrossings(s, 1);
    CrossingsOfQuadrant(s, 0, 6, 0, 1);
    CrossingsOfQuadrant(s, 6, 12, 1, 1);
    CrossingsOfQuadrant(s, 12, 18, 2, 1);
    CrossingsOfQuadrant(s, 18, 24, 3, 1);
  }

  /** What the loops count: the rear chequer, the chequers on the board, the crossings to bear
      them off, and one more than the crossings to bring them home. */
  lemma CountsAreCrossings(s: Side)
    ensures CountsOf(s).anBack == Rear(s) && CountsOf(s).ac == Total(s)
    ensures CountsOf(s).anCross == Crossings(s, 1) && CountsOf(s).anGammonCross == 1 + Crossings(s, 0)
  {
    hide Chequers, Crossings, Total, Back;
    HomeCrossings(s);
    AllCrossings(s);
  }

  lemma {:induction false} OneMore(s: seq<nat>, i: nat, w: nat)
    requires i < |s|
    ensures Crossings(s[i := s[i] + 1], w) == Crossings(s, w) + i / 6 + w
  {
    var n := |s| - 1;
    if i < n {
      OneMore(s[..n], i, w);
      assert s[i := s[i] + 1][..n] == s[..n][i := s[i] + 1];
    } else {
      assert s[i := s[i] + 1][..n] == s[..n];
      Distribute(n / 6 + w, s[n], 1);
    }
  }

  lemma {:induction false} NoneToCross(s: seq<nat>, w: nat)
    requires forall i :: 0 <= i < |s| ==> s[i] == 0
    ensures Crossings(s, w) == 0
  {
    if s != [] {
      NoneToCross(s[..|s| - 1], w);
    }
  }

  lemma {:induction false} HomeNeedsNone(s: seq<nat>)
    requires forall i :: 6 <= i < |s| ==> s[i] == 0
    ensures Crossings(s, 0) == 0
  {
    if s != [] {
      HomeNeedsNone(s[..|s| - 1]);
    }
  }

  // ----------------------------------------------------------- past each other

  lemma {:induction false} BackIsLast(s: Side, hi: nat)
    requires hi <= 25
    ensures forall p :: 0 <= p < hi && s[p] > 0 ==> p <= Back(s, 0, hi, 0)
    ensures Back(s, 0, hi, 0) == 0 || (Back(s, 0, hi, 0) < hi && s[Back(s, 0, hi, 0)] > 0)
    decreases hi
  {
    if hi > 0 {
      BackIsLast(s, hi - 1);
    }
  }

  /** No chequer has one of the other side's still to pass. */
  ghost predicate Passed(b: Board) {
    Unshared(b) && Rear(b.them) + Rear(b.us) < 24
  }

  lemma RearFalls(s: Side, t: Side, k: nat)
    requires k <= Rear(s) && forall p :: k < p < 25 && t[p] > 0 ==> s[p] > 0
    ensures Rear(t) <= Rear(s)
  {
    BackIsLast(s, 25);
    BackIsLast(t, 25);
  }

  /** What a side has to do goes down by at most one crossing a sub-move, and nobody is borne
      off before all are home. */
  ghost predicate Closer(s: Side, t: Side, k: nat) {
    && Total(t) <= Total(s) && Rear(t) <= Rear(s) && Crossings(t, 1) + k >= Crossings(s, 1)
    && (if Total(t) == Total(s) then Crossings(t, 0) + k >= Crossings(s, 0) else k >= 1 + Crossings(s, 0))
  }

  lemma CloserCompose(s: Side, t: Side, u: Side, k: nat, m: nat)
    requires Closer(s, t, k) && Closer(t, u, m)
    ensures Closer(s, u, k + m)
  {
    hide Crossings, Total, Rear;
  }

  lemma CloserSelf(s: Side)
    ensures Closer(s, s, 0)
  {
  }

  lemma CloserLater(s: Side, t: Side, k: nat, m: nat)
    requires Closer(s, t, k) && k <= m
    ensures Closer(s, t, m)
  {
    hide Crossings, Total, Rear;
  }

  /** Nothing is in the way. */
  lemma NothingThere(b: Board, src: nat, die: nat)
    requires Passed(b) && src < 25 && b.us[src] > 0 && 1 <= die <= src
    ensures b.them[23 - (src - die)] == 0 && src < 24
  {
    BackIsLast(b.us, 25);
    BackIsLast(b.them, 25);
    hide Rear;
    assert b.them[23 - (src - die)] > 0 ==> 23 - (src - die) <= Rear(b.them);
  }

  lemma StepPasses(b: Board, src: nat, die: nat)
    requires Passed(b) && Step(b, src, die)
    ensures SubMove(b, src, die).them == b.them && Passed(SubMove(b, src, die))
    ensures Rear(SubMove(b, src, die).us) <= Rear(b.us)
  {
    BackIsLast(b.us, 25);
    if die <= src {
      NothingThere(b, src, die);
    }
    StepKeepsUnshared(b, src, die);
    RearFalls(b.us, SubMove(b, src, die).us, src);
  }

  /** Without a hit a chequer is lifted and put down. */
  lemma LiftedAndPut(b: Board, src: nat, die: nat)
    requires Passed(b) && Step(b, src, die)
    ensures var lifted: seq<nat> := b.us[src := b.us[src] - 1];
            && lifted[src := lifted[src] + 1] == b.us
            && SubMove(b, src, die).us == if die <= src then lifted[src - die := lifted[src - die] + 1] else lifted
  {
    if die <= src {
      NothingThere(b, src, die);
    }
    hide Passed, Open;
  }

  lemma StepCrossings(b: Board, src: nat, die: nat, w: nat)
    requires Passed(b) && Step(b, src, die)
    ensures Crossings(b.us, w) == Crossings(SubMove(b, src, die).us, w)
                                  + if die <= src then src / 6 - (src - die) / 6 else src / 6 + w
  {
    LiftedAndPut(b, src, die);
    hide Crossings, Passed, Step, SubMove;
    var lifted: seq<nat> := b.us[src := b.us[src] - 1];
    OneMore(lifted, src, w);
    if die <= src {
      OneMore(lifted, src - die, w);
    }
  }

  lemma AtMostOneQuadrant(src: nat, die: nat)
    requires die <= 6
    ensures die <= src ==> (src - die) / 6 <= src / 6 <= (src - die) / 6 + 1
    ensures src < die ==> src / 6 == 0
  {
  }

  lemma StepCrosses(b: Board, src: nat, die: nat)
    requires Passed(b) && Step(b, src, die)
    ensures Closer(b.us, SubMove(b, src, die).us, 1)
  {
    StepPasses(b, src, die);
    StepConserves(b, src, die);
    StepCrossings(b, src, die, 0);
    StepCrossings(b, src, die, 1);
    AtMostOneQuadrant(src, die);
    if die > src {
      HomeNeedsNone(b.us);
    }
    hide Crossings, Total, Pips, Rear, SubMove, Passed, Unshared, Step;
  }

  lemma {:induction false} RunCrosses(b: Board, srcs: seq<nat>, dice: seq<nat>)
    requires Passed(b) && Playable(b, srcs, dice)
    ensures After(b, srcs, dice).them == b.them && Passed(After(b, srcs, dice))
    ensures Closer(b.us, After(b, srcs, dice).us, |srcs|)
    decreases srcs
  {
    if srcs == [] {
      CloserSelf(b.us);
    } else {
      hide Closer, Passed;
      var c := SubMove(b, srcs[0], dice[0]);
      StepPasses(b, srcs[0], dice[0]);
      StepCrosses(b, srcs[0], dice[0]);
      RunCrosses(c, srcs[1..], dice[1..]);
      CloserCompose(b.us, c.us, After(b, srcs, dice).us, 1, |srcs| - 1);
    }
  }

  // ------------------------------------------------------------------ the game

  /** A turn takes at most four sub-moves, whatever the dice. */
  ghost predicate TurnTo(b: Board, c: Board) {
    exists srcs, dice :: |srcs| <= 4 && Playable(b, srcs, dice) && After(b, srcs, dice) == c
  }

  /** After n turns, taken in turn, `c` is the board as the player then on roll sees it. */
  ghost predicate PlaysOut(b: Board, n: nat, c: Board)
    decreases n
  {
    if n == 0 then c == b else exists d :: TurnTo(b, d) && PlaysOut(Swapped(d), n - 1, c)
  }

  /** The side that was on roll n turns ago, and its opponent. */
  function Mine(c: Board, n: nat): Side {
    if n % 2 == 0 then c.us else c.them
  }

  function Theirs(c: Board, n: nat): Side {
    if n % 2 == 0 then c.them else c.us
  }

  lemma TurnCrosses(b: Board, d: Board)
    requires Passed(b) && TurnTo(b, d)
    ensures d.them == b.them && Passed(Swapped(d)) && Closer(b.us, d.us, 4)
  {
    hide Closer, Rear, Playable, After;
    var srcs, dice :| |srcs| <= 4 && Playable(b, srcs, dice) && After(b, srcs, dice) == d;
    RunCrosses(b, srcs, dice);
    CloserLater(b.us, d.us, |srcs|, 4);
    assert forall p :: 0 <= p < 24 ==> d.us[23 - (23 - p)] == d.us[p];
  }

  /** Over every line of play from a board where the sides have passed each other. */
  lemma {:induction false} LineCrosses(b: Board, n: nat, c: Board)
    requires Passed(b) && PlaysOut(b, n, c)
    ensures Closer(b.us, Mine(c, n), 4 * ((n + 1) / 2)) && Closer(b.them, Theirs(c, n), 4 * (n / 2))
    decreases n
  {
    hide Closer, Passed, TurnTo;
    if n == 0 {
      CloserSelf(b.us);
      CloserSelf(b.them);
    } else {
      var d :| TurnTo(b, d) && PlaysOut(Swapped(d), n - 1, c);
      TurnCrosses(b, d);
      LineCrosses(Swapped(d), n - 1, c);
      CloserCompose(b.us, d.us, Mine(c, n), 4, 4 * ((n - 1) / 2));
    }
  }

  // ------------------------------------------------- the facts are true of the game

  /** The turns granted to the player on roll and to the opponent. */
  function OurTurns(b: Board, pbc1: bool, maxTurns: TurnBound): nat {
    var t := MaxTurns(b.us, CountsOf(b.us), pbc1, maxTurns);
    if t == 0 then 1 else t
  }

  function TheirTurns(b: Board, pbc1: bool, maxTurns: TurnBound): nat {
    MaxTurns(b.them, CountsOf(b.them), pbc1, maxTurns)
  }

  /** Each fact is claimed exactly when the crossings left outnumber the sub-moves there can
      be; without a database a side is granted two turns for each of its crossings. */
  lemma FactsCountCrossings(b: Board, pbc1: bool, maxTurns: TurnBound)
    ensures var f := FactsOf(b, pbc1, maxTurns);
            var (ours, theirs) := (OurTurns(b, pbc1, maxTurns), TheirTurns(b, pbc1, maxTurns));
            && (f.contact <==> Rear(b.them) + Rear(b.us) >= 24)
            && (f.certainWin <==> !f.contact && Crossings(b.them, 1) > 4 * (ours - 1))
            && (f.certainLoss <==> !f.contact && Crossings(b.us, 1) > 4 * theirs)
            && (f.certainGammon <==> 1 + Crossings(b.them, 0) > 4 * (ours - 1))
            && (f.certainGammonLoss <==> 1 + Crossings(b.us, 0) > 4 * theirs)
            && (f.noGammon <==> Crossings(b.us, 1) > 8 * (1 + Crossings(b.them, 0)))
            && (f.noGammonLoss <==> Crossings(b.them, 1) > 8 * (1 + Crossings(b.us, 0)) - 4)
            && (f.noBackgammon <==> Rear(b.them) < 18) && (f.noBackgammonLoss <==> Rear(b.us) < 18)
            && (f.theyAreOff <==> Total(b.them) < 15) && (f.weAreOff <==> Total(b.us) < 15)
    ensures Rear(b.us) >= 6 || !pbc1 ==>
              OurTurns(b, pbc1, maxTurns) == if Crossings(b.us, 1) == 0 then 1 else 2 * Crossings(b.us, 1)
    ensures Rear(b.them) >= 6 || !pbc1 ==> TheirTurns(b, pbc1, maxTurns) == 2 * Crossings(b.them, 1)
  {
    CountsAreCrossings(b.us);
    CountsAreCrossings(b.them);
    hide Crossings, Total, Rear, CountsOf;
  }

  /** A side whose crossings exceed the sub-moves it has had is not off. */
  lemma NotOffYet(s: Side, t: Side, k: nat)
    requires Closer(s, t, k) && Crossings(s, 1) > k
    ensures !BorneOffAll(t)
  {
    if BorneOffAll(t) {
      NoneToCross(t, 1);
    }
  }

  lemma NoneOffYet(s: Side, t: Side, k: nat)
    requires Closer(s, t, k) && 1 + Crossings(s, 0) > k
    ensures Total(t) == Total(s)
  {
    hide Crossings, Total;
  }

  lemma NoneOffIsGammon(s: Side)
    ensures GamesLost(s, Total(s)) >= 2
  {
  }

  lemma PassedIs(b: Board)
    ensures Passed(b) <==> Unshared(b) && Rear(b.them) + Rear(b.us) < 24
  {
  }

  lemma OffTakes(s: Side, t: Side, k: nat)
    requires Closer(s, t, k) && BorneOffAll(t)
    ensures Crossings(s, 1) <= k
  {
    if Crossings(s, 1) > k {
      NotOffYet(s, t, k);
    }
  }

  /** In 2t - 1 turns the opponent has t - 1, in 2t turns the player has t. */
  lemma SubMovesHad(n: nat, t: nat)
    ensures n <= 2 * t - 1 ==> 4 * (n / 2) <= 4 * (t - 1)
    ensures n <= 2 * t ==> 4 * ((n + 1) / 2) <= 4 * t
  {
  }

  /** A certain win: the opponent is not off while the player takes the turns granted. */
  lemma CertainWinIsWon(b: Board, pbc1: bool, maxTurns: TurnBound, n: nat, c: Board)
    requires Unshared(b) && FactsOf(b, pbc1, maxTurns).certainWin
    requires PlaysOut(b, n, c) && n <= 2 * OurTurns(b, pbc1, maxTurns) - 1
    ensures !BorneOffAll(Theirs(c, n))
  {
    FactsCountCrossings(b, pbc1, maxTurns);
    PassedIs(b);
    hide *;
    LineCrosses(b, n, c);
    SubMovesHad(n, OurTurns(b, pbc1, maxTurns));
    NotOffYet(b.them, Theirs(c, n), 4 * (n / 2));
  }

  /** A certain loss: the player is not off while the opponent takes the turns granted. */
  lemma CertainLossIsLost(b: Board, pbc1: bool, maxTurns: TurnBound, n: nat, c: Board)
    requires Unshared(b) && FactsOf(b, pbc1, maxTurns).certainLoss
    requires PlaysOut(b, n, c) && n <= 2 * TheirTurns(b, pbc1, maxTurns)
    ensures !BorneOffAll(Mine(c, n))
  {
    FactsCountCrossings(b, pbc1, maxTurns);
    PassedIs(b);
    hide *;
    LineCrosses(b, n, c);
    SubMovesHad(n, TheirTurns(b, pbc1, maxTurns));
    NotOffYet(b.us, Mine(c, n), 4 * ((n + 1) / 2));
  }

  /** A certain gammon: by then the opponent has not borne a chequer off. */
  lemma CertainGammonIsWon(b: Board, pbc1: bool, maxTurns: TurnBound, n: nat, c: Board)
    requires Passed(b) && FactsOf(b, pbc1, maxTurns).certainGammon
    requires PlaysOut(b, n, c) && n <= 2 * OurTurns(b, pbc1, maxTurns) - 1
    ensures GamesLost(Theirs(c, n), Total(b.them)) >= 2
  {
    FactsCountCrossings(b, pbc1, maxTurns);
    hide *;
    LineCrosses(b, n, c);
    SubMovesHad(n, OurTurns(b, pbc1, maxTurns));
    NoneOffYet(b.them, Theirs(c, n), 4 * (n / 2));
    NoneOffIsGammon(Theirs(c, n));
  }

  lemma CertainGammonIsLost(b: Board, pbc1: bool, maxTurns: TurnBound, n: nat, c: Board)
    requires Passed(b) && FactsOf(b, pbc1, maxTurns).certainGammonLoss
    requires PlaysOut(b, n, c) && n <= 2 * TheirTurns(b, pbc1, maxTurns)
    ensures GamesLost(Mine(c, n), Total(b.us)) >= 2
  {
    FactsCountCrossings(b, pbc1, maxTurns);
    hide *;
    LineCrosses(b, n, c);
    SubMovesHad(n, TheirTurns(b, pbc1, maxTurns));
    NoneOffYet(b.us, Mine(c, n), 4 * ((n + 1) / 2));
    NoneOffIsGammon(Mine(c, n));
  }

  /** No gammon: when the player is off, the opponent has had two turns for every crossing
      that saves the gammon. */
  lemma NoGammonInTime(b: Board, pbc1: bool, maxTurns: TurnBound, n: nat, c: Board)
    requires Passed(b) && PlaysOut(b, n, c)
    ensures FactsOf(b, pbc1, maxTurns).noGammon && BorneOffAll(Mine(c, n)) ==> n / 2 >= 2 * (1 + Crossings(b.them, 0))
    ensures FactsOf(b, pbc1, maxTurns).noGammonLoss && BorneOffAll(Theirs(c, n)) ==>
              (n + 1) / 2 >= 2 * (1 + Crossings(b.us, 0))
  {
    FactsCountCrossings(b, pbc1, maxTurns);
    hide *;
    LineCrosses(b, n, c);
    if BorneOffAll(Mine(c, n)) {
      OffTakes(b.us, Mine(c, n), 4 * ((n + 1) / 2));
    }
    if BorneOffAll(Theirs(c, n)) {
      OffTakes(b.them, Theirs(c, n), 4 * (n / 2));
    }
  }

  lemma NoStragglers(s: Side, t: Side, k: nat, n: nat)
    requires Closer(s, t, k) && Rear(s) < 18
    ensures GamesLost(t, n) <= 2
  {
    hide Crossings, Total, Back;
    BackIsLast(t, 25);
  }

  /** No backgammon: the loser has no chequer left in the winner's home board or on the bar. */
  lemma NoBackgammonIsPlayed(b: Board, pbc1: bool, maxTurns: TurnBound, n: nat, c: Board, k: nat)
    requires Passed(b) && PlaysOut(b, n, c)
    ensures FactsOf(b, pbc1, maxTurns).noBackgammon ==> GamesLost(Theirs(c, n), k) <= 2
    ensures FactsOf(b, pbc1, maxTurns).noBackgammonLoss ==> GamesLost(Mine(c, n), k) <= 2
  {
    FactsCountCrossings(b, pbc1, maxTurns);
    hide *;
    LineCrosses(b, n, c);
    if FactsOf(b, pbc1, maxTurns).noBackgammon {
      NoStragglers(b.them, Theirs(c, n), 4 * (n / 2), k);
    }
    if FactsOf(b, pbc1, maxTurns).noBackgammonLoss {
      NoStragglers(b.us, Mine(c, n), 4 * ((n + 1) / 2), k);
    }
  }
}
