/** The turns the sanity check of gnubg/eval.c grants a side without a database, two for
    every crossing, are enough: whatever the dice, the side can be off by then. */
module RaceTurns {
  import opened Boards
  import opened Plays
  import opened Cubeful
  import opened Evaluation
  import opened RaceFacts

  /** A measure of the work left for a chequer on point p, in quarters of a turn. It was
      chosen so that every roll, 2-1 included, does at least four quarters. */
  function Effort(p: nat): nat {
    8 * (p / 6) + if p % 6 == 0 then 3 else if p % 6 <= 2 then 4 else if p % 6 == 3 then 7 else 8
  }

  ghost function Work(s: seq<nat>): nat {
    if s == [] then 0 else Work(s[..|s| - 1]) + s[|s| - 1] * Effort(|s| - 1)
  }

  lemma {:induction false} WorkAddOne(s: seq<nat>, i: nat)
    requires i < |s|
    ensures Work(s[i := s[i] + 1]) == Work(s) + Effort(i)
  {
    hide Effort;
    var n := |s| - 1;
    if i < n {
      WorkAddOne(s[..n], i);
      assert s[i := s[i] + 1][..n] == s[..n][i := s[i] + 1];
    } else {
      assert s[i := s[i] + 1][..n] == s[..n];
      Distribute(Effort(n), s[n], 1);
    }
  }

  lemma {:induction false} WorkZero(s: seq<nat>)
    ensures Work(s) == 0 <==> forall i :: 0 <= i < |s| ==> s[i] == 0
  {
    if s != [] {
      WorkZero(s[..|s| - 1]);
      assert forall i :: 0 <= i < |s| - 1 ==> s[..|s| - 1][i] == s[i];
      Positive(s[|s| - 1], Effort(|s| - 1));
    }
  }

  lemma Positive(x: nat, y: nat)
    requires y > 0
    ensures x * y == 0 <==> x == 0
  {
  }

  /** Two turns of work for every crossing. */
  lemma {:induction false} WorkAtMostCrossings(s: seq<nat>)
    ensures Work(s) <= 8 * Crossings(s, 1)
  {
    if s != [] {
      var n := |s| - 1;
      WorkAtMostCrossings(s[..n]);
      assert Effort(n) <= 8 * (n / 6 + 1);
      Scale(s[n], Effort(n), n / 6 + 1);
    }
  }

  lemma Scale(x: nat, y: nat, z: nat)
    requires y <= 8 * z
    ensures x * y <= 8 * (x * z)
  {
    assert x * y <= x * (8 * z);
  }

  // -------------------------------------------------------- steps in a race

  /** A sub-move of a side that has nothing left to pass. */
  ghost predicate FreeStep(s: Side, src: nat, die: nat) {
    && 1 <= die <= 6 && src < 24 && s[src] > 0
    && (die <= src || (AllHome(s) && (die == src + 1 || NoneBehind(s, src))))
  }

  lemma FreeStepIsLegal(b: Board, src: nat, die: nat)
    requires Passed(b) && FreeStep(b.us, src, die)
    ensures Step(b, src, die) && SubMove(b, src, die).them == b.them && Passed(SubMove(b, src, die))
    ensures Work(SubMove(b, src, die).us) + Effort(src) == Work(b.us) + if die <= src then Effort(src - die) else 0
    ensures die <= src ==> SubMove(b, src, die).us[src - die] > 0
  {
    hide Effort, Work;
    FreeStepIsOpen(b, src, die);
    StepPasses(b, src, die);
    var lifted: seq<nat> := b.us[src := b.us[src] - 1];
    assert lifted[src := lifted[src] + 1] == b.us;
    WorkAddOne(lifted, src);
    if die <= src {
      WorkAddOne(lifted, src - die);
    }
  }

  lemma FreeStepIsOpen(b: Board, src: nat, die: nat)
    requires Passed(b) && FreeStep(b.us, src, die)
    ensures Step(b, src, die) && !Hits(b, src, die)
  {
    if die <= src {
      NothingThere(b, src, die);
    }
    NoneOnBar(b);
    hide Passed;
  }

  lemma NoneOnBar(b: Board)
    requires Passed(b)
    ensures b.us[24] == 0
  {
    BackIsLast(b.us, 25);
  }

  /** The rear chequer can always move. */
  lemma RearMoves(b: Board, die: nat)
    requires Passed(b) && !BorneOffAll(b.us) && 1 <= die <= 6
    ensures FreeStep(b.us, Rear(b.us), die)
  {
    BackIsLast(b.us, 25);
  }

  lemma OthersStay(b: Board, src: nat, die: nat, q: nat)
    requires Passed(b) && FreeStep(b.us, src, die) && q < 25 && q != src && b.us[q] > 0
    ensures SubMove(b, src, die).us[q] > 0
  {
    FreeStepIsOpen(b, src, die);
  }

  /** The roll is played in full, or the last chequer is off. */
  ghost predicate PlaysAll(b: Board, srcs: seq<nat>, dice: seq<nat>) {
    Playable(b, srcs, dice) && (|srcs| == |dice| || BorneOffAll(After(b, srcs, dice).us))
  }

  lemma PlayFirst(b: Board, src: nat, dice: seq<nat>, srcs: seq<nat>)
    requires dice != [] && Step(b, src, dice[0]) && PlaysAll(SubMove(b, src, dice[0]), srcs, dice[1..])
    ensures PlaysAll(b, [src] + srcs, dice)
    ensures After(b, [src] + srcs, dice) == After(SubMove(b, src, dice[0]), srcs, dice[1..])
  {
    hide Step;
    assert ([src] + srcs)[1..] == srcs;
  }

  /** What one die does in the hands of the rear chequer. */
  lemma RearDoes(b: Board, die: nat)
    requires Passed(b) && !BorneOffAll(b.us) && 1 <= die <= 6
    ensures Rear(b.us) < 24 && b.us[Rear(b.us)] > 0 && FreeStep(b.us, Rear(b.us), die) && Step(b, Rear(b.us), die)
    ensures var c := SubMove(b, Rear(b.us), die);
            && Passed(c) && Rear(c.us) <= Rear(b.us) && Work(c.us) <= Work(b.us)
            && (die == 2 ==> Work(c.us) + 1 <= Work(b.us)) && (Rear(b.us) == 0 ==> Work(c.us) + 3 <= Work(b.us))
            && (die >= 3 && Rear(b.us) >= 1 ==> Work(c.us) + 4 <= Work(b.us))
  {
    hide *;
    RearIs(b);
    RearMoves(b, die);
    FreeStepIsLegal(b, Rear(b.us), die);
    StepPasses(b, Rear(b.us), die);
    EffortFalls(Rear(b.us), die);
  }

  lemma EffortFalls(p: nat, die: nat)
    requires 1 <= die <= 6
    ensures var left := if die <= p then Effort(p - die) else 0;
            && left <= Effort(p) && (die == 2 ==> left + 1 <= Effort(p)) && (p == 0 ==> left + 3 <= Effort(p))
            && (die >= 3 && p >= 1 ==> left + 4 <= Effort(p))
  {
  }

  /** Playing every die with the rear chequer: the work never grows, twos do at least a
      quarter each, and chequers on the ace point are borne off, three quarters each. */
  lemma {:induction false} PlayFromRear(b: Board, dice: seq<nat>) returns (srcs: seq<nat>)
    requires Passed(b) && forall i :: 0 <= i < |dice| ==> 1 <= dice[i] <= 6
    ensures PlaysAll(b, srcs, dice) && |srcs| <= |dice|
    ensures Work(After(b, srcs, dice).us) <= Work(b.us)
    ensures (forall i :: 0 <= i < |dice| ==> dice[i] == 2) ==> Work(After(b, srcs, dice).us) + |srcs| <= Work(b.us)
    ensures Rear(b.us) == 0 ==> Work(After(b, srcs, dice).us) + 3 * |srcs| <= Work(b.us)
    decreases |dice|
  {
    if dice == [] || BorneOffAll(b.us) {
      srcs := [];
    } else {
      var p, die := Rear(b.us), dice[0];
      hide *;
      RearDoes(b, die);
      var c := SubMove(b, p, die);
      var rest := PlayFromRear(c, dice[1..]);
      PlayFirst(b, p, dice, rest);
      srcs := [p] + rest;
    }
  }

  /** The same chequer, now on p, plays the dice, then the rear ones; it comes home exactly. */
  lemma {:induction false} PlayOne(b: Board, p: nat, dice: seq<nat>, k: nat) returns (srcs: seq<nat>)
    requires Passed(b) && p < 24 && b.us[p] > 0 && forall i :: 0 <= i < |dice| ==> 1 <= dice[i] <= 6
    requires k <= |dice| && Total(dice[..k]) <= p + 1 && (Total(dice[..k]) == p + 1 ==> AllHome(b.us))
    ensures PlaysAll(b, srcs, dice) && |srcs| <= |dice|
    ensures Work(After(b, srcs, dice).us) + Effort(p)
         <= Work(b.us) + if Total(dice[..k]) <= p then Effort(p - Total(dice[..k])) else 0
    decreases k
  {
    if k == 0 {
      assert dice[..0] == [];
      srcs := PlayFromRear(b, dice);
    } else {
      var die := dice[0];
      FirstOfTotal(dice, k);
      assert FreeStep(b.us, p, die);
      FreeStepIsLegal(b, p, die);
      StaysHome(b, p, die);
      hide Passed, Step, Work, Rear, FreeStep, BorneOffAll, Effort, AllHome, Total;
      var c := SubMove(b, p, die);
      var rest;
      if die <= p {
        rest := PlayOne(c, p - die, dice[1..], k - 1);
      } else {
        rest := PlayFromRear(c, dice[1..]);
      }
      PlayFirst(b, p, dice, rest);
      srcs := [p] + rest;
    }
  }

  lemma {:induction false} FirstOfTotal(dice: seq<nat>, k: nat)
    requires 1 <= k <= |dice|
    ensures Total(dice[..k]) == dice[0] + Total(dice[1..][..k - 1])
  {
    if k == 1 {
      assert dice[..1][..0] == [] && dice[1..][..0] == [];
    } else {
      FirstOfTotal(dice, k - 1);
      assert dice[..k][..k - 1] == dice[..k - 1] && dice[1..][..k - 1][..k - 2] == dice[1..][..k - 2];
    }
  }

  lemma StaysHome(b: Board, p: nat, die: nat)
    requires Passed(b) && FreeStep(b.us, p, die)
    ensures AllHome(b.us) ==> AllHome(SubMove(b, p, die).us)
  {
    FreeStepIsOpen(b, p, die);
  }

  // ------------------------------------------------------------------- turns

  ghost predicate Does(b: Board, srcs: seq<nat>, dice: seq<nat>, quarters: nat) {
    && PlaysAll(b, srcs, dice)
    && (BorneOffAll(After(b, srcs, dice).us) || Work(After(b, srcs, dice).us) + quarters <= Work(b.us))
  }

  lemma RearIs(b: Board)
    requires Passed(b) && !BorneOffAll(b.us)
    ensures Rear(b.us) < 24 && b.us[Rear(b.us)] > 0 && (Rear(b.us) < 6 ==> AllHome(b.us))
    ensures NoneBehind(b.us, Rear(b.us))
  {
    BackIsLast(b.us, 25);
  }

  lemma TotalOfFirst(dice: seq<nat>, k: nat)
    requires 1 <= k <= 3 && k <= |dice|
    ensures Total(dice[..k]) == dice[0] + (if k > 1 then dice[1] else 0) + (if k > 2 then dice[2] else 0)
  {
    FirstOfTotal(dice, k);
    if k == 1 {
      assert dice[1..][..0] == [];
    } else {
      FirstOfTotal(dice[1..], k - 1);
      if k == 2 {
        assert dice[1..][1..][..0] == [];
      } else {
        FirstOfTotal(dice[1..][1..], 1);
        assert dice[1..][1..][1..][..0] == [];
      }
    }
  }

  /** Three pips, or bearing off from above the ace point, are a turn's work. */
  lemma EffortDrops(p: nat, t: nat)
    ensures 3 <= t <= p ==> Effort(p - t) + 4 <= Effort(p)
    ensures p >= 1 ==> Effort(p) >= 4
  {
  }

  /** One chequer does a turn's work with its first k dice. */
  lemma OneChequerDoes(b: Board, dice: seq<nat>, k: nat) returns (srcs: seq<nat>)
    requires Passed(b) && !BorneOffAll(b.us) && (forall i :: 0 <= i < |dice| ==> 1 <= dice[i] <= 6)
    requires 1 <= k <= 3 && k <= |dice| && Total(dice[..k]) <= Rear(b.us) + 1
    requires Total(dice[..k]) >= 3 || (Rear(b.us) >= 1 && Total(dice[..k]) == Rear(b.us) + 1)
    requires Total(dice[..k]) == Rear(b.us) + 1 ==> Rear(b.us) < 6
    ensures Does(b, srcs, dice, 4)
  {
    RearIs(b);
    hide Passed, Rear, AllHome, BorneOffAll, Work, Total, PlaysAll, Effort;
    EffortDrops(Rear(b.us), Total(dice[..k]));
    srcs := PlayOne(b, Rear(b.us), dice, k);
  }

  /** Every roll lets a side do a turn's work, or bear off its last chequer. */
  lemma RollDoes(b: Board, n0: nat, n1: nat) returns (dice: seq<nat>, srcs: seq<nat>)
    requires Passed(b) && !BorneOffAll(b.us) && 1 <= n1 <= n0 <= 6
    ensures dice in Orders(n0, n1) && Does(b, srcs, dice, 4)
  {
    hide Passed, Rear, AllHome, NoneBehind, Playable, After, PlaysAll, BorneOffAll, Work, Total, FreeStep, Step, Effort;
    dice := if n0 == n1 then Same(n0, 4) else [n0, n1];
    RearIs(b);
    var p := Rear(b.us);
    TotalOfFirst(dice, 1);
    TotalOfFirst(dice, 2);
    if p == 0 || (n0 == n1 == 2) {
      srcs := PlayFromRear(b, dice);
      PlaysAllIs(b, srcs, dice);
    } else if n0 >= 3 {
      srcs := LargeDieDoes(b, dice);
    } else if p == 1 {
      srcs := OneChequerDoes(b, dice, if n0 == 2 then 1 else 2);
    } else if n0 == 2 {
      srcs := OneChequerDoes(b, dice, 2);
    } else {
      TotalOfFirst(dice, 3);
      srcs := OneChequerDoes(b, dice, 3);
    }
  }

  lemma PlaysAllIs(b: Board, srcs: seq<nat>, dice: seq<nat>)
    requires PlaysAll(b, srcs, dice)
    ensures Playable(b, srcs, dice) && (|srcs| == |dice| || BorneOffAll(After(b, srcs, dice).us))
  {
  }

  /** A three or more takes the rear chequer three points or off. */
  lemma LargeDieDoes(b: Board, dice: seq<nat>) returns (srcs: seq<nat>)
    requires Passed(b) && !BorneOffAll(b.us) && Rear(b.us) >= 1
    requires dice != [] && dice[0] >= 3 && forall i :: 0 <= i < |dice| ==> 1 <= dice[i] <= 6
    ensures Does(b, srcs, dice, 4)
  {
    hide *;
    var p := Rear(b.us);
    RearDoes(b, dice[0]);
    var rest := PlayFromRear(SubMove(b, p, dice[0]), dice[1..]);
    PlayFirst(b, p, dice, rest);
    srcs := [p] + rest;
    PlaysAllIs(b, srcs, dice);
    DoesIs(b, srcs, dice);
  }

  lemma DoesIs(b: Board, srcs: seq<nat>, dice: seq<nat>)
    requires PlaysAll(b, srcs, dice) && Playable(b, srcs, dice) && Work(After(b, srcs, dice).us) + 4 <= Work(b.us)
    ensures Does(b, srcs, dice, 4)
  {
  }

  /** The player on roll can be off in k turns, whatever the dice and whatever the opponent
      does in between. */
  ghost predicate CanFinish(b: Board, k: nat)
    decreases k, 0
  {
    BorneOffAll(b.us) || (k > 0 && forall n0, n1 :: IsRoll(n0, n1) ==> CanPlayOn(b, n0, n1, k - 1))
  }

  /** A roll, larger number first. */
  predicate IsRoll(n0: nat, n1: nat) {
    1 <= n1 <= n0 <= 6
  }

  ghost predicate CanPlayOn(b: Board, n0: nat, n1: nat, k: nat)
    decreases k, 2
  {
    exists dice, srcs :: dice in Orders(n0, n1) && PlaysAll(b, srcs, dice) && CanAnswer(Swapped(After(b, srcs, dice)), k)
  }

  ghost predicate CanAnswer(b: Board, k: nat)
    decreases k, 1
  {
    forall c :: TurnTo(b, c) ==> CanFinish(Swapped(c), k)
  }

  lemma {:induction false} WorkIsDone(b: Board, k: nat)
    requires Passed(b) && Work(b.us) <= 4 * k
    ensures CanFinish(b, k)
    decreases k, 0
  {
    if BorneOffAll(b.us) {
    } else {
      WorkZero(b.us);
      forall n0, n1 | IsRoll(n0, n1) ensures CanPlayOn(b, n0, n1, k - 1) {
        var dice, srcs := RollDoes(b, n0, n1);
        PlayedOn(b, srcs, dice, k - 1);
      }
    }
  }

  lemma PlayedOn(b: Board, srcs: seq<nat>, dice: seq<nat>, k: nat)
    requires Passed(b) && Does(b, srcs, dice, 4) && Work(b.us) <= 4 * (k + 1)
    ensures CanAnswer(Swapped(After(b, srcs, dice)), k)
    decreases k, 1
  {
    PlaysAllIs(b, srcs, dice);
    RunCrosses(b, srcs, dice);
    var d := After(b, srcs, dice);
    SwappedPasses(d);
    hide Passed, Work, Closer, PlaysAll;
    forall c | TurnTo(Swapped(d), c) ensures CanFinish(Swapped(c), k) {
      TurnCrosses(Swapped(d), c);
      if !BorneOffAll(d.us) {
        WorkIsDone(Swapped(c), k);
      }
    }
  }

  lemma SwappedPasses(d: Board)
    requires Passed(d)
    ensures Passed(Swapped(d))
  {
    hide Rear;
    assert forall p :: 0 <= p < 24 ==> d.us[23 - (23 - p)] == d.us[p];
  }

  /** Two turns for every crossing are enough. */
  lemma TurnsSuffice(b: Board)
    requires Passed(b)
    ensures CanFinish(b, 2 * Crossings(b.us, 1))
  {
    hide Passed, Work, CanFinish;
    WorkAtMostCrossings(b.us);
    WorkIsDone(b, 2 * Crossings(b.us, 1));
  }

  lemma NoneLeft(b: Board, k: nat)
    requires Crossings(b.us, 1) == 0
    ensures CanFinish(b, k)
  {
    WorkAtMostCrossings(b.us);
    WorkZero(b.us);
  }

  /** A certain win can be forced: the player can be off in the turns granted, and in those
      the opponent is not (CertainWinIsWon). */
  lemma CertainWinIsForced(b: Board, pbc1: bool, maxTurns: TurnBound)
    requires Unshared(b) && FactsOf(b, pbc1, maxTurns).certainWin && (Rear(b.us) >= 6 || !pbc1)
    ensures CanFinish(b, OurTurns(b, pbc1, maxTurns))
  {
    hide *;
    FactsCountCrossings(b, pbc1, maxTurns);
    PassedIs(b);
    TurnsSuffice(b);
    if Crossings(b.us, 1) == 0 {
      NoneLeft(b, 1);
    }
  }

  /** A certain loss is forced by the opponent, whatever the player does first. */
  lemma CertainLossIsForced(b: Board, pbc1: bool, maxTurns: TurnBound, d: Board)
    requires Unshared(b) && FactsOf(b, pbc1, maxTurns).certainLoss && (Rear(b.them) >= 6 || !pbc1) && TurnTo(b, d)
    ensures CanFinish(Swapped(d), TheirTurns(b, pbc1, maxTurns))
  {
    SwappedUs(d);
    hide *;
    FactsCountCrossings(b, pbc1, maxTurns);
    PassedIs(b);
    TurnCrosses(b, d);
    TurnsSuffice(Swapped(d));
  }

  lemma SwappedUs(d: Board)
    ensures Swapped(d).us == d.them
  {
  }

  /** Two turns a crossing need not save a gammon: with chequers stacked on the six point,
      fours and fives bear none off. */
  lemma {:induction false} StackStays(b: Board, srcs: seq<nat>, dice: seq<nat>)
    requires Passed(b) && Playable(b, srcs, dice) && (forall i :: 0 <= i < |dice| ==> 4 <= dice[i] <= 5)
    requires Stacked(b.us, |srcs|)
    ensures var c := After(b, srcs, dice).us;
            Stacked(c, 0) && c[5] + |srcs| >= b.us[5] && Total(c) == Total(b.us)
    decreases srcs
  {
    if srcs != [] {
      StackStep(b, srcs[0], dice[0], |srcs|);
      StepPasses(b, srcs[0], dice[0]);
      hide Passed, Stacked, Total, Step, SubMove;
      StackStays(SubMove(b, srcs[0], dice[0]), srcs[1..], dice[1..]);
    }
  }

  /** More than k chequers on the six point, none on the five and four points. */
  ghost predicate Stacked(s: Side, k: nat) {
    s[5] > k && s[4] == s[3] == 0 && AllHome(s)
  }

  lemma StackStep(b: Board, src: nat, die: nat, k: nat)
    requires Passed(b) && Step(b, src, die) && 4 <= die <= 5 && Stacked(b.us, k) && k > 0
    ensures var c := SubMove(b, src, die).us;
            Stacked(c, k - 1) && c[5] + 1 >= b.us[5] && Total(c) == Total(b.us)
  {
    StepConserves(b, src, die);
    LiftedAndPut(b, src, die);
    hide Passed, Total, Unshared, Pips;
  }

  // ------------------------------------------------- an "impossible" gammon

  /** n chequers on the ace point. */
  function Aces(n: nat): Side {
    seq(25, i => if i == 0 then n else 0)
  }

  /** Fifteen chequers on the six point, k pairs of them moved on with fours and fives. */
  function Pairs(k: nat): Side
    requires k <= 7
  {
    seq(25, i => if i <= 1 then k else if i == 5 then 15 - 2 * k else 0)
  }

  /** A roll of sixes takes up to four chequers off the ace point. */
  lemma {:induction false} SixesBearOff(b: Board, n: nat, m: nat, srcs: seq<nat>, dice: seq<nat>)
    requires b.us == Aces(n) && m <= n && srcs == seq(m, _ => 0) && dice == seq(m, _ => 6)
    ensures Playable(b, srcs, dice) && After(b, srcs, dice) == Board(b.them, Aces(n - m))
    decreases m
  {
    if m > 0 {
      assert SubMove(b, 0, 6).us == Aces(n - 1);
      SixesBearOff(SubMove(b, 0, 6), n - 1, m - 1, srcs[1..], dice[1..]);
    }
  }

  /** A roll of five and four moves one pair more. */
  lemma FiveAndFour(b: Board, n: nat, k: nat)
    requires k < 7 && b == Board(Aces(n), Pairs(k))
    ensures Playable(b, [5, 5], [5, 4]) && After(b, [5, 5], [5, 4]) == Board(Aces(n), Pairs(k + 1))
  {
    var c := SubMove(b, 5, 5);
    assert c.us == Pairs(k)[5 := 14 - 2 * k][0 := k + 1];
    assert Playable(c, [5], [4]);
    assert SubMove(c, 5, 4).us == Pairs(k + 1);
    assert [5, 5][1..] == [5] && [5, 4][1..] == [4];
    assert After(c, [5], [4]) == SubMove(c, 5, 4);
  }

  lemma SixesTurn(n: nat, k: nat, m: nat)
    requires m <= 4 && m <= n && k <= 7
    ensures TurnTo(Board(Pairs(k), Aces(n)), Board(Pairs(k), Aces(n - m)))
  {
    var srcs, dice := seq(m, _ => 0), seq(m, _ => 6);
    SixesBearOff(Board(Pairs(k), Aces(n)), n, m, srcs, dice);
  }

  /** Ply by ply: the player bears off nine chequers in three turns of sixes, while the
      opponent plays five and four twice. */
  lemma NineInThree(start: Board, end: Board)
    requires start == Board(Pairs(0), Aces(9)) && end == Board(Pairs(2), Aces(0))
    ensures PlaysOut(start, 5, Swapped(end))
  {
    SixesTurn(9, 0, 4);
    FiveAndFour(Board(Aces(5), Pairs(0)), 5, 0);
    SixesTurn(5, 1, 4);
    FiveAndFour(Board(Aces(1), Pairs(1)), 1, 1);
    SixesTurn(1, 2, 1);
    hide Aces, Pairs, Playable, After;
    assert TurnTo(Board(Aces(5), Pairs(0)), Board(Aces(5), Pairs(1)));
    assert TurnTo(Board(Aces(1), Pairs(1)), Board(Aces(1), Pairs(2)));
    assert PlaysOut(Swapped(end), 0, Swapped(end));
    assert PlaysOut(Board(Pairs(2), Aces(1)), 1, Swapped(end));
    assert PlaysOut(Board(Aces(1), Pairs(1)), 2, Swapped(end));
    assert PlaysOut(Board(Pairs(1), Aces(5)), 3, Swapped(end));
    assert PlaysOut(Board(Aces(5), Pairs(0)), 4, Swapped(end));
  }

  lemma HeapsCount(n: nat, k: nat)
    requires k <= 7
    ensures Crossings(Aces(n), 1) == n && Rear(Aces(n)) == 0 && Rear(Pairs(k)) <= 5
    ensures Crossings(Pairs(k), 0) == 0 && Total(Pairs(k)) == 15
  {
    AllCrossings(Aces(n));
    HomeCrossings(Pairs(k));
    BackIsLast(Aces(n), 25);
    BackIsLast(Pairs(k), 25);
    ChequersOf(Aces(n), n, 0);
    ChequersOf(Pairs(k), 2 * k, 15 - 2 * k);
  }

  lemma ChequersOf(s: Side, low: nat, six: nat)
    requires s[0] + s[1] == low && s[2] == s[3] == s[4] == 0 && s[5] == six && forall i :: 6 <= i < 25 ==> s[i] == 0
    ensures Chequers(s, 0, 6) == low + six && Chequers(s, 6, 12) == Chequers(s, 12, 18) == Chequers(s, 18, 24) == 0
  {
    assert Chequers(s, 0, 1) == s[0] && Chequers(s, 0, 2) == low;
    assert Chequers(s, 0, 3) == Chequers(s, 0, 4) == Chequers(s, 0, 5) == low;
    NoneThere(s, 6, 12);
    NoneThere(s, 12, 18);
    NoneThere(s, 18, 24);
  }

  lemma {:induction false} NoneThere(s: Side, lo: nat, hi: nat)
    requires lo <= hi <= 25 && forall i :: lo <= i < hi ==> s[i] == 0
    ensures Chequers(s, lo, hi) == 0
    decreases hi
  {
    if lo < hi {
      NoneThere(s, lo, hi - 1);
    }
  }

  /** Nine chequers on the ace point against fifteen on the six point: the check takes a
      gammon to be impossible, yet it is won by three rolls of sixes against two rolls of
      five and four. */
  lemma ImpossibleGammonIsWon(maxTurns: TurnBound)
    ensures var b := Board(Pairs(0), Aces(9));
            var f := FactsOf(b, false, maxTurns);
            && Passed(b) && f.noGammon && !f.contact && !f.theyAreOff
            && exists c :: PlaysOut(b, 5, c) && BorneOffAll(Mine(c, 5)) && GamesLost(Theirs(c, 5), Total(b.them)) == 2
  {
    var b, c := Board(Pairs(0), Aces(9)), Board(Aces(0), Pairs(2));
    HeapsCount(9, 0);
    HeapsCount(0, 2);
    CountsAreCrossings(b.them);
    FactsCountCrossings(b, false, maxTurns);
    NineInThree(b, Swapped(c));
    assert PlaysOut(b, 5, c);
    HeapsLost(b, c);
  }

  lemma HeapsLost(b: Board, c: Board)
    requires b == Board(Pairs(0), Aces(9)) && c == Board(Aces(0), Pairs(2)) && Total(c.us) == Total(b.them)
    ensures Unshared(b) && BorneOffAll(Mine(c, 5)) && GamesLost(Theirs(c, 5), Total(b.them)) == 2
  {
    hide Total;
  }
}
