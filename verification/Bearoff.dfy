/** The heuristic bear-off player (gnubg/bearoff.c). */
module Bearoff {
  import opened Boards
  import opened Plays

  type Home = h: seq<nat> | |h| == 6 witness [0, 0, 0, 0, 0, 0]

  /** A home board as part of a full one: nothing of the mover's elsewhere. */
  ghost function OnBoard(home: Home, them: Side): Board {
    Board(them, home + seq(19, _ => 0))
  }

  /** The opponent has nothing left on the mover's home points. */
  ghost predicate Race(them: Side) {
    forall q :: 18 <= q < 24 ==> them[q] == 0
  }

  ghost predicate TopPoint(home: Home, nMax: nat) {
    nMax <= 5 && home[nMax] > 0 && forall p :: nMax < p < 6 ==> home[p] == 0
  }

  /** The board after one chequer moves. */
  function Played(home: Home, n: nat, die: nat): Home
    requires n < 6 && home[n] > 0 && 1 <= die
  {
    var lifted := home[n := home[n] - 1];
    if n >= die then lifted[n - die := lifted[n - die] + 1] else lifted
  }

  /** A source the bear-off rules allow for a die. */
  ghost predicate Allowed(home: Home, n: nat, die: nat) {
    n < 6 && home[n] > 0 && (n + 1 >= die || forall p :: n < p < 6 ==> home[p] == 0)
  }

  ghost predicate PlayedTo(home: Home, n: nat, die: nat, after: Home) {
    1 <= die && Allowed(home, n, die) && after == Played(home, n, die)
  }

  lemma AllowedIsLegal(home: Home, them: Side, n: nat, die: nat)
    requires Race(them) && 1 <= die <= 6 && Allowed(home, n, die)
    ensures Step(OnBoard(home, them), n, die)
    ensures SubMove(OnBoard(home, them), n, die) == OnBoard(Played(home, n, die), them)
  {
    var b := OnBoard(home, them);
    assert forall p :: 0 <= p < 6 ==> b.us[p] == home[p];
    assert forall p :: 6 <= p < 25 ==> b.us[p] == 0;
    if die <= n {
      assert b.them[23 - (n - die)] == 0;
    }
    assert SubMove(b, n, die).us == OnBoard(Played(home, n, die), them).us;
  }

  // ------------------------------------------------------ choosing a chequer

  /** Dice i to j together bear a chequer off point n exactly. */
  ghost predicate Together(dice: seq<nat>, i: nat, j: nat, n: int) {
    i < j < |dice| && n == Total(dice[i..j + 1]) - 1
  }

  /** The chequer to bear off with dice i to j, if they are the fewest that do. */
  ghost predicate Later(home: Home, dice: seq<nat>, i: nat, j: nat, n: int) {
    && Together(dice, i, j, n) && 0 <= n < 6 && home[n] > 0
    && forall k, m: int :: i < k < j && Together(dice, i, k, m) && 0 <= m < 6 ==> home[m] == 0
  }

  ghost predicate NoneLater(home: Home, dice: seq<nat>, i: nat) {
    forall k, m: int :: Together(dice, i, k, m) && 0 <= m < 6 ==> home[m] == 0
  }

  /** A stacked point whose destination is empty. */
  ghost predicate Gap(home: Home, die: nat, nMax: nat, p: int) {
    1 <= die <= p <= nMax < 6 && home[p] >= 2 && home[p - die] == 0
  }

  /** A gap with most chequers, the lowest of those. */
  ghost predicate BestGap(home: Home, die: nat, nMax: nat, n: int) {
    && Gap(home, die, nMax, n)
    && forall p :: Gap(home, die, nMax, p) ==> home[p] < home[n] || (home[p] == home[n] && p >= n)
  }

  /** n is to be preferred to p: more chequers, fewer on the destination, lower. */
  ghost predicate NoBetter(home: Home, die: nat, p: nat, n: nat)
    requires 1 <= die <= p < 6 && die <= n < 6
  {
    || home[p] < home[n]
    || (home[p] == home[n] && home[p - die] > home[n - die])
    || (home[p] == home[n] && home[p - die] == home[n - die] && p >= n)
  }

  /** The choice of point for die i, in order of preference: bear off exactly, bear
      off the highest, prepare to bear off with the next dice, fill a gap, unstack. */
  ghost predicate Chosen(home: Home, dice: seq<nat>, i: nat, nMax: nat, n: int)
    requires i < |dice| && 1 <= dice[i] <= 6
  {
    var die := dice[i];
    if home[die - 1] > 0 then n == die - 1
    else if die - 1 > nMax then n == nMax
    else if !NoneLater(home, dice, i) then exists j :: Later(home, dice, i, j, n)
    else if exists p :: Gap(home, die, nMax, p) then BestGap(home, die, nMax, n)
    else die <= n <= nMax < 6 && forall p :: die <= p <= nMax ==> NoBetter(home, die, p, n)
  }

  lemma LaterIsUnique(home: Home, dice: seq<nat>, i: nat, j: nat, n: int, k: nat, m: int)
    requires Later(home, dice, i, j, n) && Later(home, dice, i, k, m)
    ensures n == m
  {
    hide Together;
    TogetherIs(dice, i, j, n);
    TogetherIs(dice, i, k, m);
  }

  lemma TogetherIs(dice: seq<nat>, i: nat, j: nat, n: int)
    requires Together(dice, i, j, n)
    ensures i < j < |dice| && n == Total(dice[i..j + 1]) - 1
  {
  }

  /** There is never more than one choice. */
  lemma ChosenIsUnique(home: Home, dice: seq<nat>, i: nat, nMax: nat, n: int, m: int)
    requires i < |dice| && 1 <= dice[i] <= 6 && TopPoint(home, nMax)
    requires Chosen(home, dice, i, nMax, n) && Chosen(home, dice, i, nMax, m)
    ensures n == m
  {
    hide Later, NoneLater, Gap, NoBetter;
    var die := dice[i];
    if home[die - 1] > 0 || die - 1 > nMax {
    } else if !NoneLater(home, dice, i) {
      var j :| Later(home, dice, i, j, n);
      var k :| Later(home, dice, i, k, m);
      LaterIsUnique(home, dice, i, j, n, k, m);
    } else if exists p :: Gap(home, die, nMax, p) {
      assert Gap(home, die, nMax, n) && Gap(home, die, nMax, m);
    } else {
      BothBetter(home, die, n, m);
    }
  }

  lemma BothBetter(home: Home, die: nat, n: nat, m: nat)
    requires 1 <= die <= n < 6 && die <= m < 6 && NoBetter(home, die, m, n) && NoBetter(home, die, n, m)
    ensures n == m
  {
  }

  /** What the player makes of `home` with the dice from i on. */
  ghost predicate PlaysTo(home: Home, dice: seq<nat>, i: nat, after: Home)
    requires i <= |dice|
    decreases |dice| - i
  {
    if i == |dice| || Empty(home) then after == home
    else
      1 <= dice[i] <= 6 && exists nMax, n: nat ::
        TopPoint(home, nMax) && Allowed(home, n, dice[i]) && Chosen(home, dice, i, nMax, n)
        && PlaysTo(Played(home, n, dice[i]), dice, i + 1, after)
  }

  lemma TopIsUnique(home: Home, x: nat, y: nat)
    requires TopPoint(home, x) && TopPoint(home, y)
    ensures x == y
  {
  }

  /** The player has one way to play. */
  lemma {:induction false} PlaysToIsUnique(home: Home, dice: seq<nat>, i: nat, a: Home, b: Home)
    requires i <= |dice| && PlaysTo(home, dice, i, a) && PlaysTo(home, dice, i, b)
    ensures a == b
    decreases |dice| - i
  {
    hide TopPoint, Chosen, Empty, Played;
    if i < |dice| && !Empty(home) {
      var x, n: nat :| TopPoint(home, x) && Allowed(home, n, dice[i]) && Chosen(home, dice, i, x, n)
        && PlaysTo(Played(home, n, dice[i]), dice, i + 1, a);
      var y, m: nat :| TopPoint(home, y) && Allowed(home, m, dice[i]) && Chosen(home, dice, i, y, m)
        && PlaysTo(Played(home, m, dice[i]), dice, i + 1, b);
      TopIsUnique(home, x, y);
      ChosenIsUnique(home, dice, i, x, n, m);
      PlaysToIsUnique(Played(home, n, dice[i]), dice, i + 1, a, b);
    }
  }

  /** However the rest is played, it is how `start` is played. */
  ghost predicate OnCourse(start: Home, dice: seq<nat>, home: Home, i: nat) {
    i <= |dice| && forall after :: PlaysTo(home, dice, i, after) ==> PlaysTo(start, dice, 0, after)
  }

  lemma StaysOnCourse(start: Home, dice: seq<nat>, home: Home, i: nat, nMax: nat, n: nat, after: Home)
    requires OnCourse(start, dice, home, i) && i < |dice| && 1 <= dice[i] <= 6 && TopPoint(home, nMax)
    requires Chosen(home, dice, i, nMax, n) && PlayedTo(home, n, dice[i], after)
    ensures OnCourse(start, dice, after, i + 1)
  {
    assert home[nMax] > 0;
    hide TopPoint, Chosen;
    forall end | PlaysTo(after, dice, i + 1, end) ensures PlaysTo(start, dice, 0, end) {
      assert PlaysTo(home, dice, i, end);
    }
  }

  lemma CourseEnds(start: Home, dice: seq<nat>, home: Home, i: nat)
    requires OnCourse(start, dice, home, i) && (i == |dice| || Empty(home))
    ensures PlaysTo(start, dice, 0, home)
  {
    assert PlaysTo(home, dice, i, home);
  }

  lemma NextTotal(dice: seq<nat>, i: nat, j: nat)
    requires i < j < |dice|
    ensures Total(dice[i..j + 1]) == Total(dice[i..j]) + dice[j]
    ensures Total(dice[i..i + 1]) == dice[i]
  {
    assert dice[i..j + 1][..j - i] == dice[i..j] && dice[i..i + 1][..0] == [];
    assert Total(dice[i..i + 1]) == Total(dice[i..i + 1][..0]) + dice[i];
  }

  method BearOffLater(anBoard: array<nat>, anDice: seq<nat>, i: nat) returns (n: int)
    requires anBoard.Length == 6 && i < |anDice| && forall k :: 0 <= k < |anDice| ==> 1 <= anDice[k] <= 6
    ensures n == -1 ==> NoneLater(anBoard[..], anDice, i)
    ensures n != -1 ==> anDice[i] <= n && exists j :: Later(anBoard[..], anDice, i, j, n)
  {
    var nTotal, j := anDice[i] - 1, i + 1;
    assert anDice[i..i + 1][..0] == [];
    while j < |anDice|
      invariant i < j <= |anDice| && nTotal == Total(anDice[i..j]) - 1 && anDice[i] - 1 <= nTotal
      invariant forall k, m: int :: i < k < j && Together(anDice, i, k, m) && 0 <= m < 6 ==> anBoard[m] == 0
    {
      NextTotal(anDice, i, j);
      nTotal := nTotal + anDice[j];
      if nTotal < 6 && anBoard[nTotal] > 0 {
        assert Later(anBoard[..], anDice, i, j, nTotal);
        return nTotal;
      }
      j := j + 1;
    }
    n := -1;
  }

  method FillGap(anBoard: array<nat>, die: nat, nMax: nat) returns (n: int)
    requires anBoard.Length == 6 && 1 <= die && nMax <= 5
    ensures n == -1 ==> forall p :: !Gap(anBoard[..], die, nMax, p)
    ensures n != -1 ==> BestGap(anBoard[..], die, nMax, n)
  {
    n := -1;
    var iSearch := die;
    ghost var home := anBoard[..];
    while iSearch <= nMax
      invariant die <= iSearch
      invariant n == -1 || (n < iSearch && Gap(home, die, nMax, n))
      invariant forall p :: p < iSearch && Gap(home, die, nMax, p) ==>
                  n >= 0 && (home[p] < home[n] || (home[p] == home[n] && p >= n))
    {
      if anBoard[iSearch] >= 2 && anBoard[iSearch - die] == 0 && (n == -1 || anBoard[iSearch] > anBoard[n]) {
        n := iSearch;
      }
      iSearch := iSearch + 1;
    }
  }

  method Unstack(anBoard: array<nat>, die: nat, nMax: nat) returns (n: int)
    requires anBoard.Length == 6 && 1 <= die <= nMax <= 5
    ensures die <= n <= nMax && forall p :: die <= p <= nMax ==> NoBetter(anBoard[..], die, p, n)
  {
    n := -1;
    var iSearch := die;
    ghost var home := anBoard[..];
    while iSearch <= nMax
      invariant die <= iSearch <= nMax + 1
      invariant if iSearch == die then n == -1 else die <= n < iSearch
      invariant forall p :: die <= p < iSearch ==> NoBetter(home, die, p, n)
    {
      ghost var best := n;
      if n == -1 || anBoard[iSearch] > anBoard[n]
         || (anBoard[iSearch] == anBoard[n] && anBoard[iSearch - die] < anBoard[n - die]) {
        n := iSearch;
      }
      forall p | die <= p <= iSearch ensures NoBetter(home, die, p, n) {
        assert p < iSearch ==> NoBetter(home, die, p, best);
      }
      iSearch := iSearch + 1;
    }
  }

  /** The point to play die i from: always occupied, and a legal choice. */
  method ChoosePoint(anBoard: array<nat>, anDice: seq<nat>, i: nat, nMax: nat) returns (n: int)
    requires anBoard.Length == 6 && i < |anDice| && forall k :: 0 <= k < |anDice| ==> 1 <= anDice[k] <= 6
    requires TopPoint(anBoard[..], nMax)
    ensures n >= 0 && Allowed(anBoard[..], n, anDice[i])
    ensures Chosen(anBoard[..], anDice, i, nMax, n)
  {
    hide Together, Gap, NoBetter;
    var die := anDice[i];
    if anBoard[die - 1] > 0 {
      return die - 1;
    }
    if die - 1 > nMax {
      return nMax;
    }
    n := BearOffLater(anBoard, anDice, i);
    if n != -1 {
      SomeLater(anBoard[..], anDice, i, n);
      return n;
    }
    n := FillGap(anBoard, die, nMax);
    if n != -1 {
      GapIsAllowed(anBoard[..], die, nMax, n);
      return n;
    }
    n := Unstack(anBoard, die, nMax);
    TopIsUnstacked(anBoard[..], die, nMax, n);
  }

  lemma SomeLater(home: Home, dice: seq<nat>, i: nat, n: int)
    requires i < |dice| && exists j :: Later(home, dice, i, j, n)
    ensures 0 <= n < 6 && home[n] > 0 && !NoneLater(home, dice, i)
  {
    var j :| Later(home, dice, i, j, n);
    assert Together(dice, i, j, n);
  }

  lemma GapIsAllowed(home: Home, die: nat, nMax: nat, n: int)
    requires Gap(home, die, nMax, n)
    ensures n >= 0 && Allowed(home, n, die)
  {
  }

  lemma TopIsUnstacked(home: Home, die: nat, nMax: nat, n: nat)
    requires 1 <= die <= nMax < 6 && die <= n < 6 && NoBetter(home, die, nMax, n)
    ensures home[nMax] <= home[n]
  {
  }

  method HighestPoint(anBoard: array<nat>) returns (nMax: nat)
    requires anBoard.Length == 6
    ensures nMax <= 5
    ensures if anBoard[nMax] > 0 then TopPoint(anBoard[..], nMax) else forall p :: 0 <= p < 6 ==> anBoard[p] == 0
  {
    nMax := 5;
    while nMax > 0 && anBoard[nMax] == 0
      invariant nMax <= 5 && forall p :: nMax < p < 6 ==> anBoard[p] == 0
    {
      nMax := nMax - 1;
    }
  }

  // ------------------------------------------------------- the whole roll

  ghost predicate Empty(home: Home) {
    forall p :: 0 <= p < 6 ==> home[p] == 0
  }

  /** Dice 0 .. i of the roll have been played from `srcs`. */
  ghost predicate PlayedSoFar(b: Board, dice: seq<nat>, srcs: seq<nat>, home: Home, them: Side) {
    && |srcs| <= |dice| && Playable(b, srcs, dice)
    && After(b, srcs, dice) == OnBoard(home, them)
  }

  lemma PlayOneMore(b: Board, dice: seq<nat>, srcs: seq<nat>, home: Home, them: Side, n: nat, after: Home)
    requires PlayedSoFar(b, dice, srcs, home, them) && |srcs| < |dice| && Race(them)
    requires dice[|srcs|] <= 6 && PlayedTo(home, n, dice[|srcs|], after)
    ensures PlayedSoFar(b, dice, srcs + [n], after, them)
  {
    hide Step, SubMove, Allowed, OnBoard, Playable, After, Played;
    PlayableSnoc(b, srcs, dice, n);
    AllowedIsLegal(home, them, n, dice[|srcs|]);
  }

  /** How many moves of n pips take a chequer from point p off the board. */
  function MovesFrom(p: nat, n: nat): nat
    requires n > 0
  {
    if p < n then 1 else MovesFrom(p - n, n) + 1
  }

  function MovesLeft(s: seq<nat>, n: nat): nat
    requires n > 0
  {
    if s == [] then 0 else MovesLeft(s[..|s| - 1], n) + s[|s| - 1] * MovesFrom(|s| - 1, n)
  }

  lemma {:induction false} OneChequerMore(s: seq<nat>, i: nat, n: nat)
    requires i < |s| && n > 0
    ensures MovesLeft(s[i := s[i] + 1], n) == MovesLeft(s, n) + MovesFrom(i, n)
  {
    var k := |s| - 1;
    if i < k {
      OneChequerMore(s[..k], i, n);
      assert s[i := s[i] + 1][..k] == s[..k][i := s[i] + 1];
    } else {
      assert s[i := s[i] + 1][..k] == s[..k];
      Distribute(s[i], MovesFrom(k, n));
    }
  }

  lemma Distribute(x: nat, y: nat)
    ensures (x + 1) * y == x * y + y
  {
  }

  /** A sub-move of n pips always brings the mover exactly one move closer. */
  lemma StepIsOneMove(b: Board, src: nat, n: nat)
    requires Unshared(b) && Step(b, src, n)
    ensures MovesLeft(b.us, n) == MovesLeft(SubMove(b, src, n).us, n) + 1
  {
    var lifted: seq<nat> := b.us[src := b.us[src] - 1];
    OneChequerMore(lifted, src, n);
    assert lifted[src := lifted[src] + 1] == b.us;
    if n <= src {
      assert Hits(b, src, n) ==> lifted[src - n] == 0;
      assert SubMove(b, src, n).us == lifted[src - n := lifted[src - n] + 1];
      OneChequerMore(lifted, src - n, n);
    }
  }

  lemma {:induction false} RunShortens(b: Board, srcs: seq<nat>, n: nat, k: nat)
    requires Unshared(b) && n > 0 && Playable(b, srcs, Same(n, k))
    ensures MovesLeft(b.us, n) == MovesLeft(After(b, srcs, Same(n, k)).us, n) + |srcs|
    decreases srcs
  {
    if srcs != [] {
      assert Same(n, k)[1..] == Same(n, k - 1);
      StepIsOneMove(b, srcs[0], n);
      StepConserves(b, srcs[0], n);
      RunShortens(SubMove(b, srcs[0], n), srcs[1..], n, k - 1);
    }
  }

  lemma {:induction false} NoneLeft(s: seq<nat>, n: nat)
    requires n > 0 && forall i :: 0 <= i < |s| ==> s[i] == 0
    ensures MovesLeft(s, n) == 0
  {
    if s != [] {
      NoneLeft(s[..|s| - 1], n);
    }
  }

  lemma HomeIsUnshared(home: Home, them: Side)
    requires Race(them)
    ensures Unshared(OnBoard(home, them))
  {
  }

  /** Every die was played: nothing uses more. */
  lemma AllDiceComplete(b: Board, n0: nat, n1: nat, dice: seq<nat>, srcs: seq<nat>)
    requires 1 <= n0 && 1 <= n1 && dice in Orders(n0, n1)
    requires |srcs| == |dice| && Playable(b, srcs, dice)
    ensures IsComplete(b, n0, n1, Play(dice, srcs))
  {
    var p := Play(dice, srcs);
    forall q | IsPlay(b, n0, n1, q) && |q.srcs| <= |q.dice| ensures !Outdoes(q, p) {
      hide Playable;
      if |q.srcs| == |q.dice| {
        assert p.dice[..|p.srcs|] == p.dice && q.dice[..|q.srcs|] == q.dice;
        if n0 != n1 {
          PipsOfTwo(p.dice, 2);
          PipsOfTwo(q.dice, 2);
        }
      }
    }
  }

  /** A double that empties the board: every other play of it stops as soon. */
  lemma EmptiedByDouble(b: Board, n: nat, srcs: seq<nat>)
    requires Unshared(b) && 1 <= n && srcs != [] && Playable(b, srcs, Same(n, 4)) && |srcs| <= 4
    requires forall p :: 0 <= p < 25 ==> After(b, srcs, Same(n, 4)).us[p] == 0
    ensures IsComplete(b, n, n, Play(Same(n, 4), srcs))
  {
    RunShortens(b, srcs, n, 4);
    NoneLeft(After(b, srcs, Same(n, 4)).us, n);
    var p := Play(Same(n, 4), srcs);
    forall q | IsPlay(b, n, n, q) && |q.srcs| <= |q.dice| ensures !Outdoes(q, p) {
      RunShortens(b, q.srcs, n, 4);
    }
  }

  /** One chequer on point x, borne off with the larger die. */
  ghost predicate Single(home: Home, x: nat) {
    x < 6 && home[x] == 1 && forall p :: 0 <= p < 6 && p != x ==> home[p] == 0
  }

  lemma TwoSteps(b: Board, s: nat, t: nat, m: nat, n: nat)
    requires Step(b, s, m) && Step(SubMove(b, s, m), t, n)
    ensures Playable(b, [s, t], [m, n]) && After(b, [s, t], [m, n]) == SubMove(SubMove(b, s, m), t, n)
  {
    var c := SubMove(b, s, m);
    assert [s, t][1..] == [t] && [m, n][1..] == [n];
    assert [t][1..] == [] && Playable(c, [t], [n]);
    assert After(c, [t], [n]) == SubMove(c, t, n);
  }

  /** If the smaller die keeps the last chequer on the board, the play that uses
      both dice ends in the same empty position. */
  lemma BothDiceInstead(home: Home, them: Side, n0: nat, n1: nat, x: nat, c: Board)
    requires Race(them) && 1 <= n1 < n0 <= 6 && Single(home, x) && n1 <= x < n0
    requires c == OnBoard(Played(home, x, n0), them)
    ensures LegalEnd(OnBoard(home, them), n0, n1, c)
  {
    var b, mid := OnBoard(home, them), Played(home, x, n1);
    AllowedIsLegal(home, them, x, n1);
    AllowedIsLegal(mid, them, x - n1, n0);
    assert Played(mid, x - n1, n0) == Played(home, x, n0);
    var dice, srcs := [n1, n0], [x, x - n1];
    TwoSteps(b, x, x - n1, n1, n0);
    AllDiceComplete(b, n0, n1, dice, srcs);
    assert After(b, Play(dice, srcs).srcs, Play(dice, srcs).dice) == c;
  }

  /** Otherwise either die bears the last chequer off, so no play is longer. */
  lemma EitherDieEmpties(home: Home, them: Side, n0: nat, n1: nat, x: nat)
    requires Race(them) && 1 <= n1 < n0 <= 6 && Single(home, x) && x < n1
    requires Playable(OnBoard(home, them), [x], [n0, n1])
    ensures IsComplete(OnBoard(home, them), n0, n1, Play([n0, n1], [x]))
  {
    var b, p := OnBoard(home, them), Play([n0, n1], [x]);
    assert forall y :: 0 <= y < 25 && y != x ==> b.us[y] == 0;
    forall q | IsPlay(b, n0, n1, q) && |q.srcs| <= |q.dice| ensures !Outdoes(q, p) {
      var c := SubMove(b, q.srcs[0], q.dice[0]);
      assert q.srcs[0] == x;
      assert forall y :: 0 <= y < 25 ==> c.us[y] == 0;
      assert Playable(c, q.srcs[1..], q.dice[1..]);
      assert q.srcs[1..] == [];
      PipsOfTwo(p.dice, 1);
      PipsOfTwo(q.dice, 1);
    }
  }

  lemma MovedStays(home: Home, x: nat, die: nat)
    requires x < 6 && home[x] > 0 && 1 <= die
    ensures die <= x ==> !Empty(Played(home, x, die))
  {
    if die <= x {
      assert Played(home, x, die)[x - die] > 0;
    }
  }

  lemma SingleEmptied(home: Home, them: Side, n0: nat, n1: nat, x: nat, c: Board)
    requires Race(them) && 1 <= n1 < n0 <= 6 && Allowed(home, x, n0) && Empty(Played(home, x, n0))
    requires PlayedSoFar(OnBoard(home, them), [n0, n1], [x], Played(home, x, n0), them)
    requires c == OnBoard(Played(home, x, n0), them)
    ensures LegalEnd(OnBoard(home, them), n0, n1, c)
  {
    MovedStays(home, x, n0);
    assert Single(home, x) by {
      forall p | 0 <= p < 6 && p != x ensures home[p] == 0 {
        assert Played(home, x, n0)[p] == home[p];
      }
      assert Played(home, x, n0)[x] == home[x] - 1;
    }
    if n1 <= x {
      BothDiceInstead(home, them, n0, n1, x, c);
    } else {
      EitherDieEmpties(home, them, n0, n1, x);
      assert After(OnBoard(home, them), Play([n0, n1], [x]).srcs, Play([n0, n1], [x]).dice) == c;
    }
  }

  ghost function DiceOf(n0: nat, n1: nat): seq<nat> {
    if n0 == n1 then Same(n0, 4) else [n0, n1]
  }

  /** Wherever the player stops, the rules allow the turn to end there. */
  lemma StopsLegally(start: Home, them: Side, n0: nat, n1: nat, dice: seq<nat>, srcs: seq<nat>, home: Home)
    requires Race(them) && 1 <= n1 <= n0 <= 6 && dice == DiceOf(n0, n1)
    requires PlayedSoFar(OnBoard(start, them), dice, srcs, home, them)
    requires srcs != [] && (|srcs| == |dice| || Empty(home))
    requires |srcs| == 1 ==> |dice| > 0 && PlayedTo(start, srcs[0], dice[0], home)
    ensures LegalEnd(OnBoard(start, them), n0, n1, OnBoard(home, them))
  {
    var b, p := OnBoard(start, them), Play(dice, srcs);
    HomeIsUnshared(start, them);
    if |srcs| == |dice| {
      AllDiceComplete(b, n0, n1, dice, srcs);
      assert After(b, p.srcs, p.dice) == OnBoard(home, them);
    } else if n0 == n1 {
      EmptiedByDouble(b, n0, srcs);
      assert After(b, p.srcs, p.dice) == OnBoard(home, them);
    } else {
      assert srcs == [srcs[0]];
      SingleEmptied(start, them, n0, n1, srcs[0], OnBoard(home, them));
    }
  }

  method RollDice(n0: nat, n1: nat) returns (anDice: seq<nat>)
    requires 1 <= n1 <= n0 <= 6
    ensures anDice == DiceOf(n0, n1) && anDice in Orders(n0, n1)
    ensures |anDice| == (if n0 == n1 then 4 else 2) && forall k :: 0 <= k < |anDice| ==> 1 <= anDice[k] <= 6
  {
    if n0 == n1 {
      anDice := Same(n0, 4);
    } else {
      anDice := [n0, n1];
    }
  }

  /** HeuristicBearoff, for a roll with the larger number first. It plays by its order of
      preference, and its board is one the move generator lists; an empty board is left
      alone. */
  method HeuristicBearoff(anBoard: array<nat>, n0: nat, n1: nat, ghost them: Side)
    requires anBoard.Length == 6 && 1 <= n1 <= n0 <= 6 && Race(them)
    modifies anBoard
    ensures PlaysTo(old(anBoard[..]), DiceOf(n0, n1), 0, anBoard[..])
    ensures old(Empty(anBoard[..])) ==> anBoard[..] == old(anBoard[..])
    ensures old(!Empty(anBoard[..])) ==>
              LegalEnd(OnBoard(old(anBoard[..]), them), n0, n1, OnBoard(anBoard[..], them))
  {
    hide *;
    ghost var start := anBoard[..];
    var anDice := RollDice(n0, n1);
    var i := 0;
    ghost var srcs: seq<nat> := [];
    NothingPlayed(start, anDice, them);
    while i < |anDice|
      invariant 0 <= i == |srcs| <= |anDice|
      invariant PlayedSoFar(OnBoard(start, them), anDice, srcs, anBoard[..], them)
      invariant OnCourse(start, anDice, anBoard[..], i)
      invariant i == 0 ==> anBoard[..] == start
      invariant i >= 1 ==> !Empty(start)
      invariant i == 1 ==> PlayedTo(start, srcs[0], anDice[0], anBoard[..])
    {
      var nMax := HighestPoint(anBoard);
      if anBoard[nMax] == 0 {
        AllEmpty(anBoard[..]);
        break;
      }
      var n := ChoosePoint(anBoard, anDice, i, nMax);
      Occupied(anBoard[..], n, anDice[i]);
      ghost var before := anBoard[..];
      anBoard[n] := anBoard[n] - 1;
      if n >= anDice[i] {
        anBoard[n - anDice[i]] := anBoard[n - anDice[i]] + 1;
      }
      PlayedIs(before, n, anDice[i], anBoard[..]);
      PlayOneMore(OnBoard(start, them), anDice, srcs, before, them, n, anBoard[..]);
      StaysOnCourse(start, anDice, before, i, nMax, n, anBoard[..]);
      ghost var point: nat := n;
      srcs := srcs + [point];
      i := i + 1;
    }
    CourseEnds(start, anDice, anBoard[..], i);
    if srcs != [] {
      StopsLegally(start, them, n0, n1, anDice, srcs, anBoard[..]);
    }
  }

  lemma NothingPlayed(start: Home, dice: seq<nat>, them: Side)
    ensures PlayedSoFar(OnBoard(start, them), dice, [], start, them) && OnCourse(start, dice, start, 0)
  {
  }

  lemma AllEmpty(home: Home)
    requires forall p :: 0 <= p < 6 ==> home[p] == 0
    ensures Empty(home)
  {
  }

  lemma Occupied(home: Home, n: nat, die: nat)
    requires Allowed(home, n, die)
    ensures n < 6 && home[n] > 0 && !Empty(home)
  {
  }

  lemma PlayedIs(home: Home, n: nat, die: nat, after: seq<nat>)
    requires Allowed(home, n, die) && 1 <= die
    requires after == (if n >= die then home[n := home[n] - 1][n - die := home[n - die] + 1] else home[n := home[n] - 1])
    ensures PlayedTo(home, n, die, after)
  {
  }
}
