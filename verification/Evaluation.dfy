/** Cubeless evaluation (gnubg/eval.c): the final vector of a finished game, the
    sanity check of a static evaluation, and averaging over the rolls to any depth. */
module Evaluation {
  import opened Boards
  import opened Cubeful
  import opened MoneyEquity

  const CLASS_GOOD := 7

  ghost predicate InUnit(o: Outputs) {
    forall i :: 0 <= i < 5 ==> 0.0 <= o[i] <= 1.0
  }

  // ----------------------------------------------------------- finished games

  ghost predicate BorneOffAll(s: Side) {
    forall i :: 0 <= i < 25 ==> s[i] == 0
  }

  ghost predicate Stragglers(s: Side) {
    exists i :: 18 <= i < 25 && s[i] > 0
  }

  /** The result in games, 1 to 3, for a side that lost with `s` left on the board of the
      n chequers it started with. */
  ghost function GamesLost(s: Side, n: nat): nat {
    if Total(s) != n then 1 else if Stragglers(s) then 3 else 2
  }

  /** The vector of a game won or lost by so many games. */
  function Final(win: bool, games: nat): Outputs {
    var g, bg := if games >= 2 then 1.0 else 0.0, if games >= 3 then 1.0 else 0.0;
    if win then [1.0, g, bg, 0.0, 0.0] else [0.0, 0.0, 0.0, g, bg]
  }

  method IsEmpty(s: Side) returns (e: bool)
    ensures e <==> BorneOffAll(s)
  {
    var i := 0;
    while i < 25
      invariant 0 <= i <= 25 && forall k :: 0 <= k < i ==> s[k] == 0
    {
      if s[i] != 0 {
        return false;
      }
      i := i + 1;
    }
    return true;
  }

  method CountChequers(s: Side) returns (c: nat)
    ensures c == Total(s)
  {
    c := 0;
    for i := 0 to 25
      invariant c == Total(s[..i])
    {
      assert s[..i + 1][..i] == s[..i];
      c := c + s[i];
    }
    assert s[..25] == s;
  }

  method HasStragglers(s: Side) returns (b: bool)
    ensures b <==> Stragglers(s)
  {
    var i := 18;
    while i < 25
      invariant 18 <= i <= 25 && forall k :: 18 <= k < i ==> s[k] == 0
    {
      if s[i] != 0 {
        return true;
      }
      i := i + 1;
    }
    return false;
  }

  ghost predicate IsOver(b: Board) {
    BorneOffAll(b.them) || BorneOffAll(b.us)
  }

  /** The vector of a finished game: lost if the opponent has borne off, else won. */
  ghost function OverOf(b: Board, n: nat): Outputs {
    if BorneOffAll(b.them) then Final(false, GamesLost(b.us, n)) else Final(true, GamesLost(b.them, n))
  }

  /** EvalOver, for a game of n chequers a side; the vector of a game that is not over is
      left as it is. */
  method EvalOver(b: Board, arOutput: array<real>, n: nat)
    requires arOutput.Length == 5
    modifies arOutput
    ensures arOutput[..] == if IsOver(b) then OverOf(b, n) else old(arOutput[..])
  {
    var e := IsEmpty(b.them);
    if e {
      arOutput[0], arOutput[1], arOutput[2] := 0.0, 0.0, 0.0;
      var c := CountChequers(b.us);
      if c == n {
        arOutput[3] := 1.0;
        var s := HasStragglers(b.us);
        arOutput[4] := if s then 1.0 else 0.0;
        return;
      }
      arOutput[3], arOutput[4] := 0.0, 0.0;
      return;
    }
    e := IsEmpty(b.us);
    if e {
      arOutput[0], arOutput[3], arOutput[4] := 1.0, 0.0, 0.0;
      var c := CountChequers(b.them);
      if c == n {
        arOutput[1] := 1.0;
        var s := HasStragglers(b.them);
        arOutput[2] := if s then 1.0 else 0.0;
        return;
      }
      arOutput[1], arOutput[2] := 0.0, 0.0;
    }
  }

  /** Both players see the same result of a finished game, unless both have borne off:
      then each is told to have lost. */
  lemma OverIsFair(b: Board, n: nat)
    requires IsOver(b)
    ensures Coherent(OverOf(b, n)) && IsOver(Swapped(b))
    ensures OverOf(Swapped(b), n) == Invert(OverOf(b, n)) <==> !(BorneOffAll(b.us) && BorneOffAll(b.them))
  {
    hide GamesLost;
    FinalInverts(true, GamesLost(b.them, n));
    FinalInverts(false, GamesLost(b.us, n));
    if BorneOffAll(b.us) && BorneOffAll(b.them) {
      assert OverOf(b, n)[0] == OverOf(Swapped(b), n)[0] == 0.0;
    }
  }

  lemma FinalInverts(win: bool, games: nat)
    ensures Invert(Final(win, games)) == Final(!win, games) && Coherent(Final(win, games))
  {
  }

  /** For money a finished game is worth what the rules say: one point to the player whose
      opponent still has chequers, two if the loser has borne off none, three if one of
      those is on the bar or in the winner's home board. */
  lemma OverIsWorth(b: Board, n: nat, ci: CubeInfo, arGammonPrice: Prices)
    requires IsOver(b) && IsCube(ci) && ci.nMatchTo == 0
    ensures var loser := if BorneOffAll(b.them) then b.us else b.them;
            var points := if Total(loser) != n then 1.0
                          else if exists p :: 18 <= p <= 24 && loser[p] > 0 then 3.0 else 2.0;
            UtilityME(OverOf(b, n), ci, arGammonPrice) == if BorneOffAll(b.them) then -points else points
  {
  }

  // ----------------------------------------------------------- the sanity check

  /** The highest point a side occupies in [lo, hi), or `back` if none. */
  function Back(s: Side, lo: nat, hi: nat, back: nat): nat
    requires lo <= hi <= 25
    decreases hi - lo
  {
    if lo == hi then back else if s[hi - 1] > 0 then hi - 1 else Back(s, lo, hi - 1, back)
  }

  function Chequers(s: Side, lo: nat, hi: nat): nat
    requires lo <= hi <= 25
    decreases hi - lo
  {
    if lo == hi then 0 else Chequers(s, lo, hi - 1) + s[hi - 1]
  }

  /** What the check counts for one side: the rear chequer, the chequers on the board, and
      how many quadrants they have to cross to be off and to save the gammon. */
  datatype Counts = Counts(anBack: nat, ac: nat, anCross: nat, anGammonCross: nat)

  function CountsOf(s: Side): Counts {
    var q0, q1, q2, q3, bar := Chequers(s, 0, 6), Chequers(s, 6, 12), Chequers(s, 12, 18), Chequers(s, 18, 24), s[24];
    Counts(Back(s, 0, 25, 0), q0 + q1 + q2 + q3 + bar, q0 + 2 * q1 + 3 * q2 + 4 * q3 + 5 * bar,
           1 + q1 + 2 * q2 + 3 * q3 + 4 * bar)
  }

  lemma {:induction false} BackInParts(s: Side, lo: nat, mid: nat, hi: nat, back: nat)
    requires lo <= mid <= hi <= 25
    ensures Back(s, mid, hi, Back(s, lo, mid, back)) == Back(s, lo, hi, back)
    decreases hi
  {
    if mid < hi && s[hi - 1] == 0 {
      BackInParts(s, lo, mid, hi - 1, back);
    }
  }

  method CountQuadrant(s: Side, lo: nat, hi: nat, anBack: nat) returns (nciq: nat, back: nat)
    requires lo <= hi <= 25
    ensures nciq == Chequers(s, lo, hi) && back == Back(s, lo, hi, anBack)
  {
    nciq, back := 0, anBack;
    var i := lo;
    while i < hi
      invariant lo <= i <= hi && nciq == Chequers(s, lo, i) && back == Back(s, lo, i, anBack)
    {
      if s[i] > 0 {
        back := i;
        nciq := nciq + s[i];
      }
      i := i + 1;
    }
  }

  /** The counting loops for one side. */
  method CountSide(s: Side) returns (c: Counts)
    ensures c == CountsOf(s)
  {
    var anBack, ac, anCross, anGammonCross := 0, 0, 0, 1;
    var nciq;
    nciq, anBack := CountQuadrant(s, 0, 6, anBack);
    ac, anCross := nciq, nciq;
    nciq, anBack := CountQuadrant(s, 6, 12, anBack);
    BackInParts(s, 0, 6, 12, 0);
    ac, anCross, anGammonCross := ac + nciq, anCross + 2 * nciq, anGammonCross + nciq;
    nciq, anBack := CountQuadrant(s, 12, 18, anBack);
    BackInParts(s, 0, 12, 18, 0);
    ac, anCross, anGammonCross := ac + nciq, anCross + 3 * nciq, anGammonCross + 2 * nciq;
    nciq, anBack := CountQuadrant(s, 18, 24, anBack);
    BackInParts(s, 0, 18, 24, 0);
    ac, anCross, anGammonCross := ac + nciq, anCross + 4 * nciq, anGammonCross + 3 * nciq;
    if s[24] > 0 {
      anBack := 24;
      ac, anCross, anGammonCross := ac + s[24], anCross + 5 * s[24], anGammonCross + 4 * s[24];
    }
    c := Counts(anBack, ac, anCross, anGammonCross);
  }

  /** An upper bound on the turns a side needs to bear off, from a database if it has
      one for positions within six points. */
  type TurnBound = Side -> nat

  function MaxTurns(s: Side, c: Counts, pbc1: bool, maxTurns: TurnBound): nat {
    if c.anBack < 6 && pbc1 then maxTurns(s) else c.anCross * 2
  }

  /** What is certain about a position, and the corrected chance for each outcome:
      None where the evaluation may stand. */
  datatype Facts = Facts(contact: bool, theyAreOff: bool, weAreOff: bool, certainWin: bool, certainLoss: bool,
                         noGammon: bool, certainGammon: bool, noBackgammon: bool,
                         noGammonLoss: bool, certainGammonLoss: bool, noBackgammonLoss: bool)

  function FactsOf(b: Board, pbc1: bool, maxTurns: TurnBound): Facts {
    var c0, c1 := CountsOf(b.them), CountsOf(b.us);
    var contact := c0.anBack + c1.anBack >= 24;
    var t0, t1 := MaxTurns(b.them, c0, pbc1, maxTurns), MaxTurns(b.us, c1, pbc1, maxTurns);
    var t1' := if t1 == 0 then 1 else t1;
    Facts(contact, c0.ac < 15, c1.ac < 15,
          !contact && c0.anCross > 4 * (t1' - 1), !contact && c1.anCross > 4 * t0,
          c1.anCross > 8 * c0.anGammonCross, c0.anGammonCross > 4 * (t1' - 1), c0.anBack < 18,
          c0.anCross > 8 * c1.anGammonCross - 4, c1.anGammonCross > 4 * t0, c1.anBack < 18)
  }

  /** The larger-than test of the check: `x` brought down to `most`. */
  function AtMost(x: real, most: real): real {
    if x > most then most else x
  }

  const NOISE: real := 1.0 / 10000.0

  function Quiet(x: real, contact: bool): real {
    if contact && x < NOISE then 0.0 else x
  }

  /** The vector the sanity check leaves. */
  function Sane(f: Facts, o: Outputs): Outputs {
    Clamped(Corrected(f, o), f.contact)
  }

  /** Whatever the evaluator returned in [0, 1], the checked vector is coherent. */
  lemma SaneIsCoherent(f: Facts, o: Outputs)
    requires InUnit(o)
    ensures Coherent(Sane(f, o)) && InUnit(Sane(f, o))
  {
    assert 0.0 <= o[0] <= 1.0 && 0.0 <= o[1] <= 1.0 && 0.0 <= o[2] <= 1.0 && 0.0 <= o[3] <= 1.0 && 0.0 <= o[4] <= 1.0;
  }

  /** Checking twice is checking once. */
  lemma SaneTwice(f: Facts, o: Outputs)
    requires InUnit(o) && (f.certainWin || f.certainLoss ==> !f.contact)
    ensures Sane(f, Sane(f, o)) == Sane(f, o)
  {
    assert 0.0 <= o[0] <= 1.0 && 0.0 <= o[1] <= 1.0 && 0.0 <= o[2] <= 1.0 && 0.0 <= o[3] <= 1.0 && 0.0 <= o[4] <= 1.0;
    var p := Sane(f, o);
    var q := Sane(f, p);
    assert q[0] == p[0];
    assert q[1] == p[1] && q[3] == p[3];
    assert q[2] == p[2] && q[4] == p[4];
  }

  /** What the facts say about the game is what the checked vector says: a certain win is
      won, what cannot be lost is not lost, and nothing else is touched. */
  lemma SaneFollowsFacts(f: Facts, o: Outputs)
    requires InUnit(o)
    ensures var r := Sane(f, o);
            && (f.certainWin && !f.certainLoss ==> r[0] == 1.0 && r[3] == r[4] == 0.0)
            && (f.certainLoss ==> r[0] == r[1] == r[2] == 0.0)
            && (f.theyAreOff || (!f.contact && f.noGammon) ==> r[1] == r[2] == 0.0)
            && (f.weAreOff || (!f.contact && f.noGammonLoss) ==> r[3] == r[4] == 0.0)
            && (!f.contact && f.certainGammon && !f.noGammon && !f.theyAreOff ==> r[1] == r[0])
            && (!f.contact && f.certainGammonLoss && !f.noGammonLoss && !f.weAreOff ==> r[3] == 1.0 - r[0])
            && (!f.contact && f.noBackgammon ==> r[2] == 0.0) && (!f.contact && f.noBackgammonLoss ==> r[4] == 0.0)
    ensures !f.certainWin && !f.certainLoss ==> Sane(f, o)[0] == o[0]
    ensures Untouched(f, o) && Coherent(o) ==> Sane(f, o) == o
  {
    assert 0.0 <= o[0] <= 1.0 && 0.0 <= o[1] <= 1.0 && 0.0 <= o[2] <= 1.0 && 0.0 <= o[3] <= 1.0 && 0.0 <= o[4] <= 1.0;
    var r := Sane(f, o);
    if Untouched(f, o) && Coherent(o) {
      assert r[0] == o[0] && r[1] == o[1] && r[2] == o[2] && r[3] == o[3] && r[4] == o[4];
    }
  }

  /** Nothing is certain, and in contact no chance is below the noise. */
  ghost predicate Untouched(f: Facts, o: Outputs) {
    && !f.certainWin && !f.certainLoss && !f.theyAreOff && !f.weAreOff
    && (f.contact ==> o[1] >= NOISE && o[2] >= NOISE && o[3] >= NOISE && o[4] >= NOISE)
    && (!f.contact ==>
          && !f.noGammon && !f.certainGammon && !f.noBackgammon
          && !f.noGammonLoss && !f.certainGammonLoss && !f.noBackgammonLoss)
  }

  method FindFacts(b: Board, pbc1: bool, maxTurns: TurnBound) returns (f: Facts)
    ensures f == FactsOf(b, pbc1, maxTurns)
  {
    hide CountsOf, MaxTurns;
    var c0 := CountSide(b.them);
    var c1 := CountSide(b.us);
    var fContact := c0.anBack + c1.anBack >= 24;
    var t0, t1 := MaxTurns(b.them, c0, pbc1, maxTurns), MaxTurns(b.us, c1, pbc1, maxTurns);
    if t1 == 0 {
      t1 := 1;
    }
    f := Facts(fContact, c0.ac < 15, c1.ac < 15,
               !fContact && c0.anCross > 4 * (t1 - 1), !fContact && c1.anCross > 4 * t0,
               c1.anCross > 8 * c0.anGammonCross, c0.anGammonCross > 4 * (t1 - 1), c0.anBack < 18,
               c0.anCross > 8 * c1.anGammonCross - 4, c1.anGammonCross > 4 * t0, c1.anBack < 18);
  }

  method SanityCheck(b: Board, arOutput: array<real>, pbc1: bool, maxTurns: TurnBound)
    requires arOutput.Length == 5 && InUnit(arOutput[..])
    modifies arOutput
    ensures arOutput[..] == Sane(FactsOf(b, pbc1, maxTurns), old(arOutput[..]))
  {
    hide *;
    ghost var o := arOutput[..];
    var f := FindFacts(b, pbc1, maxTurns);
    CorrectWins(f, arOutput);
    CorrectLosses(f, arOutput);
    ClampAndQuieten(arOutput, f.contact);
    SaneIs(f, o);
  }

  lemma SaneIs(f: Facts, o: Outputs)
    ensures Sane(f, o) == Clamped(CorrectedLosses(f, CorrectedWins(f, o)), f.contact)
  {
  }

  /** What is certain overrides the evaluation: first the player's wins, then the losses. */
  function Corrected(f: Facts, o: Outputs): Outputs {
    CorrectedLosses(f, CorrectedWins(f, o))
  }

  function CorrectedGammon(x: real, off: bool, contact: bool, impossible: bool, certain: bool): real {
    if off then 0.0 else if contact then x else if impossible then 0.0 else if certain then 1.0 else x
  }

  function CorrectedWins(f: Facts, o: Outputs): Outputs {
    [if f.certainWin then 1.0 else o[0], CorrectedGammon(o[1], f.theyAreOff, f.contact, f.noGammon, f.certainGammon),
     if f.theyAreOff || (!f.contact && f.noBackgammon) then 0.0 else o[2], o[3], o[4]]
  }

  function CorrectedLosses(f: Facts, o: Outputs): Outputs {
    [if f.certainLoss then 0.0 else o[0], o[1], o[2],
     CorrectedGammon(o[3], f.weAreOff, f.contact, f.noGammonLoss, f.certainGammonLoss),
     if f.weAreOff || (!f.contact && f.noBackgammonLoss) then 0.0 else o[4]]
  }

  method CorrectWins(f: Facts, arOutput: array<real>)
    requires arOutput.Length == 5
    modifies arOutput
    ensures arOutput[..] == CorrectedWins(f, old(arOutput[..]))
  {
    if f.certainWin {
      arOutput[OUTPUT_WIN] := 1.0;
    }
    if f.theyAreOff {
      arOutput[OUTPUT_WINGAMMON], arOutput[OUTPUT_WINBACKGAMMON] := 0.0, 0.0;
    } else if !f.contact {
      if f.noGammon {
        arOutput[OUTPUT_WINGAMMON] := 0.0;
      } else if f.certainGammon {
        arOutput[OUTPUT_WINGAMMON] := 1.0;
      }
      if f.noBackgammon {
        arOutput[OUTPUT_WINBACKGAMMON] := 0.0;
      }
    }
  }

  method CorrectLosses(f: Facts, arOutput: array<real>)
    requires arOutput.Length == 5
    modifies arOutput
    ensures arOutput[..] == CorrectedLosses(f, old(arOutput[..]))
  {
    if f.certainLoss {
      arOutput[OUTPUT_WIN] := 0.0;
    }
    if f.weAreOff {
      arOutput[OUTPUT_LOSEGAMMON], arOutput[OUTPUT_LOSEBACKGAMMON] := 0.0, 0.0;
    } else if !f.contact {
      if f.noGammonLoss {
        arOutput[OUTPUT_LOSEGAMMON] := 0.0;
      } else if f.certainGammonLoss {
        arOutput[OUTPUT_LOSEGAMMON] := 1.0;
      }
      if f.noBackgammonLoss {
        arOutput[OUTPUT_LOSEBACKGAMMON] := 0.0;
      }
    }
  }

  /** Gammons at most wins, backgammons at most gammons, and no noise in contact. */
  function Clamped(o: Outputs, contact: bool): Outputs {
    var wg, lg := AtMost(o[1], o[0]), AtMost(o[3], 1.0 - o[0]);
    var wbg, lbg := AtMost(o[2], wg), AtMost(o[4], lg);
    [o[0], Quiet(wg, contact), Quiet(wbg, contact), Quiet(lg, contact), Quiet(lbg, contact)]
  }

  method ClampAndQuieten(arOutput: array<real>, fContact: bool)
    requires arOutput.Length == 5
    modifies arOutput
    ensures arOutput[..] == Clamped(old(arOutput[..]), fContact)
  {
    if arOutput[OUTPUT_WINGAMMON] > arOutput[OUTPUT_WIN] {
      arOutput[OUTPUT_WINGAMMON] := arOutput[OUTPUT_WIN];
    }
    var lose := 1.0 - arOutput[OUTPUT_WIN];
    if arOutput[OUTPUT_LOSEGAMMON] > lose {
      arOutput[OUTPUT_LOSEGAMMON] := lose;
    }
    if arOutput[OUTPUT_WINBACKGAMMON] > arOutput[OUTPUT_WINGAMMON] {
      arOutput[OUTPUT_WINBACKGAMMON] := arOutput[OUTPUT_WINGAMMON];
    }
    if arOutput[OUTPUT_LOSEBACKGAMMON] > arOutput[OUTPUT_LOSEGAMMON] {
      arOutput[OUTPUT_LOSEBACKGAMMON] := arOutput[OUTPUT_LOSEGAMMON];
    }
    if fContact {
      ghost var o := arOutput[..];
      var i := OUTPUT_WINGAMMON;
      while i < NUM_OUTPUTS
        invariant 1 <= i <= 5 && arOutput[0] == o[0]
        invariant forall k :: 1 <= k < 5 ==> arOutput[k] == if k < i then Quiet(o[k], true) else o[k]
      {
        if arOutput[i] < NOISE {
          arOutput[i] := 0.0;
        }
        i := i + 1;
      }
    }
  }

  // ------------------------------------------------------ evaluating to a depth

  /** The parts of the engine the recursion calls: position classes, the reply to a roll,
      the static evaluators, their noise, the bear-off database's turn bound, and the number
      of chequers of the variation played. */
  datatype Evaluator = Evaluator(
    classify: Board -> int,
    reply: (Board, nat, nat) -> Board,
    evaluate: Board -> Outputs,
    noise: (Board, nat) -> real,
    rNoise: real,
    pbc1: bool,
    maxTurns: TurnBound,
    anChequers: nat)

  /** Evaluators answer in [0, 1], databases coherently, and a game is over only when a
      side has borne off. */
  ghost predicate WellBehaved(e: Evaluator) {
    && (forall b :: InUnit(e.evaluate(b)) && e.classify(b) >= CLASS_OVER)
    && (forall b :: CLASS_OVER < e.classify(b) <= CLASS_GOOD ==> Coherent(e.evaluate(b)))
    && forall b :: e.classify(b) == CLASS_OVER ==> IsOver(b)
  }

  function Clip(x: real): real {
    var y := if x > 0.0 then x else 0.0;
    if y < 1.0 then y else 1.0
  }

  ghost function Raw(e: Evaluator, b: Board): Outputs {
    if e.classify(b) != CLASS_OVER then e.evaluate(b) else OverOf(b, e.anChequers)
  }

  ghost function Noisy(e: Evaluator, b: Board, o: Outputs): Outputs {
    if e.rNoise > 0.0 && e.classify(b) != CLASS_OVER then seq(5, i requires 0 <= i < 5 => Clip(o[i] + e.noise(b, i)))
    else o
  }

  ghost function Leaf(e: Evaluator, b: Board): Outputs {
    var o := Noisy(e, b, Raw(e, b));
    if e.classify(b) > CLASS_GOOD || e.rNoise > 0.0 then Sane(FactsOf(b, e.pbc1, e.maxTurns), o) else o
  }

  /** The outputs of a position at a depth: a leaf's, or the average over the 36 rolls of
      the outputs after the reply, seen from the other side. */
  ghost function Value(e: Evaluator, b: Board, nPlies: nat): Outputs
    decreases nPlies, 9, 0
  {
    if e.classify(b) > CLASS_PERFECT && nPlies > 0 then Invert(Averaged(e, b, nPlies)) else Leaf(e, b)
  }

  ghost function Averaged(e: Evaluator, b: Board, nPlies: nat): Outputs
    requires nPlies > 0
    decreases nPlies, 8, 0
  {
    PerRoll(seq(5, i requires 0 <= i < 5 => Sum(e, b, nPlies, i, 7, 1)))
  }

  /** Output i summed over the rolls before (n0, n1). */
  ghost function Sum(e: Evaluator, b: Board, nPlies: nat, i: nat, n0: nat, n1: nat): real
    requires nPlies > 0 && i < 5 && 1 <= n0 <= 7 && 1 <= n1 <= n0 + 1
    decreases nPlies, n0, n1
  {
    if n1 > 1 then
      Sum(e, b, nPlies, i, n0, n1 - 1) + Weight(n0, n1 - 1) * Value(e, Swapped(e.reply(b, n0, n1 - 1)), nPlies - 1)[i]
    else if n0 > 1 then Sum(e, b, nPlies, i, n0 - 1, n0)
    else 0.0
  }

  ghost function WeightBefore(n0: nat, n1: nat): real
    requires 1 <= n0 && 1 <= n1 <= n0 + 1
    decreases n0, n1
  {
    if n1 > 1 then WeightBefore(n0, n1 - 1) + Weight(n0, n1 - 1)
    else if n0 > 1 then WeightBefore(n0 - 1, n0)
    else 0.0
  }

  /** What the leaves are: the result of a finished game, a database's vector as it is, and
      a net's after the check; noise is added before it. */
  lemma LeafCases(e: Evaluator, b: Board, nPlies: nat)
    requires nPlies == 0 || e.classify(b) <= 5
    ensures e.rNoise <= 0.0 ==>
              Value(e, b, nPlies) == (if e.classify(b) == 0 then OverOf(b, e.anChequers)
                                      else if e.classify(b) <= 7 then e.evaluate(b)
                                      else Sane(FactsOf(b, e.pbc1, e.maxTurns), e.evaluate(b)))
    ensures e.rNoise > 0.0 && e.classify(b) != 0 ==>
              exists o: Outputs :: Disturbed(e, b, o) && Value(e, b, nPlies) == Sane(FactsOf(b, e.pbc1, e.maxTurns), o)
  {
    hide Sane, FactsOf, OverOf;
    if e.rNoise > 0.0 && e.classify(b) != 0 {
      assert Disturbed(e, b, Noisy(e, b, e.evaluate(b)));
    }
  }

  /** Every output with its noise, kept between 0 and 1. */
  ghost predicate Disturbed(e: Evaluator, b: Board, o: Outputs) {
    forall i :: 0 <= i < 5 ==>
      var x := e.evaluate(b)[i] + e.noise(b, i);
      o[i] == if x < 0.0 then 0.0 else if x > 1.0 then 1.0 else x
  }

  lemma LeafIsCoherent(e: Evaluator, b: Board)
    requires WellBehaved(e)
    ensures Coherent(Leaf(e, b))
  {
    hide Sane, FactsOf, GamesLost;
    var o := Raw(e, b);
    RawIsInUnit(e, b);
    var p := Noisy(e, b, o);
    NoisyIsInUnit(e, b, o);
    if e.classify(b) > CLASS_GOOD || e.rNoise > 0.0 {
      SaneIsCoherent(FactsOf(b, e.pbc1, e.maxTurns), p);
    }
  }

  lemma NoisyIsInUnit(e: Evaluator, b: Board, o: Outputs)
    requires InUnit(o)
    ensures InUnit(Noisy(e, b, o))
  {
    forall i | 0 <= i < 5 ensures 0.0 <= Noisy(e, b, o)[i] <= 1.0 {
      assert 0.0 <= o[i] <= 1.0;
      assert Noisy(e, b, o)[i] == o[i] || Noisy(e, b, o)[i] == Clip(o[i] + e.noise(b, i));
    }
  }

  lemma RawIsInUnit(e: Evaluator, b: Board)
    requires WellBehaved(e)
    ensures InUnit(Raw(e, b)) && (e.classify(b) <= CLASS_GOOD ==> Coherent(Raw(e, b)))
  {
    hide GamesLost, Coherent;
    if e.classify(b) == CLASS_OVER {
      FinalIsInUnit(false, GamesLost(b.us, e.anChequers));
      FinalIsInUnit(true, GamesLost(b.them, e.anChequers));
    }
  }

  lemma FinalIsInUnit(win: bool, games: nat)
    ensures Coherent(Final(win, games)) && InUnit(Final(win, games))
  {
  }

  /** Sums of coherent vectors over rolls of weight m. */
  ghost predicate CoherentSum(s0: real, s1: real, s2: real, s3: real, s4: real, m: real) {
    0.0 <= s2 <= s1 <= s0 <= m && 0.0 <= s4 <= s3 <= m - s0
  }

  lemma AddCoherent(s0: real, s1: real, s2: real, s3: real, s4: real, m: real, w: real, o: Outputs)
    requires CoherentSum(s0, s1, s2, s3, s4, m) && Coherent(o) && (w == 1.0 || w == 2.0)
    ensures CoherentSum(s0 + w * o[0], s1 + w * o[1], s2 + w * o[2], s3 + w * o[3], s4 + w * o[4], m + w)
  {
  }

  lemma {:induction false} SumIsCoherent(e: Evaluator, b: Board, nPlies: nat, n0: nat, n1: nat)
    requires WellBehaved(e) && nPlies > 0 && 1 <= n0 <= 7 && 1 <= n1 <= n0 + 1
    ensures CoherentSum(Sum(e, b, nPlies, 0, n0, n1), Sum(e, b, nPlies, 1, n0, n1), Sum(e, b, nPlies, 2, n0, n1),
                        Sum(e, b, nPlies, 3, n0, n1), Sum(e, b, nPlies, 4, n0, n1), WeightBefore(n0, n1))
    decreases nPlies, 8, n0, n1
  {
    hide WellBehaved, Value;
    if n1 > 1 {
      SumIsCoherent(e, b, nPlies, n0, n1 - 1);
      ValueIsCoherent(e, Swapped(e.reply(b, n0, n1 - 1)), nPlies - 1);
      AddCoherent(Sum(e, b, nPlies, 0, n0, n1 - 1), Sum(e, b, nPlies, 1, n0, n1 - 1), Sum(e, b, nPlies, 2, n0, n1 - 1),
                  Sum(e, b, nPlies, 3, n0, n1 - 1), Sum(e, b, nPlies, 4, n0, n1 - 1), WeightBefore(n0, n1 - 1),
                  Weight(n0, n1 - 1), Value(e, Swapped(e.reply(b, n0, n1 - 1)), nPlies - 1));
    } else if n0 > 1 {
      SumIsCoherent(e, b, nPlies, n0 - 1, n0);
    }
  }

  lemma {:induction false} WeightBeforeIs(n0: nat, n1: nat)
    requires 1 <= n0 && 1 <= n1 <= n0 + 1
    ensures WeightBefore(n0, n1) == ((n0 - 1) * (n0 - 1) + 2 * (n1 - 1) - (if n1 == n0 + 1 then 1 else 0)) as real
    decreases n0, n1
  {
    if n1 > 1 {
      WeightBeforeIs(n0, n1 - 1);
    } else if n0 > 1 {
      WeightBeforeIs(n0 - 1, n0);
      assert (n0 - 2) * (n0 - 2) + 2 * (n0 - 1) - 1 == (n0 - 1) * (n0 - 1);
    }
  }

  lemma AllRollsWeight(n0: nat, n1: nat)
    requires n0 == 7 && n1 == 1
    ensures WeightBefore(n0, n1) == 36.0
  {
    WeightBeforeIs(n0, n1);
  }

  lemma DividedIsCoherent(s: Outputs, o: Outputs)
    requires CoherentSum(s[0], s[1], s[2], s[3], s[4], 36.0) && o == PerRoll(s)
    ensures Coherent(o)
  {
    assert o[0] == s[0] / 36.0 && o[1] == s[1] / 36.0 && o[2] == s[2] / 36.0 && o[3] == s[3] / 36.0 && o[4] == s[4] / 36.0;
  }

  /** At every depth an evaluation is coherent, for both players, and is worth between
      -3 and 3 points in money play. */
  lemma {:induction false} ValueIsCoherent(e: Evaluator, b: Board, nPlies: nat)
    requires WellBehaved(e)
    ensures Coherent(Value(e, b, nPlies)) && Coherent(Invert(Value(e, b, nPlies)))
    decreases nPlies, 9
  {
    if e.classify(b) > CLASS_PERFECT && nPlies > 0 {
      hide WellBehaved, Coherent, Sum, Leaf, WeightBefore;
      SumIsCoherent(e, b, nPlies, 7, 1);
      AllRollsWeight(7, 1);
      var s: Outputs := seq(5, i requires 0 <= i < 5 => Sum(e, b, nPlies, i, 7, 1));
      DividedIsCoherent(s, Averaged(e, b, nPlies));
      InvertKeepsCoherent(Averaged(e, b, nPlies));
    } else {
      LeafIsCoherent(e, b);
    }
    hide *;
    InvertKeepsCoherent(Value(e, b, nPlies));
  }

  lemma EvaluationsAreInRange(e: Evaluator, b: Board, nPlies: nat, ci: CubeInfo, arGammonPrice: Prices)
    requires WellBehaved(e) && IsCube(ci) && ci.nMatchTo == 0
    ensures -3.0 <= UtilityME(Value(e, b, nPlies), ci, arGammonPrice) <= 3.0
  {
    hide *;
    ValueIsCoherent(e, b, nPlies);
    MoneyEquityInRange(Value(e, b, nPlies), ci, arGammonPrice);
  }

  // --------------------------------------------------- EvaluatePositionFull

  method EvaluateLeaf(e: Evaluator, b: Board, arOutput: array<real>) returns (r: int)
    requires arOutput.Length == 5 && WellBehaved(e)
    modifies arOutput
    ensures r == 0 || r == -1
    ensures r == 0 ==> arOutput[..] == Leaf(e, b)
  {
    hide Sane, FactsOf, Coherent;
    if * {
      return -1;
    }
    var pc := e.classify(b);
    if pc == CLASS_OVER {
      EvalOver(b, arOutput, e.anChequers);
    } else {
      Store(arOutput, e.evaluate(b));
    }
    assert arOutput[..] == Raw(e, b);
    RawIsInUnit(e, b);
    if e.rNoise > 0.0 && pc != CLASS_OVER {
      ghost var o := arOutput[..];
      var i := 0;
      while i < 5
        invariant 0 <= i <= 5
        invariant forall k :: 0 <= k < 5 ==> arOutput[k] == if k < i then Clip(o[k] + e.noise(b, k)) else o[k]
      {
        arOutput[i] := Clip(arOutput[i] + e.noise(b, i));
        i := i + 1;
      }
    }
    assert arOutput[..] == Noisy(e, b, Raw(e, b));
    if pc > CLASS_GOOD || e.rNoise > 0.0 {
      NoisyIsInUnit(e, b, Raw(e, b));
      SanityCheck(b, arOutput, e.pbc1, e.maxTurns);
    }
    r := 0;
  }

  method Store(arOutput: array<real>, o: Outputs)
    requires arOutput.Length == 5
    modifies arOutput
    ensures arOutput[..] == o
  {
    var i := 0;
    while i < 5
      invariant 0 <= i <= 5 && forall k :: 0 <= k < i ==> arOutput[k] == o[k]
    {
      arOutput[i] := o[i];
      i := i + 1;
    }
  }

  /** The sums over the rolls before (n0, n1) are in the array. */
  ghost predicate SummedTo(e: Evaluator, b: Board, nPlies: nat, n0: nat, n1: nat, ar: seq<real>) {
    && nPlies > 0 && |ar| == 5 && 1 <= n0 <= 7 && 1 <= n1 <= n0 + 1
    && forall i :: 0 <= i < 5 ==> ar[i] == Sum(e, b, nPlies, i, n0, n1)
  }

  lemma OneRollMore(e: Evaluator, b: Board, nPlies: nat, n0: nat, n1: nat, ar: seq<real>, o: Outputs, ar': seq<real>)
    requires SummedTo(e, b, nPlies, n0, n1, ar) && n1 <= n0 && o == Value(e, Swapped(e.reply(b, n0, n1)), nPlies - 1)
    requires |ar'| == 5 && forall i :: 0 <= i < 5 ==> ar'[i] == ar[i] + Weight(n0, n1) * o[i]
    ensures SummedTo(e, b, nPlies, n0, n1 + 1, ar')
  {
    hide Value;
  }

  lemma NextNumber(e: Evaluator, b: Board, nPlies: nat, n0: nat, ar: seq<real>)
    requires SummedTo(e, b, nPlies, n0, n0 + 1, ar) && n0 <= 6
    ensures SummedTo(e, b, nPlies, n0 + 1, 1, ar)
  {
  }

  /** Normalize and flop. */
  method AverageAndFlop(arOutput: array<real>)
    requires arOutput.Length == 5
    modifies arOutput
    ensures arOutput[..] == Invert(PerRoll(old(arOutput[..])))
  {
    var i := 0;
    while i < 5
      invariant 0 <= i <= 5
      invariant forall k :: 0 <= k < 5 ==> arOutput[k] == if k < i then old(arOutput[k]) / 36.0 else old(arOutput[k])
    {
      arOutput[i] := arOutput[i] / 36.0;
      i := i + 1;
    }
    assert arOutput[..] == PerRoll(old(arOutput[..]));
    InvertEvaluation(arOutput);
  }

  /** EvaluatePositionFull without the cache; -1 is an interrupt or a missing database. */
  method EvaluatePositionFull(e: Evaluator, b: Board, arOutput: array<real>, nPlies: nat) returns (r: int)
    requires arOutput.Length == 5 && WellBehaved(e)
    modifies arOutput
    ensures r == 0 || r == -1
    ensures r == 0 ==> arOutput[..] == Value(e, b, nPlies)
    decreases nPlies
  {
    hide WellBehaved, Sum, Leaf, SummedTo, Invert;
    var pc := e.classify(b);
    if pc > CLASS_PERFECT && nPlies > 0 {
      r := SumReplies(e, b, arOutput, nPlies);
      if r == 0 {
        SummedIs(e, b, nPlies, arOutput[..]);
        AverageAndFlop(arOutput);
      }
    } else {
      r := EvaluateLeaf(e, b, arOutput);
    }
  }

  lemma SummedIs(e: Evaluator, b: Board, nPlies: nat, ar: Outputs)
    requires SummedTo(e, b, nPlies, 7, 1, ar)
    ensures nPlies > 0 && PerRoll(ar) == Averaged(e, b, nPlies)
  {
    hide Sum;
  }

  method SumReplies(e: Evaluator, b: Board, arOutput: array<real>, nPlies: nat) returns (r: int)
    requires arOutput.Length == 5 && WellBehaved(e) && nPlies > 0
    modifies arOutput
    ensures r == 0 || r == -1
    ensures r == 0 ==> SummedTo(e, b, nPlies, 7, 1, arOutput[..])
    decreases nPlies, 0
  {
    hide *;
    var arVariationOutput := new real[5];
    Store(arOutput, [0.0, 0.0, 0.0, 0.0, 0.0]);
    NothingSummed(e, b, nPlies, arOutput[..]);
    var n0 := 1;
    while n0 <= 6
      invariant 1 <= n0 <= 7 && SummedTo(e, b, nPlies, n0, 1, arOutput[..])
    {
      var n1 := 1;
      while n1 <= n0
        invariant 1 <= n1 <= n0 + 1 && SummedTo(e, b, nPlies, n0, n1, arOutput[..])
      {
        if * {
          return -1;
        }
        var w := if n0 == n1 then 1.0 else 2.0;
        WeightIs(n0, n1);
        var anBoardNew := Swapped(e.reply(b, n0, n1));
        r := EvaluatePositionFull(e, anBoardNew, arVariationOutput, nPlies - 1);
        if r != 0 {
          return -1;
        }
        ghost var before := arOutput[..];
        AddWeighted(arOutput, w, arVariationOutput);
        OneRollMore(e, b, nPlies, n0, n1, before, arVariationOutput[..], arOutput[..]);
        n1 := n1 + 1;
      }
      NextNumber(e, b, nPlies, n0, arOutput[..]);
      n0 := n0 + 1;
    }
    return 0;
  }

  lemma WeightIs(n0: nat, n1: nat)
    ensures Weight(n0, n1) == if n0 == n1 then 1.0 else 2.0
  {
  }

  lemma NothingSummed(e: Evaluator, b: Board, nPlies: nat, ar: seq<real>)
    requires nPlies > 0 && ar == [0.0, 0.0, 0.0, 0.0, 0.0]
    ensures SummedTo(e, b, nPlies, 1, 1, ar)
  {
  }
}
