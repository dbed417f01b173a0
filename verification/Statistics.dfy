/** Match statistics (gnubg/analysis.c): counting the analysed records of a game and
    adding games up. */
module Statistics {
  import opened Variance

  const N_SKILLS := 4
  const N_LUCKS := 5

  /** The equities of a cube decision. */
  datatype Decision = Decision(optimal: real, noDouble: real, take: real, drop: real)

  datatype Luck = NoLuck | Luck(rLuck: real, lt: nat)

  datatype Chequer = Unmarked | Chequer(rSkill: real)

  datatype Cube = NoCube | Cube(d: Decision)

  /** An analysed move record; `cost` turns an equity into points or match chances. */
  datatype Record =
    | GameInfo(fWinner: int, nMatch: nat, nPoints: nat, gain: real)
    | Normal(fPlayer: nat, cube: Cube, luck: Luck, chequer: Chequer, cMoves: nat, cost: real -> real)
    | Doubled(fPlayer: nat, normal: bool, cube: Cube, cost: real -> real)
    | Taken(fPlayer: nat, normal: bool, cube: Cube, cost: real -> real)
    | Dropped(fPlayer: nat, cube: Cube, cost: real -> real)
    | SetDice(fPlayer: nat, luck: Luck, cost: real -> real)
    | Other

  /** A cost in equity and in points or match chances. */
  type Cost = (real, real)

  /** What is counted for one player. */
  datatype Tally = Tally(
    anUnforcedMoves: nat, anTotalMoves: nat, anTotalCube: nat, anCloseCube: nat, anDouble: nat, anTake: nat, anPass: nat,
    anMoves: seq<nat>, anLuck: seq<nat>,
    missedDP: nat, missedTG: nat, wrongDP: nat, wrongTG: nat, wrongTake: nat, wrongPass: nat,
    arCheckerplay: Cost, arMissedDP: Cost, arMissedTG: Cost, arWrongDP: Cost, arWrongTG: Cost,
    arWrongTake: Cost, arWrongPass: Cost, arLuck: Cost)

  datatype Stats = Stats(
    nGames: nat, fMoves: bool, fDice: bool, fCube: bool, tally: seq<Tally>,
    arActualResult: seq<real>, arLuckAdj: seq<real>, arVarianceActual: seq<real>, arVarianceLuckAdj: seq<real>)

  function Plus(x: Cost, y: Cost): Cost {
    (x.0 + y.0, x.1 + y.1)
  }

  function Minus(x: Cost, rSkill: real, rCost: real): Cost {
    (x.0 - rSkill, x.1 - rCost)
  }

  function Bump(s: seq<nat>, i: nat): (r: seq<nat>)
    ensures |r| == |s|
  {
    if i < |s| then s[i := s[i] + 1] else s
  }

  function Min(x: real, y: real): real {
    if x < y then x else y
  }

  /** Less than 0.16 from the best decision. */
  predicate IsCloseCubedecision(d: Decision) {
    d.optimal - Min(d.take, 1.0) < 0.16
  }

  /** The thresholds of a doubtful, a bad and a very bad move. */
  datatype Levels = Levels(doubtful: real, bad: real, veryBad: real)

  function Skill(r: real, lv: Levels): nat {
    if r < -lv.veryBad then 0 else if r < -lv.bad then 1 else if r < -lv.doubtful then 2 else 3
  }

  // --------------------------------------------------- one record's effect

  /** A missed double, above or below the cash point. */
  function CountMissed(t: Tally, d: Decision, cost: real -> real): Tally {
    var u := t.(anTotalCube := t.anTotalCube + 1, anCloseCube := t.anCloseCube + if IsCloseCubedecision(d) then 1 else 0);
    var r := d.noDouble - d.optimal;
    if d.noDouble >= d.optimal then u
    else if d.take > 1.0 then u.(missedTG := u.missedTG + 1, arMissedTG := Minus(u.arMissedTG, r, cost(r)))
    else u.(missedDP := u.missedDP + 1, arMissedDP := Minus(u.arMissedDP, r, cost(r)))
  }

  /** A double, wrong if the better reply to it is worth less than the best decision. */
  function CountDouble(t: Tally, d: Decision, cost: real -> real): Tally {
    var u := t.(anTotalCube := t.anTotalCube + 1, anDouble := t.anDouble + 1, anCloseCube := t.anCloseCube + 1);
    var r := if d.take < d.drop then d.take - d.optimal else d.drop - d.optimal;
    if r >= 0.0 then u
    else if d.noDouble > 1.0 then u.(wrongTG := u.wrongTG + 1, arWrongTG := Minus(u.arWrongTG, r, cost(r)))
    else u.(wrongDP := u.wrongDP + 1, arWrongDP := Minus(u.arWrongDP, r, cost(r)))
  }

  function CountTake(t: Tally, d: Decision, cost: real -> real): Tally {
    var u := t.(anTotalCube := t.anTotalCube + 1, anTake := t.anTake + 1, anCloseCube := t.anCloseCube + 1);
    var r := -d.take + d.drop;
    if r >= 0.0 then u else u.(wrongTake := u.wrongTake + 1, arWrongTake := Minus(u.arWrongTake, r, cost(r)))
  }

  function CountPass(t: Tally, d: Decision, cost: real -> real): Tally {
    var u := t.(anTotalCube := t.anTotalCube + 1, anPass := t.anPass + 1, anCloseCube := t.anCloseCube + 1);
    var r := -d.drop + d.take;
    if r >= 0.0 then u else u.(wrongPass := u.wrongPass + 1, arWrongPass := Minus(u.arWrongPass, r, cost(r)))
  }

  function CountMove(t: Tally, c: Chequer, cMoves: nat, cost: real -> real, lv: Levels): Tally {
    var u := t.(anTotalMoves := t.anTotalMoves + 1);
    if c.Unmarked? then u.(anMoves := Bump(u.anMoves, 3))
    else
      var v := u.(anMoves := Bump(u.anMoves, Skill(c.rSkill, lv)));
      if cMoves > 1 then
        v.(anUnforcedMoves := v.anUnforcedMoves + 1, arCheckerplay := Minus(v.arCheckerplay, c.rSkill, cost(c.rSkill)))
      else v
  }

  function CountLuck(t: Tally, l: Luck, cost: real -> real): Tally {
    if l.NoLuck? then t
    else t.(arLuck := Plus(t.arLuck, (l.rLuck, cost(l.rLuck))), anLuck := Bump(t.anLuck, l.lt))
  }

  /** A roll's luck moves the adjusted result from one player to the other. */
  function AdjustForLuck(adj: seq<real>, f: nat, l: Luck, cost: real -> real): (r: seq<real>)
    requires |adj| == 2 && f < 2
    ensures |r| == 2
  {
    if l.NoLuck? then adj
    else adj[f := adj[f] - cost(l.rLuck)][1 - f := adj[1 - f] + cost(l.rLuck)]
  }

  predicate Sized(s: Stats) {
    && |s.tally| == 2 && |s.arActualResult| == 2 && |s.arLuckAdj| == 2
    && |s.arVarianceActual| == 2 && |s.arVarianceLuckAdj| == 2
  }

  const NO_COST: Cost := (0.0, 0.0)

  function EmptyTally(): Tally {
    Tally(0, 0, 0, 0, 0, 0, 0, [0, 0, 0, 0], [0, 0, 0, 0, 0], 0, 0, 0, 0, 0, 0,
          NO_COST, NO_COST, NO_COST, NO_COST, NO_COST, NO_COST, NO_COST, NO_COST)
  }

  function Empty(): Stats {
    Stats(0, false, false, false, [EmptyTally(), EmptyTally()], [0.0, 0.0], [0.0, 0.0], [0.0, 0.0], [0.0, 0.0])
  }

  type Sheet = s: Stats | Sized(s) witness Empty()

  /** The records the analysis produces. */
  predicate IsRecord(r: Record) {
    match r
    case GameInfo(w, _, _, _) => -1 <= w <= 1
    case Normal(f, _, l, _, _, _) => f < 2 && (l.Luck? ==> l.lt < N_LUCKS)
    case Doubled(f, _, _, _) => f < 2
    case Taken(f, _, _, _) => f < 2
    case Dropped(f, _, _) => f < 2
    case SetDice(f, l, _) => f < 2 && (l.Luck? ==> l.lt < N_LUCKS)
    case Other => true
  }

  /** The result of the game, for player 0 and for player 1. */
  function Results(w: int, nMatch: nat, nPoints: nat, gain: real): seq<real> {
    var r := if nMatch > 0 then gain else nPoints as real;
    if w == 0 then [r, -r] else if w == 1 then [-r, r] else [0.0, 0.0]
  }

  function WithTally(s: Stats, f: nat, t: Tally): Stats
    requires |s.tally| == 2 && f < 2
  {
    s.(tally := s.tally[f := t])
  }

  /** The statistics after one more record. */
  function UpdatedBy(s: Stats, r: Record, lv: Levels): Stats
    requires Sized(s) && IsRecord(r)
  {
    match r
    case GameInfo(w, nMatch, nPoints, gain) =>
      s.(arActualResult := Results(w, nMatch, nPoints, gain), arLuckAdj := Results(w, nMatch, nPoints, gain))
    case Normal(f, cube, luck, chequer, cMoves, cost) =>
      var t := if cube.Cube? then CountMissed(s.tally[f], cube.d, cost) else s.tally[f];
      var u := CountMove(CountLuck(t, luck, cost), chequer, cMoves, cost, lv);
      WithTally(s, f, u).(arLuckAdj := AdjustForLuck(s.arLuckAdj, f, luck, cost))
    case Doubled(f, normal, cube, cost) =>
      if normal && cube.Cube? then WithTally(s, f, CountDouble(s.tally[f], cube.d, cost)) else s
    case Taken(f, normal, cube, cost) =>
      if normal && cube.Cube? then WithTally(s, f, CountTake(s.tally[f], cube.d, cost)) else s
    case Dropped(f, cube, cost) =>
      if cube.Cube? then WithTally(s, f, CountPass(s.tally[f], cube.d, cost)) else s
    case SetDice(f, luck, cost) =>
      WithTally(s, f, CountLuck(s.tally[f], luck, cost)).(arLuckAdj := AdjustForLuck(s.arLuckAdj, f, luck, cost))
    case Other => s
  }

  // ------------------------------------------------------------ the invariants

  function Count(s: seq<nat>): nat {
    if s == [] then 0 else Count(s[..|s| - 1]) + s[|s| - 1]
  }

  lemma {:induction false} BumpCounts(s: seq<nat>, i: nat)
    requires i < |s|
    ensures Count(Bump(s, i)) == Count(s) + 1
  {
    var n := |s| - 1;
    if i < n {
      BumpCounts(s[..n], i);
      assert Bump(s, i)[..n] == Bump(s[..n], i);
    } else {
      assert Bump(s, i)[..n] == s[..n];
    }
  }

  /** There is no cost without a decision. */
  predicate Caused(n: nat, c: Cost) {
    n == 0 ==> c == (0.0, 0.0)
  }

  /** The cost of errors is never a gain, and there is none without an error. */
  predicate Charged(n: nat, c: Cost) {
    c.0 >= 0.0 && Caused(n, c)
  }

  /** The counters of one player fit together. */
  predicate Consistent(t: Tally) {
    && |t.anMoves| == N_SKILLS && |t.anLuck| == N_LUCKS
    && Count(t.anMoves) == t.anTotalMoves && t.anUnforcedMoves <= t.anTotalMoves
    && t.anDouble + t.anTake + t.anPass <= t.anCloseCube <= t.anTotalCube
    && t.missedDP + t.missedTG + t.anDouble + t.anTake + t.anPass <= t.anTotalCube
    && t.wrongDP + t.wrongTG <= t.anDouble && t.wrongTake <= t.anTake && t.wrongPass <= t.anPass
    && Caused(t.anUnforcedMoves, t.arCheckerplay)
    && Charged(t.missedDP, t.arMissedDP) && Charged(t.missedTG, t.arMissedTG)
    && Charged(t.wrongDP, t.arWrongDP) && Charged(t.wrongTG, t.arWrongTG)
    && Charged(t.wrongTake, t.arWrongTake) && Charged(t.wrongPass, t.arWrongPass)
  }

  /** What one player won the other lost, with and without luck. */
  predicate ZeroSum(s: Stats) {
    Sized(s) && s.arActualResult[0] + s.arActualResult[1] == 0.0 && s.arLuckAdj[0] + s.arLuckAdj[1] == 0.0
  }

  /** The adjusted result is the result without one's own luck and the opponent's. */
  predicate Accounted(s: Stats) {
    && Sized(s)
    && s.arLuckAdj[0] == s.arActualResult[0] - s.tally[0].arLuck.1 + s.tally[1].arLuck.1
    && s.arLuckAdj[1] == s.arActualResult[1] - s.tally[1].arLuck.1 + s.tally[0].arLuck.1
  }

  predicate Sound(s: Stats) {
    Sized(s) && Consistent(s.tally[0]) && Consistent(s.tally[1]) && ZeroSum(s) && Accounted(s)
  }

  predicate NoLuckYet(s: Stats) {
    Sized(s) && s.tally[0].arLuck == (0.0, 0.0) && s.tally[1].arLuck == (0.0, 0.0)
  }

  lemma CubeCountersStay(t: Tally, d: Decision, cost: real -> real)
    requires Consistent(t)
    ensures Consistent(CountMissed(t, d, cost)) && Consistent(CountDouble(t, d, cost))
  {
    hide Count, IsCloseCubedecision;
  }

  lemma ReplyCountersStay(t: Tally, d: Decision, cost: real -> real)
    requires Consistent(t)
    ensures Consistent(CountTake(t, d, cost)) && Consistent(CountPass(t, d, cost))
  {
    hide Count;
  }

  lemma MoveCountersStay(t: Tally, c: Chequer, l: Luck, cMoves: nat, cost: real -> real, lv: Levels)
    requires Consistent(t) && (l.Luck? ==> l.lt < N_LUCKS)
    ensures Consistent(CountMove(t, c, cMoves, cost, lv)) && Consistent(CountLuck(t, l, cost))
  {
    hide Count;
    BumpCounts(t.anMoves, 3);
    if c.Chequer? {
      BumpCounts(t.anMoves, Skill(c.rSkill, lv));
    }
  }

  /** The cube and the move leave the luck alone. */
  lemma LuckIsSeparate(t: Tally, d: Decision, l: Luck, c: Chequer, cMoves: nat, cost: real -> real, lv: Levels)
    ensures CountMissed(t, d, cost).arLuck == CountDouble(t, d, cost).arLuck == t.arLuck
    ensures CountTake(t, d, cost).arLuck == CountPass(t, d, cost).arLuck == t.arLuck
    ensures CountMove(t, c, cMoves, cost, lv).arLuck == t.arLuck
    ensures CountLuck(t, l, cost).arLuck == if l.NoLuck? then t.arLuck else Plus(t.arLuck, (l.rLuck, cost(l.rLuck)))
  {
  }

  lemma NormalStaysSound(s: Stats, r: Record, lv: Levels)
    requires Sound(s) && IsRecord(r) && r.Normal?
    ensures Sound(UpdatedBy(s, r, lv))
  {
    hide Consistent, CountMissed, CountMove, CountLuck;
    var t := if r.cube.Cube? then CountMissed(s.tally[r.fPlayer], r.cube.d, r.cost) else s.tally[r.fPlayer];
    if r.cube.Cube? {
      CubeCountersStay(s.tally[r.fPlayer], r.cube.d, r.cost);
      LuckIsSeparate(s.tally[r.fPlayer], r.cube.d, r.luck, r.chequer, r.cMoves, r.cost, lv);
    }
    MoveCountersStay(t, Unmarked, r.luck, r.cMoves, r.cost, lv);
    var u := CountLuck(t, r.luck, r.cost);
    MoveCountersStay(u, r.chequer, NoLuck, r.cMoves, r.cost, lv);
    LuckIsSeparate(t, Decision(0.0, 0.0, 0.0, 0.0), r.luck, r.chequer, r.cMoves, r.cost, lv);
    LuckIsSeparate(u, Decision(0.0, 0.0, 0.0, 0.0), r.luck, r.chequer, r.cMoves, r.cost, lv);
  }

  lemma CubeStaysSound(s: Stats, r: Record, lv: Levels)
    requires Sound(s) && IsRecord(r) && (r.Doubled? || r.Taken? || r.Dropped?)
    ensures Sound(UpdatedBy(s, r, lv))
  {
    hide Consistent, CountDouble, CountTake, CountPass;
    if r.cube.Cube? {
      CubeCountersStay(s.tally[r.fPlayer], r.cube.d, r.cost);
      ReplyCountersStay(s.tally[r.fPlayer], r.cube.d, r.cost);
      LuckIsSeparate(s.tally[r.fPlayer], r.cube.d, NoLuck, Unmarked, 0, r.cost, lv);
    }
  }

  lemma DiceStaySound(s: Stats, r: Record, lv: Levels)
    requires Sound(s) && IsRecord(r) && r.SetDice?
    ensures Sound(UpdatedBy(s, r, lv))
  {
    hide Consistent, CountLuck;
    MoveCountersStay(s.tally[r.fPlayer], Unmarked, r.luck, 0, r.cost, lv);
    LuckIsSeparate(s.tally[r.fPlayer], Decision(0.0, 0.0, 0.0, 0.0), r.luck, Unmarked, 0, r.cost, lv);
  }

  /** Every record but the game's header keeps the statistics sound. */
  lemma RecordKeepsSound(s: Stats, r: Record, lv: Levels)
    requires Sound(s) && IsRecord(r) && (r.GameInfo? ==> NoLuckYet(s))
    ensures Sound(UpdatedBy(s, r, lv))
  {
    hide Consistent, Sound;
    match r
    case GameInfo(w, nMatch, nPoints, gain) =>
      HeaderIsSound(s, r, lv);
    case Normal(_, _, _, _, _, _) => NormalStaysSound(s, r, lv);
    case Doubled(_, _, _, _) => CubeStaysSound(s, r, lv);
    case Taken(_, _, _, _) => CubeStaysSound(s, r, lv);
    case Dropped(_, _, _) => CubeStaysSound(s, r, lv);
    case SetDice(_, _, _) => DiceStaySound(s, r, lv);
    case Other =>
  }

  lemma HeaderIsSound(s: Stats, r: Record, lv: Levels)
    requires Sound(s) && IsRecord(r) && r.GameInfo? && NoLuckYet(s)
    ensures Sound(UpdatedBy(s, r, lv))
  {
    hide Consistent;
  }

  // ------------------------------------------------------------- whole games

  lemma EmptyIsSound()
    ensures Sound(Empty()) && NoLuckYet(Empty())
  {
    assert Count([0, 0, 0, 0]) == 0 by {
      ZeroCount([0, 0, 0, 0]);
    }
  }

  lemma {:induction false} ZeroCount(s: seq<nat>)
    requires forall i :: 0 <= i < |s| ==> s[i] == 0
    ensures Count(s) == 0
  {
    if s != [] {
      ZeroCount(s[..|s| - 1]);
    }
  }

  /** A game's records: its header comes first. */
  predicate IsGame(rs: seq<Record>) {
    && (forall k :: 0 <= k < |rs| ==> IsRecord(rs[k]))
    && forall k :: 1 <= k < |rs| ==> !rs[k].GameInfo?
  }

  function Played(rs: seq<Record>, lv: Levels): (s: Stats)
    requires IsGame(rs)
    ensures Sized(s)
  {
    if rs == [] then Empty() else UpdatedBy(Played(rs[..|rs| - 1], lv), rs[|rs| - 1], lv)
  }

  /** Over every game, whatever was played and analysed. */
  lemma {:induction false} GameIsSound(rs: seq<Record>, lv: Levels)
    requires IsGame(rs)
    ensures Sound(Played(rs, lv))
  {
    hide Sound, UpdatedBy, NoLuckYet;
    EmptyIsSound();
    if rs != [] {
      GameIsSound(rs[..|rs| - 1], lv);
      if rs[|rs| - 1].GameInfo? {
        assert |rs| == 1;
        assert rs[..0] == [];
      }
      RecordKeepsSound(Played(rs[..|rs| - 1], lv), rs[|rs| - 1], lv);
    }
  }

  // ----------------------------------------------- the cost of chequer play

  /** What the analysed, unforced moves of player f gained on the first move of their
      lists. */
  function Gained(rs: seq<Record>, f: nat): real {
    if rs == [] then 0.0
    else
      var r := rs[|rs| - 1];
      Gained(rs[..|rs| - 1], f)
      + if r.Normal? && r.fPlayer == f && r.cMoves > 1 && r.chequer.Chequer? then r.chequer.rSkill else 0.0
  }

  lemma MoveGains(s: Stats, r: Record, lv: Levels, f: nat)
    requires Sized(s) && IsRecord(r) && f < 2
    ensures UpdatedBy(s, r, lv).tally[f].arCheckerplay.0
         == s.tally[f].arCheckerplay.0
            - if r.Normal? && r.fPlayer == f && r.cMoves > 1 && r.chequer.Chequer? then r.chequer.rSkill else 0.0
  {
    hide IsCloseCubedecision, Skill, AdjustForLuck, Results;
  }

  /** The chequer-play error of a game is what its moves lost, and so not negative exactly
      if they gained nothing in all. */
  lemma {:induction false} CheckerplayIsLoss(rs: seq<Record>, lv: Levels, f: nat)
    requires IsGame(rs) && f < 2
    ensures Played(rs, lv).tally[f].arCheckerplay.0 == -Gained(rs, f)
    ensures Played(rs, lv).tally[f].arCheckerplay.0 >= 0.0 <==> Gained(rs, f) <= 0.0
  {
    hide UpdatedBy, IsRecord;
    if rs != [] {
      CheckerplayIsLoss(rs[..|rs| - 1], lv, f);
      MoveGains(Played(rs[..|rs| - 1], lv), rs[|rs| - 1], lv, f);
    }
  }

  /** It is not negative if the first move of each list is its best. */
  lemma {:induction false} NothingGained(rs: seq<Record>, f: nat)
    requires forall k :: 0 <= k < |rs| && rs[k].Normal? && rs[k].chequer.Chequer? ==> rs[k].chequer.rSkill <= 0.0
    ensures Gained(rs, f) <= 0.0
  {
    if rs != [] {
      NothingGained(rs[..|rs| - 1], f);
    }
  }

  /** A move list headed by a worse move that was rolled out: the error is negative. */
  lemma GainIsNegativeError(cost: real -> real, lv: Levels)
    ensures var rs := [Normal(0, NoCube, NoLuck, Chequer(0.1), 2, cost)];
            IsGame(rs) && Played(rs, lv).tally[0].arCheckerplay.0 == -0.1
  {
    var r := Normal(0, NoCube, NoLuck, Chequer(0.1), 2, cost);
    assert [r][..0] == [];
    assert Gained([r], 0) == 0.1;
    CheckerplayIsLoss([r], lv, 0);
  }

  // ------------------------------------------------- what the counters count

  /** What a record may show of a player. */
  datatype Event =
    | AnyMove | ChoseMove | MoveOfSkill(skill: nat) | RollOfLuck(lt: nat) | AnyLuck
    | Doubled | Taken | Passed | CubeDecision | CloseDecision
    | MissedDouble(above: bool) | WrongDouble(above: bool) | WrongTake | WrongPass

  predicate Decided(r: Record, f: nat) {
    match r
    case Normal(p, cube, _, _, _, _) => p == f && cube.Cube?
    case Doubled(p, normal, cube, _) => p == f && normal && cube.Cube?
    case Taken(p, normal, cube, _) => p == f && normal && cube.Cube?
    case Dropped(p, cube, _) => p == f && cube.Cube?
    case _ => false
  }

  predicate Rolled(r: Record, f: nat) {
    match r
    case Normal(p, _, luck, _, _, _) => p == f && luck.Luck?
    case SetDice(p, luck, _) => p == f && luck.Luck?
    case _ => false
  }

  /** A move is the worse the more equity it gives up. */
  predicate HasSkill(c: Chequer, skill: nat, lv: Levels) {
    var lost := if c.Unmarked? then 0.0 else -c.rSkill;
    match skill
    case 0 => c.Chequer? && lost > lv.veryBad
    case 1 => c.Chequer? && lost <= lv.veryBad && lost > lv.bad
    case 2 => c.Chequer? && lost <= lv.veryBad && lost <= lv.bad && lost > lv.doubtful
    case 3 => c.Unmarked? || (lost <= lv.veryBad && lost <= lv.bad && lost <= lv.doubtful)
    case _ => false
  }

  predicate Is(r: Record, f: nat, v: Event, lv: Levels) {
    match v
    case AnyMove => r.Normal? && r.fPlayer == f
    case ChoseMove => r.Normal? && r.fPlayer == f && r.chequer.Chequer? && r.cMoves > 1
    case MoveOfSkill(k) => r.Normal? && r.fPlayer == f && HasSkill(r.chequer, k, lv)
    case AnyLuck => Rolled(r, f)
    case RollOfLuck(k) => Rolled(r, f) && r.luck.lt == k
    case CubeDecision => Decided(r, f)
    case Doubled => Decided(r, f) && r.Doubled?
    case Taken => Decided(r, f) && r.Taken?
    case Passed => Decided(r, f) && r.Dropped?
    // whatever was offered or answered, and what was not offered if a double loses less than 0.16
    case CloseDecision =>
      Decided(r, f) && (r.Normal? ==> r.cube.d.optimal - r.cube.d.take < 0.16 && r.cube.d.optimal - 1.0 < 0.16)
    // it was a double, to be passed if above
    case MissedDouble(above) =>
      Decided(r, f) && r.Normal? && r.cube.d.optimal > r.cube.d.noDouble && (r.cube.d.take > 1.0 <==> above)
    // it was none: the opponent's better reply costs the doubler, who was too good if above
    case WrongDouble(above) =>
      && Decided(r, f) && r.Doubled? && (r.cube.d.optimal > r.cube.d.take || r.cube.d.optimal > r.cube.d.drop)
      && (r.cube.d.noDouble > 1.0 <==> above)
    // the doubler gains by it
    case WrongTake => Decided(r, f) && r.Taken? && r.cube.d.take > r.cube.d.drop
    case WrongPass => Decided(r, f) && r.Dropped? && r.cube.d.drop > r.cube.d.take
  }

  ghost function HowMany(rs: seq<Record>, f: nat, v: Event, lv: Levels): nat {
    if rs == [] then 0 else HowMany(rs[..|rs| - 1], f, v, lv) + if Is(rs[|rs| - 1], f, v, lv) then 1 else 0
  }

  /** What a record gives up, in equity, as an event of its kind. */
  function GivenUp(r: Record): real {
    match r
    case Normal(_, Cube(d), _, _, _, _) => d.optimal - d.noDouble
    case Doubled(_, _, Cube(d), _) => if d.take < d.drop then d.optimal - d.take else d.optimal - d.drop
    case Taken(_, _, Cube(d), _) => d.take - d.drop
    case Dropped(_, Cube(d), _) => d.drop - d.take
    case _ => 0.0
  }

  /** What it is in points or match chances. */
  function GivenUpCost(r: Record): real {
    match r
    case Normal(_, _, _, _, _, cost) => -cost(-GivenUp(r))
    case Doubled(_, _, _, cost) => -cost(-GivenUp(r))
    case Taken(_, _, _, cost) => -cost(-GivenUp(r))
    case Dropped(_, _, cost) => -cost(-GivenUp(r))
    case _ => 0.0
  }

  ghost function Lost(rs: seq<Record>, f: nat, v: Event, lv: Levels): Cost {
    if rs == [] then NO_COST
    else
      var r := rs[|rs| - 1];
      if Is(r, f, v, lv) then Plus(Lost(rs[..|rs| - 1], f, v, lv), (GivenUp(r), GivenUpCost(r))) else Lost(rs[..|rs| - 1], f, v, lv)
  }

  /** The luck of a record, in equity and in points or match chances. */
  function LuckIn(r: Record): Cost {
    match r
    case Normal(_, _, Luck(x, _), _, _, cost) => (x, cost(x))
    case SetDice(_, Luck(x, _), cost) => (x, cost(x))
    case _ => NO_COST
  }

  ghost function LuckSum(rs: seq<Record>, f: nat, lv: Levels): Cost {
    if rs == [] then NO_COST
    else
      var r := rs[|rs| - 1];
      if Is(r, f, AnyLuck, lv) then Plus(LuckSum(rs[..|rs| - 1], f, lv), LuckIn(r)) else LuckSum(rs[..|rs| - 1], f, lv)
  }

  /** The tally counts the moves of the records. */
  ghost predicate CountsMoves(t: Tally, rs: seq<Record>, f: nat, lv: Levels) {
    && t.anTotalMoves == HowMany(rs, f, AnyMove, lv) && t.anUnforcedMoves == HowMany(rs, f, ChoseMove, lv)
    && |t.anMoves| == N_SKILLS && (forall k :: 0 <= k < N_SKILLS ==> t.anMoves[k] == HowMany(rs, f, MoveOfSkill(k), lv))
    && |t.anLuck| == N_LUCKS && (forall k :: 0 <= k < N_LUCKS ==> t.anLuck[k] == HowMany(rs, f, RollOfLuck(k), lv))
    && t.arLuck == LuckSum(rs, f, lv)
  }

  /** The tally counts the cube decisions of the records. */
  ghost predicate CountsCube(t: Tally, rs: seq<Record>, f: nat, lv: Levels) {
    && t.anTotalCube == HowMany(rs, f, CubeDecision, lv) && t.anCloseCube == HowMany(rs, f, CloseDecision, lv)
    && t.anDouble == HowMany(rs, f, Event.Doubled, lv) && t.anTake == HowMany(rs, f, Event.Taken, lv)
    && t.anPass == HowMany(rs, f, Passed, lv)
  }

  /** ... and the errors among them, with what they gave up. */
  ghost predicate CountsErrors(t: Tally, rs: seq<Record>, f: nat, lv: Levels) {
    CountsMissed(t, rs, f, lv) && CountsWrong(t, rs, f, lv) && CountsReplies(t, rs, f, lv)
  }

  ghost predicate CountsMissed(t: Tally, rs: seq<Record>, f: nat, lv: Levels) {
    && t.missedDP == HowMany(rs, f, MissedDouble(false), lv) && t.arMissedDP == Lost(rs, f, MissedDouble(false), lv)
    && t.missedTG == HowMany(rs, f, MissedDouble(true), lv) && t.arMissedTG == Lost(rs, f, MissedDouble(true), lv)
  }

  ghost predicate CountsWrong(t: Tally, rs: seq<Record>, f: nat, lv: Levels) {
    && t.wrongDP == HowMany(rs, f, WrongDouble(false), lv) && t.arWrongDP == Lost(rs, f, WrongDouble(false), lv)
    && t.wrongTG == HowMany(rs, f, WrongDouble(true), lv) && t.arWrongTG == Lost(rs, f, WrongDouble(true), lv)
  }

  ghost predicate CountsReplies(t: Tally, rs: seq<Record>, f: nat, lv: Levels) {
    && t.wrongTake == HowMany(rs, f, WrongTake, lv) && t.arWrongTake == Lost(rs, f, WrongTake, lv)
    && t.wrongPass == HowMany(rs, f, WrongPass, lv) && t.arWrongPass == Lost(rs, f, WrongPass, lv)
  }

  lemma CountsOneMore(rs: seq<Record>, r: Record, f: nat, v: Event, lv: Levels)
    ensures HowMany(rs + [r], f, v, lv) == HowMany(rs, f, v, lv) + if Is(r, f, v, lv) then 1 else 0
    ensures Lost(rs + [r], f, v, lv)
         == if Is(r, f, v, lv) then Plus(Lost(rs, f, v, lv), (GivenUp(r), GivenUpCost(r))) else Lost(rs, f, v, lv)
    ensures LuckSum(rs + [r], f, lv)
         == if Is(r, f, AnyLuck, lv) then Plus(LuckSum(rs, f, lv), LuckIn(r)) else LuckSum(rs, f, lv)
  {
    assert (rs + [r])[..|rs|] == rs;
  }

  /** The tally of player f after a record. */
  function TallyAfter(t: Tally, r: Record, f: nat, lv: Levels): Tally {
    match r
    case Normal(p, cube, luck, chequer, cMoves, cost) =>
      if p != f then t
      else CountMove(CountLuck(if cube.Cube? then CountMissed(t, cube.d, cost) else t, luck, cost), chequer, cMoves, cost, lv)
    case Doubled(p, normal, cube, cost) => if p == f && normal && cube.Cube? then CountDouble(t, cube.d, cost) else t
    case Taken(p, normal, cube, cost) => if p == f && normal && cube.Cube? then CountTake(t, cube.d, cost) else t
    case Dropped(p, cube, cost) => if p == f && cube.Cube? then CountPass(t, cube.d, cost) else t
    case SetDice(p, luck, cost) => if p == f then CountLuck(t, luck, cost) else t
    case _ => t
  }

  lemma TallyIsAfter(s: Stats, r: Record, lv: Levels, f: nat)
    requires Sized(s) && IsRecord(r) && f < 2
    ensures UpdatedBy(s, r, lv).tally[f] == TallyAfter(s.tally[f], r, f, lv)
  {
    hide CountMissed, CountMove, CountLuck, CountDouble, CountTake, CountPass, AdjustForLuck, Results;
  }

  lemma SkillIs(c: Chequer, lv: Levels)
    ensures c.Chequer? ==> Skill(c.rSkill, lv) < N_SKILLS
    ensures forall k :: 0 <= k < N_SKILLS ==> (HasSkill(c, k, lv) <==> k == if c.Unmarked? then 3 else Skill(c.rSkill, lv))
  {
  }

  lemma MovesCountOn(t: Tally, rs: seq<Record>, r: Record, lv: Levels, f: nat)
    requires IsRecord(r) && CountsMoves(t, rs, f, lv)
    ensures CountsMoves(TallyAfter(t, r, f, lv), rs + [r], f, lv)
  {
    TotalsCountOn(t, rs, r, lv, f);
    SkillsCountOn(t, rs, r, lv, f);
    LuckCountsOn(t, rs, r, lv, f);
    hide HowMany, LuckSum, TallyAfter;
  }

  lemma TotalsCountOn(t: Tally, rs: seq<Record>, r: Record, lv: Levels, f: nat)
    requires IsRecord(r) && CountsMoves(t, rs, f, lv)
    ensures TallyAfter(t, r, f, lv).anTotalMoves == HowMany(rs + [r], f, AnyMove, lv)
    ensures TallyAfter(t, r, f, lv).anUnforcedMoves == HowMany(rs + [r], f, ChoseMove, lv)
  {
    CountsOneMore(rs, r, f, AnyMove, lv);
    CountsOneMore(rs, r, f, ChoseMove, lv);
    hide HowMany, LuckSum, Skill, HasSkill, IsCloseCubedecision;
  }

  lemma SkillBumped(t: Tally, r: Record, lv: Levels, f: nat)
    ensures TallyAfter(t, r, f, lv).anMoves
         == if r.Normal? && r.fPlayer == f then Bump(t.anMoves, if r.chequer.Unmarked? then 3 else Skill(r.chequer.rSkill, lv))
            else t.anMoves
  {
    hide Skill, IsCloseCubedecision, Bump;
  }

  lemma SkillsCountOn(t: Tally, rs: seq<Record>, r: Record, lv: Levels, f: nat)
    requires IsRecord(r) && CountsMoves(t, rs, f, lv)
    ensures var u := TallyAfter(t, r, f, lv);
            |u.anMoves| == N_SKILLS && forall k :: 0 <= k < N_SKILLS ==> u.anMoves[k] == HowMany(rs + [r], f, MoveOfSkill(k), lv)
  {
    if r.Normal? {
      SkillIs(r.chequer, lv);
    }
    SkillBumped(t, r, lv, f);
    hide HowMany, Lost, LuckSum, Skill, HasSkill, TallyAfter;
    forall k | 0 <= k < N_SKILLS ensures TallyAfter(t, r, f, lv).anMoves[k] == HowMany(rs + [r], f, MoveOfSkill(k), lv) {
      CountsOneMore(rs, r, f, MoveOfSkill(k), lv);
    }
  }

  lemma LuckCountsOn(t: Tally, rs: seq<Record>, r: Record, lv: Levels, f: nat)
    requires IsRecord(r) && CountsMoves(t, rs, f, lv)
    ensures var u := TallyAfter(t, r, f, lv);
            && |u.anLuck| == N_LUCKS && (forall k :: 0 <= k < N_LUCKS ==> u.anLuck[k] == HowMany(rs + [r], f, RollOfLuck(k), lv))
            && u.arLuck == LuckSum(rs + [r], f, lv)
  {
    CountsOneMore(rs, r, f, AnyLuck, lv);
    hide HowMany, Lost, LuckSum, Skill, HasSkill;
    forall k | 0 <= k < N_LUCKS ensures TallyAfter(t, r, f, lv).anLuck[k] == HowMany(rs + [r], f, RollOfLuck(k), lv) {
      CountsOneMore(rs, r, f, RollOfLuck(k), lv);
    }
  }

  lemma CubeCountsOn(t: Tally, rs: seq<Record>, r: Record, lv: Levels, f: nat)
    requires IsRecord(r) && CountsCube(t, rs, f, lv)
    ensures CountsCube(TallyAfter(t, r, f, lv), rs + [r], f, lv)
  {
    CountsOneMore(rs, r, f, CubeDecision, lv);
    CountsOneMore(rs, r, f, CloseDecision, lv);
    CountsOneMore(rs, r, f, Event.Doubled, lv);
    CountsOneMore(rs, r, f, Event.Taken, lv);
    CountsOneMore(rs, r, f, Passed, lv);
    hide HowMany, Lost, LuckSum, Skill;
  }

  lemma MissedCountOn(t: Tally, rs: seq<Record>, r: Record, lv: Levels, f: nat)
    requires IsRecord(r) && CountsMissed(t, rs, f, lv)
    ensures CountsMissed(TallyAfter(t, r, f, lv), rs + [r], f, lv)
  {
    CountsOneMore(rs, r, f, MissedDouble(false), lv);
    CountsOneMore(rs, r, f, MissedDouble(true), lv);
    hide HowMany, Lost, LuckSum, Skill, IsCloseCubedecision;
  }

  lemma WrongCountOn(t: Tally, rs: seq<Record>, r: Record, lv: Levels, f: nat)
    requires IsRecord(r) && CountsWrong(t, rs, f, lv)
    ensures CountsWrong(TallyAfter(t, r, f, lv), rs + [r], f, lv)
  {
    CountsOneMore(rs, r, f, WrongDouble(false), lv);
    CountsOneMore(rs, r, f, WrongDouble(true), lv);
    hide HowMany, Lost, LuckSum, Skill, IsCloseCubedecision;
  }

  lemma RepliesCountOn(t: Tally, rs: seq<Record>, r: Record, lv: Levels, f: nat)
    requires IsRecord(r) && CountsReplies(t, rs, f, lv)
    ensures CountsReplies(TallyAfter(t, r, f, lv), rs + [r], f, lv)
  {
    CountsOneMore(rs, r, f, WrongTake, lv);
    CountsOneMore(rs, r, f, WrongPass, lv);
    hide HowMany, Lost, LuckSum, Skill, IsCloseCubedecision;
  }

  lemma ErrorsCountOn(t: Tally, rs: seq<Record>, r: Record, lv: Levels, f: nat)
    requires IsRecord(r) && CountsErrors(t, rs, f, lv)
    ensures CountsErrors(TallyAfter(t, r, f, lv), rs + [r], f, lv)
  {
    hide TallyAfter, CountsMissed, CountsWrong, CountsReplies;
    MissedCountOn(t, rs, r, lv, f);
    WrongCountOn(t, rs, r, lv, f);
    RepliesCountOn(t, rs, r, lv, f);
  }

  ghost predicate Counts(t: Tally, rs: seq<Record>, f: nat, lv: Levels) {
    CountsMoves(t, rs, f, lv) && CountsCube(t, rs, f, lv) && CountsErrors(t, rs, f, lv)
  }

  lemma AllCountOn(s: Stats, rs: seq<Record>, r: Record, lv: Levels, f: nat)
    requires Sized(s) && IsRecord(r) && f < 2 && Counts(s.tally[f], rs, f, lv)
    ensures Counts(UpdatedBy(s, r, lv).tally[f], rs + [r], f, lv)
  {
    hide CountsMoves, CountsCube, CountsErrors, UpdatedBy, IsRecord, TallyAfter;
    TallyIsAfter(s, r, lv, f);
    MovesCountOn(s.tally[f], rs, r, lv, f);
    CubeCountsOn(s.tally[f], rs, r, lv, f);
    ErrorsCountOn(s.tally[f], rs, r, lv, f);
  }

  lemma NothingCounted(f: nat, lv: Levels)
    requires f < 2
    ensures Counts(Played([], lv).tally[f], [], f, lv)
  {
  }

  /** Every counter of a game's tally is the number of records it is meant to count, and
      every error what those records gave up. */
  lemma {:induction false} GameIsCounted(rs: seq<Record>, lv: Levels, f: nat)
    requires IsGame(rs) && f < 2
    ensures Counts(Played(rs, lv).tally[f], rs, f, lv)
  {
    if rs == [] {
      NothingCounted(f, lv);
    } else {
      var before, r := rs[..|rs| - 1], rs[|rs| - 1];
      assert before + [r] == rs;
      hide Counts, UpdatedBy, IsRecord;
      GameIsCounted(before, lv, f);
      AllCountOn(Played(before, lv), before, r, lv, f);
    }
  }

  /** The points, or match chances, player f won in the game the records are of. */
  function PointsWon(rs: seq<Record>, f: nat): real {
    if rs == [] || !rs[0].GameInfo? || rs[0].fWinner != f then 0.0
    else if rs[0].nMatch == 0 then rs[0].nPoints as real
    else rs[0].gain
  }

  /** The result of a game is what a player won less what the opponent won. */
  lemma {:induction false} ResultIsPointsWon(rs: seq<Record>, lv: Levels, f: nat)
    requires IsGame(rs) && f < 2
    ensures Played(rs, lv).arActualResult[f] == PointsWon(rs, f) - PointsWon(rs, 1 - f)
  {
    if |rs| == 1 {
      assert rs[..0] == [];
      hide CountMissed, CountMove, CountLuck, CountDouble, CountTake, CountPass, AdjustForLuck;
    } else if rs != [] {
      ResultIsPointsWon(rs[..|rs| - 1], lv, f);
      hide CountMissed, CountMove, CountLuck, CountDouble, CountTake, CountPass, AdjustForLuck, Results;
    }
  }

  // ------------------------------------------------------------ adding games

  function AddUp(s: seq<nat>, t: seq<nat>): (r: seq<nat>)
    ensures |r| == |t|
  {
    seq(|t|, i requires 0 <= i < |t| => t[i] + if i < |s| then s[i] else 0)
  }

  function AddTally(a: Tally, b: Tally): Tally {
    Tally(b.anUnforcedMoves + a.anUnforcedMoves, b.anTotalMoves + a.anTotalMoves, b.anTotalCube + a.anTotalCube,
          b.anCloseCube + a.anCloseCube, b.anDouble + a.anDouble, b.anTake + a.anTake, b.anPass + a.anPass,
          AddUp(a.anMoves, b.anMoves), AddUp(a.anLuck, b.anLuck),
          b.missedDP + a.missedDP, b.missedTG + a.missedTG, b.wrongDP + a.wrongDP, b.wrongTG + a.wrongTG,
          b.wrongTake + a.wrongTake, b.wrongPass + a.wrongPass,
          Plus(b.arCheckerplay, a.arCheckerplay), Plus(b.arMissedDP, a.arMissedDP), Plus(b.arMissedTG, a.arMissedTG),
          Plus(b.arWrongDP, a.arWrongDP), Plus(b.arWrongTG, a.arWrongTG), Plus(b.arWrongTake, a.arWrongTake),
          Plus(b.arWrongPass, a.arWrongPass), Plus(b.arLuck, a.arLuck))
  }

  /** The session `b` with game `a` added; results count only if one of them is not negative. */
  function Added(a: Stats, b: Stats): Stats
    requires Sized(a) && Sized(b)
  {
    var n := b.nGames + 1;
    var c := Stats(n, b.fMoves || a.fMoves, b.fDice || a.fDice, b.fCube || a.fCube,
                   [AddTally(a.tally[0], b.tally[0]), AddTally(a.tally[1], b.tally[1])],
                   b.arActualResult, b.arLuckAdj, b.arVarianceActual, b.arVarianceLuckAdj);
    if a.arActualResult[0] >= 0.0 || a.arActualResult[1] >= 0.0 then
      var x, y := [b.arActualResult[0] + a.arActualResult[0], b.arActualResult[1] + a.arActualResult[1]],
                  [b.arLuckAdj[0] + a.arLuckAdj[0], b.arLuckAdj[1] + a.arLuckAdj[1]];
      c.(arActualResult := x, arLuckAdj := y,
         arVarianceActual := [Updated(b.arVarianceActual[0], x[0], a.arActualResult[0], n),
                              Updated(b.arVarianceActual[1], x[1], a.arActualResult[1], n)],
         arVarianceLuckAdj := [Updated(b.arVarianceLuckAdj[0], y[0], a.arLuckAdj[0], n),
                               Updated(b.arVarianceLuckAdj[1], y[1], a.arLuckAdj[1], n)])
    else c
  }

  lemma AddedIs(a: Stats, b: Stats, c: Stats)
    requires Sized(a) && Sized(b) && c.nGames == b.nGames + 1
    requires c.fMoves == (b.fMoves || a.fMoves) && c.fDice == (b.fDice || a.fDice) && c.fCube == (b.fCube || a.fCube)
    requires c.tally == [AddTally(a.tally[0], b.tally[0]), AddTally(a.tally[1], b.tally[1])]
    requires if a.arActualResult[0] >= 0.0 || a.arActualResult[1] >= 0.0 then
               var x, y := c.arActualResult, c.arLuckAdj;
               && x == [b.arActualResult[0] + a.arActualResult[0], b.arActualResult[1] + a.arActualResult[1]]
               && y == [b.arLuckAdj[0] + a.arLuckAdj[0], b.arLuckAdj[1] + a.arLuckAdj[1]]
               && c.arVarianceActual == [Updated(b.arVarianceActual[0], x[0], a.arActualResult[0], c.nGames),
                                         Updated(b.arVarianceActual[1], x[1], a.arActualResult[1], c.nGames)]
               && c.arVarianceLuckAdj == [Updated(b.arVarianceLuckAdj[0], y[0], a.arLuckAdj[0], c.nGames),
                                          Updated(b.arVarianceLuckAdj[1], y[1], a.arLuckAdj[1], c.nGames)]
             else
               && c.arActualResult == b.arActualResult && c.arLuckAdj == b.arLuckAdj
               && c.arVarianceActual == b.arVarianceActual && c.arVarianceLuckAdj == b.arVarianceLuckAdj
    ensures c == Added(a, b)
  {
    hide AddTally, Updated;
  }

  lemma {:induction false} CountAdds(s: seq<nat>, t: seq<nat>)
    requires |s| == |t|
    ensures Count(AddUp(s, t)) == Count(s) + Count(t)
  {
    if s != [] {
      var n := |s| - 1;
      CountAdds(s[..n], t[..n]);
      assert AddUp(s, t)[..n] == AddUp(s[..n], t[..n]);
    }
  }

  lemma TalliesAdd(a: Tally, b: Tally)
    requires Consistent(a) && Consistent(b)
    ensures Consistent(AddTally(a, b))
  {
    CountAdds(a.anMoves, b.anMoves);
    hide Count, AddUp;
  }

  /** Adding a game keeps a session sound; the guard is always true. */
  lemma AddingKeepsSound(a: Stats, b: Stats)
    requires Sound(a) && Sound(b)
    ensures Sound(Added(a, b))
    ensures a.arActualResult[0] >= 0.0 || a.arActualResult[1] >= 0.0
  {
    TalliesAdd(a.tally[0], b.tally[0]);
    TalliesAdd(a.tally[1], b.tally[1]);
    hide Consistent;
  }

  function Session(games: seq<Sheet>): Sheet {
    if games == [] then Empty() else Added(games[|games| - 1], Session(games[..|games| - 1]))
  }

  function Column(games: seq<Sheet>, i: nat): seq<real>
    requires i < 2
  {
    seq(|games|, k requires 0 <= k < |games| => games[k].arActualResult[i])
  }

  function LuckColumn(games: seq<Sheet>, i: nat): seq<real>
    requires i < 2
  {
    seq(|games|, k requires 0 <= k < |games| => games[k].arLuckAdj[i])
  }

  /** Sums and running variances are those of the whole list of games. */
  predicate IsSummary(s: Sheet, games: seq<Sheet>) {
    && s.nGames == |games|
    && forall i :: 0 <= i < 2 ==>
         && s.arActualResult[i] == Sum(Column(games, i)) && s.arLuckAdj[i] == Sum(LuckColumn(games, i))
         && s.arVarianceActual[i] == SampleVariance(Column(games, i))
         && s.arVarianceLuckAdj[i] == SampleVariance(LuckColumn(games, i))
  }

  /** Over any sequence of games: the session stays sound, and its running variances are
      the sample variances of the results. */
  lemma {:induction false} SessionIsSummary(games: seq<Sheet>)
    requires forall k :: 0 <= k < |games| ==> Sound(games[k])
    ensures Sound(Session(games)) && IsSummary(Session(games), games)
  {
    hide Sum, SampleVariance, Updated, Consistent, Added, IsSummary, Sound;
    if games == [] {
      EmptyIsSound();
      NoSamples(games);
    } else {
      var n := |games| - 1;
      SessionIsSummary(games[..n]);
      AddingKeepsSound(games[n], Session(games[..n]));
      OneGameMore(games[..n], games[n], games, Session(games[..n]));
    }
  }

  function LossColumn(games: seq<Sheet>, f: nat): seq<real>
    requires f < 2
  {
    seq(|games|, k requires 0 <= k < |games| => games[k].tally[f].arCheckerplay.0)
  }

  lemma AddedLoss(a: Sheet, b: Sheet, f: nat)
    requires f < 2
    ensures Added(a, b).tally[f].arCheckerplay.0 == b.tally[f].arCheckerplay.0 + a.tally[f].arCheckerplay.0
  {
    hide Updated, AddUp;
  }

  /** The chequer-play error of a session is that of its games. */
  lemma {:induction false} SessionLoss(games: seq<Sheet>, f: nat)
    requires f < 2
    ensures Session(games).tally[f].arCheckerplay.0 == Sum(LossColumn(games, f))
  {
    hide Added;
    if games != [] {
      var n := |games| - 1;
      SessionLoss(games[..n], f);
      AddedLoss(games[n], Session(games[..n]), f);
      assert LossColumn(games, f)[..n] == LossColumn(games[..n], f);
    }
  }

  /** What player f won in all games. */
  function Winnings(games: seq<seq<Record>>, f: nat): real {
    if games == [] then 0.0 else Winnings(games[..|games| - 1], f) + PointsWon(games[|games| - 1], f)
  }

  /** The result of a session is what a player won less what the opponent won. */
  lemma {:induction false} SessionIsWinnings(games: seq<seq<Record>>, lv: Levels, sheets: seq<Sheet>, f: nat)
    requires |sheets| == |games| && f < 2
    requires forall k :: 0 <= k < |games| ==> IsGame(games[k]) && sheets[k] == Played(games[k], lv)
    ensures Sum(Column(sheets, f)) == Winnings(games, f) - Winnings(games, 1 - f)
  {
    hide IsGame, Played, PointsWon;
    if games != [] {
      var n := |games| - 1;
      SessionIsWinnings(games[..n], lv, sheets[..n], f);
      assert Column(sheets, f)[..n] == Column(sheets[..n], f);
      ResultIsPointsWon(games[n], lv, f);
    }
  }

  lemma NoSamples(games: seq<Sheet>)
    requires games == []
    ensures IsSummary(Empty(), games)
  {
  }

  lemma OneGameMore(before: seq<Sheet>, g: Sheet, games: seq<Sheet>, s: Sheet)
    requires games == before + [g]
    requires IsSummary(s, before) && (g.arActualResult[0] >= 0.0 || g.arActualResult[1] >= 0.0)
    ensures IsSummary(Added(g, s), games)
  {
    hide Sum, SampleVariance, Updated, AddTally;
    forall i | 0 <= i < 2
      ensures var c := Added(g, s);
              && c.arActualResult[i] == Sum(Column(games, i)) && c.arLuckAdj[i] == Sum(LuckColumn(games, i))
              && c.arVarianceActual[i] == SampleVariance(Column(games, i))
              && c.arVarianceLuckAdj[i] == SampleVariance(LuckColumn(games, i))
    {
      assert Column(games, i) == Column(before, i) + [g.arActualResult[i]];
      assert LuckColumn(games, i) == LuckColumn(before, i) + [g.arLuckAdj[i]];
      UpdatedIsSampleVariance(Column(before, i), g.arActualResult[i]);
      UpdatedIsSampleVariance(LuckColumn(before, i), g.arLuckAdj[i]);
    }
  }

  // --------------------------------------------------------- the stat context

  class StatContext {
    var nGames: nat
    var fMoves: bool
    var fDice: bool
    var fCube: bool
    var tally: seq<Tally>
    var arActualResult: seq<real>
    var arLuckAdj: seq<real>
    var arVarianceActual: seq<real>
    var arVarianceLuckAdj: seq<real>

    ghost function State(): Stats
      reads this
    {
      Stats(nGames, fMoves, fDice, fCube, tally, arActualResult, arLuckAdj, arVarianceActual, arVarianceLuckAdj)
    }

    /** IniStatcontext. */
    constructor ()
      ensures State() == Empty()
    {
      nGames, fMoves, fDice, fCube := 0, false, false, false;
      tally := [EmptyTally(), EmptyTally()];
      arActualResult, arLuckAdj := [0.0, 0.0], [0.0, 0.0];
      arVarianceActual, arVarianceLuckAdj := [0.0, 0.0], [0.0, 0.0];
    }

    /** The luck of one roll. */
    method AddLuck(f: nat, l: Luck, cost: real -> real)
      requires Sized(State()) && f < 2
      modifies this`tally, this`arLuckAdj
      ensures tally == old(tally)[f := CountLuck(old(tally[f]), l, cost)]
      ensures arLuckAdj == AdjustForLuck(old(arLuckAdj), f, l, cost)
    {
      if l.Luck? {
        var r := cost(l.rLuck);
        var t := tally[f];
        t := t.(arLuck := (t.arLuck.0 + l.rLuck, t.arLuck.1 + r));
        t := t.(anLuck := Bump(t.anLuck, l.lt));
        tally := tally[f := t];
        arLuckAdj := arLuckAdj[f := arLuckAdj[f] - r];
        arLuckAdj := arLuckAdj[1 - f := arLuckAdj[1 - f] + r];
      }
    }

    /** A chequer play. */
    method AddMove(f: nat, c: Chequer, cMoves: nat, cost: real -> real, lv: Levels)
      requires Sized(State()) && f < 2
      modifies this`tally
      ensures tally == old(tally)[f := CountMove(old(tally[f]), c, cMoves, cost, lv)]
    {
      var t := tally[f];
      t := t.(anTotalMoves := t.anTotalMoves + 1);
      if c.Chequer? {
        var rCost := cost(c.rSkill);
        t := t.(anMoves := Bump(t.anMoves, Skill(c.rSkill, lv)));
        if cMoves > 1 {
          t := t.(anUnforcedMoves := t.anUnforcedMoves + 1);
          t := t.(arCheckerplay := (t.arCheckerplay.0 - c.rSkill, t.arCheckerplay.1 - rCost));
        }
      } else {
        t := t.(anMoves := Bump(t.anMoves, 3));
      }
      tally := tally[f := t];
    }

    /** A cube decision: no double, a double, a take or a pass. */
    method AddCube(f: nat, r: Record, d: Decision, cost: real -> real)
      requires Sized(State()) && f < 2 && (r.Normal? || r.Doubled? || r.Taken? || r.Dropped?)
      modifies this`tally
      ensures tally == old(tally)[f :=
                if r.Normal? then CountMissed(old(tally[f]), d, cost)
                else if r.Doubled? then CountDouble(old(tally[f]), d, cost)
                else if r.Taken? then CountTake(old(tally[f]), d, cost)
                else CountPass(old(tally[f]), d, cost)]
    {
      var t := tally[f];
      t := t.(anTotalCube := t.anTotalCube + 1);
      if r.Normal? {
        t := AddMissed(t, d, cost);
      } else {
        t := t.(anCloseCube := t.anCloseCube + 1);
        if r.Doubled? {
          t := AddDouble(t, d, cost);
        } else if r.Taken? {
          t := t.(anTake := t.anTake + 1);
          if -d.take < -d.drop {
            var rSkill := -d.take + d.drop;
            t := t.(wrongTake := t.wrongTake + 1, arWrongTake := Minus(t.arWrongTake, rSkill, cost(rSkill)));
          }
        } else {
          t := t.(anPass := t.anPass + 1);
          if -d.drop < -d.take {
            var rSkill := -d.drop + d.take;
            t := t.(wrongPass := t.wrongPass + 1, arWrongPass := Minus(t.arWrongPass, rSkill, cost(rSkill)));
          }
        }
      }
      tally := tally[f := t];
    }

    static method AddMissed(t0: Tally, d: Decision, cost: real -> real) returns (t: Tally)
      requires t0.anTotalCube > 0
      ensures t == CountMissed(t0.(anTotalCube := t0.anTotalCube - 1), d, cost)
    {
      t := t0;
      if IsCloseCubedecision(d) {
        t := t.(anCloseCube := t.anCloseCube + 1);
      }
      if d.noDouble < d.optimal {
        var rSkill := d.noDouble - d.optimal;
        if d.take > 1.0 {
          t := t.(missedTG := t.missedTG + 1, arMissedTG := Minus(t.arMissedTG, rSkill, cost(rSkill)));
        } else {
          t := t.(missedDP := t.missedDP + 1, arMissedDP := Minus(t.arMissedDP, rSkill, cost(rSkill)));
        }
      }
    }

    static method AddDouble(t0: Tally, d: Decision, cost: real -> real) returns (t: Tally)
      requires t0.anTotalCube > 0 && t0.anCloseCube > 0
      ensures t == CountDouble(t0.(anTotalCube := t0.anTotalCube - 1, anCloseCube := t0.anCloseCube - 1), d, cost)
    {
      t := t0.(anDouble := t0.anDouble + 1);
      var rSkill := if d.take < d.drop then d.take - d.optimal else d.drop - d.optimal;
      if rSkill < 0.0 {
        if d.noDouble > 1.0 {
          t := t.(wrongTG := t.wrongTG + 1, arWrongTG := Minus(t.arWrongTG, rSkill, cost(rSkill)));
        } else {
          t := t.(wrongDP := t.wrongDP + 1, arWrongDP := Minus(t.arWrongDP, rSkill, cost(rSkill)));
        }
      }
    }

    /** The result of the game, and the adjusted result to start from. */
    method SetResult(fWinner: int, nMatch: nat, nPoints: nat, gain: real)
      requires Sized(State()) && -1 <= fWinner <= 1
      modifies this`arActualResult, this`arLuckAdj
      ensures arActualResult == Results(fWinner, nMatch, nPoints, gain) == arLuckAdj
    {
      arActualResult := [0.0, 0.0];
      if fWinner != -1 {
        arActualResult := arActualResult[fWinner := if nMatch > 0 then gain else nPoints as real];
        arActualResult := arActualResult[1 - fWinner := -arActualResult[fWinner]];
      }
      ghost var result := arActualResult;
      for i := 0 to 2
        invariant arActualResult == result && |arLuckAdj| == 2 && forall k :: 0 <= k < i ==> arLuckAdj[k] == result[k]
      {
        arLuckAdj := arLuckAdj[i := arActualResult[i]];
      }
    }

    /** updateStatcontext. */
    method Update(pmr: Record, lv: Levels)
      requires Sized(State()) && IsRecord(pmr)
      modifies this
      ensures State() == UpdatedBy(old(State()), pmr, lv)
    {
      hide CountMissed, CountDouble, CountTake, CountPass, CountMove, CountLuck, AdjustForLuck, Results;
      match pmr
      case GameInfo(fWinner, nMatch, nPoints, gain) =>
        SetResult(fWinner, nMatch, nPoints, gain);
      case Normal(f, cube, luck, chequer, cMoves, cost) =>
        if cube.Cube? {
          AddCube(f, pmr, cube.d, cost);
        }
        AddLuck(f, luck, cost);
        AddMove(f, chequer, cMoves, cost, lv);
      case Doubled(f, normal, cube, cost) =>
        if normal && cube.Cube? {
          AddCube(f, pmr, cube.d, cost);
        }
      case Taken(f, normal, cube, cost) =>
        if normal && cube.Cube? {
          AddCube(f, pmr, cube.d, cost);
        }
      case Dropped(f, cube, cost) =>
        if cube.Cube? {
          AddCube(f, pmr, cube.d, cost);
        }
      case SetDice(f, luck, cost) =>
        AddLuck(f, luck, cost);
      case Other =>
    }

    /** AddStatcontext: this session plus one game. */
    method Add(pscA: StatContext)
      requires pscA != this && Sized(State()) && Sized(pscA.State())
      modifies this
      ensures State() == Added(pscA.State(), old(State()))
    {
      hide *;
      ghost var a, b := pscA.State(), State();
      StateIs();
      pscA.StateIs();
      AddCounters(pscA);
      StateIs();
      pscA.StateIs();
      if pscA.arActualResult[0] >= 0.0 || pscA.arActualResult[1] >= 0.0 {
        AddResults(pscA);
      }
      StateIs();
      AddedIs(a, b, State());
    }

    lemma StateIs()
      ensures State() == Stats(nGames, fMoves, fDice, fCube, tally, arActualResult, arLuckAdj, arVarianceActual, arVarianceLuckAdj)
      ensures Sized(State()) ==> |tally| == |arActualResult| == |arLuckAdj| == |arVarianceActual| == |arVarianceLuckAdj| == 2
      ensures |tally| == |arActualResult| == |arLuckAdj| == |arVarianceActual| == |arVarianceLuckAdj| == 2 ==> Sized(State())
    {
    }

    method AddCounters(pscA: StatContext)
      requires pscA != this && |tally| == |pscA.tally| == 2
      modifies this`nGames, this`fMoves, this`fDice, this`fCube, this`tally
      ensures nGames == old(nGames) + 1
      ensures fMoves == (old(fMoves) || pscA.fMoves) && fDice == (old(fDice) || pscA.fDice) && fCube == (old(fCube) || pscA.fCube)
      ensures tally == [AddTally(pscA.tally[0], old(tally[0])), AddTally(pscA.tally[1], old(tally[1]))]
    {
      hide AddTally;
      nGames := nGames + 1;
      fMoves, fDice, fCube := fMoves || pscA.fMoves, fDice || pscA.fDice, fCube || pscA.fCube;
      tally := [AddTally(pscA.tally[0], tally[0]), AddTally(pscA.tally[1], tally[1])];
    }

    method AddResults(pscA: StatContext)
      requires pscA != this && Sized(State()) && Sized(pscA.State())
      modifies this`arActualResult, this`arLuckAdj, this`arVarianceActual, this`arVarianceLuckAdj
      ensures |arActualResult| == |arLuckAdj| == |arVarianceActual| == |arVarianceLuckAdj| == 2
      ensures arActualResult == [old(arActualResult[0]) + pscA.arActualResult[0], old(arActualResult[1]) + pscA.arActualResult[1]]
      ensures arLuckAdj == [old(arLuckAdj[0]) + pscA.arLuckAdj[0], old(arLuckAdj[1]) + pscA.arLuckAdj[1]]
      ensures arVarianceActual == [Updated(old(arVarianceActual[0]), arActualResult[0], pscA.arActualResult[0], nGames),
                                   Updated(old(arVarianceActual[1]), arActualResult[1], pscA.arActualResult[1], nGames)]
      ensures arVarianceLuckAdj == [Updated(old(arVarianceLuckAdj[0]), arLuckAdj[0], pscA.arLuckAdj[0], nGames),
                                    Updated(old(arVarianceLuckAdj[1]), arLuckAdj[1], pscA.arLuckAdj[1], nGames)]
    {
      hide Updated;
      AddResult(pscA, 0);
      AddResult(pscA, 1);
    }

    method AddResult(pscA: StatContext, i: nat)
      requires pscA != this && i < 2 && Sized(State()) && Sized(pscA.State())
      modifies this`arActualResult, this`arLuckAdj, this`arVarianceActual, this`arVarianceLuckAdj
      ensures arActualResult == old(arActualResult)[i := old(arActualResult[i]) + pscA.arActualResult[i]]
      ensures arLuckAdj == old(arLuckAdj)[i := old(arLuckAdj[i]) + pscA.arLuckAdj[i]]
      ensures arVarianceActual == old(arVarianceActual)[i :=
                Updated(old(arVarianceActual[i]), arActualResult[i], pscA.arActualResult[i], nGames)]
      ensures arVarianceLuckAdj == old(arVarianceLuckAdj)[i :=
                Updated(old(arVarianceLuckAdj[i]), arLuckAdj[i], pscA.arLuckAdj[i], nGames)]
    {
      arActualResult := arActualResult[i := arActualResult[i] + pscA.arActualResult[i]];
      arLuckAdj := arLuckAdj[i := arLuckAdj[i] + pscA.arLuckAdj[i]];
      var v := UpdateVariance(arVarianceActual[i], arActualResult[i], pscA.arActualResult[i], nGames);
      arVarianceActual := arVarianceActual[i := v];
      v := UpdateVariance(arVarianceLuckAdj[i], arLuckAdj[i], pscA.arLuckAdj[i], nGames);
      arVarianceLuckAdj := arVarianceLuckAdj[i := v];
    }
  }

  /** Analysing a game record by record, and adding games to a session. */
  method AnalyseGame(rs: seq<Record>, lv: Levels) returns (psc: StatContext)
    requires IsGame(rs)
    ensures fresh(psc) && psc.State() == Played(rs, lv) && Sound(psc.State())
  {
    hide UpdatedBy, Sound;
    psc := new StatContext();
    var i := 0;
    assert rs[..0] == [];
    while i < |rs|
      invariant 0 <= i <= |rs| && psc.State() == Played(rs[..i], lv)
    {
      assert rs[..i + 1][..i] == rs[..i];
      psc.Update(rs[i], lv);
      i := i + 1;
    }
    assert rs[..|rs|] == rs;
    GameIsSound(rs, lv);
  }

  method AnalyseSession(games: seq<seq<Record>>, lv: Levels) returns (psc: StatContext, ghost sheets: seq<Sheet>)
    requires forall k :: 0 <= k < |games| ==> IsGame(games[k])
    ensures |sheets| == |games| && forall k :: 0 <= k < |games| ==> sheets[k] == Played(games[k], lv)
    ensures psc.State() == Session(sheets) && Sound(psc.State()) && IsSummary(psc.State(), sheets)
    ensures |psc.arActualResult| == 2
    ensures psc.arActualResult[0] == Winnings(games, 0) - Winnings(games, 1)
    ensures psc.arActualResult[1] == Winnings(games, 1) - Winnings(games, 0)
  {
    hide Sound, Added, IsSummary, Played, IsGame;
    psc := new StatContext();
    sheets := [];
    var i := 0;
    while i < |games|
      invariant 0 <= i == |sheets| <= |games|
      invariant forall k :: 0 <= k < i ==> sheets[k] == Played(games[k], lv) && Sound(sheets[k])
      invariant psc.State() == Session(sheets)
    {
      var game := AnalyseGame(games[i], lv);
      ghost var all := sheets + [game.State()];
      assert all[..|sheets|] == sheets;
      psc.Add(game);
      sheets := all;
      i := i + 1;
    }
    SessionIsSummary(sheets);
    SessionIsWinnings(games, lv, sheets, 0);
    SessionIsWinnings(games, lv, sheets, 1);
    SummaryResults(psc.State(), sheets);
  }

  lemma SummaryResults(s: Stats, games: seq<Sheet>)
    requires Sized(s) && IsSummary(s, games)
    ensures s.arActualResult[0] == Sum(Column(games, 0)) && s.arActualResult[1] == Sum(Column(games, 1))
  {
  }
}
