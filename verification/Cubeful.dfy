/** The batched cubeful search of gnubg/eval.c: one walk of the board tree
    evaluates a whole vector of cube states, doubling its length at every ply.
    The simple form values one cube state at a time. */
module Cubeful {
  import opened Boards

  const CLASS_OVER := 0
  const CLASS_PERFECT := 5

  const OUTPUT_WIN := 0
  const OUTPUT_WINGAMMON := 1
  const OUTPUT_WINBACKGAMMON := 2
  const OUTPUT_LOSEGAMMON := 3
  const OUTPUT_LOSEBACKGAMMON := 4
  const NUM_OUTPUTS := 5

  /** The cube as seen for one evaluation. Gammon prices are determined by the
      other fields and belong to the leaf values. */
  datatype CubeInfo = CubeInfo(nCube: int, fCubeOwner: int, fMove: int, nMatchTo: int, anScore: (int, int),
                               fCrawford: bool, fJacoby: bool, fBeavers: bool, bgv: int)

  type Outputs = s: seq<real> | |s| == 5 witness seq(5, _ => 0.0)

  /** The parts of the engine the search only calls: position classes, the reply
      chosen for a roll, the cubeless outputs of a leaf, the cubeful equity of one
      cube state at a leaf, and the match equity of a double/pass. */
  datatype Engine = Engine(
    classify: (Board, int) -> int,
    reply: (Board, nat, nat, CubeInfo) -> Board,
    outputs: (Board, CubeInfo) -> Outputs,
    leafEquity: (Board, CubeInfo, CubeInfo) -> real,
    matchPass: CubeInfo -> real)

  // ------------------------------------------------------------ cube states

  function Not(f: int): int {
    if f == 0 then 1 else 0
  }

  const CLEARED := CubeInfo(0, 0, 0, 0, (0, 0), false, false, false, 0)

  /** SetCubeInfo and its money and match variants; a bad argument clears the structure. */
  function SetCubeInfo(nCube: int, fCubeOwner: int, fMove: int, nMatchTo: int, anScore: (int, int),
                       fCrawford: bool, fJacoby: bool, fBeavers: bool, bgv: int): CubeInfo
  {
    if nCube < 1 || fCubeOwner < -1 || fCubeOwner > 1 || fMove < 0 || fMove > 1 then CLEARED
    else if nMatchTo == 0 then CubeInfo(nCube, fCubeOwner, fMove, 0, (0, 0), false, fJacoby, fBeavers, bgv)
    else if nMatchTo < 1 || anScore.0 >= nMatchTo || anScore.1 >= nMatchTo then CLEARED
    else CubeInfo(nCube, fCubeOwner, fMove, nMatchTo, anScore, fCrawford, false, false, bgv)
  }

  /** The same game with another cube, owner and player on move. */
  function Recube(ci: CubeInfo, nCube: int, fCubeOwner: int, fMove: int): CubeInfo {
    SetCubeInfo(nCube, fCubeOwner, fMove, ci.nMatchTo, ci.anScore, ci.fCrawford, ci.fJacoby, ci.fBeavers, ci.bgv)
  }

  /** A cube state SetCubeInfo accepts. */
  predicate Available(ci: CubeInfo) {
    && ci.nCube >= 1 && -1 <= ci.fCubeOwner <= 1 && 0 <= ci.fMove <= 1
    && (ci.nMatchTo == 0 || (ci.nMatchTo >= 1 && ci.anScore.0 < ci.nMatchTo && ci.anScore.1 < ci.nMatchTo))
  }

  function Score(ci: CubeInfo, player: int): int {
    if player == 0 then ci.anScore.0 else ci.anScore.1
  }

  /** GetDPEq: may the player on move double, and what a pass is worth. */
  function MayDouble(ci: CubeInfo): bool {
    if ci.nMatchTo == 0 then ci.fCubeOwner == -1 || ci.fCubeOwner == ci.fMove
    else
      var fPostCrawford := !ci.fCrawford && (ci.anScore.0 == ci.nMatchTo - 1 || ci.anScore.1 == ci.nMatchTo - 1);
      && !ci.fCrawford
      && Score(ci, ci.fMove) + ci.nCube < ci.nMatchTo
      && !(fPostCrawford && Score(ci, ci.fMove) == ci.nMatchTo - 1)
      && (ci.fCubeOwner == -1 || ci.fCubeOwner == ci.fMove)
  }

  function PassEquity(e: Engine, ci: CubeInfo): real {
    if ci.nMatchTo == 0 then 1.0 else e.matchPass(ci)
  }

  /** A double/take is valued on the doubled cube; money equities are normed to one cube. */
  function TakeScale(ci: CubeInfo): real {
    if ci.nMatchTo == 0 then 2.0 else 1.0
  }

  function Max(x: real, y: real): real { if x >= y then x else y }

  function Min(x: real, y: real): real { if x <= y then x else y }

  /** The value of having the choice: play on, or double and let the opponent
      choose between taking and passing. */
  function Choice(noDouble: real, take: real, pass: real): real {
    Max(noDouble, Min(take, pass))
  }

  // ---------------------------------------- the value of one cube state

  predicate Recurses(e: Engine, b: Board, ciMove: CubeInfo, nPlies: nat) {
    var pc := e.classify(b, ciMove.bgv);
    pc > CLASS_OVER && nPlies > 0 && !(pc <= CLASS_PERFECT && ciMove.nMatchTo == 0)
  }

  function Swapped(b: Board): Board { Board(b.us, b.them) }

  function Weight(n0: nat, n1: nat): real { if n0 == n1 then 1.0 else 2.0 }

  function Opponent(ci: CubeInfo): CubeInfo {
    Recube(ci, ci.nCube, ci.fCubeOwner, Not(ci.fMove))
  }

  /** An average over the rolls, seen from the other side. */
  function Inverted(sum: real, nMatchTo: int): real {
    if nMatchTo != 0 then 1.0 - sum / 36.0 else -sum / 36.0
  }

  /** The equity of `ci` with its owner on move and no cube action this turn. */
  ghost function PlayOn(e: Engine, b: Board, ci: CubeInfo, ciMove: CubeInfo, nPlies: nat): real
    decreases nPlies, 9, 0
  {
    if Recurses(e, b, ciMove, nPlies) then
      Inverted(RollSum(e, b, Opponent(ci), ciMove, nPlies, 7, 1), ci.nMatchTo)
    else e.leafEquity(b, ciMove, Recube(ci, ci.nCube, ci.fCubeOwner, ci.fMove))
  }

  /** The cube state after the player on move has doubled. */
  function Doubled(ci: CubeInfo): CubeInfo {
    Recube(ci, 2 * ci.nCube, Not(ci.fMove), ci.fMove)
  }

  /** The equity of one cube state: at the top there is no choice to make. */
  ghost function Value(e: Engine, b: Board, ci: CubeInfo, ciMove: CubeInfo, nPlies: nat, fTop: bool): real
    decreases nPlies, 9, 1
  {
    var noDouble := PlayOn(e, b, ci, ciMove, nPlies);
    if !fTop && MayDouble(ci) then
      Choice(noDouble, TakeScale(ci) * PlayOn(e, b, Doubled(ci), ciMove, nPlies),
             PassEquity(e, Recube(ci, ci.nCube, ci.fCubeOwner, ci.fMove)))
    else noDouble
  }

  /** The weighted sum, over the rolls before (n0, n1), of the value of the
      opponent's cube state `ciOpp` after the reply to the roll. */
  ghost function RollSum(e: Engine, b: Board, ciOpp: CubeInfo, ciMove: CubeInfo, nPlies: nat, n0: nat, n1: nat): real
    requires nPlies > 0
    decreases nPlies, n0, n1
  {
    if n1 > 1 then
      RollSum(e, b, ciOpp, ciMove, nPlies, n0, n1 - 1)
      + Weight(n0, n1 - 1) * Value(e, Swapped(e.reply(b, n0, n1 - 1, ciMove)), ciOpp, Opponent(ciMove), nPlies - 1, false)
    else if n0 > 1 then RollSum(e, b, ciOpp, ciMove, nPlies, n0 - 1, n0)
    else 0.0
  }

  /** The cubeless outputs, averaged and turned round at every ply. */
  ghost function Cubeless(e: Engine, b: Board, ciMove: CubeInfo, nPlies: nat): Outputs
    decreases nPlies, 9, 0
  {
    if Recurses(e, b, ciMove, nPlies) then
      Invert(PerRoll(seq(5, i requires 0 <= i < 5 => OutputSum(e, b, ciMove, nPlies, i, 7, 1))))
    else e.outputs(b, ciMove)
  }

  ghost function OutputSum(e: Engine, b: Board, ciMove: CubeInfo, nPlies: nat, i: nat, n0: nat, n1: nat): real
    requires nPlies > 0 && i < 5
    decreases nPlies, n0, n1
  {
    if n1 > 1 then
      OutputSum(e, b, ciMove, nPlies, i, n0, n1 - 1)
      + Weight(n0, n1 - 1) * Cubeless(e, Swapped(e.reply(b, n0, n1 - 1, ciMove)), Opponent(ciMove), nPlies - 1)[i]
    else if n0 > 1 then OutputSum(e, b, ciMove, nPlies, i, n0 - 1, n0)
    else 0.0
  }

  /** The chances seen from the other side. */
  function Invert(o: Outputs): Outputs {
    [1.0 - o[OUTPUT_WIN], o[OUTPUT_LOSEGAMMON], o[OUTPUT_LOSEBACKGAMMON], o[OUTPUT_WINGAMMON], o[OUTPUT_WINBACKGAMMON]]
  }

  /** Sums over the 36 rolls, averaged. */
  function PerRoll(sums: Outputs): Outputs {
    [sums[0] / 36.0, sums[1] / 36.0, sums[2] / 36.0, sums[3] / 36.0, sums[4] / 36.0]
  }

  // ----------------------------------------------------- the batched search

  /** A vector of cube states that may be evaluated together: the first slot is
      available, and the available slots belong to the match being played. */
  predicate Batch(states: seq<CubeInfo>, ciMove: CubeInfo) {
    && states != [] && states[0].nCube > 0
    && Available(ciMove)
    && forall k :: 0 <= k < |states| && states[k].nCube > 0 ==>
         Available(states[k]) && states[k].nMatchTo == ciMove.nMatchTo
  }

  /** The state put in slot 2k for state k: the same cube, seen by `fMove`. */
  function Kept(ci: CubeInfo, fInvert: bool): CubeInfo {
    Recube(ci, ci.nCube, ci.fCubeOwner, if fInvert then Not(ci.fMove) else ci.fMove)
  }

  /** The state put in slot 2k + 1: the cube turned. */
  function Turned(ci: CubeInfo, fInvert: bool): CubeInfo {
    Recube(ci, 2 * ci.nCube, Not(ci.fMove), if fInvert then Not(ci.fMove) else ci.fMove)
  }

  /** Slots 2k and 2k + 1 of the next vector; an unavailable slot promises nothing
      but its nCube. */
  ghost predicate Expanded(ci: CubeInfo, kept: CubeInfo, turned: CubeInfo, fTop: bool, fInvert: bool) {
    && (if ci.nCube > 0 then kept == Kept(ci, fInvert) else kept.nCube == -1)
    && (if !fTop && ci.nCube > 0 && MayDouble(ci) then turned == Turned(ci, fInvert) else turned.nCube == -1)
  }

  method MakeCubePos(aciCubePos: array<CubeInfo>, cci: nat, fTop: bool, aci: array<CubeInfo>, fInvert: bool)
    requires aciCubePos.Length >= cci && aci.Length >= 2 * cci && aci != aciCubePos
    modifies aci
    ensures forall k :: 0 <= k < cci ==> Expanded(aciCubePos[k], aci[2 * k], aci[2 * k + 1], fTop, fInvert)
  {
    var ici, i := 0, 0;
    while ici < cci
      invariant 0 <= ici <= cci && i == 2 * ici
      invariant forall k :: 0 <= k < ici ==> Expanded(aciCubePos[k], aci[2 * k], aci[2 * k + 1], fTop, fInvert)
    {
      var ci := aciCubePos[ici];
      var fMove := if fInvert then Not(ci.fMove) else ci.fMove;
      if ci.nCube > 0 {
        aci[i] := SetCubeInfo(ci.nCube, ci.fCubeOwner, fMove, ci.nMatchTo, ci.anScore,
                              ci.fCrawford, ci.fJacoby, ci.fBeavers, ci.bgv);
      } else {
        aci[i] := aci[i].(nCube := -1);
      }
      i := i + 1;
      if !fTop && ci.nCube > 0 && MayDouble(ci) {
        aci[i] := SetCubeInfo(2 * ci.nCube, Not(ci.fMove), fMove, ci.nMatchTo, ci.anScore,
                              ci.fCrawford, ci.fJacoby, ci.fBeavers, ci.bgv);
      } else {
        aci[i] := aci[i].(nCube := -1);
      }
      i := i + 1;
      ici := ici + 1;
    }
  }

  /** What GetECF3 computes for state k. Every slot asks slot 0 whether this is a match. */
  function BestOfPair(e: Engine, first: CubeInfo, kept: CubeInfo, turned: CubeInfo, rKept: real, rTurned: real): real {
    if turned.nCube > 0 then Choice(rKept, TakeScale(first) * rTurned, PassEquity(e, kept)) else rKept
  }

  method GetECF3(e: Engine, arCubeful: array<real>, cci: nat, arCf: array<real>, aci: array<CubeInfo>)
    requires arCubeful.Length >= cci && arCf.Length >= 2 * cci && aci.Length >= 2 * cci && arCubeful != arCf
    modifies arCubeful
    ensures forall k :: 0 <= k < cci ==>
              arCubeful[k] == BestOfPair(e, aci[0], aci[2 * k], aci[2 * k + 1], arCf[2 * k], arCf[2 * k + 1])
  {
    var ici, i := 0, 0;
    while ici < cci
      invariant 0 <= ici <= cci && i == 2 * ici
      invariant forall k :: 0 <= k < ici ==>
                  arCubeful[k] == BestOfPair(e, aci[0], aci[2 * k], aci[2 * k + 1], arCf[2 * k], arCf[2 * k + 1])
    {
      if aci[i + 1].nCube > 0 {
        var rND := arCf[i];
        var rDT;
        if aci[0].nMatchTo != 0 {
          rDT := arCf[i + 1];
        } else {
          rDT := 2.0 * arCf[i + 1];
        }
        var rDP := PassEquity(e, aci[i]);
        if rDT >= rND && rDP >= rND {
          if rDT >= rDP {
            arCubeful[ici] := rDP;
          } else {
            arCubeful[ici] := rDT;
          }
        } else {
          arCubeful[ici] := rND;
        }
      } else {
        arCubeful[ici] := arCf[i];
      }
      ici := ici + 1;
      i := i + 2;
    }
  }

  /** Each available slot of `arCf` holds the equity of playing on from its state. */
  ghost predicate HoldsPlayOn(e: Engine, b: Board, states: seq<CubeInfo>, fTop: bool, ciMove: CubeInfo, nPlies: nat,
                              aci: seq<CubeInfo>, arCf: seq<real>)
    requires |aci| == |arCf| == 2 * |states|
  {
    forall k :: 0 <= k < |states| && states[k].nCube > 0 ==>
      && arCf[2 * k] == PlayOn(e, b, states[k], ciMove, nPlies)
      && (!fTop && MayDouble(states[k]) ==> arCf[2 * k + 1] == PlayOn(e, b, Doubled(states[k]), ciMove, nPlies))
  }

  /** With fMove as it is at this node, the pairs combine to the states' values. */
  lemma PairsGiveValues(e: Engine, b: Board, states: seq<CubeInfo>, fTop: bool, ciMove: CubeInfo, nPlies: nat,
                        aci: seq<CubeInfo>, arCf: seq<real>, k: nat)
    requires |aci| == |arCf| == 2 * |states| && Batch(states, ciMove) && k < |states| && states[k].nCube > 0
    requires forall j :: 0 <= j < |states| ==> Expanded(states[j], aci[2 * j], aci[2 * j + 1], fTop, false)
    requires HoldsPlayOn(e, b, states, fTop, ciMove, nPlies, aci, arCf)
    ensures BestOfPair(e, aci[0], aci[2 * k], aci[2 * k + 1], arCf[2 * k], arCf[2 * k + 1])
            == Value(e, b, states[k], ciMove, nPlies, fTop)
  {
    assert Expanded(states[0], aci[2 * 0], aci[2 * 0 + 1], fTop, false);
    assert Expanded(states[k], aci[2 * k], aci[2 * k + 1], fTop, false);
  }

  /** A batch expands to a batch for the opponent, slot 0 staying available. */
  lemma BatchExpands(states: seq<CubeInfo>, ciMove: CubeInfo, fTop: bool, aci: seq<CubeInfo>)
    requires Batch(states, ciMove) && |aci| == 2 * |states|
    requires forall j :: 0 <= j < |states| ==> Expanded(states[j], aci[2 * j], aci[2 * j + 1], fTop, true)
    ensures Batch(aci, Opponent(ciMove))
  {
    PairExpands(states[0], aci[2 * 0], aci[2 * 0 + 1], ciMove, fTop);
    hide Expanded, Available;
    forall i | 0 <= i < |aci| && aci[i].nCube > 0 ensures Available(aci[i]) && aci[i].nMatchTo == ciMove.nMatchTo {
      var k := i / 2;
      assert i == 2 * k || i == 2 * k + 1;
      PairExpands(states[k], aci[2 * k], aci[2 * k + 1], ciMove, fTop);
    }
  }

  lemma PairExpands(ci: CubeInfo, kept: CubeInfo, turned: CubeInfo, ciMove: CubeInfo, fTop: bool)
    requires Available(ciMove) && (ci.nCube > 0 ==> Available(ci) && ci.nMatchTo == ciMove.nMatchTo)
    requires Expanded(ci, kept, turned, fTop, true)
    ensures Available(Opponent(ciMove)) && Opponent(ciMove).nMatchTo == ciMove.nMatchTo
    ensures ci.nCube > 0 ==> kept.nCube > 0
    ensures kept.nCube > 0 ==> Available(kept) && kept.nMatchTo == ciMove.nMatchTo
    ensures turned.nCube > 0 ==> Available(turned) && turned.nMatchTo == ciMove.nMatchTo
  {
  }

  method SwapSides(them: array<nat>, us: array<nat>)
    requires InMemory(them, us)
    modifies them, us
    ensures BoardAt(them, us) == Swapped(old(BoardAt(them, us)))
  {
    for i := 0 to 25
      invariant forall j :: 0 <= j < i ==> them[j] == old(us[j]) && us[j] == old(them[j])
      invariant forall j :: i <= j < 25 ==> them[j] == old(them[j]) && us[j] == old(us[j])
    {
      them[i], us[i] := us[i], them[i];
    }
    assert them[..] == old(us[..]) && us[..] == old(them[..]);
  }

  /** The position after the chosen reply, seen by the opponent. */
  method ReplyFor(e: Engine, anBoard: Board, n0: nat, n1: nat, ciMove: CubeInfo) returns (next: Board)
    ensures next == Swapped(e.reply(anBoard, n0, n1, ciMove))
  {
    var anBoardNew := e.reply(anBoard, n0, n1, ciMove);
    var them := new nat[25](i requires 0 <= i < 25 => anBoardNew.them[i]);
    var us := new nat[25](i requires 0 <= i < 25 => anBoardNew.us[i]);
    assert them[..] == anBoardNew.them && us[..] == anBoardNew.us;
    SwapSides(them, us);
    next := Board(them[..], us[..]);
  }

  /** The sums after the rolls before (n0, n1). */
  ghost predicate SumsTo(e: Engine, b: Board, ciMove: CubeInfo, nPlies: nat, n0: nat, n1: nat,
                         aci: seq<CubeInfo>, arCf: seq<real>, arOutput: seq<real>)
    requires nPlies > 0 && |aci| == |arCf| && |arOutput| == 5
  {
    && (forall i :: 0 <= i < |aci| && aci[i].nCube > 0 ==> arCf[i] == RollSum(e, b, aci[i], ciMove, nPlies, n0, n1))
    && (forall i :: 0 <= i < 5 ==> arOutput[i] == OutputSum(e, b, ciMove, nPlies, i, n0, n1))
  }

  /** The equities of a child node, one per available slot. */
  ghost predicate ChildValues(e: Engine, b: Board, states: seq<CubeInfo>, ciMove: CubeInfo, nPlies: nat, fTop: bool,
                              arCubeful: seq<real>, arOutput: seq<real>)
    requires |states| <= |arCubeful|
  {
    && arOutput == Cubeless(e, b, ciMove, nPlies)
    && forall k :: 0 <= k < |states| && states[k].nCube > 0 ==>
         arCubeful[k] == Value(e, b, states[k], ciMove, nPlies, fTop)
  }

  lemma AddRoll(e: Engine, b: Board, ciMove: CubeInfo, nPlies: nat, n0: nat, n1: nat, aci: seq<CubeInfo>,
                cf: seq<real>, cf': seq<real>, out: seq<real>, out': seq<real>, temp: seq<real>, ar: seq<real>)
    requires nPlies > 0 && |aci| == |cf| == |cf'| == |temp| && |out| == |out'| == |ar| == 5 && n1 >= 1
    requires SumsTo(e, b, ciMove, nPlies, n0, n1, aci, cf, out)
    requires ChildValues(e, Swapped(e.reply(b, n0, n1, ciMove)), aci, Opponent(ciMove), nPlies - 1, false, temp, ar)
    requires forall i :: 0 <= i < |cf| ==> cf'[i] == cf[i] + Weight(n0, n1) * temp[i]
    requires forall i :: 0 <= i < 5 ==> out'[i] == out[i] + Weight(n0, n1) * ar[i]
    ensures SumsTo(e, b, ciMove, nPlies, n0, n1 + 1, aci, cf', out')
  {
  }

  lemma NextPairOfRolls(e: Engine, b: Board, ciMove: CubeInfo, nPlies: nat, n0: nat, aci: seq<CubeInfo>, cf: seq<real>, out: seq<real>)
    requires nPlies > 0 && |aci| == |cf| && |out| == 5 && n0 >= 1
    requires SumsTo(e, b, ciMove, nPlies, n0, n0 + 1, aci, cf, out)
    ensures SumsTo(e, b, ciMove, nPlies, n0 + 1, 1, aci, cf, out)
  {
  }

  lemma NoRolls(e: Engine, b: Board, ciMove: CubeInfo, nPlies: nat, aci: seq<CubeInfo>, cf: seq<real>, out: seq<real>)
    requires nPlies > 0 && |aci| == |cf| && |out| == 5
    requires (forall i :: 0 <= i < |cf| ==> cf[i] == 0.0) && (forall i :: 0 <= i < 5 ==> out[i] == 0.0)
    ensures SumsTo(e, b, ciMove, nPlies, 1, 1, aci, cf, out)
  {
  }

  method SetToZero(ar: array<real>)
    modifies ar
    ensures forall i :: 0 <= i < ar.Length ==> ar[..][i] == 0.0
  {
    for i := 0 to ar.Length
      invariant forall j :: 0 <= j < i ==> ar[j] == 0.0
    {
      ar[i] := 0.0;
    }
  }

  method AddWeighted(sum: array<real>, w: real, x: array<real>)
    requires sum.Length == x.Length && sum != x
    modifies sum
    ensures forall i :: 0 <= i < sum.Length ==> sum[..][i] == old(sum[..])[i] + w * x[..][i]
  {
    for i := 0 to sum.Length
      invariant forall j :: 0 <= j < i ==> sum[j] == old(sum[j]) + w * x[j]
      invariant forall j :: i <= j < sum.Length ==> sum[j] == old(sum[j])
    {
      sum[i] := sum[i] + w * x[i];
    }
  }

  /** EvaluatePositionCubeful4 without the evaluation cache. The search may give up
      (an interrupt, a missing database); otherwise every available slot holds the
      value of its own cube state, whatever the other slots and the uninitialised
      arrays of the walk contained. */
  method EvaluatePositionCubeful4(e: Engine, anBoard: Board, arOutput: array<real>, arCubeful: array<real>,
                                  aciCubePos: array<CubeInfo>, cci: nat, ciMove: CubeInfo, nPlies: nat, fTop: bool)
    returns (r: int)
    requires arOutput.Length == 5 && arOutput != arCubeful && arCubeful.Length == cci == aciCubePos.Length
    requires Batch(aciCubePos[..], ciMove)
    modifies arOutput, arCubeful
    ensures r == 0 ==> ChildValues(e, anBoard, aciCubePos[..], ciMove, nPlies, fTop, arCubeful[..], arOutput[..])
    decreases nPlies, 1
  {
    hide PlayOn, Value, Cubeless, SumsTo, Batch, Expanded, HoldsPlayOn, BestOfPair;
    var arCf := new real[2 * cci];
    var aci := new CubeInfo[2 * cci];
    if Recurses(e, anBoard, ciMove, nPlies) {
      MakeCubePos(aciCubePos, cci, fTop, aci, true);
      BatchExpands(aciCubePos[..], ciMove, fTop, aci[..]);
      var fail := AverageReplies(e, anBoard, arOutput, arCf, aci, ciMove, nPlies);
      if fail {
        return -1;
      }
      TurnRound(e, anBoard, arOutput, arCf, aciCubePos, aci, ciMove, nPlies, fTop);
    } else {
      var fail := EvaluateLeaf(e, anBoard, arOutput, arCf, aciCubePos, aci, ciMove, nPlies, fTop);
      if fail {
        return -1;
      }
    }
    GetECF3(e, arCubeful, cci, arCf, aci);
    forall k | 0 <= k < cci && aciCubePos[k].nCube > 0
      ensures arCubeful[k] == Value(e, anBoard, aciCubePos[k], ciMove, nPlies, fTop)
    {
      PairsGiveValues(e, anBoard, aciCubePos[..], fTop, ciMove, nPlies, aci[..], arCf[..], k);
    }
    return 0;
  }

  /** The loop over the 21 rolls. */
  method AverageReplies(e: Engine, anBoard: Board, arOutput: array<real>, arCf: array<real>, aci: array<CubeInfo>,
                        ciMove: CubeInfo, nPlies: nat)
    returns (fail: bool)
    requires arOutput.Length == 5 && arOutput != arCf && aci.Length == arCf.Length
    requires nPlies > 0 && Batch(aci[..], Opponent(ciMove))
    modifies arOutput, arCf
    ensures !fail ==> SumsTo(e, anBoard, ciMove, nPlies, 7, 1, aci[..], arCf[..], arOutput[..])
    decreases nPlies, 0
  {
    hide SumsTo, Batch, ChildValues, Opponent;
    var ar, arCfTemp := new real[5], new real[arCf.Length];
    SetToZero(arOutput);
    SetToZero(arCf);
    ghost var states := aci[..];
    NoRolls(e, anBoard, ciMove, nPlies, states, arCf[..], arOutput[..]);
    var n0 := 1;
    while n0 <= 6
      invariant 1 <= n0 <= 7
      invariant aci[..] == states
      invariant SumsTo(e, anBoard, ciMove, nPlies, n0, 1, states, arCf[..], arOutput[..])
    {
      var n1 := 1;
      while n1 <= n0
        invariant 1 <= n1 <= n0 + 1
        invariant aci[..] == states
        invariant SumsTo(e, anBoard, ciMove, nPlies, n0, n1, states, arCf[..], arOutput[..])
      {
        var fInterrupt: bool := *;
        if fInterrupt {
          return true;
        }
        var w := Weight(n0, n1);
        var anBoardNew := ReplyFor(e, anBoard, n0, n1, ciMove);
        var r := EvaluatePositionCubeful4(e, anBoardNew, ar, arCfTemp, aci, arCf.Length, Opponent(ciMove), nPlies - 1, false);
        if r != 0 {
          return true;
        }
        ghost var cf, out := arCf[..], arOutput[..];
        AddWeighted(arOutput, w, ar);
        AddWeighted(arCf, w, arCfTemp);
        AddRoll(e, anBoard, ciMove, nPlies, n0, n1, states, cf, arCf[..], out, arOutput[..], arCfTemp[..], ar[..]);
        n1 := n1 + 1;
      }
      NextPairOfRolls(e, anBoard, ciMove, nPlies, n0, states, arCf[..], arOutput[..]);
      n0 := n0 + 1;
    }
    return false;
  }

  /** Normalise and flip the averages, and put fMove back. */
  method TurnRound(e: Engine, anBoard: Board, arOutput: array<real>, arCf: array<real>, aciCubePos: array<CubeInfo>,
                   aci: array<CubeInfo>, ciMove: CubeInfo, nPlies: nat, fTop: bool)
    requires arOutput.Length == 5 && arOutput != arCf && aci != aciCubePos && arCf.Length == aci.Length == 2 * aciCubePos.Length
    requires Recurses(e, anBoard, ciMove, nPlies) && Batch(aciCubePos[..], ciMove)
    requires forall k :: 0 <= k < aciCubePos.Length ==> Expanded(aciCubePos[k], aci[2 * k], aci[2 * k + 1], fTop, true)
    requires SumsTo(e, anBoard, ciMove, nPlies, 7, 1, aci[..], arCf[..], arOutput[..])
    modifies arOutput, arCf, aci
    ensures arOutput[..] == Cubeless(e, anBoard, ciMove, nPlies)
    ensures forall k :: 0 <= k < aciCubePos.Length ==> Expanded(aciCubePos[k], aci[2 * k], aci[2 * k + 1], fTop, false)
    ensures HoldsPlayOn(e, anBoard, aciCubePos[..], fTop, ciMove, nPlies, aci[..], arCf[..])
  {
    hide SumsTo, Recurses, Batch, Expanded, PlayOn, RollSum, OutputSum, Cubeless;
    ghost var sums, cf, states, was := arOutput[..], arCf[..], aciCubePos[..], aci[..];
    FlipOutputs(arOutput);
    InvertEquities(arCf, ciMove.nMatchTo);
    FlipMoves(aci);
    OutputsTurnedRound(e, anBoard, ciMove, nPlies, was, cf, sums);
    EquitiesTurnedRound(e, anBoard, states, was, aci[..], cf, arCf[..], sums, ciMove, nPlies, fTop);
    forall k | 0 <= k < aciCubePos.Length
      ensures Expanded(aciCubePos[k], aci[2 * k], aci[2 * k + 1], fTop, false)
    {
      assert Expanded(states[k], aci[..][2 * k], aci[..][2 * k + 1], fTop, false);
    }
  }

  method FlipOutputs(arOutput: array<real>)
    requires arOutput.Length == 5
    modifies arOutput
    ensures arOutput[..] == Invert(PerRoll(old(arOutput[..])))
  {
    arOutput[OUTPUT_WIN] := 1.0 - arOutput[OUTPUT_WIN] / 36.0;
    var r := arOutput[OUTPUT_WINGAMMON] / 36.0;
    arOutput[OUTPUT_WINGAMMON] := arOutput[OUTPUT_LOSEGAMMON] / 36.0;
    arOutput[OUTPUT_LOSEGAMMON] := r;
    r := arOutput[OUTPUT_WINBACKGAMMON] / 36.0;
    arOutput[OUTPUT_WINBACKGAMMON] := arOutput[OUTPUT_LOSEBACKGAMMON] / 36.0;
    arOutput[OUTPUT_LOSEBACKGAMMON] := r;
  }

  method InvertEquities(arCf: array<real>, nMatchTo: int)
    modifies arCf
    ensures forall i :: 0 <= i < arCf.Length ==> arCf[..][i] == Inverted(old(arCf[..])[i], nMatchTo)
  {
    for i := 0 to arCf.Length
      invariant forall j :: 0 <= j < i ==> arCf[j] == Inverted(old(arCf[j]), nMatchTo)
      invariant forall j :: i <= j < arCf.Length ==> arCf[j] == old(arCf[j])
    {
      if nMatchTo != 0 {
        arCf[i] := 1.0 - arCf[i] / 36.0;
      } else {
        arCf[i] := -arCf[i] / 36.0;
      }
    }
  }

  method FlipMoves(aci: array<CubeInfo>)
    modifies aci
    ensures forall i :: 0 <= i < aci.Length ==> aci[..][i] == old(aci[..])[i].(fMove := Not(old(aci[..])[i].fMove))
  {
    for i := 0 to aci.Length
      invariant forall j :: 0 <= j < i ==> aci[j] == old(aci[j]).(fMove := Not(old(aci[j]).fMove))
      invariant forall j :: i <= j < aci.Length ==> aci[j] == old(aci[j])
    {
      aci[i] := aci[i].(fMove := Not(aci[i].fMove));
    }
  }

  lemma OutputsTurnedRound(e: Engine, b: Board, ciMove: CubeInfo, nPlies: nat, aci: seq<CubeInfo>, cf: seq<real>, sums: seq<real>)
    requires Recurses(e, b, ciMove, nPlies) && |aci| == |cf| && |sums| == 5
    requires SumsTo(e, b, ciMove, nPlies, 7, 1, aci, cf, sums)
    ensures Invert(PerRoll(sums)) == Cubeless(e, b, ciMove, nPlies)
  {
    assert sums == seq(5, i requires 0 <= i < 5 => OutputSum(e, b, ciMove, nPlies, i, 7, 1));
  }

  lemma EquitiesTurnedRound(e: Engine, b: Board, states: seq<CubeInfo>, aci: seq<CubeInfo>, aci': seq<CubeInfo>,
                            cf: seq<real>, cf': seq<real>, sums: seq<real>, ciMove: CubeInfo, nPlies: nat, fTop: bool)
    requires |aci| == |aci'| == |cf| == |cf'| == 2 * |states| && |sums| == 5
    requires Recurses(e, b, ciMove, nPlies) && Batch(states, ciMove)
    requires forall k :: 0 <= k < |states| ==> Expanded(states[k], aci[2 * k], aci[2 * k + 1], fTop, true)
    requires SumsTo(e, b, ciMove, nPlies, 7, 1, aci, cf, sums)
    requires forall i :: 0 <= i < |cf| ==> cf'[i] == Inverted(cf[i], ciMove.nMatchTo)
    requires forall i :: 0 <= i < |aci| ==> aci'[i] == aci[i].(fMove := Not(aci[i].fMove))
    ensures forall k :: 0 <= k < |states| ==> Expanded(states[k], aci'[2 * k], aci'[2 * k + 1], fTop, false)
    ensures HoldsPlayOn(e, b, states, fTop, ciMove, nPlies, aci', cf')
  {
    hide Recurses, PlayOn, RollSum, Expanded, OutputSum;
    forall k | 0 <= k < |states|
      ensures Expanded(states[k], aci'[2 * k], aci'[2 * k + 1], fTop, false)
      ensures states[k].nCube > 0 ==>
                && cf'[2 * k] == PlayOn(e, b, states[k], ciMove, nPlies)
                && (!fTop && MayDouble(states[k]) ==> cf'[2 * k + 1] == PlayOn(e, b, Doubled(states[k]), ciMove, nPlies))
    {
      PairTurnedRound(e, b, states[k], aci[2 * k], aci[2 * k + 1], ciMove, nPlies, fTop);
    }
  }

  lemma PairTurnedRound(e: Engine, b: Board, ci: CubeInfo, kept: CubeInfo, turned: CubeInfo, ciMove: CubeInfo, nPlies: nat, fTop: bool)
    requires Recurses(e, b, ciMove, nPlies) && (ci.nCube > 0 ==> Available(ci) && ci.nMatchTo == ciMove.nMatchTo)
    requires Expanded(ci, kept, turned, fTop, true)
    ensures Expanded(ci, kept.(fMove := Not(kept.fMove)), turned.(fMove := Not(turned.fMove)), fTop, false)
    ensures ci.nCube > 0 ==>
              kept.nCube > 0 && Inverted(RollSum(e, b, kept, ciMove, nPlies, 7, 1), ciMove.nMatchTo) == PlayOn(e, b, ci, ciMove, nPlies)
    ensures ci.nCube > 0 && !fTop && MayDouble(ci) ==>
              turned.nCube > 0 && Inverted(RollSum(e, b, turned, ciMove, nPlies, 7, 1), ciMove.nMatchTo) == PlayOn(e, b, Doubled(ci), ciMove, nPlies)
  {
  }

  /** The leaf: static outputs, and an equity for each available slot only. */
  method EvaluateLeaf(e: Engine, anBoard: Board, arOutput: array<real>, arCf: array<real>, aciCubePos: array<CubeInfo>,
                      aci: array<CubeInfo>, ciMove: CubeInfo, nPlies: nat, fTop: bool)
    returns (fail: bool)
    requires arOutput.Length == 5 && arOutput != arCf && aci != aciCubePos && arCf.Length == aci.Length == 2 * aciCubePos.Length
    requires !Recurses(e, anBoard, ciMove, nPlies) && Batch(aciCubePos[..], ciMove)
    modifies arOutput, arCf, aci
    ensures !fail ==>
              && arOutput[..] == Cubeless(e, anBoard, ciMove, nPlies)
              && (forall k :: 0 <= k < aciCubePos.Length ==> Expanded(aciCubePos[k], aci[2 * k], aci[2 * k + 1], fTop, false))
              && HoldsPlayOn(e, anBoard, aciCubePos[..], fTop, ciMove, nPlies, aci[..], arCf[..])
  {
    fail := *;
    if fail {
      return;
    }
    var outputs := e.outputs(anBoard, ciMove);
    for i := 0 to 5
      invariant forall j :: 0 <= j < i ==> arOutput[j] == outputs[j]
    {
      arOutput[i] := outputs[i];
    }
    assert arOutput[..] == outputs;
    MakeCubePos(aciCubePos, aciCubePos.Length, fTop, aci, false);
    FillLeafEquities(e, anBoard, arCf, aci, ciMove);
    LeafEquities(e, anBoard, aciCubePos[..], aci[..], arCf[..], ciMove, nPlies, fTop);
  }

  method FillLeafEquities(e: Engine, anBoard: Board, arCf: array<real>, aci: array<CubeInfo>, ciMove: CubeInfo)
    requires arCf.Length == aci.Length
    modifies arCf
    ensures forall j :: 0 <= j < aci.Length && aci[..][j].nCube > 0 ==> arCf[..][j] == e.leafEquity(anBoard, ciMove, aci[..][j])
  {
    for ici := 0 to aci.Length
      invariant forall j :: 0 <= j < ici && aci[j].nCube > 0 ==> arCf[j] == e.leafEquity(anBoard, ciMove, aci[j])
    {
      if aci[ici].nCube > 0 {
        arCf[ici] := e.leafEquity(anBoard, ciMove, aci[ici]);
      }
    }
  }

  lemma LeafEquities(e: Engine, b: Board, states: seq<CubeInfo>, aci: seq<CubeInfo>, cf: seq<real>,
                     ciMove: CubeInfo, nPlies: nat, fTop: bool)
    requires |aci| == |cf| == 2 * |states|
    requires !Recurses(e, b, ciMove, nPlies) && Batch(states, ciMove)
    requires forall k :: 0 <= k < |states| ==> Expanded(states[k], aci[2 * k], aci[2 * k + 1], fTop, false)
    requires forall j :: 0 <= j < |aci| && aci[j].nCube > 0 ==> cf[j] == e.leafEquity(b, ciMove, aci[j])
    ensures HoldsPlayOn(e, b, states, fTop, ciMove, nPlies, aci, cf)
  {
    forall k | 0 <= k < |states| && states[k].nCube > 0
      ensures cf[2 * k] == PlayOn(e, b, states[k], ciMove, nPlies)
      ensures !fTop && MayDouble(states[k]) ==> cf[2 * k + 1] == PlayOn(e, b, Doubled(states[k]), ciMove, nPlies)
    {
      assert Expanded(states[k], aci[2 * k], aci[2 * k + 1], fTop, false);
    }
  }

  // ------------------------------------------------ slots that are not available

  /** GetECF3 takes the scale of every doubled equity from slot 0. Its answer for a
      state is right whatever the equities exactly when the state cannot double or
      slot 0 agrees with it on whether a match is played. */
  lemma ScaleFromSlotZero(e: Engine, first: CubeInfo, kept: CubeInfo, turned: CubeInfo)
    ensures (forall rKept, rTurned :: BestOfPair(e, first, kept, turned, rKept, rTurned)
                                   == BestOfPair(e, kept, kept, turned, rKept, rTurned))
            <==> (turned.nCube <= 0 || (first.nMatchTo == 0 <==> kept.nMatchTo == 0))
  {
    if turned.nCube > 0 && (first.nMatchTo == 0) != (kept.nMatchTo == 0) {
      var p := PassEquity(e, kept);
      var take := -1.0 - (if p < 0.0 then -p else p);
      var play := 2.0 * take - 1.0;
      assert Choice(play, take, p) == take && Choice(play, 2.0 * take, p) == 2.0 * take;
      assert BestOfPair(e, first, kept, turned, play, take) != BestOfPair(e, kept, kept, turned, play, take);
    }
  }

  /** Hence an unavailable slot 0, whose match length is junk, can reach an available
      slot: run on two vectors that differ only in that junk, with the same equities,
      GetECF3 values state 1 at a half and at a quarter. */
  method JunkInSlotZeroLeaks(e: Engine) returns (aci0: array<CubeInfo>, aci1: array<CubeInfo>, half: real, quarter: real)
    ensures aci0.Length == aci1.Length == 4 && aci0[1..] == aci1[1..] && aci0[0].nCube == aci1[0].nCube == -1
    ensures Available(aci0[2]) && MayDouble(aci0[2]) && aci0[3] == Doubled(aci0[2])
    ensures half == BestOfPair(e, aci0[0], aci0[2], aci0[3], 0.0, 0.25) == 0.5
    ensures quarter == BestOfPair(e, aci1[0], aci1[2], aci1[3], 0.0, 0.25) == 0.25
  {
    var owned := CubeInfo(1, -1, 0, 0, (0, 0), false, false, false, 0);
    var no := CLEARED.(nCube := -1);
    aci0 := new CubeInfo[4] [no, no, owned, Doubled(owned)];
    aci1 := new CubeInfo[4] [no.(nMatchTo := 7), no, owned, Doubled(owned)];
    var arCf, arCubeful := new real[4] [0.0, 0.0, 0.0, 0.25], new real[2];
    GetECF3(e, arCubeful, 2, arCf, aci0);
    assert arCubeful[1] == BestOfPair(e, aci0[0], aci0[2 * 1], aci0[2 * 1 + 1], arCf[2 * 1], arCf[2 * 1 + 1]);
    half := arCubeful[1];
    GetECF3(e, arCubeful, 2, arCf, aci1);
    assert arCubeful[1] == BestOfPair(e, aci1[0], aci1[2 * 1], aci1[2 * 1 + 1], arCf[2 * 1], arCf[2 * 1 + 1]);
    quarter := arCubeful[1];
  }

  // --------------------------------------------------- decisions at the root

  /** A double turns the cube before the reply is averaged: valuing the doubled
      cube at the top is valuing it one level down. */
  lemma ValueIsTheRootChoice(e: Engine, b: Board, ci: CubeInfo, ciMove: CubeInfo, nPlies: nat)
    requires Available(ci)
    ensures Value(e, b, ci, ciMove, nPlies, false)
            == if MayDouble(ci)
               then Choice(Value(e, b, ci, ciMove, nPlies, true),
                           TakeScale(ci) * Value(e, b, Turned(ci, false), ciMove, nPlies, true),
                           PassEquity(e, Kept(ci, false)))
               else Value(e, b, ci, ciMove, nPlies, true)
  {
    ValueAtTheRoot(e, b, ci, ciMove, nPlies);
    ValueAtTheRoot(e, b, Turned(ci, false), ciMove, nPlies);
    ValueBelow(e, b, ci, ciMove, nPlies);
    assert Turned(ci, false) == Doubled(ci);
    hide *;
  }

  lemma ValueAtTheRoot(e: Engine, b: Board, ci: CubeInfo, ciMove: CubeInfo, nPlies: nat)
    ensures Value(e, b, ci, ciMove, nPlies, true) == PlayOn(e, b, ci, ciMove, nPlies)
  {
    hide PlayOn;
  }

  lemma ValueBelow(e: Engine, b: Board, ci: CubeInfo, ciMove: CubeInfo, nPlies: nat)
    ensures Value(e, b, ci, ciMove, nPlies, false)
         == if MayDouble(ci)
            then Choice(PlayOn(e, b, ci, ciMove, nPlies), TakeScale(ci) * PlayOn(e, b, Doubled(ci), ciMove, nPlies),
                        PassEquity(e, Kept(ci, false)))
            else PlayOn(e, b, ci, ciMove, nPlies)
  {
    hide MayDouble, SetCubeInfo;
  }

  /** GeneralCubeDecisionE: the equities of "no double" and "double, take". */
  method GeneralCubeDecisionE(e: Engine, anBoard: Board, pci: CubeInfo, nPlies: nat)
    returns (r: int, rNoDouble: real, rTake: real, arOutput: Outputs)
    requires Available(pci)
    ensures r == 0 ==>
              && arOutput == Cubeless(e, anBoard, pci, nPlies)
              && rNoDouble == Value(e, anBoard, pci, pci, nPlies, true)
              && rTake == TakeScale(pci) * Value(e, anBoard, pci.(nCube := 2 * pci.nCube, fCubeOwner := Not(pci.fMove)), pci, nPlies, true)
  {
    hide PlayOn, Value, Cubeless;
    var aciCubePos := new CubeInfo[2](i => pci);
    aciCubePos[1] := aciCubePos[1].(fCubeOwner := Not(aciCubePos[1].fMove));
    aciCubePos[1] := aciCubePos[1].(nCube := 2 * aciCubePos[1].nCube);
    var ar, arCubeful := new real[5], new real[2];
    r := EvaluatePositionCubeful4(e, anBoard, ar, arCubeful, aciCubePos, 2, pci, nPlies, true);
    if r != 0 {
      return -1, 0.0, 0.0, [0.0, 0.0, 0.0, 0.0, 0.0];
    }
    ghost var states := aciCubePos[..];
    assert states[0] == pci && states[1] == pci.(nCube := 2 * pci.nCube, fCubeOwner := Not(pci.fMove));
    assert arCubeful[..][0] == Value(e, anBoard, pci, pci, nPlies, true);
    assert arCubeful[..][1] == Value(e, anBoard, states[1], pci, nPlies, true);
    assert ar[..] == Cubeless(e, anBoard, pci, nPlies);
    if pci.nMatchTo == 0 {
      arCubeful[1] := arCubeful[1] * 2.0;
    }
    assert arCubeful[1] == TakeScale(pci) * Value(e, anBoard, states[1], pci, nPlies, true);
    return 0, arCubeful[0], arCubeful[1], ar[..];
  }
}
