/** Cube decisions at the root (gnubg/eval.c): which action and which reply are named for
    the equities of no double, double and take, and double and pass. */
module CubeDecision {
  import opened Boards
  import opened Cubeful

  datatype Action = NoDouble | Double | TooGood

  datatype Reply = Take | Pass | Beaver

  datatype Decision =
    | NotAvailable
    | DeadCube(redouble: bool)
    | Decision(action: Action, reply: Reply, optional: bool, redouble: bool)

  /** The equities of the three courses, and whether winning at all and winning a gammon
      are possible. */
  datatype Equities = Equities(noDouble: real, take: real, drop: real, winAny: bool, winGammon: bool)

  const EPSILON: real := 0.00001

  predicate IsOptional(r1: real, r2: real) {
    -EPSILON <= r1 - r2 <= EPSILON
  }

  /** The opponent would gain by turning the cube at once. */
  predicate BeaverZone(pci: CubeInfo, q: Equities) {
    pci.nMatchTo == 0 && pci.fBeavers && -2.0 <= q.take <= 0.0
  }

  /** The equity of the course a decision names. */
  function Named(d: Decision, q: Equities): real {
    if !d.Decision? || !d.action.Double? then q.noDouble else if d.reply.Pass? then q.drop else q.take
  }

  /** The named course is not the best of the three for its player: a double the opponent
      would beaver at a loss to the player, a double by a player who cannot win, or playing
      on for a gammon that cannot be won. */
  predicate NamesAnother(pci: CubeInfo, q: Equities) {
    || (q.noDouble < q.take < q.drop && if BeaverZone(pci, q) then 2.0 * q.take < q.noDouble else !q.winAny)
    || (q.noDouble > q.drop && q.take > q.drop && !q.winGammon)
  }

  /** FindBestCubeDecision: the optimal equity, and the decision named for it. */
  method FindBestCubeDecision(pci: CubeInfo, q: Equities) returns (d: Decision, rOptimal: real)
    ensures rOptimal == if MayDouble(pci) then Choice(q.noDouble, q.take, q.drop) else q.noDouble
    ensures d.Decision? <==> MayDouble(pci)
    ensures d.DeadCube? ==> pci.nMatchTo != 0 && d.redouble == (pci.fCubeOwner != -1)
    ensures !MayDouble(pci) ==>
              (d.DeadCube? <==> pci.nMatchTo != 0 && (pci.fCubeOwner < 0 || pci.fCubeOwner == pci.fMove))
    ensures d.Decision? ==>
              && (d.reply.Pass? <==> q.take > q.drop || (q.take == q.drop && q.drop >= q.noDouble))
              && (d.reply.Beaver? <==> && pci.nMatchTo == 0 && pci.fBeavers && -2.0 <= q.take <= 0.0
                                       && q.take < q.drop && q.noDouble <= q.drop)
              && (d.action.TooGood? <==> q.noDouble > q.drop && q.winGammon)
              && (Named(d, q) == rOptimal <==> !NamesAnother(pci, q))
              && (d.action.Double? <==>
                    || (q.take >= q.noDouble && q.drop >= q.noDouble
                        && (q.take >= q.drop || if d.reply.Beaver? then 2.0 * q.take >= q.noDouble else q.winAny))
                    || (q.noDouble > q.drop && q.take > q.drop && !q.winGammon))
              && (d.optional <==>
                    && d.action.Double? && q.drop >= q.noDouble && 0.0 <= rOptimal - q.noDouble <= 0.00001
                    && (d.reply.Pass? ==> (q.winGammon && (pci.nMatchTo != 0 || pci.fCubeOwner != -1 || !pci.fJacoby))))
              && (d.redouble <==> pci.fCubeOwner != -1 && !(d.reply.Beaver? && q.take >= q.noDouble))
  {
    var owned := pci.fCubeOwner != -1;
    if !MayDouble(pci) {
      if pci.nMatchTo != 0 && (pci.fCubeOwner < 0 || pci.fCubeOwner == pci.fMove) {
        return DeadCube(owned), q.noDouble;
      }
      return NotAvailable, q.noDouble;
    }
    if q.take >= q.noDouble && q.drop >= q.noDouble {
      if q.drop > q.take {
        var f := IsOptional(q.take, q.noDouble);
        rOptimal := q.take;
        if BeaverZone(pci, q) {
          if q.take * 2.0 < q.noDouble {
            d := Decision(NoDouble, Beaver, false, false);
          } else {
            d := Decision(Double, Beaver, f, false);
          }
        } else if q.winAny {
          d := Decision(Double, Take, f, owned);
        } else {
          d := Decision(NoDouble, Take, false, owned);
        }
      } else {
        rOptimal := q.drop;
        var f := IsOptional(q.noDouble, q.drop) && q.winGammon && (pci.nMatchTo != 0 || owned || !pci.fJacoby);
        d := Decision(Double, Pass, f, owned);
      }
    } else {
      rOptimal := q.noDouble;
      if q.noDouble > q.take {
        if q.take > q.drop {
          d := Decision(if q.winGammon then TooGood else Double, Pass, false, owned);
        } else if q.noDouble > q.drop {
          d := Decision(if q.winGammon then TooGood else NoDouble, Take, false, owned);
        } else {
          d := Decision(NoDouble, if BeaverZone(pci, q) then Beaver else Take, false, owned);
        }
      } else {
        d := Decision(if q.winGammon then TooGood else Double, Pass, false, owned);
      }
    }
  }

  // ------------------------------------------------------------ match equities

  /** mwc2eq: match winning chances on the scale where losing the game at the current cube
      is -1 and winning it is 1. */
  function Mwc2Eq(rMwc: real, win: real, lose: real): real
    requires win > lose
  {
    (2.0 * rMwc - (win + lose)) / (win - lose)
  }

  /** What is shown for an equity of the search. */
  function Shown(r: real, pci: CubeInfo, ends: (real, real)): real
    requires pci.nMatchTo != 0 ==> ends.0 > ends.1
  {
    if pci.nMatchTo != 0 then Mwc2Eq(r, ends.0, ends.1) else r
  }

  lemma QuotientOrder(x: real, y: real, d: real)
    requires d > 0.0
    ensures x / d <= y / d <==> x <= y
  {
    var u, v := x / d, y / d;
    assert x == u * d && y == v * d;
    if u <= v {
      assert (v - u) * d >= 0.0;
    } else {
      assert (u - v) * d > 0.0;
    }
  }

  lemma ShownInOrder(r: real, s: real, pci: CubeInfo, ends: (real, real))
    requires pci.nMatchTo != 0 ==> ends.0 > ends.1
    ensures Shown(r, pci, ends) <= Shown(s, pci, ends) <==> r <= s
  {
    if pci.nMatchTo != 0 {
      QuotientOrder(2.0 * r - (ends.0 + ends.1), 2.0 * s - (ends.0 + ends.1), ends.0 - ends.1);
    }
  }

  /** Converting the three equities first and choosing then is choosing first. */
  lemma ShownChoice(noDouble: real, take: real, pass: real, pci: CubeInfo, ends: (real, real))
    requires pci.nMatchTo != 0 ==> ends.0 > ends.1
    ensures Choice(Shown(noDouble, pci, ends), Shown(take, pci, ends), Shown(pass, pci, ends))
         == Shown(Choice(noDouble, take, pass), pci, ends)
  {
    hide Shown;
    ShownInOrder(noDouble, take, pci, ends);
    ShownInOrder(take, noDouble, pci, ends);
    ShownInOrder(noDouble, pass, pci, ends);
    ShownInOrder(pass, noDouble, pci, ends);
    ShownInOrder(take, pass, pci, ends);
    ShownInOrder(pass, take, pci, ends);
  }

  /** The three equities as shown, with the chances of winning. */
  function ShownEquities(e: Engine, pci: CubeInfo, rNoDouble: real, rTake: real, arOutput: Outputs, ends: (real, real)): Equities
    requires pci.nMatchTo != 0 ==> ends.0 > ends.1
  {
    Equities(Shown(rNoDouble, pci, ends), Shown(rTake, pci, ends), Shown(PassEquity(e, pci), pci, ends),
             arOutput[OUTPUT_WIN] > 0.0, arOutput[OUTPUT_WINGAMMON] > 0.0)
  }

  /** FindCubeDecision: the equities of the search are converted in a match. */
  method FindCubeDecision(e: Engine, pci: CubeInfo, rNoDouble: real, rTake: real, arOutput: Outputs, ends: (real, real))
    returns (d: Decision, rOptimal: real)
    requires pci.nMatchTo != 0 ==> ends.0 > ends.1
    ensures rOptimal == Shown(if MayDouble(pci) then Choice(rNoDouble, rTake, PassEquity(e, pci)) else rNoDouble, pci, ends)
    ensures MayDouble(pci) ==>
              var q := ShownEquities(e, pci, rNoDouble, rTake, arOutput, ends);
              Named(d, q) == rOptimal <==> !NamesAnother(pci, q)
  {
    ShownChoice(rNoDouble, rTake, PassEquity(e, pci), pci, ends);
    hide Shown, Choice;
    var noDouble, take, drop := rNoDouble, rTake, PassEquity(e, pci);
    noDouble, take, drop := Shown(noDouble, pci, ends), Shown(take, pci, ends), Shown(drop, pci, ends);
    d, rOptimal := FindBestCubeDecision(pci, Equities(noDouble, take, drop, arOutput[OUTPUT_WIN] > 0.0, arOutput[OUTPUT_WINGAMMON] > 0.0));
  }

  lemma RootStates(pci: CubeInfo)
    requires Available(pci) && Recube(pci, pci.nCube, pci.fCubeOwner, pci.fMove) == pci
    ensures Turned(pci, false) == pci.(nCube := 2 * pci.nCube, fCubeOwner := Not(pci.fMove))
    ensures Kept(pci, false) == pci
  {
  }

  /** The equity a player is shown for the best decision is the value the search gives the
      same state below the root, on the scale it is shown on. */
  method CubeDecisionIsValue(e: Engine, anBoard: Board, pci: CubeInfo, nPlies: nat, ends: (real, real))
    returns (r: int, d: Decision, rOptimal: real)
    requires Available(pci) && Recube(pci, pci.nCube, pci.fCubeOwner, pci.fMove) == pci
    requires pci.nMatchTo != 0 ==> ends.0 > ends.1
    ensures r == 0 ==> rOptimal == Shown(Value(e, anBoard, pci, pci, nPlies, false), pci, ends)
  {
    RootStates(pci);
    ValueIsTheRootChoice(e, anBoard, pci, pci, nPlies);
    hide *;
    var rNoDouble, rTake, arOutput;
    r, rNoDouble, rTake, arOutput := GeneralCubeDecisionE(e, anBoard, pci, nPlies);
    d, rOptimal := FindCubeDecision(e, pci, rNoDouble, rTake, arOutput, ends);
  }
}
