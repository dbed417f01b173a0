/** Who may turn the cube (GetDPEq of gnubg/eval.c), in terms of the rules of doubling. */
module DoublingRules {
  import opened Boards
  import opened Common
  import opened Cubeful

  /** Winning so many points would win the match. */
  predicate WinsMatch(ci: CubeInfo, player: int, points: int) {
    ci.nMatchTo > 0 && Score(ci, player) + points >= ci.nMatchTo
  }

  predicate OpponentOwns(ci: CubeInfo) {
    ci.fCubeOwner == Not(ci.fMove)
  }

  /** The player on roll may double exactly if the opponent does not own the cube and, in a
      match, it is not the Crawford game and a win at the present cube would not win the
      match already. The code's test after the Crawford game follows from the last. */
  lemma MayDoubleIsRule(ci: CubeInfo)
    requires Available(ci)
    ensures MayDouble(ci) <==>
              !OpponentOwns(ci) && (ci.nMatchTo > 0 ==> !ci.fCrawford && !WinsMatch(ci, ci.fMove, ci.nCube))
  {
  }

  /** A money game and a live match cube can be turned; the cube of a player one point from
      the match cannot. */
  lemma MayDoubleAtStart(ci: CubeInfo)
    requires Available(ci) && ci.fCubeOwner == -1 && ci.nCube == 1 && !ci.fCrawford
    ensures ci.nMatchTo == 0 ==> MayDouble(ci)
    ensures ci.nMatchTo >= 2 && ci.anScore == (0, 0) ==> MayDouble(ci)
    ensures ci.nMatchTo > 0 && Score(ci, ci.fMove) == ci.nMatchTo - 1 ==> !MayDouble(ci)
  {
  }

  /** Passing a cube state on keeps the game it belongs to: the match, the score and the
      Crawford game, or the rules of the money game. */
  lemma RecubeKeepsGame(ci: CubeInfo, nCube: int, fCubeOwner: int, fMove: int)
    requires Available(ci) && nCube >= 1 && -1 <= fCubeOwner <= 1 && 0 <= fMove <= 1
    ensures var r := Recube(ci, nCube, fCubeOwner, fMove);
            && Available(r) && r.nCube == nCube && r.fCubeOwner == fCubeOwner && r.fMove == fMove
            && r.nMatchTo == ci.nMatchTo && r.bgv == ci.bgv
            && (ci.nMatchTo != 0 ==> r.anScore == ci.anScore && r.fCrawford == ci.fCrawford && !r.fJacoby && !r.fBeavers)
            && (ci.nMatchTo == 0 ==> r.fJacoby == ci.fJacoby && r.fBeavers == ci.fBeavers && !r.fCrawford && r.anScore == (0, 0))
  {
  }

  /** Nobody doubles twice in a row. */
  lemma NotTwice(ci: CubeInfo)
    requires Available(ci)
    ensures Available(Doubled(ci)) && Doubled(ci).nCube == 2 * ci.nCube && !MayDouble(Doubled(ci))
  {
  }

  /** The taker may redouble exactly while a win at the doubled cube would not win the match. */
  lemma TakerMayRedouble(ci: CubeInfo)
    requires Available(ci) && MayDouble(ci)
    ensures MayDouble(Opponent(Doubled(ci))) <==> !WinsMatch(ci, Not(ci.fMove), 2 * ci.nCube)
  {
  }

  /** A cube worth the whole match is never turned, by whoever. */
  lemma WholeMatchIsDead(ci: CubeInfo)
    requires Available(ci) && 0 < ci.nMatchTo <= ci.nCube && ci.anScore.0 >= 0 && ci.anScore.1 >= 0
    ensures !MayDouble(ci) && !MayDouble(Opponent(ci))
  {
  }

  /** The players in turn can turn the cube k times. */
  ghost predicate CanTurn(ci: CubeInfo, k: nat)
    decreases k
  {
    k == 0 || (MayDouble(ci) && CanTurn(Opponent(Doubled(ci)), k - 1))
  }

  /** The last turn of the cube is at a value below the length of the match. */
  lemma {:induction false} TurnsEnd(ci: CubeInfo, k: nat)
    requires Available(ci) && ci.nMatchTo > 0 && ci.anScore.0 >= 0 && ci.anScore.1 >= 0 && k >= 1 && CanTurn(ci, k)
    ensures ci.nCube * Pow2(k - 1) < ci.nMatchTo
    decreases k
  {
    CubeIsLive(ci);
    if k > 1 {
      var next := Opponent(Doubled(ci));
      NextIs(ci);
      assert CanTurn(next, k - 1);
      hide CanTurn, Opponent, Doubled, Available, MayDouble, Pow2;
      TurnsEnd(next, k - 1);
      Pow2Step(k - 1);
      assert ci.nCube * (2 * Pow2(k - 2)) == (2 * ci.nCube) * Pow2(k - 2);
    }
  }

  lemma CubeIsLive(ci: CubeInfo)
    requires Available(ci) && ci.nMatchTo > 0 && ci.anScore.0 >= 0 && ci.anScore.1 >= 0 && MayDouble(ci)
    ensures ci.nCube < ci.nMatchTo
  {
  }

  lemma NextIs(ci: CubeInfo)
    requires Available(ci)
    ensures var next := Opponent(Doubled(ci));
            && Available(next) && next.nCube == 2 * ci.nCube && next.nMatchTo == ci.nMatchTo
            && (ci.nMatchTo > 0 ==> next.anScore == ci.anScore)
  {
  }

  /** The right to double never costs anything, and is worth something exactly when both
      replies to a double are better for the doubler than playing on; the opponent then
      chooses the cheaper. */
  lemma RightToDouble(e: Engine, b: Board, ci: CubeInfo, ciMove: CubeInfo, nPlies: nat, may: real, play: real, take: real, pass: real)
    requires Available(ci)
    requires may == Value(e, b, ci, ciMove, nPlies, false) && play == Value(e, b, ci, ciMove, nPlies, true)
    requires take == Value(e, b, Turned(ci, false), ciMove, nPlies, true) * (if ci.nMatchTo == 0 then 2.0 else 1.0)
    requires pass == PassEquity(e, Kept(ci, false))
    ensures may >= play && (may > play <==> MayDouble(ci) && take > play && pass > play)
    ensures may > play ==> may <= take && may <= pass && (may == take || may == pass)
  {
    ValueIsTheRootChoice(e, b, ci, ciMove, nPlies);
    ScaleIs(ci);
    ChoiceIs(play, take, pass);
    hide *;
    if ci.nMatchTo == 0 {
      assert take == TakeScale(ci) * Value(e, b, Turned(ci, false), ciMove, nPlies, true);
    } else {
      assert take == TakeScale(ci) * Value(e, b, Turned(ci, false), ciMove, nPlies, true);
    }
  }

  lemma ScaleIs(ci: CubeInfo)
    ensures TakeScale(ci) == if ci.nMatchTo == 0 then 2.0 else 1.0
  {
  }

  lemma ChoiceIs(play: real, take: real, pass: real)
    ensures var may := Choice(play, take, pass);
            && may >= play && (may > play <==> take > play && pass > play)
            && (may > play ==> may <= take && may <= pass && (may == take || may == pass))
  {
  }
}
