/** The loops over the 21 rolls of gnubg/eval.c take the average over the 36 equally likely
    ordered rolls. */
module RollAverages {
  import opened Boards
  import Cubeful
  import Evaluation

  /** What is averaged: a value for each roll, larger number first. */
  type RollValue = (nat, nat) -> real

  function Larger(i: nat, j: nat): nat {
    if i < j then j else i
  }

  function Smaller(i: nat, j: nat): nat {
    if i < j then i else j
  }

  /** The sum over all ordered rolls up to (i, j). */
  ghost function RowSum(f: RollValue, i: nat, j: nat): real {
    if j == 0 then 0.0 else RowSum(f, i, j - 1) + f(Larger(i, j), Smaller(i, j))
  }

  ghost function SquareSum(f: RollValue, i: nat, j: nat): real {
    if i == 0 then 0.0 else SquareSum(f, i - 1, j) + RowSum(f, i, j)
  }

  /** The sum of the loops: each roll of two different numbers counts twice. */
  ghost function TriangleSum(f: RollValue, n0: nat, n1: nat): real
    requires 1 <= n0 && 1 <= n1
    decreases n0, n1
  {
    if n1 > 1 then TriangleSum(f, n0, n1 - 1) + (if n0 == n1 - 1 then f(n0, n0) else 2.0 * f(n0, n1 - 1))
    else if n0 > 1 then TriangleSum(f, n0 - 1, n0)
    else 0.0
  }

  /** One column more. */
  lemma {:induction false} NextColumn(f: RollValue, i: nat, j: nat)
    requires i < j
    ensures SquareSum(f, i, j) == SquareSum(f, i, j - 1) + RowSum(f, j, i)
  {
    if i > 0 {
      NextColumn(f, i - 1, j);
    }
  }

  lemma {:induction false} TriangleRow(f: RollValue, n: nat, k: nat)
    requires 1 <= k <= n
    ensures TriangleSum(f, n, k) == TriangleSum(f, n, 1) + 2.0 * RowSum(f, n, k - 1)
    decreases k
  {
    if k > 1 {
      TriangleRow(f, n, k - 1);
    }
  }

  /** Counting unordered rolls by weight is counting ordered rolls. */
  lemma {:induction false} TriangleIsSquare(f: RollValue, n: nat)
    ensures TriangleSum(f, n + 1, 1) == SquareSum(f, n, n)
  {
    if n > 0 {
      TriangleIsSquare(f, n - 1);
      TriangleRow(f, n, n);
      NextColumn(f, n - 1, n);
      assert TriangleSum(f, n + 1, 1) == TriangleSum(f, n, n + 1);
    }
  }

  lemma {:induction false} EqualRow(f: RollValue, i: nat, j: nat, v: real)
    requires 1 <= i && forall m, n :: 1 <= n <= m ==> f(m, n) == v
    ensures RowSum(f, i, j) == j as real * v
  {
    if j > 0 {
      EqualRow(f, i, j - 1, v);
    }
  }

  lemma {:induction false} EqualSquare(f: RollValue, i: nat, j: nat, w: real)
    requires forall r: nat :: 1 <= r <= i ==> RowSum(f, r, j) == w
    ensures SquareSum(f, i, j) == i as real * w
  {
    hide RowSum;
    if i > 0 {
      EqualSquare(f, i - 1, j, w);
      assert RowSum(f, i, j) == w;
    }
  }

  // --------------------------------------------------------- the cubeful search

  /** The value of the opponent's cube state after the reply to a roll. */
  ghost function ReplyValue(e: Cubeful.Engine, b: Board, ciOpp: Cubeful.CubeInfo, ciMove: Cubeful.CubeInfo, nPlies: nat): RollValue
    requires nPlies > 0
  {
    (n0: nat, n1: nat) => Cubeful.Value(e, Cubeful.Swapped(e.reply(b, n0, n1, ciMove)), ciOpp, Cubeful.Opponent(ciMove), nPlies - 1, false)
  }

  lemma {:induction false} RollSumIs(e: Cubeful.Engine, b: Board, ciOpp: Cubeful.CubeInfo, ciMove: Cubeful.CubeInfo, nPlies: nat,
                                     n0: nat, n1: nat)
    requires nPlies > 0 && 1 <= n0 && 1 <= n1
    ensures Cubeful.RollSum(e, b, ciOpp, ciMove, nPlies, n0, n1)
         == TriangleSum(ReplyValue(e, b, ciOpp, ciMove, nPlies), n0, n1)
    decreases n0, n1
  {
    hide Cubeful.Value;
    if n1 > 1 {
      RollSumIs(e, b, ciOpp, ciMove, nPlies, n0, n1 - 1);
    } else if n0 > 1 {
      RollSumIs(e, b, ciOpp, ciMove, nPlies, n0 - 1, n0);
    }
  }

  /** A game that is not over is searched on, unless a money game has come to a position a
      perfect database knows. */
  predicate SearchedOn(pc: int, nMatchTo: int) {
    pc > 0 && (pc > 5 || nMatchTo != 0)
  }

  /** Otherwise, and with no ply left, the leaf equity stands. */
  lemma PlayOnAtLeaf(e: Cubeful.Engine, b: Board, ci: Cubeful.CubeInfo, ciMove: Cubeful.CubeInfo, nPlies: nat)
    requires nPlies == 0 || !SearchedOn(e.classify(b, ciMove.bgv), ciMove.nMatchTo)
    ensures Cubeful.PlayOn(e, b, ci, ciMove, nPlies)
         == e.leafEquity(b, ciMove, Cubeful.Recube(ci, ci.nCube, ci.fCubeOwner, ci.fMove))
    ensures Cubeful.Cubeless(e, b, ciMove, nPlies) == e.outputs(b, ciMove)
  {
  }

  /** Below a recursion the value of playing on is what the opponent's values average over the
      36 rolls, seen from the other side: the rest of the winning chance in a match, the
      negated equity for money. */
  lemma PlayOnIsAverage(e: Cubeful.Engine, b: Board, ci: Cubeful.CubeInfo, ciMove: Cubeful.CubeInfo, nPlies: nat)
    requires nPlies > 0 && SearchedOn(e.classify(b, ciMove.bgv), ciMove.nMatchTo)
    ensures var average := SquareSum(ReplyValue(e, b, Cubeful.Opponent(ci), ciMove, nPlies), 6, 6) / 36.0;
            Cubeful.PlayOn(e, b, ci, ciMove, nPlies) == if ci.nMatchTo != 0 then 1.0 - average else -average
  {
    hide Cubeful.Value, Cubeful.RollSum, SquareSum, Cubeful.Opponent;
    RollSumIs(e, b, Cubeful.Opponent(ci), ciMove, nPlies, 7, 1);
    TriangleIsSquare(ReplyValue(e, b, Cubeful.Opponent(ci), ciMove, nPlies), 6);
  }

  /** If every reply is worth the same to the opponent, playing on is worth just that to the
      player, turned round. */
  lemma PlayOnOfEqual(e: Cubeful.Engine, b: Board, ci: Cubeful.CubeInfo, ciMove: Cubeful.CubeInfo, nPlies: nat, v: real)
    requires nPlies > 0 && SearchedOn(e.classify(b, ciMove.bgv), ciMove.nMatchTo)
    requires forall m, n :: 1 <= n <= m ==> ReplyValue(e, b, Cubeful.Opponent(ci), ciMove, nPlies)(m, n) == v
    ensures Cubeful.PlayOn(e, b, ci, ciMove, nPlies) == if ci.nMatchTo != 0 then 1.0 - v else -v
  {
    hide SearchedOn, Cubeful.Value, Cubeful.RollSum, SquareSum, Cubeful.Opponent, Cubeful.PlayOn;
    PlayOnIsAverage(e, b, ci, ciMove, nPlies);
    hide ReplyValue;
    var f := ReplyValue(e, b, Cubeful.Opponent(ci), ciMove, nPlies);
    forall r: nat | 1 <= r <= 6 ensures RowSum(f, r, 6) == 6.0 * v {
      EqualRow(f, r, 6, v);
    }
    EqualSquare(f, 6, 6, 6.0 * v);
  }

  /** Output i of the same search. */
  ghost function ReplyChance(e: Cubeful.Engine, b: Board, ciMove: Cubeful.CubeInfo, nPlies: nat, i: nat): RollValue
    requires nPlies > 0 && i < 5
  {
    (n0: nat, n1: nat) => Cubeful.Cubeless(e, Cubeful.Swapped(e.reply(b, n0, n1, ciMove)), Cubeful.Opponent(ciMove), nPlies - 1)[i]
  }

  lemma {:induction false} OutputSumIs(e: Cubeful.Engine, b: Board, ciMove: Cubeful.CubeInfo, nPlies: nat, i: nat, n0: nat, n1: nat)
    requires nPlies > 0 && i < 5 && 1 <= n0 && 1 <= n1
    ensures Cubeful.OutputSum(e, b, ciMove, nPlies, i, n0, n1) == TriangleSum(ReplyChance(e, b, ciMove, nPlies, i), n0, n1)
    decreases n0, n1
  {
    hide Cubeful.Cubeless;
    if n1 > 1 {
      OutputSumIs(e, b, ciMove, nPlies, i, n0, n1 - 1);
    } else if n0 > 1 {
      OutputSumIs(e, b, ciMove, nPlies, i, n0 - 1, n0);
    }
  }

  /** The cubeless chances of the cubeful search. */
  lemma CubelessIsAverage(e: Cubeful.Engine, b: Board, ciMove: Cubeful.CubeInfo, nPlies: nat)
    requires nPlies > 0 && SearchedOn(e.classify(b, ciMove.bgv), ciMove.nMatchTo)
    ensures var v := Cubeful.Cubeless(e, b, ciMove, nPlies);
            && v[0] == 1.0 - SquareSum(ReplyChance(e, b, ciMove, nPlies, 0), 6, 6) / 36.0
            && v[1] == SquareSum(ReplyChance(e, b, ciMove, nPlies, 3), 6, 6) / 36.0
            && v[2] == SquareSum(ReplyChance(e, b, ciMove, nPlies, 4), 6, 6) / 36.0
            && v[3] == SquareSum(ReplyChance(e, b, ciMove, nPlies, 1), 6, 6) / 36.0
            && v[4] == SquareSum(ReplyChance(e, b, ciMove, nPlies, 2), 6, 6) / 36.0
  {
    hide Cubeful.OutputSum, SquareSum, ReplyChance;
    forall i: nat | i < 5
      ensures Cubeful.OutputSum(e, b, ciMove, nPlies, i, 7, 1) == SquareSum(ReplyChance(e, b, ciMove, nPlies, i), 6, 6)
    {
      OutputSumIs(e, b, ciMove, nPlies, i, 7, 1);
      TriangleIsSquare(ReplyChance(e, b, ciMove, nPlies, i), 6);
    }
  }

  // ------------------------------------------------------- the cubeless search

  /** Output i of the position after the reply to a roll. */
  ghost function ReplyOutput(e: Evaluation.Evaluator, b: Board, nPlies: nat, i: nat): RollValue
    requires nPlies > 0 && i < 5
  {
    (n0: nat, n1: nat) => Evaluation.Value(e, Cubeful.Swapped(e.reply(b, n0, n1)), nPlies - 1)[i]
  }

  lemma {:induction false} SumIs(e: Evaluation.Evaluator, b: Board, nPlies: nat, i: nat, n0: nat, n1: nat)
    requires nPlies > 0 && i < 5 && 1 <= n0 <= 7 && 1 <= n1 <= n0 + 1
    ensures Evaluation.Sum(e, b, nPlies, i, n0, n1) == TriangleSum(ReplyOutput(e, b, nPlies, i), n0, n1)
    decreases n0, n1
  {
    hide Evaluation.Value;
    if n1 > 1 {
      SumIs(e, b, nPlies, i, n0, n1 - 1);
    } else if n0 > 1 {
      SumIs(e, b, nPlies, i, n0 - 1, n0);
    }
  }

  /** The player's chance of winning is the average chance that the opponent, then on roll,
      does not; gammons and backgammons change sides. */
  lemma ValueIsAverage(e: Evaluation.Evaluator, b: Board, nPlies: nat)
    requires nPlies > 0 && e.classify(b) > Cubeful.CLASS_PERFECT
    ensures var v := Evaluation.Value(e, b, nPlies);
            && v[0] == 1.0 - SquareSum(ReplyOutput(e, b, nPlies, 0), 6, 6) / 36.0
            && v[1] == SquareSum(ReplyOutput(e, b, nPlies, 3), 6, 6) / 36.0
            && v[2] == SquareSum(ReplyOutput(e, b, nPlies, 4), 6, 6) / 36.0
            && v[3] == SquareSum(ReplyOutput(e, b, nPlies, 1), 6, 6) / 36.0
            && v[4] == SquareSum(ReplyOutput(e, b, nPlies, 2), 6, 6) / 36.0
  {
    hide Evaluation.Sum, SquareSum, ReplyOutput, Evaluation.Leaf;
    forall i: nat | i < 5
      ensures Evaluation.Sum(e, b, nPlies, i, 7, 1) == SquareSum(ReplyOutput(e, b, nPlies, i), 6, 6)
    {
      SumIs(e, b, nPlies, i, 7, 1);
      TriangleIsSquare(ReplyOutput(e, b, nPlies, i), 6);
    }
  }
}
