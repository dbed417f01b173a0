/** The 0-ply choice of a reply inside a search (gnubg/eval.c): the pruning nets pick
    a few candidates, the full evaluation decides between them. */
module Pruning {
  import opened Boards
  import opened Plays
  import opened MoveGenerator
  import opened LegalPlays
  import opened Common

  const MIN_PRUNE_MOVES := 5
  const MAX_PRUNE_MOVES := 16
  const CLASS_RACE := 8

  lemma {:induction false} Pow2Grows(i: nat, j: nat)
    requires i <= j
    ensures Pow2(i) <= Pow2(j)
  {
    if i < j {
      Pow2Grows(i, j - 1);
    }
  }

  /** m is n with the low bits shifted out. */
  ghost predicate Shifted(n: nat, p: nat, m: nat) {
    m * p <= n < (m + 1) * p
  }

  /** The integer part of the base-2 logarithm. */
  method LogCube(n: nat) returns (i: nat)
    requires n >= 1
    ensures Pow2(i) <= n < Pow2(i + 1)
  {
    hide *;
    i := 0;
    var m: nat := n / 2;
    FirstShift(n);
    while m != 0
      invariant Shifted(n, Pow2(i + 1), m) && Pow2(i) <= n
    {
      NextShift(n, i, m);
      m := m / 2;
      i := i + 1;
    }
    NothingLeft(n, Pow2(i + 1));
  }

  lemma FirstShift(n: nat)
    requires n >= 1
    ensures Shifted(n, Pow2(1), n / 2) && Pow2(0) <= n
  {
    assert Pow2(1) == 2;
  }

  lemma NextShift(n: nat, i: nat, m: nat)
    requires m >= 1 && Shifted(n, Pow2(i + 1), m)
    ensures Shifted(n, Pow2(i + 2), m / 2) && Pow2(i + 1) <= n
  {
    Pow2Step(i + 2);
    Halve(m, Pow2(i + 1), n);
  }

  lemma NothingLeft(n: nat, p: nat)
    requires Shifted(n, p, 0)
    ensures n < p
  {
  }

  lemma Halve(m: nat, p: nat, n: nat)
    requires m >= 1 && m * p <= n < (m + 1) * p
    ensures p <= n && (m / 2) * (2 * p) <= n < (m / 2 + 1) * (2 * p)
  {
    var h := m / 2;
    assert h * (2 * p) == (2 * h) * p;
    Products(2 * h, m, p);
    Products(m + 1, 2 * h + 2, p);
    assert (2 * h + 2) * p == (h + 1) * (2 * p);
    Products(1, m, p);
  }

  lemma Products(x: nat, y: nat, p: nat)
    requires x <= y
    ensures x * p <= y * p
  {
  }

  /** With at most MAX_MOVES moves the candidates fit their array. */
  lemma CandidatesFit(n: nat, i: nat)
    requires 1 <= n <= MAX_MOVES && Pow2(i) <= n
    ensures MIN_PRUNE_MOVES + i <= MAX_PRUNE_MOVES
  {
    assert Pow2(12) == 4096;
    if i >= 12 {
      Pow2Grows(12, i);
    }
  }

  // -------------------------------------------------------------- selecting

  /** Indices below n, each once, with the lowest scores of all; the highest of
      these comes first. */
  ghost predicate Selected(rScore: seq<real>, sel: seq<nat>, n: nat) {
    && n <= |rScore| && sel != []
    && (forall k :: 0 <= k < |sel| ==> sel[k] < n)
    && (forall j, k :: 0 <= j < k < |sel| ==> sel[j] != sel[k])
    && (forall k :: 0 <= k < |sel| ==> rScore[sel[k]] <= rScore[sel[0]])
    && forall x: nat :: x < n && x !in sel ==> rScore[x] >= rScore[sel[0]]
  }

  /** While there is room every move is a candidate. */
  ghost predicate Filling(rScore: seq<real>, sel: seq<nat>, n: nat) {
    && n <= |rScore| && |sel| == n
    && (forall x: nat :: x < n ==> x in sel)
    && (forall k :: 0 <= k < |sel| ==> sel[k] < n)
    && (forall j, k :: 0 <= j < k < |sel| ==> sel[j] != sel[k])
    && (forall k :: 0 <= k < |sel| ==> rScore[sel[k]] <= rScore[sel[0]])
  }

  ghost predicate Candidates(rScore: seq<real>, cells: seq<nat>, n: nat, prune: nat) {
    && 1 <= prune <= |cells|
    && if n <= prune then Filling(rScore, cells[..n], n) else Selected(rScore, cells[..prune], n)
  }

  lemma AddCandidate(rScore: seq<real>, sel: seq<nat>, n: nat)
    requires n < |rScore| && Filling(rScore, sel, n)
    ensures n > 0 ==> sel[0] < |rScore|
    ensures n > 0 && rScore[n] > rScore[sel[0]] ==> Filling(rScore, [n] + sel[1..] + [sel[0]], n + 1)
    ensures n == 0 || rScore[n] <= rScore[sel[0]] ==> Filling(rScore, sel + [n], n + 1)
  {
    if n > 0 {
      assert sel == [sel[0]] + sel[1..];
    }
    if n > 0 && rScore[n] > rScore[sel[0]] {
      var t := [n] + sel[1..] + [sel[0]];
      forall x: nat | x < n + 1 ensures x in t {
        assert x < n ==> x in sel;
      }
    } else {
      forall x: nat | x < n + 1 ensures x in sel + [n] {
        assert x < n ==> x in sel;
      }
    }
  }

  lemma FilledIsSelected(rScore: seq<real>, cells: seq<nat>, n: nat, prune: nat)
    requires Candidates(rScore, cells, n, prune) && n >= prune
    ensures Selected(rScore, cells[..prune], n)
  {
  }

  /** The position of the highest score among the candidates. */
  method HighestOf(bmovesi: array<nat>, prune: nat, rScore: seq<real>) returns (m: nat)
    requires 1 <= prune <= bmovesi.Length && forall k :: 0 <= k < prune ==> bmovesi[k] < |rScore|
    ensures m < prune && forall k :: 0 <= k < prune ==> rScore[bmovesi[k]] <= rScore[bmovesi[m]]
  {
    m := 0;
    var k := 1;
    while k < prune
      invariant 1 <= k <= prune && m < k
      invariant forall x :: 0 <= x < k ==> rScore[bmovesi[x]] <= rScore[bmovesi[m]]
    {
      if rScore[bmovesi[k]] > rScore[bmovesi[m]] {
        m := k;
      }
      k := k + 1;
    }
  }

  /** The highest candidate makes way for a lower newcomer. */
  lemma Displace(rScore: seq<real>, sel: seq<nat>, n: nat, m: nat, u: seq<nat>, t: seq<nat>)
    requires Selected(rScore, sel, n) && n < |rScore| && rScore[n] < rScore[sel[0]] && m < |sel|
    requires u == sel[0 := n] && t == u[0 := u[m]][m := n]
    requires forall k :: 0 <= k < |u| ==> u[k] < |rScore| && rScore[u[k]] <= rScore[u[m]]
    ensures Selected(rScore, t, n + 1)
  {
    forall k | 0 <= k < |t| ensures t[k] < n + 1 && rScore[t[k]] <= rScore[t[0]] {
      assert t[0] == u[m] && rScore[u[k]] <= rScore[u[m]] && rScore[u[0]] <= rScore[u[m]];
    }
    forall x: nat | x < n + 1 && x !in t ensures rScore[x] >= rScore[t[0]] {
      assert t[m] == n;
      if x in sel {
        LeftOut(sel, n, m, u, t, x);
      }
      assert m > 0 ==> t[0] == sel[m];
    }
  }

  lemma LeftOut(sel: seq<nat>, n: nat, m: nat, u: seq<nat>, t: seq<nat>, x: nat)
    requires m < |sel| && u == sel[0 := n] && t == u[0 := u[m]][m := n] && x in sel
    ensures x == sel[0] || x in t
  {
    var k :| 0 <= k < |sel| && sel[k] == x;
    if k != 0 {
      assert x == (if k == m then t[0] else t[k]);
    }
  }

  /** One move against the candidates so far. */
  method Consider(bmovesi: array<nat>, prune: nat, rScore: seq<real>, i: nat)
    requires i < |rScore| && Candidates(rScore, bmovesi[..], i, prune)
    modifies bmovesi
    ensures Candidates(rScore, bmovesi[..], i + 1, prune)
  {
    hide Selected, Filling;
    assert bmovesi[..][..prune] == bmovesi[..prune];
    if i < prune {
      ghost var sel := bmovesi[..i];
      assert bmovesi[..][..i] == sel;
      AddCandidate(rScore, sel, i);
      bmovesi[i] := i;
      if rScore[i] > rScore[bmovesi[0]] {
        bmovesi[i] := bmovesi[0];
        bmovesi[0] := i;
        assert bmovesi[..][..i + 1] == [i] + sel[1..] + [sel[0]];
      } else {
        assert bmovesi[..][..i + 1] == sel + [i];
      }
    } else {
      ghost var sel := bmovesi[..prune];
      FilledIsSelected(rScore, bmovesi[..], i, prune);
      InRange(rScore, sel, i);
      if rScore[i] < rScore[bmovesi[0]] {
        bmovesi[0] := i;
        assert bmovesi[..prune] == sel[0 := i];
        var m := HighestOf(bmovesi, prune, rScore);
        bmovesi[0] := bmovesi[m];
        bmovesi[m] := i;
        Displace(rScore, sel, i, m, sel[0 := i], bmovesi[..prune]);
        assert bmovesi[..][..prune] == bmovesi[..prune];
      } else {
        StaysSelected(rScore, sel, i);
      }
    }
  }

  lemma InRange(rScore: seq<real>, sel: seq<nat>, n: nat)
    requires Selected(rScore, sel, n)
    ensures forall k :: 0 <= k < |sel| ==> sel[k] < n <= |rScore|
  {
  }

  lemma StaysSelected(rScore: seq<real>, sel: seq<nat>, n: nat)
    requires Selected(rScore, sel, n) && n < |rScore| && rScore[n] >= rScore[sel[0]]
    ensures Selected(rScore, sel, n + 1)
  {
  }

  // ------------------------------------------------------ the selection loop

  /** All positions are of one class the pruning nets know: race, crashed or contact. */
  ghost predicate OneClass(keys: seq<Board>, cls: Board -> int, n: nat)
    requires 1 <= n <= |keys|
  {
    cls(keys[0]) >= 8 && forall i :: 0 <= i < n ==> cls(keys[i]) == cls(keys[0])
  }

  ghost function Scores(keys: seq<Board>, opp: Board -> real): seq<real> {
    seq(|keys|, i requires 0 <= i < |keys| => opp(keys[i]))
  }

  /** The loop over the moves: it scans them all exactly if they are of one class, and
      then holds the `prune` moves that leave the opponent worst off. */
  method SelectMoves(keys: seq<Board>, prune: nat, cls: Board -> int, opp: Board -> real)
    returns (bmovesi: array<nat>, scanned: bool)
    requires 1 <= prune <= MAX_PRUNE_MOVES && prune < |keys|
    ensures bmovesi.Length == MAX_PRUNE_MOVES
    ensures scanned <==> OneClass(keys, cls, |keys|)
    ensures scanned ==> Selected(Scores(keys, opp), bmovesi[..prune], |keys|)
  {
    hide Selected, Candidates, Scores;
    bmovesi := new nat[MAX_PRUNE_MOVES];
    var rScore: seq<real> := ScoresOf(keys, opp);
    NoCandidates(rScore, bmovesi[..], prune);
    var i := 0;
    while i < |keys|
      invariant 0 <= i <= |keys| && Candidates(rScore, bmovesi[..], i, prune)
      invariant i > 0 ==> OneClass(keys, cls, i)
    {
      var pc := cls(keys[i]);
      if i == 0 {
        if pc < CLASS_RACE {
          return bmovesi, false;
        }
      } else if pc != cls(keys[0]) {
        return bmovesi, false;
      }
      Consider(bmovesi, prune, rScore, i);
      i := i + 1;
    }
    FilledIsSelected(rScore, bmovesi[..], i, prune);
    assert bmovesi[..][..prune] == bmovesi[..prune];
    return bmovesi, true;
  }

  method ScoresOf(keys: seq<Board>, opp: Board -> real) returns (rScore: seq<real>)
    ensures rScore == Scores(keys, opp) && |rScore| == |keys|
  {
    rScore := [];
    for i := 0 to |keys|
      invariant rScore == Scores(keys[..i], opp)
    {
      rScore := rScore + [opp(keys[i])];
    }
    assert keys[..|keys|] == keys;
  }

  lemma NoCandidates(rScore: seq<real>, cells: seq<nat>, prune: nat)
    requires 1 <= prune <= |cells|
    ensures Candidates(rScore, cells, 0, prune)
  {
    assert cells[..0] == [];
  }

  // --------------------------------------------------- scoring the candidates

  /** The primary and the secondary score of the full 0-ply evaluation. */
  type Scorer = Board -> (real, real)

  const LOWEST := -99999.9

  ghost predicate InScale(score: Scorer) {
    forall b :: score(b).0 > LOWEST
  }

  predicate NoWorse(x: (real, real), y: (real, real)) {
    x.0 > y.0 || (x.0 == y.0 && x.1 >= y.1)
  }

  /** ScoreMoves and ScoreMovesPruned: the best of the moves with the given indices. */
  method BestOf(keys: seq<Board>, indices: seq<nat>, score: Scorer) returns (iMoveBest: nat)
    requires indices != [] && (forall k :: 0 <= k < |indices| ==> indices[k] < |keys|) && InScale(score)
    ensures iMoveBest in indices
    ensures forall k :: 0 <= k < |indices| ==> NoWorse(score(keys[iMoveBest]), score(keys[indices[k]]))
  {
    var rBestScore, j := LOWEST, 0;
    iMoveBest := 0;
    while j < |indices|
      invariant 0 <= j <= |indices|
      invariant if j == 0 then iMoveBest == 0 && rBestScore == LOWEST
                else iMoveBest in indices && rBestScore == score(keys[iMoveBest]).0
      invariant forall k :: 0 <= k < j ==> NoWorse(score(keys[iMoveBest]), score(keys[indices[k]]))
    {
      var i := indices[j];
      assert score(keys[i]).0 > LOWEST;
      if score(keys[i]).0 > rBestScore
         || (score(keys[i]).0 == rBestScore && score(keys[i]).1 > score(keys[iMoveBest]).1) {
        iMoveBest := i;
        rBestScore := score(keys[i]).0;
      }
      j := j + 1;
    }
  }

  function UpTo(n: nat): (r: seq<nat>)
    ensures |r| == n && forall i :: 0 <= i < n ==> r[i] == i
  {
    if n == 0 then [] else UpTo(n - 1) + [n - 1]
  }

  /** The candidates the choice is made from: all moves if they are few or of several
      classes, otherwise 5 + floor(log2(n)) of the n moves. */
  ghost predicate IsShortList(keys: seq<Board>, cls: Board -> int, opp: Board -> real, cand: seq<nat>) {
    exists i: nat :: Pow2(i) <= |keys| < Pow2(i + 1) && ShortListOf(keys, cls, opp, cand, 5 + i)
  }

  ghost predicate ShortListOf(keys: seq<Board>, cls: Board -> int, opp: Board -> real, cand: seq<nat>, prune: nat) {
    if |keys| <= prune || !AllOneClass(keys, cls) then cand == UpTo(|keys|)
    else |cand| == prune <= MAX_PRUNE_MOVES && Selected(Scores(keys, opp), cand, |keys|)
  }

  ghost predicate AllOneClass(keys: seq<Board>, cls: Board -> int) {
    keys != [] && OneClass(keys, cls, |keys|)
  }

  method KeysOf(pml: MoveList) returns (keys: seq<Board>)
    requires pml.Sized()
    ensures keys == Keys(pml.State())
  {
    keys := [];
    for i := 0 to pml.cMoves
      invariant |keys| == i && forall k :: 0 <= k < i ==> keys[k] == pml.amMoves[k].key
    {
      keys := keys + [pml.amMoves[i].key];
    }
  }

  ghost function Keys(l: ListState): seq<Board> {
    seq(|l.moves|, i requires 0 <= i < |l.moves| => l.moves[i].key)
  }

  /** The short list for two or more moves. */
  method ShortList(keys: seq<Board>, cls: Board -> int, opp: Board -> real) returns (cand: seq<nat>)
    requires 2 <= |keys| <= MAX_MOVES
    ensures cand != [] && IsShortList(keys, cls, opp, cand) && forall k :: 0 <= k < |cand| ==> cand[k] < |keys|
  {
    hide Selected, Scores, Pow2;
    var log := LogCube(|keys|);
    CandidatesFit(|keys|, log);
    var prune_moves := MIN_PRUNE_MOVES + log;
    if |keys| <= prune_moves {
      return UpTo(|keys|);
    }
    var bmovesi, scanned := SelectMoves(keys, prune_moves, cls, opp);
    if !scanned {
      return UpTo(|keys|);
    }
    cand := bmovesi[..prune_moves];
    InRange(Scores(keys, opp), cand, |keys|);
  }

  /** FindBestMoveInEval: the position reached is legal, and no candidate beats it. */
  method FindBestMoveInEval(buffer: array<Move>, n0: nat, n1: nat, anBoardIn: Board, cls: Board -> int, opp: Board -> real,
                            score: Scorer)
    returns (anBoardOut: Board, ghost l: ListState, ghost cand: seq<nat>)
    requires buffer.Length == MAX_INCOMPLETE_MOVES && InScale(score)
    requires Unshared(anBoardIn) && Total(anBoardIn.us) <= 15 && 1 <= n0 <= 6 && 1 <= n1 <= 6
    modifies buffer
    ensures ListExact(anBoardIn, n0, n1, l, false)
    ensures l.moves == [] ==> anBoardOut == anBoardIn
    ensures l.moves != [] ==> LegalEnd(anBoardIn, n0, n1, anBoardOut)
    ensures |l.moves| >= 2 ==>
              && IsShortList(Keys(l), cls, opp, cand)
              && (forall k :: 0 <= k < |cand| ==> cand[k] < |l.moves|)
              && (exists k :: 0 <= k < |cand| && anBoardOut == l.moves[cand[k]].key)
              && forall k :: 0 <= k < |cand| ==>
                   var (best, other) := (score(anBoardOut), score(l.moves[cand[k]].key));
                   other.0 <= best.0 && (other.0 == best.0 ==> other.1 <= best.1)
  {
    hide ListExact, LegalEnd, IsShortList, InScale, Unshared, Total;
    var pml := new MoveList(buffer);
    var n := GenerateMoves(pml, anBoardIn, n0, n1, false);
    l, cand := pml.State(), [];
    anBoardOut := anBoardIn;
    if n == 0 {
      return;
    }
    var keys := KeysOf(pml);
    var iMoveBest := 0;
    if n >= 2 {
      AtMostMaxMoves(anBoardIn, n0, n1, l);
      var list := ShortList(keys, cls, opp);
      cand := list;
      iMoveBest := BestOf(keys, list, score);
    }
    anBoardOut := keys[iMoveBest];
    ListedIsLegal(anBoardIn, n0, n1, l, iMoveBest);
  }

  lemma AtMostMaxMoves(b: Board, n0: nat, n1: nat, l: ListState)
    requires ListExact(b, n0, n1, l, false)
    ensures |l.moves| <= MAX_MOVES
  {
  }

  lemma ListedIsLegal(b: Board, n0: nat, n1: nat, l: ListState, i: nat)
    requires ListExact(b, n0, n1, l, false) && i < |l.moves|
    ensures LegalEnd(b, n0, n1, l.moves[i].key)
  {
    assert Listed(l, l.moves[i].key);
  }
}
