/** Boards, single sub-moves and whole moves (gnubg/eval.c).

    A board is seen from the player on roll: `us` are the mover's 25 cells
    (24 is the bar) and `them` the opponent's, numbered from the opponent's own
    side, so that the mover's point p is the opponent's point 23 - p. */
module Boards {

  type Side = s: seq<nat> | |s| == 25 witness seq(25, _ => 0)

  datatype Board = Board(them: Side, us: Side)

  /** No point holds chequers of both players. */
  ghost predicate Unshared(b: Board) {
    forall p :: 0 <= p < 24 ==> b.us[p] == 0 || b.them[23 - p] == 0
  }

  // ---------------------------------------------------------------- totals

  function Total(s: seq<nat>): nat {
    if s == [] then 0 else Total(s[..|s| - 1]) + s[|s| - 1]
  }

  function Pips(s: seq<nat>): nat {
    if s == [] then 0 else Pips(s[..|s| - 1]) + s[|s| - 1] * |s|
  }

  lemma {:induction false} AddOne(s: seq<nat>, i: nat)
    requires i < |s|
    ensures Total(s[i := s[i] + 1]) == Total(s) + 1
    ensures Pips(s[i := s[i] + 1]) == Pips(s) + i + 1
  {
    var n := |s| - 1;
    if i < n {
      AddOne(s[..n], i);
      assert s[i := s[i] + 1][..n] == s[..n][i := s[i] + 1];
    } else {
      assert s[i := s[i] + 1][..n] == s[..n];
      assert (s[i] + 1) * |s| == s[i] * |s| + |s|;
    }
  }

  lemma TakeOne(s: seq<nat>, i: nat)
    requires i < |s| && s[i] > 0
    ensures Total(s[i := s[i] - 1]) == Total(s) - 1
    ensures Pips(s[i := s[i] - 1]) == Pips(s) - (i + 1)
  {
    var t: seq<nat> := s[i := s[i] - 1];
    AddOne(t, i);
    assert t[i := t[i] + 1] == s;
  }

  lemma {:induction false} CellAtMostTotal(s: seq<nat>, i: nat)
    requires i < |s|
    ensures s[i] <= Total(s)
  {
    if i < |s| - 1 {
      CellAtMostTotal(s[..|s| - 1], i);
    }
  }

  lemma {:induction false} TotalZero(s: seq<nat>)
    ensures Total(s) == 0 <==> forall i :: 0 <= i < |s| ==> s[i] == 0
  {
    if s != [] {
      var t := s[..|s| - 1];
      TotalZero(t);
      assert forall i :: 0 <= i < |t| ==> t[i] == s[i];
    }
  }

  // ------------------------------------------------------------- sub-moves

  /** The mover's chequers are all in the home board. */
  ghost predicate AllHome(us: Side) {
    forall p :: 5 < p < 25 ==> us[p] == 0
  }

  /** Nothing of the mover's stands behind point `src`. */
  ghost predicate NoneBehind(us: Side, src: nat) {
    forall p :: src < p < 25 ==> us[p] == 0
  }

  /** The rules' reading of one die played from an occupied `src`: the
      destination must not be a made point, and bearing off needs everyone home
      and either the exact roll or nobody further back. */
  ghost predicate Open(b: Board, src: nat, die: nat)
    requires src < 25
  {
    if die <= src then
      src - die == 24 || b.them[23 - (src - die)] < 2
    else
      AllHome(b.us) && (die == src + 1 || (NoneBehind(b.us, src) && (b.us[src] > 0 || src == 0)))
  }

  /** A legal sub-move: the source is occupied, chequers on the bar enter
      first, and the destination is open. */
  ghost predicate Step(b: Board, src: nat, die: nat) {
    && 1 <= die <= 6
    && src < 25
    && b.us[src] > 0
    && (b.us[24] > 0 ==> src == 24)
    && Open(b, src, die)
  }

  predicate Hits(b: Board, src: nat, die: nat)
    requires src < 25 && 1 <= die
  {
    die <= src && b.them[23 - (src - die)] > 0
  }

  /** What moving one chequer `die` pips from `src` does to the board. */
  function SubMove(b: Board, src: nat, die: nat): Board
    requires src < 25 && 1 <= die && b.us[src] > 0
  {
    var lifted := b.us[src := b.us[src] - 1];
    if die > src then
      b.(us := lifted)
    else
      var dest := src - die;
      if Hits(b, src, die) then
        Board(b.them[23 - dest := 0][24 := b.them[24] + 1], lifted[dest := 1])
      else
        b.(us := lifted[dest := lifted[dest] + 1])
  }

  /** The conservation laws of one legal sub-move. */
  lemma StepConserves(b: Board, src: nat, die: nat)
    requires Unshared(b) && Step(b, src, die)
    ensures var c := SubMove(b, src, die);
            && Unshared(c)
            && Total(c.them) == Total(b.them)
            && Total(c.us) == Total(b.us) - (if die > src then 1 else 0)
            && Pips(c.us) == Pips(b.us) - (if die > src then src + 1 else die)
            && Pips(c.them) == Pips(b.them) + (if Hits(b, src, die) then src - die + 1 else 0)
  {
    StepKeepsUnshared(b, src, die);
    StepOnThem(b, src, die);
    StepOnUs(b, src, die);
  }

  lemma StepKeepsUnshared(b: Board, src: nat, die: nat)
    requires Unshared(b) && Step(b, src, die)
    ensures Unshared(SubMove(b, src, die))
  {
    var c := SubMove(b, src, die);
    forall p | 0 <= p < 24 ensures c.us[p] == 0 || c.them[23 - p] == 0 {
      assert b.us[p] == 0 || b.them[23 - p] == 0;
    }
  }

  lemma StepOnUs(b: Board, src: nat, die: nat)
    requires Unshared(b) && Step(b, src, die)
    ensures Total(SubMove(b, src, die).us) == Total(b.us) - (if die > src then 1 else 0)
    ensures Pips(SubMove(b, src, die).us) == Pips(b.us) - (if die > src then src + 1 else die)
  {
    TakeOne(b.us, src);
    if die <= src {
      var lifted: seq<nat> := b.us[src := b.us[src] - 1];
      assert Hits(b, src, die) ==> lifted[src - die] == 0;
      assert SubMove(b, src, die).us == lifted[src - die := lifted[src - die] + 1];
      AddOne(lifted, src - die);
    }
  }

  lemma StepOnThem(b: Board, src: nat, die: nat)
    requires Step(b, src, die)
    ensures Total(SubMove(b, src, die).them) == Total(b.them)
    ensures Pips(SubMove(b, src, die).them) == Pips(b.them) + (if Hits(b, src, die) then src - die + 1 else 0)
  {
    if Hits(b, src, die) {
      HitConserves(b.them, 23 - (src - die));
    }
  }

  lemma HitConserves(them: Side, p: nat)
    requires p < 24 && them[p] == 1
    ensures Total(them[p := 0][24 := them[24] + 1]) == Total(them)
    ensures Pips(them[p := 0][24 := them[24] + 1]) == Pips(them) + 24 - p
  {
    TakeOne(them, p);
    AddOne(them[p := 0], 24);
  }

  // ------------------------------------------------------- runs of sub-moves

  /** `srcs` can be played in this order with the first dice of `dice`. */
  ghost predicate Playable(b: Board, srcs: seq<nat>, dice: seq<nat>)
    decreases srcs
  {
    srcs == [] || (
      && dice != []
      && Step(b, srcs[0], dice[0])
      && Playable(SubMove(b, srcs[0], dice[0]), srcs[1..], dice[1..]))
  }

  ghost function After(b: Board, srcs: seq<nat>, dice: seq<nat>): Board
    requires Playable(b, srcs, dice)
    decreases srcs
  {
    if srcs == [] then b else After(SubMove(b, srcs[0], dice[0]), srcs[1..], dice[1..])
  }

  /** Chequers borne off, pips used and pips inflicted by a run. */
  ghost function BorneOff(srcs: seq<nat>, dice: seq<nat>): nat
    requires |srcs| <= |dice|
  {
    if srcs == [] then 0 else (if dice[0] > srcs[0] then 1 else 0) + BorneOff(srcs[1..], dice[1..])
  }

  ghost function PipsUsed(srcs: seq<nat>, dice: seq<nat>): nat
    requires |srcs| <= |dice|
  {
    if srcs == [] then 0 else (if dice[0] > srcs[0] then srcs[0] + 1 else dice[0]) + PipsUsed(srcs[1..], dice[1..])
  }

  ghost function PipsInflicted(b: Board, srcs: seq<nat>, dice: seq<nat>): nat
    requires Playable(b, srcs, dice)
    decreases srcs
  {
    if srcs == [] then 0 else
      (if Hits(b, srcs[0], dice[0]) then srcs[0] - dice[0] + 1 else 0)
      + PipsInflicted(SubMove(b, srcs[0], dice[0]), srcs[1..], dice[1..])
  }

  lemma {:induction false} PlayableLength(b: Board, srcs: seq<nat>, dice: seq<nat>)
    requires Playable(b, srcs, dice)
    ensures |srcs| <= |dice|
    decreases srcs
  {
    if srcs != [] {
      PlayableLength(SubMove(b, srcs[0], dice[0]), srcs[1..], dice[1..]);
    }
  }

  /** Over every run of legal sub-moves: no point is ever shared, the
      opponent keeps all chequers, and chequers and pips are accounted for. */
  lemma {:induction false} RunConserves(b: Board, srcs: seq<nat>, dice: seq<nat>)
    requires Unshared(b) && Playable(b, srcs, dice)
    ensures |srcs| <= |dice|
    ensures var c := After(b, srcs, dice);
            && Unshared(c)
            && Total(c.them) == Total(b.them)
            && Total(c.us) + BorneOff(srcs, dice) == Total(b.us)
            && Pips(c.us) + PipsUsed(srcs, dice) == Pips(b.us)
            && Pips(c.them) == Pips(b.them) + PipsInflicted(b, srcs, dice)
    decreases srcs
  {
    PlayableLength(b, srcs, dice);
    if srcs != [] {
      StepConserves(b, srcs[0], dice[0]);
      RunConserves(SubMove(b, srcs[0], dice[0]), srcs[1..], dice[1..]);
    }
  }

  /** Playing one more sub-move at the end of a run. */
  lemma {:induction false} PlayableSnoc(b: Board, srcs: seq<nat>, dice: seq<nat>, src: nat)
    requires Playable(b, srcs, dice) && |srcs| < |dice|
    ensures Playable(b, srcs + [src], dice) <==> Step(After(b, srcs, dice), src, dice[|srcs|])
    ensures Step(After(b, srcs, dice), src, dice[|srcs|]) ==>
              After(b, srcs + [src], dice) == SubMove(After(b, srcs, dice), src, dice[|srcs|])
    decreases srcs
  {
    if srcs == [] {
      assert [src][1..] == [];
    } else {
      PlayableSnoc(SubMove(b, srcs[0], dice[0]), srcs[1..], dice[1..], src);
      assert (srcs + [src])[1..] == srcs[1..] + [src];
    }
  }

  // --------------------------------------------- the operations of eval.c

  /** The value held by the two halves of a board in memory. */
  ghost predicate InMemory(them: array<nat>, us: array<nat>) {
    them != us && them.Length == us.Length == 25
  }

  ghost function BoardAt(them: array<nat>, us: array<nat>): Board
    requires InMemory(them, us)
    reads them, us
  {
    Board(them[..], us[..])
  }

  /** What ApplySubMove reports and leaves behind, on every argument. A made
      point is noticed only after the source has been decremented. */
  function SubMoveResult(b: Board, iSrc: int, nRoll: int, fCheckLegal: bool): (int, Board) {
    if fCheckLegal && (nRoll < 1 || nRoll > 6) then (-1, b)
    else if iSrc < 0 || iSrc > 24 || nRoll <= 0 || b.us[iSrc] < 1 then (-1, b)
    else if nRoll <= iSrc && b.them[23 - (iSrc - nRoll)] > 1 then
      (-1, b.(us := b.us[iSrc := b.us[iSrc] - 1]))
    else (0, SubMove(b, iSrc, nRoll))
  }

  /** A sub-move is accepted exactly if the die and an occupied source are given and the
      destination is no made point; whether the rules of the bar and of bearing off allow it
      is not asked. A failure changes nothing, but that a chequer bound for a made point has
      been lifted. */
  lemma SubMoveAccepted(b: Board, iSrc: int, nRoll: int, fCheckLegal: bool)
    ensures var (r, c) := SubMoveResult(b, iSrc, nRoll, fCheckLegal);
            var given := nRoll > 0 && (fCheckLegal ==> nRoll <= 6) && 0 <= iSrc <= 24 && b.us[iSrc] > 0;
            && (r == 0 || r == -1)
            && (r == 0 <==> given && (nRoll > iSrc || b.them[23 - (iSrc - nRoll)] <= 1))
            && (r == 0 ==> c == SubMove(b, iSrc, nRoll))
            && (r == -1 ==> c == if given then b.(us := b.us[iSrc := b.us[iSrc] - 1]) else b)
  {
  }

  method ApplySubMove(them: array<nat>, us: array<nat>, iSrc: int, nRoll: int, fCheckLegal: bool)
    returns (r: int)
    requires InMemory(them, us)
    modifies them, us
    ensures (r, BoardAt(them, us)) == SubMoveResult(old(BoardAt(them, us)), iSrc, nRoll, fCheckLegal)
  {
    var iDest := iSrc - nRoll;
    if fCheckLegal && (nRoll < 1 || nRoll > 6) {
      return -1;
    }
    if iSrc < 0 || iSrc > 24 || iDest >= iSrc || us[iSrc] < 1 {
      return -1;
    }
    us[iSrc] := us[iSrc] - 1;
    if iDest < 0 {
      return 0;
    }
    if them[23 - iDest] != 0 {
      if them[23 - iDest] > 1 {
        return -1;
      }
      us[iDest] := 1;
      them[23 - iDest] := 0;
      them[24] := them[24] + 1;
    } else {
      us[iDest] := us[iDest] + 1;
    }
    return 0;
  }

  /** On a legal sub-move ApplySubMove succeeds, with or without the die check,
      and so does the die recorded as "to -1" for a chequer borne off. */
  lemma StepApplies(b: Board, src: nat, die: nat, fCheckLegal: bool)
    requires Step(b, src, die)
    ensures SubMoveResult(b, src, die, fCheckLegal) == (0, SubMove(b, src, die))
    ensures die > src ==> SubMoveResult(b, src, src + 1, fCheckLegal) == (0, SubMove(b, src, die))
  {
  }

  /** ApplyMove on a list of (source, destination) pairs, from pair `i` on. */
  function MoveResult(b: Board, anMove: seq<int>, i: nat, fCheckLegal: bool): (int, Board)
    requires |anMove| == 8 && i <= 4
    decreases 4 - i
  {
    if i == 4 || anMove[2 * i] < 0 then (0, b)
    else
      var (r, c) := SubMoveResult(b, anMove[2 * i], anMove[2 * i] - anMove[2 * i + 1], fCheckLegal);
      if r != 0 then (-1, c) else MoveResult(c, anMove, i + 1, fCheckLegal)
  }

  method ApplyMove(them: array<nat>, us: array<nat>, anMove: seq<int>, fCheckLegal: bool) returns (r: int)
    requires InMemory(them, us) && |anMove| == 8
    modifies them, us
    ensures (r, BoardAt(them, us)) == MoveResult(old(BoardAt(them, us)), anMove, 0, fCheckLegal)
  {
    hide SubMoveResult;
    var i := 0;
    while i < 4 && anMove[2 * i] >= 0
      invariant 0 <= i <= 4
      invariant MoveResult(BoardAt(them, us), anMove, i, fCheckLegal)
             == MoveResult(old(BoardAt(them, us)), anMove, 0, fCheckLegal)
    {
      var e := ApplySubMove(them, us, anMove[2 * i], anMove[2 * i] - anMove[2 * i + 1], fCheckLegal);
      if e != 0 {
        return -1;
      }
      i := i + 1;
    }
    return 0;
  }

  /** LegalMove searches for the rearmost chequer; it answers `Open`. */
  method LegalMove(b: Board, iSrc: int, nPips: int) returns (ok: bool)
    requires 0 <= iSrc < 25 && nPips >= 1
    ensures ok <==> Open(b, iSrc, nPips)
  {
    var iDest := iSrc - nPips;
    if iDest >= 0 {
      return b.them[23 - iDest] < 2;
    }
    var nBack := 24;
    while nBack > 0 && b.us[nBack] == 0
      invariant 0 <= nBack <= 24
      invariant forall p :: nBack < p < 25 ==> b.us[p] == 0
    {
      nBack := nBack - 1;
    }
    return nBack <= 5 && (iSrc == nBack || iDest == -1);
  }

  method PipCount(b: Board) returns (anPips: (nat, nat))
    ensures anPips == (Pips(b.them), Pips(b.us))
  {
    var n0, n1 := 0, 0;
    for i := 0 to 25
      invariant n0 == Pips(b.them[..i]) && n1 == Pips(b.us[..i])
    {
      assert b.them[..i + 1][..i] == b.them[..i] && b.us[..i + 1][..i] == b.us[..i];
      n0 := n0 + b.them[i] * (i + 1);
      n1 := n1 + b.us[i] * (i + 1);
    }
    assert b.them[..25] == b.them && b.us[..25] == b.us;
    return (n0, n1);
  }
}
