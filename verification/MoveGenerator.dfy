/** The move generator of gnubg/eval.c: a depth-first search that fills the
    caller's move list in place, and the proof that it lists exactly the
    positions the rules allow. */
module MoveGenerator {
  import opened Boards
  import opened Plays

  const MAX_INCOMPLETE_MOVES := 3875
  const MAX_MOVES := 3060

  /** The eight cells of a recorded move: (source, destination) pairs, -1 after the last. */
  type Cells = s: seq<int> | |s| == 8 witness seq(8, _ => -1)

  datatype Move = Move(anMove: Cells, key: Board, cMoves: nat, cPips: nat)

  // ------------------------------------------------ what an entry records

  /** Cells [0, 2k) hold the first k sub-moves, destinations passed through `clamp`. */
  ghost predicate Encodes(cells: seq<int>, p: Play, clamp: bool)
  {
    && 2 * |p.srcs| <= |cells|
    && |p.srcs| <= |p.dice|
    && forall j :: 0 <= j < |p.srcs| ==>
         && cells[2 * j] == p.srcs[j]
         && cells[2 * j + 1] == Destination(p.srcs[j], p.dice[j], clamp)
  }

  function Destination(src: int, die: int, clamp: bool): int {
    if clamp && src < die then -1 else src - die
  }

  ghost predicate Records(b: Board, m: Move, p: Play) {
    && Playable(b, p.srcs, p.dice)
    && Encodes(m.anMove, p, true)
    && (|p.srcs| < 4 ==> m.anMove[2 * |p.srcs|] == -1)
    && m.key == After(b, p.srcs, p.dice)
    && m.cMoves == |p.srcs|
    && m.cPips == DicePips(p)
  }

  /** A stored move replays, through ApplyMove, to the position it is stored under. */
  lemma StoredMoveReplays(b: Board, m: Move, p: Play, fCheckLegal: bool)
    requires Records(b, m, p)
    ensures MoveResult(b, m.anMove, 0, fCheckLegal) == (0, m.key)
  {
    ReplayFrom(b, m, p, 0, fCheckLegal);
  }

  lemma {:induction false} ReplayFrom(b: Board, m: Move, p: Play, j: nat, fCheckLegal: bool)
    requires Encodes(m.anMove, p, true) && j <= |p.srcs|
    requires |p.srcs| < 4 ==> m.anMove[2 * |p.srcs|] == -1
    requires Playable(b, p.srcs[j..], p.dice[j..])
    ensures MoveResult(b, m.anMove, j, fCheckLegal) == (0, After(b, p.srcs[j..], p.dice[j..]))
    decreases |p.srcs| - j
  {
    if j < |p.srcs| {
      StepApplies(b, p.srcs[j], p.dice[j], fCheckLegal);
      assert p.srcs[j..][1..] == p.srcs[j + 1..] && p.dice[j..][1..] == p.dice[j + 1..];
      ReplayFrom(SubMove(b, p.srcs[j], p.dice[j]), m, p, j + 1, fCheckLegal);
    }
  }

  // --------------------------------------------------- the list invariant

  /** A move list as a value, with the plays handed to SaveMoves so far. */
  datatype ListState = ListState(moves: seq<Move>, maxMoves: nat, maxPips: nat)

  /** The plays the list answers for: all of them, or those at both maxima. */
  ghost predicate Kept(l: ListState, fPartial: bool, p: Play)
    requires |p.srcs| <= |p.dice|
  {
    fPartial || (|p.srcs| == l.maxMoves && DicePips(p) == l.maxPips)
  }

  ghost predicate DistinctKeys(moves: seq<Move>) {
    forall i, j :: 0 <= i < j < |moves| ==> moves[i].key != moves[j].key
  }

  ghost predicate Within(l: ListState, saved: iset<Play>) {
    forall p :: p in saved ==> |p.srcs| <= |p.dice| && |p.srcs| <= l.maxMoves && DicePips(p) <= l.maxPips
  }

  ghost predicate EntryJustified(b: Board, l: ListState, saved: iset<Play>, fPartial: bool, m: Move) {
    exists p :: p in saved && Records(b, m, p) && Kept(l, fPartial, p)
  }

  ghost predicate PlayListed(b: Board, moves: seq<Move>, p: Play)
    requires Playable(b, p.srcs, p.dice) && |p.srcs| <= |p.dice|
  {
    exists i :: 0 <= i < |moves| && moves[i].key == After(b, p.srcs, p.dice)
                && |p.srcs| <= moves[i].cMoves && DicePips(p) <= moves[i].cPips
  }

  ghost predicate ListInv(b: Board, n0: nat, n1: nat, l: ListState, saved: iset<Play>, fPartial: bool) {
    && (forall p :: p in saved ==> IsPlay(b, n0, n1, p))
    && Within(l, saved)
    && DistinctKeys(l.moves)
    && (forall i :: 0 <= i < |l.moves| ==> EntryJustified(b, l, saved, fPartial, l.moves[i]))
    && (forall p :: p in saved && Kept(l, fPartial, p) ==> PlayListed(b, l.moves, p))
    && (l.moves == [] ==> l.maxMoves == 0 && l.maxPips == 0 && saved == iset{})
  }

  /** The effect of one call of SaveMoves with play `p`, as a relation. */
  ghost predicate SaveEffect(b: Board, l: ListState, l': ListState, p: Play, fPartial: bool)
    requires |p.srcs| <= |p.dice|
  {
    var c, q := |p.srcs|, DicePips(p);
    if !fPartial && (c < l.maxMoves || q < l.maxPips) then l' == l
    else
      && l'.maxMoves == (if c > l.maxMoves then c else l.maxMoves)
      && l'.maxPips == (if q > l.maxPips then q else l.maxPips)
      && AddEffect(b, if !fPartial && (c > l.maxMoves || q > l.maxPips) then [] else l.moves, l'.moves, p)
  }

  ghost predicate AddEffect(b: Board, old_: seq<Move>, new_: seq<Move>, p: Play)
    requires |p.srcs| <= |p.dice|
  {
    Playable(b, p.srcs, p.dice) && (
      || (exists m :: Records(b, m, p) && (forall i :: 0 <= i < |old_| ==> old_[i].key != m.key) && new_ == old_ + [m])
      || (exists i :: 0 <= i < |old_| && old_[i].key == After(b, p.srcs, p.dice) && (
            || (new_ == old_ && |p.srcs| <= old_[i].cMoves && DicePips(p) <= old_[i].cPips)
            || (|new_| == |old_| && Records(b, new_[i], p) && new_ == old_[i := new_[i]]
                && (|p.srcs| > old_[i].cMoves || DicePips(p) > old_[i].cPips)))))
  }

  lemma RecordedMeasures(b: Board, n0: nat, n1: nat, l: ListState, saved: iset<Play>, fPartial: bool, i: nat, p: Play)
    requires 1 <= n0 && 1 <= n1
    requires ListInv(b, n0, n1, l, saved, fPartial) && i < |l.moves| && IsPlay(b, n0, n1, p) && |p.srcs| <= |p.dice|
    ensures |p.srcs| < l.moves[i].cMoves ==> DicePips(p) < l.moves[i].cPips
    ensures |p.srcs| > l.moves[i].cMoves ==> DicePips(p) > l.moves[i].cPips
    ensures DicePips(p) > l.moves[i].cPips ==> |p.srcs| >= l.moves[i].cMoves
    ensures DicePips(p) < l.moves[i].cPips ==> |p.srcs| <= l.moves[i].cMoves
  {
    assert EntryJustified(b, l, saved, fPartial, l.moves[i]);
    var q :| q in saved && Records(b, l.moves[i], q) && Kept(l, fPartial, q);
    MeasuresAgree(n0, n1, p, q);
    MeasuresAgree(n0, n1, q, p);
  }

  /** SaveMoves keeps the list invariant. */
  lemma SaveKeepsInv(b: Board, n0: nat, n1: nat, l: ListState, l': ListState, saved: iset<Play>, p: Play, fPartial: bool)
    requires 1 <= n0 && 1 <= n1
    requires ListInv(b, n0, n1, l, saved, fPartial) && IsPlay(b, n0, n1, p) && |p.srcs| <= |p.dice|
    requires SaveEffect(b, l, l', p, fPartial)
    ensures ListInv(b, n0, n1, l', saved + iset{p}, fPartial)
  {
    var c, q := |p.srcs|, DicePips(p);
    if !fPartial && (c < l.maxMoves || q < l.maxPips) {
      DiscardKeepsInv(b, n0, n1, l, saved, p);
    } else if !fPartial && (c > l.maxMoves || q > l.maxPips) {
      RestartKeepsInv(b, n0, n1, l, l', saved, p);
    } else {
      AddKeepsInv(b, n0, n1, l, l', saved, p, fPartial);
    }
  }

  lemma DiscardKeepsInv(b: Board, n0: nat, n1: nat, l: ListState, saved: iset<Play>, p: Play)
    requires 1 <= n0 && 1 <= n1
    requires ListInv(b, n0, n1, l, saved, false) && IsPlay(b, n0, n1, p) && |p.srcs| <= |p.dice|
    requires |p.srcs| < l.maxMoves || DicePips(p) < l.maxPips
    ensures ListInv(b, n0, n1, l, saved + iset{p}, false)
  {
    RecordedMeasures(b, n0, n1, l, saved, false, 0, p);
    assert EntryJustified(b, l, saved, false, l.moves[0]);
    assert Within(l, saved + iset{p});
    forall i | 0 <= i < |l.moves| ensures EntryJustified(b, l, saved + iset{p}, false, l.moves[i]) {
      assert EntryJustified(b, l, saved, false, l.moves[i]);
    }
  }

  lemma RestartKeepsInv(b: Board, n0: nat, n1: nat, l: ListState, l': ListState, saved: iset<Play>, p: Play)
    requires ListInv(b, n0, n1, l, saved, false) && IsPlay(b, n0, n1, p) && |p.srcs| <= |p.dice|
    requires l.maxMoves <= |p.srcs| == l'.maxMoves && l.maxPips <= DicePips(p) == l'.maxPips
    requires |p.srcs| > l.maxMoves || DicePips(p) > l.maxPips
    requires AddEffect(b, [], l'.moves, p)
    ensures ListInv(b, n0, n1, l', saved + iset{p}, false)
  {
    var m :| Records(b, m, p) && l'.moves == [] + [m];
    assert l'.moves == [m];
    hide Records, IsPlay;
    assert p in saved + iset{p} && Kept(l', false, p);
    assert l'.moves[0].key == After(b, p.srcs, p.dice);
    assert PlayListed(b, l'.moves, p);
  }

  lemma AddKeepsInv(b: Board, n0: nat, n1: nat, l: ListState, l': ListState, saved: iset<Play>, p: Play, fPartial: bool)
    requires 1 <= n0 && 1 <= n1
    requires ListInv(b, n0, n1, l, saved, fPartial) && IsPlay(b, n0, n1, p) && |p.srcs| <= |p.dice|
    requires !fPartial ==> |p.srcs| == l.maxMoves && DicePips(p) == l.maxPips
    requires l'.maxMoves == (if |p.srcs| > l.maxMoves then |p.srcs| else l.maxMoves)
    requires l'.maxPips == (if DicePips(p) > l.maxPips then DicePips(p) else l.maxPips)
    requires AddEffect(b, l.moves, l'.moves, p)
    ensures ListInv(b, n0, n1, l', saved + iset{p}, fPartial)
  {
    hide EntryJustified, AddEffect, PlayListed, DistinctKeys, DicePips, Playable, Orders;
    KeysStayDistinct(b, l.moves, l'.moves, p);
    AddJustifies(b, l, l', saved, p, fPartial);
    AddListsAll(b, n0, n1, l, l', saved, p, fPartial);
    assert Within(l', saved + iset{p});
  }

  lemma AddListsAll(b: Board, n0: nat, n1: nat, l: ListState, l': ListState, saved: iset<Play>, p: Play, fPartial: bool)
    requires 1 <= n0 && 1 <= n1
    requires ListInv(b, n0, n1, l, saved, fPartial) && IsPlay(b, n0, n1, p) && |p.srcs| <= |p.dice|
    requires fPartial || (l'.maxMoves == l.maxMoves && l'.maxPips == l.maxPips)
    requires AddEffect(b, l.moves, l'.moves, p)
    ensures forall q :: q in saved + iset{p} ==> IsPlay(b, n0, n1, q) && |q.srcs| <= |q.dice|
    ensures forall q :: q in saved + iset{p} && Kept(l', fPartial, q) ==> PlayListed(b, l'.moves, q)
  {
    hide EntryJustified, AddEffect, PlayListed, DistinctKeys;
    forall q | q in saved + iset{p} && Kept(l', fPartial, q) ensures PlayListed(b, l'.moves, q) {
      assert q == p || PlayListed(b, l.moves, q);
      AddLists(b, n0, n1, l, l', saved, p, fPartial, q);
    }
  }

  lemma KeysStayDistinct(b: Board, ms: seq<Move>, ms': seq<Move>, p: Play)
    requires |p.srcs| <= |p.dice| && DistinctKeys(ms) && AddEffect(b, ms, ms', p)
    ensures DistinctKeys(ms') && ms' != []
  {
  }

  lemma AddJustifies(b: Board, l: ListState, l': ListState, saved: iset<Play>, p: Play, fPartial: bool)
    requires |p.srcs| <= |p.dice| && AddEffect(b, l.moves, l'.moves, p) && Kept(l, fPartial, p)
    requires forall q :: q in saved ==> |q.srcs| <= |q.dice|
    requires fPartial || (l'.maxMoves == l.maxMoves && l'.maxPips == l.maxPips)
    requires forall i :: 0 <= i < |l.moves| ==> EntryJustified(b, l, saved, fPartial, l.moves[i])
    ensures forall i :: 0 <= i < |l'.moves| ==> EntryJustified(b, l', saved + iset{p}, fPartial, l'.moves[i])
  {
    forall i | 0 <= i < |l'.moves| ensures EntryJustified(b, l', saved + iset{p}, fPartial, l'.moves[i]) {
      if i < |l.moves| && l'.moves[i] == l.moves[i] {
        assert EntryJustified(b, l, saved, fPartial, l.moves[i]);
      } else {
        assert Records(b, l'.moves[i], p);
        assert p in saved + iset{p};
      }
    }
  }

  lemma EntryAfterAdd(b: Board, ms: seq<Move>, ms': seq<Move>, p: Play, i: nat)
    requires |p.srcs| <= |p.dice| && AddEffect(b, ms, ms', p) && i < |ms|
    ensures i < |ms'| && ms'[i].key == ms[i].key
    ensures ms'[i] == ms[i] ||
            (Records(b, ms'[i], p) && (|p.srcs| > ms[i].cMoves || DicePips(p) > ms[i].cPips))
  {
  }

  lemma AddedIsListed(b: Board, ms: seq<Move>, ms': seq<Move>, p: Play)
    requires |p.srcs| <= |p.dice| && AddEffect(b, ms, ms', p)
    ensures PlayListed(b, ms', p)
  {
    if m :| Records(b, m, p) && ms' == ms + [m] {
      assert ms'[|ms|].key == After(b, p.srcs, p.dice);
    }
  }

  lemma AddLists(b: Board, n0: nat, n1: nat, l: ListState, l': ListState, saved: iset<Play>, p: Play, fPartial: bool, q: Play)
    requires 1 <= n0 && 1 <= n1
    requires ListInv(b, n0, n1, l, saved, fPartial) && IsPlay(b, n0, n1, p) && |p.srcs| <= |p.dice|
    requires AddEffect(b, l.moves, l'.moves, p)
    requires IsPlay(b, n0, n1, q) && |q.srcs| <= |q.dice|
    requires q == p || PlayListed(b, l.moves, q)
    ensures PlayListed(b, l'.moves, q)
  {
    if q == p {
      AddedIsListed(b, l.moves, l'.moves, p);
    } else {
      var i :| 0 <= i < |l.moves| && l.moves[i].key == After(b, q.srcs, q.dice)
               && |q.srcs| <= l.moves[i].cMoves && DicePips(q) <= l.moves[i].cPips;
      RecordedMeasures(b, n0, n1, l, saved, fPartial, i, p);
      EntryAfterAdd(b, l.moves, l'.moves, p, i);
    }
  }

  lemma {:induction false} DistinctKeysFit(moves: seq<Move>, boards: set<Board>)
    requires DistinctKeys(moves)
    requires forall i :: 0 <= i < |moves| ==> moves[i].key in boards
    ensures |moves| <= |boards|
  {
    if moves != [] {
      var n := |moves| - 1;
      DistinctKeysFit(moves[..n], boards - {moves[n].key});
    }
  }

  // ------------------------------------------------------- the operations

  class MoveList {
    var cMoves: nat
    var cMaxMoves: nat
    var cMaxPips: nat
    var iMoveBest: nat
    const amMoves: array<Move>

    /** The plays handed to SaveMoves since the list was cleared. */
    ghost var saved: iset<Play>

    /** The list works in the thread's buffer of MAX_INCOMPLETE_MOVES moves. */
    constructor (buffer: array<Move>)
      requires buffer.Length == MAX_INCOMPLETE_MOVES
      ensures Sized() && amMoves == buffer && cMoves == 0
    {
      amMoves := buffer;
      cMoves, cMaxMoves, cMaxPips, iMoveBest := 0, 0, 0, 0;
      saved := iset{};
    }

    ghost predicate Sized()
      reads this
    {
      amMoves.Length == MAX_INCOMPLETE_MOVES && cMoves < MAX_INCOMPLETE_MOVES
    }

    ghost function State(): ListState
      requires Sized()
      reads this, amMoves
    {
      ListState(amMoves[..cMoves], cMaxMoves, cMaxPips)
    }

    ghost predicate KeysIn(boards: set<Board>)
      requires Sized()
      reads this, amMoves
    {
      forall i :: 0 <= i < cMoves ==> amMoves[i].key in boards
    }

    ghost predicate Good(b: Board, n0: nat, n1: nat, fPartial: bool, boards: set<Board>)
      reads this, amMoves
    {
      Sized() && KeysIn(boards) && ListInv(b, n0, n1, State(), saved, fPartial)
    }

    /** Hands one play to the list. `boards` holds every position a play can
        reach; that there are few enough of them keeps the buffer from filling. */
    method SaveMoves(cMovesNew: nat, cPip: nat, anMoves: array<int>, anBoard: Board, fPartial: bool,
                     ghost b: Board, ghost p: Play, ghost boards: set<Board>)
      requires Sized() && anMoves.Length == 8
      requires Playable(b, p.srcs, p.dice) && Encodes(anMoves[..], p, false)
      requires 1 <= |p.srcs| == cMovesNew <= 4 && DicePips(p) == cPip
      requires anBoard == After(b, p.srcs, p.dice)
      requires DistinctKeys(State().moves) && KeysIn(boards) && anBoard in boards
      requires |boards| < MAX_INCOMPLETE_MOVES
      modifies this, amMoves
      ensures Sized() && KeysIn(boards)
      ensures SaveEffect(b, old(State()), State(), p, fPartial)
      ensures saved == old(saved) + iset{p}
    {
      saved := saved + iset{p};
      if fPartial {
        if cMovesNew > cMaxMoves {
          cMaxMoves := cMovesNew;
        }
        if cPip > cMaxPips {
          cMaxPips := cPip;
        }
      } else {
        if cMovesNew < cMaxMoves || cPip < cMaxPips {
          return;
        }
        if cMovesNew > cMaxMoves || cPip > cMaxPips {
          cMoves := 0;
        }
        cMaxMoves := cMovesNew;
        cMaxPips := cPip;
      }
      ghost var before := amMoves[..cMoves];
      assert before == if !fPartial && (cMovesNew > old(cMaxMoves) || cPip > old(cMaxPips)) then [] else old(State()).moves;
      StoreMove(cMovesNew, cPip, anMoves, anBoard, b, p, boards);
    }

    /** The second half of SaveMoves: look the position up, and keep the longer play. */
    method StoreMove(cMovesNew: nat, cPip: nat, anMoves: array<int>, anBoard: Board,
                     ghost b: Board, ghost p: Play, ghost boards: set<Board>)
      requires Sized() && anMoves.Length == 8
      requires Playable(b, p.srcs, p.dice) && Encodes(anMoves[..], p, false)
      requires 1 <= |p.srcs| == cMovesNew <= 4 && DicePips(p) == cPip
      requires anBoard == After(b, p.srcs, p.dice)
      requires DistinctKeys(State().moves) && KeysIn(boards) && anBoard in boards
      requires |boards| < MAX_INCOMPLETE_MOVES
      modifies this`cMoves, amMoves
      ensures Sized() && KeysIn(boards)
      ensures AddEffect(b, old(State()).moves, State().moves, p)
    {
      var key := anBoard;
      var i := 0;
      while i < cMoves
        invariant 0 <= i <= cMoves
        invariant forall j :: 0 <= j < i ==> amMoves[j].key != key
      {
        var pm := amMoves[i];
        if key == pm.key {
          if cMovesNew > pm.cMoves || cPip > pm.cPips {
            var cells := WriteCells(pm.anMove, anMoves, cMovesNew, p);
            amMoves[i] := Move(cells, key, cMovesNew, cPip);
            assert Records(b, amMoves[i], p);
            assert amMoves[..cMoves] == old(amMoves[..cMoves])[i := amMoves[i]];
          }
          assert old(State()).moves[i].key == After(b, p.srcs, p.dice);
          return;
        }
        i := i + 1;
      }
      ghost var before := amMoves[..cMoves];
      var cells := WriteCells(amMoves[cMoves].anMove, anMoves, cMovesNew, p);
      var m := Move(cells, key, cMovesNew, cPip);
      assert Records(b, m, p);
      amMoves[cMoves] := m;
      cMoves := cMoves + 1;
      assert amMoves[..cMoves] == before + [m];
      DistinctKeysFit(amMoves[..cMoves], boards);
    }
  }

  /** Copies a play into a recorded move; cells past the terminator keep what they held. */
  method WriteCells(cells: Cells, anMoves: array<int>, cMoves: nat, ghost p: Play) returns (r: Cells)
    requires anMoves.Length == 8 && Encodes(anMoves[..], p, false) && |p.srcs| == cMoves <= 4
    ensures Encodes(r, p, true) && (cMoves < 4 ==> r[2 * cMoves] == -1)
  {
    r := cells;
    for i := 0 to 2 * cMoves
      invariant forall j :: 0 <= j < i ==> r[j] == (if anMoves[j] > -1 then anMoves[j] else -1)
    {
      r := r[i := if anMoves[i] > -1 then anMoves[i] else -1];
    }
    if cMoves < 4 {
      r := r[2 * cMoves := -1];
    }
    forall j | 0 <= j < |p.srcs|
      ensures r[2 * j] == p.srcs[j] && r[2 * j + 1] == Destination(p.srcs[j], p.dice[j], true)
    {
      assert anMoves[..][2 * j] == p.srcs[j] && anMoves[..][2 * j + 1] == Destination(p.srcs[j], p.dice[j], false);
    }
  }

  // --------------------------------------------------- what the search visits

  /** The sources the search tries: the bar, or an occupied legal point not above `iPip`. */
  ghost predicate Tries(b: Board, src: nat, die: nat, iPip: nat) {
    Step(b, src, die) && (src == 24 || src <= iPip)
  }

  /** The bound handed down: after a double's sub-move, only that point and lower ones. */
  function NextPip(src: nat, fDouble: bool): nat {
    if fDouble && src != 24 then src else 23
  }

  ghost predicate Stuck(b: Board, dice: seq<nat>, iPip: nat) {
    dice == [] || forall src :: !Tries(b, src, dice[0], iPip)
  }

  /** From board `b` the search hands the sub-moves `srcs` to SaveMoves. */
  ghost predicate Visits(b: Board, dice: seq<nat>, srcs: seq<nat>, iPip: nat, fDouble: bool, fPartial: bool)
    decreases srcs
  {
    && srcs != [] && dice != []
    && Tries(b, srcs[0], dice[0], iPip)
    && var c := SubMove(b, srcs[0], dice[0]);
       if |srcs| == 1 then fPartial || Stuck(c, dice[1..], NextPip(srcs[0], fDouble))
       else Visits(c, dice[1..], srcs[1..], NextPip(srcs[0], fDouble), fDouble, fPartial)
  }

  /** The plays the search saves below the sub-moves `path`. */
  ghost predicate SavesBelow(b: Board, dice: seq<nat>, path: seq<nat>, iPip: nat, fDouble: bool, fPartial: bool, p: Play) {
    && p.dice == dice && |path| <= |dice|
    && path <= p.srcs
    && Visits(b, dice[|path|..], p.srcs[|path|..], iPip, fDouble, fPartial)
  }

  lemma {:induction false} VisitsArePlayable(b: Board, dice: seq<nat>, srcs: seq<nat>, iPip: nat, fDouble: bool, fPartial: bool)
    requires Visits(b, dice, srcs, iPip, fDouble, fPartial)
    ensures Playable(b, srcs, dice)
    decreases srcs
  {
    if |srcs| > 1 {
      VisitsArePlayable(SubMove(b, srcs[0], dice[0]), dice[1..], srcs[1..], NextPip(srcs[0], fDouble), fDouble, fPartial);
    }
  }

  /** Below one node: the plays through source `i` are the node itself, if it
      is saved, and the plays below it. */
  lemma SavesThrough(b: Board, dice: seq<nat>, path: seq<nat>, iPip: nat, fDouble: bool, fPartial: bool, i: nat, p: Play)
    requires |path| < |dice| && Tries(b, i, dice[|path|], iPip)
    ensures var c := SubMove(b, i, dice[|path|]);
            SavesBelow(b, dice, path, iPip, fDouble, fPartial, p) && p.srcs[|path|] == i
            <==>
            || (p == Play(dice, path + [i]) && (fPartial || Stuck(c, dice[|path| + 1..], NextPip(i, fDouble))))
            || SavesBelow(c, dice, path + [i], NextPip(i, fDouble), fDouble, fPartial, p)
  {
    var k := |path|;
    assert dice[k..][0] == dice[k] && dice[k..][1..] == dice[k + 1..];
    if path <= p.srcs && |p.srcs| > k {
      assert p.srcs[k..][0] == p.srcs[k] && p.srcs[k..][1..] == p.srcs[k + 1..];
      assert path + [i] <= p.srcs <==> p.srcs[k] == i;
    }
    if p == Play(dice, path + [i]) {
      assert p.srcs[k..] == [i];
    }
    if SavesBelow(b, dice, path, iPip, fDouble, fPartial, p) && p.srcs[k] == i && |p.srcs| == k + 1 {
      assert p.srcs == path + [i];
    }
  }

  // ------------------------------------------------------------- the search

  /** anRoll holds the dice left to play, padded with zeros. */
  ghost predicate RollIs(anRoll: seq<int>, dice: seq<nat>, fDouble: bool) {
    && |anRoll| == 4 && (anRoll[0] == anRoll[1] <==> fDouble) && 1 <= |dice| <= 4
    && (forall j :: 0 <= j < |dice| ==> anRoll[j] == dice[j] && 1 <= dice[j] <= 6)
    && (forall j :: |dice| <= j < 4 ==> anRoll[j] == 0)
  }

  /** A copy of the board with one sub-move applied to it in place. */
  method CopyAndApply(anBoard: Board, iSrc: int, nRoll: int) returns (anBoardNew: Board)
    ensures anBoardNew == SubMoveResult(anBoard, iSrc, nRoll, true).1
  {
    var them, us := new nat[25], new nat[25];
    for i := 0 to 25
      invariant forall j :: 0 <= j < i ==> them[j] == anBoard.them[j] && us[j] == anBoard.us[j]
    {
      them[i] := anBoard.them[i];
      us[i] := anBoard.us[i];
    }
    assert them[..] == anBoard.them && us[..] == anBoard.us;
    var e := ApplySubMove(them, us, iSrc, nRoll, true);
    anBoardNew := Board(them[..], us[..]);
  }

  /** Every play of the roll ends in `boards`, and there is room for them all. */
  ghost predicate Room(b: Board, n0: nat, n1: nat, boards: set<Board>) {
    && |boards| < MAX_INCOMPLETE_MOVES
    && forall p :: IsPlay(b, n0, n1, p) ==> After(b, p.srcs, p.dice) in boards
  }

  /** A node of the search: `path` has been played from `b` with the first dice,
      reaching `c`, and is written in the cells of anMoves. */
  ghost predicate Node(b: Board, n0: nat, n1: nat, dice: seq<nat>, path: seq<nat>, c: Board, cells: seq<int>, cPip: nat) {
    && 1 <= n0 && 1 <= n1
    && dice in Orders(n0, n1) && |path| <= |dice|
    && Playable(b, path, dice) && After(b, path, dice) == c
    && |cells| == 8 && Encodes(cells, Play(dice, path), false) && cPip == Total(dice[..|path|])
  }

  lemma StepDown(b: Board, n0: nat, n1: nat, dice: seq<nat>, path: seq<nat>, c: Board, cells: seq<int>, cPip: nat, i: nat)
    requires Node(b, n0, n1, dice, path, c, cells, cPip) && |dice| <= 4
    requires |path| < |dice| && Step(c, i, dice[|path|])
    ensures var k := |path|;
            Node(b, n0, n1, dice, path + [i], SubMove(c, i, dice[k]),
                 cells[2 * k := i][2 * k + 1 := i - dice[k]], cPip + dice[k])
    ensures IsPlay(b, n0, n1, Play(dice, path + [i]))
  {
    var k := |path|;
    PlayableSnoc(b, path, dice, i);
    assert dice[..k + 1][..k] == dice[..k];
    var cells': seq<int> := cells[2 * k := i][2 * k + 1 := i - dice[k]];
    forall j | 0 <= j < k + 1
      ensures cells'[2 * j] == (path + [i])[j] && cells'[2 * j + 1] == Destination((path + [i])[j], dice[j], false)
    {
      if j < k {
        assert cells[2 * j] == path[j] && cells[2 * j + 1] == Destination(path[j], dice[j], false);
      }
    }
  }

  lemma NodeIgnoresTail(b: Board, n0: nat, n1: nat, dice: seq<nat>, path: seq<nat>, c: Board, cells: seq<int>, cells': seq<int>, cPip: nat)
    requires Node(b, n0, n1, dice, path, c, cells, cPip)
    requires |cells'| == 8 && cells'[..2 * |path|] == cells[..2 * |path|]
    ensures Node(b, n0, n1, dice, path, c, cells', cPip)
  {
    forall j | 0 <= j < |path|
      ensures cells'[2 * j] == cells[2 * j] && cells'[2 * j + 1] == cells[2 * j + 1]
    {
      assert cells'[..2 * |path|][2 * j] == cells[..2 * |path|][2 * j];
      assert cells'[..2 * |path|][2 * j + 1] == cells[..2 * |path|][2 * j + 1];
    }
  }

  ghost function Below(b: Board, dice: seq<nat>, path: seq<nat>, iPip: nat, fDouble: bool, fPartial: bool): iset<Play> {
    iset p | SavesBelow(b, dice, path, iPip, fDouble, fPartial, p)
  }

  /** The plays saved through source `i`: everything below it, and the node itself. */
  ghost function Through(b: Board, dice: seq<nat>, path: seq<nat>, i: nat, fDouble: bool, fPartial: bool): iset<Play>
    requires |path| < |dice| && Step(b, i, dice[|path|])
  {
    var c, next := SubMove(b, i, dice[|path|]), NextPip(i, fDouble);
    Below(c, dice, path + [i], next, fDouble, fPartial)
    + (if fPartial || Stuck(c, dice[|path| + 1..], next) then iset{Play(dice, path + [i])} else iset{})
  }

  /** The part of Below whose next source lies above `low`. */
  ghost function BelowFrom(b: Board, dice: seq<nat>, path: seq<nat>, iPip: nat, fDouble: bool, fPartial: bool, low: int): iset<Play> {
    iset p | SavesBelow(b, dice, path, iPip, fDouble, fPartial, p) && p.srcs[|path|] > low
  }

  lemma BelowNothing(b: Board, dice: seq<nat>, path: seq<nat>, iPip: nat, fDouble: bool, fPartial: bool)
    requires |path| <= |dice| && Stuck(b, dice[|path|..], iPip)
    ensures Below(b, dice, path, iPip, fDouble, fPartial) == iset{}
  {
  }

  lemma BelowOne(b: Board, dice: seq<nat>, path: seq<nat>, iPip: nat, fDouble: bool, fPartial: bool, i: nat)
    requires |path| < |dice|
    ensures Tries(b, i, dice[|path|], iPip) ==>
              BelowFrom(b, dice, path, iPip, fDouble, fPartial, i - 1)
              == BelowFrom(b, dice, path, iPip, fDouble, fPartial, i) + Through(b, dice, path, i, fDouble, fPartial)
    ensures !Tries(b, i, dice[|path|], iPip) ==>
              BelowFrom(b, dice, path, iPip, fDouble, fPartial, i - 1) == BelowFrom(b, dice, path, iPip, fDouble, fPartial, i)
  {
    if Tries(b, i, dice[|path|], iPip) {
      forall p {
        SavesThrough(b, dice, path, iPip, fDouble, fPartial, i, p);
      }
    }
  }

  lemma BelowAll(b: Board, dice: seq<nat>, path: seq<nat>, iPip: nat, fDouble: bool, fPartial: bool)
    requires |path| < |dice|
    ensures BelowFrom(b, dice, path, iPip, fDouble, fPartial, -1) == Below(b, dice, path, iPip, fDouble, fPartial)
    ensures b.us[24] == 0 ==> BelowFrom(b, dice, path, iPip, fDouble, fPartial, iPip) == iset{}
    ensures b.us[24] > 0 && Tries(b, 24, dice[|path|], iPip) ==>
              Below(b, dice, path, iPip, fDouble, fPartial) == Through(b, dice, path, 24, fDouble, fPartial)
  {
    if b.us[24] > 0 && Tries(b, 24, dice[|path|], iPip) {
      forall p {
        SavesThrough(b, dice, path, iPip, fDouble, fPartial, 24, p);
      }
    }
  }

  method GenerateMovesSub(pml: MoveList, anRoll: seq<int>, nMoveDepth: nat, iPip: int, cPip: nat,
                          anBoard: Board, anMoves: array<int>, fPartial: bool,
                          ghost b: Board, ghost n0: nat, ghost n1: nat, ghost dice: seq<nat>, ghost path: seq<nat>,
                          ghost boards: set<Board>)
    returns (r: bool)
    requires anMoves.Length == 8
    requires 0 <= iPip <= 23
    requires RollIs(anRoll, dice, n0 == n1) && Room(b, n0, n1, boards)
    requires Node(b, n0, n1, dice, path, anBoard, anMoves[..], cPip) && nMoveDepth == |path|
    requires pml.Good(b, n0, n1, fPartial, boards)
    modifies pml, pml.amMoves, anMoves
    ensures pml.Good(b, n0, n1, fPartial, boards)
    ensures anMoves[..2 * |path|] == old(anMoves[..2 * |path|])
    ensures pml.saved == old(pml.saved) + Below(anBoard, dice, path, iPip, n0 == n1, fPartial)
    ensures r <==> fPartial || Stuck(anBoard, dice[|path|..], iPip)
    decreases 4 - nMoveDepth, 1
  {
    if nMoveDepth > 3 || anRoll[nMoveDepth] == 0 {
      BelowNothing(anBoard, dice, path, iPip, n0 == n1, fPartial);
      return true;
    }
    BelowAll(anBoard, dice, path, iPip, n0 == n1, fPartial);
    if anBoard.us[24] != 0 {
      if anBoard.them[anRoll[nMoveDepth] - 1] >= 2 {
        BelowNothing(anBoard, dice, path, iPip, n0 == n1, fPartial);
        return true;
      }
      PlayOne(pml, anRoll, nMoveDepth, 24, 23, cPip, anBoard, anMoves, fPartial, b, n0, n1, dice, path, boards);
      assert Tries(anBoard, 24, dice[|path|], iPip);
      return fPartial;
    }
    r := TryPoints(pml, anRoll, nMoveDepth, iPip, cPip, anBoard, anMoves, fPartial, b, n0, n1, dice, path, boards);
  }

  /** The loop of the search over the source points, from `iPip` down. */
  method TryPoints(pml: MoveList, anRoll: seq<int>, nMoveDepth: nat, iPip: nat, cPip: nat,
                   anBoard: Board, anMoves: array<int>, fPartial: bool,
                   ghost b: Board, ghost n0: nat, ghost n1: nat, ghost dice: seq<nat>, ghost path: seq<nat>,
                   ghost boards: set<Board>)
    returns (r: bool)
    requires anMoves.Length == 8
    requires iPip <= 23 && anBoard.us[24] == 0
    requires RollIs(anRoll, dice, n0 == n1) && Room(b, n0, n1, boards)
    requires Node(b, n0, n1, dice, path, anBoard, anMoves[..], cPip) && nMoveDepth == |path| < |dice|
    requires pml.Good(b, n0, n1, fPartial, boards)
    modifies pml, pml.amMoves, anMoves
    ensures pml.Good(b, n0, n1, fPartial, boards)
    ensures anMoves[..2 * |path|] == old(anMoves[..2 * |path|])
    ensures pml.saved == old(pml.saved) + Below(anBoard, dice, path, iPip, n0 == n1, fPartial)
    ensures r <==> fPartial || Stuck(anBoard, dice[|path|..], iPip)
    decreases 4 - nMoveDepth, 0, 1
  {
    hide ListInv, SavesBelow, Room, Node, Through, BelowFrom;
    ghost var cells := anMoves[..];
    BelowAll(anBoard, dice, path, iPip, n0 == n1, fPartial);
    var fUsed := false;
    var i: int := iPip;
    while i >= 0
      invariant -1 <= i <= iPip
      invariant pml.Good(b, n0, n1, fPartial, boards)
      invariant anMoves[..2 * |path|] == cells[..2 * |path|]
      invariant fUsed <==> exists j :: i < j && Tries(anBoard, j, dice[|path|], iPip)
      invariant pml.saved == old(pml.saved) + BelowFrom(anBoard, dice, path, iPip, n0 == n1, fPartial, i)
    {
      BelowOne(anBoard, dice, path, iPip, n0 == n1, fPartial, i);
      if anBoard.us[i] != 0 {
        var legal := LegalMove(anBoard, i, anRoll[nMoveDepth]);
        if legal {
          NodeIgnoresTail(b, n0, n1, dice, path, anBoard, cells, anMoves[..], cPip);
          PlayOne(pml, anRoll, nMoveDepth, i, if anRoll[0] == anRoll[1] then i else 23, cPip, anBoard, anMoves, fPartial,
                  b, n0, n1, dice, path, boards);
          fUsed := true;
        }
      }
      i := i - 1;
    }
    return !fUsed || fPartial;
  }

  /** One sub-move of the search: record it, play it on a copy, search on, and
      save the play if nothing more can be added (or if partial plays are wanted). */
  method PlayOne(pml: MoveList, anRoll: seq<int>, nMoveDepth: nat, i: nat, next: nat, cPip: nat,
                 anBoard: Board, anMoves: array<int>, fPartial: bool,
                 ghost b: Board, ghost n0: nat, ghost n1: nat, ghost dice: seq<nat>, ghost path: seq<nat>,
                 ghost boards: set<Board>)
    requires anMoves.Length == 8
    requires RollIs(anRoll, dice, n0 == n1) && Room(b, n0, n1, boards)
    requires Node(b, n0, n1, dice, path, anBoard, anMoves[..], cPip) && nMoveDepth == |path| < |dice|
    requires Step(anBoard, i, dice[|path|]) && next == NextPip(i, n0 == n1)
    requires pml.Good(b, n0, n1, fPartial, boards)
    modifies pml, pml.amMoves, anMoves
    ensures pml.Good(b, n0, n1, fPartial, boards)
    ensures anMoves[..2 * |path|] == old(anMoves[..2 * |path|])
    ensures pml.saved == old(pml.saved) + Through(anBoard, dice, path, i, n0 == n1, fPartial)
    decreases 4 - nMoveDepth, 0, 0
  {
    hide ListInv, SavesBelow, Room, Node;
    ghost var cells', path' := RecordSubMove(anMoves, nMoveDepth, i, anRoll[nMoveDepth], b, n0, n1, dice, path, anBoard, cPip);
    StepApplies(anBoard, i, dice[|path|], true);
    var anBoardNew := CopyAndApply(anBoard, i, anRoll[nMoveDepth]);
    var deeper := GenerateMovesSub(pml, anRoll, nMoveDepth + 1, next, cPip + anRoll[nMoveDepth],
                                   anBoardNew, anMoves, fPartial, b, n0, n1, dice, path', boards);
    if deeper {
      SaveNode(pml, nMoveDepth + 1, cPip + anRoll[nMoveDepth], anMoves, anBoardNew, fPartial,
               b, n0, n1, dice, path', cells', boards);
    }
  }

  /** Writes one sub-move after the ones already recorded. */
  method RecordSubMove(anMoves: array<int>, nMoveDepth: nat, i: nat, die: nat,
                       ghost b: Board, ghost n0: nat, ghost n1: nat, ghost dice: seq<nat>, ghost path: seq<nat>,
                       ghost c: Board, ghost cPip: nat)
    returns (ghost cells: seq<int>, ghost path': seq<nat>)
    requires anMoves.Length == 8 && nMoveDepth == |path| < |dice| <= 4 && die == dice[|path|]
    requires Node(b, n0, n1, dice, path, c, anMoves[..], cPip) && Step(c, i, die)
    modifies anMoves
    ensures path' == path + [i] && cells == anMoves[..]
    ensures anMoves[..2 * |path|] == old(anMoves[..2 * |path|])
    ensures Node(b, n0, n1, dice, path', SubMove(c, i, die), cells, cPip + die)
  {
    StepDown(b, n0, n1, dice, path, c, anMoves[..], cPip, i);
    anMoves[nMoveDepth * 2] := i;
    anMoves[nMoveDepth * 2 + 1] := i - die;
    cells, path' := anMoves[..], path + [i];
    assert cells == old(anMoves[..])[2 * |path| := i][2 * |path| + 1 := i - die];
  }

  method SaveNode(pml: MoveList, cMovesNew: nat, cPip: nat, anMoves: array<int>, anBoard: Board, fPartial: bool,
                  ghost b: Board, ghost n0: nat, ghost n1: nat, ghost dice: seq<nat>, ghost path: seq<nat>, ghost cells: seq<int>, ghost boards: set<Board>)
    requires anMoves.Length == 8 && path != [] && |path| == cMovesNew <= 4
    requires Room(b, n0, n1, boards) && Node(b, n0, n1, dice, path, anBoard, cells, cPip)
    requires anMoves[..2 * |path|] == cells[..2 * |path|]
    requires pml.Good(b, n0, n1, fPartial, boards)
    modifies pml, pml.amMoves
    ensures pml.Good(b, n0, n1, fPartial, boards)
    ensures pml.saved == old(pml.saved) + iset{Play(dice, path)}
  {
    ghost var l, saved, p := pml.State(), pml.saved, Play(dice, path);
    NodeIgnoresTail(b, n0, n1, dice, path, anBoard, cells, anMoves[..], cPip);
    pml.SaveMoves(cMovesNew, cPip, anMoves, anBoard, fPartial, b, p, boards);
    SaveKeepsInv(b, n0, n1, l, pml.State(), saved, p, fPartial);
  }
}
