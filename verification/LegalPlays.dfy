/** GenerateMoves: the two passes of the search, and the theorem that the list it
    leaves behind is exactly the set of positions the rules allow. */
module LegalPlays {
  import opened Boards
  import opened Plays
  import opened Counting
  import opened MoveGenerator

  // ------------------------------------------ the search misses no position

  lemma PlayableOne(b: Board, src: nat, dice: seq<nat>)
    requires dice != []
    ensures Playable(b, [src], dice) <==> Step(b, src, dice[0])
  {
    assert [src][1..] == [];
  }

  lemma ExtendLater(b: Board, srcs: seq<nat>, dice: seq<nat>, src: nat)
    requires srcs != [] && Playable(b, srcs, dice)
    ensures Playable(b, srcs + [src], dice) <==> Playable(SubMove(b, srcs[0], dice[0]), srcs[1..] + [src], dice[1..])
  {
    var t := srcs + [src];
    assert t[0] == srcs[0] && t[1..] == srcs[1..] + [src];
  }

  /** The order in which the search visits a double's plays loses nothing: a
      play from the back forwards is visited, and saved if it cannot be extended. */
  lemma {:induction false} PlayIsVisited(b: Board, dice: seq<nat>, srcs: seq<nat>, iPip: nat, fDouble: bool, fPartial: bool)
    requires srcs != [] && Playable(b, srcs, dice)
    requires fDouble ==> Descending(srcs)
    requires iPip <= 23 && (srcs[0] == 24 || srcs[0] <= iPip)
    requires fPartial || forall src :: !Playable(b, srcs + [src], dice)
    ensures Visits(b, dice, srcs, iPip, fDouble, fPartial)
    decreases srcs
  {
    var c, rest, next := SubMove(b, srcs[0], dice[0]), srcs[1..], NextPip(srcs[0], fDouble);
    if !fPartial {
      forall src ensures !Playable(c, rest + [src], dice[1..]) {
        ExtendLater(b, srcs, dice, src);
      }
    }
    if rest == [] {
      if !fPartial && dice[1..] != [] {
        forall src ensures !Tries(c, src, dice[1..][0], next) {
          assert !Playable(c, rest + [src], dice[1..]);
          assert rest + [src] == [src];
          PlayableOne(c, src, dice[1..]);
        }
      }
    } else {
      BarFirst(b, srcs, dice);
      PlayIsVisited(c, dice[1..], rest, next, fDouble, fPartial);
    }
  }

  /** A second sub-move is from the bar only if the first one was. */
  lemma BarFirst(b: Board, srcs: seq<nat>, dice: seq<nat>)
    requires Playable(b, srcs, dice) && |srcs| >= 2
    ensures srcs[0] < 25 && srcs[1] < 25 && (srcs[1] == 24 ==> srcs[0] == 24)
  {
    var c := SubMove(b, srcs[0], dice[0]);
    assert Step(c, srcs[1..][0], dice[1..][0]);
    assert srcs[0] != 24 ==> c.us[24] == b.us[24];
  }

  /** Every play the two passes of the search save. */
  ghost function SavedPlays(b: Board, n0: nat, n1: nat, fPartial: bool): iset<Play> {
    if n0 == n1 then Below(b, Same(n0, 4), [], 23, true, fPartial)
    else Below(b, [n0, n1], [], 23, false, fPartial) + Below(b, [n1, n0], [], 23, false, fPartial)
  }

  lemma SavedFromRoot(b: Board, n0: nat, n1: nat, fPartial: bool, p: Play)
    requires p.dice in Orders(n0, n1)
    ensures Visits(b, p.dice, p.srcs, 23, n0 == n1, fPartial) ==> p in SavedPlays(b, n0, n1, fPartial)
  {
    assert p.srcs[0..] == p.srcs && p.dice[0..] == p.dice;
  }

  /** A play not to be extended has a saved play of the same length and pips
      that reaches the same board. */
  lemma PlayIsSaved(b: Board, n0: nat, n1: nat, p: Play, fPartial: bool) returns (q: Play)
    requires Unshared(b) && IsPlay(b, n0, n1, p)
    requires fPartial || forall src, t :: |t| == |p.srcs| ==> !IsPlay(b, n0, n1, Play(p.dice, t + [src]))
    ensures q in SavedPlays(b, n0, n1, fPartial) && IsPlay(b, n0, n1, q)
    ensures q.dice == p.dice && |q.srcs| == |p.srcs|
    ensures After(b, q.srcs, q.dice) == After(b, p.srcs, p.dice)
  {
    var t := p.srcs;
    if n0 == n1 {
      t := PlayFromTheBack(b, p.srcs, n0, 4);
    }
    q := Play(p.dice, t);
    if !fPartial {
      forall src ensures !Playable(b, t + [src], p.dice) {
        assert !IsPlay(b, n0, n1, Play(p.dice, t + [src]));
      }
    }
    PlayIsVisited(b, p.dice, t, 23, n0 == n1, fPartial);
    SavedFromRoot(b, n0, n1, fPartial, q);
  }

  /** From any play one can pass to a complete one that does at least as well. */
  lemma {:induction false} CompletePlayExists(b: Board, n0: nat, n1: nat, p: Play) returns (q: Play)
    requires 1 <= n0 <= 6 && 1 <= n1 <= 6
    requires IsPlay(b, n0, n1, p) && |p.srcs| <= |p.dice|
    ensures IsComplete(b, n0, n1, q) && DicePips(p) <= DicePips(q)
    decreases 24 - DicePips(p)
  {
    if r :| IsPlay(b, n0, n1, r) && |r.srcs| <= |r.dice| && Outdoes(r, p) {
      MeasuresAgree(n0, n1, p, r);
      AtMost24Pips(n0, n1, r);
      q := CompletePlayExists(b, n0, n1, r);
    } else {
      q := p;
    }
  }

  lemma AtMost24Pips(n0: nat, n1: nat, p: Play)
    requires 1 <= n0 <= 6 && 1 <= n1 <= 6
    requires p.dice in Orders(n0, n1) && 1 <= |p.srcs| <= |p.dice|
    ensures DicePips(p) <= 24
  {
    if n0 == n1 {
      PipsOfDouble(n0, |p.srcs|);
      assert n0 * |p.srcs| <= 6 * |p.srcs|;
    } else {
      PipsOfTwo(p.dice, |p.srcs|);
    }
  }

  /** A complete play has no extension of any play of its length. */
  lemma CompleteIsMaximal(b: Board, n0: nat, n1: nat, p: Play)
    requires IsComplete(b, n0, n1, p)
    ensures forall src, t :: |t| == |p.srcs| ==> !IsPlay(b, n0, n1, Play(p.dice, t + [src]))
  {
    forall src, t: seq<nat> | |t| == |p.srcs| ensures !IsPlay(b, n0, n1, Play(p.dice, t + [src])) {
      if IsPlay(b, n0, n1, Play(p.dice, t + [src])) {
        PlayableLength(b, t + [src], p.dice);
        assert false;
      }
    }
  }

  // ------------------------------------------------------- the list is exact

  /** Some stored move has this position. */
  ghost predicate Listed(l: ListState, c: Board) {
    exists i :: 0 <= i < |l.moves| && l.moves[i].key == c
  }

  /** The maxima of a complete-move list are those of every complete play. */
  lemma MaximaAreComplete(b: Board, n0: nat, n1: nat, l: ListState, p: Play)
    requires Unshared(b) && 1 <= n0 <= 6 && 1 <= n1 <= 6
    requires ListInv(b, n0, n1, l, SavedPlays(b, n0, n1, false), false)
    requires IsComplete(b, n0, n1, p)
    ensures |p.srcs| == l.maxMoves && DicePips(p) == l.maxPips
  {
    var saved := SavedPlays(b, n0, n1, false);
    CompleteIsMaximal(b, n0, n1, p);
    var q := PlayIsSaved(b, n0, n1, p, false);
    assert Within(l, saved);
    assert l.moves != [];
    assert EntryJustified(b, l, saved, false, l.moves[0]);
    var e :| e in saved && Records(b, l.moves[0], e) && Kept(l, false, e);
    assert !Outdoes(e, p);
    MeasuresAgree(n0, n1, p, e);
  }

  lemma KeptIsComplete(b: Board, n0: nat, n1: nat, l: ListState, q: Play)
    requires Unshared(b) && 1 <= n0 <= 6 && 1 <= n1 <= 6
    requires ListInv(b, n0, n1, l, SavedPlays(b, n0, n1, false), false)
    requires q in SavedPlays(b, n0, n1, false) && |q.srcs| <= |q.dice| && Kept(l, false, q)
    ensures IsComplete(b, n0, n1, q)
  {
    forall r | IsPlay(b, n0, n1, r) && |r.srcs| <= |r.dice| ensures !Outdoes(r, q) {
      var s := CompletePlayExists(b, n0, n1, r);
      MaximaAreComplete(b, n0, n1, l, s);
      MeasuresAgree(n0, n1, q, r);
    }
  }

  /** With complete moves only, the list holds exactly the legal end positions. */
  lemma ListIsExact(b: Board, n0: nat, n1: nat, l: ListState, c: Board)
    requires Unshared(b) && 1 <= n0 <= 6 && 1 <= n1 <= 6
    requires ListInv(b, n0, n1, l, SavedPlays(b, n0, n1, false), false)
    ensures Listed(l, c) <==> LegalEnd(b, n0, n1, c)
  {
    var saved := SavedPlays(b, n0, n1, false);
    if Listed(l, c) {
      var i :| 0 <= i < |l.moves| && l.moves[i].key == c;
      assert EntryJustified(b, l, saved, false, l.moves[i]);
      var p :| p in saved && Records(b, l.moves[i], p) && Kept(l, false, p);
      KeptIsComplete(b, n0, n1, l, p);
    }
    if LegalEnd(b, n0, n1, c) {
      var p :| IsComplete(b, n0, n1, p) && After(b, p.srcs, p.dice) == c;
      CompleteIsMaximal(b, n0, n1, p);
      var q := PlayIsSaved(b, n0, n1, p, false);
      MaximaAreComplete(b, n0, n1, l, p);
      assert Kept(l, false, q);
      assert PlayListed(b, l.moves, q);
    }
  }

  /** With partial moves kept, it holds exactly the positions some play reaches. */
  lemma PartialListIsExact(b: Board, n0: nat, n1: nat, l: ListState, c: Board)
    requires Unshared(b) && ListInv(b, n0, n1, l, SavedPlays(b, n0, n1, true), true)
    ensures Listed(l, c) <==> Reachable(b, n0, n1, c)
  {
    var saved := SavedPlays(b, n0, n1, true);
    if Listed(l, c) {
      var i :| 0 <= i < |l.moves| && l.moves[i].key == c;
      assert EntryJustified(b, l, saved, true, l.moves[i]);
      var p :| p in saved && Records(b, l.moves[i], p) && Kept(l, true, p);
      assert IsPlay(b, n0, n1, p);
    }
    if Reachable(b, n0, n1, c) {
      var p :| IsPlay(b, n0, n1, p) && After(b, p.srcs, p.dice) == c;
      var q := PlayIsSaved(b, n0, n1, p, true);
      PlayableLength(b, q.srcs, q.dice);
      assert Kept(l, true, q);
      assert PlayListed(b, l.moves, q);
    }
  }

  // ------------------------------------------------------------ GenerateMoves

  /** An entry records a play of the roll (a complete one unless partial moves
      are kept), none longer reaches its position, and it replays through ApplyMove. */
  ghost predicate EntryExact(b: Board, n0: nat, n1: nat, m: Move, fPartial: bool) {
    && (exists p :: Records(b, m, p) && IsPlay(b, n0, n1, p) && (fPartial || IsComplete(b, n0, n1, p)))
    && (forall p :: IsPlay(b, n0, n1, p) && After(b, p.srcs, p.dice) == m.key ==> |p.srcs| <= m.cMoves)
    && MoveResult(b, m.anMove, 0, true) == (0, m.key)
  }

  /** What a caller of GenerateMoves can rely on. */
  ghost predicate ListExact(b: Board, n0: nat, n1: nat, l: ListState, fPartial: bool) {
    && DistinctKeys(l.moves)
    && (forall c :: Listed(l, c) <==> if fPartial then Reachable(b, n0, n1, c) else LegalEnd(b, n0, n1, c))
    && (forall i :: 0 <= i < |l.moves| ==> EntryExact(b, n0, n1, l.moves[i], fPartial))
    && (!fPartial ==> |l.moves| <= MAX_MOVES)
  }

  lemma EntriesAreExact(b: Board, n0: nat, n1: nat, l: ListState, fPartial: bool, i: nat)
    requires Unshared(b) && 1 <= n0 <= 6 && 1 <= n1 <= 6
    requires ListInv(b, n0, n1, l, SavedPlays(b, n0, n1, fPartial), fPartial) && i < |l.moves|
    ensures EntryExact(b, n0, n1, l.moves[i], fPartial)
  {
    var saved, m := SavedPlays(b, n0, n1, fPartial), l.moves[i];
    assert EntryJustified(b, l, saved, fPartial, m);
    var p :| p in saved && Records(b, m, p) && Kept(l, fPartial, p);
    StoredMoveReplays(b, m, p, true);
    if !fPartial {
      KeptIsComplete(b, n0, n1, l, p);
    }
    forall r | IsPlay(b, n0, n1, r) && After(b, r.srcs, r.dice) == m.key ensures |r.srcs| <= m.cMoves {
      PlayableLength(b, r.srcs, r.dice);
      if fPartial {
        NoLongerPlay(b, n0, n1, l, i, r);
      } else {
        assert !Outdoes(r, p);
      }
    }
  }

  lemma NoLongerPlay(b: Board, n0: nat, n1: nat, l: ListState, i: nat, r: Play)
    requires Unshared(b) && ListInv(b, n0, n1, l, SavedPlays(b, n0, n1, true), true) && i < |l.moves|
    requires IsPlay(b, n0, n1, r) && After(b, r.srcs, r.dice) == l.moves[i].key
    ensures |r.srcs| <= l.moves[i].cMoves
  {
    var q := PlayIsSaved(b, n0, n1, r, true);
    PlayableLength(b, q.srcs, q.dice);
    assert Kept(l, true, q);
    assert PlayListed(b, l.moves, q);
    var j :| 0 <= j < |l.moves| && l.moves[j].key == After(b, q.srcs, q.dice)
             && |q.srcs| <= l.moves[j].cMoves && DicePips(q) <= l.moves[j].cPips;
    assert i == j;
  }

  lemma CompleteListFits(b: Board, n0: nat, n1: nat, l: ListState)
    requires Unshared(b) && Total(b.us) <= 15
    requires ListInv(b, n0, n1, l, SavedPlays(b, n0, n1, false), false)
    ensures |l.moves| <= MAX_MOVES
  {
    var k := l.maxMoves;
    if l.moves != [] {
      KeyIsAnEnd(b, n0, n1, l, 0);
      forall i | 0 <= i < |l.moves| ensures l.moves[i].key in EndsOf(b, n0, n1, k) {
        KeyIsAnEnd(b, n0, n1, l, i);
      }
      DistinctKeysFit(l.moves, EndsOf(b, n0, n1, k));
      FewEndsOf(b, n0, n1, k);
    }
  }

  lemma KeyIsAnEnd(b: Board, n0: nat, n1: nat, l: ListState, i: nat)
    requires Unshared(b) && ListInv(b, n0, n1, l, SavedPlays(b, n0, n1, false), false) && i < |l.moves|
    ensures 1 <= l.maxMoves <= 4 && l.moves[i].key in EndsOf(b, n0, n1, l.maxMoves)
  {
    assert EntryJustified(b, l, SavedPlays(b, n0, n1, false), false, l.moves[i]);
    var p :| p in SavedPlays(b, n0, n1, false) && Records(b, l.moves[i], p) && Kept(l, false, p);
    PlayEnds(b, n0, n1, p);
  }

  lemma ListIsComplete(b: Board, n0: nat, n1: nat, l: ListState, fPartial: bool)
    requires Unshared(b) && Total(b.us) <= 15 && 1 <= n0 <= 6 && 1 <= n1 <= 6
    requires ListInv(b, n0, n1, l, SavedPlays(b, n0, n1, fPartial), fPartial)
    ensures ListExact(b, n0, n1, l, fPartial)
  {
    forall c ensures Listed(l, c) <==> if fPartial then Reachable(b, n0, n1, c) else LegalEnd(b, n0, n1, c) {
      if fPartial {
        PartialListIsExact(b, n0, n1, l, c);
      } else {
        ListIsExact(b, n0, n1, l, c);
      }
    }
    forall i | 0 <= i < |l.moves| ensures EntryExact(b, n0, n1, l.moves[i], fPartial) {
      EntriesAreExact(b, n0, n1, l, fPartial, i);
    }
    if !fPartial {
      CompleteListFits(b, n0, n1, l);
    }
  }

  /** The buffer is large enough: MAX_INCOMPLETE_MOVES is never reached. */
  lemma ThereIsRoom(b: Board, n0: nat, n1: nat)
    requires Unshared(b) && Total(b.us) <= 15 && 1 <= n0 && 1 <= n1
    ensures Room(b, n0, n1, AllEnds(b, n0, n1))
  {
    hide AllEnds, EndsOf;
    FewEnds(b, n0, n1);
    forall p | IsPlay(b, n0, n1, p) ensures After(b, p.srcs, p.dice) in AllEnds(b, n0, n1) {
      PlayEnds(b, n0, n1, p);
      SomeEnds(b, n0, n1, |p.srcs|);
    }
  }

  lemma SomeEnds(b: Board, n0: nat, n1: nat, k: nat)
    requires 1 <= k <= 4
    ensures EndsOf(b, n0, n1, k) <= AllEnds(b, n0, n1)
  {
    hide EndsOf;
  }

  method GenerateMoves(pml: MoveList, anBoard: Board, n0: nat, n1: nat, fPartial: bool) returns (r: nat)
    requires pml.amMoves.Length == MAX_INCOMPLETE_MOVES
    requires Unshared(anBoard) && Total(anBoard.us) <= 15 && 1 <= n0 <= 6 && 1 <= n1 <= 6
    modifies pml, pml.amMoves
    ensures pml.Sized() && r == pml.cMoves
    ensures ListExact(anBoard, n0, n1, pml.State(), fPartial)
  {
    hide ListExact, ListInv, Room, Node, Below, RollIs, Orders, Same;
    ghost var boards := AllEnds(anBoard, n0, n1);
    ThereIsRoom(anBoard, n0, n1);
    var same := if n0 == n1 then n0 else 0;
    var anRoll := [n0, n1, same, same];
    var anMoves := new int[8];
    ClearList(pml, anBoard, n0, n1, fPartial, boards);
    ghost var dice := if n0 == n1 then Same(n0, 4) else [n0, n1];
    RootNode(anBoard, n0, n1, anRoll, dice, anMoves[..]);
    var b := GenerateMovesSub(pml, anRoll, 0, 23, 0, anBoard, anMoves, fPartial, anBoard, n0, n1, dice, [], boards);
    if anRoll[0] != anRoll[1] {
      anRoll := [anRoll[1], anRoll[0]] + anRoll[2..];
      RootNode(anBoard, n0, n1, anRoll, [n1, n0], anMoves[..]);
      b := GenerateMovesSub(pml, anRoll, 0, 23, 0, anBoard, anMoves, fPartial, anBoard, n0, n1, [n1, n0], [], boards);
    }
    assert pml.saved == SavedPlays(anBoard, n0, n1, fPartial);
    ListIsComplete(anBoard, n0, n1, pml.State(), fPartial);
    return pml.cMoves;
  }

  method ClearList(pml: MoveList, ghost b: Board, ghost n0: nat, ghost n1: nat, ghost fPartial: bool, ghost boards: set<Board>)
    requires pml.amMoves.Length == MAX_INCOMPLETE_MOVES
    modifies pml
    ensures pml.Good(b, n0, n1, fPartial, boards) && pml.saved == iset{} && pml.cMoves == 0
  {
    pml.cMoves, pml.cMaxMoves, pml.cMaxPips, pml.iMoveBest := 0, 0, 0, 0;
    pml.saved := iset{};
  }

  lemma RootNode(b: Board, n0: nat, n1: nat, anRoll: seq<int>, dice: seq<nat>, cells: seq<int>)
    requires 1 <= n0 <= 6 && 1 <= n1 <= 6 && |cells| == 8
    requires if n0 == n1 then anRoll == [n0, n0, n0, n0] && dice == Same(n0, 4)
             else anRoll == dice + [0, 0] && (dice == [n0, n1] || dice == [n1, n0])
    ensures RollIs(anRoll, dice, n0 == n1) && Node(b, n0, n1, dice, [], b, cells, 0)
  {
    assert dice[..0] == [];
  }
}
