/** FormatMove of gnubg/drawboard.c: sub-moves to text. Rows of a flat 16-cell array
    are sorted, joined into chains in place, folded and printed. */
module MoveFormatter {
  import opened Boards
  import opened Settling
  import opened PairOrder
  import opened Chains

  // -------------------------------------------------------------- the text

  function Digit(n: nat): char
    requires n < 10
  {
    ('0' as int + n) as char
  }

  /** FormatPoint. */
  function PointText(n: int): string
    requires 0 <= n <= 25
  {
    if n == 0 then "off"
    else if n == 25 then "bar"
    else if n > 9 then [Digit(n / 10), Digit(n % 10)]
    else [Digit(n)]
  }

  /** A printed chain: its points, which of them carry a `*`, and how often it is played. */
  datatype Group = Group(points: Chain, stars: seq<bool>, count: nat)

  ghost predicate GroupOk(g: Group) {
    && |g.points| >= 2 && |g.stars| == |g.points| && 1 <= g.count <= 9
    && forall k :: 0 <= k < |g.points| ==> 0 <= g.points[k] <= 25
  }

  /** The text of the first k + 1 points. */
  function ChainText(points: Chain, stars: seq<bool>, k: nat): string
    requires k < |points| == |stars| && forall k :: 0 <= k < |points| ==> 0 <= points[k] <= 25
  {
    if k == 0 then PointText(points[0])
    else ChainText(points, stars, k - 1) + "/" + PointText(points[k]) + (if stars[k] then "*" else "")
  }

  function CountText(n: nat): string
    requires n <= 9
  {
    if n > 1 then ['(', Digit(n), ')'] else ""
  }

  ghost function GroupText(g: Group): string
    requires GroupOk(g)
  {
    ChainText(g.points, g.stars, |g.points| - 1) + CountText(g.count)
  }

  ghost function MoveText(gs: seq<Group>): string
    requires forall i :: 0 <= i < |gs| ==> GroupOk(gs[i])
  {
    if gs == [] then ""
    else MoveText(gs[..|gs| - 1]) + (if |gs| > 1 then " " else "") + GroupText(gs[|gs| - 1])
  }

  ghost function PointsOf(gs: seq<Group>): seq<Chain> {
    seq(|gs|, i requires 0 <= i < |gs| => gs[i].points)
  }

  ghost function CountsOf(gs: seq<Group>): seq<nat> {
    seq(|gs|, i requires 0 <= i < |gs| => gs[i].count)
  }

  /** The sub-moves a printed move stands for. */
  ghost function GroupSteps(gs: seq<Group>): multiset<Pair> {
    RowSteps(PointsOf(gs), CountsOf(gs), 0)
  }

  // ------------------------------------------------------------ joining rows

  /** Rows of the array as chains, [] for a row no longer in use. */
  ghost predicate RowAt(b: Board, cells: seq<int>, src: seq<int>, dst: seq<int>, ch: seq<Chain>, k: nat)
    requires |cells| == 16 && |src| == |dst| == |ch| == 4 && k < 4
  {
    if ch[k] == [] then src[k] == -1
    else
      && Printable(b, ch[k])
      && src[k] == 4 * k && dst[k] == 4 * k + |ch[k]| - 1
      && (|ch[k]| <= 4 || (k == 0 && |ch[0]| == 5 && ch[1] == ch[2] == ch[3] == []))
      && forall t :: 0 <= t < |ch[k]| ==> cells[4 * k + t] == ch[k][t]
  }

  ghost predicate RowsAre(b: Board, cells: seq<int>, src: seq<int>, dst: seq<int>, ch: seq<Chain>) {
    && |cells| == 16 && |src| == |dst| == |ch| == 4
    && RowAt(b, cells, src, dst, ch, 0) && RowAt(b, cells, src, dst, ch, 1)
    && RowAt(b, cells, src, dst, ch, 2) && RowAt(b, cells, src, dst, ch, 3)
  }

  /** Rows strictly between i and j already joined to another. */
  ghost function Gone(ch: seq<Chain>, i: nat, j: nat): nat
    requires |ch| == 4
  {
    (if i < 1 < j && ch[1] == [] then 1 else 0) + (if i < 2 < j && ch[2] == [] then 1 else 0)
    + (if i < 3 < j && ch[3] == [] then 1 else 0)
  }

  /** Joining row j to row i in place: the end of row i may run one cell into row
      i + 1, but only when every other row is gone. */
  lemma JoinRows(b: Board, cells: seq<int>, src: seq<int>, dst: seq<int>, ch: seq<Chain>, i: nat, j: nat)
    requires |cells| == 16 && |src| == |dst| == |ch| == 4
    requires RowsAre(b, cells, src, dst, ch) && i < j < 4 && ch[i] != [] && |ch[j]| == 2
    requires ch[j][0] == ch[i][|ch[i]| - 1] && |ch[i]| <= 2 + Gone(ch, i, j)
    requires forall k :: i < k < 4 ==> |ch[k]| <= 2
    ensures 1 <= ch[j][0] <= 24
    ensures var c := Joined(b, ch[i], ch[j][1]);
            var pos, ch' := 4 * i + |c| - 1, ch[i := c][j := []];
            && pos < 16
            && RowsAre(b, cells[pos := ch[j][1]], src[j := -1], dst[i := pos], ch')
            && |c| <= 2 + Gone(ch', i, j + 1)
  {
    hide *;
    RowIs(b, cells, src, dst, ch, i);
    RowIs(b, cells, src, dst, ch, j);
    JoinedIsPrintable(b, ch[i], ch[j]);
    var c := Joined(b, ch[i], ch[j][1]);
    JoinedEnd(b, ch[i], ch[j][1]);
    JoinedSize(b, ch, i, j, c);
    JoinedRow(b, cells, src, dst, ch, i, j, c);
    var pos := 4 * i + |c| - 1;
    OtherRows(b, cells, src, dst, ch, cells[pos := ch[j][1]], src[j := -1], dst[i := pos], ch[i := c][j := []], i, j, pos);
  }

  lemma OtherRows(b: Board, cells: seq<int>, src: seq<int>, dst: seq<int>, ch: seq<Chain>,
                  cells': seq<int>, src': seq<int>, dst': seq<int>, ch': seq<Chain>, i: nat, j: nat, pos: nat)
    requires RowsAre(b, cells, src, dst, ch) && |cells| == 16 && |src| == |dst| == |ch| == 4 && i < j < 4 && pos < 16
    requires |cells'| == 16 && |src'| == |dst'| == |ch'| == 4 && ch[i] != []
    requires cells' == cells[pos := cells'[pos]] && 4 * i < pos
    requires forall k :: 0 <= k < 4 && k != i && k != j ==> src'[k] == src[k] && dst'[k] == dst[k] && ch'[k] == ch[k]
    requires ch'[j] == [] && src'[j] == -1
    requires RowAt(b, cells', src', dst', ch', i)
    requires forall k :: i < k < 4 && ch'[k] != [] ==> pos < 4 * k
    ensures RowsAre(b, cells', src', dst', ch')
  {
    hide *;
    RowGone(b, cells', src', dst', ch', j);
    forall k | 0 <= k < 4 && k != i && k != j ensures RowAt(b, cells', src', dst', ch', k) {
      RowIs(b, cells, src, dst, ch, k);
      OtherRow(b, cells, src, dst, ch, cells', src', dst', ch', k, i, j, pos);
    }
    AllRows(b, cells', src', dst', ch');
  }

  lemma AllRows(b: Board, cells: seq<int>, src: seq<int>, dst: seq<int>, ch: seq<Chain>)
    requires |cells| == 16 && |src| == |dst| == |ch| == 4
    requires forall k :: 0 <= k < 4 ==> RowAt(b, cells, src, dst, ch, k)
    ensures RowsAre(b, cells, src, dst, ch)
  {
    hide RowAt;
  }

  lemma RowIs(b: Board, cells: seq<int>, src: seq<int>, dst: seq<int>, ch: seq<Chain>, k: nat)
    requires RowsAre(b, cells, src, dst, ch) && k < 4
    ensures RowAt(b, cells, src, dst, ch, k)
    ensures ch[k] == [] ==> src[k] == -1
    ensures ch[k] != [] ==> Printable(b, ch[k]) && |ch[k]| >= 2 && src[k] == 4 * k && dst[k] == 4 * k + |ch[k]| - 1 < 16
    ensures ch[k] != [] ==> forall t :: 0 <= t < |ch[k]| ==> cells[4 * k + t] == ch[k][t]
    ensures |ch[k]| <= 4 || (k == 0 && |ch[0]| == 5 && ch[1] == ch[2] == ch[3] == [])
  {
  }

  /** A chain of five points is the whole play. */
  lemma JoinedSize(b: Board, ch: seq<Chain>, i: nat, j: nat, c: Chain)
    requires |ch| == 4 && i < j < 4 && ch[i] != [] && |ch[j]| == 2
    requires |c| <= |ch[i]| + 1 && |ch[i]| <= 2 + Gone(ch, i, j)
    ensures var ch' := ch[i := c][j := []];
            && |c| <= 2 + Gone(ch', i, j + 1)
            && (|c| <= 4 || (i == 0 && |c| == 5 && ch'[1] == ch'[2] == ch'[3] == []))
            && 4 * i + |c| - 1 < 16
            && forall k :: i < k < 4 && ch'[k] != [] ==> 4 * i + |c| - 1 < 4 * k
  {
  }

  lemma JoinedRow(b: Board, cells: seq<int>, src: seq<int>, dst: seq<int>, ch: seq<Chain>, i: nat, j: nat, c: Chain)
    requires RowsAre(b, cells, src, dst, ch) && i < j < 4 && ch[i] != [] && |ch[j]| == 2
    requires 1 <= ch[i][|ch[i]| - 1] <= 24 && c == Joined(b, ch[i], ch[j][1]) && Printable(b, c)
    requires var ch' := ch[i := c][j := []];
             |c| <= 4 || (i == 0 && |c| == 5 && ch'[1] == ch'[2] == ch'[3] == [])
    requires 4 * i + |c| - 1 < 16
    ensures var pos := 4 * i + |c| - 1;
            RowAt(b, cells[pos := ch[j][1]], src[j := -1], dst[i := pos], ch[i := c][j := []], i)
  {
    RowIs(b, cells, src, dst, ch, i);
    hide Printable;
    JoinedCells(b, cells, ch[i], ch[j][1], i, 4 * i + |c| - 1);
  }

  lemma RowGone(b: Board, cells: seq<int>, src: seq<int>, dst: seq<int>, ch: seq<Chain>, k: nat)
    requires |cells| == 16 && |src| == |dst| == |ch| == 4 && k < 4 && ch[k] == [] && src[k] == -1
    ensures RowAt(b, cells, src, dst, ch, k)
  {
  }

  lemma OtherRow(b: Board, cells: seq<int>, src: seq<int>, dst: seq<int>, ch: seq<Chain>,
                 cells': seq<int>, src': seq<int>, dst': seq<int>, ch': seq<Chain>,
                 k: nat, i: nat, j: nat, pos: nat)
    requires |cells| == 16 && |src| == |dst| == |ch| == 4 && k < 4 && i < 4 && j < 4 && pos < 16 && k != i && k != j
    requires |cells'| == 16 && |src'| == |dst'| == |ch'| == 4
    requires RowAt(b, cells, src, dst, ch, k) && ch'[k] == ch[k] && src'[k] == src[k] && dst'[k] == dst[k]
    requires cells' == cells[pos := cells'[pos]] && 4 * i < pos && ch[i] != []
    requires i < k && ch'[k] != [] ==> pos < 4 * k
    requires ch'[j] == [] && forall r :: 0 <= r < 4 && r != i && r != j ==> ch'[r] == ch[r]
    ensures RowAt(b, cells', src', dst', ch', k)
  {
    hide Printable;
  }

  lemma JoinedCells(b: Board, cells: seq<int>, c: Chain, x: int, i: nat, pos: nat)
    requires |c| >= 2 && 1 <= c[|c| - 1] <= 24 && |cells| == 16 && pos == 4 * i + |Joined(b, c, x)| - 1 < 16
    requires forall t :: 0 <= t < |c| && 4 * i + t < 16 ==> cells[4 * i + t] == c[t]
    ensures forall t :: 0 <= t < |Joined(b, c, x)| ==> cells[pos := x][4 * i + t] == Joined(b, c, x)[t]
  {
  }

  // ---------------------------------------------------------- loading rows

  /** The sub-moves of a recorded move with points counted from 1. */
  ghost function Shown(anMove: seq<int>): seq<Pair>
    requires |anMove| == 8
  {
    Shifted(PairsIn(anMove, 0), 1)
  }

  ghost function Shifted(ms: seq<Pair>, k: int): seq<Pair> {
    seq(|ms|, i requires 0 <= i < |ms| => (ms[i].0 + k, ms[i].1 + k))
  }

  /** A sub-move downhill to a point the opponent has not made. */
  ghost predicate PairPlayable(b: Board, m: Pair) {
    IsPair(m) && (1 <= m.1 <= 24 ==> b.them[24 - m.1] < 2)
  }

  ghost function RowOf(ms: seq<Pair>, k: nat): Chain {
    if k < |ms| then [ms[k].0, ms[k].1] else []
  }

  ghost function RowsOf(ms: seq<Pair>): (rows: seq<Chain>)
    ensures |rows| == 4 && forall k :: 0 <= k < 4 ==> rows[k] == RowOf(ms, k)
  {
    [RowOf(ms, 0), RowOf(ms, 1), RowOf(ms, 2), RowOf(ms, 3)]
  }

  const ONES: seq<nat> := [1, 1, 1, 1]

  lemma {:induction false} RowsHoldPairs(ms: seq<Pair>, k: nat)
    requires |ms| <= 4 && k <= 4
    ensures RowSteps(RowsOf(ms), ONES, k) == multiset(if k <= |ms| then ms[k..] else [])
    decreases 4 - k
  {
    if k < 4 {
      hide *;
      RowsHoldPairs(ms, k + 1);
      RowsOfLength(ms);
      Unfold(RowsOf(ms), ONES, 0, k);
      TimesOne(Steps(RowsOf(ms)[k]));
      RowOfSteps(ms, k);
    }
  }

  lemma RowsOfLength(ms: seq<Pair>)
    ensures |RowsOf(ms)| == 4 == |ONES| && forall k :: 0 <= k < 4 ==> ONES[k] == 1
  {
  }

  lemma RowOfSteps(ms: seq<Pair>, k: nat)
    requires k < 4 == |RowsOf(ms)|
    ensures Steps(RowsOf(ms)[k]) + multiset(if k + 1 <= |ms| then ms[k + 1..] else [])
         == multiset(if k <= |ms| then ms[k..] else [])
  {
    if k < |ms| {
      StepsOfPair(RowOf(ms, k));
      assert ms[k..] == [ms[k]] + ms[k + 1..];
    }
  }

  lemma PairIsPrintable(b: Board, m: Pair)
    requires PairPlayable(b, m)
    ensures Printable(b, [m.0, m.1])
  {
  }

  lemma RowsLoaded(b: Board, ms: seq<Pair>, cells: seq<int>, src: seq<int>, dst: seq<int>)
    requires |ms| <= 4 && |cells| == 16 && |src| == |dst| == 4
    requires forall k :: 0 <= k < |ms| ==> PairPlayable(b, ms[k])
    requires forall k :: 0 <= k < |ms| ==>
               src[k] == 4 * k && dst[k] == 4 * k + 1 && cells[4 * k] == ms[k].0 && cells[4 * k + 1] == ms[k].1
    requires forall k :: |ms| <= k < 4 ==> src[k] == -1
    ensures RowsAre(b, cells, src, dst, RowsOf(ms))
  {
    var rows := RowsOf(ms);
    forall k | 0 <= k < 4 ensures RowAt(b, cells, src, dst, rows, k) {
      if k < |ms| {
        PairIsPrintable(b, ms[k]);
        hide Printable, PairPlayable;
        assert rows[k] == [ms[k].0, ms[k].1];
      }
    }
    hide *;
    AllRows(b, cells, src, dst, RowsOf(ms));
  }

  /** qsort on the rows: the sub-moves in canonical order, unused rows last. The two
      spare cells of a row are uninitialised and stay arbitrary. */
  method LoadRows(anMove: seq<int>, aanMove: array<int>) returns (pnSource: seq<int>, pnDest: seq<int>, ghost ms: seq<Pair>)
    requires |anMove| == 8 && aanMove.Length == 16
    modifies aanMove
    ensures ms == InCanonicalOrder(Shown(anMove)) && |ms| <= 4 && |pnSource| == |pnDest| == 4
    ensures forall k :: 0 <= k < |ms| ==> pnSource[k] == 4 * k && pnDest[k] == 4 * k + 1
    ensures forall k :: |ms| <= k < 4 ==> pnSource[k] == -1
    ensures forall k :: 0 <= k < |ms| ==> aanMove[..][4 * k] == ms[k].0 && aanMove[..][4 * k + 1] == ms[k].1
  {
    pnSource, pnDest := [-1, -1, -1, -1], [0, 0, 0, 0];
    var rows: seq<Pair> := [];
    PairsInBounds(anMove, 0);
    var i := 0;
    while i < 4 && anMove[2 * i] >= 0
      invariant 0 <= i <= |PairsIn(anMove, 0)| && |rows| == i && |pnSource| == |pnDest| == 4
      invariant forall k :: 0 <= k < i ==> rows[k] == (anMove[2 * k] + 1, anMove[2 * k + 1] + 1)
      invariant forall k :: 0 <= k < i ==> pnSource[k] == 4 * k && pnDest[k] == 4 * k + 1
      invariant forall k :: i <= k < 4 ==> pnSource[k] == -1
    {
      rows := rows + [(anMove[2 * i] + 1, anMove[2 * i + 1] + 1)];
      pnSource, pnDest := pnSource[i := 4 * i], pnDest[i := 4 * i + 1];
      i := i + 1;
    }
    assert rows == Shown(anMove);
    var sorted := InCanonicalOrder(rows);
    ms := sorted;
    var k := 0;
    while k < 4
      invariant 0 <= k <= 4
      invariant forall t :: 0 <= t < k && t < |ms| ==> aanMove[4 * t] == ms[t].0 && aanMove[4 * t + 1] == ms[t].1
    {
      aanMove[4 * k], aanMove[4 * k + 1] := if k < |sorted| then sorted[k].0 else -1, if k < |sorted| then sorted[k].1 else -1;
      k := k + 1;
    }
  }

  // --------------------------------------------------------- combining rows

  /** The rows are chains with the same effect as the sub-moves `ms`. */
  ghost predicate Combined(b: Board, ms: multiset<Pair>, ch: seq<Chain>) {
    |ch| == 4 && SameEffect(b, ms, RowSteps(ch, ONES, 0)) && Shortened(ms, RowSteps(ch, ONES, 0))
  }

  /** The same sub-moves, or fewer; at most four. */
  ghost predicate Shortened(ms: multiset<Pair>, ns: multiset<Pair>) {
    |ns| <= 4 && (ns == ms || |ns| < |ms|)
  }

  lemma JoinKeepsEffect(b: Board, ms: multiset<Pair>, ch: seq<Chain>, i: nat, j: nat)
    requires |ch| == 4 == |ONES| && Combined(b, ms, ch) && i < j < 4
    requires Printable(b, ch[i]) && Printable(b, ch[j]) && |ch[i]| >= 2 == |ch[j]|
    requires ch[j][0] == ch[i][|ch[i]| - 1] && 1 <= ch[j][0] <= 24
    ensures Combined(b, ms, ch[i := Joined(b, ch[i], ch[j][1])][j := []])
  {
    hide *;
    var c := Joined(b, ch[i], ch[j][1]);
    var emptied := ch[j := []];
    ClearRow(ch, j);
    SetRow(emptied, i, c);
    JoiningKeepsEffect(b, OtherSteps(emptied, ONES, i, 0), ch[i], ch[j]);
    assert emptied[i := c] == ch[i := c][j := []];
    JoinedFits(OtherSteps(emptied, ONES, i, 0), Steps(ch[i]), Steps(ch[j]), Steps(c));
    Combining(b, ms, ch, emptied[i := c]);
  }

  lemma JoinedFits<T>(rest: multiset<T>, x: multiset<T>, y: multiset<T>, z: multiset<T>)
    requires rest + z == rest + x + y || |z| < |x| + |y|
    ensures rest + z == rest + x + y || |rest + z| < |rest + x + y|
  {
  }

  lemma SetRow(ch: seq<Chain>, i: nat, c: Chain)
    requires |ch| == 4 == |ONES| && i < 4
    ensures RowSteps(ch, ONES, 0) == OtherSteps(ch, ONES, i, 0) + Steps(ch[i])
    ensures RowSteps(ch[i := c], ONES, 0) == OtherSteps(ch, ONES, i, 0) + Steps(c)
  {
    ReplaceRow(ch, ONES, i, c, 1);
    TimesOne(Steps(ch[i]));
    TimesOne(Steps(c));
    assert ONES[i := 1] == ONES;
  }

  lemma ClearRow(ch: seq<Chain>, j: nat)
    requires |ch| == 4 == |ONES| && j < 4
    ensures RowSteps(ch, ONES, 0) == RowSteps(ch[j := []], ONES, 0) + Steps(ch[j])
  {
    SetRow(ch, j, []);
    Commute(multiset{}, OtherSteps(ch, ONES, j, 0));
  }

  lemma Combining(b: Board, ms: multiset<Pair>, ch: seq<Chain>, ch': seq<Chain>)
    requires Combined(b, ms, ch) && |ch'| == 4
    requires SameEffect(b, RowSteps(ch, ONES, 0), RowSteps(ch', ONES, 0))
    requires RowSteps(ch', ONES, 0) == RowSteps(ch, ONES, 0) || |RowSteps(ch', ONES, 0)| < |RowSteps(ch, ONES, 0)|
    ensures Combined(b, ms, ch')
  {
    EffectsCompose(b, ms, RowSteps(ch, ONES, 0), RowSteps(ch', ONES, 0));
  }

  // -- the order of the rows, and when there is nothing left to join

  /** The chains start from high points to low. */
  ghost predicate SourcesFall(ch: seq<Chain>) {
    forall a, c :: 0 <= a < c < |ch| && ch[a] != [] && ch[c] != [] ==> ch[a][0] >= ch[c][0]
  }

  ghost predicate Meets(c: Chain, d: Chain) {
    c != [] && d != [] && c[|c| - 1] == d[0]
  }

  /** No chain ends where one begins. */
  ghost predicate NothingToJoin(ch: seq<Chain>) {
    forall a, c :: 0 <= a < |ch| && 0 <= c < |ch| ==> !Meets(ch[a], ch[c])
  }

  /** Rows before i have nothing to join, nor has row i among the rows before j. */
  ghost predicate JoinedUpTo(ch: seq<Chain>, i: nat, j: nat) {
    && SourcesFall(ch)
    && forall a, c :: 0 <= a < |ch| && 0 <= c < |ch| && (a < i || (a == i && c < j)) ==> !Meets(ch[a], ch[c])
  }

  /** Row i runs on to the end of row j, which lies below all rows seen so far. */
  lemma JoiningGoesOn(b: Board, ch: seq<Chain>, i: nat, j: nat)
    requires |ch| == 4 && i < j < 4 && JoinedUpTo(ch, i, j) && Printable(b, ch[i]) && Printable(b, ch[j]) && |ch[j]| == 2
    requires 1 <= ch[i][|ch[i]| - 1] <= 24 && Meets(ch[i], ch[j])
    ensures JoinedUpTo(ch[i := Joined(b, ch[i], ch[j][1])][j := []], i, j + 1)
  {
    Downhill(b, ch[i], 0, |ch[i]| - 1);
    Downhill(b, ch[j], 0, 1);
    var c := Joined(b, ch[i], ch[j][1]);
    assert c != [] && c[0] == ch[i][0] && c[|c| - 1] == ch[j][1];
  }

  lemma JoiningSkips(ch: seq<Chain>, i: nat, j: nat)
    requires JoinedUpTo(ch, i, j) && i < |ch| && j < |ch| && !Meets(ch[i], ch[j])
    ensures JoinedUpTo(ch, i, j + 1)
  {
  }

  lemma RowJoined(b: Board, ch: seq<Chain>, i: nat)
    requires |ch| == 4 && i < 4 && JoinedUpTo(ch, i, 4) && (i < 3 && ch[i + 1] != [] ==> Printable(b, ch[i + 1]))
    ensures JoinedUpTo(ch, i + 1, i + 1)
  {
    if i < 3 && ch[i + 1] != [] {
      Downhill(b, ch[i + 1], 0, |ch[i + 1]| - 1);
    }
  }

  lemma AllJoined(ch: seq<Chain>)
    requires |ch| == 4 && JoinedUpTo(ch, 4, 4)
    ensures SourcesFall(ch) && NothingToJoin(ch)
  {
  }

  lemma RowsStartInOrder(ms: seq<Pair>)
    requires InOrder(ms)
    ensures JoinedUpTo(RowsOf(ms), 0, 0)
  {
  }

  /** What holds while row i is being joined with rows from j on. */
  ghost predicate CombiningAt(b: Board, ms: multiset<Pair>, cells: seq<int>, src: seq<int>, dst: seq<int>, ch: seq<Chain>, i: nat, j: nat) {
    && RowsAre(b, cells, src, dst, ch)
    && Combined(b, ms, ch) && JoinedUpTo(ch, i, j)
    && (forall k :: i < k < 4 ==> |ch[k]| <= 2)
    && (i < 4 && ch[i] != [] ==> |ch[i]| <= 2 + Gone(ch, i, j))
  }

  lemma NextJoin(b: Board, ms: multiset<Pair>, cells: seq<int>, src: seq<int>, dst: seq<int>, ch: seq<Chain>, i: nat, j: nat)
    requires CombiningAt(b, ms, cells, src, dst, ch, i, j) && i < j < 4 && ch[i] != [] && ch[j] != []
    requires ch[j][0] == ch[i][|ch[i]| - 1]
    ensures 1 <= ch[j][0] <= 24 && |ch[j]| == 2
    ensures var c := Joined(b, ch[i], ch[j][1]);
            var pos := 4 * i + |c| - 1;
            && pos < 16
            && CombiningAt(b, ms, cells[pos := ch[j][1]], src[j := -1], dst[i := pos], ch[i := c][j := []], i, j + 1)
  {
    hide *;
    CombiningSized(b, ms, cells, src, dst, ch, i, j);
    CombiningAtIs(b, ms, cells, src, dst, ch, i, j);
    CombinedMeans(b, ms, ch);
    RowIs(b, cells, src, dst, ch, i);
    RowIs(b, cells, src, dst, ch, j);
    JoinRows(b, cells, src, dst, ch, i, j);
    JoinKeepsEffect(b, ms, ch, i, j);
    MeetsIs(ch[i], ch[j]);
    JoiningGoesOn(b, ch, i, j);
    var c := Joined(b, ch[i], ch[j][1]);
    JoinedEnd(b, ch[i], ch[j][1]);
    var pos := 4 * i + |c| - 1;
    CombiningAtIs(b, ms, cells[pos := ch[j][1]], src[j := -1], dst[i := pos], ch[i := c][j := []], i, j + 1);
  }

  lemma CombiningSized(b: Board, ms: multiset<Pair>, cells: seq<int>, src: seq<int>, dst: seq<int>, ch: seq<Chain>, i: nat, j: nat)
    requires CombiningAt(b, ms, cells, src, dst, ch, i, j)
    ensures |cells| == 16 && |src| == |dst| == |ch| == 4
  {
    hide Combined, RowAt, JoinedUpTo;
  }

  lemma CombiningAtIs(b: Board, ms: multiset<Pair>, cells: seq<int>, src: seq<int>, dst: seq<int>, ch: seq<Chain>, i: nat, j: nat)
    requires |cells| == 16 && |src| == |dst| == |ch| == 4
    ensures CombiningAt(b, ms, cells, src, dst, ch, i, j) <==>
              && RowsAre(b, cells, src, dst, ch) && Combined(b, ms, ch) && JoinedUpTo(ch, i, j)
              && (forall k :: i < k < 4 ==> |ch[k]| <= 2)
              && (i < 4 && ch[i] != [] ==> |ch[i]| <= 2 + Gone(ch, i, j))
  {
    hide RowsAre, Combined, Gone, JoinedUpTo;
  }

  lemma MeetsIs(c: Chain, d: Chain)
    ensures Meets(c, d) <==> c != [] && d != [] && c[|c| - 1] == d[0]
  {
  }

  lemma NoJoin(b: Board, ms: multiset<Pair>, cells: seq<int>, src: seq<int>, dst: seq<int>, ch: seq<Chain>, i: nat, j: nat)
    requires CombiningAt(b, ms, cells, src, dst, ch, i, j) && i <= j < 4 && |ch| == 4 && !Meets(ch[i], ch[j])
    ensures CombiningAt(b, ms, cells, src, dst, ch, i, j + 1)
  {
    JoiningSkips(ch, i, j);
    hide RowsAre, Combined, JoinedUpTo;
  }

  lemma NextRow(b: Board, ms: multiset<Pair>, cells: seq<int>, src: seq<int>, dst: seq<int>, ch: seq<Chain>, i: nat)
    requires CombiningAt(b, ms, cells, src, dst, ch, i, 4) && i < 4
    ensures CombiningAt(b, ms, cells, src, dst, ch, i + 1, i + 1)
  {
    CombiningSized(b, ms, cells, src, dst, ch, i, 4);
    if i < 3 {
      RowIs(b, cells, src, dst, ch, i + 1);
    }
    RowJoined(b, ch, i);
    hide RowsAre, Combined, JoinedUpTo, Printable;
  }

  /** Combine moves of a single chequer, rows joined in place. */
  method CombineRows(b: Board, aanMove: array<int>, pnSource: seq<int>, pnDest: seq<int>, ghost ms: multiset<Pair>, ghost rows: seq<Chain>)
    returns (src: seq<int>, dst: seq<int>, ghost ch: seq<Chain>)
    requires aanMove.Length == 16 && CombiningAt(b, ms, aanMove[..], pnSource, pnDest, rows, 0, 0)
    modifies aanMove
    ensures RowsAre(b, aanMove[..], src, dst, ch) && Combined(b, ms, ch)
    ensures SourcesFall(ch) && NothingToJoin(ch)
  {
    src, dst, ch := pnSource, pnDest, rows;
    var i := 0;
    while i < 4
      invariant 0 <= i <= 4
      invariant CombiningAt(b, ms, aanMove[..], src, dst, ch, i, i)
    {
      hide *;
      var j := i;
      while j < 4
        invariant i <= j <= 4
        invariant CombiningAt(b, ms, aanMove[..], src, dst, ch, i, j)
      {
        src, dst, ch := JoinStep(b, aanMove, src, dst, i, j, ms, ch);
        j := j + 1;
      }
      NextRow(b, ms, aanMove[..], src, dst, ch, i);
      i := i + 1;
    }
    hide *;
    CombiningSized(b, ms, aanMove[..], src, dst, ch, 4, 4);
    CombiningAtIs(b, ms, aanMove[..], src, dst, ch, 4, 4);
    AllJoined(ch);
  }

  /** The body of the two loops. */
  method JoinStep(b: Board, aanMove: array<int>, pnSource: seq<int>, pnDest: seq<int>, i: nat, j: nat,
                  ghost ms: multiset<Pair>, ghost rows: seq<Chain>)
    returns (src: seq<int>, dst: seq<int>, ghost ch: seq<Chain>)
    requires aanMove.Length == 16 && i <= j < 4 && CombiningAt(b, ms, aanMove[..], pnSource, pnDest, rows, i, j)
    modifies aanMove
    ensures CombiningAt(b, ms, aanMove[..], src, dst, ch, i, j + 1)
  {
    hide *;
    src, dst, ch := pnSource, pnDest, rows;
    ghost var cells := aanMove[..];
    RowFacts(b, ms, cells, src, dst, ch, i, j, i);
    RowFacts(b, ms, cells, src, dst, ch, i, j, j);
    if src[i] != -1 && src[j] != -1 && aanMove[dst[i]] == aanMove[src[j]] {
      NextJoin(b, ms, cells, src, dst, ch, i, j);
      JoinedEnd(b, ch[i], ch[j][1]);
      ghost var x := ch[j][1];
      if b.them[24 - aanMove[dst[i]]] != 0 {
        dst := dst[i := dst[i] + 1];
      }
      aanMove[dst[i]] := aanMove[dst[j]];
      src := src[j := -1];
      assert aanMove[..] == cells[dst[i] := x];
      assert dst == pnDest[i := 4 * i + |Joined(b, ch[i], x)| - 1];
      ch := ch[i := Joined(b, ch[i], x)][j := []];
    } else {
      MeetsIs(ch[i], ch[j]);
      NoJoin(b, ms, cells, src, dst, ch, i, j);
    }
  }

  lemma JoinedEnd(b: Board, c: Chain, x: int)
    requires |c| >= 2 && 1 <= c[|c| - 1] <= 24
    ensures |Joined(b, c, x)| == if b.them[24 - c[|c| - 1]] > 0 then |c| + 1 else |c|
  {
  }

  /** What the code can read off row k. */
  lemma RowFacts(b: Board, ms: multiset<Pair>, cells: seq<int>, src: seq<int>, dst: seq<int>, ch: seq<Chain>, i: nat, j: nat, k: nat)
    requires CombiningAt(b, ms, cells, src, dst, ch, i, j) && i <= j && i <= k < 4
    ensures |cells| == 16 && |src| == |dst| == |ch| == 4
    ensures src[k] == -1 <==> ch[k] == []
    ensures ch[k] != [] ==>
              && |ch[k]| >= 2 && src[k] == 4 * k && dst[k] == 4 * k + |ch[k]| - 1 && 0 <= src[k] < dst[k] < 16
              && cells[src[k]] == ch[k][0] && cells[dst[k]] == ch[k][|ch[k]| - 1]
              && ch[k][|ch[k]| - 1] < ch[k][0]
              && (k > i ==> dst[k] == src[k] + 1)
  {
    RowIs(b, cells, src, dst, ch, k);
    if ch[k] != [] {
      Downhill(b, ch[k], 0, |ch[k]| - 1);
    }
  }

  // ------------------------------------------------- compacting and folding

  /** The pointer pairs denote the chains `ch`, NULL for []. */
  ghost predicate SlotAt(cells: seq<int>, s: int, d: int, c: Chain) {
    if c == [] then s == -1
    else 0 <= s && d == s + |c| - 1 < |cells| && forall t :: 0 <= t < |c| ==> cells[s + t] == c[t]
  }

  ghost predicate SlotsAre(cells: seq<int>, src: seq<int>, dst: seq<int>, ch: seq<Chain>) {
    && |cells| == 16 && |src| == |dst| == |ch| == 4
    && forall k :: 0 <= k < 4 ==> SlotAt(cells, src[k], dst[k], ch[k])
  }

  ghost predicate AllPrintable(b: Board, ch: seq<Chain>) {
    forall k :: 0 <= k < |ch| && ch[k] != [] ==> Printable(b, ch[k])
  }

  lemma RowsAreSlots(b: Board, cells: seq<int>, src: seq<int>, dst: seq<int>, ch: seq<Chain>)
    requires RowsAre(b, cells, src, dst, ch)
    ensures SlotsAre(cells, src, dst, ch) && AllPrintable(b, ch)
  {
    forall k | 0 <= k < 4 ensures SlotAt(cells, src[k], dst[k], ch[k]) && (ch[k] != [] ==> Printable(b, ch[k])) {
      RowIs(b, cells, src, dst, ch, k);
    }
  }

  lemma {:induction false} RowStepsSnoc(ch: seq<Chain>, cnt: seq<nat>, c: Chain, k: nat, i: nat)
    requires |ch| == |cnt| && i <= |ch|
    ensures RowSteps(ch + [c], cnt + [k], i) == RowSteps(ch, cnt, i) + Times(Steps(c), k)
    decreases |ch| - i
  {
    if i == |ch| {
      assert RowSteps(ch + [c], cnt + [k], i + 1) == multiset{};
      assert RowSteps(ch + [c], cnt + [k], i) == Times(Steps(c), k) + multiset{};
      Commute(multiset{}, Times(Steps(c), k));
    } else {
      hide *;
      RowStepsSnoc(ch, cnt, c, k, i + 1);
      Unfold(ch, cnt, 0, i);
      Unfold(ch + [c], cnt + [k], 0, i);
      assert (ch + [c])[i] == ch[i] && (cnt + [k])[i] == cnt[i];
      Reassociate(Times(Steps(ch[i]), cnt[i]), RowSteps(ch, cnt, i + 1), Times(Steps(c), k));
    }
  }

  lemma {:induction false} TimesNothing(k: nat)
    ensures Times(multiset{}, k) == multiset{}
  {
    if k > 0 {
      TimesNothing(k - 1);
    }
  }

  lemma SnocEmpty(ch: seq<Chain>, cnt: seq<nat>, k: nat)
    requires |ch| == |cnt|
    ensures RowSteps(ch + [[]], cnt + [k], 0) == RowSteps(ch, cnt, 0)
  {
    RowStepsSnoc(ch, cnt, [], k, 0);
    TimesNothing(k);
    assert Steps([]) == multiset{};
  }

  /** The rows in use moved to the front: `packed` lists them. */
  ghost predicate PackedFrom(ch: seq<Chain>, cnt: seq<nat>, packed: seq<Chain>, pcnt: seq<nat>) {
    && |ch| == |cnt| && |packed| == |pcnt| <= |ch|
    && RowSteps(packed, pcnt, 0) == RowSteps(ch, cnt, 0)
    && (forall k :: 0 <= k < |packed| ==> packed[k] != [] && packed[k] in ch && (exists m :: 0 <= m < |ch| && ch[m] == packed[k] && cnt[m] == pcnt[k]))
    && (DistinctRows(ch) ==> DistinctRows(packed)) && (SourcesFall(ch) ==> SourcesFall(packed))
  }

  ghost predicate DistinctRows(ch: seq<Chain>) {
    forall i, j :: 0 <= i < j < |ch| && ch[i] != [] && ch[j] != [] ==> ch[i] != ch[j]
  }

  lemma PackOne(ch: seq<Chain>, cnt: seq<nat>, packed: seq<Chain>, pcnt: seq<nat>, c: Chain, k: nat)
    requires PackedFrom(ch, cnt, packed, pcnt)
    ensures c == [] ==> PackedFrom(ch + [c], cnt + [k], packed, pcnt)
    ensures c != [] ==> PackedFrom(ch + [c], cnt + [k], packed + [c], pcnt + [k])
  {
    PackSteps(ch, cnt, packed, pcnt, c, k);
    hide RowSteps;
    var ch', cnt' := ch + [c], cnt + [k];
    var p', q' := if c == [] then packed else packed + [c], if c == [] then pcnt else pcnt + [k];
    forall r | 0 <= r < |p'|
      ensures p'[r] != [] && p'[r] in ch' && exists m :: 0 <= m < |ch'| && ch'[m] == p'[r] && cnt'[m] == q'[r]
    {
      if r < |packed| {
        var m :| 0 <= m < |ch| && ch[m] == packed[r] && cnt[m] == pcnt[r];
        assert ch'[m] == p'[r] && cnt'[m] == q'[r];
      } else {
        assert ch'[|ch|] == p'[r] && cnt'[|ch|] == q'[r];
      }
    }
    if DistinctRows(ch') {
      PackDistinct(ch, packed, c);
    }
    if SourcesFall(ch') {
      PackFalling(ch, packed, c);
    }
  }

  lemma PackSteps(ch: seq<Chain>, cnt: seq<nat>, packed: seq<Chain>, pcnt: seq<nat>, c: Chain, k: nat)
    requires |ch| == |cnt| && |packed| == |pcnt| && RowSteps(packed, pcnt, 0) == RowSteps(ch, cnt, 0)
    ensures RowSteps(packed + [c], pcnt + [k], 0) == RowSteps(ch + [c], cnt + [k], 0)
    ensures c == [] ==> RowSteps(packed, pcnt, 0) == RowSteps(ch + [c], cnt + [k], 0)
  {
    hide *;
    RowStepsSnoc(packed, pcnt, c, k, 0);
    RowStepsSnoc(ch, cnt, c, k, 0);
    if c == [] {
      SnocEmpty(ch, cnt, k);
    }
  }

  lemma PackDistinct(ch: seq<Chain>, packed: seq<Chain>, c: Chain)
    requires DistinctRows(ch + [c]) && forall k :: 0 <= k < |packed| ==> packed[k] != [] && packed[k] in ch
    requires DistinctRows(ch) ==> DistinctRows(packed)
    ensures DistinctRows(ch) && (c == [] ==> DistinctRows(packed)) && (c != [] ==> DistinctRows(packed + [c]))
  {
    assert forall i :: 0 <= i < |ch| ==> (ch + [c])[i] == ch[i];
    assert DistinctRows(ch);
    if c != [] {
      forall i | 0 <= i < |packed| ensures packed[i] != c {
        var m :| 0 <= m < |ch| && ch[m] == packed[i];
        assert (ch + [c])[m] == ch[m] && (ch + [c])[|ch|] == c;
      }
    }
  }

  lemma PackFalling(ch: seq<Chain>, packed: seq<Chain>, c: Chain)
    requires SourcesFall(ch + [c]) && forall k :: 0 <= k < |packed| ==> packed[k] != [] && packed[k] in ch
    requires SourcesFall(ch) ==> SourcesFall(packed)
    ensures SourcesFall(ch) && (c == [] ==> SourcesFall(packed)) && (c != [] ==> SourcesFall(packed + [c]))
  {
    assert forall i :: 0 <= i < |ch| ==> (ch + [c])[i] == ch[i];
    assert SourcesFall(ch);
    if c != [] {
      forall i | 0 <= i < |packed| ensures packed[i][0] >= c[0] {
        var m :| 0 <= m < |ch| && ch[m] == packed[i];
        assert (ch + [c])[m] == ch[m] && (ch + [c])[|ch|] == c;
      }
    }
  }

  /** Compact array: the pointers of rows in use moved to the front, in order. */
  method Compact(pnSource: seq<int>, pnDest: seq<int>, anCount: seq<nat>, ghost cells: seq<int>, ghost ch: seq<Chain>)
    returns (src: seq<int>, dst: seq<int>, cnt: seq<nat>, i: nat, ghost packed: seq<Chain>)
    requires SlotsAre(cells, pnSource, pnDest, ch) && |anCount| == 4
    ensures |src| == |dst| == |cnt| == 4 && i == |packed| <= 4
    ensures PackedFrom(ch, anCount, packed, cnt[..i])
    ensures forall k :: 0 <= k < i ==> SlotAt(cells, src[k], dst[k], packed[k])
    ensures forall k :: i <= k < 4 ==> src[k] == -1
  {
    src, dst, cnt, packed := pnSource, pnDest, anCount, [];
    i := 0;
    var j := 0;
    StartPacking(cells, pnSource, pnDest, anCount, ch);
    hide *;
    while j < 4
      invariant j <= 4 && Packing(cells, pnSource, pnDest, anCount, ch, src, dst, cnt, packed, i, j)
    {
      src, dst, cnt, i, packed := PackRow(src, dst, cnt, i, j, cells, pnSource, pnDest, anCount, ch, packed);
      j := j + 1;
    }
    EndPacking(cells, pnSource, pnDest, anCount, ch, src, dst, cnt, packed, i);
    src := Nullify(src, i);
  }

  /** Moves row j down if it is in use. */
  method PackRow(pnSource: seq<int>, pnDest: seq<int>, anCount: seq<nat>, i: nat, j: nat,
                 ghost cells: seq<int>, ghost src0: seq<int>, ghost dst0: seq<int>, ghost cnt0: seq<nat>,
                 ghost ch: seq<Chain>, ghost rows: seq<Chain>)
    returns (src: seq<int>, dst: seq<int>, cnt: seq<nat>, i': nat, ghost packed: seq<Chain>)
    requires j < 4 && Packing(cells, src0, dst0, cnt0, ch, pnSource, pnDest, anCount, rows, i, j)
    ensures Packing(cells, src0, dst0, cnt0, ch, src, dst, cnt, packed, i', j + 1)
  {
    hide *;
    src, dst, cnt, i', packed := pnSource, pnDest, anCount, i, rows;
    PackingStep(cells, src0, dst0, cnt0, ch, src, dst, cnt, packed, i, j);
    if src[j] != -1 {
      if j > i {
        src, dst, cnt := src[i := src[j]], dst[i := dst[j]], cnt[i := cnt[j]];
      } else {
        assert src[i := src[j]] == src && dst[i := dst[j]] == dst && cnt[i := cnt[j]] == cnt;
      }
      packed := packed + [ch[j]];
      i' := i + 1;
    }
  }

  lemma EndPacking(cells: seq<int>, pnSource: seq<int>, pnDest: seq<int>, anCount: seq<nat>, ch: seq<Chain>,
                   src: seq<int>, dst: seq<int>, cnt: seq<nat>, packed: seq<Chain>, i: nat)
    requires Packing(cells, pnSource, pnDest, anCount, ch, src, dst, cnt, packed, i, 4)
    ensures i == |packed| <= 4 && |src| == |dst| == |cnt| == 4
    ensures PackedFrom(ch, anCount, packed, cnt[..i])
    ensures forall k :: 0 <= k < i ==> SlotAt(cells, src[k], dst[k], packed[k])
  {
    assert ch[..4] == ch && anCount[..4] == anCount;
  }

  method Nullify(pnSource: seq<int>, i: nat) returns (src: seq<int>)
    requires |pnSource| == 4 && i <= 4
    ensures |src| == 4 && (forall k :: 0 <= k < i ==> src[k] == pnSource[k]) && (forall k :: i <= k < 4 ==> src[k] == -1)
  {
    src := pnSource;
    var k := i;
    while k < 4
      invariant i <= k <= 4 && |src| == 4
      invariant (forall t :: 0 <= t < i ==> src[t] == pnSource[t]) && (forall t :: i <= t < k ==> src[t] == -1)
    {
      src := src[k := -1];
      k := k + 1;
    }
  }

  ghost predicate Packing(cells: seq<int>, pnSource: seq<int>, pnDest: seq<int>, anCount: seq<nat>, ch: seq<Chain>,
                          src: seq<int>, dst: seq<int>, cnt: seq<nat>, packed: seq<Chain>, i: nat, j: nat)
  {
    && |pnSource| == |pnDest| == |anCount| == |ch| == |src| == |dst| == |cnt| == 4
    && SlotsAre(cells, pnSource, pnDest, ch)
    && i <= j <= 4 && |packed| == i
    && PackedFrom(ch[..j], anCount[..j], packed, cnt[..i])
    && (forall k :: 0 <= k < i ==> SlotAt(cells, src[k], dst[k], packed[k]))
    && (forall k :: j <= k < 4 ==> src[k] == pnSource[k] && dst[k] == pnDest[k] && cnt[k] == anCount[k])
  }

  lemma StartPacking(cells: seq<int>, src: seq<int>, dst: seq<int>, cnt: seq<nat>, ch: seq<Chain>)
    requires SlotsAre(cells, src, dst, ch) && |cnt| == 4
    ensures Packing(cells, src, dst, cnt, ch, src, dst, cnt, [], 0, 0)
  {
  }

  lemma PackingStep(cells: seq<int>, pnSource: seq<int>, pnDest: seq<int>, anCount: seq<nat>, ch: seq<Chain>,
                    src: seq<int>, dst: seq<int>, cnt: seq<nat>, packed: seq<Chain>, i: nat, j: nat)
    requires Packing(cells, pnSource, pnDest, anCount, ch, src, dst, cnt, packed, i, j) && j < 4
    ensures |src| == |dst| == |cnt| == |ch| == 4 && i <= j
    ensures src[j] == -1 ==> Packing(cells, pnSource, pnDest, anCount, ch, src, dst, cnt, packed, i, j + 1)
    ensures src[j] != -1 ==> Packing(cells, pnSource, pnDest, anCount, ch, src[i := src[j]], dst[i := dst[j]], cnt[i := cnt[j]],
                                     packed + [ch[j]], i + 1, j + 1)
  {
    hide PackedFrom;
    assert ch[..j + 1] == ch[..j] + [ch[j]] && anCount[..j + 1] == anCount[..j] + [anCount[j]];
    PackOne(ch[..j], anCount[..j], packed, cnt[..i], ch[j], anCount[j]);
    assert SlotAt(cells, src[j], dst[j], ch[j]);
    hide SlotAt;
    assert cnt[i := cnt[j]][..i + 1] == cnt[..i] + [anCount[j]];
    SlotNull(cells, src[j], dst[j], ch[j]);
  }

  lemma SlotNull(cells: seq<int>, s: int, d: int, c: Chain)
    requires SlotAt(cells, s, d, c)
    ensures s == -1 <==> c == []
  {
  }

  /** Rows before i differ from every later row; row i from the rows before j. */
  ghost predicate Folding(cells: seq<int>, ms: multiset<Pair>, src: seq<int>, dst: seq<int>, cnt: seq<nat>, ch: seq<Chain>, i: nat, j: nat) {
    && SlotsAre(cells, src, dst, ch) && |cnt| == 4 && i <= 4
    && RowSteps(ch, cnt, 0) == ms
    && (forall k :: 0 <= k < 4 ==> cnt[k] <= 4 && (ch[k] != [] ==> cnt[k] >= 1))
    && (forall k :: i < k < 4 ==> ch[k] != [] ==> cnt[k] == 1)
    && (i < 4 ==> cnt[i] <= j || ch[i] == [])
    && (forall a, c :: 0 <= a < c < 4 && (a < i || (a == i && c < j)) && ch[a] != [] && ch[c] != [] ==> ch[a] != ch[c])
  }

  lemma FoldSteps(ch: seq<Chain>, cnt: seq<nat>, i: nat, j: nat)
    requires |ch| == |cnt| && i < j < |ch| && ch[i] == ch[j] && cnt[j] == 1
    ensures RowSteps(ch[j := []], cnt[i := cnt[i] + 1], 0) == RowSteps(ch, cnt, 0)
  {
    hide *;
    var emptied, o := ch[j := []], OtherSteps(ch[j := []], cnt, i, 0);
    ReplaceRow(ch, cnt, j, [], 1);
    ReplaceRow(emptied, cnt, i, ch[i], cnt[i] + 1);
    assert cnt[j := 1] == cnt && emptied[i := ch[i]] == emptied;
    StepsOfNothing();
    TimesNothing(1);
    TimesOne(Steps(ch[j]));
    TimesMore(Steps(ch[i]), cnt[i]);
    Commute(multiset{}, OtherSteps(ch, cnt, j, 0));
    Reassociate(o, Times(Steps(ch[i]), cnt[i]), Steps(ch[i]));
  }

  lemma StepsOfNothing()
    ensures Steps([]) == multiset{}
  {
  }

  lemma TimesMore(ms: multiset<Pair>, k: nat)
    ensures Times(ms, k + 1) == Times(ms, k) + ms
  {
  }

  lemma FoldRowStep(cells: seq<int>, ms: multiset<Pair>, src: seq<int>, dst: seq<int>, cnt: seq<nat>, ch: seq<Chain>, i: nat, j: nat)
    requires Folding(cells, ms, src, dst, cnt, ch, i, j) && i < j < 4 && ch[i] != [] && ch[j] != []
    ensures |src| == |cnt| == 4
    ensures ch[i] == ch[j] ==> Folding(cells, ms, src[j := -1], dst, cnt[i := cnt[i] + 1], ch[j := []], i, j + 1)
    ensures ch[i] != ch[j] ==> Folding(cells, ms, src, dst, cnt, ch, i, j + 1)
  {
    if ch[i] == ch[j] {
      FoldSteps(ch, cnt, i, j);
      SlotGone(cells, src, dst, ch, j);
      hide RowSteps, SlotsAre;
      var ch', cnt' := ch[j := []], cnt[i := cnt[i] + 1];
      forall k | 0 <= k < 4 ensures cnt'[k] <= 4 && (ch'[k] != [] ==> cnt'[k] >= 1) {
        assert cnt[k] <= 4;
      }
    } else {
      hide RowSteps, SlotsAre;
    }
  }

  lemma SlotGone(cells: seq<int>, src: seq<int>, dst: seq<int>, ch: seq<Chain>, j: nat)
    requires SlotsAre(cells, src, dst, ch) && j < 4
    ensures SlotsAre(cells, src[j := -1], dst, ch[j := []])
  {
    hide SlotAt;
    NullSlot(cells, dst[j]);
  }

  lemma NullSlot(cells: seq<int>, d: int)
    ensures SlotAt(cells, -1, d, [])
  {
  }

  /** Every row is as it was or gone. */
  ghost predicate SomeGone(rows: seq<Chain>, ch: seq<Chain>) {
    |rows| == |ch| && forall k :: 0 <= k < |ch| ==> ch[k] == [] || ch[k] == rows[k]
  }

  lemma OneGone(rows: seq<Chain>, j: nat)
    requires j < |rows|
    ensures SomeGone(rows, rows) && SomeGone(rows, rows[j := []])
  {
  }

  lemma FoldSkip(cells: seq<int>, ms: multiset<Pair>, src: seq<int>, dst: seq<int>, cnt: seq<nat>, ch: seq<Chain>, i: nat, j: nat)
    requires Folding(cells, ms, src, dst, cnt, ch, i, j) && i < j < 4 && (ch[i] == [] || ch[j] == [])
    ensures Folding(cells, ms, src, dst, cnt, ch, i, j + 1)
  {
    hide RowSteps, SlotAt;
  }

  lemma FoldNextRow(cells: seq<int>, ms: multiset<Pair>, src: seq<int>, dst: seq<int>, cnt: seq<nat>, ch: seq<Chain>, i: nat)
    requires Folding(cells, ms, src, dst, cnt, ch, i, 4) && i < 3
    ensures Folding(cells, ms, src, dst, cnt, ch, i + 1, i + 2)
  {
    hide RowSteps, SlotAt;
  }

  lemma SlotFacts(cells: seq<int>, src: seq<int>, dst: seq<int>, ch: seq<Chain>, k: nat)
    requires SlotsAre(cells, src, dst, ch) && k < 4
    ensures |cells| == 16 && |src| == |dst| == |ch| == 4
    ensures SlotAt(cells, src[k], dst[k], ch[k]) && (src[k] == -1 <==> ch[k] == [])
  {
  }

  lemma FoldingSlots(cells: seq<int>, ms: multiset<Pair>, src: seq<int>, dst: seq<int>, cnt: seq<nat>, ch: seq<Chain>, i: nat, j: nat)
    requires Folding(cells, ms, src, dst, cnt, ch, i, j)
    ensures SlotsAre(cells, src, dst, ch) && |cnt| == 4
  {
  }

  method SameChain(aanMove: array<int>, s: int, d: int, s': int, d': int, ghost c: Chain, ghost c': Chain) returns (nDuplicate: bool)
    requires SlotAt(aanMove[..], s, d, c) && SlotAt(aanMove[..], s', d', c') && c != [] && c' != []
    ensures nDuplicate <==> c == c'
  {
    var nMoves := d - s;
    if d' - s' != nMoves {
      return false;
    }
    nDuplicate := true;
    var k := 0;
    while k <= nMoves && nDuplicate
      invariant 0 <= k <= nMoves + 1
      invariant nDuplicate ==> forall t :: 0 <= t < k ==> c[t] == c'[t]
      invariant !nDuplicate ==> c != c'
    {
      assert aanMove[..][s + k] == c[k] && aanMove[..][s' + k] == c'[k];
      if aanMove[s + k] != aanMove[s' + k] {
        nDuplicate := false;
      }
      k := k + 1;
    }
  }

  /** Fold row j into row i if they print the same. */
  method FoldRow(aanMove: array<int>, pnSource: seq<int>, pnDest: seq<int>, anCount: seq<nat>, i: nat, j: nat,
                 ghost ms: multiset<Pair>, ghost rows: seq<Chain>)
    returns (src: seq<int>, cnt: seq<nat>, ghost ch: seq<Chain>)
    requires i < j < 4 && Folding(aanMove[..], ms, pnSource, pnDest, anCount, rows, i, j)
    ensures Folding(aanMove[..], ms, src, pnDest, cnt, ch, i, j + 1)
    ensures SomeGone(rows, ch)
  {
    hide *;
    src, cnt, ch := pnSource, anCount, rows;
    FoldingSlots(aanMove[..], ms, src, pnDest, cnt, ch, i, j);
    SlotFacts(aanMove[..], src, pnDest, ch, i);
    SlotFacts(aanMove[..], src, pnDest, ch, j);
    OneGone(rows, j);
    if src[i] != -1 && src[j] != -1 {
      FoldRowStep(aanMove[..], ms, src, pnDest, cnt, ch, i, j);
      var nDuplicate := SameChain(aanMove, src[i], pnDest[i], src[j], pnDest[j], ch[i], ch[j]);
      if nDuplicate {
        cnt := cnt[i := cnt[i] + 1];
        src := src[j := -1];
        ch := ch[j := []];
      }
    } else {
      FoldSkip(aanMove[..], ms, src, pnDest, cnt, ch, i, j);
    }
  }

  /** Count duplicate rows, keeping the first of each kind. */
  method FoldDuplicates(b: Board, aanMove: array<int>, pnSource: seq<int>, pnDest: seq<int>, anCount: seq<nat>,
                        ghost ms: multiset<Pair>, ghost rows: seq<Chain>)
    returns (src: seq<int>, cnt: seq<nat>, ghost ch: seq<Chain>)
    requires Folding(aanMove[..], ms, pnSource, pnDest, anCount, rows, 0, 1) && AllPrintable(b, rows)
    ensures Folding(aanMove[..], ms, src, pnDest, cnt, ch, 3, 4) && AllPrintable(b, ch) && SomeGone(rows, ch)
  {
    src, cnt, ch := pnSource, anCount, rows;
    var i := 0;
    while i < 3
      invariant 0 <= i <= 3 && AllPrintable(b, ch) && SomeGone(rows, ch)
      invariant Folding(aanMove[..], ms, src, pnDest, cnt, ch, i, i + 1)
    {
      hide Folding, Printable;
      var j := i + 1;
      while j < 4
        invariant i + 1 <= j <= 4 && AllPrintable(b, ch) && SomeGone(rows, ch)
        invariant Folding(aanMove[..], ms, src, pnDest, cnt, ch, i, j)
      {
        src, cnt, ch := FoldRow(aanMove, src, pnDest, cnt, i, j, ms, ch);
        j := j + 1;
      }
      FoldNextRow(aanMove[..], ms, src, pnDest, cnt, ch, i);
      i := i + 1;
    }
  }

  // --------------------------------------------------------------- printing

  /** A point, counted from 1, where the opponent has a chequer. */
  predicate Blot(b: Board, p: int) {
    1 <= p <= 24 && b.them[24 - p] > 0
  }

  /** The blots hit by some printed chain. */
  ghost predicate HitIn(b: Board, gs: seq<Group>, p: int) {
    Blot(b, p) && exists i, k :: 0 <= i < |gs| && 1 <= k < |gs[i].points| && gs[i].points[k] == p
  }

  /** The hit marks of one chain printed after `before`: every intermediate point,
      and the last point if it is a blot not marked yet. */
  ghost predicate StarsRight(b: Board, before: seq<Group>, g: Group) {
    && |g.stars| == |g.points|
    && forall k :: 0 <= k < |g.points| ==>
         (g.stars[k] <==> k >= 1 && Blot(b, g.points[k]) && (k < |g.points| - 1 || !HitIn(b, before, g.points[k])))
  }

  /** A text of printable chains, each once, with hit marks where they belong. */
  ghost predicate GoodGroups(b: Board, gs: seq<Group>) {
    && (forall i :: 0 <= i < |gs| ==> GroupOk(gs[i]) && gs[i].count <= 4 && Printable(b, gs[i].points) && StarsRight(b, gs[..i], gs[i]))
    && DistinctRows(PointsOf(gs))
  }

  /** The marks made once the points of `c` up to k have been printed. */
  ghost predicate MarkedUpTo(b: Board, before: seq<Group>, c: Chain, k: int, fl: set<int>) {
    forall p :: p in fl <==> HitIn(b, before, p) || (Blot(b, p) && exists t :: 1 <= t <= k && t < |c| && c[t] == p)
  }

  lemma MarkOne(b: Board, before: seq<Group>, c: Chain, k: nat, fl: set<int>)
    requires MarkedUpTo(b, before, c, k, fl) && k + 1 < |c|
    ensures Blot(b, c[k + 1]) ==> MarkedUpTo(b, before, c, k + 1, fl + {c[k + 1]})
    ensures !Blot(b, c[k + 1]) || c[k + 1] in fl ==> MarkedUpTo(b, before, c, k + 1, fl)
  {
  }

  lemma MiddleIsBlot(b: Board, c: Chain, k: nat)
    requires Printable(b, c) && 1 <= k < |c| - 1
    ensures Blot(b, c[k])
  {
  }

  /** The source and the intermediate points of the chain in cells [s, d]. */
  method PrintStart(b: Board, aanMove: array<int>, s: int, d: int, marked: set<int>, ghost c: Chain, ghost before: seq<Group>)
    returns (text: string, fl: set<int>, ghost stars: seq<bool>)
    requires SlotAt(aanMove[..], s, d, c) && Printable(b, c) && |c| >= 2 && PointsInRange(c)
    requires MarkedUpTo(b, before, c, 0, marked)
    ensures |stars| == |c| - 1 && !stars[0] && (forall k :: 1 <= k < |c| - 1 ==> stars[k])
    ensures forall last :: text == ChainText(c, stars + [last], |c| - 2)
    ensures MarkedUpTo(b, before, c, |c| - 2, fl)
  {
    ReadSlot(aanMove[..], s, d, c);
    hide Printable, MarkedUpTo, HitIn, Blot, PointText, SlotAt;
    fl, stars := marked, [false] + seq(|c| - 2, k => true);
    text := PointText(aanMove[s]);
    var j := 1;
    while s + j < d
      invariant 1 <= j <= |c| - 1
      invariant text == ChainText(c, stars + [true], j - 1)
      invariant MarkedUpTo(b, before, c, j - 1, fl)
    {
      MiddleIsBlot(b, c, j);
      MarkOne(b, before, c, j - 1, fl);
      text := text + "/" + PointText(aanMove[s + j]) + "*";
      fl := fl + {aanMove[s + j]};
      j := j + 1;
    }
    SameTextUpTo(c, stars + [true], stars + [false], |c| - 2);
  }

  /** The chain in cells [s, d] printed after the marks `marked` were made. */
  method PrintChain(b: Board, aanMove: array<int>, s: int, d: int, marked: set<int>, ghost c: Chain, ghost before: seq<Group>)
    returns (text: string, fl: set<int>, ghost stars: seq<bool>)
    requires SlotAt(aanMove[..], s, d, c) && Printable(b, c) && |c| >= 2 && PointsInRange(c)
    requires MarkedUpTo(b, before, c, 0, marked)
    ensures |stars| == |c| && text == ChainText(c, stars, |c| - 1)
    ensures forall k :: 0 <= k < |c| ==>
              (stars[k] <==> k >= 1 && Blot(b, c[k]) && (k < |c| - 1 || !HitIn(b, before, c[k])))
    ensures MarkedUpTo(b, before, c, |c| - 1, fl)
  {
    hide *;
    ReadSlot(aanMove[..], s, d, c);
    text, fl, stars := PrintStart(b, aanMove, s, d, marked, c, before);
    ghost var start, n := text, |c| - 1;
    LastNotBefore(b, c);
    MarkOne(b, before, c, n - 1, fl);
    LastMark(b, before, c, fl);
    text := text + "/" + PointText(aanMove[d]);
    var mark := aanMove[d] != 0 && b.them[24 - aanMove[d]] != 0 && aanMove[d] !in fl;
    if mark {
      text := text + "*";
      fl := fl + {aanMove[d]};
    }
    ghost var mids := stars;
    stars := stars + [mark];
    assert stars[n] == mark && forall k :: 0 <= k < n ==> stars[k] == mids[k];
    LastText(c, stars, start);
    forall k | 1 <= k < n ensures Blot(b, c[k]) {
      MiddleIsBlot(b, c, k);
    }
  }

  lemma LastText(c: Chain, stars: seq<bool>, start: string)
    requires 2 <= |c| == |stars| && PointsInRange(c) && 0 <= c[|c| - 1] <= 25 && start == ChainText(c, stars, |c| - 2)
    ensures ChainText(c, stars, |c| - 1) == start + "/" + PointText(c[|c| - 1]) + (if stars[|c| - 1] then "*" else "")
  {
  }

  lemma LastMark(b: Board, before: seq<Group>, c: Chain, fl: set<int>)
    requires Printable(b, c) && |c| >= 2 && MarkedUpTo(b, before, c, |c| - 2, fl)
    ensures 0 <= c[|c| - 1] <= 24
    ensures (c[|c| - 1] != 0 && b.them[24 - c[|c| - 1]] != 0) <==> Blot(b, c[|c| - 1])
    ensures Blot(b, c[|c| - 1]) ==> (c[|c| - 1] in fl <==> HitIn(b, before, c[|c| - 1]))
  {
    LastNotBefore(b, c);
  }

  ghost predicate PointsInRange(c: Chain) {
    forall k :: 0 <= k < |c| ==> 0 <= c[k] <= 25
  }

  lemma PrintableInRange(b: Board, c: Chain)
    requires Printable(b, c)
    ensures PointsInRange(c)
  {
    forall k | 0 <= k < |c| ensures 0 <= c[k] <= 25 {
      Downhill(b, c, 0, k);
    }
  }

  lemma ReadSlot(cells: seq<int>, s: int, d: int, c: Chain)
    requires SlotAt(cells, s, d, c) && c != []
    ensures 0 <= s && d == s + |c| - 1 < |cells| && forall t :: 0 <= t < |c| ==> cells[s + t] == c[t]
  {
  }

  lemma LastNotBefore(b: Board, c: Chain)
    requires Printable(b, c)
    ensures forall k :: 0 <= k < |c| - 1 ==> c[k] != c[|c| - 1]
    ensures c[|c| - 1] <= 24
  {
    forall k | 0 <= k < |c| - 1 ensures c[k] != c[|c| - 1] {
      Downhill(b, c, k, |c| - 1);
    }
    Downhill(b, c, 0, |c| - 1);
  }

  lemma {:induction false} SameTextUpTo(c: Chain, x: seq<bool>, y: seq<bool>, k: nat)
    requires k < |c| == |x| == |y| && (forall t :: 0 <= t <= k ==> x[t] == y[t]) && PointsInRange(c)
    ensures ChainText(c, x, k) == ChainText(c, y, k)
  {
    if k > 0 {
      SameTextUpTo(c, x, y, k - 1);
    }
  }

  // -------------------------------------------------------------- FormatMove

  ghost predicate GroupAt(b: Board, packed: seq<Chain>, cnt: seq<nat>, gs: seq<Group>, i: nat)
    requires i < |gs| && |gs| <= |packed| && |gs| <= |cnt|
  {
    && gs[i].points == packed[i] && gs[i].count == cnt[i]
    && GroupOk(gs[i]) && gs[i].count <= 4 && Printable(b, gs[i].points) && StarsRight(b, gs[..i], gs[i])
  }

  /** The groups printed from the first k rows. */
  ghost predicate Printed(b: Board, packed: seq<Chain>, cnt: seq<nat>, gs: seq<Group>, text: string, fl: set<int>, k: nat) {
    && k == |gs| <= |packed| <= |cnt|
    && (forall i :: 0 <= i < k ==> GroupAt(b, packed, cnt, gs, i))
    && (forall i :: 0 <= i < k ==> GroupOk(gs[i]))
    && text == MoveText(gs)
    && forall p :: p in fl <==> HitIn(b, gs, p)
  }

  lemma PrintOne(b: Board, packed: seq<Chain>, cnt: seq<nat>, gs: seq<Group>, text: string, fl: set<int>, k: nat,
                 chain: string, g: Group, fl': set<int>)
    requires Printed(b, packed, cnt, gs, text, fl, k) && k < |packed| <= |cnt| && g.points == packed[k] && g.count == cnt[k]
    requires Printable(b, g.points) && GroupOk(g) && g.count <= 4
    requires chain == ChainText(g.points, g.stars, |g.points| - 1)
    requires StarsRight(b, gs, g)
    requires MarkedUpTo(b, gs, g.points, |g.points| - 1, fl')
    ensures Printed(b, packed, cnt, gs + [g], text + (if k > 0 then " " else "") + chain + CountText(g.count), fl', k + 1)
  {
    hide StarsRight, Printable, GroupOk, PointText, MoveText, HitIn, Blot, ChainText, CountText;
    var gs' := gs + [g];
    forall i | 0 <= i < k + 1 ensures GroupAt(b, packed, cnt, gs', i) {
      assert gs'[..i] == gs[..i];
      assert i < k ==> GroupAt(b, packed, cnt, gs, i);
      assert i == k ==> gs[..i] == gs;
    }
    hide GroupAt;
    MoveTextSnoc(gs, g);
    GroupTextIs(g);
    forall p ensures p in fl' <==> HitIn(b, gs', p) {
      HitInSnoc(b, gs, g, p);
    }
  }

  lemma GroupTextIs(g: Group)
    requires GroupOk(g)
    ensures |g.stars| == |g.points| >= 2 && PointsInRange(g.points) && g.count <= 9
    ensures GroupText(g) == ChainText(g.points, g.stars, |g.points| - 1) + CountText(g.count)
  {
  }

  lemma MoveTextSnoc(gs: seq<Group>, g: Group)
    requires (forall i :: 0 <= i < |gs| ==> GroupOk(gs[i])) && GroupOk(g)
    ensures MoveText(gs + [g]) == MoveText(gs) + (if |gs| > 0 then " " else "") + GroupText(g)
  {
    assert (gs + [g])[..|gs|] == gs;
  }

  lemma HitInSnoc(b: Board, gs: seq<Group>, g: Group, p: int)
    ensures HitIn(b, gs + [g], p) <==> HitIn(b, gs, p) || (Blot(b, p) && exists k :: 1 <= k < |g.points| && g.points[k] == p)
  {
    var gs' := gs + [g];
    if HitIn(b, gs, p) {
      var i, k :| 0 <= i < |gs| && 1 <= k < |gs[i].points| && gs[i].points[k] == p;
      assert gs'[i].points[k] == p;
    }
    if k :| 1 <= k < |g.points| && g.points[k] == p {
      assert gs'[|gs|].points[k] == p;
    }
  }

  lemma MarksAtStart(b: Board, gs: seq<Group>, c: Chain, fl: set<int>)
    requires forall p :: p in fl <==> HitIn(b, gs, p)
    ensures MarkedUpTo(b, gs, c, 0, fl)
  {
  }

  /** One turn of the printing loop. */
  method PrintRow(b: Board, aanMove: array<int>, pnSource: seq<int>, pnDest: seq<int>, anCount: seq<nat>, i: nat, text: string, marks: set<int>,
                  ghost packed: seq<Chain>, ghost groups: seq<Group>)
    returns (sz: string, fl: set<int>, ghost gs: seq<Group>)
    requires |pnSource| == |pnDest| == |anCount| == 4 && i < |packed| <= 4
    requires SlotAt(aanMove[..], pnSource[i], pnDest[i], packed[i]) && Printable(b, packed[i]) && 1 <= anCount[i] <= 4
    requires Printed(b, packed, anCount, groups, text, marks, i)
    ensures Printed(b, packed, anCount, gs, sz, fl, i + 1)
  {
    hide *;
    ghost var c, stars := packed[i], [];
    PrintableInRange(b, c);
    PrintableLength(b, c);
    PrintedMarks(b, packed, anCount, groups, text, marks, i);
    MarksAtStart(b, groups, c, marks);
    var chain;
    chain, fl, stars := PrintChain(b, aanMove, pnSource[i], pnDest[i], marks, c, groups);
    ghost var g := Group(c, stars, anCount[i]);
    StarsAreRight(b, groups, c, stars, anCount[i]);
    MakeGroup(c, stars, anCount[i]);
    PrintOne(b, packed, anCount, groups, text, marks, i, chain, g, fl);
    sz := text;
    if i > 0 {
      sz := sz + " ";
    } else {
      assert sz + "" == sz;
    }
    sz := sz + chain + CountText(anCount[i]);
    gs := groups + [g];
  }

  lemma PrintableLength(b: Board, c: Chain)
    requires Printable(b, c)
    ensures |c| >= 2
  {
  }

  lemma PrintedMarks(b: Board, packed: seq<Chain>, cnt: seq<nat>, gs: seq<Group>, text: string, fl: set<int>, k: nat)
    requires Printed(b, packed, cnt, gs, text, fl, k)
    ensures forall p :: p in fl <==> HitIn(b, gs, p)
  {
  }

  lemma MakeGroup(c: Chain, stars: seq<bool>, k: nat)
    requires |stars| == |c| >= 2 && PointsInRange(c) && 1 <= k <= 4
    ensures GroupOk(Group(c, stars, k))
  {
  }

  lemma StartPrinting(b: Board, packed: seq<Chain>, cnt: seq<nat>)
    requires |packed| <= |cnt|
    ensures Printed(b, packed, cnt, [], "", {}, 0)
  {
  }

  /** The printing loop. */
  method PrintRows(b: Board, aanMove: array<int>, pnSource: seq<int>, pnDest: seq<int>, anCount: seq<nat>, ghost packed: seq<Chain>)
    returns (sz: string, ghost gs: seq<Group>)
    requires |pnSource| == |pnDest| == |anCount| == 4 && |packed| <= 4
    requires forall k :: 0 <= k < |packed| ==>
               SlotAt(aanMove[..], pnSource[k], pnDest[k], packed[k]) && Printable(b, packed[k]) && 1 <= anCount[k] <= 4
    requires forall k :: |packed| <= k < 4 ==> pnSource[k] == -1
    ensures exists fl :: Printed(b, packed, anCount, gs, sz, fl, |packed|)
  {
    hide *;
    sz, gs := "", [];
    var fl: set<int>, i := {}, 0;
    StartPrinting(b, packed, anCount);
    SlotsEnd(b, aanMove[..], pnSource, pnDest, packed);
    while i < 4 && pnSource[i] != -1
      invariant 0 <= i <= |packed|
      invariant Printed(b, packed, anCount, gs, sz, fl, i)
    {
      sz, fl, gs := PrintRow(b, aanMove, pnSource, pnDest, anCount, i, sz, fl, packed, gs);
      i := i + 1;
    }
  }

  lemma SlotsEnd(b: Board, cells: seq<int>, src: seq<int>, dst: seq<int>, packed: seq<Chain>)
    requires |src| == |dst| == 4 && |packed| <= 4
    requires forall k :: 0 <= k < |packed| ==> SlotAt(cells, src[k], dst[k], packed[k]) && Printable(b, packed[k])
    ensures forall k :: 0 <= k < |packed| ==> src[k] != -1
  {
    hide Printable;
    forall k | 0 <= k < |packed| ensures src[k] != -1 {
      PrintableLength(b, packed[k]);
    }
  }

  lemma StarsAreRight(b: Board, before: seq<Group>, c: Chain, stars: seq<bool>, k: nat)
    requires |stars| == |c|
    requires forall k :: 0 <= k < |c| ==>
              (stars[k] <==> k >= 1 && Blot(b, c[k]) && (k < |c| - 1 || !HitIn(b, before, c[k])))
    ensures StarsRight(b, before, Group(c, stars, k))
  {
  }

  // -- the three stages

  /** Sort and combine. */
  method CombineMoves(b: Board, anMove: seq<int>, aanMove: array<int>) returns (src: seq<int>, dst: seq<int>, ghost ch: seq<Chain>)
    requires |anMove| == 8 && aanMove.Length == 16
    requires forall m :: m in Shown(anMove) ==> PairPlayable(b, m)
    modifies aanMove
    ensures RowsAre(b, aanMove[..], src, dst, ch) && Combined(b, multiset(Shown(anMove)), ch)
    ensures SourcesFall(ch) && NothingToJoin(ch)
  {
    ghost var ms := multiset(Shown(anMove));
    ghost var pairs;
    src, dst, pairs := LoadRows(anMove, aanMove);
    CanonicalIsSorted(Shown(anMove));
    PairsArePlayable(b, Shown(anMove), pairs);
    RowsLoaded(b, pairs, aanMove[..], src, dst);
    RowsHoldPairs(pairs, 0);
    RowsStartInOrder(pairs);
    LoadedRows(b, ms, pairs, aanMove[..], src, dst);
    hide *;
    src, dst, ch := CombineRows(b, aanMove, src, dst, ms, RowsOf(pairs));
  }

  lemma PairsArePlayable(b: Board, ms: seq<Pair>, ns: seq<Pair>)
    requires multiset(ns) == multiset(ms) && forall m :: m in ms ==> PairPlayable(b, m)
    ensures forall k :: 0 <= k < |ns| ==> PairPlayable(b, ns[k])
  {
    forall k | 0 <= k < |ns| ensures PairPlayable(b, ns[k]) {
      assert ns[k] in multiset(ns);
      assert ns[k] in ms;
    }
  }

  lemma LoadedRows(b: Board, ms: multiset<Pair>, pairs: seq<Pair>, cells: seq<int>, src: seq<int>, dst: seq<int>)
    requires |pairs| <= 4 && multiset(pairs) == ms && RowsAre(b, cells, src, dst, RowsOf(pairs))
    requires RowSteps(RowsOf(pairs), ONES, 0) == multiset(pairs[0..]) && JoinedUpTo(RowsOf(pairs), 0, 0)
    ensures CombiningAt(b, ms, cells, src, dst, RowsOf(pairs), 0, 0)
  {
    hide RowsAre, RowSteps, JoinedUpTo;
    assert pairs[0..] == pairs;
    SameEffectSelf(b, ms);
  }

  function Blanks(n: nat): seq<Chain> {
    if n == 0 then [] else Blanks(n - 1) + [[]]
  }

  function Zeros(n: nat): seq<nat> {
    if n == 0 then [] else Zeros(n - 1) + [0]
  }

  lemma {:induction false} Padding(n: nat)
    ensures |Blanks(n)| == |Zeros(n)| == n && (forall k :: 0 <= k < n ==> Blanks(n)[k] == [] && Zeros(n)[k] == 0)
  {
    if n > 0 {
      Padding(n - 1);
    }
  }

  lemma PadOne(ch: seq<Chain>, cnt: seq<nat>, n: nat)
    requires n > 0
    ensures ch + Blanks(n) == ch + Blanks(n - 1) + [[]] && cnt + Zeros(n) == cnt + Zeros(n - 1) + [0]
  {
  }

  lemma {:induction false} PadSteps(ch: seq<Chain>, cnt: seq<nat>, n: nat)
    requires |ch| == |cnt|
    ensures |ch + Blanks(n)| == |cnt + Zeros(n)|
    ensures RowSteps(ch + Blanks(n), cnt + Zeros(n), 0) == RowSteps(ch, cnt, 0)
  {
    Padding(n);
    if n == 0 {
      assert ch + Blanks(0) == ch && cnt + Zeros(0) == cnt;
    } else {
      hide *;
      Padding(n - 1);
      PadSteps(ch, cnt, n - 1);
      PadOne(ch, cnt, n);
      SnocEmpty(ch + Blanks(n - 1), cnt + Zeros(n - 1), 0);
    }
  }

  lemma PackedOnes(ch: seq<Chain>, packed: seq<Chain>, pcnt: seq<nat>)
    requires |ch| == 4 && PackedFrom(ch, ONES, packed, pcnt)
    ensures forall k :: 0 <= k < |packed| ==> pcnt[k] == 1
  {
    hide RowSteps;
    assert forall m :: 0 <= m < 4 ==> ONES[m] == 1;
  }

  lemma PackedPrintable(b: Board, ch: seq<Chain>, cnt: seq<nat>, packed: seq<Chain>, pcnt: seq<nat>)
    requires PackedFrom(ch, cnt, packed, pcnt) && AllPrintable(b, ch)
    ensures forall k :: 0 <= k < |packed| ==> Printable(b, packed[k])
  {
    hide Printable, RowSteps;
    forall k | 0 <= k < |packed| ensures Printable(b, packed[k]) {
      var m :| 0 <= m < |ch| && ch[m] == packed[k];
      assert ch[m] != [] && Printable(b, ch[m]);
    }
  }

  method CountRows(pnSource: seq<int>) returns (anCount: seq<nat>)
    requires |pnSource| == 4
    ensures |anCount| == 4 && forall k :: 0 <= k < 4 ==> anCount[k] == if pnSource[k] != -1 then 1 else 0
  {
    anCount := [];
    for i := 0 to 4
      invariant |anCount| == i && forall k :: 0 <= k < i ==> anCount[k] == if pnSource[k] != -1 then 1 else 0
    {
      anCount := anCount + [if pnSource[i] != -1 then 1 else 0];
    }
  }

  lemma StartFolding(b: Board, cells: seq<int>, src: seq<int>, dst: seq<int>, cnt: seq<nat>, packed: seq<Chain>, pcnt: seq<nat>)
    requires |cells| == 16 && |packed| == |pcnt| <= 4 && |src| == |dst| == |cnt| == 4
    requires forall k :: 0 <= k < |packed| ==> SlotAt(cells, src[k], dst[k], packed[k]) && Printable(b, packed[k]) && pcnt[k] == 1
    requires forall k :: |packed| <= k < 4 ==> src[k] == -1
    requires forall k :: 0 <= k < 4 ==> cnt[k] == if src[k] != -1 then 1 else 0
    ensures var rows := packed + Blanks(4 - |packed|);
            Folding(cells, RowSteps(packed, pcnt, 0), src, dst, cnt, rows, 0, 1) && AllPrintable(b, rows)
  {
    var n := |packed|;
    var rows := packed + Blanks(4 - n);
    hide *;
    Padding(4 - n);
    PadSteps(packed, pcnt, 4 - n);
    forall k | 0 <= k < 4
      ensures SlotAt(cells, src[k], dst[k], rows[k]) && (rows[k] != [] ==> Printable(b, rows[k]))
      ensures cnt[k] == (pcnt + Zeros(4 - n))[k] && cnt[k] <= 1 && (rows[k] != [] ==> cnt[k] == 1)
    {
      if k < n {
        assert rows[k] == packed[k] && (pcnt + Zeros(4 - n))[k] == pcnt[k];
        PrintableLength(b, packed[k]);
        SlotNull(cells, src[k], dst[k], packed[k]);
      } else {
        assert rows[k] == [] && (pcnt + Zeros(4 - n))[k] == 0;
        NullSlot(cells, dst[k]);
      }
    }
    assert cnt == pcnt + Zeros(4 - n);
    FoldingStarts(cells, RowSteps(packed, pcnt, 0), src, dst, cnt, rows);
    ArePrintable(b, rows);
  }

  lemma ArePrintable(b: Board, ch: seq<Chain>)
    requires forall k :: 0 <= k < |ch| && ch[k] != [] ==> Printable(b, ch[k])
    ensures AllPrintable(b, ch)
  {
    hide Printable;
  }

  lemma FoldingStarts(cells: seq<int>, ms: multiset<Pair>, src: seq<int>, dst: seq<int>, cnt: seq<nat>, ch: seq<Chain>)
    requires |cells| == 16 && |src| == |dst| == |ch| == |cnt| == 4
    requires forall k :: 0 <= k < 4 ==> SlotAt(cells, src[k], dst[k], ch[k])
    requires RowSteps(ch, cnt, 0) == ms
    requires forall k :: 0 <= k < 4 ==> cnt[k] <= 1 && (ch[k] != [] ==> cnt[k] == 1)
    ensures Folding(cells, ms, src, dst, cnt, ch, 0, 1)
  {
    hide RowSteps, SlotAt;
  }

  lemma FoldedRows(cells: seq<int>, ms: multiset<Pair>, src: seq<int>, dst: seq<int>, cnt: seq<nat>, ch: seq<Chain>)
    requires Folding(cells, ms, src, dst, cnt, ch, 3, 4)
    ensures SlotsAre(cells, src, dst, ch) && |cnt| == 4 && RowSteps(ch, cnt, 0) == ms && DistinctRows(ch)
    ensures forall k :: 0 <= k < 4 && ch[k] != [] ==> 1 <= cnt[k] <= 4
  {
    assert |ch| == 4;
    hide RowSteps, SlotsAre;
    forall i, j | 0 <= i < j < |ch| && ch[i] != [] && ch[j] != [] ensures ch[i] != ch[j] {
      assert i < 3;
    }
  }

  /** Rows taken from rows with nothing to join have nothing to join. */
  lemma PartHasNothingToJoin(ch: seq<Chain>, part: seq<Chain>)
    requires NothingToJoin(ch) && forall k :: 0 <= k < |part| && part[k] != [] ==> part[k] in ch
    ensures NothingToJoin(part)
  {
    forall a, c | 0 <= a < |part| && 0 <= c < |part| ensures !Meets(part[a], part[c]) {
      if part[a] != [] && part[c] != [] {
        var x :| 0 <= x < |ch| && ch[x] == part[a];
        var y :| 0 <= y < |ch| && ch[y] == part[c];
        assert !Meets(ch[x], ch[y]);
      }
    }
  }

  lemma PackedNothingToJoin(ch: seq<Chain>, cnt: seq<nat>, packed: seq<Chain>, pcnt: seq<nat>)
    requires PackedFrom(ch, cnt, packed, pcnt) && NothingToJoin(ch) && SourcesFall(ch)
    ensures NothingToJoin(packed) && SourcesFall(packed)
  {
    hide RowSteps, SourcesFall, NothingToJoin;
    PartHasNothingToJoin(ch, packed);
  }

  lemma PaddedNothingToJoin(packed: seq<Chain>, n: nat)
    requires NothingToJoin(packed) && SourcesFall(packed)
    ensures NothingToJoin(packed + Blanks(n)) && SourcesFall(packed + Blanks(n))
  {
    Padding(n);
    PartHasNothingToJoin(packed, packed + Blanks(n));
  }

  lemma SomeGoneNothingToJoin(rows: seq<Chain>, ch: seq<Chain>)
    requires SomeGone(rows, ch) && NothingToJoin(rows) && SourcesFall(rows)
    ensures NothingToJoin(ch) && SourcesFall(ch)
  {
    PartHasNothingToJoin(rows, ch);
  }

  lemma PackedCounts(ch: seq<Chain>, cnt: seq<nat>, packed: seq<Chain>, pcnt: seq<nat>)
    requires PackedFrom(ch, cnt, packed, pcnt) && |ch| == 4
    requires forall k :: 0 <= k < 4 && ch[k] != [] ==> 1 <= cnt[k] <= 4
    ensures forall k :: 0 <= k < |packed| ==> 1 <= pcnt[k] <= 4
    ensures RowSteps(packed, pcnt, 0) == RowSteps(ch, cnt, 0) && (DistinctRows(ch) ==> DistinctRows(packed))
  {
    hide RowSteps;
    forall k | 0 <= k < |packed| ensures 1 <= pcnt[k] <= 4 {
      var m :| 0 <= m < |ch| && ch[m] == packed[k] && cnt[m] == pcnt[k];
    }
  }

  /** Compact, fold duplicates, compact. */
  method FoldChains(b: Board, aanMove: array<int>, pnSource: seq<int>, pnDest: seq<int>, ghost ch: seq<Chain>)
    returns (src: seq<int>, dst: seq<int>, cnt: seq<nat>, ghost packed: seq<Chain>)
    requires RowsAre(b, aanMove[..], pnSource, pnDest, ch) && |ch| == 4 && NothingToJoin(ch) && SourcesFall(ch)
    ensures |src| == |dst| == |cnt| == 4 && |packed| <= 4
    ensures forall k :: 0 <= k < |packed| ==>
              SlotAt(aanMove[..], src[k], dst[k], packed[k]) && Printable(b, packed[k]) && 1 <= cnt[k] <= 4
    ensures forall k :: |packed| <= k < 4 ==> src[k] == -1
    ensures RowSteps(packed, cnt[..|packed|], 0) == RowSteps(ch, ONES, 0) && DistinctRows(packed)
    ensures NothingToJoin(packed) && SourcesFall(packed)
  {
    hide *;
    ghost var cells := aanMove[..];
    RowsAreSlots(b, cells, pnSource, pnDest, ch);
    var i, first;
    ghost var once, rows;
    FourOnes();
    src, dst, first, i, once := Compact(pnSource, pnDest, [1, 1, 1, 1], cells, ch);
    ghost var pcnt := first[..i];
    PackedOnes(ch, once, pcnt);
    PackedNothingToJoin(ch, ONES, once, pcnt);
    PaddedNothingToJoin(once, 4 - |once|);
    PackedPrintable(b, ch, ONES, once, pcnt);
    cnt := CountRows(src);
    RowsAreSixteen(b, cells, pnSource, pnDest, ch);
    StartFolding(b, cells, src, dst, cnt, once, pcnt);
    ghost var ms := RowSteps(once, pcnt, 0);
    src, cnt, rows := FoldDuplicates(b, aanMove, src, dst, cnt, ms, once + Blanks(4 - |once|));
    FoldedRows(cells, ms, src, dst, cnt, rows);
    SomeGoneNothingToJoin(once + Blanks(4 - |once|), rows);
    ghost var folded := cnt;
    src, dst, cnt, i, packed := Compact(src, dst, cnt, cells, rows);
    PackedOfFour(cells, dst, rows, folded, packed, cnt[..i]);
    PackedPrintable(b, rows, folded, packed, cnt[..i]);
    PackedNothingToJoin(rows, folded, packed, cnt[..i]);
    PackedCounts(rows, folded, packed, cnt[..i]);
    PackedKeeps(ch, ONES, once, pcnt);
  }

  lemma FourOnes()
    ensures ONES == [1, 1, 1, 1]
  {
  }

  lemma RowsAreSixteen(b: Board, cells: seq<int>, src: seq<int>, dst: seq<int>, ch: seq<Chain>)
    requires RowsAre(b, cells, src, dst, ch)
    ensures |cells| == 16
  {
  }

  lemma PackedOfFour(cells: seq<int>, dst: seq<int>, ch: seq<Chain>, cnt: seq<nat>, packed: seq<Chain>, pcnt: seq<nat>)
    requires PackedFrom(ch, cnt, packed, pcnt) && |cnt| == 4
    ensures |ch| == 4
  {
  }

  lemma PackedKeeps(ch: seq<Chain>, cnt: seq<nat>, packed: seq<Chain>, pcnt: seq<nat>)
    requires PackedFrom(ch, cnt, packed, pcnt)
    ensures |ch| == |cnt| && |packed| == |pcnt| && RowSteps(packed, pcnt, 0) == RowSteps(ch, cnt, 0)
  {
  }

  lemma PrintedGroups(b: Board, packed: seq<Chain>, cnt: seq<nat>, gs: seq<Group>, sz: string, fl: set<int>)
    requires Printed(b, packed, cnt, gs, sz, fl, |packed|) && DistinctRows(packed)
    ensures PointsOf(gs) == packed
    ensures GoodGroups(b, gs) && sz == MoveText(gs)
    ensures GroupSteps(gs) == RowSteps(packed, cnt[..|packed|], 0)
  {
    hide Printable, StarsRight, RowSteps, MoveText, HitIn;
    forall i | 0 <= i < |gs|
      ensures gs[i].points == packed[i] && gs[i].count == cnt[i]
      ensures gs[i].count <= 4 && Printable(b, gs[i].points) && StarsRight(b, gs[..i], gs[i])
    {
      assert GroupAt(b, packed, cnt, gs, i);
    }
    assert PointsOf(gs) == packed;
    assert CountsOf(gs) == cnt[..|packed|];
  }

  /** `gs` is the text taken apart: distinct chains from high points to low, none of which
      could be joined to another, marked where they hit, that stand for sub-moves with the
      same effect as `ms`, the same ones or fewer. */
  ghost predicate Shows(b: Board, ms: multiset<Pair>, sz: string, gs: seq<Group>) {
    && GoodGroups(b, gs) && sz == MoveText(gs)
    && SourcesFall(PointsOf(gs)) && NothingToJoin(PointsOf(gs))
    && SameEffect(b, ms, GroupSteps(gs)) && Shortened(ms, GroupSteps(gs))
  }

  ghost predicate IsTextOf(b: Board, ms: multiset<Pair>, sz: string) {
    exists gs :: Shows(b, ms, sz, gs)
  }

  lemma ShowsIs(b: Board, ms: multiset<Pair>, sz: string, gs: seq<Group>)
    ensures Shows(b, ms, sz, gs) <==>
              && GoodGroups(b, gs) && sz == MoveText(gs)
              && SourcesFall(PointsOf(gs)) && NothingToJoin(PointsOf(gs))
              && SameEffect(b, ms, GroupSteps(gs)) && Shortened(ms, GroupSteps(gs))
  {
  }

  lemma TextOfShown(b: Board, ms: multiset<Pair>, sz: string, gs: seq<Group>)
    requires Shows(b, ms, sz, gs)
    ensures IsTextOf(b, ms, sz)
  {
  }

  /** FormatMove. */
  method FormatMove(b: Board, anMove: seq<int>) returns (sz: string, ghost gs: seq<Group>)
    requires |anMove| == 8
    requires forall m :: m in Shown(anMove) ==> PairPlayable(b, m)
    ensures IsTextOf(b, multiset(Shown(anMove)), sz)
    ensures Shows(b, multiset(Shown(anMove)), sz, gs)
  {
    hide *;
    var aanMove := new int[16];
    var src, dst, cnt;
    ghost var ch, packed;
    src, dst, ch := CombineMoves(b, anMove, aanMove);
    CombinedMeans(b, multiset(Shown(anMove)), ch);
    src, dst, cnt, packed := FoldChains(b, aanMove, src, dst, ch);
    sz, gs := PrintRows(b, aanMove, src, dst, cnt, packed);
    ghost var fl :| Printed(b, packed, cnt, gs, sz, fl, |packed|);
    PrintedGroups(b, packed, cnt, gs, sz, fl);
    ShowsIs(b, multiset(Shown(anMove)), sz, gs);
    TextOfShown(b, multiset(Shown(anMove)), sz, gs);
  }

  lemma CombinedMeans(b: Board, ms: multiset<Pair>, ch: seq<Chain>)
    requires Combined(b, ms, ch)
    ensures |ch| == 4 == |ONES| && SameEffect(b, ms, RowSteps(ch, ONES, 0)) && Shortened(ms, RowSteps(ch, ONES, 0))
  {
  }
}
