/** ParseMove of gnubg/drawboard.c: text to sub-moves. */
module MoveParser {
  import opened Settling
  import opened PairOrder

  // ---------------------------------------------------------- the C library

  /** The character at `i`, the terminating NUL past the end. */
  function At(s: string, i: nat): char {
    if i < |s| then s[i] else '\0'
  }

  predicate IsSpace(c: char) {
    c == ' ' || '\t' <= c <= '\r'
  }

  predicate IsDigit(c: char) {
    '0' <= c <= '9'
  }

  function DigitValue(c: char): nat
    requires IsDigit(c)
  {
    c as int - '0' as int
  }

  /** The end of the run of digits at `i`. */
  function DigitsEnd(s: string, i: nat): (j: nat)
    requires i <= |s|
    ensures i <= j <= |s|
    decreases |s| - i
  {
    if IsDigit(At(s, i)) then DigitsEnd(s, i + 1) else i
  }

  function Decimal(s: string, i: nat, j: nat, acc: nat): nat
    requires i <= j <= |s| && forall k :: i <= k < j ==> IsDigit(s[k])
    decreases j - i
  {
    if i == j then acc else Decimal(s, i + 1, j, 10 * acc + DigitValue(s[i]))
  }

  lemma {:induction false} DigitsEndIsDigits(s: string, i: nat)
    requires i <= |s|
    ensures forall k :: i <= k < DigitsEnd(s, i) ==> IsDigit(s[k])
    decreases |s| - i
  {
    if IsDigit(At(s, i)) {
      DigitsEndIsDigits(s, i + 1);
    }
  }

  function SkipSpaces(s: string, i: nat): (j: nat)
    requires i <= |s|
    ensures i <= j <= |s|
    decreases |s| - i
  {
    if i < |s| && IsSpace(s[i]) then SkipSpaces(s, i + 1) else i
  }

  const LONG_MAX := 0x7fff_ffff_ffff_ffff

  /** strtol in base 10 converted to int: the value and the end of what was read,
      which is the start if there is no number. */
  function Strtol(s: string, i: nat): (r: (int, nat))
    requires i <= |s|
    ensures i <= r.1 <= |s|
    ensures i < |s| && IsDigit(s[i]) ==> i < r.1
  {
    var j := SkipSpaces(s, i);
    var k := if At(s, j) == '-' || At(s, j) == '+' then j + 1 else j;
    var e := DigitsEnd(s, k);
    if e == k then (0, i)
    else
      DigitsEndIsDigits(s, k);
      var v: int := Decimal(s, k, e, 0);
      var clamped := if At(s, j) == '-' then (if v > LONG_MAX + 1 then -LONG_MAX - 1 else -v)
                     else if v > LONG_MAX then LONG_MAX else v;
      (AsInt(clamped), e)
  }

  /** The conversion of a long to a 32-bit int. */
  function AsInt(v: int): int {
    (v + 0x8000_0000) % 0x1_0000_0000 - 0x8000_0000
  }

  // ------------------------------------------------------------- the scanner

  /** The points read so far, and the places where a `/` stood before a point. */
  datatype Scanned = Scanned(anUser: seq<int>, fl: set<int>)

  const START := Scanned([], {})

  /** Bad is the error return. Overrun is a repeat count after which the original leaves
      its memory: the count ends the text, and the terminator is stepped over; or the
      32-bit size check wraps round, and more points are written than there is room for. */
  datatype Outcome<T> = Good(value: T) | Bad | Overrun

  /** The last point below `c` with no `/` before it, -1 if there is none. */
  function ChainStart(fl: set<int>, c: int): (i: int)
    requires -1 <= c
    ensures -1 <= i <= c
    decreases c + 1
  {
    if c >= 0 && c in fl then ChainStart(fl, c - 1) else c
  }

  /** Repeat the points [iBegin, iEnd), n times. */
  function RepeatOnce(st: Scanned, j: nat, iEnd: nat): (r: Scanned)
    requires j <= iEnd <= |st.anUser|
    ensures |r.anUser| == |st.anUser| + iEnd - j
    decreases iEnd - j
  {
    if j == iEnd then st
    else
      RepeatOnce(Scanned(st.anUser + [st.anUser[j]], if j in st.fl then st.fl + {|st.anUser|} else st.fl), j + 1, iEnd)
  }

  function Repeat(st: Scanned, iBegin: nat, iEnd: nat, n: nat): (r: Scanned)
    requires iBegin <= iEnd <= |st.anUser|
    ensures |r.anUser| == |st.anUser| + n * (iEnd - iBegin)
    decreases n
  {
    if n == 0 then st
    else
      assert n * (iEnd - iBegin) == (n - 1) * (iEnd - iBegin) + (iEnd - iBegin);
      Repeat(RepeatOnce(st, iBegin, iEnd), iBegin, iEnd, n - 1)
  }

  function AddPoint(st: Scanned, n: int): Outcome<Scanned> {
    if |st.anUser| == 8 || n < 0 || n > 25 then Bad else Good(st.(anUser := st.anUser + [n]))
  }

  /** The number of points after n repetitions, as the original computes it. */
  function SizeAfter(c: nat, len: nat, n: int): int {
    AsInt(c + AsInt(len * n))
  }

  /** The effect of a `(`. */
  function Count(s: string, i: nat, st: Scanned): (r: Outcome<(nat, Scanned)>)
    requires i < |s|
    ensures r.Good? ==> i < r.value.0 <= |s|
  {
    var (v, e) := Strtol(s, i + 1);
    var n, c := AsInt(v - 1), |st.anUser|;
    if n < 1 || c < 2 || c in st.fl then Bad
    else
      var iBegin := ChainStart(st.fl, c - 1);
      if iBegin < 0 || SizeAfter(c, c - iBegin, n) > 8 then Bad
      else if c + (c - iBegin) * n > 8 || At(s, e) == '\0' then Overrun
      else Good((e + 1, Repeat(st, iBegin, c, n)))
  }

  /** One turn of the scanning loop: where the next turn starts, and its state. */
  function Lex(s: string, i: nat, st: Scanned): (r: Outcome<(nat, Scanned)>)
    requires i < |s|
    ensures r.Good? ==> i < r.value.0 <= |s|
  {
    var ch := s[i];
    if IsSpace(ch) then Good((i + 1, st))
    else if IsDigit(ch) then
      var (v, e) := Strtol(s, i);
      var p := AddPoint(st, v);
      if p.Good? then Good((e, p.value)) else Bad
    else if ch == 'o' || ch == 'O' || ch == '-' then
      var f := if ch != '-' && (At(s, i + 1) == 'f' || At(s, i + 1) == 'F')
               then (if At(s, i + 2) == 'f' || At(s, i + 2) == 'F' then 3 else 2) else 1;
      var p := AddPoint(st, 0);
      if p.Good? then Good((i + f, p.value)) else Bad
    else if ch == 'b' || ch == 'B' then
      var f := if At(s, i + 1) == 'a' || At(s, i + 1) == 'A'
               then (if At(s, i + 2) == 'r' || At(s, i + 2) == 'R' then 3 else 2) else 1;
      var p := AddPoint(st, 25);
      if p.Good? then Good((i + f, p.value)) else Bad
    else if ch == '/' then
      if st.anUser == [] || |st.anUser| in st.fl then Bad
      else Good((i + 1, st.(fl := st.fl + {|st.anUser|})))
    else if ch == '*' || ch == ',' || ch == ')' then Good((i + 1, st))
    else if ch == '(' then Count(s, i, st)
    else Bad
  }

  function Scan(s: string, i: nat, st: Scanned): Outcome<Scanned>
    requires i <= |s|
    decreases |s| - i
  {
    if At(s, i) == '\0' then (if |st.anUser| in st.fl then Bad else Good(st))
    else
      match Lex(s, i, st)
      case Good(next) => Scan(s, next.0, next.1)
      case Bad => Bad
      case Overrun => Overrun
  }

  // -------------------------------------------------- from points to sub-moves

  /** The cells written so far, from point j on. */
  function Emit(st: Scanned, j: nat, an: seq<int>): Outcome<seq<int>>
    requires j <= |st.anUser|
    decreases |st.anUser| - j
  {
    if j == |st.anUser| then (if |an| % 2 == 1 then Bad else Good(an))
    else
      var p, odd := st.anUser[j], |an| % 2 == 1;
      if |an| == 8 || (odd && p == 25) || (!odd && p == 0) then Bad
      else if odd && j + 1 in st.fl then
        if |an| == 7 || p == 0 || p == 25 then Bad else Emit(st, j + 1, an + [p, p])
      else Emit(st, j + 1, an + [p])
  }

  function PairUp(an: seq<int>): (ms: seq<Pair>)
    requires |an| % 2 == 0
    ensures |ms| == |an| / 2
  {
    if an == [] then [] else [(an[0], an[1])] + PairUp(an[2..])
  }

  /** The sub-moves a text stands for, in canonical order. */
  function Parse(s: string): Outcome<seq<Pair>> {
    match Scan(s, 0, START)
    case Bad => Bad
    case Overrun => Overrun
    case Good(st) =>
      match Emit(st, 0, [])
      case Good(an) => if |an| % 2 == 1 then Bad else Good(InCanonicalOrder(PairUp(an)))
      case Bad => Bad
      case Overrun => Overrun
  }

  // --------------------------------------------------------------- ParseMove

  lemma {:induction false} PairUpHeld(an: seq<int>, i: nat)
    requires |an| % 2 == 0 && i < |an| / 2
    ensures PairUp(an)[i] == (an[2 * i], an[2 * i + 1])
  {
    if i > 0 {
      PairUpHeld(an[2..], i - 1);
    }
  }

  lemma {:induction false} EmitFits(st: Scanned, j: nat, an: seq<int>)
    requires j <= |st.anUser| && |an| <= 8 && forall k :: 0 <= k < |an| && k % 2 == 0 ==> an[k] >= 0
    requires forall k :: 0 <= k < |st.anUser| ==> st.anUser[k] >= 0
    ensures Emit(st, j, an).Good? ==>
              var r := Emit(st, j, an).value;
              |r| <= 8 && |r| % 2 == 0 && forall k :: 0 <= k < |r| && k % 2 == 0 ==> r[k] >= 0
    decreases |st.anUser| - j
  {
    if j < |st.anUser| && |an| < 8 {
      var p := st.anUser[j];
      if |an| % 2 == 1 && j + 1 in st.fl {
        if |an| < 7 {
          EmitFits(st, j + 1, an + [p, p]);
        }
      } else {
        EmitFits(st, j + 1, an + [p]);
      }
    }
  }

  /** The scanning loop keeps every point a point. */
  ghost predicate PointsOnly(user: seq<int>) {
    |user| <= 8 && forall k :: 0 <= k < |user| ==> 0 <= user[k] <= 25
  }

  lemma {:induction false} RepeatIsPoints(st: Scanned, iBegin: nat, iEnd: nat, n: nat)
    requires iBegin <= iEnd <= |st.anUser| && forall k :: 0 <= k < |st.anUser| ==> 0 <= st.anUser[k] <= 25
    ensures forall k :: 0 <= k < |Repeat(st, iBegin, iEnd, n).anUser| ==> 0 <= Repeat(st, iBegin, iEnd, n).anUser[k] <= 25
    decreases n
  {
    if n > 0 {
      RepeatOnceIsPoints(st, iBegin, iEnd);
      RepeatIsPoints(RepeatOnce(st, iBegin, iEnd), iBegin, iEnd, n - 1);
    }
  }

  lemma {:induction false} RepeatOnceIsPoints(st: Scanned, j: nat, iEnd: nat)
    requires j <= iEnd <= |st.anUser| && forall k :: 0 <= k < |st.anUser| ==> 0 <= st.anUser[k] <= 25
    ensures forall k :: 0 <= k < |RepeatOnce(st, j, iEnd).anUser| ==> 0 <= RepeatOnce(st, j, iEnd).anUser[k] <= 25
    decreases iEnd - j
  {
    if j < iEnd {
      RepeatOnceIsPoints(Scanned(st.anUser + [st.anUser[j]], if j in st.fl then st.fl + {|st.anUser|} else st.fl), j + 1, iEnd);
    }
  }

  lemma CountKeepsPoints(s: string, i: nat, st: Scanned)
    requires i < |s| && PointsOnly(st.anUser)
    ensures Count(s, i, st).Good? ==> PointsOnly(Count(s, i, st).value.1.anUser)
  {
    hide Strtol, Repeat, PointsOnly, SizeAfter, AsInt;
    if Count(s, i, st).Good? {
      var n, c := AsInt(Strtol(s, i + 1).0 - 1), |st.anUser|;
      PointsAre(st.anUser);
      RepeatIsPoints(st, ChainStart(st.fl, c - 1), c, n);
      PointsAre(Repeat(st, ChainStart(st.fl, c - 1), c, n).anUser);
    }
  }

  lemma PointsAre(user: seq<int>)
    ensures PointsOnly(user) <==> |user| <= 8 && forall k :: 0 <= k < |user| ==> 0 <= user[k] <= 25
  {
  }

  lemma LexKeepsPoints(s: string, i: nat, st: Scanned)
    requires i < |s| && PointsOnly(st.anUser)
    ensures Lex(s, i, st).Good? ==> PointsOnly(Lex(s, i, st).value.1.anUser)
  {
    hide Strtol, Count;
    if s[i] == '(' {
      CountKeepsPoints(s, i, st);
    }
  }

  /** ParseMove: -1, or the number of sub-moves written, in canonical order and
      followed by -1 if there is room. Nothing is promised once the original has left
      its memory. */
  method ParseMove(pch: string, an: array<int>) returns (r: int)
    requires an.Length == 8
    modifies an
    ensures Parse(pch) == Bad ==> r == -1
    ensures Parse(pch).Good? ==>
              var ms := Parse(pch).value;
              r == |ms| <= 4 && HoldsPairs(an[..], ms) && (|ms| < 4 ==> an[2 * |ms|] == -1)
  {
    var i := 0;
    var st := START;
    while i < |pch| && pch[i] != '\0'
      invariant 0 <= i <= |pch| && PointsOnly(st.anUser)
      invariant Scan(pch, i, st) == Scan(pch, 0, START)
      invariant an[..] == old(an[..])
      decreases |pch| - i
    {
      LexKeepsPoints(pch, i, st);
      var next := ReadToken(pch, i, st);
      if next == Bad {
        return -1;
      } else if next == Overrun {
        r := *;
        return;
      }
      i, st := next.value.0, next.value.1;
    }
    if |st.anUser| in st.fl {
      return -1;
    }
    r := WriteSubMoves(st, an);
  }

  /** The body of the scanning loop. */
  method ReadToken(pch: string, i: nat, st: Scanned) returns (next: Outcome<(nat, Scanned)>)
    requires i < |pch|
    ensures next == Lex(pch, i, st)
  {
    hide Count;
    var ch, user := pch[i], st.anUser;
    if IsSpace(ch) {
      return Good((i + 1, st));
    } else if IsDigit(ch) {
      if |user| == 8 {
        return Bad;
      }
      var num := Strtol(pch, i);
      if num.0 < 0 || num.0 > 25 {
        return Bad;
      }
      return Good((num.1, Scanned(user + [num.0], st.fl)));
    } else if ch == 'o' || ch == 'O' || ch == '-' {
      if |user| == 8 {
        return Bad;
      }
      var k := i;
      if ch != '-' && (At(pch, k + 1) == 'f' || At(pch, k + 1) == 'F') {
        k := k + 1;
        if At(pch, k + 1) == 'f' || At(pch, k + 1) == 'F' {
          k := k + 1;
        }
      }
      return Good((k + 1, Scanned(user + [0], st.fl)));
    } else if ch == 'b' || ch == 'B' {
      if |user| == 8 {
        return Bad;
      }
      var k := i;
      if At(pch, k + 1) == 'a' || At(pch, k + 1) == 'A' {
        k := k + 1;
        if At(pch, k + 1) == 'r' || At(pch, k + 1) == 'R' {
          k := k + 1;
        }
      }
      return Good((k + 1, Scanned(user + [25], st.fl)));
    } else if ch == '/' {
      if |user| == 0 || |user| in st.fl {
        return Bad;
      }
      return Good((i + 1, Scanned(user, st.fl + {|user|})));
    } else if ch == '*' || ch == ',' || ch == ')' {
      return Good((i + 1, st));
    } else if ch == '(' {
      next := ReadCount(pch, i, st);
    } else {
      return Bad;
    }
  }

  /** The case of a repeat count. */
  method ReadCount(pch: string, i: nat, st: Scanned) returns (next: Outcome<(nat, Scanned)>)
    requires i < |pch|
    ensures next == Count(pch, i, st)
  {
    var num := Strtol(pch, i + 1);
    var n, c := AsInt(num.0 - 1), |st.anUser|;
    if n < 1 || c < 2 || c in st.fl {
      return Bad;
    }
    var iBegin := c - 1;
    while iBegin >= 0 && iBegin in st.fl
      invariant -1 <= iBegin <= c - 1
      invariant ChainStart(st.fl, iBegin) == ChainStart(st.fl, c - 1)
    {
      iBegin := iBegin - 1;
    }
    if iBegin < 0 || AsInt(c + AsInt((c - iBegin) * n)) > 8 {
      return Bad;
    }
    if c + (c - iBegin) * n > 8 {
      return Overrun;
    }
    var user, fl := st.anUser, st.fl;
    var k := 0;
    while k < n
      invariant 0 <= k <= n && c <= |user|
      invariant Repeat(Scanned(user, fl), iBegin, c, n - k) == Repeat(st, iBegin, c, n)
    {
      var j := iBegin;
      ghost var before := Scanned(user, fl);
      while j < c
        invariant iBegin <= j <= c <= |user|
        invariant RepeatOnce(Scanned(user, fl), j, c) == RepeatOnce(before, iBegin, c)
      {
        if j in fl {
          fl := fl + {|user|};
        }
        user := user + [user[j]];
        j := j + 1;
      }
      k := k + 1;
    }
    if At(pch, num.1) == '\0' {
      return Overrun;
    }
    return Good((num.1 + 1, Scanned(user, fl)));
  }

  /** The second half of ParseMove: pair the points up and sort. */
  method WriteSubMoves(st: Scanned, an: array<int>) returns (r: int)
    requires an.Length == 8 && PointsOnly(st.anUser)
    modifies an
    ensures Emit(st, 0, []) == Bad ==> r == -1
    ensures !Emit(st, 0, []).Overrun?
    ensures Emit(st, 0, []).Good? ==>
              var cells := Emit(st, 0, []).value;
              && |cells| % 2 == 0
              && var ms := InCanonicalOrder(PairUp(cells));
                 r == |ms| <= 4 && HoldsPairs(an[..], ms) && (|ms| < 4 ==> an[2 * |ms|] == -1)
  {
    var i, j := 0, 0;
    EmitFits(st, 0, []);
    while j < |st.anUser|
      invariant 0 <= j <= |st.anUser| && 0 <= i <= 8
      invariant Emit(st, j, an[..i]) == Emit(st, 0, [])
    {
      var p := st.anUser[j];
      if i == 8 {
        return -1;
      }
      if (i % 2 == 1 && p == 25) || (i % 2 == 0 && p == 0) {
        return -1;
      }
      ghost var before := an[..i];
      an[i] := p;
      assert an[..i] == before;
      if i % 2 == 1 && j + 1 in st.fl {
        if i == 7 || p == 0 || p == 25 {
          return -1;
        }
        i := i + 1;
        an[i] := p;
        assert an[..i + 1] == before + [p, p];
      } else {
        assert an[..i + 1] == before + [p];
      }
      i := i + 1;
      j := j + 1;
    }
    if i % 2 == 1 {
      return -1;
    }
    r := SortSubMoves(an, i);
  }

  method SortSubMoves(an: array<int>, i: nat) returns (r: int)
    requires an.Length == 8 && i <= 8 && i % 2 == 0
    requires forall k :: 0 <= k < i && k % 2 == 0 ==> an[..i][k] >= 0
    modifies an
    ensures var ms := InCanonicalOrder(PairUp(old(an[..i])));
            r == |ms| == i / 2 && HoldsPairs(an[..], ms) && (|ms| < 4 ==> an[2 * |ms|] == -1)
  {
    ghost var cells := an[..i];
    ghost var ms := PairUp(cells);
    if i < 8 {
      an[i] := -1;
    }
    forall k | 0 <= k < |ms| ensures an[2 * k] == ms[k].0 && an[2 * k + 1] == ms[k].1 && ms[k].0 >= 0 {
      PairUpHeld(cells, k);
      assert an[2 * k] == cells[2 * k] && an[2 * k + 1] == cells[2 * k + 1];
    }
    PairsInHeld(an[..], ms, 0);
    CanonicalMoveOrder(an);
    if |ms| < 4 {
      assert an[2 * |ms|] == an[2 * |ms|..][0] == -1;
    }
    return i / 2;
  }
}
