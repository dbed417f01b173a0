/** When ParseMove of gnubg/drawboard.c leaves its memory: the repeat counts that step over
    the end of the text or wrap the size check round. */
module RepeatCounts {
  import opened MoveParser

  // ------------------------------------------------------ a text cut at a `(`

  lemma {:induction false} DigitsEndCut(s: string, j: nat, i: nat)
    requires i <= j < |s| && s[j] == '('
    ensures DigitsEnd(s[..j], i) == DigitsEnd(s, i) <= j
    decreases j - i
  {
    if i < j && IsDigit(s[i]) {
      DigitsEndCut(s, j, i + 1);
    }
  }

  lemma {:induction false} SkipSpacesCut(s: string, j: nat, i: nat)
    requires i <= j < |s| && s[j] == '('
    ensures SkipSpaces(s[..j], i) == SkipSpaces(s, i) <= j
    decreases j - i
  {
    if i < j && IsSpace(s[i]) {
      SkipSpacesCut(s, j, i + 1);
    }
  }

  lemma {:induction false} DecimalCut(s: string, j: nat, i: nat, e: nat, acc: nat)
    requires i <= e <= j < |s| && forall k :: i <= k < e ==> IsDigit(s[k])
    ensures Decimal(s[..j], i, e, acc) == Decimal(s, i, e, acc)
    decreases e - i
  {
    if i < e {
      DecimalCut(s, j, i + 1, e, 10 * acc + DigitValue(s[i]));
    }
  }

  /** A number never reads past a `(`. */
  lemma StrtolCut(s: string, j: nat, i: nat)
    requires i <= j < |s| && s[j] == '('
    ensures Strtol(s[..j], i) == Strtol(s, i) && Strtol(s, i).1 <= j
  {
    SkipSpacesCut(s, j, i);
    var k := SkipSpaces(s, i);
    var d := if At(s, k) == '-' || At(s, k) == '+' then k + 1 else k;
    DigitsEndCut(s, j, d);
    DigitsEndIsDigits(s, d);
    DecimalCut(s, j, d, DigitsEnd(s, d), 0);
  }

  lemma CountCut(s: string, j: nat, i: nat, st: Scanned)
    requires i < j < |s| && s[j] == '(' && '\0' !in s
    ensures Count(s[..j], i, st).Good? || (Count(s, i, st).Good? && Count(s, i, st).value.0 <= j) ==>
              Count(s[..j], i, st) == Count(s, i, st)
  {
    hide Strtol, SizeAfter, AsInt, Repeat;
    StrtolCut(s, j, i + 1);
  }

  /** A turn of the scanner that stays before the cut does not notice it. */
  lemma LexCut(s: string, j: nat, i: nat, st: Scanned)
    requires i < j < |s| && s[j] == '(' && '\0' !in s
    ensures Lex(s[..j], i, st).Good? || (Lex(s, i, st).Good? && Lex(s, i, st).value.0 <= j) ==>
              Lex(s[..j], i, st) == Lex(s, i, st)
  {
    hide Strtol, Count;
    StrtolCut(s, j, i);
    CountCut(s, j, i, st);
  }

  lemma {:induction false} ScanToCut(s: string, j: nat, i: nat, st: Scanned)
    requires i <= j < |s| && s[j] == '(' && '\0' !in s && Scan(s[..j], i, st).Good?
    ensures Scan(s, i, st) == Scan(s, j, Scan(s[..j], i, st).value)
    ensures |Scan(s[..j], i, st).value.anUser| !in Scan(s[..j], i, st).value.fl
    decreases j - i
  {
    hide Lex;
    if i < j {
      LexCut(s, j, i, st);
      var next := Lex(s[..j], i, st).value;
      ScanToCut(s, j, next.0, next.1);
    }
  }

  // --------------------------------------------------------- the exact condition

  /** The repeat count at j, met in state `st`, runs out of memory: the size check passes,
      and it was wrong or the count ends the text. */
  ghost predicate RepeatRunsOver(s: string, j: nat, st: Scanned)
    requires j < |s|
  {
    var (v, e) := Strtol(s, j + 1);
    var n, c := AsInt(v - 1), |st.anUser|;
    && n >= 1 && c >= 2
    && var iBegin := ChainStart(st.fl, c - 1);
       iBegin >= 0 && SizeAfter(c, c - iBegin, n) <= 8 && (c + (c - iBegin) * n > 8 || At(s, e) == '\0')
  }

  /** The text before the `(` at j reads well, and the count there runs out of memory. */
  ghost predicate RunsOverAt(s: string, j: nat) {
    j < |s| && s[j] == '(' && Scan(s[..j], 0, START).Good? && RepeatRunsOver(s, j, Scan(s[..j], 0, START).value)
  }

  lemma LexRunsOver(s: string, j: nat, st: Scanned)
    requires j < |s|
    ensures Lex(s, j, st) == Overrun <==> s[j] == '(' && |st.anUser| !in st.fl && RepeatRunsOver(s, j, st)
  {
    hide Strtol, SizeAfter, AsInt, Repeat;
  }

  /** Where an overrun comes from. */
  lemma {:induction false} OverrunStarts(s: string, i: nat, st: Scanned) returns (j: nat)
    requires i <= |s| && '\0' !in s && Scan(s, i, st) == Overrun
    ensures i <= j < |s| && s[j] == '(' && Scan(s[..j], i, st).Good? && RepeatRunsOver(s, j, Scan(s[..j], i, st).value)
    decreases |s| - i
  {
    hide Lex, RepeatRunsOver;
    assert i < |s|;
    LexRunsOver(s, i, st);
    if Lex(s, i, st) == Overrun {
      j := i;
    } else {
      var next := Lex(s, i, st).value;
      j := OverrunStarts(s, next.0, next.1);
      LexCut(s, j, i, st);
    }
  }

  lemma {:induction false} EmitStays(st: Scanned, j: nat, an: seq<int>)
    requires j <= |st.anUser|
    ensures Emit(st, j, an) != Overrun
    decreases |st.anUser| - j
  {
    if j < |st.anUser| {
      EmitStays(st, j + 1, an + [st.anUser[j], st.anUser[j]]);
      EmitStays(st, j + 1, an + [st.anUser[j]]);
    }
  }

  /** ParseMove leaves its memory on exactly these texts. */
  lemma OverrunExactly(s: string)
    requires '\0' !in s
    ensures Parse(s) == Overrun <==> exists j: nat :: RunsOverAt(s, j)
  {
    hide Scan, Lex, RepeatRunsOver, Emit;
    if Scan(s, 0, START) == Overrun {
      var j := OverrunStarts(s, 0, START);
      assert RunsOverAt(s, j);
    }
    if Scan(s, 0, START).Good? {
      EmitStays(Scan(s, 0, START).value, 0, []);
    }
    if j: nat :| RunsOverAt(s, j) {
      ScanToCut(s, j, 0, START);
      LexRunsOver(s, j, Scan(s[..j], 0, START).value);
      ScanLex(s, j, Scan(s[..j], 0, START).value);
    }
  }

  lemma ScanLex(s: string, i: nat, st: Scanned)
    requires i < |s| && s[i] != '\0' && Lex(s, i, st) == Overrun
    ensures Scan(s, i, st) == Overrun
  {
  }

  // --------------------------------------------- texts that are certainly safe

  /** The repeat count after the `(` at j is below 2^28, not the least int, and followed
      by something. */
  ghost predicate SmallCount(s: string, j: nat)
    requires j < |s|
  {
    var (v, e) := Strtol(s, j + 1);
    -0x8000_0000 < v < 0x1000_0000 && (v >= 2 ==> At(s, e) != '\0')
  }

  lemma SmallSize(c: nat, len: nat, n: nat)
    requires len <= c <= 8 && n < 0x0fff_ffff
    ensures SizeAfter(c, len, n) == c + len * n
  {
    assert 0 <= len * n <= 8 * n;
    AsIntKeeps(len * n);
    AsIntKeeps(c + len * n);
  }

  lemma AsIntKeeps(v: int)
    requires -0x8000_0000 <= v < 0x8000_0000
    ensures AsInt(v) == v
  {
  }

  lemma SmallStays(s: string, j: nat, st: Scanned)
    requires j < |s| && SmallCount(s, j) && PointsOnly(st.anUser)
    ensures !RepeatRunsOver(s, j, st)
  {
    hide Strtol, AsInt, SizeAfter;
    PointsAre(st.anUser);
    var v, c := Strtol(s, j + 1).0, |st.anUser|;
    AsIntKeeps(v - 1);
    if v >= 2 && c >= 2 && ChainStart(st.fl, c - 1) >= 0 {
      SmallSize(c, c - ChainStart(st.fl, c - 1), v - 1);
    }
  }

  lemma {:induction false} SmallCountsScan(s: string, i: nat, st: Scanned)
    requires i <= |s| && PointsOnly(st.anUser) && forall j :: 0 <= j < |s| && s[j] == '(' ==> SmallCount(s, j)
    ensures Scan(s, i, st) != Overrun
    decreases |s| - i
  {
    hide Lex, PointsOnly, RepeatRunsOver, SmallCount;
    if At(s, i) != '\0' {
      LexKeepsPoints(s, i, st);
      LexRunsOver(s, i, st);
      if s[i] == '(' {
        SmallStays(s, i, st);
      }
      if Lex(s, i, st).Good? {
        SmallCountsScan(s, Lex(s, i, st).value.0, Lex(s, i, st).value.1);
      }
    }
  }

  /** No text whose repeat counts are all small and followed by something runs over. */
  lemma SmallCountsStay(s: string)
    requires forall j :: 0 <= j < |s| && s[j] == '(' ==> SmallCount(s, j)
    ensures Parse(s) != Overrun
  {
    hide Scan, Emit, SmallCount;
    SmallCountsScan(s, 0, START);
    if Scan(s, 0, START).Good? {
      EmitStays(Scan(s, 0, START).value, 0, []);
    }
  }

  // ------------------------------------------------------- three that are not

  lemma {:induction false} DigitsEndIs(s: string, i: nat, e: nat)
    requires i <= e <= |s| && (forall k :: i <= k < e ==> IsDigit(s[k])) && !IsDigit(At(s, e))
    ensures DigitsEnd(s, i) == e
    decreases e - i
  {
    if i < e {
      DigitsEndIs(s, i + 1, e);
    }
  }

  lemma OneDigitNumber(s: string, i: nat)
    requires i < |s| && IsDigit(s[i]) && !IsDigit(At(s, i + 1))
    ensures Strtol(s, i) == (DigitValue(s[i]), i + 1)
  {
    DigitsEndIs(s, i, i + 1);
    assert Decimal(s, i, i + 1, 0) == DigitValue(s[i]);
  }

  lemma ScanTurn(s: string, i: nat, st: Scanned, next: nat, st': Scanned)
    requires i < next <= |s| && s[i] != '\0' && Lex(s, i, st) == Good((next, st'))
    ensures Scan(s, i, st) == Scan(s, next, st')
  {
    hide Lex;
  }

  /** The scanner after "8/7". */
  lemma EightSeven(s: string)
    requires |s| >= 4 && s[0] == '8' && s[1] == '/' && s[2] == '7' && s[3] == '('
    ensures Scan(s, 0, START) == Scan(s, 3, Scanned([8, 7], {1}))
  {
    hide Strtol, Scan;
    OneDigitNumber(s, 0);
    OneDigitNumber(s, 2);
    ScanTurn(s, 0, START, 1, Scanned([] + [8], {}));
    ScanTurn(s, 1, Scanned([8], {}), 2, Scanned([8], {} + {1}));
    ScanTurn(s, 2, Scanned([8], {1}), 3, Scanned([8] + [7], {1}));
    assert [] + [8] == [8] && [8] + [7] == [8, 7] && {} + {1} == {1};
  }

  lemma EightSevenCounted(s: string, v: int, e: nat)
    requires |s| >= 4 && s[0] == '8' && s[1] == '/' && s[2] == '7' && s[3] == '(' && Strtol(s, 4) == (v, e)
    requires AsInt(v - 1) >= 1 && SizeAfter(2, 2, AsInt(v - 1)) <= 8
    requires 2 + 2 * AsInt(v - 1) > 8 || At(s, e) == '\0'
    ensures Parse(s) == Overrun
  {
    EightSeven(s);
    hide Strtol, SizeAfter, AsInt, Scan;
    var st := Scanned([8, 7], {1});
    assert RepeatRunsOver(s, 3, st);
    LexRunsOver(s, 3, st);
    ScanLex(s, 3, st);
  }

  /** Two more digits of a number. */
  lemma TwoMore(s: string, i: nat, e: nat, acc: nat, d: nat)
    requires i + 2 <= e <= |s| && forall k :: i <= k < e ==> IsDigit(s[k])
    requires d == 10 * DigitValue(s[i]) + DigitValue(s[i + 1])
    ensures Decimal(s, i, e, acc) == Decimal(s, i + 2, e, 100 * acc + d)
  {
    assert Decimal(s, i, e, acc) == Decimal(s, i + 1, e, 10 * acc + DigitValue(s[i]));
  }

  /** A number of digits only, with or without a minus sign. */
  lemma NumberIs(s: string, i: nat, e: nat, v: int, minus: bool)
    requires i < e <= |s| && (forall k :: i <= k < e ==> IsDigit(s[k])) && !IsDigit(At(s, e)) && Decimal(s, i, e, 0) == v
    requires 0 <= v <= 0x8000_0000
    requires minus ==> i > 0 && s[i - 1] == '-'
    ensures if minus then i > 0 && Strtol(s, i - 1) == (AsInt(-v), e) else Strtol(s, i) == (AsInt(v), e)
  {
    hide AsInt, Decimal;
    DigitsEndIs(s, i, e);
  }

  ghost predicate TenDigitsAt(s: string, i: nat, a: nat, b: nat, c: nat, d: nat, e: nat)
    requires i + 10 <= |s| && forall k :: i <= k < i + 10 ==> IsDigit(s[k])
  {
    && a == 10 * DigitValue(s[i]) + DigitValue(s[i + 1]) && b == 10 * DigitValue(s[i + 2]) + DigitValue(s[i + 3])
    && c == 10 * DigitValue(s[i + 4]) + DigitValue(s[i + 5]) && d == 10 * DigitValue(s[i + 6]) + DigitValue(s[i + 7])
    && e == 10 * DigitValue(s[i + 8]) + DigitValue(s[i + 9])
  }

  lemma TenDigits(s: string, i: nat, a: nat, b: nat, c: nat, d: nat, e: nat)
    requires i + 10 <= |s| && (forall k :: i <= k < i + 10 ==> IsDigit(s[k])) && TenDigitsAt(s, i, a, b, c, d, e)
    ensures Decimal(s, i, i + 10, 0) == 100 * (100 * (100 * (100 * a + b) + c) + d) + e
  {
    hide Decimal;
    TwoMore(s, i, i + 10, 0, a);
    TwoMore(s, i + 2, i + 10, a, b);
    TwoMore(s, i + 4, i + 10, 100 * a + b, c);
    TwoMore(s, i + 6, i + 10, 100 * (100 * a + b) + c, d);
    TwoMore(s, i + 8, i + 10, 100 * (100 * (100 * a + b) + c) + d, e);
    NoMore(s, i + 10, 100 * (100 * (100 * (100 * a + b) + c) + d) + e);
  }

  lemma NoMore(s: string, e: nat, acc: nat)
    requires e <= |s|
    ensures Decimal(s, e, e, acc) == acc
  {
  }

  /** A count that ends the text. */
  lemma UnclosedCountRunsOver()
    ensures Parse("8/7(2") == Overrun
  {
    hide Parse, Scan, Strtol;
    OneDigitNumber("8/7(2", 4);
    EightSevenCounted("8/7(2", 2, 5);
  }

  /** A count whose product wraps round. */
  lemma LargeCountRunsOver()
    ensures Parse("8/7(1073741826)") == Overrun
  {
    hide Parse, Scan, Strtol, Decimal;
    var s := "8/7(1073741826)";
    TenDigits(s, 4, 10, 73, 74, 18, 26);
    NumberIs(s, 4, 14, 1073741826, false);
    EightSevenCounted(s, 1073741826, 14);
  }

  /** A count that wraps round when one is subtracted. */
  lemma LeastCountRunsOver()
    ensures Parse("8/7(-2147483648)") == Overrun
  {
    hide Parse, Scan, Strtol, Decimal;
    var s := "8/7(-2147483648)";
    TenDigits(s, 5, 21, 47, 48, 36, 48);
    NumberIs(s, 5, 15, 2147483648, true);
    EightSevenCounted(s, -2147483648, 15);
  }
}
