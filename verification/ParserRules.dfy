/** What ParseMove of gnubg/drawboard.c makes of its texts: letters in either case, the
    spellings of the bar and of bearing off, and sub-moves that stay on the board. */
module ParserRules {
  import opened Settling
  import opened PairOrder
  import opened MoveParser

  // --------------------------------------------------------- upper and lower case

  function Lower(c: char): char {
    if 'A' <= c <= 'Z' then (c as int + 32) as char else c
  }

  function Lowered(s: string): (t: string)
    ensures |t| == |s| && forall i :: 0 <= i < |s| ==> t[i] == Lower(s[i])
  {
    seq(|s|, i requires 0 <= i < |s| => Lower(s[i]))
  }

  lemma {:induction false} DigitsEndLower(s: string, i: nat)
    requires i <= |s|
    ensures DigitsEnd(Lowered(s), i) == DigitsEnd(s, i)
    decreases |s| - i
  {
    if i < |s| && IsDigit(s[i]) {
      DigitsEndLower(s, i + 1);
    }
  }

  lemma {:induction false} SkipSpacesLower(s: string, i: nat)
    requires i <= |s|
    ensures SkipSpaces(Lowered(s), i) == SkipSpaces(s, i)
    decreases |s| - i
  {
    if i < |s| && IsSpace(s[i]) {
      SkipSpacesLower(s, i + 1);
    }
  }

  lemma {:induction false} DecimalLower(s: string, i: nat, j: nat, acc: nat)
    requires i <= j <= |s| && forall k :: i <= k < j ==> IsDigit(s[k])
    ensures forall k :: i <= k < j ==> IsDigit(Lowered(s)[k])
    ensures Decimal(Lowered(s), i, j, acc) == Decimal(s, i, j, acc)
    decreases j - i
  {
    if i < j {
      DecimalLower(s, i + 1, j, 10 * acc + DigitValue(s[i]));
    }
  }

  lemma StrtolLower(s: string, i: nat)
    requires i <= |s|
    ensures Strtol(Lowered(s), i) == Strtol(s, i)
  {
    SkipSpacesLower(s, i);
    var j := SkipSpaces(s, i);
    var k := if At(s, j) == '-' || At(s, j) == '+' then j + 1 else j;
    DigitsEndLower(s, k);
    DigitsEndIsDigits(s, k);
    DecimalLower(s, k, DigitsEnd(s, k), 0);
  }

  lemma CountLower(s: string, i: nat, st: Scanned)
    requires i < |s|
    ensures Count(Lowered(s), i, st) == Count(s, i, st)
  {
    hide Strtol, SizeAfter, AsInt, Repeat;
    StrtolLower(s, i + 1);
    if Strtol(s, i + 1).1 < |s| {
      assert At(Lowered(s), Strtol(s, i + 1).1) == Lower(s[Strtol(s, i + 1).1]);
    }
  }

  lemma LexLower(s: string, i: nat, st: Scanned)
    requires i < |s|
    ensures Lex(Lowered(s), i, st) == Lex(s, i, st)
  {
    hide Strtol, Count;
    StrtolLower(s, i);
    CountLower(s, i, st);
    assert i + 1 < |s| ==> At(Lowered(s), i + 1) == Lower(s[i + 1]);
    assert i + 2 < |s| ==> At(Lowered(s), i + 2) == Lower(s[i + 2]);
  }

  lemma {:induction false} ScanLower(s: string, i: nat, st: Scanned)
    requires i <= |s|
    ensures Scan(Lowered(s), i, st) == Scan(s, i, st)
    decreases |s| - i
  {
    hide Lex;
    if i < |s| && s[i] != '\0' {
      LexLower(s, i, st);
      if Lex(s, i, st).Good? {
        ScanLower(s, Lex(s, i, st).value.0, Lex(s, i, st).value.1);
      }
    }
  }

  /** Capital letters read like small ones. */
  lemma CaseIsIgnored(s: string)
    ensures Parse(Lowered(s)) == Parse(s)
  {
    hide Scan, Emit;
    ScanLower(s, 0, START);
  }

  // -------------------------------------------------------------- the tokens

  function AddedTo(st: Scanned, p: int): Scanned {
    Scanned(st.anUser + [p], st.fl)
  }

  /** "o", "of", "off" and "-" are all off the board, "b", "ba" and "bar" all the bar. */
  lemma Spellings(s: string, i: nat, k: nat, st: Scanned)
    requires 1 <= k <= 3 && i + k <= |s| && |st.anUser| < 8
    ensures s[i..i + k] == "off"[..k] && (k < 3 ==> Lower(At(s, i + k)) != 'f') ==>
              Lex(s, i, st) == Good((i + k, AddedTo(st, 0)))
    ensures s[i..i + k] == "bar"[..k] && (k == 1 ==> Lower(At(s, i + k)) != 'a') && (k == 2 ==> Lower(At(s, i + k)) != 'r') ==>
              Lex(s, i, st) == Good((i + k, AddedTo(st, 25)))
    ensures s[i] == '-' ==> Lex(s, i, st) == Good((i + 1, AddedTo(st, 0)))
  {
    hide Strtol, Count;
    assert s[i..i + k][0] == s[i];
    assert k > 1 ==> s[i..i + k][1] == s[i + 1];
    assert k > 2 ==> s[i..i + k][2] == s[i + 2];
  }

  /** White space, hit marks, commas and closing parentheses mean nothing by themselves; a
      slash joins two points; anything else that begins no token is an error. */
  lemma Separators(s: string, i: nat, st: Scanned)
    requires i < |s|
    ensures s[i] in " \t\n\r*,)" ==> Lex(s, i, st) == Good((i + 1, st))
    ensures s[i] == '/' ==>
              Lex(s, i, st) == if |st.anUser| == 0 || |st.anUser| in st.fl then Bad
                               else Good((i + 1, Scanned(st.anUser, st.fl + {|st.anUser|})))
    ensures s[i] !in " \t\n\r*,)/(-" && !IsSpace(s[i]) && !IsDigit(s[i]) && Lower(s[i]) !in "ob" ==> Lex(s, i, st) == Bad
  {
    hide Strtol, Count;
  }

  /** A number is a point from 0 to 25, and the ninth point is one too many. */
  lemma Numbers(s: string, i: nat, st: Scanned)
    requires i < |s| && IsDigit(s[i])
    ensures Lex(s, i, st) == if |st.anUser| == 8 || !(0 <= Strtol(s, i).0 <= 25) then Bad
                             else Good((Strtol(s, i).1, AddedTo(st, Strtol(s, i).0)))
  {
    hide Strtol, Count;
  }

  // ------------------------------------------------------- what may be read

  /** Sources in even cells, destinations in odd ones. */
  ghost predicate OnBoardCells(an: seq<int>) {
    forall k :: 0 <= k < |an| ==> if k % 2 == 0 then 1 <= an[k] <= 25 else 0 <= an[k] <= 24
  }

  lemma {:induction false} EmitOnBoard(st: Scanned, j: nat, an: seq<int>)
    requires j <= |st.anUser| && OnBoardCells(an) && |an| <= 8 && forall k :: 0 <= k < |st.anUser| ==> 0 <= st.anUser[k] <= 25
    ensures Emit(st, j, an).Good? ==> OnBoardCells(Emit(st, j, an).value) && |Emit(st, j, an).value| <= 8
    decreases |st.anUser| - j
  {
    if j < |st.anUser| && |an| < 8 {
      var p := st.anUser[j];
      if |an| % 2 == 1 && j + 1 in st.fl {
        if |an| < 7 && p != 0 && p != 25 {
          EmitOnBoard(st, j + 1, an + [p, p]);
        }
      } else if !(|an| % 2 == 1 && p == 25) && !(|an| % 2 == 0 && p == 0) {
        EmitOnBoard(st, j + 1, an + [p]);
      }
    }
  }

  lemma {:induction false} ScanKeepsPoints(s: string, i: nat, st: Scanned)
    requires i <= |s| && PointsOnly(st.anUser)
    ensures Scan(s, i, st).Good? ==> PointsOnly(Scan(s, i, st).value.anUser)
    decreases |s| - i
  {
    hide Lex, PointsOnly;
    if At(s, i) != '\0' {
      LexKeepsPoints(s, i, st);
      if Lex(s, i, st).Good? {
        ScanKeepsPoints(s, Lex(s, i, st).value.0, Lex(s, i, st).value.1);
      }
    }
  }

  /** Whatever the text, at most four sub-moves are read, none of them from off the board or
      to the bar. */
  lemma ReadMovesStayOnBoard(s: string)
    requires Parse(s).Good?
    ensures |Parse(s).value| <= 4 && forall m :: m in Parse(s).value ==> 1 <= m.0 <= 25 && 0 <= m.1 <= 24
  {
    hide Scan, Emit;
    ScanKeepsPoints(s, 0, START);
    var st := Scan(s, 0, START).value;
    EmitOnBoard(st, 0, []);
    var an := Emit(st, 0, []).value;
    var ms := PairUp(an);
    CanonicalIsSorted(ms);
    forall m | m in InCanonicalOrder(ms) ensures 1 <= m.0 <= 25 && 0 <= m.1 <= 24 {
      assert m in multiset(ms);
      var k :| 0 <= k < |ms| && ms[k] == m;
      PairUpHeld(an, k);
    }
  }
}
