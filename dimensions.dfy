/**
 * The grid-dimension text field: "width height", split on whitespace into exactly
 * two integers, then checked to be positive.
 */
module Dimensions {
  import opened Wrappers
  import opened Decimal

  /** The characters Python's `str.split()` without a separator treats as whitespace. */
  predicate IsSpace(c: char)
  {
    c == ' ' || ('\t' <= c <= '\r') || ('\U{1C}' <= c <= '\U{1F}') || c == '\U{85}' || c == '\U{A0}'
    || c == '\U{1680}' || ('\U{2000}' <= c <= '\U{200A}') || c == '\U{2028}' || c == '\U{2029}'
    || c == '\U{202F}' || c == '\U{205F}' || c == '\U{3000}'
  }

  /** Python's whitespace characters for `str.split()`, one by one. */
  const PythonWhitespace: set<char> := {
    '\t', '\n', '\U{0B}', '\U{0C}', '\r', '\U{1C}', '\U{1D}', '\U{1E}', '\U{1F}', ' ',
    '\U{85}', '\U{A0}', '\U{1680}',
    '\U{2000}', '\U{2001}', '\U{2002}', '\U{2003}', '\U{2004}', '\U{2005}', '\U{2006}',
    '\U{2007}', '\U{2008}', '\U{2009}', '\U{200A}',
    '\U{2028}', '\U{2029}', '\U{202F}', '\U{205F}', '\U{3000}'
  }

  /** The range test is the listed set: exactly those 29 characters are whitespace. */
  lemma IsSpaceIsPythonWhitespace(c: char)
    ensures IsSpace(c) <==> c in PythonWhitespace
  {
  }

  predicate AllSpace(w: string) { forall k :: 0 <= k < |w| ==> IsSpace(w[k]) }

  /** A piece `split()` can produce: non-empty, without whitespace. */
  predicate IsToken(t: string) { |t| > 0 && forall k :: 0 <= k < |t| ==> !IsSpace(t[k]) }

  /** The longest prefix of `s` that holds no whitespace. */
  function Word(s: string): (w: string)
    ensures |w| <= |s| && w == s[..|w|]
    ensures forall k :: 0 <= k < |w| ==> !IsSpace(w[k])
    ensures |w| == |s| || IsSpace(s[|w|])
    ensures |s| > 0 && !IsSpace(s[0]) ==> |w| > 0
  {
    if |s| == 0 || IsSpace(s[0]) then "" else [s[0]] + Word(s[1..])
  }

  /** `s.split()`: the maximal runs of non-whitespace characters of `s`, in order. */
  function Split(s: string): (toks: seq<string>)
    ensures forall k :: 0 <= k < |toks| ==> IsToken(toks[k])
    decreases |s|
  {
    if |s| == 0 then []
    else if IsSpace(s[0]) then Split(s[1..])
    else var w := Word(s); [w] + Split(s[|w|..])
  }

  /** The characters of `s` that are not whitespace, in order. */
  function NonSpace(s: string): string
    decreases |s|
  {
    if |s| == 0 then "" else (if IsSpace(s[0]) then "" else [s[0]]) + NonSpace(s[1..])
  }

  function Concat(toks: seq<string>): string
  {
    if |toks| == 0 then "" else toks[0] + Concat(toks[1..])
  }

  lemma {:induction false} NonSpaceAppend(a: string, b: string)
    ensures NonSpace(a + b) == NonSpace(a) + NonSpace(b)
    decreases |a|
  {
    if |a| > 0 {
      assert (a + b)[1..] == a[1..] + b;
      NonSpaceAppend(a[1..], b);
    } else {
      assert a + b == b;
    }
  }

  lemma {:induction false} NonSpaceOfWord(w: string)
    requires forall k :: 0 <= k < |w| ==> !IsSpace(w[k])
    ensures NonSpace(w) == w
    decreases |w|
  {
    if |w| > 0 {
      NonSpaceOfWord(w[1..]);
      assert w == [w[0]] + w[1..];
    }
  }

  /** Splitting loses exactly the whitespace: the pieces, put together, are the other characters. */
  lemma {:induction false} SplitKeepsNonSpace(s: string)
    ensures Concat(Split(s)) == NonSpace(s)
    decreases |s|
  {
    if |s| > 0 {
      if IsSpace(s[0]) {
        SplitKeepsNonSpace(s[1..]);
      } else {
        var w := Word(s);
        var rest := s[|w|..];
        assert s == w + rest;
        SplitKeepsNonSpace(rest);
        NonSpaceAppend(w, rest);
        NonSpaceOfWord(w);
        assert Split(s) == [w] + Split(rest);
        assert Concat([w] + Split(rest)) == w + Concat(Split(rest));
      }
    }
  }

  /** Leading whitespace is ignored. */
  lemma {:induction false} SplitSkipsLeadingSpace(ws: string, s: string)
    requires AllSpace(ws)
    ensures Split(ws + s) == Split(s)
    decreases |ws|
  {
    if |ws| == 0 {
      assert ws + s == s;
    } else {
      assert (ws + s)[1..] == ws[1..] + s;
      SplitSkipsLeadingSpace(ws[1..], s);
    }
  }

  lemma {:induction false} WordIgnoresTrailingSpace(s: string, ws: string)
    requires AllSpace(ws)
    ensures Word(s + ws) == Word(s)
    decreases |s|
  {
    if |s| == 0 {
      assert s + ws == ws;
    } else if !IsSpace(s[0]) {
      assert (s + ws)[1..] == s[1..] + ws;
      WordIgnoresTrailingSpace(s[1..], ws);
    }
  }

  /** Trailing whitespace is ignored. */
  lemma {:induction false} SplitIgnoresTrailingSpace(s: string, ws: string)
    requires AllSpace(ws)
    ensures Split(s + ws) == Split(s)
    decreases |s|
  {
    if |s| == 0 {
      assert s + ws == ws + "";
      SplitSkipsLeadingSpace(ws, "");
    } else if IsSpace(s[0]) {
      assert (s + ws)[1..] == s[1..] + ws;
      SplitIgnoresTrailingSpace(s[1..], ws);
    } else {
      var w := Word(s);
      WordIgnoresTrailingSpace(s, ws);
      assert (s + ws)[|w|..] == s[|w|..] + ws;
      SplitIgnoresTrailingSpace(s[|w|..], ws);
    }
  }

  lemma {:induction false} WordOfToken(t: string, rest: string)
    requires forall k :: 0 <= k < |t| ==> !IsSpace(t[k])
    requires rest == "" || IsSpace(rest[0])
    ensures Word(t + rest) == t
    decreases |t|
  {
    if |t| == 0 {
      assert t + rest == rest;
    } else {
      assert (t + rest)[1..] == t[1..] + rest;
      WordOfToken(t[1..], rest);
      assert t == [t[0]] + t[1..];
    }
  }

  /** A token followed by whitespace (or by nothing) is split off whole. */
  lemma SplitToken(t: string, rest: string)
    requires IsToken(t)
    requires rest == "" || IsSpace(rest[0])
    ensures Split(t + rest) == [t] + Split(rest)
  {
    WordOfToken(t, rest);
    assert (t + rest)[0] == t[0];
    assert (t + rest)[|t|..] == rest;
  }

  /** Two tokens with whitespace (at least one character) between them split into exactly those two. */
  lemma SplitTwo(a: string, ws: string, b: string)
    requires AllSpace(ws) && |ws| > 0
    requires IsToken(a) && IsToken(b)
    ensures Split(a + ws + b) == [a, b]
  {
    var rest := ws + b;
    SplitSecond(ws, b);
    SplitToken(a, rest);
    assert a + ws + b == a + rest;
  }

  lemma SplitSecond(ws: string, b: string)
    requires AllSpace(ws) && |ws| > 0 && IsToken(b)
    ensures Split(ws + b) == [b] && IsSpace((ws + b)[0])
  {
    SplitSingle(b);
    SplitSkipsLeadingSpace(ws, b);
  }

  /** A single token splits into itself. */
  lemma SplitSingle(t: string)
    requires IsToken(t)
    ensures Split(t) == [t]
  {
    SplitToken(t, "");
    assert t + "" == t;
  }

  /** A last token with whitespace around it splits into just that token. */
  lemma SplitLastToken(ws1: string, b: string, ws2: string)
    requires AllSpace(ws1) && AllSpace(ws2) && IsToken(b)
    ensures Split(ws1 + (b + ws2)) == [b]
  {
    SplitSkipsLeadingSpace(ws1, b + ws2);
    SplitToken(b, ws2);
    SplitOfSpace(ws2);
  }

  /** Whitespace alone splits into nothing. */
  lemma SplitOfSpace(ws: string)
    requires AllSpace(ws)
    ensures Split(ws) == []
  {
    assert ws == ws + "";
    SplitSkipsLeadingSpace(ws, "");
  }

  /**
   * The digit part `int()` accepts, as a grammar: ASCII digits, where an underscore may
   * stand only between two digits.
   */
  predicate IsDigitPart(t: string)
  {
    |t| > 0 && IsDigit(t[0]) && IsDigit(t[|t| - 1]) &&
    (forall k :: 0 <= k < |t| ==> IsDigit(t[k]) || t[k] == '_') &&
    (forall k, j :: 0 <= k < |t| && j == k + 1 && j < |t| && t[k] == '_' ==> IsDigit(t[j]))
  }

  /**
   * Reads a digit part from the left, one digit (and the underscore after it) at a
   * time, and returns its digits with the underscores dropped, or None when the
   * characters are not a digit part.
   */
  function ReadDigits(t: string): (r: Option<string>)
    ensures r.Some? ==> |t| > 0 && IsDigit(t[0]) && IsDigit(t[|t| - 1])
    ensures r.Some? ==> |r.value| > 0 && IsDigits(r.value)
    decreases |t|
  {
    if |t| == 0 || !IsDigit(t[0]) then None
    else if |t| == 1 then Some(t)
    else
      var rest := if t[1] == '_' then t[2..] else t[1..];
      match ReadDigits(rest)
      case None => None
      case Some(d) => Some([t[0]] + d)
  }

  /** The reader accepts exactly the strings of the grammar. */
  lemma {:induction false} ReadDigitsAcceptsDigitPart(t: string)
    ensures ReadDigits(t).Some? <==> IsDigitPart(t)
    decreases |t|
  {
    if |t| >= 2 && IsDigit(t[0]) {
      var rest := if t[1] == '_' then t[2..] else t[1..];
      ReadDigitsAcceptsDigitPart(rest);
      if IsDigitPart(t) {
        if t[1] == '_' {
          assert |t| > 2 && IsDigit(t[2]);
        }
        assert IsDigitPart(rest);
      }
      if IsDigitPart(rest) {
        assert rest[|rest| - 1] == t[|t| - 1];
        forall k, j | 0 <= k < |t| && j == k + 1 && j < |t| && t[k] == '_'
          ensures IsDigit(t[j])
        {
          if k >= 2 || (k == 1 && t[1] != '_') {
            var off := |t| - |rest|;
            assert rest[k - off] == t[k] && rest[j - off] == t[j];
          }
        }
        assert forall k :: 0 <= k < |t| ==> IsDigit(t[k]) || t[k] == '_' by {
          forall k | 0 <= k < |t| ensures IsDigit(t[k]) || t[k] == '_' {
            if k >= |t| - |rest| {
              assert rest[k - (|t| - |rest|)] == t[k];
            }
          }
        }
      }
    }
  }

  /** A non-empty string of plain digits is read back unchanged. */
  lemma {:induction false} ReadDigitsOfDigits(s: string)
    requires |s| > 0 && IsDigits(s)
    ensures ReadDigits(s) == Some(s)
    decreases |s|
  {
    if |s| > 1 {
      ReadDigitsOfDigits(s[1..]);
      assert [s[0]] + s[1..] == s;
    }
  }

  /** The characters of `t` other than underscores, in order. */
  function DropUnderscores(t: string): string
    decreases |t|
  {
    if |t| == 0 then "" else (if t[0] == '_' then "" else [t[0]]) + DropUnderscores(t[1..])
  }

  /** What the reader returns is the digit part with the underscores dropped. */
  lemma {:induction false} ReadDigitsDropsUnderscores(t: string)
    ensures ReadDigits(t).Some? ==> ReadDigits(t).value == DropUnderscores(t)
    decreases |t|
  {
    if |t| == 1 && IsDigit(t[0]) {
      assert DropUnderscores(t) == [t[0]] + DropUnderscores(t[1..]);
      assert [t[0]] == t;
    } else if |t| >= 2 && IsDigit(t[0]) {
      var rest := if t[1] == '_' then t[2..] else t[1..];
      ReadDigitsDropsUnderscores(rest);
      if t[1] == '_' {
        assert t[1..][1..] == t[2..];
        assert DropUnderscores(t[1..]) == "" + DropUnderscores(t[2..]);
      }
    }
  }

  /** The value of a digit part, or None (ValueError) when `t` is not one. */
  function DigitPartValue(t: string): Option<nat>
  {
    match ReadDigits(t)
    case None => None
    case Some(d) => Some(DigitsValue(d))
  }

  /** Python's `int(t)` on one token: an optional sign and a digit part, else ValueError (None). */
  function ParseInt(t: string): (r: Option<int>)
    ensures r.Some? ==> |t| > 0 && IsDigit(t[|t| - 1])
  {
    if |t| > 0 && (t[0] == '+' || t[0] == '-') then
      match DigitPartValue(t[1..])
      case None => None
      case Some(n) => var v: int := n; Some(if t[0] == '-' then -v else v)
    else DigitPartValue(t)
  }

  /**
   * A digit part has a value exactly when it follows the grammar, and the value is that
   * of its digits with the underscores dropped.
   */
  lemma DigitPartValueMeaning(t: string)
    ensures DigitPartValue(t).Some? <==> IsDigitPart(t)
    ensures DigitPartValue(t).Some? ==>
      IsDigits(DropUnderscores(t)) && DigitPartValue(t).value == DigitsValue(DropUnderscores(t))
  {
    ReadDigitsAcceptsDigitPart(t);
    ReadDigitsDropsUnderscores(t);
  }

  /** `int(t)` succeeds exactly on an optional sign followed by a digit part. */
  lemma ParseIntAccepts(t: string)
    ensures ParseInt(t).Some? <==>
      IsDigitPart(t) || (|t| > 0 && (t[0] == '+' || t[0] == '-') && IsDigitPart(t[1..]))
  {
    ReadDigitsAcceptsDigitPart(t);
    if |t| > 0 {
      ReadDigitsAcceptsDigitPart(t[1..]);
    }
  }

  /** `int(str(i)) == i`. */
  lemma ParseIntOfIntToString(i: int)
    ensures ParseInt(IntToString(i)) == Some(i)
  {
    if i < 0 {
      ParseIntOfNegative(-i);
    } else {
      ParseIntOfNatural(i);
    }
  }

  lemma ParseIntOfNatural(n: nat)
    ensures ParseInt(NatToString(n)) == Some(n)
  {
    var s := NatToString(n);
    DigitPartValueOfNatToString(n);
    assert s[0] != '+' && s[0] != '-';
  }

  lemma ParseIntOfNegative(n: nat)
    ensures var v: int := n; ParseInt("-" + NatToString(n)) == Some(-v)
  {
    var s := NatToString(n);
    DigitPartValueOfNatToString(n);
    assert ("-" + s)[1..] == s;
  }

  /** The decimal text of `n` is a digit part worth `n`. */
  lemma DigitPartValueOfNatToString(n: nat)
    ensures DigitPartValue(NatToString(n)) == Some(n)
  {
    DigitsValueOfNatToString(n);
    ReadDigitsOfDigits(NatToString(n));
  }

  /** The three outcomes of the dimension field, and the empty field, which shows nothing. */
  datatype DimensionsResult = Empty | NotTwoIntegers | NonPositive | Dims(width: int, height: int)

  /**
   * `pixel_width, pixel_height = map(int, text.split())` with its ValueError, then the
   * positivity check; an empty field is skipped before any of this.
   */
  function ParseDimensions(text: string): (r: DimensionsResult)
    ensures r == Empty <==> text == ""
    ensures r.Dims? ==> r.width > 0 && r.height > 0
    ensures r.Dims? || r == NonPositive ==> |Split(text)| == 2
  {
    if text == "" then Empty
    else
      var toks := Split(text);
      if |toks| != 2 then NotTwoIntegers
      else match (ParseInt(toks[0]), ParseInt(toks[1]))
        case (Some(w), Some(h)) => if w <= 0 || h <= 0 then NonPositive else Dims(w, h)
        case _ => NotTwoIntegers
  }

  /** Any count of whitespace-separated pieces other than two is invalid input. */
  lemma WrongCountIsInvalid(text: string)
    requires text != "" && |Split(text)| != 2
    ensures ParseDimensions(text) == NotTwoIntegers
  {
  }

  /** Two pieces of which one is not an integer literal are invalid input (the ValueError). */
  lemma NonIntegerPieceIsInvalid(text: string, a: string, b: string)
    requires Split(text) == [a, b] && (ParseInt(a).None? || ParseInt(b).None?)
    ensures ParseDimensions(text) == NotTwoIntegers
  {
    assert text != "";
  }

  /** Whitespace around a non-empty field does not change its meaning. */
  lemma SurroundingSpaceIgnored(ws0: string, text: string, ws1: string)
    requires AllSpace(ws0) && AllSpace(ws1) && text != ""
    ensures ParseDimensions(ws0 + text + ws1) == ParseDimensions(text)
  {
    SplitIgnoresTrailingSpace(ws0 + text, ws1);
    SplitSkipsLeadingSpace(ws0, text);
  }

  /**
   * Two integers written out as Python writes them and separated by whitespace are read
   * back: a positive pair is accepted and any other pair is reported as not positive.
   */
  lemma ParsesWrittenPair(w: int, ws: string, h: int)
    requires AllSpace(ws) && |ws| > 0
    ensures w > 0 && h > 0 ==> ParseDimensions(IntToString(w) + ws + IntToString(h)) == Dims(w, h)
    ensures (w <= 0 || h <= 0) ==> ParseDimensions(IntToString(w) + ws + IntToString(h)) == NonPositive
  {
    var a, b := IntToString(w), IntToString(h);
    ParseIntOfIntToString(w);
    ParseIntOfIntToString(h);
    SplitTwo(a, ws, b);
    TwoPieces(a + ws + b, a, b);
  }

  /** The outcome for a field that splits into two pieces depends on those pieces only. */
  lemma TwoPieces(text: string, a: string, b: string)
    requires Split(text) == [a, b]
    ensures ParseInt(a).Some? && ParseInt(b).Some? ==>
      ParseDimensions(text) == (if ParseInt(a).value <= 0 || ParseInt(b).value <= 0 then NonPositive
                                else Dims(ParseInt(a).value, ParseInt(b).value))
  {
    assert text != "";
  }

  /** The field's default text. */
  lemma DefaultDimensions()
    ensures ParseDimensions("20 50") == Dims(20, 50)
  {
    SplitDefault();
    ParseIntOfIntToString(20);
    ParseIntOfIntToString(50);
    DecimalOfDefaults();
  }

  lemma SplitDefault()
    ensures Split("20 50") == ["20", "50"]
  {
    SplitLastToken(" ", "50", "");
    assert "20" + (" " + ("50" + "")) == "20 50";
    SplitToken("20", " " + ("50" + ""));
  }

  lemma DecimalOfDefaults()
    ensures IntToString(20) == "20" && IntToString(50) == "50"
  {
    assert NatToString(2) == "2" && NatToString(5) == "5";
  }
}
