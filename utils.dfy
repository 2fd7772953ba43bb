/**
 * Cache-key helpers and value conversions shared by the client: joining and splitting
 * `resource__id.association` keys, interpreting key lists, flattening key/value
 * collections and copying values into plain JSON objects.
 */
module Utils {
  import opened JsValues

  // ---------------------------------------------------------------------------
  // String.prototype.split and Array.prototype.join for a non-empty separator
  // ---------------------------------------------------------------------------

  /** `sep` occurs in `s` starting at index `i`. */
  predicate OccursAt(s: string, sep: string, i: nat) {
    i + |sep| <= |s| && s[i..i + |sep|] == sep
  }

  predicate Contains(s: string, sep: string) {
    exists i: nat | i <= |s| :: OccursAt(s, sep, i)
  }

  /** `s.indexOf(sep, from)`, with `None` for -1. */
  function IndexOf(s: string, sep: string, from: nat): (r: Option<nat>)
    requires sep != ""
    ensures r.Some? ==> from <= r.value && OccursAt(s, sep, r.value)
    ensures r.Some? ==> forall j: nat :: from <= j < r.value ==> !OccursAt(s, sep, j)
    ensures r.None? ==> forall j: nat :: from <= j ==> !OccursAt(s, sep, j)
    decreases |s| - from
  {
    if from + |sep| > |s| then None
    else if OccursAt(s, sep, from) then Some(from)
    else IndexOf(s, sep, from + 1)
  }

  /** `s.split(sep)`: the pieces between successive non-overlapping occurrences of `sep`. */
  function Split(s: string, sep: string): (parts: seq<string>)
    requires sep != ""
    ensures |parts| >= 1
    ensures IndexOf(s, sep, 0).None? ==> parts == [s]
    ensures IndexOf(s, sep, 0).Some? ==> |parts| >= 2
    decreases |s|
  {
    match IndexOf(s, sep, 0)
    case None => [s]
    case Some(i) => [s[..i]] + Split(s[i + |sep|..], sep)
  }

  /** `parts.join(sep)` */
  function Join(parts: seq<string>, sep: string): string {
    if |parts| == 0 then ""
    else if |parts| == 1 then parts[0]
    else parts[0] + sep + Join(parts[1..], sep)
  }

  /** Splitting and joining again with the same separator gives the string back. */
  lemma {:induction false} SplitJoin(s: string, sep: string)
    requires sep != ""
    ensures Join(Split(s, sep), sep) == s
    decreases |s|
  {
    match IndexOf(s, sep, 0)
    case None =>
    case Some(i) =>
      var rest := s[i + |sep|..];
      SplitJoin(rest, sep);
      var tail := Split(rest, sep);
      assert Split(s, sep) == [s[..i]] + tail;
      assert ([s[..i]] + tail)[1..] == tail;
      assert s == s[..i] + sep + rest;
  }

  /** A split has several pieces exactly when the separator occurs. */
  lemma SplitSingle(s: string, sep: string)
    requires sep != ""
    ensures |Split(s, sep)| == 1 <==> !Contains(s, sep)
  {
    match IndexOf(s, sep, 0)
    case None =>
    case Some(i) =>
      assert OccursAt(s, sep, i);
  }

  /** No piece of a split contains the separator. */
  lemma {:induction false} SplitPiecesFree(s: string, sep: string)
    requires sep != ""
    ensures forall i :: 0 <= i < |Split(s, sep)| ==> !Contains(Split(s, sep)[i], sep)
    decreases |s|
  {
    var parts := Split(s, sep);
    match IndexOf(s, sep, 0)
    case None =>
    case Some(i) =>
      var rest := s[i + |sep|..];
      SplitPiecesFree(rest, sep);
      assert parts == [s[..i]] + Split(rest, sep);
      forall j: nat | OccursAt(s[..i], sep, j)
        ensures false
      {
        assert s[..i][j..j + |sep|] == s[j..j + |sep|];
        assert OccursAt(s, sep, j);
      }
  }

  /** When `sep` first occurs at `k`, the search from any earlier start finds it there. */
  lemma {:induction false} IndexOfFirst(s: string, sep: string, from: nat, k: nat)
    requires sep != "" && from <= k && OccursAt(s, sep, k)
    requires forall j: nat :: from <= j < k ==> !OccursAt(s, sep, j)
    ensures IndexOf(s, sep, from) == Some(k)
    decreases k - from
  {
    if from < k {
      IndexOfFirst(s, sep, from + 1, k);
    }
  }

  /** Splitting `a + sep + b`, where `sep` does not start inside `a`, peels off `a`. */
  lemma SplitAround(a: string, sep: string, b: string)
    requires sep != ""
    requires forall j: nat :: j < |a| ==> !OccursAt(a + sep + b, sep, j)
    ensures Split(a + sep + b, sep) == [a] + Split(b, sep)
  {
    var s := a + sep + b;
    assert s[|a|..|a| + |sep|] == sep;
    IndexOfFirst(s, sep, 0, |a|);
    assert s[..|a|] == a;
    assert s[|a| + |sep|..] == b;
  }

  lemma SplitWithout(s: string, sep: string)
    requires sep != "" && !Contains(s, sep)
    ensures Split(s, sep) == [s]
  {
    SplitSingle(s, sep);
  }

  /** A separator occurrence inside a prefix is an occurrence in the whole string. */
  lemma OccursInPrefix(a: string, rest: string, sep: string, j: nat)
    requires j + |sep| <= |a| && OccursAt(a + rest, sep, j)
    ensures OccursAt(a, sep, j)
  {
    assert (a + rest)[j..j + |sep|] == a[j..j + |sep|];
  }

  // ---------------------------------------------------------------------------
  // Number(text): the string-to-number conversion, for texts naming a finite integer
  // ---------------------------------------------------------------------------

  /** The white space and line terminators that `Number` and `String.prototype.trim` strip. */
  predicate IsJsSpace(c: char) {
    c == '\t' || c == '\n' || c == '\U{000B}' || c == '\U{000C}' || c == '\r' || c == ' '
    || c == '\U{00A0}' || c == '\U{1680}' || ('\U{2000}' <= c <= '\U{200A}')
    || c == '\U{2028}' || c == '\U{2029}' || c == '\U{202F}' || c == '\U{205F}'
    || c == '\U{3000}' || c == '\U{FEFF}'
  }

  /** `s` without its leading white space. */
  function TrimStart(s: string): (r: string)
    ensures r == [] || !IsJsSpace(r[0])
    decreases |s|
  {
    if s != [] && IsJsSpace(s[0]) then TrimStart(s[1..]) else s
  }

  /** `s` without its trailing white space. */
  function TrimEnd(s: string): (r: string)
    ensures r == [] || !IsJsSpace(r[|r| - 1])
    decreases |s|
  {
    if s != [] && IsJsSpace(s[|s| - 1]) then TrimEnd(s[..|s| - 1]) else s
  }

  /** `String.prototype.trim`. */
  function Trimmed(s: string): string {
    TrimEnd(TrimStart(s))
  }

  /** The value of a digit in radix 36 (`0`-`9`, then letters of either case); 36 for any other character. */
  function DigitValue(c: char): nat {
    if '0' <= c <= '9' then c as int - '0' as int
    else if 'a' <= c <= 'z' then c as int - 'a' as int + 10
    else if 'A' <= c <= 'Z' then c as int - 'A' as int + 10
    else 36
  }

  predicate AllDigits(s: string, radix: nat) {
    forall i :: 0 <= i < |s| ==> DigitValue(s[i]) < radix
  }

  /** The value of a string of digits in the given radix. */
  function DigitsValue(s: string, radix: nat): nat
    requires AllDigits(s, radix)
    decreases |s|
  {
    if s == [] then 0 else DigitsValue(s[..|s| - 1], radix) * radix + DigitValue(s[|s| - 1])
  }

  lemma {:induction false} DigitsValueOfNatToString(n: nat)
    ensures AllDigits(NatToString(n), 10)
    ensures DigitsValue(NatToString(n), 10) == n
    decreases n
  {
    if n >= 10 {
      var p := NatToString(n / 10);
      DigitsValueOfNatToString(n / 10);
      var s := p + [DigitChar(n % 10)];
      assert s == NatToString(n);
      assert s[..|s| - 1] == p;
    }
  }

  function Pow10(e: nat): (p: nat)
    ensures p >= 1
  {
    if e == 0 then 1 else 10 * Pow10(e - 1)
  }

  /** The first index of `s` holding one of `cs`. */
  function FirstIndexIn(s: string, cs: set<char>): (r: Option<nat>)
    ensures r.Some? ==> r.value < |s| && s[r.value] in cs
    ensures r.Some? ==> forall i :: 0 <= i < r.value ==> s[i] !in cs
    ensures r.None? ==> forall i :: 0 <= i < |s| ==> s[i] !in cs
    decreases |s|
  {
    if s == [] then None
    else if s[0] in cs then Some(0)
    else match FirstIndexIn(s[1..], cs)
      case None => None
      case Some(k) => Some(k + 1)
  }

  /** An exponent: decimal digits with an optional sign. */
  function ExponentValue(s: string): Option<int> {
    if s != [] && (s[0] == '+' || s[0] == '-') then
      var digits := s[1..];
      if digits != [] && AllDigits(digits, 10) then
        var magnitude: int := DigitsValue(digits, 10);
        Some(if s[0] == '-' then -magnitude else magnitude)
      else None
    else if s != [] && AllDigits(s, 10) then Some(DigitsValue(s, 10))
    else None
  }

  /** The exact value `mantissa * 10^scale` of a decimal literal. */
  datatype Decimal = Decimal(mantissa: nat, scale: int)

  /**
   * The mantissa part of a decimal literal, `digits[.digits]` where one of the two digit
   * runs around the point may be empty, scaled by the exponent that followed it.
   */
  function DecimalBody(body: string, exponent: int): Option<Decimal> {
    var point := FirstIndexIn(body, {'.'});
    var whole := if point.Some? then body[..point.value] else body;
    var fraction := if point.Some? then body[point.value + 1..] else "";
    if whole + fraction != [] && AllDigits(whole + fraction, 10) then
      Some(Decimal(DigitsValue(whole + fraction, 10), exponent - |fraction|))
    else None
  }

  /**
   * An unsigned decimal literal, `digits[.digits][(e|E)[+|-]digits]` where one of the two
   * digit runs around the point may be empty; `None` for any other text.
   */
  function UnsignedDecimal(s: string): Option<Decimal> {
    match FirstIndexIn(s, {'e', 'E'})
    case None => DecimalBody(s, 0)
    case Some(e) =>
      match ExponentValue(s[e + 1..])
      case None => None
      case Some(x) => DecimalBody(s[..e], x)
  }

  /** The decimal's value when it is an integer. */
  function IntegerOf(d: Decimal): Option<int> {
    if d.scale >= 0 then Some(d.mantissa * Pow10(d.scale))
    else if d.mantissa % Pow10(-d.scale) == 0 then Some(d.mantissa / Pow10(-d.scale))
    else None
  }

  /** The radix a `0x`, `0o` or `0b` prefix (either case) selects. */
  function PrefixRadix(c: char): nat {
    if c == 'x' || c == 'X' then 16 else if c == 'o' || c == 'O' then 8
    else if c == 'b' || c == 'B' then 2 else 0
  }

  /** A `0x`, `0o` or `0b` literal with at least one digit of its radix, and no other character. */
  predicate IsPrefixedLiteral(t: string) {
    |t| > 2 && t[0] == '0' && PrefixRadix(t[1]) != 0 && AllDigits(t[2..], PrefixRadix(t[1]))
  }

  /** The integer an unsigned decimal literal names, when it names one. */
  function DecimalInteger(s: string): Option<int> {
    match UnsignedDecimal(s)
    case None => None
    case Some(d) => IntegerOf(d)
  }

  function Negated(n: Option<int>): Option<int> {
    if n.Some? then Some(-n.value) else None
  }

  /** The integer an already trimmed, non-empty numeric literal names, when it names one. */
  function LiteralInteger(t: string): Option<int> {
    if IsPrefixedLiteral(t) then Some(DigitsValue(t[2..], PrefixRadix(t[1])))
    else if t != [] && t[0] == '-' then Negated(DecimalInteger(t[1..]))
    else if t != [] && t[0] == '+' then DecimalInteger(t[1..])
    else DecimalInteger(t)
  }

  /**
   * `Number(text)` when it is a finite integer: surrounding white space is ignored, a
   * blank text is 0, and otherwise the text is a `0x`/`0o`/`0b` literal or a signed
   * decimal literal with an optional fraction and exponent whose value is an integer.
   * `None` stands for every other outcome: NaN, an infinity, or a fractional number.
   * Literals are read exactly, without rounding to the nearest double.
   */
  function NumberOf(text: string): Option<int> {
    var t := Trimmed(text);
    if t == "" then Some(0) else LiteralInteger(t)
  }

  /** A text without white space at either end is its own trimming. */
  lemma TrimmedUnspaced(s: string)
    requires s == [] || (!IsJsSpace(s[0]) && !IsJsSpace(s[|s| - 1]))
    ensures Trimmed(s) == s
  {
  }

  /** A run of decimal digits is a decimal body with no fraction. */
  lemma DecimalBodyOfDigits(d: string, exponent: int)
    requires d != [] && AllDigits(d, 10)
    ensures DecimalBody(d, exponent) == Some(Decimal(DigitsValue(d, 10), exponent))
  {
    NoPointInDigits(d);
    assert d + "" == d;
  }

  /** A run of decimal digits reads as an unsigned decimal literal with scale 0. */
  lemma UnsignedDecimalOfDigits(d: string)
    requires d != [] && AllDigits(d, 10)
    ensures UnsignedDecimal(d) == Some(Decimal(DigitsValue(d, 10), 0))
  {
    assert FirstIndexIn(d, {'e', 'E'}) == None by {
      forall i | 0 <= i < |d| ensures d[i] !in {'e', 'E'} { assert DigitValue(d[i]) < 10; }
    }
    DecimalBodyOfDigits(d, 0);
  }

  lemma DecimalIntegerOfDigits(d: string)
    requires d != [] && AllDigits(d, 10)
    ensures DecimalInteger(d) == Some(DigitsValue(d, 10) as int)
  {
    UnsignedDecimalOfDigits(d);
  }

  /** Decimal digits read as the integer they spell. */
  lemma LiteralIntegerOfDigits(d: string)
    requires d != [] && AllDigits(d, 10)
    ensures LiteralInteger(d) == Some(DigitsValue(d, 10) as int)
  {
    assert DigitValue(d[0]) < 10;
    assert |d| > 1 ==> DigitValue(d[1]) < 10;
    UnsignedLiteral(d);
    DecimalIntegerOfDigits(d);
  }

  /** A literal without a sign or a radix prefix is read as an unsigned decimal literal. */
  lemma UnsignedLiteral(t: string)
    requires t != [] && t[0] != '-' && t[0] != '+' && !IsPrefixedLiteral(t)
    ensures LiteralInteger(t) == DecimalInteger(t)
  {
  }

  /** A literal with a minus and no radix prefix is read as a negated unsigned decimal literal. */
  lemma MinusLiteral(t: string)
    requires t != [] && t[0] == '-' && !IsPrefixedLiteral(t)
    ensures LiteralInteger(t) == Negated(DecimalInteger(t[1..]))
  {
  }

  /** A minus followed by decimal digits reads as the negated integer the digits spell. */
  lemma LiteralIntegerOfNegatedDigits(t: string)
    requires |t| >= 2 && t[0] == '-' && AllDigits(t[1..], 10)
    ensures LiteralInteger(t) == Some(-(DigitsValue(t[1..], 10) as int))
  {
    MinusLiteral(t);
    DecimalIntegerOfDigits(t[1..]);
  }

  /** Printing an integer and reading it back with `Number` gives the integer. */
  lemma NumberOfIntToString(n: int)
    ensures NumberOf(IntToString(n)) == Some(n)
  {
    var t := IntToString(n);
    assert t[0] == '-' || IsDigit(t[0]);
    assert t[|t| - 1] == '-' || IsDigit(t[|t| - 1]);
    TrimmedUnspaced(t);
    var m: nat := if n >= 0 then n else -n;
    DigitsValueOfNatToString(m);
    if n >= 0 {
      LiteralIntegerOfDigits(NatToString(m));
    } else {
      assert t[1..] == NatToString(m);
      LiteralIntegerOfNegatedDigits(t);
    }
  }

  lemma TrimStartOneSpace(c: char, s: string)
    requires IsJsSpace(c) && s != [] && !IsJsSpace(s[0])
    ensures TrimStart([c] + s) == s
  {
    assert ([c] + s)[1..] == s;
  }

  /** The first exponent mark of decimal digits, an `e` and an exponent is that `e`. */
  lemma ExponentMarkAfterDigits(w: string, x: string)
    requires AllDigits(w, 10)
    ensures FirstIndexIn(w + "e" + x, {'e', 'E'}) == Some(|w|)
    ensures (w + "e" + x)[..|w|] == w && (w + "e" + x)[|w| + 1..] == x
  {
    var s := w + "e" + x;
    assert s[|w|] == 'e';
    forall i | 0 <= i < |w| ensures s[i] !in {'e', 'E'} {
      assert s[i] == w[i] && DigitValue(w[i]) < 10;
    }
    assert s[..|w|] == w && s[|w| + 1..] == x;
  }

  /** Decimal digits hold no point. */
  lemma NoPointInDigits(w: string)
    requires AllDigits(w, 10)
    ensures FirstIndexIn(w, {'.'}) == None
  {
    forall i | 0 <= i < |w| ensures w[i] !in {'.'} { assert DigitValue(w[i]) < 10; }
  }

  /** Decimal digits, an `e` and an exponent read as an unsigned decimal literal exactly when the exponent is well formed. */
  lemma UnsignedDecimalWithExponent(w: string, x: string)
    requires w != [] && AllDigits(w, 10)
    ensures UnsignedDecimal(w + "e" + x) ==
              if ExponentValue(x).Some? then Some(Decimal(DigitsValue(w, 10), ExponentValue(x).value)) else None
  {
    ExponentMarkAfterDigits(w, x);
    if ExponentValue(x).Some? {
      DecimalBodyOfDigits(w, ExponentValue(x).value);
    }
  }

  /** A text from a non-zero digit to a digit is read by `Number` as an unsigned decimal literal. */
  lemma NumberOfDecimalText(t: string)
    requires t != [] && '1' <= t[0] <= '9' && '0' <= t[|t| - 1] <= '9'
    ensures NumberOf(t) == DecimalInteger(t)
  {
    TrimmedUnspaced(t);
    assert !IsPrefixedLiteral(t);
  }

  lemma NumberOfExponentText()
    ensures NumberOf("1e3") == Some(1000)
  {
    var w, x := "1", "3";
    assert ExponentValue(x) == Some(3);
    assert DigitsValue(w, 10) == 1;
    UnsignedDecimalWithExponent(w, x);
    assert IntegerOf(Decimal(1, 3)) == Some(1000) by {
      assert Pow10(3) == 1000;
    }
    NumberOfDecimalText(w + "e" + x);
    assert w + "e" + x == "1e3";
  }

  lemma NumberOfHexText()
    ensures NumberOf("0x1F") == Some(31)
  {
    var t := "0x1F";
    TrimmedUnspaced(t);
    assert t[2..] == "1F";
    assert DigitsValue("1F", 16) == 31 by {
      assert "1F"[..1] == "1";
      assert DigitsValue("1", 16) == 1;
    }
  }

  lemma NumberOfSpacedText()
    ensures NumberOf(" 7") == Some(7)
  {
    TrimStartOneSpace(' ', "7");
    assert [' '] + "7" == " 7";
    TrimmedUnspaced("7");
    LiteralIntegerOfDigits("7");
    assert DigitsValue("7", 10) == 7;
  }

  lemma NumberOfBlankText()
    ensures NumberOf("   ") == Some(0)
  {
    NumberOfIgnoresSpace("   ", "", "");
    assert "   " + "" + "" == "   ";
    assert Trimmed("") == "";
  }

  lemma NumberOfFractionText()
    ensures NumberOf("15e-1") == None
  {
    var w, x := "15", "-1";
    assert ExponentValue(x) == Some(-1) by {
      assert x[1..] == "1";
      assert DigitsValue("1", 10) == 1;
    }
    assert DigitsValue(w, 10) == 15 by {
      assert w[..1] == "1";
    }
    UnsignedDecimalWithExponent(w, x);
    assert IntegerOf(Decimal(15, -1)) == None by {
      assert Pow10(1) == 10;
    }
    NumberOfDecimalText(w + "e" + x);
    assert w + "e" + x == "15e-1";
  }

  lemma UnsignedDecimalNeedsDigit(s: string)
    requires s != [] && DigitValue(s[0]) >= 10 && s[0] !in {'e', 'E', '.'}
    ensures UnsignedDecimal(s) == None
  {
    match FirstIndexIn(s, {'e', 'E'})
    case None =>
      DecimalBodyNeedsDigit(s, 0);
    case Some(e) =>
      assert s[..e][0] == s[0];
      if x :| ExponentValue(s[e + 1..]) == Some(x) {
        DecimalBodyNeedsDigit(s[..e], x);
      }
  }

  /** A body that starts with a character other than a digit or a point has no mantissa. */
  lemma DecimalBodyNeedsDigit(body: string, exponent: int)
    requires body != [] && DigitValue(body[0]) >= 10 && body[0] != '.'
    ensures DecimalBody(body, exponent) == None
  {
    var point := FirstIndexIn(body, {'.'});
    var whole := if point.Some? then body[..point.value] else body;
    var fraction := if point.Some? then body[point.value + 1..] else "";
    assert whole != [] && (whole + fraction)[0] == body[0];
  }

  lemma NumberOfInfinityText()
    ensures NumberOf("Infinity") == None
  {
    var t := "Infinity";
    TrimmedUnspaced(t);
    UnsignedDecimalNeedsDigit(t);
  }

  /**
   * What `Number` reads, by example: an exponent, a hexadecimal literal, surrounding
   * white space and a blank text give integers; a fraction and an infinity do not.
   */
  lemma NumberOfExamples()
    ensures NumberOf("1e3") == Some(1000) && NumberOf("0x1F") == Some(31)
    ensures NumberOf(" 7") == Some(7) && NumberOf("   ") == Some(0)
    ensures NumberOf("15e-1") == None && NumberOf("Infinity") == None
  {
    NumberOfExponentText();
    NumberOfHexText();
    NumberOfSpacedText();
    NumberOfBlankText();
    NumberOfFractionText();
    NumberOfInfinityText();
  }

  /** White space around a text does not change what `Number` reads. */
  lemma {:induction false} NumberOfIgnoresSpace(before: string, text: string, after: string)
    requires forall i :: 0 <= i < |before| ==> IsJsSpace(before[i])
    requires forall i :: 0 <= i < |after| ==> IsJsSpace(after[i])
    ensures NumberOf(before + text + after) == NumberOf(text)
  {
    TrimStartSpaced(before, text + after);
    assert before + text + after == before + (text + after);
    TrimEndSpaced(TrimStart(text), after);
    TrimStartAppend(text, after);
  }

  lemma {:induction false} TrimStartSpaced(before: string, x: string)
    requires forall i :: 0 <= i < |before| ==> IsJsSpace(before[i])
    ensures TrimStart(before + x) == TrimStart(x)
    decreases |before|
  {
    if before != [] {
      assert IsJsSpace((before + x)[0]);
      assert (before + x)[1..] == before[1..] + x;
      TrimStartSpaced(before[1..], x);
    } else {
      assert before + x == x;
    }
  }

  lemma {:induction false} TrimEndSpaced(y: string, after: string)
    requires forall i :: 0 <= i < |after| ==> IsJsSpace(after[i])
    ensures TrimEnd(y + after) == TrimEnd(y)
    decreases |after|
  {
    if after != [] {
      var a := after[..|after| - 1];
      assert (y + after)[..|y + after| - 1] == y + a;
      TrimEndSpaced(y, a);
    } else {
      assert y + after == y;
    }
  }

  /** Trailing white space does not survive trimming. */
  lemma {:induction false} TrimStartAppend(text: string, after: string)
    requires forall i :: 0 <= i < |after| ==> IsJsSpace(after[i])
    ensures TrimEnd(TrimStart(text + after)) == TrimEnd(TrimStart(text))
    decreases |text|
  {
    if text == [] {
      assert text + after == after;
      TrimStartSpaced(after, []);
      assert after + [] == after;
    } else if IsJsSpace(text[0]) {
      assert (text + after)[1..] == text[1..] + after;
      TrimStartAppend(text[1..], after);
    } else {
      TrimEndSpaced(text, after);
    }
  }

  // ---------------------------------------------------------------------------
  // Cache keys: resource__id.association
  // ---------------------------------------------------------------------------

  const KeySep := "__"

  /** `keyResource`: the text before the first `__`. */
  function KeyResource(key: string): (r: string)
    ensures !Contains(r, KeySep)
    ensures !Contains(key, KeySep) ==> r == key
  {
    SplitPiecesFree(key, KeySep);
    SplitSingle(key, KeySep);
    Split(key, KeySep)[0]
  }

  /** `keyId`: the text between the first and second `__`, or `undefined` when there is none. */
  function KeyId(key: string): (r: Value)
    ensures r == Undefined <==> !Contains(key, KeySep)
    ensures r.Str? ==> !Contains(r.s, KeySep)
  {
    SplitPiecesFree(key, KeySep);
    SplitSingle(key, KeySep);
    var parts := Split(key, KeySep);
    if |parts| >= 2 then Str(parts[1]) else Undefined
  }

  /** An id segment as `keySplit` reports it: a number when `Number` reads it as one. */
  function IdValue(text: string): Value {
    match NumberOf(text)
    case Some(n) => Num(n)
    case None => Str(text)
  }

  /**
   * `keySplit`: the resource; then, when the key has an id segment, the id (as a number
   * when it reads as one); then, when the id segment has a '.', the text between its first
   * and second '.' (the association).
   */
  function KeySplit(key: string): (r: seq<Value>)
    ensures 1 <= |r| <= 3
    ensures r[0] == Str(KeyResource(key))
    ensures |r| == 1 <==> !Contains(key, KeySep)
  {
    SplitSingle(key, KeySep);
    var parts := Split(key, KeySep);
    if |parts| < 2 then [Str(parts[0])]
    else
      var idParts := Split(parts[1], ".");
      if |idParts| >= 2 then [Str(parts[0]), IdValue(idParts[0]), Str(idParts[1])]
      else [Str(parts[0]), IdValue(idParts[0])]
  }

  /** The conditions under which `r` is recovered as the resource of `r + "__" + rest`. */
  predicate IsResourceName(r: string) {
    !Contains(r, KeySep) && (r == "" || r[|r| - 1] != '_')
  }

  lemma SplitAfterResource(r: string, rest: string)
    requires IsResourceName(r)
    ensures Split(r + KeySep + rest, KeySep) == [r] + Split(rest, KeySep)
  {
    var s := r + KeySep + rest;
    forall j: nat | j < |r|
      ensures !OccursAt(s, KeySep, j)
    {
      if j + 2 <= |r| {
        if OccursAt(s, KeySep, j) {
          OccursInPrefix(r, KeySep + rest, KeySep, j);
          assert false;
        }
      } else {
        assert s[j] == r[|r| - 1];
      }
    }
    assert s == r + KeySep + rest;
    SplitAround(r, KeySep, rest);
  }

  /**
   * A key built from a resource, an id and an association splits back into them: the id
   * as `Number` reads it, the association verbatim.
   */
  lemma KeySplitOfParts(r: string, id: string, assoc: string)
    requires IsResourceName(r)
    requires !Contains(id + "." + assoc, KeySep)
    requires !Contains(id, ".") && !Contains(assoc, ".")
    ensures KeySplit(r + KeySep + id + "." + assoc) == [Str(r), IdValue(id), Str(assoc)]
  {
    var rest := id + "." + assoc;
    assert r + KeySep + id + "." + assoc == r + KeySep + rest;
    SplitAfterResource(r, rest);
    SplitWithout(rest, KeySep);
    forall j: nat | j < |id|
      ensures !OccursAt(id + "." + assoc, ".", j)
    {
      if OccursAt(id + "." + assoc, ".", j) {
        OccursInPrefix(id, "." + assoc, ".", j);
        assert false;
      }
    }
    SplitAround(id, ".", assoc);
    SplitWithout(assoc, ".");
  }

  /** `keySplit(r + "__" + id)` gives back the resource and the id as `Number` reads it. */
  lemma KeySplitOfResourceAndIdText(r: string, id: string)
    requires IsResourceName(r)
    requires !Contains(id, KeySep) && !Contains(id, ".")
    ensures KeySplit(r + KeySep + id) == [Str(r), IdValue(id)]
  {
    SplitAfterResource(r, id);
    SplitWithout(id, KeySep);
    SplitWithout(id, ".");
  }

  /** `keySplit(keyJoin(r, n))` gives back the resource and the integer id. */
  lemma KeySplitOfResourceAndId(r: string, n: int)
    requires IsResourceName(r)
    ensures KeySplit(r + KeySep + IntToString(n)) == [Str(r), Num(n)]
  {
    var t := IntToString(n);
    forall j: nat | j + 2 <= |t|
      ensures !OccursAt(t, KeySep, j)
    {
      assert t[j] == t[j..j + 2][0];
    }
    forall j: nat | j < |t|
      ensures !OccursAt(t, ".", j)
    {
      assert t[j] == t[j..j + 1][0];
    }
    KeySplitOfResourceAndIdText(r, t);
    NumberOfIntToString(n);
  }

  /** The key `order__1e3` names order 1000. */
  lemma KeySplitExponentId()
    ensures KeySplit("order__1e3") == [Str("order"), Num(1000)]
  {
    var id := "1e3";
    forall j: nat | j + 2 <= |id| ensures !OccursAt(id, KeySep, j) {
      assert id[j..j + 2][0] == id[j];
    }
    forall j: nat | j < |id| ensures !OccursAt(id, ".", j) {
      assert id[j..j + 1][0] == id[j];
    }
    assert IsResourceName("order") by {
      forall j: nat | j <= 5 ensures !OccursAt("order", KeySep, j) {
        if j + 2 <= 5 { assert "order"[j..j + 2][0] == "order"[j]; }
      }
    }
    assert "order" + KeySep + id == "order__1e3";
    KeySplitOfResourceAndIdText("order", id);
    NumberOfExponentText();
  }

  // ---------------------------------------------------------------------------
  // keyJoin
  // ---------------------------------------------------------------------------

  function Strings(args: seq<Value>): (strs: seq<string>)
    ensures |strs| == |args|
    ensures forall i :: 0 <= i < |args| ==> strs[i] == ToStr(args[i])
  {
    seq(|args|, i requires 0 <= i < |args| => ToStr(args[i]))
  }

  /**
   * The text `keyJoin` accumulates over `strs`: each piece is appended after `__`, except
   * that while the text so far is empty the next piece replaces it.
   */
  function AccumulatedKey(strs: seq<string>): string
    decreases |strs|
  {
    if strs == [] then ""
    else
      var acc := AccumulatedKey(strs[..|strs| - 1]);
      if acc == "" then strs[|strs| - 1] else acc + KeySep + strs[|strs| - 1]
  }

  lemma {:induction false} JoinAppend(strs: seq<string>, s: string, sep: string)
    requires |strs| > 0
    ensures Join(strs + [s], sep) == Join(strs, sep) + sep + s
    decreases |strs|
  {
    if |strs| > 1 {
      JoinAppend(strs[1..], s, sep);
      assert (strs + [s])[1..] == strs[1..] + [s];
    }
  }

  /** With no empty piece, the accumulated key is the pieces joined by `__`. */
  lemma {:induction false} AccumulatedKeyIsJoin(strs: seq<string>)
    requires forall i :: 0 <= i < |strs| ==> strs[i] != ""
    ensures AccumulatedKey(strs) == Join(strs, KeySep)
    ensures |strs| > 0 ==> AccumulatedKey(strs) != ""
    decreases |strs|
  {
    if |strs| > 1 {
      var init := strs[..|strs| - 1];
      AccumulatedKeyIsJoin(init);
      JoinAppend(init, strs[|strs| - 1], KeySep);
      assert init + [strs[|strs| - 1]] == strs;
    }
  }

  /**
   * `keyJoin(args...)`: null when there are no arguments or any argument is falsy;
   * otherwise the arguments' strings joined by `__`.
   */
  method KeyJoin(args: seq<Value>) returns (r: Value)
    ensures r == Null <==> |args| == 0 || exists i :: 0 <= i < |args| && !Truthy(args[i])
    ensures r != Null ==> r == Str(AccumulatedKey(Strings(args)))
    ensures r != Null && (forall i :: 0 <= i < |args| ==> ToStr(args[i]) != "") ==>
              r == Str(Join(Strings(args), KeySep))
  {
    r := Null;
    var i := 0;
    while i < |args|
      invariant 0 <= i <= |args|
      invariant forall j :: 0 <= j < i ==> Truthy(args[j])
      invariant i == 0 ==> r == Null
      invariant i > 0 ==> r == Str(AccumulatedKey(Strings(args[..i])))
    {
      var v := args[i];
      if !Truthy(v) {
        return Null;
      }
      assert Strings(args[..i + 1])[..i] == Strings(args[..i]);
      if r == Null || r == Str("") {
        r := Str(ToStr(v));
      } else {
        r := Str(r.s + KeySep + ToStr(v));
      }
      i := i + 1;
    }
    assert args[..i] == args;
    if r != Null && (forall j :: 0 <= j < |args| ==> ToStr(args[j]) != "") {
      AccumulatedKeyIsJoin(Strings(args));
    }
  }

  // ---------------------------------------------------------------------------
  // interpretKeys
  // ---------------------------------------------------------------------------

  function StrValues(parts: seq<string>): (vs: seq<Value>)
    ensures |vs| == |parts|
    ensures forall i :: 0 <= i < |parts| ==> vs[i] == Str(parts[i])
  {
    seq(|parts|, i requires 0 <= i < |parts| => Str(parts[i]))
  }

  /**
   * `interpretKeys`: an array is taken as it is; a string is a comma-separated list of
   * keys, none containing a comma, that joined again give the string; anything else
   * names no keys.
   */
  function InterpretKeys(keys: Value): (r: seq<Value>)
    ensures keys.Arr? ==> r == keys.items
    ensures keys.Str? ==> |r| >= 1 && (forall i :: 0 <= i < |r| ==> r[i].Str? && !Contains(r[i].s, ","))
    ensures keys.Str? ==> Join(seq(|r|, i requires 0 <= i < |r| => r[i].s), ",") == keys.s
    ensures !keys.Arr? && !keys.Str? ==> r == []
  {
    match keys
    case Arr(items) => items
    case Str(s) =>
      var parts := Split(s, ",");
      SplitPiecesFree(s, ",");
      SplitJoin(s, ",");
      var r := StrValues(parts);
      assert seq(|r|, i requires 0 <= i < |r| => r[i].s) == parts;
      r
    case _ => []
  }

  // ---------------------------------------------------------------------------
  // toKeyValueArray
  // ---------------------------------------------------------------------------

  /** `_.flatten(xs, true)`: nested arrays are opened one level deep. */
  function FlattenOnce(xs: seq<Value>): seq<Value> {
    if xs == [] then []
    else (if xs[0].Arr? then xs[0].items else [xs[0]]) + FlattenOnce(xs[1..])
  }

  /** `_.flatten(xs)`: nested arrays are opened at every depth. */
  function FlattenDeep(xs: seq<Value>): seq<Value>
    decreases xs
  {
    if xs == [] then []
    else (if xs[0].Arr? then FlattenDeep(xs[0].items) else [xs[0]]) + FlattenDeep(xs[1..])
  }

  /** A deep flattening holds no arrays. */
  lemma {:induction false} FlattenDeepHasNoArrays(xs: seq<Value>)
    ensures forall i :: 0 <= i < |FlattenDeep(xs)| ==> !FlattenDeep(xs)[i].Arr?
    decreases xs
  {
    if xs != [] {
      FlattenDeepHasNoArrays(xs[1..]);
      if xs[0].Arr? {
        FlattenDeepHasNoArrays(xs[0].items);
      }
    }
  }

  /** `ps` lists every entry of `m` exactly once, in some order. */
  predicate Enumerates(ps: seq<(string, Value)>, m: map<string, Value>) {
    (forall i :: 0 <= i < |ps| ==> ps[i].0 in m && m[ps[i].0] == ps[i].1)
    && (forall i, j :: 0 <= i < j < |ps| ==> ps[i].0 != ps[j].0)
    && (forall k :: k in m ==> exists i :: 0 <= i < |ps| && ps[i].0 == k)
  }

  /**
   * `_.pairs(o)` for an object: its entries in the engine's enumeration order, which is
   * left unspecified here.
   */
  method Pairs(m: map<string, Value>) returns (ps: seq<(string, Value)>)
    ensures Enumerates(ps, m)
  {
    ps := [];
    var remaining := m.Keys;
    while remaining != {}
      invariant remaining <= m.Keys
      invariant forall i :: 0 <= i < |ps| ==> ps[i].0 in m && ps[i].0 !in remaining && m[ps[i].0] == ps[i].1
      invariant forall i, j :: 0 <= i < j < |ps| ==> ps[i].0 != ps[j].0
      invariant forall k :: k in m && k !in remaining ==> exists i :: 0 <= i < |ps| && ps[i].0 == k
      decreases remaining
    {
      var k :| k in remaining;
      var before := ps;
      ps := ps + [(k, m[k])];
      assert forall i :: 0 <= i < |before| ==> ps[i] == before[i];
      assert ps[|ps| - 1].0 == k;
      remaining := remaining - {k};
    }
  }

  /** The two-element arrays `[key, value]` that `_.pairs` returns. */
  function PairArrays(ps: seq<(string, Value)>): (r: seq<Value>)
    ensures |r| == |ps|
    ensures forall i :: 0 <= i < |ps| ==> r[i] == Arr([Str(ps[i].0), ps[i].1])
  {
    seq(|ps|, i requires 0 <= i < |ps| => Arr([Str(ps[i].0), ps[i].1]))
  }

  /** `[key1, value1, key2, value2, ...]` */
  function KeyValueList(ps: seq<(string, Value)>): (r: seq<Value>)
    ensures |r| == 2 * |ps|
  {
    if ps == [] then [] else [Str(ps[0].0), ps[0].1] + KeyValueList(ps[1..])
  }

  /** Entry `i` sits at positions `2 * i` (its key) and `2 * i + 1` (its value). */
  lemma {:induction false} KeyValueListAt(ps: seq<(string, Value)>, i: nat)
    requires i < |ps|
    ensures KeyValueList(ps)[2 * i] == Str(ps[i].0)
    ensures KeyValueList(ps)[2 * i + 1] == ps[i].1
  {
    if i > 0 {
      KeyValueListAt(ps[1..], i - 1);
    }
  }

  /** Opening the pair arrays one level gives keys and values alternately. */
  lemma {:induction false} FlattenPairs(ps: seq<(string, Value)>)
    ensures FlattenOnce(PairArrays(ps)) == KeyValueList(ps)
  {
    if ps != [] {
      var arrays := PairArrays(ps);
      FlattenPairs(ps[1..]);
      assert arrays[1..] == PairArrays(ps[1..]);
      assert FlattenOnce(arrays) == arrays[0].items + FlattenOnce(arrays[1..]);
    }
  }

  /**
   * The entries `_.pairs` gives for one element of an array of objects: an array's
   * indices with its elements, an object's own fields, nothing for a primitive.
   */
  method PairsOf(v: Value) returns (ps: seq<(string, Value)>)
    ensures v.Arr? ==> ps == IndexPairs(v.items)
    ensures IsObjectStrict(v) ==> Enumerates(ps, FieldsOf(v))
    ensures !v.Arr? && !IsObjectStrict(v) ==> ps == []
  {
    match v
    case Arr(items) => ps := IndexPairs(items);
    case Rec(m) => ps := Pairs(m);
    case Obj(o) => ps := Pairs(o.fields);
    case _ => ps := [];
  }

  function IndexPairs(items: seq<Value>): (ps: seq<(string, Value)>)
    ensures |ps| == |items|
    ensures forall i :: 0 <= i < |items| ==> ps[i] == (NatToString(i), items[i])
  {
    seq(|items|, i requires 0 <= i < |items| => (NatToString(i), items[i]))
  }

  /**
   * The entries of every element of an array of objects, as `toKeyValueArray` collects them
   * before flattening; `fs[i]` holds the fields element `i` had when they were read.
   */
  predicate EnumeratesEach(pss: seq<seq<(string, Value)>>, xs: seq<Value>, fs: seq<map<string, Value>>)
    requires |fs| == |xs|
  {
    |pss| == |xs|
    && forall i :: 0 <= i < |xs| ==>
         (xs[i].Arr? ==> pss[i] == IndexPairs(xs[i].items))
         && (IsObjectStrict(xs[i]) ==> Enumerates(pss[i], fs[i]))
         && (!xs[i].Arr? && !IsObjectStrict(xs[i]) ==> pss[i] == [])
  }

  /** `_.flatten` of the collected pair lists. */
  function DeepPairs(pss: seq<seq<(string, Value)>>): seq<Value> {
    FlattenDeep(seq(|pss|, i requires 0 <= i < |pss| => Arr(PairArrays(pss[i]))))
  }

  /** The value `_.flatten(o, true)` gives for one element of an array of pairs. */
  function FlattenElement(v: Value): seq<Value> {
    if v.Arr? then FlattenOnce(v.items) else []
  }

  /** The fields of each element of an array (none for a value that is not an array). */
  function ItemFields(v: Value): (fs: seq<map<string, Value>>)
    reads if v.Arr? then set x | x in v.items && x.Obj? :: x.obj else {}
    ensures v.Arr? ==> |fs| == |v.items| && forall i :: 0 <= i < |v.items| ==> fs[i] == FieldsOf(v.items[i])
    ensures !v.Arr? ==> fs == []
  {
    if v.Arr? then
      seq(|v.items|, i requires 0 <= i < |v.items| reads set x | x in v.items && x.Obj? :: x.obj =>
            FieldsOf(v.items[i]))
    else []
  }

  /**
   * What `toKeyValueArray` gives for `v`, whose fields were `f` and whose elements' fields
   * were `fs` when it was called: an object becomes `[key1, value1, ...]`; an array of
   * arrays has each element opened one level (the outer array is kept); an array of
   * objects becomes the deep flattening of the objects' pairs; any other array is
   * returned as it is; a value that is neither array nor object gives null (`None`).
   * `ps` and `pss` are the entry orders the enumeration happened to use.
   */
  predicate KeyValueArrayOf(v: Value, f: map<string, Value>, fs: seq<map<string, Value>>,
                            r: Option<seq<Value>>, ps: seq<(string, Value)>, pss: seq<seq<(string, Value)>>)
  {
    (!v.Arr? && !IsObjectStrict(v) <==> r.None?)
    && (IsObjectStrict(v) ==> Enumerates(ps, f) && r == Some(KeyValueList(ps)))
    && (v.Arr? && |v.items| > 0 && v.items[0].Arr? ==>
          r == Some(seq(|v.items|, i requires 0 <= i < |v.items| => Arr(FlattenElement(v.items[i])))))
    && (v.Arr? && |v.items| > 0 && IsObjectStrict(v.items[0]) ==>
          |fs| == |v.items| && EnumeratesEach(pss, v.items, fs) && r == Some(DeepPairs(pss)))
    && (v.Arr? && (|v.items| == 0 || (!v.items[0].Arr? && !IsObjectStrict(v.items[0]))) ==>
          r == Some(v.items))
  }

  /** `toKeyValueArray(v)`, enumerating each object's entries in an unspecified order. */
  method ToKeyValueArray(v: Value) returns (r: Option<seq<Value>>, ghost ps: seq<(string, Value)>, ghost pss: seq<seq<(string, Value)>>)
    ensures KeyValueArrayOf(v, old(FieldsOf(v)), old(ItemFields(v)), r, ps, pss)
  {
    ps, pss := [], [];
    match v
    case Arr(xs) =>
      var first := if |xs| > 0 then xs[0] else Undefined;
      if first.Arr? {
        r := Some(seq(|xs|, i requires 0 <= i < |xs| => Arr(FlattenElement(xs[i]))));
      } else if IsObjectStrict(first) {
        var collected: seq<seq<(string, Value)>> := [];
        for i := 0 to |xs|
          invariant |collected| == i
          invariant forall j :: 0 <= j < i ==>
                      (xs[j].Arr? ==> collected[j] == IndexPairs(xs[j].items))
                      && (IsObjectStrict(xs[j]) ==> Enumerates(collected[j], FieldsOf(xs[j])))
                      && (!xs[j].Arr? && !IsObjectStrict(xs[j]) ==> collected[j] == [])
        {
          var entries := PairsOf(xs[i]);
          collected := collected + [entries];
        }
        r := Some(DeepPairs(collected));
        pss := collected;
        assert EnumeratesEach(pss, xs, ItemFields(v));
      } else {
        r := Some(xs);
      }
    case Rec(m) =>
      var entries := Pairs(m);
      FlattenPairs(entries);
      r := Some(FlattenOnce(PairArrays(entries)));
      ps := entries;
    case Obj(o) =>
      var entries := Pairs(o.fields);
      FlattenPairs(entries);
      r := Some(FlattenOnce(PairArrays(entries)));
      ps := entries;
    case _ =>
      r := None;
  }

  // ---------------------------------------------------------------------------
  // toJsono
  // ---------------------------------------------------------------------------

  /** An include or exclude option: a comma-separated string, an array, or nothing. */
  function ListOption(opt: Value): (r: seq<Value>)
    ensures opt.Arr? ==> r == opt.items
    ensures opt.Str? ==> r == InterpretKeys(opt)
    ensures !opt.Arr? && !opt.Str? ==> r == []
  {
    InterpretKeys(opt)
  }

  /** The options passed down to nested values: a copy without `include` and `exclude`. */
  function InnerOptions(opts: map<string, Value>): map<string, Value> {
    opts - {"include", "exclude"}
  }

  /**
   * The property names a record is copied under: its own keys, then (when the include
   * list is not empty) the included names, less those found in the exclude list.
   */
  function CopiedNames(fields: map<string, Value>, opts: map<string, Value>): set<string> {
    var includes := ListOption(Lookup(opts, "include"));
    var excludes := ListOption(Lookup(opts, "exclude"));
    var candidates := (set k | k in fields :: Str(k)) + (set p | p in includes);
    set p | p in candidates && p !in excludes :: ToStr(p)
  }

  /**
   * `toJsono(value, options)`: a plain JSON copy of a value. Records, and instances that
   * offer no `toJsono` of their own, are copied property by property into a new record
   * as `CopiedNames` says (an included name the value lacks is copied as `undefined`),
   * their property values converted with `InnerOptions`; arrays are converted element by
   * element with the same options; anything else is kept.
   */
  function Jsono(v: Value, opts: map<string, Value>): Value
    reads InstancesIn(v)
  {
    JsonoWithin(v, opts, false)
  }

  /**
   * `toJsono` at some depth: `withinInstance` says whether the value is held by an
   * instance being copied, where a further instance is kept as it is.
   */
  function JsonoWithin(v: Value, opts: map<string, Value>, withinInstance: bool): Value
    reads if withinInstance then {} else InstancesIn(v)
    decreases !withinInstance, v, 1
  {
    match v
    case Rec(fields) => Rec(CopiedFields(fields, opts, withinInstance))
    case Obj(o) => if withinInstance then v else Rec(CopiedFields(o.fields, opts, true))
    case Arr(xs) => Arr(seq(|xs|, i requires 0 <= i < |xs| reads (if withinInstance then {} else InstancesIn(v)) =>
                          JsonoWithin(xs[i], opts, withinInstance)))
    case _ => v
  }

  /** The fields of a copy, each converted with the inner options. */
  function CopiedFields(fields: map<string, Value>, opts: map<string, Value>, withinInstance: bool): map<string, Value>
    reads if withinInstance then {} else InstancesIn(Rec(fields))
    decreases !withinInstance, Rec(fields), 0
  {
    map name | name in CopiedNames(fields, opts) ::
      if name in fields then JsonoWithin(fields[name], InnerOptions(opts), withinInstance) else Undefined
  }

  /** The string entries of an option list. */
  function NamesIn(list: seq<Value>): set<string> {
    set p | p in list && p.Str? :: p.s
  }

  predicate AllStrings(list: seq<Value>) {
    forall i :: 0 <= i < |list| ==> list[i].Str?
  }

  /**
   * With string include and exclude lists, the copy of a record, or of an instance, is a
   * new record with exactly the value's own keys plus the included names, minus the
   * excluded names; a copied key holds the converted value, an included name the value
   * lacks holds `undefined`.
   */
  lemma JsonoRecord(v: Value, opts: map<string, Value>)
    requires v.Rec? || v.Obj?
    requires AllStrings(ListOption(Lookup(opts, "include")))
    requires AllStrings(ListOption(Lookup(opts, "exclude")))
    ensures var includes := NamesIn(ListOption(Lookup(opts, "include")));
            var excludes := NamesIn(ListOption(Lookup(opts, "exclude")));
            var fields := FieldsOf(v);
            var r := Jsono(v, opts);
            r.Rec? && r.fields.Keys == (fields.Keys + includes) - excludes
            && (forall k :: k in r.fields && k in fields ==> r.fields[k] == JsonoWithin(fields[k], InnerOptions(opts), v.Obj?))
            && (forall k :: k in r.fields && k !in fields ==> r.fields[k] == Undefined)
  {
    CopiedNamesOfStrings(FieldsOf(v), ListOption(Lookup(opts, "include")), ListOption(Lookup(opts, "exclude")), opts);
    assert Jsono(v, opts) == Rec(CopiedFields(FieldsOf(v), opts, v.Obj?));
  }

  /** With string include and exclude lists, the copied names are the keys plus includes less excludes. */
  lemma CopiedNamesOfStrings(fields: map<string, Value>, includeList: seq<Value>, excludeList: seq<Value>, opts: map<string, Value>)
    requires includeList == ListOption(Lookup(opts, "include")) && excludeList == ListOption(Lookup(opts, "exclude"))
    requires AllStrings(includeList) && AllStrings(excludeList)
    ensures CopiedNames(fields, opts) == (fields.Keys + NamesIn(includeList)) - NamesIn(excludeList)
  {
    var names := CopiedNames(fields, opts);
    var target := (fields.Keys + NamesIn(includeList)) - NamesIn(excludeList);
    forall k | k in names
      ensures k in target
    {
      var p :| p in (set k | k in fields :: Str(k)) + (set p | p in includeList) && p !in excludeList && ToStr(p) == k;
      assert p.Str?;
      assert Str(k) !in excludeList;
    }
    forall k | k in target
      ensures k in names
    {
      assert Str(k) !in excludeList;
      assert ToStr(Str(k)) == k;
    }
  }

  /** Without include or exclude options, the names copied are the value's own keys. */
  lemma CopiedNamesPlain(fields: map<string, Value>, opts: map<string, Value>)
    requires "include" !in opts && "exclude" !in opts
    ensures CopiedNames(fields, opts) == fields.Keys
  {
    var names := CopiedNames(fields, opts);
    forall k | k in fields ensures k in names {
      assert ToStr(Str(k)) == k;
    }
  }

  /**
   * Without include or exclude options, `toJsono` returns an equal copy of data that holds
   * no instance, and within an instance it keeps every value as it is.
   */
  lemma {:induction false} JsonoIdentity(v: Value, opts: map<string, Value>, withinInstance: bool)
    requires "include" !in opts && "exclude" !in opts
    requires withinInstance || InstancesIn(v) == {}
    ensures JsonoWithin(v, opts, withinInstance) == v
    decreases v
  {
    match v
    case Rec(fields) =>
      CopiedNamesPlain(fields, opts);
      assert InnerOptions(opts) == opts;
      forall k | k in fields
        ensures JsonoWithin(fields[k], opts, withinInstance) == fields[k]
      {
        assert withinInstance || InstancesIn(fields[k]) == {};
        JsonoIdentity(fields[k], opts, withinInstance);
      }
    case Arr(xs) =>
      forall i | 0 <= i < |xs|
        ensures JsonoWithin(xs[i], opts, withinInstance) == xs[i]
      {
        assert withinInstance || InstancesIn(xs[i]) == {};
        JsonoIdentity(xs[i], opts, withinInstance);
      }
    case _ =>
  }

  /**
   * Without include or exclude options, an instance is copied into a new record holding
   * its properties: the copy is never the instance itself.
   */
  lemma JsonoOfInstance(o: Instance, opts: map<string, Value>)
    requires "include" !in opts && "exclude" !in opts
    ensures Jsono(Obj(o), opts) == Rec(o.fields)
  {
    CopiedNamesPlain(o.fields, opts);
    assert InnerOptions(opts) == opts;
    forall k | k in o.fields
      ensures JsonoWithin(o.fields[k], opts, true) == o.fields[k]
    {
      JsonoIdentity(o.fields[k], opts, true);
    }
    assert CopiedFields(o.fields, opts, true) == o.fields;
  }

  /**
   * The recursive copy `toJsono` performs, one element at a time for an array;
   * `withinInstance` as for `JsonoWithin` (false at the outermost call).
   */
  method ToJsono(v: Value, opts: map<string, Value>, withinInstance: bool) returns (r: Value)
    ensures r == JsonoWithin(v, opts, withinInstance)
    decreases !withinInstance, v, 1
  {
    match v
    case Rec(fields) =>
      r := CopyRecord(fields, opts, withinInstance);
    case Obj(o) =>
      if withinInstance {
        r := v;
      } else {
        r := CopyRecord(o.fields, opts, true);
      }
    case Arr(xs) =>
      r := CopyArray(xs, opts, withinInstance);
    case _ =>
      r := v;
  }

  /** `toJsono` on an array: each element in turn, with the same options. */
  method CopyArray(xs: seq<Value>, opts: map<string, Value>, withinInstance: bool) returns (r: Value)
    ensures r == JsonoWithin(Arr(xs), opts, withinInstance)
    decreases !withinInstance, Arr(xs), 0
  {
    var result: seq<Value> := [];
    forall j | 0 <= j < |xs|
      ensures forall o :: o in InstancesIn(xs[j]) ==> allocated(o)
    {
      InstancesAllocated(xs[j]);
    }
    for i := 0 to |xs|
      invariant |result| == i
      invariant forall j :: 0 <= j < i ==> result[j] == JsonoWithin(xs[j], opts, withinInstance)
    {
      var copy := ToJsono(xs[i], opts, withinInstance);
      result := result + [copy];
    }
    r := Arr(result);
  }

  /** `toJsono` on a record or an instance's fields: one property at a time, skipping excluded names. */
  method CopyRecord(fields: map<string, Value>, opts: map<string, Value>, withinInstance: bool) returns (r: Value)
    ensures r == Rec(CopiedFields(fields, opts, withinInstance))
    decreases !withinInstance, Rec(fields), 0
  {
    var inner := InnerOptions(opts);
    var includes := ListOption(Lookup(opts, "include"));
    var excludes := ListOption(Lookup(opts, "exclude"));
    var properties := (set k | k in fields :: Str(k)) + (set p | p in includes);
    var dest: map<string, Value> := map[];
    var todo := properties;
    forall name | name in fields
      ensures forall o :: o in InstancesIn(fields[name]) ==> allocated(o)
    {
      InstancesAllocated(fields[name]);
    }
    while todo != {}
      invariant todo <= properties
      invariant forall name :: name in dest ==> exists p :: p in properties && p !in todo && p !in excludes && ToStr(p) == name
      invariant forall p :: p in properties && p !in todo && p !in excludes ==> ToStr(p) in dest
      invariant forall name :: name in dest ==>
                  dest[name] == if name in fields then JsonoWithin(fields[name], inner, withinInstance) else Undefined
      decreases todo
    {
      var p :| p in todo;
      if p !in excludes {
        var name := ToStr(p);
        var copy := Undefined;
        if name in fields {
          copy := ToJsono(fields[name], inner, withinInstance);
        }
        dest := dest[name := copy];
      }
      todo := todo - {p};
    }
    CopiedAll(fields, opts, withinInstance, dest);
    r := Rec(dest);
  }

  /** A map built as the copy loop builds it, once every property is visited, is the copy. */
  lemma CopiedAll(fields: map<string, Value>, opts: map<string, Value>, withinInstance: bool, dest: map<string, Value>)
    requires var properties := (set k | k in fields :: Str(k)) + (set p | p in ListOption(Lookup(opts, "include")));
             var excludes := ListOption(Lookup(opts, "exclude"));
             (forall name :: name in dest ==> exists p :: p in properties && p !in excludes && ToStr(p) == name)
             && (forall p :: p in properties && p !in excludes ==> ToStr(p) in dest)
             && (forall name :: name in dest ==>
                   dest[name] == if name in fields then JsonoWithin(fields[name], InnerOptions(opts), withinInstance) else Undefined)
    ensures dest == CopiedFields(fields, opts, withinInstance)
  {
    assert dest.Keys == CopiedNames(fields, opts);
  }
}
