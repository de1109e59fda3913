/**
 * The JavaScript string built-ins the backend relies on: `trim`, case
 * mapping, `includes`/`startsWith`/`endsWith`, `split` on one character,
 * `padStart`, number-to-text and text-to-number conversion.
 */
module Text {
  import opened Common

  /** The characters `String.prototype.trim` and the regex class `\s` treat as white space. */
  predicate IsSpace(c: char)
  {
    c == ' ' || ('\U{9}' <= c <= '\U{D}') || c == '\U{A0}' || c == '\U{1680}' ||
    ('\U{2000}' <= c <= '\U{200A}') || c == '\U{2028}' || c == '\U{2029}' ||
    c == '\U{202F}' || c == '\U{205F}' || c == '\U{3000}' || c == '\U{FEFF}'
  }

  predicate AllSpace(s: string)
  {
    forall i :: 0 <= i < |s| ==> IsSpace(s[i])
  }

  /** The index of the first character at or after `i` that is not white space, or `|s|`. */
  function SkipSpaces(s: string, i: nat): (k: nat)
    requires i <= |s|
    ensures i <= k <= |s|
    ensures forall j :: i <= j < k ==> IsSpace(s[j])
    ensures k < |s| ==> !IsSpace(s[k])
    decreases |s| - i
  {
    if i < |s| && IsSpace(s[i]) then SkipSpaces(s, i + 1) else i
  }

  /** The index just after the last character before `i` that is not white space, or 0. */
  function SkipSpacesBack(s: string, i: nat): (k: nat)
    requires i <= |s|
    ensures k <= i
    ensures forall j :: k <= j < i ==> IsSpace(s[j])
    ensures k > 0 ==> !IsSpace(s[k - 1])
  {
    if i > 0 && IsSpace(s[i - 1]) then SkipSpacesBack(s, i - 1) else i
  }

  function TrimStart(s: string): (r: string)
    ensures |r| <= |s| && r == s[|s| - |r|..]
    ensures AllSpace(s[..|s| - |r|])
    ensures r != [] ==> !IsSpace(r[0])
  {
    var k := SkipSpaces(s, 0);
    assert forall j :: 0 <= j < k ==> s[..k][j] == s[j];
    s[k..]
  }

  function TrimEnd(s: string): (r: string)
    ensures |r| <= |s| && r == s[..|r|]
    ensures AllSpace(s[|r|..])
    ensures r != [] ==> !IsSpace(r[|r| - 1])
  {
    var k := SkipSpacesBack(s, |s|);
    assert forall j :: k <= j < |s| ==> s[k..][j - k] == s[j];
    s[..k]
  }

  /** `s.trim()`: white space removed from both ends, empty exactly when `s` is all white space. */
  function Trim(s: string): (r: string)
    ensures |r| <= |s|
    ensures r != [] ==> !IsSpace(r[0]) && !IsSpace(r[|r| - 1])
    ensures r == [] <==> AllSpace(s)
  {
    TrimEmpty(s);
    TrimEnd(TrimStart(s))
  }

  /** `typeof v === "string" ? v.trim() : ""` */
  function TrimmedOrEmpty(v: JsValue): (r: string)
    ensures v.Str? ==> r == Trim(v.s)
    ensures !v.Str? ==> r == ""
    ensures r != [] ==> !IsSpace(r[0]) && !IsSpace(r[|r| - 1])
  {
    if v.Str? then Trim(v.s) else ""
  }

  lemma TrimEmpty(s: string)
    ensures TrimEnd(TrimStart(s)) == [] <==> AllSpace(s)
  {
    var t := TrimStart(s);
    if TrimEnd(t) == [] {
      assert AllSpace(t);
      assert s == s[..|s| - |t|] + t;
    }
  }

  function LowerChar(c: char): char
  {
    if 'A' <= c <= 'Z' then (c as int + 32) as char else c
  }

  function UpperChar(c: char): char
  {
    if 'a' <= c <= 'z' then (c as int - 32) as char else c
  }

  /** `s.toLowerCase()` on the ASCII letters. */
  function ToLower(s: string): (r: string)
    ensures |r| == |s| && forall i :: 0 <= i < |s| ==> r[i] == LowerChar(s[i])
  {
    seq(|s|, i requires 0 <= i < |s| => LowerChar(s[i]))
  }

  /** `s.toUpperCase()` on the ASCII letters. */
  function ToUpper(s: string): (r: string)
    ensures |r| == |s| && forall i :: 0 <= i < |s| ==> r[i] == UpperChar(s[i])
  {
    seq(|s|, i requires 0 <= i < |s| => UpperChar(s[i]))
  }

  predicate StartsWith(s: string, prefix: string)
  {
    |prefix| <= |s| && s[..|prefix|] == prefix
  }

  predicate EndsWith(s: string, suffix: string)
  {
    |suffix| <= |s| && s[|s| - |suffix|..] == suffix
  }

  /** A text framed by a prefix and a suffix starts and ends with them. */
  lemma Framed(prefix: string, middle: string, suffix: string)
    ensures StartsWith(prefix + middle + suffix, prefix)
    ensures EndsWith(prefix + middle + suffix, suffix)
  {
    var r := prefix + middle + suffix;
    assert r[..|prefix|] == prefix;
    assert r[|r| - |suffix|..] == suffix;
  }

  /** Lower-casing a text lower-cases its ending. */
  lemma LowerEndsWith(s: string, suffix: string)
    ensures EndsWith(ToLower(s + suffix), ToLower(suffix))
  {
    var l := ToLower(s + suffix);
    assert forall i :: 0 <= i < |suffix| ==> l[|s| + i] == LowerChar(suffix[i]);
    assert l[|l| - |suffix|..] == ToLower(suffix);
  }

  /** `s.includes(sub)` */
  predicate Contains(s: string, sub: string)
  {
    exists i | 0 <= i <= |s| - |sub| :: OccursAt(s, sub, i)
  }

  predicate OccursAt(s: string, sub: string, i: int)
  {
    0 <= i <= |s| - |sub| && s[i..i + |sub|] == sub
  }

  /** `s.split(sep)` for a one-character separator. */
  function Split(s: string, sep: char): (parts: seq<string>)
    ensures |parts| >= 1
    ensures forall k :: 0 <= k < |parts| ==> sep !in parts[k]
  {
    if sep !in s then [s]
    else
      var i := IndexOf(s, sep);
      [s[..i]] + Split(s[i + 1..], sep)
  }

  function Join(parts: seq<string>, sep: char): string
  {
    if |parts| <= 1 then (if parts == [] then "" else parts[0])
    else parts[0] + [sep] + Join(parts[1..], sep)
  }

  /** Splitting and joining again gives the original text back. */
  lemma {:induction false} SplitJoin(s: string, sep: char)
    ensures Join(Split(s, sep), sep) == s
  {
    if sep in s {
      var i := IndexOf(s, sep);
      SplitJoinStep(s, sep, i);
      SplitJoin(s[i + 1..], sep);
      Around(s, i);
    }
  }

  lemma SplitJoinStep(s: string, sep: char, i: nat)
    requires sep in s && i == IndexOf(s, sep)
    ensures Join(Split(s, sep), sep) == s[..i] + [sep] + Join(Split(s[i + 1..], sep), sep)
  {
    var parts := Split(s, sep);
    assert parts[1..] == Split(s[i + 1..], sep);
  }

  lemma Around(s: string, i: nat)
    requires i < |s|
    ensures s == s[..i] + [s[i]] + s[i + 1..]
  {
  }

  /** `s.padStart(width, fill)` for a one-character fill. */
  function PadStart(s: string, width: nat, fill: char): (r: string)
    ensures |r| == if |s| >= width then |s| else width
    ensures r[|r| - |s|..] == s
    ensures forall i :: 0 <= i < |r| - |s| ==> r[i] == fill
  {
    if |s| >= width then s else seq(width - |s|, _ => fill) + s
  }

  predicate IsDigit(c: char) { '0' <= c <= '9' }

  predicate AllDigits(s: string)
  {
    forall i :: 0 <= i < |s| ==> IsDigit(s[i])
  }

  function DigitChar(d: nat): char
    requires d < 10
  {
    "0123456789"[d]
  }

  /** The value of a run of decimal digits, read left to right. */
  function DecimalValue(s: string): nat
    requires AllDigits(s)
  {
    if s == [] then 0 else 10 * DecimalValue(s[..|s| - 1]) + (s[|s| - 1] as int - '0' as int)
  }

  /** `String(n)` for a natural number. */
  function NatToString(n: nat): (r: string)
    ensures |r| >= 1 && AllDigits(r)
    ensures DecimalValue(r) == n
    ensures (r[0] == '0') == (n == 0)
  {
    if n < 10 then [DigitChar(n)]
    else
      var p := NatToString(n / 10);
      var r := p + [DigitChar(n % 10)];
      assert r[..|r| - 1] == p;
      r
  }

  /** `String(i)` for an integer. */
  function IntToString(i: int): (r: string)
    ensures i >= 0 ==> r == NatToString(i)
    ensures i < 0 ==> r == "-" + NatToString(-i)
  {
    if i < 0 then "-" + NatToString(-i) else NatToString(i)
  }

  /** Reading a digit string without leading zeros and printing its value gives it back. */
  lemma {:induction false} NatToStringOfDecimal(s: string)
    requires AllDigits(s) && |s| >= 1 && (s[0] != '0' || |s| == 1)
    ensures NatToString(DecimalValue(s)) == s
  {
    if |s| > 1 {
      var p := s[..|s| - 1];
      LeadingDigitPositive(p);
      NatToStringOfDecimal(p);
      LastDigit(s);
      assert s == p + [s[|s| - 1]];
    } else {
      assert s[..|s| - 1] == [];
      assert DecimalValue(s) == s[0] as int - '0' as int;
    }
  }

  /** The last digit of a numeral is its value modulo ten; the others give the quotient. */
  lemma LastDigit(s: string)
    requires AllDigits(s) && |s| >= 1
    ensures DecimalValue(s) / 10 == DecimalValue(s[..|s| - 1])
    ensures DigitChar(DecimalValue(s) % 10) == s[|s| - 1]
  {
    var c := s[|s| - 1];
    var d := c as int - '0' as int;
    assert DecimalValue(s) == 10 * DecimalValue(s[..|s| - 1]) + d;
    DivModTen(DecimalValue(s[..|s| - 1]), d);
    DigitCharOf(c);
  }

  lemma DivModTen(a: nat, d: int)
    requires 0 <= d < 10
    ensures (10 * a + d) / 10 == a && (10 * a + d) % 10 == d
  {
  }

  lemma DigitCharOf(c: char)
    requires IsDigit(c)
    ensures DigitChar(c as int - '0' as int) == c
  {
  }

  lemma {:induction false} LeadingDigitPositive(s: string)
    requires AllDigits(s) && |s| >= 1 && s[0] != '0'
    ensures DecimalValue(s) >= 1
  {
    if |s| > 1 {
      LeadingDigitPositive(s[..|s| - 1]);
    }
  }

  /** Number of decimal digits of `n`. */
  lemma {:induction false} NatToStringLength(n: nat, k: nat)
    requires k >= 1 && Pow10(k - 1) <= n < Pow10(k)
    ensures |NatToString(n)| == k
  {
    if n >= 10 {
      NatToStringLength(n / 10, k - 1);
    }
  }

  function Pow10(k: nat): (p: nat)
    ensures p >= 1
  {
    if k == 0 then 1 else 10 * Pow10(k - 1)
  }

  /** Two-digit zero padding of a number: `String(n).padStart(2, "0")`. */
  function Pad2(n: nat): (r: string)
  {
    PadStart(NatToString(n), 2, '0')
  }

  /** A number below 100 padded to two digits is exactly two digits that read back as the number. */
  lemma Pad2Digits(n: nat)
    requires n < 100
    ensures |Pad2(n)| == 2 && AllDigits(Pad2(n)) && DecimalValue(Pad2(n)) == n
  {
    var r := Pad2(n);
    if n < 10 {
      assert r == ['0', DigitChar(n)];
      assert r[..1] == ['0'];
    } else {
      NatToStringLength(n, 2);
    }
  }

  /**
   * `s.replace(/\s+/g, " ")`: every maximal run of white space becomes one
   * space.
   */
  function CollapseSpaces(s: string): (r: string)
    ensures |r| <= |s|
  {
    if s == [] then []
    else if IsSpace(s[0]) then " " + CollapseSpaces(TrimStart(s))
    else [s[0]] + CollapseSpaces(s[1..])
  }

  /** Every white-space character is a plain space, and none follows another. */
  predicate SingleSpaced(s: string)
  {
    forall i :: 0 <= i < |s| && IsSpace(s[i]) ==> s[i] == ' ' && (i + 1 < |s| ==> !IsSpace(s[i + 1]))
  }

  /** No character changes under `toLowerCase`. */
  predicate IsLower(s: string)
  {
    forall i :: 0 <= i < |s| ==> LowerChar(s[i]) == s[i]
  }

  /** Leading white space ends at the first character that is not white space. */
  lemma TrimStartAt(s: string, k: nat)
    requires k <= |s|
    requires forall j :: 0 <= j < k ==> IsSpace(s[j])
    requires k < |s| ==> !IsSpace(s[k])
    ensures TrimStart(s) == s[k..]
  {
  }

  /** Removing leading white space from text that starts with it makes it shorter. */
  lemma TrimStartShortens(s: string)
    requires s != [] && IsSpace(s[0])
    ensures |TrimStart(s)| < |s|
  {
  }

  /**
   * After collapsing, white space occurs only as single plain spaces, and
   * the text starts with white space exactly when the input did.
   */
  lemma {:induction false} CollapseShape(s: string)
    ensures SingleSpaced(CollapseSpaces(s))
    ensures CollapseSpaces(s) == [] <==> s == []
    ensures s != [] ==> (IsSpace(CollapseSpaces(s)[0]) <==> IsSpace(s[0]))
    decreases |s|
  {
    if s != [] {
      var r := CollapseSpaces(s);
      if IsSpace(s[0]) {
        var t := TrimStart(s);
        TrimStartShortens(s);
        CollapseShape(t);
        var c := CollapseSpaces(t);
        assert r == " " + c;
        assert forall i :: 1 <= i < |r| ==> r[i] == c[i - 1];
      } else {
        var c := CollapseSpaces(s[1..]);
        CollapseShape(s[1..]);
        assert r == [s[0]] + c;
        assert forall i :: 1 <= i < |r| ==> r[i] == c[i - 1];
      }
    }
  }

  /** Text already single-spaced is left alone by collapsing. */
  lemma {:induction false} CollapseFixed(s: string)
    requires SingleSpaced(s)
    ensures CollapseSpaces(s) == s
    decreases |s|
  {
    if s != [] {
      var rest := s[1..];
      SingleSpacedTail(s);
      CollapseFixed(rest);
      if IsSpace(s[0]) {
        TrimStartAt(s, 1);
        assert CollapseSpaces(s) == " " + rest;
      } else {
        assert CollapseSpaces(s) == [s[0]] + rest;
      }
      assert s == [s[0]] + rest;
    }
  }

  lemma SingleSpacedTail(s: string)
    requires s != [] && SingleSpaced(s)
    ensures SingleSpaced(s[1..])
  {
    var rest := s[1..];
    assert forall i :: 0 <= i < |rest| ==> rest[i] == s[i + 1];
  }

  /** Collapsing keeps a last character that is not white space. */
  lemma {:induction false} CollapseLast(s: string)
    requires s != [] && !IsSpace(s[|s| - 1])
    ensures CollapseSpaces(s) != [] && CollapseSpaces(s)[|CollapseSpaces(s)| - 1] == s[|s| - 1]
    decreases |s|
  {
    if IsSpace(s[0]) {
      var t := TrimStart(s);
      TrimStartShortens(s);
      assert t != [] && t[|t| - 1] == s[|s| - 1];
      CollapseLast(t);
    } else if |s| > 1 {
      CollapseLast(s[1..]);
    }
  }

  /** Collapsing only copies characters or writes plain spaces, so lower-case text stays lower-case. */
  lemma {:induction false} CollapseKeepsLower(s: string)
    requires IsLower(s)
    ensures IsLower(CollapseSpaces(s))
    decreases |s|
  {
    if s != [] {
      if IsSpace(s[0]) {
        var t := TrimStart(s);
        TrimStartShortens(s);
        LowerSuffix(s, |s| - |t|);
        CollapseKeepsLower(t);
        LowerCons(' ', CollapseSpaces(t));
      } else {
        LowerSuffix(s, 1);
        CollapseKeepsLower(s[1..]);
        LowerCons(s[0], CollapseSpaces(s[1..]));
      }
    }
  }

  lemma LowerSuffix(s: string, k: nat)
    requires IsLower(s) && k <= |s|
    ensures IsLower(s[k..])
  {
    assert forall i :: 0 <= i < |s| - k ==> s[k..][i] == s[k + i];
  }

  lemma LowerCons(c: char, t: string)
    requires LowerChar(c) == c && IsLower(t)
    ensures IsLower([c] + t)
  {
    assert forall i :: 0 < i <= |t| ==> ([c] + t)[i] == t[i - 1];
  }

  /**
   * JavaScript's `Number(s)` on a string: surrounding white space is
   * ignored, the empty string is 0, an optional sign may precede `Infinity`
   * or a decimal numeral with an optional fraction. Exponents and
   * hexadecimal, octal or binary numerals are not part of this model and read
   * as NaN.
   */
  function StringToNumber(s: string): (n: Numeric)
    ensures Trim(s) == "" ==> n == Finite(0.0)
    ensures AllDigits(Trim(s)) ==> n == Finite(DecimalValue(Trim(s)) as real)
  {
    var t := Trim(s);
    if t == "" then Finite(0.0)
    else
      var negative := t[0] == '-';
      var body := if t[0] == '-' || t[0] == '+' then t[1..] else t;
      var m := UnsignedNumeral(body);
      if AllDigits(t) then Finite(DecimalValue(t) as real)
      else match m
        case Finite(v) => Finite(if negative then -v else v)
        case Infinite(_) => Infinite(!negative)
        case NotANumber => NotANumber
  }

  /** An unsigned numeral: `Infinity`, digits, or digits with a fractional part. */
  function UnsignedNumeral(t: string): Numeric
  {
    if t == "Infinity" then Infinite(true)
    else if '.' in t then
      var k := IndexOf(t, '.');
      var whole := t[..k];
      var frac := t[k + 1..];
      if AllDigits(whole) && AllDigits(frac) && |whole| + |frac| > 0 then
        Finite(DecimalValue(whole) as real + DecimalValue(frac) as real / Pow10(|frac|) as real)
      else NotANumber
    else if t != "" && AllDigits(t) then Finite(DecimalValue(t) as real)
    else NotANumber
  }

  /** JavaScript's `Number(v)` conversion. */
  function ToNumber(v: JsValue): (n: Numeric)
    ensures v.Null? ==> n == Finite(0.0)
    ensures v.Undefined? ==> n == NotANumber
    ensures v.Num? ==> n == Finite(v.n)
  {
    match v
    case Undefined => NotANumber
    case Null => Finite(0.0)
    case Bool(b) => Finite(if b then 1.0 else 0.0)
    case Num(x) => Finite(x)
    case Str(s) => StringToNumber(s)
    case Obj => NotANumber
  }

  /** Joining words that hold no separator and splitting again gives the words back. */
  lemma {:induction false} JoinSplit(parts: seq<string>, sep: char)
    requires |parts| >= 1
    requires forall k :: 0 <= k < |parts| ==> sep !in parts[k]
    ensures Split(Join(parts, sep), sep) == parts
  {
    if |parts| > 1 {
      JoinSplit(parts[1..], sep);
      SplitAfter(parts[0], sep, Join(parts[1..], sep));
      assert parts == [parts[0]] + parts[1..];
    }
  }

  /** The first separator of `a + [sep] + rest` is the one after `a`. */
  lemma SplitAfter(a: string, sep: char, rest: string)
    requires sep !in a
    ensures Split(a + [sep] + rest, sep) == [a] + Split(rest, sep)
  {
    var s := a + [sep] + rest;
    assert s[|a|] == sep;
    var i := IndexOf(s, sep);
    assert forall j :: 0 <= j < |a| ==> s[j] == a[j];
    assert i == |a|;
    assert s[..i] == a && s[i + 1..] == rest;
  }

  lemma DigitsHaveNoDash(s: string)
    requires AllDigits(s)
    ensures '-' !in s
  {
  }

  lemma DigitsHaveNoSpace(s: string)
    requires AllDigits(s)
    ensures Trim(s) == s
  {
    if s != [] {
      TrimNoop(s);
    }
  }

  /** Text that neither starts nor ends with white space is left alone by `trim`. */
  lemma TrimNoop(s: string)
    requires s != [] && !IsSpace(s[0]) && !IsSpace(s[|s| - 1])
    ensures Trim(s) == s
  {
    assert TrimStart(s) == s;
    assert TrimEnd(s) == s;
  }

  /** `Number(s)` of a run of digits is its decimal value. */
  lemma NumberOfDigits(s: string)
    requires AllDigits(s)
    ensures StringToNumber(s) == Finite(DecimalValue(s) as real)
  {
    DigitsHaveNoSpace(s);
  }

  lemma {:induction false} SplitThree(a: string, b: string, c: string)
    requires '-' !in a && '-' !in b && '-' !in c
    ensures Split(a + "-" + b + "-" + c, '-') == [a, b, c]
  {
    var bc := b + ['-'] + c;
    SplitAfter(b, '-', c);
    SplitNone(c, '-');
    SplitAfter(a, '-', bc);
    JoinAssoc(a, b, c, '-');
  }

  lemma SplitNone(s: string, sep: char)
    requires sep !in s
    ensures Split(s, sep) == [s]
  {
  }

  lemma JoinAssoc(a: string, b: string, c: string, sep: char)
    ensures a + [sep] + b + [sep] + c == a + [sep] + (b + [sep] + c)
  {
  }
}
