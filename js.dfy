/** The small optional-value type shared by every module. */
module Wrappers {
  datatype Option<T> = None | Some(value: T)
}

/**
 * The slice of JavaScript semantics the client code relies on: truthiness and `||`,
 * `parseInt` with no radix, `trim`, `toLowerCase`, `includes` and `substring`.
 * Numbers are integers here; fractional and non-finite numbers other than NaN are
 * not needed by the modelled code.
 */
module Js {
  import opened Wrappers

  /** A JavaScript value, as far as the modelled code looks into it. */
  datatype JsValue = Undefined | Null | Bool(b: bool) | Num(n: int) | NaN | Str(s: string) | Obj | Arr

  /** JavaScript's ToBoolean. */
  predicate Truthy(v: JsValue)
  {
    match v
    case Undefined => false
    case Null => false
    case Bool(b) => b
    case Num(n) => n != 0
    case NaN => false
    case Str(s) => s != ""
    case Obj => true
    case Arr => true
  }

  /** The value of the expression `a || b`. */
  function Or(a: JsValue, b: JsValue): JsValue
  {
    if Truthy(a) then a else b
  }

  /** A string is truthy iff it is not empty. */
  predicate NonEmpty(s: string)
  {
    s != ""
  }

  // ---------------------------------------------------------------------------
  // Whitespace and trim

  /** JavaScript's WhiteSpace and LineTerminator code points (StrWhiteSpaceChar). */
  predicate IsSpace(c: char)
  {
    c == '\t' || c == '\n' || c == '\U{000B}' || c == '\U{000C}' || c == '\r' || c == ' ' ||
    c == '\U{00A0}' || c == '\U{1680}' || ('\U{2000}' <= c <= '\U{200A}') ||
    c == '\U{2028}' || c == '\U{2029}' || c == '\U{202F}' || c == '\U{205F}' ||
    c == '\U{3000}' || c == '\U{FEFF}'
  }

  function TrimStart(s: string): string
  {
    if |s| > 0 && IsSpace(s[0]) then TrimStart(s[1..]) else s
  }

  function TrimEnd(s: string): string
  {
    if |s| > 0 && IsSpace(s[|s| - 1]) then TrimEnd(s[..|s| - 1]) else s
  }

  /** `trimStart` removes exactly the leading run of whitespace: what is left is a suffix. */
  lemma {:induction false} TrimStartSpec(s: string)
    ensures var r := TrimStart(s);
      |r| <= |s| && r == s[|s| - |r|..] && (r == [] || !IsSpace(r[0])) &&
      forall i :: 0 <= i < |s| - |r| ==> IsSpace(s[i])
  {
    if |s| > 0 && IsSpace(s[0]) {
      var t := s[1..];
      TrimStartSpec(t);
      var r := TrimStart(t);
      assert TrimStart(s) == r;
      assert s[|s| - |r|..] == t[|t| - |r|..];
      forall i | 1 <= i < |s| - |r|
        ensures IsSpace(s[i])
      {
        assert s[i] == t[i - 1];
      }
    }
  }

  /** `trimEnd` removes exactly the trailing run of whitespace: what is left is a prefix. */
  lemma {:induction false} TrimEndSpec(s: string)
    ensures var r := TrimEnd(s);
      |r| <= |s| && r == s[..|r|] && (r == [] || !IsSpace(r[|r| - 1])) &&
      forall i :: |r| <= i < |s| ==> IsSpace(s[i])
  {
    if |s| > 0 && IsSpace(s[|s| - 1]) {
      var t := s[..|s| - 1];
      TrimEndSpec(t);
      var r := TrimEnd(t);
      assert TrimEnd(s) == r;
      assert s[..|r|] == t[..|r|];
      forall i | |r| <= i < |s| - 1
        ensures IsSpace(s[i])
      {
        assert s[i] == t[i];
      }
    }
  }

  /** `String.prototype.trim`. */
  function Trim(s: string): string
  {
    TrimEnd(TrimStart(s))
  }

  /** A string trims to the empty string exactly when every character is whitespace. */
  lemma TrimEmptyIffBlank(s: string)
    ensures Trim(s) == "" <==> forall i :: 0 <= i < |s| ==> IsSpace(s[i])
  {
    TrimStartSpec(s);
    TrimEndSpec(TrimStart(s));
  }

  // ---------------------------------------------------------------------------
  // parseInt

  predicate IsDecimalDigit(c: char)
  {
    '0' <= c <= '9'
  }

  predicate IsDigitIn(c: char, hex: bool)
  {
    IsDecimalDigit(c) || (hex && (('a' <= c <= 'f') || ('A' <= c <= 'F')))
  }

  function DigitValue(c: char): (d: nat)
    requires IsDigitIn(c, true)
    ensures d < 16
    ensures IsDecimalDigit(c) ==> d < 10
  {
    if IsDecimalDigit(c) then c as int - '0' as int
    else if 'a' <= c <= 'f' then c as int - 'a' as int + 10
    else c as int - 'A' as int + 10
  }

  /** Length of the longest prefix of `s` made of digits of the radix. */
  function DigitRun(s: string, hex: bool): (k: nat)
    ensures k <= |s|
    ensures forall i :: 0 <= i < k ==> IsDigitIn(s[i], hex)
    ensures k < |s| ==> !IsDigitIn(s[k], hex)
  {
    if |s| > 0 && IsDigitIn(s[0], hex) then 1 + DigitRun(s[1..], hex) else 0
  }

  /** The number a run of digits denotes, most significant digit first. */
  function DigitsValue(s: string, hex: bool): nat
    requires forall i :: 0 <= i < |s| ==> IsDigitIn(s[i], hex)
  {
    if s == [] then 0
    else
      var last := s[|s| - 1];
      assert IsDigitIn(last, hex);
      DigitsValue(s[..|s| - 1], hex) * (if hex then 16 else 10) + DigitValue(last)
  }

  /** Whether an unsigned numeral selects base 16 with a `0x`/`0X` prefix. */
  predicate HexPrefixed(u: string)
  {
    |u| >= 2 && u[0] == '0' && (u[1] == 'x' || u[1] == 'X')
  }

  /** The magnitude an unsigned numeral denotes, or None when no digit follows the prefix. */
  function Magnitude(u: string): Option<nat>
  {
    var hex := HexPrefixed(u);
    var body := if hex then u[2..] else u;
    var k := DigitRun(body, hex);
    if k == 0 then None else Some(DigitsValue(body[..k], hex))
  }

  predicate HasSign(t: string)
  {
    |t| > 0 && (t[0] == '-' || t[0] == '+')
  }

  /**
   * `parseInt(s)` with no radix: leading whitespace is skipped, one sign is read,
   * a `0x`/`0X` prefix selects base 16, and the longest run of digits is read;
   * no digit at all gives NaN. (A negative zero is read as 0.)
   */
  function ParseInt(s: string): (r: JsValue)
    ensures r.Num? || r.NaN?
  {
    var t := TrimStart(s);
    var u := if HasSign(t) then t[1..] else t;
    var negative := HasSign(t) && t[0] == '-';
    match Magnitude(u)
    case None => NaN
    case Some(v) => var n: int := v; Num(if negative then -n else n)
  }

  /** The decimal numeral of a natural number, without leading zeros. */
  function ShowNat(n: nat): (s: string)
    ensures |s| > 0 && forall i :: 0 <= i < |s| ==> IsDecimalDigit(s[i])
  {
    if n < 10 then ['0' + n as char]
    else ShowNat(n / 10) + ['0' + (n % 10) as char]
  }

  /** The decimal numeral of an integer, as `String(n)` writes it. */
  function ShowInt(n: int): string
  {
    if n < 0 then "-" + ShowNat(-n) else ShowNat(n)
  }

  lemma {:induction false} ShowNatValue(n: nat)
    ensures DigitsValue(ShowNat(n), false) == n
  {
    var s := ShowNat(n);
    if n >= 10 {
      ShowNatValue(n / 10);
      assert s[..|s| - 1] == ShowNat(n / 10);
    }
  }

  lemma {:induction false} DigitRunAll(s: string, hex: bool)
    requires forall i :: 0 <= i < |s| ==> IsDigitIn(s[i], hex)
    ensures DigitRun(s, hex) == |s|
  {
    if |s| > 0 {
      DigitRunAll(s[1..], hex);
    }
  }

  /** A decimal numeral reads back as the number it shows. */
  lemma MagnitudeShowNat(m: nat)
    ensures Magnitude(ShowNat(m)) == Some(m)
  {
    var d := ShowNat(m);
    assert !HexPrefixed(d) by {
      if |d| >= 2 {
        assert IsDecimalDigit(d[1]);
      }
    }
    ShowNatValue(m);
    DigitRunAll(d, false);
    assert d[..|d|] == d;
  }

  /** A numeral that starts with a digit is read as an unsigned magnitude. */
  lemma ParseIntUnsigned(d: string)
    requires |d| > 0 && IsDecimalDigit(d[0])
    ensures ParseInt(d) == match Magnitude(d) case None => NaN case Some(v) => Num(v)
  {
    assert !IsSpace(d[0]);
    assert TrimStart(d) == d;
    assert !HasSign(d);
  }

  /** Reading back the numeral of any integer gives that integer: `parseInt(String(n)) === n`. */
  lemma ParseIntShowInt(n: int)
    ensures ParseInt(ShowInt(n)) == Num(n)
  {
    var m := if n < 0 then -n else n;
    var d := ShowNat(m);
    MagnitudeShowNat(m);
    assert IsDecimalDigit(d[0]);
    if n >= 0 {
      ParseIntUnsigned(d);
    } else {
      var s := ShowInt(n);
      assert s == "-" + d;
      assert !IsSpace(s[0]);
      assert TrimStart(s) == s;
      assert HasSign(s) && s[0] == '-';
      assert s[1..] == d;
    }
  }

  /** Input without a single decimal digit reads as NaN. */
  lemma ParseIntNoDigits(s: string)
    requires forall i :: 0 <= i < |s| ==> !IsDecimalDigit(s[i])
    ensures ParseInt(s) == NaN
  {
    var t := TrimStart(s);
    TrimStartSpec(s);
    var u := if HasSign(t) then t[1..] else t;
    assert forall i :: 0 <= i < |u| ==> u[i] in s;
    assert !HexPrefixed(u) by {
      if |u| >= 2 {
        assert u[0] in s;
      }
    }
    if |u| > 0 {
      assert u[0] in s;
    }
  }

  /** `parseInt(v) || 0`: always a number, and 0 exactly when parseInt gave NaN or 0. */
  function ParseIntOrZero(s: string): (n: int)
    ensures ParseInt(s).NaN? ==> n == 0
    ensures ParseInt(s).Num? ==> n == ParseInt(s).n
  {
    var r := Or(ParseInt(s), Num(0));
    r.n
  }

  // ---------------------------------------------------------------------------
  // Case folding and search

  /**
   * `toLowerCase` on the letters the console's data uses: ASCII and the basic
   * Cyrillic block (А..Я, Ѐ..Џ). Other scripts are left unchanged.
   */
  function LowerChar(c: char): char
  {
    if 'A' <= c <= 'Z' then (c as int + 32) as char
    else if '\U{0410}' <= c <= '\U{042F}' then (c as int + 32) as char
    else if '\U{0400}' <= c <= '\U{040F}' then (c as int + 80) as char
    else c
  }

  function Lower(s: string): (r: string)
    ensures |r| == |s| && forall i :: 0 <= i < |s| ==> r[i] == LowerChar(s[i])
  {
    if s == [] then [] else [LowerChar(s[0])] + Lower(s[1..])
  }

  /** Lower-casing twice is lower-casing once. */
  lemma LowerIdempotent(s: string)
    ensures Lower(Lower(s)) == Lower(s)
  {
  }

  predicate StartsWith(s: string, prefix: string)
  {
    |prefix| <= |s| && s[..|prefix|] == prefix
  }

  /** `hay.includes(needle)`. */
  predicate Includes(hay: string, needle: string)
  {
    StartsWith(hay, needle) || (|hay| > 0 && Includes(hay[1..], needle))
  }

  predicate OccursAt(hay: string, needle: string, i: int)
  {
    0 <= i <= |hay| - |needle| && hay[i..i + |needle|] == needle
  }

  /** `includes` finds the needle exactly when it occurs at some index. */
  lemma {:induction false} IncludesIffOccurs(hay: string, needle: string)
    ensures Includes(hay, needle) <==> exists i :: OccursAt(hay, needle, i)
  {
    if StartsWith(hay, needle) {
      assert OccursAt(hay, needle, 0);
    } else if |hay| > 0 {
      IncludesIffOccurs(hay[1..], needle);
      if Includes(hay[1..], needle) {
        var i :| OccursAt(hay[1..], needle, i);
        assert hay[i + 1..i + 1 + |needle|] == hay[1..][i..i + |needle|];
        assert OccursAt(hay, needle, i + 1);
      }
      if exists i :: OccursAt(hay, needle, i) {
        var i :| OccursAt(hay, needle, i);
        if i > 0 {
          assert hay[1..][i - 1..i - 1 + |needle|] == hay[i..i + |needle|];
          assert OccursAt(hay[1..], needle, i - 1);
        }
      }
    }
  }

  /** `text.toLowerCase().includes(term.toLowerCase())`: a search that ignores case. */
  predicate ContainsIgnoringCase(text: string, term: string)
  {
    Includes(Lower(text), Lower(term))
  }

  /** The empty term is found in every text, and the term's own case plays no part. */
  lemma ContainsIgnoringCaseSpec(text: string, term: string)
    ensures ContainsIgnoringCase(text, "")
    ensures ContainsIgnoringCase(text, Lower(term)) == ContainsIgnoringCase(text, term)
  {
    IncludesEmpty(Lower(text));
    assert Lower("") == "";
    LowerIdempotent(term);
  }

  /** Every string includes the empty string. */
  lemma IncludesEmpty(hay: string)
    ensures Includes(hay, "")
  {
  }

  // ---------------------------------------------------------------------------
  // substring

  function Clamp(i: int, len: nat): (r: nat)
    ensures r <= len
  {
    if i < 0 then 0 else if i > len then len else i
  }

  /** `s.substring(start, end)`: both ends clamped to the string, swapped when reversed. */
  function Substring(s: string, start: int, end: int): string
  {
    var a := Clamp(start, |s|);
    var b := Clamp(end, |s|);
    if a <= b then s[a..b] else s[b..a]
  }
}
