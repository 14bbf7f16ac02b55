/**
 * The string and number conversions the handlers rely on, with JavaScript's
 * semantics: `\d` digits, `${n}` for a non-negative integer, `parseInt(s, 10)`,
 * and `s.split("/").pop()`.
 */
module Text {

  /** `\d`: an ASCII digit. */
  predicate IsDigit(c: char)
  {
    '0' <= c <= '9'
  }

  predicate AllDigits(s: string)
  {
    forall i :: 0 <= i < |s| ==> IsDigit(s[i])
  }

  /** A digit string as `${n}` renders it: non-empty, no leading zero except "0" itself. */
  predicate Canonical(s: string)
  {
    |s| > 0 && AllDigits(s) && (s[0] == '0' ==> |s| == 1)
  }

  function DigitValue(c: char): (d: nat)
    requires IsDigit(c)
    ensures d < 10
  {
    c as int - '0' as int
  }

  function DigitChar(d: nat): (c: char)
    requires d < 10
    ensures IsDigit(c) && DigitValue(c) == d
  {
    ('0' as int + d) as char
  }

  /** The number a digit string denotes, most significant digit first. */
  function ValueOf(s: string): nat
    requires AllDigits(s)
  {
    if |s| == 0 then 0 else 10 * ValueOf(s[..|s| - 1]) + DigitValue(s[|s| - 1])
  }

  /** The decimal rendering of a natural number. */
  function Decimal(n: nat): (s: string)
    ensures Canonical(s)
    ensures s[0] == '0' <==> n == 0
  {
    if n < 10 then [DigitChar(n)] else Decimal(n / 10) + [DigitChar(n % 10)]
  }

  /** Reading back a rendered number gives the number. */
  lemma {:induction false} DecimalValue(n: nat)
    ensures ValueOf(Decimal(n)) == n
  {
    if n >= 10 {
      var s := Decimal(n);
      assert s[..|s| - 1] == Decimal(n / 10);
      DecimalValue(n / 10);
    }
  }

  lemma {:induction false} LeadingDigitPositive(s: string)
    requires |s| > 0 && AllDigits(s) && s[0] != '0'
    ensures ValueOf(s) >= 1
  {
    if |s| > 1 {
      LeadingDigitPositive(s[..|s| - 1]);
    }
  }

  lemma DivMod10(a: nat, b: nat)
    requires b < 10
    ensures (10 * a + b) / 10 == a && (10 * a + b) % 10 == b
  {
  }

  /** Rendering the value of a canonical digit string gives the string back. */
  lemma {:induction false} ValueDecimal(s: string)
    requires Canonical(s)
    ensures Decimal(ValueOf(s)) == s
  {
    var p, c := s[..|s| - 1], s[|s| - 1];
    assert s == p + [c];
    var d := DigitValue(c);
    assert DigitChar(d) == c;
    if |s| == 1 {
      assert ValueOf(s) == d;
    } else {
      assert p[0] == s[0];
      assert Canonical(p);
      LeadingDigitPositive(p);
      ValueDecimal(p);
      var vp := ValueOf(p);
      var v := 10 * vp + d;
      assert ValueOf(s) == v;
      DivMod10(vp, d);
      assert v >= 10;
      assert Decimal(v) == Decimal(v / 10) + [DigitChar(v % 10)];
    }
  }

  /** The length of the longest prefix of `s` made of digits. */
  function DigitRun(s: string): (n: nat)
    ensures n <= |s|
    ensures AllDigits(s[..n])
    ensures n < |s| ==> !IsDigit(s[n])
  {
    if |s| == 0 || !IsDigit(s[0]) then 0 else 1 + DigitRun(s[1..])
  }

  /** The digit run of digits followed by a non-digit (or nothing) is exactly those digits. */
  lemma DigitRunOf(d: string, rest: string)
    requires AllDigits(d)
    requires |rest| == 0 || !IsDigit(rest[0])
    ensures DigitRun(d + rest) == |d|
  {
    var s := d + rest;
    assert forall i :: 0 <= i < |d| ==> IsDigit(s[i]);
    assert |d| < |s| ==> !IsDigit(s[|d|]);
  }

  // ----- String.prototype.split with a one-character separator, and pop() -----

  /** `s.split(sep)`: the maximal separator-free pieces, empty pieces included. */
  function Split(s: string, sep: char): (parts: seq<string>)
    ensures |parts| >= 1
    ensures forall i :: 0 <= i < |parts| ==> sep !in parts[i]
  {
    if |s| == 0 then [""]
    else
      var init, c := Split(s[..|s| - 1], sep), s[|s| - 1];
      if c == sep then init + [""]
      else init[..|init| - 1] + [init[|init| - 1] + [c]]
  }

  /** `parts.join(sep)`. */
  function Join(parts: seq<string>, sep: char): string
    requires |parts| >= 1
  {
    if |parts| == 1 then parts[0]
    else Join(parts[..|parts| - 1], sep) + [sep] + parts[|parts| - 1]
  }

  /** Joining the pieces of a split with the same separator restores the string. */
  lemma {:induction false} JoinSplit(s: string, sep: char)
    ensures Join(Split(s, sep), sep) == s
  {
    if |s| > 0 {
      var t, c := s[..|s| - 1], s[|s| - 1];
      assert s == t + [c];
      var init := Split(t, sep);
      JoinSplit(t, sep);
      var parts := Split(s, sep);
      if c == sep {
        assert parts == init + [""];
        assert parts[..|parts| - 1] == init;
      } else if |init| == 1 {
        assert parts == [init[0] + [c]];
      } else {
        var pre, last := init[..|init| - 1], init[|init| - 1];
        assert parts == pre + [last + [c]];
        assert parts[..|parts| - 1] == pre;
        assert Join(init, sep) == Join(pre, sep) + [sep] + last;
        assert Join(parts, sep) == Join(pre, sep) + [sep] + (last + [c]);
      }
    }
  }

  /** `s.split("/").pop()`: the text after the last slash, or all of `s` when it has none. */
  function LastSegment(s: string): (r: string)
    ensures '/' !in r
    ensures |r| <= |s| && s[|s| - |r|..] == r
    ensures |r| < |s| ==> s[|s| - |r| - 1] == '/'
  {
    var parts := Split(s, '/');
    JoinSplit(s, '/');
    parts[|parts| - 1]
  }

  /** The last segment of a path that ends in a slash-free tail is that tail. */
  lemma LastSegmentOf(prefix: string, tail: string)
    requires |prefix| == 0 || prefix[|prefix| - 1] == '/'
    requires '/' !in tail
    ensures LastSegment(prefix + tail) == tail
  {
    var s := prefix + tail;
    var r := LastSegment(s);
    assert s[|s| - |tail|..] == tail;
  }

  // ----- parseInt(s, 10) -----

  /** The integer-valued numbers `parseInt` can return: NaN or an integer. */
  datatype JsInt = NaN | Int(value: int) {

    /** JavaScript truthiness: NaN and zero (including -0) are falsy. */
    predicate Truthy()
    {
      Int? && value != 0
    }
  }

  /**
   * StrWhiteSpaceChar of ECMAScript: TAB, VT, FF, SP, NBSP, ZWNBSP, the other
   * space separators (category Zs) and the line terminators LF, CR, LS, PS.
   */
  predicate IsJsSpace(c: char)
  {
    || c == '\t' || c == '\U{000B}' || c == '\U{000C}' || c == ' '
    || c == '\U{00A0}' || c == '\U{FEFF}' || c == '\U{1680}'
    || ('\U{2000}' <= c <= '\U{200A}')
    || c == '\U{202F}' || c == '\U{205F}' || c == '\U{3000}'
    || c == '\n' || c == '\r' || c == '\U{2028}' || c == '\U{2029}'
  }

  /** `s` with its leading white space removed. */
  function TrimStart(s: string): (r: string)
    ensures |r| <= |s| && s[|s| - |r|..] == r
    ensures forall i :: 0 <= i < |s| - |r| ==> IsJsSpace(s[i])
    ensures |r| > 0 ==> !IsJsSpace(r[0])
  {
    if |s| > 0 && IsJsSpace(s[0]) then TrimStart(s[1..]) else s
  }

  /** Digits, signs and the other printable ASCII starters are not white space. */
  lemma NotSpace(c: char)
    requires IsDigit(c) || c == '-' || c == '+'
    ensures !IsJsSpace(c)
  {
  }

  /** The longest run of digits at the front of `u`, read as a number; NaN when there is none. */
  function ReadDigits(u: string): (r: JsInt)
    ensures r.NaN? <==> !(|u| > 0 && IsDigit(u[0]))
    ensures r.Int? ==> r.value >= 0
  {
    var k := DigitRun(u);
    assert k > 0 ==> u[..k][0] == u[0];
    if k == 0 then NaN else Int(ValueOf(u[..k]))
  }

  /** After an optional sign, `t` starts with a digit. */
  predicate DigitFollows(t: string)
  {
    || (|t| > 0 && IsDigit(t[0]))
    || (|t| > 1 && (t[0] == '-' || t[0] == '+') && IsDigit(t[1]))
  }

  /** An optional sign, then the digits. */
  function ReadSigned(t: string): (r: JsInt)
    ensures r.NaN? <==> !DigitFollows(t)
    ensures r.Int? && r.value < 0 ==> t[0] == '-'
  {
    if |t| > 0 && t[0] == '-' then
      match ReadDigits(t[1..])
      case NaN => NaN
      case Int(v) => Int(-v)
    else if |t| > 0 && t[0] == '+' then ReadDigits(t[1..])
    else ReadDigits(t)
  }

  /**
   * `parseInt(s, 10)`: skip leading white space, take an optional sign, then
   * the longest run of digits; NaN when that run is empty.
   */
  function ParseInt(s: string): (r: JsInt)
    ensures r.NaN? <==> !DigitFollows(TrimStart(s))
    ensures r.Int? && r.value < 0 ==> TrimStart(s)[0] == '-'
  {
    ReadSigned(TrimStart(s))
  }

  /** Characters that make `parseInt` start reading a number. */
  predicate StartsNumber(c: char)
  {
    IsJsSpace(c) || IsDigit(c) || c == '-' || c == '+'
  }

  /** `parseInt` gives NaN on the empty string and on text that does not start a number. */
  lemma ParseIntNaN(s: string)
    requires |s| == 0 || !StartsNumber(s[0])
    ensures ParseInt(s) == NaN
  {
  }

  /** `parseInt("0")` is zero, which JavaScript treats as false. */
  lemma ParseIntZero()
    ensures ParseInt("0") == Int(0)
  {
    assert TrimStart("0") == "0";
    assert DigitRun("0") == 1;
  }

  /** A rendered natural number followed by a non-digit is read as that number. */
  lemma ReadDigitsDecimal(n: nat, rest: string)
    requires |rest| == 0 || !IsDigit(rest[0])
    ensures ReadDigits(Decimal(n) + rest) == Int(n)
  {
    var d := Decimal(n);
    var u := d + rest;
    DigitRunOf(d, rest);
    assert u[..DigitRun(u)] == d;
    DecimalValue(n);
  }

  /** `parseInt` reads back a rendered natural number. */
  lemma ParseIntDecimal(n: nat, rest: string)
    requires |rest| == 0 || !IsDigit(rest[0])
    ensures ParseInt(Decimal(n) + rest) == Int(n)
    ensures rest == "" ==> ParseInt(Decimal(n)) == Int(n)
  {
    var u := Decimal(n) + rest;
    NotSpace(u[0]);
    assert TrimStart(u) == u;
    ReadDigitsDecimal(n, rest);
    assert rest == "" ==> u == Decimal(n);
  }

  /** `parseInt` reads back a rendered natural number behind a sign. */
  lemma ParseIntSignedDecimal(sign: char, n: nat, rest: string)
    requires sign == '-' || sign == '+'
    requires |rest| == 0 || !IsDigit(rest[0])
    ensures ParseInt([sign] + (Decimal(n) + rest)) == Int(if sign == '-' then -(n as int) else n)
    ensures rest == "" ==> ParseInt([sign] + Decimal(n)) == Int(if sign == '-' then -(n as int) else n)
  {
    var u := Decimal(n) + rest;
    assert ReadDigits(u) == Int(n) by { ReadDigitsDecimal(n, rest); }
    ParseIntSign(sign, u, n);
    assert rest == "" ==> u == Decimal(n);
  }

  /** The digit reading of any digit run, leading zeros included, followed by a non-digit. */
  lemma ReadDigitsOf(d: string, rest: string)
    requires |d| > 0 && AllDigits(d)
    requires |rest| == 0 || !IsDigit(rest[0])
    ensures ReadDigits(d + rest) == Int(ValueOf(d))
  {
    DigitRunOf(d, rest);
    assert (d + rest)[..DigitRun(d + rest)] == d;
  }

  /** Leading white space does not change what `TrimStart` leaves. */
  lemma {:induction false} TrimSpaces(ws: string, t: string)
    requires forall i :: 0 <= i < |ws| ==> IsJsSpace(ws[i])
    ensures TrimStart(ws + t) == TrimStart(t)
  {
    if |ws| == 0 {
      assert ws + t == t;
    } else {
      assert (ws + t)[0] == ws[0];
      assert (ws + t)[1..] == ws[1..] + t;
      TrimSpaces(ws[1..], t);
    }
  }

  /** Leading white space does not change what `parseInt` reads. */
  lemma ParseIntSpaces(ws: string, t: string)
    requires forall i :: 0 <= i < |ws| ==> IsJsSpace(ws[i])
    ensures ParseInt(ws + t) == ParseInt(t)
  {
    TrimSpaces(ws, t);
  }

  /** A run of digits (leading zeros allowed), then a non-digit: the run's value. */
  lemma ParseIntRun(d: string, rest: string)
    requires |d| > 0 && AllDigits(d)
    requires |rest| == 0 || !IsDigit(rest[0])
    ensures ParseInt(d + rest) == Int(ValueOf(d))
  {
    var u := d + rest;
    NotSpace(u[0]);
    assert TrimStart(u) == u;
    ReadDigitsOf(d, rest);
  }

  /** A sign in front of text whose digit reading is `v`: `parseInt` gives `v`, negated for '-'. */
  lemma ParseIntSign(sign: char, u: string, v: nat)
    requires sign == '-' || sign == '+'
    requires ReadDigits(u) == Int(v)
    ensures ParseInt([sign] + u) == Int(if sign == '-' then -(v as int) else v)
  {
    var t := [sign] + u;
    NotSpace(sign);
    assert TrimStart(t) == t;
    assert t[1..] == u;
  }

  /**
   * `parseInt` in general: white space, a run of digits (leading zeros
   * allowed) and then anything not starting with a digit give the run's value.
   */
  lemma ParseIntOf(ws: string, d: string, rest: string)
    requires forall i :: 0 <= i < |ws| ==> IsJsSpace(ws[i])
    requires |d| > 0 && AllDigits(d)
    requires |rest| == 0 || !IsDigit(rest[0])
    ensures ParseInt(ws + d + rest) == Int(ValueOf(d))
  {
    assert ws + d + rest == ws + (d + rest);
    ParseIntSpaces(ws, d + rest);
    ParseIntRun(d, rest);
  }

  /** The same with a sign between the white space and text whose digit reading is `v`. */
  lemma ParseIntSignedOf(ws: string, sign: char, u: string, v: nat)
    requires forall i :: 0 <= i < |ws| ==> IsJsSpace(ws[i])
    requires sign == '-' || sign == '+'
    requires ReadDigits(u) == Int(v)
    ensures ParseInt(ws + ([sign] + u)) == Int(if sign == '-' then -(v as int) else v)
  {
    ParseIntSpaces(ws, [sign] + u);
    ParseIntSign(sign, u, v);
  }
}
