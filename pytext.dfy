// The handful of Python string and number primitives the driver relies on,
// with Python's own edge cases: clamped slices, IndexError on an index past
// the end, `int()` and `float()` on text, `round()` and `str.find`.

module PyText {
  import opened RFECommon

  // ----- slicing and indexing -----

  /** `s[i:j]` for non-negative bounds: both ends are clamped to the length. */
  function Slice(s: string, i: nat, j: nat): (r: string)
    ensures i <= j <= |s| ==> r == s[i..j]
    ensures |r| <= |s| && (j <= i ==> r == [])
    ensures j >= |s| && i <= |s| ==> r == s[i..]
  {
    if j > |s| then (if i > |s| then [] else s[i..])
    else if i > j then []
    else s[i..j]
  }

  /** Python list indexing: the position `k` names in a list of `len` entries, negative counting from the end. */
  function PyIndex(k: int, len: nat): (r: Option<nat>)
    ensures r.Some? ==> r.value < len
    ensures 0 <= k < len ==> r == Some(k)
    ensures r.None? <==> (k >= len || k < -(len as int))
  {
    if 0 <= k < len then Some(k)
    else if -(len as int) <= k < 0 then Some(len + k)
    else None
  }

  /** `s[k]` for k >= 0: None where Python raises IndexError. */
  function CharAt(s: string, k: nat): (r: Option<char>)
    ensures r.None? <==> k >= |s|
    ensures r.Some? ==> r.value == s[k]
  {
    if k < |s| then Some(s[k]) else None
  }

  predicate StartsWith(s: string, prefix: string) {
    |prefix| <= |s| && s[..|prefix|] == prefix
  }

  // ----- str.find("\r\n") -----

  predicate CrlfAt(s: string, i: int) {
    0 <= i && i + 1 < |s| && s[i] == '\r' && s[i + 1] == '\n'
  }

  /** Index of the first "\r\n" at or after `from`, or -1. */
  function FindCrlfFrom(s: string, from: nat): (r: int)
    decreases |s| - from
    ensures r == -1 || (from <= r && CrlfAt(s, r))
    ensures r == -1 ==> forall i :: from <= i < |s| ==> !CrlfAt(s, i)
    ensures r != -1 ==> forall i :: from <= i < r ==> !CrlfAt(s, i)
  {
    if from + 1 >= |s| then -1
    else if s[from] == '\r' && s[from + 1] == '\n' then from
    else FindCrlfFrom(s, from + 1)
  }

  /** `s.find("\r\n")`: the first occurrence, or -1 when there is none. */
  function FindCrlf(s: string): (r: int)
    ensures r == -1 <==> forall i :: 0 <= i < |s| ==> !CrlfAt(s, i)
    ensures r != -1 ==> CrlfAt(s, r) && forall i :: 0 <= i < r ==> !CrlfAt(s, i)
  {
    FindCrlfFrom(s, 0)
  }

  /** Text without "\r\n" followed by "\r\n": `find` stops right after the text. */
  lemma FindCrlfTerminated(line: string, rest: string)
    requires forall i :: 0 <= i < |line| ==> !CrlfAt(line, i)
    ensures FindCrlf(line + "\r\n" + rest) == |line|
  {
    var s := line + "\r\n" + rest;
    assert CrlfAt(s, |line|);
    forall i | 0 <= i < |line|
      ensures !CrlfAt(s, i)
    {
      if i + 1 < |line| {
        assert !CrlfAt(line, i);
      } else {
        assert s[i + 1] == '\r';
      }
    }
  }

  // ----- whitespace -----

  /** Python's `str.isspace` on one character, as used by `int()` and `float()`. */
  predicate IsSpace(c: char) {
    ('\t' <= c <= '\r') || ('\U{1c}' <= c <= ' ') || c == '\U{85}' || c == '\U{a0}'
    || c == '\U{1680}' || ('\U{2000}' <= c <= '\U{200a}') || c == '\U{2028}' || c == '\U{2029}'
    || c == '\U{202f}' || c == '\U{205f}' || c == '\U{3000}'
  }

  /** `s.lstrip()`. */
  function StripLeft(s: string): string {
    if s != [] && IsSpace(s[0]) then StripLeft(s[1..]) else s
  }

  /** `s.rstrip()`. */
  function StripRight(s: string): string {
    if s != [] && IsSpace(s[|s| - 1]) then StripRight(s[..|s| - 1]) else s
  }

  function Strip(s: string): string {
    StripRight(StripLeft(s))
  }

  /** `lstrip` removes a prefix of whitespace and stops at the first other character. */
  lemma {:induction false} StripLeftShape(s: string)
    ensures |StripLeft(s)| <= |s| && StripLeft(s) == s[|s| - |StripLeft(s)|..]
    ensures forall i :: 0 <= i < |s| - |StripLeft(s)| ==> IsSpace(s[i])
    ensures StripLeft(s) == [] || !IsSpace(StripLeft(s)[0])
    decreases |s|
  {
    if s != [] && IsSpace(s[0]) {
      StripLeftShape(s[1..]);
      assert s[1..][|s| - 1 - |StripLeft(s)|..] == s[|s| - |StripLeft(s)|..];
    }
  }

  /** `rstrip` removes a suffix of whitespace and stops at the last other character. */
  lemma {:induction false} StripRightShape(s: string)
    ensures |StripRight(s)| <= |s| && StripRight(s) == s[..|StripRight(s)|]
    ensures forall i :: |StripRight(s)| <= i < |s| ==> IsSpace(s[i])
    ensures StripRight(s) == [] || !IsSpace(StripRight(s)[|StripRight(s)| - 1])
    decreases |s|
  {
    if s != [] && IsSpace(s[|s| - 1]) {
      StripRightShape(s[..|s| - 1]);
    }
  }

  /** Text that starts and ends with non-space characters is left alone by `Strip`. */
  lemma StripNoSpace(s: string)
    requires s == [] || (!IsSpace(s[0]) && !IsSpace(s[|s| - 1]))
    ensures Strip(s) == s
  {
  }

  // ----- int() -----

  predicate IsDigit(c: char) {
    '0' <= c <= '9'
  }

  function DigitValue(c: char): int
    requires IsDigit(c)
  {
    c as int - '0' as int
  }

  /** Decimal digits where a single '_' may separate two digits, as `int()` accepts. */
  predicate IsDigitRun(d: string)
    decreases |d|
  {
    |d| > 0 && IsDigit(d[0]) &&
    (|d| == 1 || (if d[1] == '_' then IsDigitRun(d[2..]) else IsDigitRun(d[1..])))
  }

  /** The number written by a digit run (underscores carry no value). */
  function RunValue(d: string): nat {
    if d == [] then 0
    else if IsDigit(d[|d| - 1]) then RunValue(d[..|d| - 1]) * 10 + DigitValue(d[|d| - 1])
    else RunValue(d[..|d| - 1])
  }

  /** Number of digits in a run (the scale of a fraction). */
  function RunDigits(d: string): nat {
    if d == [] then 0
    else (if IsDigit(d[|d| - 1]) then 1 else 0) + RunDigits(d[..|d| - 1])
  }

  /** `int(s)` on text: None where Python raises ValueError. */
  function ParseInt(s: string): Option<int> {
    ParseSignedRun(Strip(s))
  }

  /** An optional sign followed by a digit run, without surrounding space. */
  function ParseSignedRun(t: string): Option<int> {
    if |t| > 0 && (t[0] == '+' || t[0] == '-') then
      if IsDigitRun(t[1..]) then Some(if t[0] == '-' then 0 - RunValue(t[1..]) else RunValue(t[1..])) else None
    else if IsDigitRun(t) then Some(RunValue(t))
    else None
  }

  /** `str(n)` for an integer. */
  function IntToStr(n: int): (r: string)
    ensures |r| > 0 && (r[0] == '-' || IsDigit(r[0])) && IsDigit(r[|r| - 1])
  {
    if n < 0 then "-" + NatToStr(-n) else NatToStr(n)
  }

  function NatToStr(n: nat): (r: string)
    ensures |r| > 0 && IsDigit(r[0]) && IsDigit(r[|r| - 1])
  {
    if n < 10 then [DigitChar(n)] else NatToStr(n / 10) + [DigitChar(n % 10)]
  }

  function DigitChar(k: nat): (c: char)
    requires k < 10
    ensures IsDigit(c) && DigitValue(c) == k
  {
    ('0' as int + k) as char
  }

  lemma {:induction false} NatToStrIsRun(n: nat)
    ensures IsDigitRun(NatToStr(n)) && RunValue(NatToStr(n)) == n
    ensures forall i :: 0 <= i < |NatToStr(n)| ==> IsDigit(NatToStr(n)[i])
    decreases n
  {
    if n >= 10 {
      NatToStrIsRun(n / 10);
      var p := NatToStr(n / 10);
      var s := NatToStr(n);
      assert s == p + [DigitChar(n % 10)];
      assert s[..|s| - 1] == p;
      AllDigitsIsRun(s);
    }
  }

  lemma {:induction false} AllDigitsIsRun(d: string)
    requires |d| > 0 && forall i :: 0 <= i < |d| ==> IsDigit(d[i])
    ensures IsDigitRun(d)
    decreases |d|
  {
    if |d| > 1 {
      AllDigitsIsRun(d[1..]);
    }
  }

  /** `int(str(n)) == n`: the integer text the driver parses round-trips. */
  lemma IntRoundTrip(n: int)
    ensures ParseInt(IntToStr(n)) == Some(n)
  {
    var s := IntToStr(n);
    StripNoSpace(s);
    SignedRunRoundTrip(n);
  }

  lemma SignedRunRoundTrip(n: int)
    ensures ParseSignedRun(IntToStr(n)) == Some(n)
  {
    var s := IntToStr(n);
    if n < 0 {
      NatToStrIsRun(-n);
      assert s[1..] == NatToStr(-n);
    } else {
      NatToStrIsRun(n);
    }
  }

  /** Appending a digit shifts the value of a run one decimal place. */
  lemma RunValueSnoc(d: string, c: char)
    requires IsDigit(c)
    ensures RunValue(d + [c]) == RunValue(d) * 10 + DigitValue(c)
  {
    assert (d + [c])[..|d|] == d;
  }

  /** `int()` of plain decimal digits (leading zeros allowed) is their value. */
  lemma DigitsParse(d: string)
    requires |d| > 0 && forall i :: 0 <= i < |d| ==> IsDigit(d[i])
    ensures ParseInt(d) == Some(RunValue(d))
  {
    AllDigitsIsRun(d);
    assert !IsSpace(d[0]) && !IsSpace(d[|d| - 1]);
    StripNoSpace(d);
    assert d[0] != '+' && d[0] != '-';
    assert ParseSignedRun(d) == Some(RunValue(d));
  }

  /** `int(ch)` on a single character: only a decimal digit parses. */
  function CharInt(ch: char): (r: Option<int>)
    ensures r == ParseInt([ch])
    ensures r.Some? ==> 0 <= r.value <= 9
  {
    assert [ch][1..] == [] && [ch][..0] == [];
    assert StripLeft([ch]) == (if IsSpace(ch) then [] else [ch]);
    assert Strip([ch]) == (if IsSpace(ch) then [] else [ch]);
    if IsDigit(ch) then
      assert IsDigitRun([ch]) && RunValue([ch]) == DigitValue(ch);
      Some(DigitValue(ch))
    else None
  }

  // ----- float() -----

  function Pow10(e: nat): (r: nat)
    ensures r >= 1
  {
    if e == 0 then 1 else 10 * Pow10(e - 1)
  }

  function Scale(e: int): (r: real)
    ensures r > 0.0
  {
    if e >= 0 then Pow10(e) as real else 1.0 / Pow10(-e) as real
  }

  /** Index of the first character satisfying the test, or |s|. */
  function FindChar(s: string, c: char): (r: nat)
    ensures r <= |s| && forall i :: 0 <= i < r ==> s[i] != c
    ensures r < |s| ==> s[r] == c
  {
    if s == [] then 0 else if s[0] == c then 0 else 1 + FindChar(s[1..], c)
  }

  function FindExponent(s: string): (r: nat)
    ensures r <= |s| && forall i :: 0 <= i < r ==> s[i] != 'e' && s[i] != 'E'
    ensures r < |s| ==> s[r] == 'e' || s[r] == 'E'
  {
    if s == [] then 0 else if s[0] == 'e' || s[0] == 'E' then 0 else 1 + FindExponent(s[1..])
  }

  /** Digits with an optional decimal point: "12", "12.", ".5", "12.50". */
  function ParseMantissa(m: string): Option<real> {
    var p := FindChar(m, '.');
    if p == |m| then
      if IsDigitRun(m) then Some(RunValue(m) as real) else None
    else
      var whole := m[..p];
      var frac := m[p + 1..];
      if (whole == [] || IsDigitRun(whole)) && (frac == [] || IsDigitRun(frac)) && (whole != [] || frac != []) then
        Some(RunValue(whole) as real + RunValue(frac) as real / Pow10(RunDigits(frac)) as real)
      else None
  }

  function ParseUnsignedFloat(t: string): Option<real> {
    var e := FindExponent(t);
    match ParseMantissa(t[..e])
    case None => None
    case Some(m) =>
      if e == |t| then Some(m)
      else
        match ParseSignedRun(t[e + 1..])
        case None => None
        case Some(x) => Some(m * Scale(x))
  }

  /** `float(s)` on decimal text: None where Python raises ValueError. */
  function ParseFloat(s: string): Option<real> {
    var t := Strip(s);
    if |t| > 0 && (t[0] == '+' || t[0] == '-') then
      match ParseUnsignedFloat(t[1..])
      case None => None
      case Some(v) => Some(if t[0] == '-' then -v else v)
    else ParseUnsignedFloat(t)
  }

  /** Every text `int()` accepts, `float()` accepts with the same value. */
  lemma ParseFloatExtendsParseInt(s: string)
    ensures ParseInt(s).Some? ==> ParseFloat(s) == Some(ParseInt(s).value as real)
  {
    var t := Strip(s);
    if ParseInt(s).Some? {
      if |t| > 0 && (t[0] == '+' || t[0] == '-') {
        RunAsFloat(t[1..]);
      } else {
        RunAsFloat(t);
      }
    }
  }

  lemma RunAsFloat(d: string)
    requires IsDigitRun(d)
    ensures ParseUnsignedFloat(d) == Some(RunValue(d) as real)
  {
    RunHasNoMarks(d);
    assert d[..|d|] == d;
  }

  lemma {:induction false} RunHasNoMarks(d: string)
    requires IsDigitRun(d)
    ensures FindChar(d, '.') == |d| && FindExponent(d) == |d|
    decreases |d|
  {
    if |d| > 1 {
      if d[1] == '_' {
        RunHasNoMarks(d[2..]);
        assert d[1..][1..] == d[2..];
      } else {
        RunHasNoMarks(d[1..]);
      }
    }
  }

  // ----- round() -----

  /** Python 3 `round(x)`: nearest integer, ties to the even neighbour. */
  function RoundHalfEven(x: real): (r: int)
    ensures (r as real) - 0.5 <= x <= (r as real) + 0.5
    ensures x - (x.Floor as real) != 0.5 ==> (r as real - x <= 0.5 && x - r as real < 0.5)
    ensures x - (x.Floor as real) == 0.5 ==> r % 2 == 0
  {
    var f := x.Floor;
    var d := x - f as real;
    if d < 0.5 then f
    else if d > 0.5 then f + 1
    else if f % 2 == 0 then f else f + 1
  }

  // ----- upper() -----

  /**
   * `c.upper()`: ASCII letters and the characters whose upper case is ASCII
   * text (sharp s, dotless i, long s and the Latin ligatures). Any other
   * character is kept as it is; its real upper case is, like the character
   * itself, not ASCII text, so comparisons with ASCII text come out the same.
   */
  function UpperChar(c: char): (r: string)
    ensures c as int < 128 ==> |r| == 1
    ensures (forall i :: 0 <= i < |r| ==> r[i] as int < 128) <==> (c as int < 128 || c in UPPER_TO_ASCII)
  {
    if 'a' <= c <= 'z' then [(c as int - 32) as char]
    else if c == '\U{00DF}' then "SS"
    else if c == '\U{0131}' then "I"
    else if c == '\U{017F}' then "S"
    else if c == '\U{FB00}' then "FF"
    else if c == '\U{FB01}' then "FI"
    else if c == '\U{FB02}' then "FL"
    else if c == '\U{FB03}' then "FFI"
    else if c == '\U{FB04}' then "FFL"
    else if c == '\U{FB05}' || c == '\U{FB06}' then "ST"
    else assert [c][0] == c; [c]
  }

  /** The non-ASCII characters whose upper case is ASCII text. */
  const UPPER_TO_ASCII: set<char> := {'\U{00DF}', '\U{0131}', '\U{017F}', '\U{FB00}', '\U{FB01}', '\U{FB02}', '\U{FB03}', '\U{FB04}', '\U{FB05}', '\U{FB06}'}

  /** `s.upper()`, character by character (see `UpperChar`). */
  function Upper(s: string): string {
    if s == [] then [] else UpperChar(s[0]) + Upper(s[1..])
  }

  /** Text of capitals, digits and punctuation is its own upper case. */
  lemma {:induction false} UpperOfUpper(s: string)
    requires forall i :: 0 <= i < |s| ==> s[i] as int < 128 && !('a' <= s[i] <= 'z')
    ensures Upper(s) == s
    decreases |s|
  {
    if s != [] {
      UpperOfUpper(s[1..]);
      assert s == [s[0]] + s[1..];
    }
  }
}
