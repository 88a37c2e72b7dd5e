/**
 * Value normalisation of monitor_control.py: `clamp`, the decimal reading of a command-line
 * word done by Python's `int(str)`, and the argparse type check `int_0_100` built on it.
 */
module Normalize {
  import opened Wrappers

  /** The lowest and highest brightness or contrast percentage. */
  const MinLevel := 0
  const MaxLevel := 100

  /**
   * `clamp(value, lo, hi)`, i.e. `max(lo, min(hi, value))`. Like the Python expression it is
   * total: with `lo > hi` the outer `max` wins and the result is `lo`.
   */
  function Clamp(value: int, lo: int, hi: int): (r: int)
    ensures lo <= r
    ensures lo <= hi ==> r <= hi
    ensures lo <= value <= hi ==> r == value
    ensures lo <= hi < value ==> r == hi
    ensures value < lo ==> r == lo
  {
    var upper := if hi < value then hi else value;
    if lo > upper then lo else upper
  }

  /** The normalisation applied to every write: `clamp(value, 0, 100)`. */
  function ClampLevel(value: int): (r: int)
    ensures MinLevel <= r <= MaxLevel
    ensures MinLevel <= value <= MaxLevel ==> r == value
    ensures value > MaxLevel ==> r == MaxLevel
    ensures value < MinLevel ==> r == MinLevel
  {
    Clamp(value, MinLevel, MaxLevel)
  }

  /** Clamping twice is clamping once. */
  lemma ClampIdempotent(value: int, lo: int, hi: int)
    ensures Clamp(Clamp(value, lo, hi), lo, hi) == Clamp(value, lo, hi)
  {
  }

  /** Adjustments saturate at the bounds instead of wrapping or failing. */
  lemma ClampExamples()
    ensures ClampLevel(150) == 100 && ClampLevel(-20) == 0 && ClampLevel(57) == 57
    ensures ClampLevel(95 + 20) == 100 && ClampLevel(75 - 10) == 65
  {
  }

  // ---------------------------------------------------------------------------------------
  // Python's int(str) for base 10

  /**
   * The characters `int` strips at both ends: the ASCII space, tab, line feed, vertical tab,
   * form feed and carriage return, and every non-ASCII character for which `str.isspace()`
   * holds. The ASCII separators U+001C to U+001F are not stripped, although `str.isspace()`
   * holds for them, because `int` passes ASCII text to its C parser, which skips only C-locale
   * space.
   */
  predicate IsSpace(c: char)
  {
    || c == ' ' || ('\t' <= c <= '\r')
    || c == '\U{85}' || c == '\U{A0}' || c == '\U{1680}'
    || ('\U{2000}' <= c <= '\U{200A}') || c == '\U{2028}' || c == '\U{2029}'
    || c == '\U{202F}' || c == '\U{205F}' || c == '\U{3000}'
  }

  predicate IsDigit(c: char)
  {
    '0' <= c <= '9'
  }

  function DigitValue(c: char): (d: nat)
    requires IsDigit(c)
    ensures d < 10
  {
    c as int - '0' as int
  }

  function DigitChar(d: nat): (c: char)
    requires d < 10
    ensures IsDigit(c) && DigitValue(c) == d
  {
    ('0' as int + d) as char
  }

  /** `s` with its leading whitespace removed. */
  function StripLeft(s: string): string
  {
    if s != [] && IsSpace(s[0]) then StripLeft(s[1..]) else s
  }

  /** `s` with its trailing whitespace removed. */
  function StripRight(s: string): string
  {
    if s != [] && IsSpace(s[|s| - 1]) then StripRight(s[..|s| - 1]) else s
  }

  /** Stripping on the left removes a run of whitespace and stops at the first other character. */
  lemma {:induction false} StripLeftSpec(s: string)
    ensures |StripLeft(s)| <= |s| && StripLeft(s) == s[|s| - |StripLeft(s)|..]
    ensures StripLeft(s) == [] || !IsSpace(StripLeft(s)[0])
    ensures forall j :: 0 <= j < |s| - |StripLeft(s)| ==> IsSpace(s[j])
  {
    if s != [] && IsSpace(s[0]) {
      StripLeftSpec(s[1..]);
      forall j | 0 <= j < |s| - |StripLeft(s)| ensures IsSpace(s[j]) {
        if j > 0 { assert s[j] == s[1..][j - 1]; }
      }
    }
  }

  /** Stripping on the right removes a run of whitespace and stops at the last other character. */
  lemma {:induction false} StripRightSpec(s: string)
    ensures |StripRight(s)| <= |s| && StripRight(s) == s[..|StripRight(s)|]
    ensures StripRight(s) == [] || !IsSpace(StripRight(s)[|StripRight(s)| - 1])
    ensures forall j :: |StripRight(s)| <= j < |s| ==> IsSpace(s[j])
  {
    if s != [] && IsSpace(s[|s| - 1]) {
      StripRightSpec(s[..|s| - 1]);
      forall j | |StripRight(s)| <= j < |s| ensures IsSpace(s[j]) {
        if j < |s| - 1 { assert s[j] == s[..|s| - 1][j]; }
      }
    }
  }

  /** `s.strip()`. */
  function Strip(s: string): string
  {
    StripRight(StripLeft(s))
  }

  /**
   * The digit part of a base-10 literal as `int` accepts it: digits, where single
   * underscores may separate two digits ("1_000"), but none may lead, trail or repeat.
   */
  predicate WellFormedDigits(b: string)
  {
    && |b| > 0
    && IsDigit(b[0]) && IsDigit(b[|b| - 1])
    && (forall j :: 0 <= j < |b| ==> IsDigit(b[j]) || b[j] == '_')
    && (forall j :: 0 <= j < |b| - 1 ==> !(b[j] == '_' && b[j + 1] == '_'))
  }

  /** The number the digits of `b` denote, underscores ignored, leading zeros allowed. */
  function DigitsValue(b: string): nat
    requires forall j :: 0 <= j < |b| ==> IsDigit(b[j]) || b[j] == '_'
  {
    if b == [] then 0
    else if b[|b| - 1] == '_' then DigitsValue(b[..|b| - 1])
    else DigitsValue(b[..|b| - 1]) * 10 + DigitValue(b[|b| - 1])
  }

  /**
   * The default limit on the digits of an integer converted from or to text
   * (`sys.get_int_max_str_digits()`); leading zeros count, underscores do not.
   */
  const MaxStrDigits := 4300

  /** The number of digits in `b`, underscores not counted. */
  function DigitCount(b: string): (n: nat)
    ensures n <= |b|
  {
    if b == [] then 0
    else DigitCount(b[..|b| - 1]) + if b[|b| - 1] == '_' then 0 else 1
  }

  /** In a word made only of digits, every character counts. */
  lemma {:induction false} DigitCountOfDigits(b: string)
    requires forall j :: 0 <= j < |b| ==> IsDigit(b[j])
    ensures DigitCount(b) == |b|
  {
    if b != [] {
      DigitCountOfDigits(b[..|b| - 1]);
    }
  }

  /** `int(s)`: `Some(v)` where Python returns `v`, `None` where it raises `ValueError`. */
  function ParseInt(s: string): (r: Option<int>)
    ensures r.Some? ==> Strip(s) != []
  {
    ParseSigned(Strip(s))
  }

  /** A stripped literal: an optional sign followed by well-formed digits. */
  function ParseSigned(t: string): (r: Option<int>)
    ensures r.Some? ==> t != []
    ensures r.Some? && r.value < 0 ==> t[0] == '-'
  {
    if t == [] then None
    else
      var negative := t[0] == '-';
      var body := if t[0] == '-' || t[0] == '+' then t[1..] else t;
      if !WellFormedDigits(body) || DigitCount(body) > MaxStrDigits then None
      else
        var magnitude: int := DigitsValue(body);
        Some(if negative then -magnitude else magnitude)
  }

  /** The canonical decimal digits of `n`, without leading zeros. */
  function Digits(n: nat): (b: string)
    ensures |b| > 0 && forall j :: 0 <= j < |b| ==> IsDigit(b[j])
  {
    if n < 10 then [DigitChar(n)] else Digits(n / 10) + [DigitChar(n % 10)]
  }

  /** `str(v)` for an integer `v`. */
  function FormatInt(v: int): string
  {
    if v < 0 then "-" + Digits(-v) else Digits(v)
  }

  lemma {:induction false} DigitsValueOfDigits(n: nat)
    ensures DigitsValue(Digits(n)) == n
  {
    var b := Digits(n);
    if n >= 10 {
      DigitsValueOfDigits(n / 10);
      assert b[..|b| - 1] == Digits(n / 10);
    }
  }

  lemma StripUnchanged(s: string)
    requires s != [] && !IsSpace(s[0]) && !IsSpace(s[|s| - 1])
    ensures Strip(s) == s
  {
  }

  /** Canonical digits are well formed: first and last are digits, and no underscore at all. */
  lemma DigitsWellFormed(n: nat)
    ensures WellFormedDigits(Digits(n))
  {
    var b := Digits(n);
    forall j | 0 <= j < |b| - 1 ensures !(b[j] == '_' && b[j + 1] == '_') {
      assert IsDigit(b[j]);
    }
  }

  lemma ParseSignedDigits(n: nat)
    requires |Digits(n)| <= MaxStrDigits
    ensures ParseSigned(Digits(n)) == Some(n)
    ensures ParseSigned("-" + Digits(n)) == Some(-(n as int))
  {
    var b := Digits(n);
    DigitsValueOfDigits(n);
    DigitsWellFormed(n);
    DigitCountOfDigits(b);
    assert IsDigit(b[0]);
    assert ("-" + b)[1..] == b;
  }

  lemma StripFormat(v: int)
    ensures Strip(FormatInt(v)) == FormatInt(v)
  {
    var s := FormatInt(v);
    var b := Digits(if v < 0 then -v else v);
    assert s[|s| - 1] == b[|b| - 1];
    assert IsDigit(s[0]) || s[0] == '-';
    StripUnchanged(s);
  }

  /** The absolute value, whose digits `str` writes after any minus sign. */
  function Magnitude(v: int): (n: nat)
    ensures n == v || n == -v
  {
    if v < 0 then -v else v
  }

  /**
   * Reading back what `str` writes gives the number again: `int(str(v)) == v` for every
   * integer that `str` converts, i.e. one of at most `MaxStrDigits` digits.
   */
  lemma ParseFormat(v: int)
    requires |Digits(Magnitude(v))| <= MaxStrDigits
    ensures ParseInt(FormatInt(v)) == Some(v)
  {
    StripFormat(v);
    ParseSignedDigits(Magnitude(v));
  }

  // ---------------------------------------------------------------------------------------
  // The argparse type int_0_100

  /** The two `argparse.ArgumentTypeError` messages of `int_0_100`. */
  datatype ArgumentError = NotAnInteger | OutOfRange

  /** `int_0_100(s)`: the integer `s` denotes if it lies in [0, 100], otherwise the error raised. */
  function Int0To100(s: string): (r: Result<int, ArgumentError>)
    ensures r.Ok? <==> ParseInt(s).Some? && MinLevel <= ParseInt(s).value <= MaxLevel
    ensures r.Ok? ==> r.value == ParseInt(s).value
    ensures r == Err(NotAnInteger) <==> ParseInt(s).None?
  {
    match ParseInt(s)
    case None => Err(NotAnInteger)
    case Some(v) => if MinLevel <= v <= MaxLevel then Ok(v) else Err(OutOfRange)
  }

  /**
   * The decimal text of any integer `str` can write is accepted exactly when the integer is
   * a percentage.
   */
  lemma Int0To100OfFormat(v: int)
    requires |Digits(Magnitude(v))| <= MaxStrDigits
    ensures Int0To100(FormatInt(v)) == if MinLevel <= v <= MaxLevel then Ok(v) else Err(OutOfRange)
  {
    ParseFormat(v);
  }

  /** Whitespace at either end is stripped; a word without any is left as it is. */
  lemma StripExamples()
    ensures Strip(" 42\n") == "42"
    ensures Strip("75") == "75" && Strip("101") == "101" && Strip("-1") == "-1"
    ensures Strip("+1_0") == "+1_0" && Strip("1__0") == "1__0" && Strip("4.5") == "4.5"
    ensures Strip("- 5") == "- 5" && Strip("\U{1C}5") == "\U{1C}5"
  {
    assert StripLeft(" 42\n") == "42\n" by { assert " 42\n"[1..] == "42\n"; }
    assert StripRight("42\n") == "42" by { assert "42\n"[..2] == "42"; }
    StripUnchanged("75");
    StripUnchanged("101");
    StripUnchanged("-1");
    StripUnchanged("+1_0");
    StripUnchanged("1__0");
    StripUnchanged("4.5");
    StripUnchanged("- 5");
    StripUnchanged("\U{1C}5");
  }

  /** Signed digit words: a sign and single separators are allowed, anything else is not. */
  lemma ParseSignedExamples()
    ensures ParseSigned("42") == Some(42) && ParseSigned("75") == Some(75)
    ensures ParseSigned("101") == Some(101) && ParseSigned("-1") == Some(-1)
    ensures ParseSigned("+1_0") == Some(10)
    ensures ParseSigned("1__0") == None && ParseSigned("4.5") == None && ParseSigned("- 5") == None
    ensures ParseSigned("\U{1C}5") == None
  {
    assert DigitsValue("42") == 42 by { assert "42"[..1] == "4"; }
    assert WellFormedDigits("42");
    assert DigitsValue("75") == 75 by { assert "75"[..1] == "7"; }
    assert WellFormedDigits("75");
    assert DigitsValue("101") == 101 by { assert "101"[..2] == "10" && "10"[..1] == "1"; }
    assert WellFormedDigits("101");
    assert "-1"[1..] == "1";
    assert DigitsValue("1") == 1 by { assert "1"[..0] == ""; }
    assert WellFormedDigits("1");
    assert "+1_0"[1..] == "1_0";
    assert DigitsValue("1_0") == 10 by { assert "1_0"[..2] == "1_" && "1_"[..1] == "1"; }
    assert WellFormedDigits("1_0");
    assert !WellFormedDigits("1__0") by { assert "1__0"[1] == '_' && "1__0"[2] == '_'; }
    assert !WellFormedDigits("4.5") by { assert !IsDigit("4.5"[1]) && "4.5"[1] != '_'; }
    assert "- 5"[1..] == " 5";
    assert !WellFormedDigits("\U{1C}5") by { assert !IsDigit("\U{1C}5"[0]); }
  }

  /** What `int_0_100` makes of some command-line words. */
  lemma Int0To100Examples()
    ensures Int0To100("75") == Ok(75) && Int0To100(" 42\n") == Ok(42) && Int0To100("+1_0") == Ok(10)
    ensures Int0To100("101") == Err(OutOfRange) && Int0To100("-1") == Err(OutOfRange)
    ensures Int0To100("4.5") == Err(NotAnInteger) && Int0To100("1__0") == Err(NotAnInteger)
    ensures Int0To100("- 5") == Err(NotAnInteger) && Int0To100("") == Err(NotAnInteger)
    ensures Int0To100("\U{1C}5") == Err(NotAnInteger)
  {
    StripExamples();
    ParseSignedExamples();
  }

  /** Too many digits: 4301 zeros are not an integer to `int`, although they denote 0. */
  lemma Int0To100DigitLimit()
    ensures Int0To100(seq(MaxStrDigits + 1, _ => '0')) == Err(NotAnInteger)
  {
    var s := seq(MaxStrDigits + 1, _ => '0');
    StripUnchanged(s);
    DigitCountOfDigits(s);
    assert WellFormedDigits(s);
    assert s[0] != '-' && s[0] != '+';
  }

  /** A value that passes the check is left alone by the later clamp. */
  lemma AcceptedNeedsNoClamp(s: string)
    requires Int0To100(s).Ok?
    ensures ClampLevel(Int0To100(s).value) == Int0To100(s).value
  {
  }
}
