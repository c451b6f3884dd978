/** Values shared by every part of the model: optional values, Java exceptions,
    decimal rendering and parsing of integers, and the string tests the Java code uses. */
module Common {

  /** A Java reference that may be null. */
  datatype Option<+T> = None | Some(value: T)

  datatype Result<+T, +E> = Ok(value: T) | Err(error: E)

  /** The exceptions the modelled code raises or lets escape. */
  datatype Failure =
    | SqlException(message: string)
    | IllegalArgument(message: string)
    | NumberFormat(input: string)
    | NullPointer

  /** What one DAO call does: it returns a value or raises an exception. */
  datatype Outcome<+T> = Done(value: T) | Raised(failure: Failure)

  /** A `java.time.LocalDate` as read from the clock. */
  datatype Date = Date(year: nat, month: nat, day: nat) {
    predicate Valid() { year <= 9999 && 1 <= month <= 12 && 1 <= day <= 31 }
  }

  predicate IsInt32(x: int) { -0x8000_0000 <= x < 0x8000_0000 }

  // ---------------------------------------------------------------------------
  // Decimal digits

  predicate IsDigit(c: char) { '0' <= c <= '9' }

  predicate AllDigits(s: string) { forall i :: 0 <= i < |s| ==> IsDigit(s[i]) }

  lemma AllDigitsConcat(a: string, b: string)
    requires AllDigits(a) && AllDigits(b)
    ensures AllDigits(a + b)
  {
  }

  function DigitChar(d: nat): (c: char)
    requires d < 10
    ensures IsDigit(c) && c as int - '0' as int == d
  {
    ('0' as int + d) as char
  }

  function DigitValue(c: char): nat
    requires IsDigit(c)
  {
    c as int - '0' as int
  }

  function Pow10(w: nat): nat
  {
    if w == 0 then 1 else 10 * Pow10(w - 1)
  }

  /** The decimal representation of a natural number, as `Integer.toString` prints it. */
  function NatToString(n: nat): (s: string)
    ensures 1 <= |s|
  {
    if n < 10 then [DigitChar(n)] else NatToString(n / 10) + [DigitChar(n % 10)]
  }

  /** The value of a string of decimal digits (leading zeros allowed). */
  function DigitsValue(s: string): nat
    requires AllDigits(s)
  {
    if s == [] then 0 else DigitsValue(s[..|s| - 1]) * 10 + DigitValue(s[|s| - 1])
  }

  /** Decimal printing yields digits only, one digit exactly below ten, and reads back as
      the number printed. */
  lemma {:induction false} NatToStringDigits(n: nat)
    ensures AllDigits(NatToString(n)) && DigitsValue(NatToString(n)) == n
    ensures n < 10 <==> |NatToString(n)| == 1
  {
    if n >= 10 {
      var s := NatToString(n / 10);
      var t := s + [DigitChar(n % 10)];
      NatToStringDigits(n / 10);
      assert t[..|t| - 1] == s;
    }
  }

  /** The decimal representation never needs more than `w` digits below `10^w`. */
  lemma {:induction false} NatToStringWidth(n: nat, w: nat)
    requires 1 <= w && n < Pow10(w)
    ensures |NatToString(n)| <= w
  {
    if n >= 10 {
      assert w != 1 by { assert Pow10(1) == 10 * Pow10(0) == 10; }
      NatToStringWidth(n / 10, w - 1);
    }
  }

  function Zeros(k: nat): (s: string)
    ensures |s| == k && AllDigits(s)
  {
    if k == 0 then [] else Zeros(k - 1) + ['0']
  }

  lemma {:induction false} DigitsValueZerosPrefix(k: nat, s: string)
    requires AllDigits(s)
    ensures AllDigits(Zeros(k) + s) && DigitsValue(Zeros(k) + s) == DigitsValue(s)
    decreases |s|, k
  {
    AllDigitsConcat(Zeros(k), s);
    if s == [] {
      assert Zeros(k) + s == Zeros(k);
      if k > 0 {
        assert Zeros(k)[..k - 1] == Zeros(k - 1);
        DigitsValueZerosPrefix(k - 1, []);
        assert Zeros(k - 1) + [] == Zeros(k - 1);
      }
    } else {
      var t := Zeros(k) + s;
      assert t[..|t| - 1] == Zeros(k) + s[..|s| - 1];
      DigitsValueZerosPrefix(k, s[..|s| - 1]);
    }
  }

  /** `String.format("%0<width>d", n)`: left-padded with zeros to `width` digits. */
  function ZeroPad(n: nat, width: nat): string
  {
    var d := NatToString(n);
    if |d| >= width then d else Zeros(width - |d|) + d
  }

  /** Padding keeps the value, reaches at least `width` digits, and never truncates: the
      unpadded decimal form is always its suffix. */
  lemma ZeroPadDigits(n: nat, width: nat)
    ensures var s := ZeroPad(n, width);
      && AllDigits(s) && DigitsValue(s) == n
      && |s| == (if |NatToString(n)| >= width then |NatToString(n)| else width)
      && s[|s| - |NatToString(n)|..] == NatToString(n)
  {
    var d := NatToString(n);
    NatToStringDigits(n);
    if |d| < width {
      var z := Zeros(width - |d|);
      DigitsValueZerosPrefix(width - |d|, d);
      assert ZeroPad(n, width) == z + d;
      assert (z + d)[|z|..] == d;
    } else {
      assert ZeroPad(n, width) == d;
      assert d[|d| - |d|..] == d;
    }
  }

  /** `Integer.toString(i)` / `String.valueOf(i)`. */
  function IntToString(i: int): string
  {
    if i < 0 then "-" + NatToString(-i) else NatToString(i)
  }

  /** The first code point of every run of ten decimal digits (Unicode category Nd) in the
      Basic Multilingual Plane, ASCII first: Arabic-Indic, Devanagari, Thai, fullwidth and
      the other scripts' digits, each run holding the values 0 to 9 in order. */
  const DIGIT_ZEROS: seq<int> := [
    0x0030, 0x0660, 0x06F0, 0x07C0, 0x0966, 0x09E6, 0x0A66, 0x0AE6, 0x0B66, 0x0BE6,
    0x0C66, 0x0CE6, 0x0D66, 0x0DE6, 0x0E50, 0x0ED0, 0x0F20, 0x1040, 0x1090, 0x17E0,
    0x1810, 0x1946, 0x19D0, 0x1A80, 0x1A90, 0x1B50, 0x1BB0, 0x1C40, 0x1C50, 0xA620,
    0xA8D0, 0xA900, 0xA9D0, 0xA9F0, 0xAA50, 0xABF0, 0xFF10]

  /** The value of code point `code` in the first run of `zeros` that holds it. */
  function DigitIn(code: int, zeros: seq<int>): (r: Option<nat>)
    ensures r.Some? <==> exists i :: 0 <= i < |zeros| && zeros[i] <= code < zeros[i] + 10
    ensures r.Some? ==> r.value < 10
  {
    if zeros == [] then None
    else if zeros[0] <= code < zeros[0] + 10 then Some(code - zeros[0])
    else
      var r := DigitIn(code, zeros[1..]);
      assert forall i :: 1 <= i < |zeros| ==> zeros[i] == zeros[1..][i - 1];
      r
  }

  /** `Character.digit(c, 10)`: the decimal value of `c`, or none where Java returns -1.
      `Integer.parseInt` reads one UTF-16 unit at a time, so a character outside the Basic
      Multilingual Plane (two units, neither a digit) is never a digit. */
  function JavaDigit(c: char): (r: Option<nat>)
    ensures r.Some? ==> r.value < 10 && '0' <= c
    ensures IsDigit(c) ==> r == Some(DigitValue(c))
  {
    // every run lies at or above '0', the first one
    if c < '0' then None else DigitIn(c as int, DIGIT_ZEROS)
  }

  predicate AllJavaDigits(s: string)
  {
    forall i :: 0 <= i < |s| ==> JavaDigit(s[i]).Some?
  }

  /** The value `Integer.parseInt` accumulates from a run of digits, most significant first. */
  function JavaDigitsValue(s: string): nat
    requires AllJavaDigits(s)
  {
    if s == [] then 0 else JavaDigitsValue(s[..|s| - 1]) * 10 + JavaDigit(s[|s| - 1]).value
  }

  /** On ASCII digits Java's reading agrees with the decimal value. */
  lemma {:induction false} AsciiJavaDigits(s: string)
    requires AllDigits(s)
    ensures AllJavaDigits(s) && JavaDigitsValue(s) == DigitsValue(s)
  {
    if s != [] {
      AsciiJavaDigits(s[..|s| - 1]);
    }
  }

  /** `Integer.parseInt(s)`: an optional sign, then at least one character that
      `Character.digit` reads as a decimal digit (any script's, not only ASCII), and a value
      that fits in 32 bits; anything else raises NumberFormatException (here `None`). */
  function ParseInt(s: string): Option<int>
  {
    if s == [] then None
    else
      var digits := if s[0] == '-' || s[0] == '+' then s[1..] else s;
      if digits == [] || !AllJavaDigits(digits) then None
      else
        var v: int := if s[0] == '-' then -(JavaDigitsValue(digits) as int) else JavaDigitsValue(digits);
        if IsInt32(v) then Some(v) else None
  }

  /** A code point in run `i`, above every earlier run, has its value within that run. */
  lemma {:induction false} DigitInRun(code: int, zeros: seq<int>, i: int)
    requires 0 <= i < |zeros| && zeros[i] <= code < zeros[i] + 10
    requires forall j :: 0 <= j < i ==> zeros[j] + 10 <= code
    ensures DigitIn(code, zeros) == Some(code - zeros[i])
  {
    if i > 0 {
      assert zeros[0] + 10 <= code;
      DigitInRun(code, zeros[1..], i - 1);
    }
  }

  /** Arabic-Indic digits are digits to Java, with their values. */
  lemma ArabicIndicDigit(c: char)
    requires 0x0660 <= c as int < 0x066A
    ensures JavaDigit(c) == Some(c as int - 0x0660)
  {
    DigitInRun(c as int, DIGIT_ZEROS, 1);
  }

  /** Two digits of any script, the first not a sign, parse as a two-digit number:
      Arabic-Indic "١٢" reads as 12. */
  lemma ParseTwoDigits(a: char, b: char)
    requires JavaDigit(a).Some? && JavaDigit(b).Some?
    ensures ParseInt([a, b]) == Some(10 * JavaDigit(a).value + JavaDigit(b).value)
  {
    var s := [a, b];
    assert s[..1] == [a] && [a][..0] == [];
    assert AllJavaDigits(s);
    assert JavaDigitsValue([a]) == JavaDigit(a).value;
    assert JavaDigitsValue(s) == 10 * JavaDigit(a).value + JavaDigit(b).value;
  }

  lemma ParseUnsigned(d: string)
    requires d != [] && AllDigits(d) && DigitsValue(d) < 0x8000_0000
    ensures ParseInt(d) == Some(DigitsValue(d) as int)
  {
    AsciiJavaDigits(d);
    assert IsDigit(d[0]);
  }

  lemma ParseNegative(d: string)
    requires d != [] && AllDigits(d) && DigitsValue(d) <= 0x8000_0000
    ensures ParseInt("-" + d) == Some(-(DigitsValue(d) as int))
  {
    AsciiJavaDigits(d);
    assert ("-" + d)[1..] == d;
  }

  /** Decimal printing and `Integer.parseInt` are inverse on 32-bit values. */
  lemma ParseIntOfIntToString(i: int)
    requires IsInt32(i)
    ensures ParseInt(IntToString(i)) == Some(i)
  {
    if i < 0 {
      NatToStringDigits(-i);
      ParseNegative(NatToString(-i));
    } else {
      NatToStringDigits(i);
      ParseUnsigned(NatToString(i));
    }
  }

  // ---------------------------------------------------------------------------
  // String tests

  predicate StartsWith(s: string, prefix: string)
  {
    |prefix| <= |s| && s[..|prefix|] == prefix
  }

  /** `String.contains`. */
  predicate Contains(s: string, t: string)
    decreases |s|
  {
    StartsWith(s, t) || (s != [] && Contains(s[1..], t))
  }

  /** A Java string reference that is neither null nor empty. */
  predicate NonEmpty(s: Option<string>)
  {
    s.Some? && s.value != ""
  }
}
