/**
 * The parts of Kotlin's string library that the form validators use:
 * `isBlank`/`isNotBlank`, `toIntOrNull` (base 10) and, as a reference for
 * round trips, `Int.toString()`. Characters are treated as ASCII: the
 * Unicode whitespace and digit classes beyond ASCII are not modelled.
 */
module KotlinStrings {
  import opened Optional

  /** The range of Kotlin's 32-bit `Int`. */
  const IntMinValue: int := -0x8000_0000
  const IntMaxValue: int := 0x7FFF_FFFF

  predicate InIntRange(n: int) {
    IntMinValue <= n <= IntMaxValue
  }

  /**
   * `Char.isWhitespace()` restricted to ASCII: tab, line feed, vertical tab,
   * form feed, carriage return, the four information separators and space.
   */
  predicate IsWhitespace(c: char)
    ensures c == ' ' || c == '\t' || c == '\n' || c == '\r' ==> IsWhitespace(c)
    ensures IsWhitespace(c) ==> !IsDigit(c) && c != '-' && c != '+'
  {
    9 <= c as int <= 13 || 28 <= c as int <= 32
  }

  /** `CharSequence.isBlank()`: every character is whitespace (so "" is blank). */
  predicate IsBlank(s: string)
    ensures |s| == 0 ==> IsBlank(s)
    ensures IsBlank(s) ==> forall k :: 0 <= k < |s| ==> !IsDigit(s[k])
  {
    forall i :: 0 <= i < |s| ==> IsWhitespace(s[i])
  }

  /** `CharSequence.isNotBlank()`. */
  predicate IsNotBlank(s: string)
    ensures IsNotBlank(s) <==> exists k :: 0 <= k < |s| && !IsWhitespace(s[k])
    ensures IsNotBlank(s) ==> |s| > 0
  {
    !IsBlank(s)
  }

  lemma NotBlankWitness(s: string, i: nat)
    requires i < |s| && !IsWhitespace(s[i])
    ensures IsNotBlank(s)
  {
  }

  lemma BlankExamples()
    ensures !IsNotBlank("") && !IsNotBlank("   ") && !IsNotBlank("\t\n")
    ensures IsNotBlank("David") && IsNotBlank("  x ")
  {
    NotBlankWitness("David", 0);
    NotBlankWitness("  x ", 2);
  }

  predicate IsDigit(c: char) {
    '0' <= c <= '9'
  }

  predicate AllDigits(s: string) {
    forall i :: 0 <= i < |s| ==> IsDigit(s[i])
  }

  function DigitValue(c: char): (d: nat)
    requires IsDigit(c)
    ensures d < 10
  {
    c as int - '0' as int
  }

  function DigitChar(d: nat): (c: char)
    requires d < 10
    ensures IsDigit(c) && DigitValue(c) == d
  {
    ('0' as int + d) as char
  }

  /** The number a string of decimal digits denotes, most significant digit first. */
  function DecimalValue(s: string): nat
    requires AllDigits(s)
  {
    if |s| == 0 then 0 else 10 * DecimalValue(s[..|s| - 1]) + DigitValue(s[|s| - 1])
  }

  /**
   * `String.toIntOrNull()`: an optional leading '-' or '+', then at least one
   * decimal digit, and the value must fit in a 32-bit `Int`; otherwise null.
   */
  function ToIntOrNull(s: string): (r: Option<int>)
    ensures r.Some? ==> InIntRange(r.value)
    ensures r.Some? ==> |s| > 0
  {
    if |s| == 0 then None
    else
      var digits := if s[0] == '-' || s[0] == '+' then s[1..] else s;
      if |digits| == 0 || !AllDigits(digits) then None
      else
        var magnitude: int := DecimalValue(digits);
        var n := if s[0] == '-' then -magnitude else magnitude;
        if InIntRange(n) then Some(n) else None
  }

  /** A character that is neither a digit nor a leading sign makes `toIntOrNull` return null. */
  lemma NonDigitRejected(s: string, i: nat)
    requires i < |s| && !IsDigit(s[i])
    requires i == 0 ==> s[0] != '-' && s[0] != '+'
    ensures ToIntOrNull(s) == None
  {
    if s[0] == '-' || s[0] == '+' {
      assert s[1..][i - 1] == s[i];
    }
  }

  /** A lone sign is not a number. */
  lemma LoneSignRejected()
    ensures ToIntOrNull("-") == None && ToIntOrNull("+") == None
  {
  }

  /** `Int.toString()` for a non-negative value: decimal digits, no leading zeros. */
  function NatToDecimal(n: nat): (s: string)
    decreases n
  {
    if n < 10 then [DigitChar(n)] else NatToDecimal(n / 10) + [DigitChar(n % 10)]
  }

  /** `Int.toString()`: a '-' for negative values, never a '+'. */
  function IntToString(n: int): string {
    if n < 0 then "-" + NatToDecimal(-n) else NatToDecimal(n)
  }

  lemma {:induction false} NatToDecimalValue(n: nat)
    ensures |NatToDecimal(n)| > 0 && AllDigits(NatToDecimal(n))
    ensures DecimalValue(NatToDecimal(n)) == n
    decreases n
  {
    if n >= 10 {
      NatToDecimalValue(n / 10);
      var s := NatToDecimal(n);
      assert s[..|s| - 1] == NatToDecimal(n / 10);
    }
  }

  /** Every `Int` survives a trip through `toString()` and `toIntOrNull()`. */
  lemma IntToStringRoundTrip(n: int)
    requires InIntRange(n)
    ensures ToIntOrNull(IntToString(n)) == Some(n)
  {
    var m: nat := if n < 0 then -n else n;
    NatToDecimalValue(m);
    var d := NatToDecimal(m);
    if n < 0 {
      assert ("-" + d)[1..] == d;
    } else {
      assert IsDigit(d[0]);
    }
  }

  /** What the numeric default validator sees on a few inputs. */
  lemma ToIntOrNullExamples()
    ensures ToIntOrNull("42") == Some(42)
    ensures ToIntOrNull("-7") == Some(-7) && ToIntOrNull("+7") == Some(7) && ToIntOrNull("007") == Some(7)
    ensures ToIntOrNull("forty-two") == None && ToIntOrNull("") == None && ToIntOrNull("4 2") == None
  {
    IntToStringRoundTrip(42);
    assert IntToString(42) == "42";
    assert "-7"[1..] == "7";
    assert "+7"[1..] == "7";
    assert "007"[..2] == "00" && "00"[..1] == "0";
    NonDigitRejected("forty-two", 0);
    NonDigitRejected("4 2", 1);
  }

  /** The 32-bit bounds: the extreme values are accepted, one beyond is rejected. */
  lemma ToIntOrNullBounds()
    ensures ToIntOrNull(IntToString(IntMaxValue)) == Some(IntMaxValue)
    ensures ToIntOrNull(IntToString(IntMinValue)) == Some(IntMinValue)
    ensures ToIntOrNull(IntToString(IntMaxValue + 1)) == None
    ensures ToIntOrNull(IntToString(IntMinValue - 1)) == None
  {
    IntToStringRoundTrip(IntMaxValue);
    IntToStringRoundTrip(IntMinValue);
    NatToDecimalValue(IntMaxValue + 1);
    NatToDecimalValue(-(IntMinValue - 1));
    assert ("-" + NatToDecimal(-(IntMinValue - 1)))[1..] == NatToDecimal(-(IntMinValue - 1));
    assert IsDigit(NatToDecimal(IntMaxValue + 1)[0]);
  }
}
