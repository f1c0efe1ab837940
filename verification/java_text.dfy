/**
 * The parts of the Java library that the client relies on to build and read text:
 * decimal formatting of integers (string concatenation), Long.parseLong, and String.join.
 * Split is not called by the client; it is the reading side of String.join and serves
 * as its inverse in the lemmas.
 */
module JavaText {
  import opened Wrappers

  /** Java's int and long. */
  type Int32 = x: int | -0x8000_0000 <= x < 0x8000_0000
  type Int64 = x: int | -0x8000_0000_0000_0000 <= x < 0x8000_0000_0000_0000

  predicate IsDigit(c: char) {
    '0' <= c <= '9'
  }

  predicate AllDigits(s: string) {
    forall i :: 0 <= i < |s| ==> IsDigit(s[i])
  }

  function DigitChar(d: nat): (c: char)
    requires d < 10
    ensures IsDigit(c)
  {
    ('0' as int + d) as char
  }

  function DigitValue(c: char): nat
    requires IsDigit(c)
  {
    c as int - '0' as int
  }

  /** The decimal digits of n, most significant first, with no leading zero. */
  function NatDigits(n: nat): (s: string)
    ensures |s| > 0 && AllDigits(s)
    ensures n > 0 ==> s[0] != '0'
    decreases n
  {
    if n < 10 then [DigitChar(n)] else NatDigits(n / 10) + [DigitChar(n % 10)]
  }

  /** Integer.toString / Long.toString: what `"..." + n` appends for an int or a long. */
  function DecimalString(n: int): (s: string)
    ensures |s| > 0
    ensures s[0] == '-' <==> n < 0
    ensures n >= 0 ==> AllDigits(s)
    ensures n < 0 ==> AllDigits(s[1..])
  {
    if n < 0 then "-" + NatDigits(-n) else NatDigits(n)
  }

  /** The value of a string of decimal digits. */
  function DigitsValue(s: string): nat
    requires AllDigits(s)
    decreases |s|
  {
    if s == [] then 0 else DigitsValue(s[..|s| - 1]) * 10 + DigitValue(s[|s| - 1])
  }

  lemma {:induction false} DigitsValueOfNatDigits(n: nat)
    ensures DigitsValue(NatDigits(n)) == n
    decreases n
  {
    if n >= 10 {
      var s := NatDigits(n);
      assert s[..|s| - 1] == NatDigits(n / 10);
      DigitsValueOfNatDigits(n / 10);
    }
  }

  /**
   * Long.parseLong(s) in base 10. `None` as the argument is a null string and `None`
   * as the result is the NumberFormatException: for null, for the empty string, for a
   * lone sign, for any character that is not a digit after an optional '+' or '-', and
   * for a value outside the range of a long.
   */
  function ParseLong(s: Option<string>): (r: Option<Int64>)
    ensures r.Some? ==> s.Some? && |s.value| > 0
    ensures r.Some? ==> (IsDigit(s.value[0]) || s.value[0] == '-' || s.value[0] == '+') && AllDigits(s.value[1..])
    ensures r.Some? ==> |s.value| > 1 || IsDigit(s.value[0])
    ensures r.Some? && s.value[0] != '-' ==> r.value >= 0
    ensures r.Some? && s.value[0] == '-' ==> r.value <= 0
  {
    match s
    case None => None
    case Some(t) =>
      if |t| == 0 then None
      else
        var signed := t[0] == '-' || t[0] == '+';
        var digits := if signed then t[1..] else t;
        if |digits| == 0 || !AllDigits(digits) then None
        else
          var v: int := if t[0] == '-' then 0 - DigitsValue(digits) as int else DigitsValue(digits);
          if -0x8000_0000_0000_0000 <= v < 0x8000_0000_0000_0000 then Some(v) else None
  }

  /** Whether an integer fits in a long. */
  predicate InLongRange(v: int) {
    -0x8000_0000_0000_0000 <= v < 0x8000_0000_0000_0000
  }

  /**
   * A non-empty digit string parses to its value when that value is a long ("007" is 7),
   * and to the NumberFormatException otherwise.
   */
  lemma ParseLongUnsigned(digits: string)
    requires |digits| > 0 && AllDigits(digits)
    ensures InLongRange(DigitsValue(digits)) ==> ParseLong(Some(digits)) == Some(DigitsValue(digits))
    ensures !InLongRange(DigitsValue(digits)) ==> ParseLong(Some(digits)).None?
  {
    assert IsDigit(digits[0]);
  }

  /** A '+' before a non-empty digit string leaves its value unchanged ("+5" is 5). */
  lemma ParseLongPlus(digits: string)
    requires |digits| > 0 && AllDigits(digits)
    ensures InLongRange(DigitsValue(digits)) ==> ParseLong(Some("+" + digits)) == Some(DigitsValue(digits))
    ensures !InLongRange(DigitsValue(digits)) ==> ParseLong(Some("+" + digits)).None?
  {
    assert ("+" + digits)[1..] == digits;
  }

  /** A '-' before a non-empty digit string negates its value ("-0" is 0, "-9223372036854775808" fits). */
  lemma ParseLongMinus(digits: string)
    requires |digits| > 0 && AllDigits(digits)
    ensures InLongRange(0 - DigitsValue(digits)) ==> ParseLong(Some("-" + digits)) == Some(0 - DigitsValue(digits))
    ensures !InLongRange(0 - DigitsValue(digits)) ==> ParseLong(Some("-" + digits)).None?
  {
    assert ("-" + digits)[1..] == digits;
  }

  /** Formatting a long and parsing it back gives the same long, negative values included. */
  lemma {:induction false} ParseLongDecimalString(n: Int64)
    ensures ParseLong(Some(DecimalString(n))) == Some(n)
  {
    var s := DecimalString(n);
    if n < 0 {
      assert s[1..] == NatDigits(-(n as int));
      DigitsValueOfNatDigits(-(n as int));
    } else {
      DigitsValueOfNatDigits(n);
    }
  }

  /** String.join(sep, xs): the elements in order, with sep between neighbours. */
  function Join(sep: string, xs: seq<string>): (r: string)
    ensures |xs| == 1 ==> r == xs[0]
    ensures |xs| > 1 ==> |xs[0]| + |sep| <= |r| && r[..|xs[0]| + |sep|] == xs[0] + sep
    decreases |xs|
  {
    if |xs| == 0 then ""
    else if |xs| == 1 then xs[0]
    else xs[0] + sep + Join(sep, xs[1..])
  }

  /** The pieces of s between occurrences of sep (always at least one piece). */
  function Split(s: string, sep: char): (parts: seq<string>)
    ensures |parts| > 0
    ensures forall i :: 0 <= i < |parts| ==> sep !in parts[i]
    decreases |s|
  {
    if |s| == 0 then [""]
    else
      var tail := Split(s[1..], sep);
      if s[0] == sep then [""] + tail else [[s[0]] + tail[0]] + tail[1..]
  }

  lemma {:induction false} SplitWithoutSeparator(a: string, sep: char)
    requires sep !in a
    ensures Split(a, sep) == [a]
    decreases |a|
  {
    if |a| > 0 {
      SplitWithoutSeparator(a[1..], sep);
      assert [a[0]] + a[1..] == a;
    }
  }

  lemma {:induction false} SplitAtFirstSeparator(a: string, b: string, sep: char)
    requires sep !in a
    ensures Split(a + [sep] + b, sep) == [a] + Split(b, sep)
    decreases |a|
  {
    var s := a + [sep] + b;
    if |a| == 0 {
      assert s[1..] == b;
    } else {
      assert s[1..] == a[1..] + [sep] + b;
      SplitAtFirstSeparator(a[1..], b, sep);
      assert [a[0]] + a[1..] == a;
    }
  }

  /** Splitting a join at the separator gives back the joined elements, in order. */
  lemma {:induction false} SplitJoin(xs: seq<string>, sep: char)
    requires |xs| > 0
    requires forall i :: 0 <= i < |xs| ==> sep !in xs[i]
    ensures Split(Join([sep], xs), sep) == xs
    decreases |xs|
  {
    if |xs| == 1 {
      SplitWithoutSeparator(xs[0], sep);
    } else {
      SplitAtFirstSeparator(xs[0], Join([sep], xs[1..]), sep);
      SplitJoin(xs[1..], sep);
      assert [xs[0]] + xs[1..] == xs;
    }
  }
}
