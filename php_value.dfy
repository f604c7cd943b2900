/** The scalar values a link setting can hold once its JSON text is decoded
    with `json_decode($json, true)`, and PHP's loose comparison `==` on them,
    which `Settings::linkSet` uses to decide whether a key has changed.

    The comparison follows PHP 8: a boolean or null on either side turns both
    sides into booleans, except that null against a string compares "" with
    that string; an integer against an integer-form string, and two
    integer-form strings, compare as numbers; everything else compares
    exactly. Strings with whitespace, a fraction or an exponent, which PHP also
    reads as numbers, are compared as text here. */
module PhpValue {

  datatype Value = Null | Bool(b: bool) | Int(i: int) | Str(s: string)

  predicate IsDigit(c: char) {
    '0' <= c <= '9'
  }

  predicate AllDigits(s: string) {
    forall i :: 0 <= i < |s| ==> IsDigit(s[i])
  }

  /** The string without a leading sign. */
  function Unsigned(s: string): string {
    if |s| > 0 && (s[0] == '+' || s[0] == '-') then s[1..] else s
  }

  /** A numeric string in the integer form: an optional sign and at least one
      decimal digit. */
  predicate IsIntegerString(s: string) {
    |Unsigned(s)| > 0 && AllDigits(Unsigned(s))
  }

  /** The number a string of decimal digits denotes. */
  function DigitsValue(s: string): nat
    requires AllDigits(s)
  {
    if s == [] then 0
    else 10 * DigitsValue(s[..|s| - 1]) + (s[|s| - 1] as int - '0' as int)
  }

  function IntegerValue(s: string): int
    requires IsIntegerString(s)
  {
    var n: int := DigitsValue(Unsigned(s));
    if s[0] == '-' then -n else n
  }

  /** PHP's conversion to boolean: null, false, 0, "" and "0" are false. */
  function ToBool(v: Value): bool {
    match v
    case Null => false
    case Bool(b) => b
    case Int(i) => i != 0
    case Str(s) => s != "" && s != "0"
  }

  /** Integer against string: equal when the string is in integer form and
      denotes the integer (a non-numeric string is compared with the integer's own
      decimal text, which is numeric, so it never matches). */
  predicate IntEqualsString(i: int, s: string) {
    IsIntegerString(s) && IntegerValue(s) == i
  }

  predicate LooseEquals(a: Value, b: Value) {
    match (a, b)
    case (Bool(x), _) => x == ToBool(b)
    case (_, Bool(y)) => ToBool(a) == y
    case (Null, Null) => true
    case (Null, Int(j)) => j == 0
    case (Int(i), Null) => i == 0
    case (Null, Str(t)) => t == ""
    case (Str(s), Null) => s == ""
    case (Int(i), Int(j)) => i == j
    case (Int(i), Str(t)) => IntEqualsString(i, t)
    case (Str(s), Int(j)) => IntEqualsString(j, s)
    case (Str(s), Str(t)) =>
      if IsIntegerString(s) && IsIntegerString(t) then IntegerValue(s) == IntegerValue(t)
      else s == t
  }

  /** Every value is loosely equal to itself, so writing back a value that is
      already stored is never seen as a change. */
  lemma LooseEqualsReflexive(a: Value)
    ensures LooseEquals(a, a)
  {
  }

  lemma LooseEqualsSymmetric(a: Value, b: Value)
    ensures LooseEquals(a, b) == LooseEquals(b, a)
  {
  }

  /** Exact equality implies loose equality. */
  lemma EqualIsLooselyEqual(a: Value, b: Value)
    requires a == b
    ensures LooseEquals(a, b)
  {
    LooseEqualsReflexive(a);
  }

  /** The integer 1 and the string "1" compare equal, as do "01" and "1",
      and "-7" and -7. */
  lemma NumericStringsCompareAsNumbers()
    ensures LooseEquals(Int(1), Str("1"))
    ensures LooseEquals(Str("01"), Str("1"))
    ensures LooseEquals(Str("-7"), Int(-7))
  {
    assert IsIntegerString("1") && IntegerValue("1") == 1 by {
      assert Unsigned("1") == "1";
      assert DigitsValue("1") == 10 * DigitsValue("") + 1 by { assert "1"[..0] == ""; }
    }
    assert IsIntegerString("01") && IntegerValue("01") == 1 by {
      assert Unsigned("01") == "01";
      assert DigitsValue("0") == 0 by { assert "0"[..0] == ""; }
      assert DigitsValue("01") == 10 * DigitsValue("0") + 1 by { assert "01"[..1] == "0"; }
    }
    assert IsIntegerString("-7") && IntegerValue("-7") == -7 by {
      assert Unsigned("-7") == "7";
      assert DigitsValue("7") == 10 * DigitsValue("") + 7 by { assert "7"[..0] == ""; }
    }
  }

  /** A string that is not in integer form never equals an integer, and two
      strings that are not both numeric compare as text. */
  lemma NonNumericStringsCompareAsText()
    ensures !LooseEquals(Int(0), Str("a"))
    ensures !LooseEquals(Str("1"), Str("1a"))
  {
    assert !IsIntegerString("a") by {
      assert Unsigned("a") == "a" && !IsDigit("a"[0]);
    }
    assert !IsIntegerString("1a") by {
      assert Unsigned("1a") == "1a" && !IsDigit("1a"[1]);
    }
    assert "1" != "1a" by { assert |"1"| != |"1a"|; }
  }

  /** Loose equality is not transitive: null == 0 and 0 == "0", but
      null != "0". */
  lemma LooseEqualsNotTransitive()
    ensures LooseEquals(Null, Int(0)) && LooseEquals(Int(0), Str("0"))
    ensures !LooseEquals(Null, Str("0"))
  {
    assert DigitsValue("0") == 0;
  }
}
