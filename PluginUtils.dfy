/**
 * `PluginUtils.getGradleMajorVersion`: the major version of the running Gradle,
 * read from its version string with `indexOf`, `substring` and `Integer.parseInt`.
 */
module PluginUtils {
  import opened Wrappers
  import opened Decimal

  /** The range of a Java `int`. */
  const IntMin: int := -0x8000_0000
  const IntMax: int := 0x7FFF_FFFF

  /** The two runtime exceptions the version parser can raise. */
  datatype JavaException =
    | StringIndexOutOfBounds(begin: int, end: int, length: int)
    | NumberFormat(input: string)

  /** `String.indexOf`: the index of the first occurrence of `c`, or -1. */
  function IndexOf(s: string, c: char): (i: int)
    ensures -1 <= i < |s|
    ensures i == -1 <==> c !in s
    ensures 0 <= i ==> s[i] == c && c !in s[..i]
  {
    if s == [] then -1
    else if s[0] == c then 0
    else
      var k := IndexOf(s[1..], c);
      assert k >= 0 ==> s[..k + 1] == [s[0]] + s[1..][..k];
      if k == -1 then -1 else k + 1
  }

  /** `String.substring(begin, end)`, which throws unless `0 <= begin <= end <= length`. */
  function Substring(s: string, begin: int, end: int): (r: Result<string, JavaException>)
    ensures r.Success? <==> 0 <= begin <= end <= |s|
    ensures r.Success? ==> |r.value| == end - begin
    ensures r.Failure? ==> r.error == StringIndexOutOfBounds(begin, end, |s|)
  {
    if 0 <= begin <= end <= |s| then Success(s[begin..end])
    else Failure(StringIndexOutOfBounds(begin, end, |s|))
  }

  /**
   * `Integer.parseInt` in radix 10: an optional `-` or `+`, then at least one
   * digit; the value must fit in an `int`. Anything else throws `NumberFormatException`.
   */
  function ParseInt(s: string): (r: Result<int, JavaException>)
    ensures r.Success? ==> IntMin <= r.value <= IntMax
    ensures r.Failure? ==> r.error == NumberFormat(s)
  {
    if s == [] then Failure(NumberFormat(s))
    else
      var digits := if s[0] == '-' || s[0] == '+' then s[1..] else s;
      if digits == [] || !AllDigits(digits) then Failure(NumberFormat(s))
      else
        var v := if s[0] == '-' then -(DigitsValue(digits) as int) else DigitsValue(digits);
        if IntMin <= v <= IntMax then Success(v) else Failure(NumberFormat(s))
  }

  /** `getGradleMajorVersion`: the number before the first `.` of the version string. */
  function GradleMajorVersion(gradleVersion: string): (r: Result<int, JavaException>)
    ensures r.Success? ==> '.' in gradleVersion && IntMin <= r.value <= IntMax
    ensures r.Failure? && r.error.StringIndexOutOfBounds? <==> '.' !in gradleVersion
  {
    match Substring(gradleVersion, 0, IndexOf(gradleVersion, '.'))
    case Failure(e) => Failure(e)
    case Success(prefix) => ParseInt(prefix)
  }

  /**
   * A run of digits, bare or after a `+` or `-`, parses to its value when that
   * value fits in an `int`, leading zeros and all; otherwise `parseInt` throws.
   */
  lemma ParseIntNumeral(d: string)
    requires d != [] && AllDigits(d)
    ensures ParseInt(d) == if DigitsValue(d) <= IntMax then Success(DigitsValue(d)) else Failure(NumberFormat(d))
    ensures ParseInt("+" + d)
            == if DigitsValue(d) <= IntMax then Success(DigitsValue(d)) else Failure(NumberFormat("+" + d))
    ensures ParseInt("-" + d)
            == if DigitsValue(d) <= -IntMin then Success(-(DigitsValue(d) as int)) else Failure(NumberFormat("-" + d))
  {
    assert IsDigit(d[0]);
    assert ("+" + d)[1..] == d;
    assert ("-" + d)[1..] == d;
  }

  /** Printing a number and parsing it back gives the number. */
  lemma ParseIntDecimal(n: nat)
    requires n <= IntMax
    ensures ParseInt(DecimalString(n)) == Success(n)
  {
    ParseIntNumeral(DecimalString(n));
  }

  /** The first `.` of `p + "." + rest` is the one after `p` when `p` has none. */
  lemma FirstDotAfterPrefix(p: string, rest: string)
    requires '.' !in p
    ensures IndexOf(p + "." + rest, '.') == |p|
  {
    var s := p + "." + rest;
    assert s[|p|] == '.';
    assert s[..|p|] == p;
  }

  /** The major version is the prefix before the first `.`, parsed as an `int`. */
  lemma MajorVersionIsPrefix(p: string, rest: string)
    requires '.' !in p
    ensures GradleMajorVersion(p + "." + rest) == ParseInt(p)
  {
    FirstDotAfterPrefix(p, rest);
    assert (p + "." + rest)[0..|p|] == p;
  }

  /** Only the text before the first `.` affects the result. */
  lemma MajorVersionIgnoresLaterComponents(p: string, rest1: string, rest2: string)
    requires '.' !in p
    ensures GradleMajorVersion(p + "." + rest1) == GradleMajorVersion(p + "." + rest2)
  {
    MajorVersionIsPrefix(p, rest1);
    MajorVersionIsPrefix(p, rest2);
  }

  /** A version string of the form `<n>.<anything>` has major version `n`. */
  lemma MajorVersionOfRelease(n: nat, rest: string)
    requires n <= IntMax
    ensures GradleMajorVersion(DecimalString(n) + "." + rest) == Success(n)
  {
    var p := DecimalString(n);
    assert forall i :: 0 <= i < |p| ==> p[i] != '.';
    MajorVersionIsPrefix(p, rest);
    ParseIntDecimal(n);
  }

  /** A version string without a `.` makes `substring(0, -1)` throw. */
  lemma MajorVersionWithoutDot(s: string)
    requires '.' !in s
    ensures GradleMajorVersion(s) == Failure(StringIndexOutOfBounds(0, -1, |s|))
  {
  }

  /** A prefix holding a character that is neither a digit nor a leading sign makes `parseInt` throw. */
  lemma MajorVersionNonNumeric(p: string, rest: string, i: nat)
    requires '.' !in p
    requires i < |p| && !IsDigit(p[i]) && !(i == 0 && (p[0] == '-' || p[0] == '+'))
    ensures GradleMajorVersion(p + "." + rest) == Failure(NumberFormat(p))
  {
    MajorVersionIsPrefix(p, rest);
    if p[0] == '-' || p[0] == '+' {
      assert !IsDigit(p[1..][i - 1]);
    }
  }

  /** An empty major component, or a sign with no digits after it, makes `parseInt` throw. */
  lemma MajorVersionWithoutDigits(p: string, rest: string)
    requires p == "" || p == "-" || p == "+"
    ensures GradleMajorVersion(p + "." + rest) == Failure(NumberFormat(p))
  {
    MajorVersionIsPrefix(p, rest);
  }

  /**
   * A major component made of digits, bare or signed, gives its value when it
   * fits in an `int`, and makes `parseInt` throw when it does not.
   */
  lemma MajorVersionOfNumeral(sign: string, d: string, rest: string)
    requires sign == "" || sign == "-" || sign == "+"
    requires d != [] && AllDigits(d)
    ensures var v := if sign == "-" then -(DigitsValue(d) as int) else DigitsValue(d) as int;
      GradleMajorVersion(sign + d + "." + rest)
      == if IntMin <= v <= IntMax then Success(v) else Failure(NumberFormat(sign + d))
  {
    var p := sign + d;
    assert forall i :: 0 <= i < |p| ==> p[i] != '.' by {
      assert forall i :: 0 <= i < |d| ==> IsDigit(d[i]);
    }
    MajorVersionIsPrefix(p, rest);
    ParseIntNumeral(d);
    assert sign == "" ==> p == d;
  }

  /** Version strings of released Gradle distributions. */
  lemma MajorVersionOfReleasedVersions()
    ensures GradleMajorVersion("7.6") == Success(7)
    ensures GradleMajorVersion("8.10.2") == Success(8)
    ensures GradleMajorVersion("6.9.4") == Success(6)
  {
    assert GradleMajorVersion("7.6") == Success(7) by {
      assert DecimalString(7) == "7" && "7.6" == "7" + "." + "6";
      MajorVersionOfRelease(7, "6");
    }
    assert GradleMajorVersion("8.10.2") == Success(8) by {
      assert DecimalString(8) == "8" && "8.10.2" == "8" + "." + "10.2";
      MajorVersionOfRelease(8, "10.2");
    }
    assert DecimalString(6) == "6" && "6.9.4" == "6" + "." + "9.4";
    MajorVersionOfRelease(6, "9.4");
  }

  /** A major with a leading zero is read as `parseInt` reads it. */
  lemma MajorVersionWithLeadingZero()
    ensures GradleMajorVersion("07.1") == Success(7)
  {
    assert "07.1" == "" + "07" + "." + "1";
    assert DigitsValue("07") == 7 by { assert "07"[..1] == "0"; }
    MajorVersionOfNumeral("", "07", "1");
  }

  /** A major with a `+` sign is read as `parseInt` reads it. */
  lemma MajorVersionWithPlusSign()
    ensures GradleMajorVersion("+6.1") == Success(6)
  {
    assert "+6.1" == "+" + "6" + "." + "1";
    assert DigitsValue("6") == 6;
    MajorVersionOfNumeral("+", "6", "1");
  }

  /** Malformed version strings: no `.`, or a non-numeric major component. */
  lemma MajorVersionOfMalformedVersions()
    ensures GradleMajorVersion("8") == Failure(StringIndexOutOfBounds(0, -1, 1))
    ensures GradleMajorVersion("x.1") == Failure(NumberFormat("x"))
    ensures GradleMajorVersion(".7") == Failure(NumberFormat(""))
    ensures GradleMajorVersion("-.1") == Failure(NumberFormat("-"))
  {
    assert ".7" == "" + "." + "7" && "-.1" == "-" + "." + "1";
    MajorVersionWithoutDigits("", "7");
    MajorVersionWithoutDigits("-", "1");
    MajorVersionWithoutDot("8");
    assert "x.1" == "x" + "." + "1";
    MajorVersionNonNumeric("x", "1", 0);
  }

  /** The digits of one more than `Integer.MAX_VALUE`. */
  lemma IntMaxPlusOneDigits()
    ensures AllDigits("2147483648") && DigitsValue("2147483648") == 2147483648
  {
    assert DigitsValue("2") == 2;
    assert DigitsValue("21") == 21 by { assert "21"[..1] == "2"; }
    assert DigitsValue("214") == 214 by { assert "214"[..2] == "21"; }
    assert DigitsValue("2147") == 2147 by { assert "2147"[..3] == "214"; }
    assert DigitsValue("21474") == 21474 by { assert "21474"[..4] == "2147"; }
    assert DigitsValue("214748") == 214748 by { assert "214748"[..5] == "21474"; }
    assert DigitsValue("2147483") == 2147483 by { assert "2147483"[..6] == "214748"; }
    assert DigitsValue("21474836") == 21474836 by { assert "21474836"[..7] == "2147483"; }
    assert DigitsValue("214748364") == 214748364 by { assert "214748364"[..8] == "21474836"; }
    assert DigitsValue("2147483648") == 2147483648 by { assert "2147483648"[..9] == "214748364"; }
  }

  /** One more than `Integer.MAX_VALUE` as the major component makes `parseInt` throw. */
  lemma MajorVersionOutOfRange()
    ensures GradleMajorVersion("2147483648.1") == Failure(NumberFormat("2147483648"))
  {
    IntMaxPlusOneDigits();
    assert "2147483648.1" == "" + "2147483648" + "." + "1";
    MajorVersionOfNumeral("", "2147483648", "1");
  }
}
