/**
  The version label shown by the uploader: `v` MAJOR `.` MINOR, followed by
  `.` BUILD only when the build number is not zero. A parser for the label is
  given beside it and proved to invert it, so the label determines the version.
 */
module VersionFormat {
  import opened Wrappers

  /** An assembly version as far as the label uses it. .NET reports an
      undefined build number as -1, hence `build: int`. */
  datatype Version = Version(major: nat, minor: nat, build: int)

  predicate IsDigit(c: char) {
    '0' <= c <= '9'
  }

  predicate AllDigits(s: string) {
    forall i :: 0 <= i < |s| ==> IsDigit(s[i])
  }

  function DigitValue(c: char): (d: nat)
    requires IsDigit(c)
    ensures d < 10
  {
    c as int - '0' as int
  }

  function DigitChar(d: nat): (c: char)
    requires d < 10
    ensures IsDigit(c) && DigitValue(c) == d
  {
    (d + '0' as int) as char
  }

  /** Decimal rendering of a natural number, without leading zeros. */
  function NatToString(n: nat): (r: string)
    ensures |r| >= 1 && AllDigits(r)
    ensures r[0] == '0' <==> n == 0
    decreases n
  {
    if n < 10 then [DigitChar(n)] else NatToString(n / 10) + [DigitChar(n % 10)]
  }

  /** Decimal rendering of an integer, with a leading `-` when negative. */
  function IntToString(i: int): (r: string)
    ensures |r| >= 1 && '.' !in r
    ensures r[0] == '-' <==> i < 0
  {
    if i < 0 then "-" + NatToString(-i) else NatToString(i)
  }

  /** The `VersionString` property of the application. */
  function VersionString(v: Version): (r: string)
    ensures |r| >= 4 && r[0] == 'v'
  {
    "v" + NatToString(v.major) + "." + NatToString(v.minor)
    + (if v.build == 0 then "" else "." + IntToString(v.build))
  }

  // ---------------------------------------------------------------------------
  // The inverse: reading a label back

  /** The value of a string of decimal digits. */
  function DigitsValue(s: string): nat
    requires AllDigits(s)
    decreases |s|
  {
    if s == [] then 0 else DigitsValue(s[..|s| - 1]) * 10 + DigitValue(s[|s| - 1])
  }

  function ParseNat(s: string): Option<nat> {
    if |s| > 0 && AllDigits(s) then Some(DigitsValue(s)) else None
  }

  function ParseInt(s: string): Option<int> {
    if |s| > 0 && s[0] == '-' then
      match ParseNat(s[1..])
      case Some(n) => Some(-(n as int))
      case None => None
    else
      match ParseNat(s)
      case Some(n) => Some(n)
      case None => None
  }

  /** The pieces of `s` between occurrences of `sep`. */
  function Split(s: string, sep: char): (parts: seq<string>)
    ensures |parts| >= 1
    decreases |s|
  {
    if s == [] then [""]
    else
      var rest := Split(s[1..], sep);
      if s[0] == sep then [""] + rest else [[s[0]] + rest[0]] + rest[1..]
  }

  /** Reads a version label; a written-out build of zero is refused, as the
      label never carries one. */
  function ParseVersion(s: string): Option<Version> {
    if |s| == 0 || s[0] != 'v' then None
    else
      var parts := Split(s[1..], '.');
      if |parts| == 2 then
        match (ParseNat(parts[0]), ParseNat(parts[1]))
        case (Some(major), Some(minor)) => Some(Version(major, minor, 0))
        case _ => None
      else if |parts| == 3 then
        match (ParseNat(parts[0]), ParseNat(parts[1]), ParseInt(parts[2]))
        case (Some(major), Some(minor), Some(build)) =>
          if build == 0 then None else Some(Version(major, minor, build))
        case _ => None
      else None
  }

  // ---------------------------------------------------------------------------
  // Lemmas

  lemma {:induction false} NatRoundTrip(n: nat)
    ensures ParseNat(NatToString(n)) == Some(n)
    decreases n
  {
    var s := NatToString(n);
    if n < 10 {
      assert s[..|s| - 1] == [];
    } else {
      NatRoundTrip(n / 10);
      assert s[..|s| - 1] == NatToString(n / 10);
      assert DigitsValue(s) == (n / 10) * 10 + n % 10;
    }
  }

  lemma IntRoundTrip(i: int)
    ensures ParseInt(IntToString(i)) == Some(i)
  {
    if i < 0 {
      NatRoundTrip(-i);
      assert IntToString(i)[1..] == NatToString(-i);
    } else {
      NatRoundTrip(i);
    }
  }

  lemma {:induction false} SplitWithoutSeparator(a: string, sep: char)
    requires sep !in a
    ensures Split(a, sep) == [a]
    decreases |a|
  {
    if a != [] {
      SplitWithoutSeparator(a[1..], sep);
      assert [a[0]] + a[1..] == a;
    }
  }

  lemma {:induction false} SplitAtSeparator(a: string, sep: char, rest: string)
    requires sep !in a
    ensures Split(a + [sep] + rest, sep) == [a] + Split(rest, sep)
    decreases |a|
  {
    var s := a + [sep] + rest;
    if a == [] {
      assert s[1..] == rest;
    } else {
      assert s[1..] == a[1..] + [sep] + rest;
      SplitAtSeparator(a[1..], sep, rest);
      assert [a[0]] + a[1..] == a;
    }
  }

  /** The label's dot-separated fields are the major, the minor and, only for
      a non-zero build, the build number. */
  lemma VersionStringFields(v: Version)
    ensures Split(VersionString(v)[1..], '.')
         == [NatToString(v.major), NatToString(v.minor)]
            + (if v.build == 0 then [] else [IntToString(v.build)])
  {
    var major, minor := NatToString(v.major), NatToString(v.minor);
    assert '.' !in major && '.' !in minor by {
      assert forall i :: 0 <= i < |major| ==> IsDigit(major[i]);
      assert forall i :: 0 <= i < |minor| ==> IsDigit(minor[i]);
    }
    if v.build == 0 {
      assert VersionString(v)[1..] == major + ['.'] + minor;
      SplitAtSeparator(major, '.', minor);
      SplitWithoutSeparator(minor, '.');
    } else {
      var build := IntToString(v.build);
      assert VersionString(v)[1..] == major + ['.'] + (minor + ['.'] + build);
      SplitAtSeparator(major, '.', minor + ['.'] + build);
      SplitAtSeparator(minor, '.', build);
      SplitWithoutSeparator(build, '.');
    }
  }

  /** Reading the label back yields the version it was made from. */
  lemma VersionStringRoundTrip(v: Version)
    ensures ParseVersion(VersionString(v)) == Some(v)
  {
    VersionStringFields(v);
    NatRoundTrip(v.major);
    NatRoundTrip(v.minor);
    if v.build != 0 {
      IntRoundTrip(v.build);
    }
  }

  /** Distinct versions get distinct labels. */
  lemma VersionStringInjective(v: Version, w: Version)
    ensures VersionString(v) == VersionString(w) ==> v == w
  {
    VersionStringRoundTrip(v);
    VersionStringRoundTrip(w);
  }

  /** The labels of two sample versions. */
  lemma VersionStringExamples()
    ensures VersionString(Version(1, 4, 0)) == "v1.4"
    ensures VersionString(Version(1, 4, 2)) == "v1.4.2"
  {
  }
}
