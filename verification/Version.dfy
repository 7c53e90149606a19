/**
  Stable versions of three numerals without leading zeros: parsing, printing and the next
  version of a release.
 */
module Version {
  import opened Prelude

  datatype Version = Version(major: nat, minor: nat, patch: nat)

  datatype Result = Ok(target: string) | Invalid(value: string) | NotNewer(target: string)

  const DIGITS := "0123456789"

  predicate IsDigit(c: char) {
    '0' <= c <= '9'
  }

  function DigitValue(c: char): (d: nat)
    requires IsDigit(c)
    ensures d < 10 && DIGITS[d] == c
  {
    c as int - '0' as int
  }

  predicate AllDigits(s: string) {
    forall i :: 0 <= i < |s| ==> IsDigit(s[i])
  }

  /** `0|[1-9][0-9]*` */
  predicate IsNumeral(s: string) {
    |s| > 0 && AllDigits(s) && (s[0] == '0' ==> |s| == 1)
  }

  function ValueOf(s: string): nat
    requires AllDigits(s)
  {
    if s == [] then 0 else ValueOf(s[..|s| - 1]) * 10 + DigitValue(s[|s| - 1])
  }

  function Print(n: nat): (s: string)
    ensures AllDigits(s) && |s| > 0
  {
    if n < 10 then [DIGITS[n]] else Print(n / 10) + [DIGITS[n % 10]]
  }

  lemma {:induction false} PrintReads(n: nat)
    ensures IsNumeral(Print(n)) && ValueOf(Print(n)) == n
    ensures Print(n)[0] == '0' <==> n == 0
  {
    var s := Print(n);
    if n < 10 {
      assert s[..0] == [];
    } else {
      PrintReads(n / 10);
      assert s[..|s| - 1] == Print(n / 10) && s[0] == Print(n / 10)[0];
    }
  }

  lemma {:induction false} ReadPrints(s: string)
    requires IsNumeral(s)
    ensures Print(ValueOf(s)) == s
    ensures ValueOf(s) == 0 <==> s == "0"
  {
    if |s| == 1 {
      assert s[..0] == [] && s == [s[0]];
    } else {
      var init := s[..|s| - 1];
      ReadPrints(init);
      assert s == init + [s[|s| - 1]];
      assert ValueOf(s) / 10 == ValueOf(init) && ValueOf(s) % 10 == DigitValue(s[|s| - 1]);
    }
  }

  // ----- the three parts

  function Split(s: string): (parts: seq<string>)
    ensures |parts| > 0
  {
    if s == [] then [""]
    else
      var rest := Split(s[1..]);
      if s[0] == '.' then [""] + rest else [[s[0]] + rest[0]] + rest[1..]
  }

  predicate Dotless(s: string) {
    forall i :: 0 <= i < |s| ==> s[i] != '.'
  }

  lemma {:induction false} SplitPart(part: string, rest: string)
    requires Dotless(part)
    ensures Split(part) == [part]
    ensures Split(part + "." + rest) == [part] + Split(rest)
  {
    var whole := part + "." + rest;
    if part == [] {
      assert whole == "." + rest && whole[1..] == rest;
    } else {
      SplitPart(part[1..], rest);
      assert whole[1..] == part[1..] + "." + rest && part == [part[0]] + part[1..];
      assert Split(whole[1..]) == [part[1..]] + Split(rest);
    }
  }

  function Join(parts: seq<string>): string
    requires |parts| > 0
  {
    if |parts| == 1 then parts[0] else parts[0] + "." + Join(parts[1..])
  }

  lemma {:induction false} JoinSplit(s: string)
    ensures Join(Split(s)) == s
  {
    if s != [] {
      JoinSplit(s[1..]);
      var rest := Split(s[1..]);
      if s[0] == '.' {
        assert Split(s)[1..] == rest;
        assert Join(Split(s)) == "" + "." + Join(rest);
      } else {
        assert Split(s)[1..] == rest[1..];
      }
      assert s == [s[0]] + s[1..];
    }
  }

  // ----- versions

  function PrintVersion(v: Version): string {
    Print(v.major) + "." + Print(v.minor) + "." + Print(v.patch)
  }

  function Parse(s: string): Option<Version> {
    var parts := Split(s);
    if |parts| == 3 && IsNumeral(parts[0]) && IsNumeral(parts[1]) && IsNumeral(parts[2])
    then Some(Version(ValueOf(parts[0]), ValueOf(parts[1]), ValueOf(parts[2])))
    else None
  }

  /** The pattern `N\.N\.N` matches the whole string. */
  ghost predicate Matches(s: string, a: string, b: string, c: string) {
    IsNumeral(a) && IsNumeral(b) && IsNumeral(c) && s == a + "." + b + "." + c
  }

  lemma SplitThree(a: string, b: string, c: string)
    requires Dotless(a) && Dotless(b) && Dotless(c)
    ensures Split(a + "." + b + "." + c) == [a, b, c]
  {
    assert a + "." + b + "." + c == a + "." + (b + "." + c);
    SplitPart(a, b + "." + c);
    SplitPart(b, c);
    SplitPart(c, "");
  }

  /** Splitting and checking the parts accepts exactly what the pattern matches. */
  lemma ParseIsThePattern(s: string)
    ensures Parse(s).Some? <==> exists a, b, c :: Matches(s, a, b, c)
  {
    if Parse(s).Some? {
      var parts := Split(s);
      JoinSplit(s);
      JoinThree(parts);
      assert Matches(s, parts[0], parts[1], parts[2]);
    }
    forall a, b, c | Matches(s, a, b, c) ensures Parse(s).Some? { SplitThree(a, b, c); }
  }

  lemma ParsePrinted(v: Version)
    ensures Parse(PrintVersion(v)) == Some(v)
  {
    PrintReads(v.major);
    PrintReads(v.minor);
    PrintReads(v.patch);
    SplitThree(Print(v.major), Print(v.minor), Print(v.patch));
  }

  lemma PrintParsed(s: string)
    requires Parse(s).Some?
    ensures PrintVersion(Parse(s).value) == s
  {
    var parts := Split(s);
    JoinSplit(s);
    JoinThree(parts);
    hide Split, Join, Print, ValueOf, IsNumeral;
    ReadPrints(parts[0]);
    ReadPrints(parts[1]);
    ReadPrints(parts[2]);
  }

  lemma JoinThree(parts: seq<string>)
    requires |parts| == 3
    ensures Join(parts) == parts[0] + "." + parts[1] + "." + parts[2]
  {
    assert Join(parts[2..]) == parts[2];
    assert Join(parts[1..]) == parts[1] + "." + Join(parts[2..]);
    assert Join(parts) == parts[0] + "." + Join(parts[1..]);
  }

  /** Tuples compare lexicographically. */
  predicate Less(a: Version, b: Version) {
    a.major < b.major || (a.major == b.major && (a.minor < b.minor || (a.minor == b.minor && a.patch < b.patch)))
  }

  function Target(current: Version, requested: string): string {
    match requested
    case "patch" => PrintVersion(Version(current.major, current.minor, current.patch + 1))
    case "minor" => PrintVersion(Version(current.major, current.minor + 1, 0))
    case "major" => PrintVersion(Version(current.major + 1, 0, 0))
    case _ => requested
  }

  function NextVersion(current: string, requested: string): Result {
    var from := Parse(current);
    if from.None? then Invalid(current)
    else
      var target := Target(from.value, requested);
      var to := Parse(target);
      if to.None? then Invalid(target)
      else if Less(from.value, to.value) then Ok(target)
      else NotNewer(target)
  }

  predicate Newer(current: string, requested: string)
    requires Parse(current).Some?
  {
    Parse(requested).Some? && Less(Parse(current).value, Parse(requested).value)
  }

  predicate Named(requested: string) {
    requested == "patch" || requested == "minor" || requested == "major"
  }

  /** Every version it returns parses and is greater; a named step never fails on a valid one. */
  lemma NextIsGreater(current: string, requested: string)
    ensures var r := NextVersion(current, requested);
      && (r.Ok? ==> Parse(current).Some? && Parse(r.target).Some? && Less(Parse(current).value, Parse(r.target).value))
      && (r.Ok? <==> (Parse(current).Some? && (Named(requested) || Newer(current, requested))))
      && (r.NotNewer? ==> !Named(requested) && !Less(Parse(current).value, Parse(requested).value))
  {
    if Parse(current).Some? {
      var v := Parse(current).value;
      ParsePrinted(Version(v.major, v.minor, v.patch + 1));
      ParsePrinted(Version(v.major, v.minor + 1, 0));
      ParsePrinted(Version(v.major + 1, 0, 0));
    }
  }

  lemma NamedTargets(current: string)
    requires Parse(current).Some?
    ensures var now := Parse(current).value;
      && NextVersion(current, "patch") == Ok(PrintVersion(Version(now.major, now.minor, now.patch + 1)))
      && NextVersion(current, "minor") == Ok(PrintVersion(Version(now.major, now.minor + 1, 0)))
      && NextVersion(current, "major") == Ok(PrintVersion(Version(now.major + 1, 0, 0)))
  {
    var now := Parse(current).value;
    hide PrintVersion, Parse;
    ParsePrinted(Version(now.major, now.minor, now.patch + 1));
    ParsePrinted(Version(now.major, now.minor + 1, 0));
    ParsePrinted(Version(now.major + 1, 0, 0));
  }

  /** A version that a release step goes to is nearest: no other of its kind lies before it. */
  ghost predicate Nearest(current: string, step: string, v: Version) {
    var r := NextVersion(current, step);
    r.Ok? && Parse(r.target).Some? && !Less(v, Parse(r.target).value)
  }

  /** A named step goes to the nearest version of its kind: nothing newer is skipped. */
  lemma NamedStepsAreNearest(current: string, v: Version)
    requires Parse(current).Some? && Less(Parse(current).value, v)
    ensures Nearest(current, "patch", v)
    ensures v.major != Parse(current).value.major || v.minor != Parse(current).value.minor ==> Nearest(current, "minor", v)
    ensures v.major != Parse(current).value.major ==> Nearest(current, "major", v)
  {
    var now := Parse(current).value;
    NamedTargets(current);
    ParsePrinted(Version(now.major, now.minor, now.patch + 1));
    ParsePrinted(Version(now.major, now.minor + 1, 0));
    ParsePrinted(Version(now.major + 1, 0, 0));
    hide PrintVersion, Parse, NextVersion;
  }
}
