/** The version value of `src/dynamic_versioning/utils.py`: the strict
    `[v|V]?major.minor.patch` parser, the "not 0.0.0" validation, the parts a
    bump can target, the lexicographic order, bumping, rendering, and the
    `DynamicVersion` object whose `bump` updates it in place. */
module Versions {
  import opened Outcomes
  import opened Text

  /** The parts of a version a bump can target. The source's `UPDATE` has the
      same value as `PATCH` and is therefore the same enum member. */
  datatype VersionPart = Major | Minor | Patch

  /** The identity of a version: its three parts. */
  datatype Triple = Triple(major: nat, minor: nat, patch: nat) {
    function Parts(): seq<nat> {
      [major, minor, patch]
    }
  }

  const Zero := Triple(0, 0, 0)

  /** A version with the number of commits made since the tag it came from. */
  datatype Version = Version(release: Triple, commits: nat)

  // ---------------------------------------------------------------------------
  // Parsing `^[v|V]?(\d+)\.(\d+)\.(\d+)$`
  // ---------------------------------------------------------------------------

  /** The optional first character. The class `[v|V]` holds `|` as well. */
  predicate IsTagPrefixChar(c: char) {
    c == 'v' || c == 'V' || c == '|'
  }

  function DropTagPrefix(s: string): string {
    if |s| > 0 && IsTagPrefixChar(s[0]) then s[1..] else s
  }

  /** Reads `\d+` at the start of `s`: its value and what follows it. */
  function ScanNumeral(s: string): (r: Option<(nat, string)>)
    ensures r.Some? <==> s != [] && IsDigit(s[0])
  {
    var k := LeadingDigits(s);
    if k == 0 then None else Some((Value(s[..k]), s[k..]))
  }

  /** Reads `\.(\d+)` at the start of `s`. */
  function ScanDotNumeral(s: string): Option<(nat, string)> {
    if s == [] || s[0] != '.' then None else ScanNumeral(s[1..])
  }

  /** Reads `(\d+)\.(\d+)\.(\d+)` at the start of `s`. */
  function ScanTriple(s: string): Option<(Triple, string)> {
    match ScanNumeral(s)
    case None => None
    case Some((x, r1)) =>
      match ScanDotNumeral(r1)
      case None => None
      case Some((y, r2)) =>
        match ScanDotNumeral(r2)
        case None => None
        case Some((z, r3)) => Some((Triple(x, y, z), r3))
  }

  /** `parse_version_parts`: the three integers of a strict semantic version,
      or the abort that the source turns into `SystemExit`. */
  function ParseVersionParts(s: string): (r: Result<Triple>)
    ensures r.Err? ==> r.error == NotSemanticVersion(s)
  {
    match ScanTriple(DropTagPrefix(s))
    case Some((t, rest)) => if rest == [] then Ok(t) else Err(NotSemanticVersion(s))
    case None => Err(NotSemanticVersion(s))
  }

  /** `validate_semantic_versioning`: false exactly for 0.0.0; a string that
      does not parse aborts instead of answering. */
  function ValidateSemanticVersioning(s: string): (r: Result<bool>)
    ensures r.Ok? <==> ParseVersionParts(s).Ok?
    ensures r == Ok(false) <==> ParseVersionParts(s) == Ok(Zero)
    ensures r.Err? ==> r.error == NotSemanticVersion(s)
  {
    match ParseVersionParts(s)
    case Ok(t) => Ok(!(t.major == 0 && t.minor == 0 && t.patch == 0))
    case Err(e) => Err(e)
  }

  // The grammar the parser is meant to accept, written declaratively.

  ghost predicate IsTagPrefix(p: string) {
    p == [] || (|p| == 1 && IsTagPrefixChar(p[0]))
  }

  ghost predicate ReleaseFields(p: string, a: string, b: string, c: string) {
    IsTagPrefix(p) && IsNumeral(a) && IsNumeral(b) && IsNumeral(c)
  }

  ghost function ReleaseLayout(p: string, a: string, b: string, c: string): string {
    p + a + "." + b + "." + c
  }

  lemma ScanNumeralOf(a: string, rest: string)
    requires IsNumeral(a)
    requires rest == [] || !IsDigit(rest[0])
    ensures ScanNumeral(a + rest) == Some((Value(a), rest))
  {
    LeadingDigitsOfNumeral(a, rest);
    assert (a + rest)[..|a|] == a;
    assert (a + rest)[|a|..] == rest;
  }

  lemma ScanNumeralSound(s: string) returns (a: string)
    requires ScanNumeral(s).Some?
    ensures IsNumeral(a) && s == a + ScanNumeral(s).value.1
    ensures ScanNumeral(s).value.0 == Value(a)
    ensures ScanNumeral(s).value.1 == [] || !IsDigit(ScanNumeral(s).value.1[0])
  {
    var k := LeadingDigits(s);
    a := s[..k];
    assert s == s[..k] + s[k..];
  }

  lemma ScanDotNumeralOf(b: string, rest: string)
    requires IsNumeral(b)
    requires rest == [] || !IsDigit(rest[0])
    ensures ScanDotNumeral("." + b + rest) == Some((Value(b), rest))
  {
    assert ("." + b + rest)[1..] == b + rest;
    ScanNumeralOf(b, rest);
  }

  lemma ScanDotNumeralSound(s: string) returns (b: string)
    requires ScanDotNumeral(s).Some?
    ensures IsNumeral(b) && s == "." + b + ScanDotNumeral(s).value.1
    ensures ScanDotNumeral(s).value.0 == Value(b)
    ensures ScanDotNumeral(s).value.1 == [] || !IsDigit(ScanDotNumeral(s).value.1[0])
  {
    b := ScanNumeralSound(s[1..]);
    assert s == [s[0]] + s[1..];
  }

  lemma ScanTripleOf(a: string, b: string, c: string, rest: string)
    requires IsNumeral(a) && IsNumeral(b) && IsNumeral(c)
    requires rest == [] || !IsDigit(rest[0])
    ensures ScanTriple(a + "." + b + "." + c + rest) == Some((Triple(Value(a), Value(b), Value(c)), rest))
  {
    var r2 := "." + c + rest;
    var r1 := "." + b + r2;
    AssociateTriple(a, b, c, rest);
    ScanNumeralOf(a, r1);
    ScanDotNumeralOf(b, r2);
    ScanDotNumeralOf(c, rest);
  }

  lemma AssociateTriple(a: string, b: string, c: string, rest: string)
    ensures a + "." + b + "." + c + rest == a + ("." + b + ("." + c + rest))
  {
  }

  lemma ScanTripleSound(s: string) returns (a: string, b: string, c: string)
    requires ScanTriple(s).Some?
    ensures IsNumeral(a) && IsNumeral(b) && IsNumeral(c)
    ensures s == a + "." + b + "." + c + ScanTriple(s).value.1
    ensures ScanTriple(s).value.0 == Triple(Value(a), Value(b), Value(c))
    ensures ScanTriple(s).value.1 == [] || !IsDigit(ScanTriple(s).value.1[0])
  {
    a := ScanNumeralSound(s);
    var r1 := ScanNumeral(s).value.1;
    b := ScanDotNumeralSound(r1);
    var r2 := ScanDotNumeral(r1).value.1;
    c := ScanDotNumeralSound(r2);
    var r3 := ScanDotNumeral(r2).value.1;
    RegroupTriple(s, a, r1, b, r2, c, r3);
  }

  lemma RegroupTriple(s: string, a: string, r1: string, b: string, r2: string, c: string, r3: string)
    requires s == a + r1 && r1 == "." + b + r2 && r2 == "." + c + r3
    ensures s == a + "." + b + "." + c + r3
  {
  }

  lemma AppendEmpty(s: string)
    ensures s + [] == s
  {
  }

  lemma ScanTripleOfWhole(a: string, b: string, c: string)
    requires IsNumeral(a) && IsNumeral(b) && IsNumeral(c)
    ensures ScanTriple(a + "." + b + "." + c) == Some((Triple(Value(a), Value(b), Value(c)), []))
  {
    ScanTripleOf(a, b, c, []);
    AppendEmpty(a + "." + b + "." + c);
  }

  lemma DropTagPrefixOf(p: string, body: string)
    requires IsTagPrefix(p) && body != [] && IsDigit(body[0])
    ensures DropTagPrefix(p + body) == body
  {
    if p != [] {
      assert (p + body)[1..] == body;
    }
  }

  /** The unprefixed case of `ParseVersionPartsAccepts`. */
  lemma ParseVersionPartsAcceptsBare(a: string, b: string, c: string)
    requires IsNumeral(a) && IsNumeral(b) && IsNumeral(c)
    ensures ParseVersionParts(a + "." + b + "." + c) == Ok(Triple(Value(a), Value(b), Value(c)))
  {
    var body := a + "." + b + "." + c;
    assert body[0] == a[0];
    assert DropTagPrefix(body) == body;
    ScanTripleOfWhole(a, b, c);
  }

  /** Every string of the form `[v|V]?a.b.c` parses, to the values of its
      three digit runs. */
  lemma ParseVersionPartsAccepts(p: string, a: string, b: string, c: string)
    requires ReleaseFields(p, a, b, c)
    ensures ParseVersionParts(ReleaseLayout(p, a, b, c)) == Ok(Triple(Value(a), Value(b), Value(c)))
  {
    var body := a + "." + b + "." + c;
    assert ReleaseLayout(p, a, b, c) == p + body;
    DropTagPrefixOf(p, body);
    ScanTripleOfWhole(a, b, c);
  }

  lemma SplitTagPrefix(s: string) returns (p: string)
    ensures IsTagPrefix(p) && s == p + DropTagPrefix(s)
  {
    p := if |s| > 0 && IsTagPrefixChar(s[0]) then s[..1] else [];
    assert s == p + DropTagPrefix(s);
  }

  lemma RegroupRelease(s: string, p: string, body: string, a: string, b: string, c: string)
    requires s == p + body && body == a + "." + b + "." + c + []
    ensures s == ReleaseLayout(p, a, b, c)
  {
  }

  /** Only strings of the form `[v|V]?a.b.c` parse. */
  lemma ParseVersionPartsOnlyAccepts(s: string)
    requires ParseVersionParts(s).Ok?
    ensures exists p, a, b, c :: ReleaseFields(p, a, b, c) && s == ReleaseLayout(p, a, b, c) &&
                                 ParseVersionParts(s).value == Triple(Value(a), Value(b), Value(c))
  {
    var p := SplitTagPrefix(s);
    var a, b, c := ScanTripleSound(DropTagPrefix(s));
    RegroupRelease(s, p, DropTagPrefix(s), a, b, c);
    assert ReleaseFields(p, a, b, c);
  }

  /** `(\d+)\.(\d+)` followed by neither a digit nor a dot is not the start
      of a triple. */
  lemma ScanTripleOfTwoParts(a: string, b: string, rest: string)
    requires IsNumeral(a) && IsNumeral(b)
    requires rest == [] || (rest[0] != '.' && !IsDigit(rest[0]))
    ensures ScanTriple(a + "." + b + rest) == None
  {
    var r1 := "." + b + rest;
    assert a + "." + b + rest == a + r1;
    ScanNumeralOf(a, r1);
    ScanDotNumeralOf(b, rest);
  }

  /** A two-part version such as `1.2` does not parse. */
  lemma TwoPartVersionRejected(p: string, a: string, b: string)
    requires IsTagPrefix(p) && IsNumeral(a) && IsNumeral(b)
    ensures ParseVersionParts(p + a + "." + b).Err?
  {
    var body := a + "." + b;
    assert p + a + "." + b == p + body;
    DropTagPrefixOf(p, body);
    ScanTripleOfTwoParts(a, b, []);
    AppendEmpty(body);
  }

  /** The unprefixed case of `SuffixedVersionRejected`. */
  lemma SuffixedVersionRejectedBare(a: string, b: string, c: string, suffix: string)
    requires IsNumeral(a) && IsNumeral(b) && IsNumeral(c)
    requires suffix != [] && !IsDigit(suffix[0])
    ensures ParseVersionParts(a + "." + b + "." + c + suffix).Err?
  {
    ScanTripleOf(a, b, c, suffix);
  }

  /** A version with anything after its patch number, such as `1.2.3-rc1` or
      `1.2.3.dev4`, does not parse. */
  lemma SuffixedVersionRejected(p: string, a: string, b: string, c: string, suffix: string)
    requires ReleaseFields(p, a, b, c)
    requires suffix != [] && !IsDigit(suffix[0])
    ensures ParseVersionParts(p + a + "." + b + "." + c + suffix).Err?
  {
    var body := a + "." + b + "." + c + suffix;
    assert p + a + "." + b + "." + c + suffix == p + body;
    DropTagPrefixOf(p, body);
    ScanTripleOf(a, b, c, suffix);
  }

  // ---------------------------------------------------------------------------
  // Order
  // ---------------------------------------------------------------------------

  /** Lexicographic order on equally long sequences of numbers. */
  predicate LexLess(s: seq<nat>, t: seq<nat>)
    requires |s| == |t|
    decreases |s|
  {
    |s| > 0 && (s[0] < t[0] || (s[0] == t[0] && LexLess(s[1..], t[1..])))
  }

  lemma {:induction false} LexLessIrreflexive(s: seq<nat>)
    ensures !LexLess(s, s)
    decreases |s|
  {
    if |s| > 0 {
      LexLessIrreflexive(s[1..]);
    }
  }

  lemma {:induction false} LexLessTransitive(s: seq<nat>, t: seq<nat>, u: seq<nat>)
    requires |s| == |t| == |u|
    requires LexLess(s, t) && LexLess(t, u)
    ensures LexLess(s, u)
    decreases |s|
  {
    if s[0] == t[0] == u[0] {
      LexLessTransitive(s[1..], t[1..], u[1..]);
    }
  }

  lemma {:induction false} LexLessTotal(s: seq<nat>, t: seq<nat>)
    requires |s| == |t|
    ensures s == t || LexLess(s, t) || LexLess(t, s)
    decreases |s|
  {
    if |s| > 0 && s[0] == t[0] {
      LexLessTotal(s[1..], t[1..]);
      if s[1..] == t[1..] {
        assert s == [s[0]] + s[1..] && t == [t[0]] + t[1..];
      }
    }
  }

  /** `x` comes strictly before `y`: lexicographically on the three parts. */
  predicate Precedes(x: Triple, y: Triple) {
    LexLess(x.Parts(), y.Parts())
  }

  /** `Precedes` spelled out part by part. */
  lemma PrecedesByParts(x: Triple, y: Triple)
    ensures Precedes(x, y) <==>
      x.major < y.major || (x.major == y.major && (x.minor < y.minor || (x.minor == y.minor && x.patch < y.patch)))
  {
    var xs, ys := x.Parts(), y.Parts();
    assert xs[1..][1..][1..] == [] && ys[1..][1..][1..] == [];
    assert !LexLess(xs[1..][1..][1..], ys[1..][1..][1..]);
    assert xs[1..][1..] == [x.patch] && ys[1..][1..] == [y.patch];
    assert LexLess(xs[1..][1..], ys[1..][1..]) <==> x.patch < y.patch;
    assert xs[1..] == [x.minor, x.patch] && ys[1..] == [y.minor, y.patch];
    assert LexLess(xs[1..], ys[1..]) <==> x.minor < y.minor || (x.minor == y.minor && x.patch < y.patch);
  }

  /** `Precedes` is a strict total order: for any two triples exactly one of
      "before", "equal" and "after" holds, and it is transitive. */
  lemma PrecedesIsStrictTotalOrder(x: Triple, y: Triple, z: Triple)
    ensures Precedes(x, y) ==> x != y && !Precedes(y, x)
    ensures x == y || Precedes(x, y) || Precedes(y, x)
    ensures Precedes(x, y) && Precedes(y, z) ==> Precedes(x, z)
  {
    LexLessIrreflexive(x.Parts());
    LexLessTotal(x.Parts(), y.Parts());
    if Precedes(x, y) && Precedes(y, x) {
      LexLessTransitive(x.Parts(), y.Parts(), x.Parts());
    }
    if Precedes(x, y) && Precedes(y, z) {
      LexLessTransitive(x.Parts(), y.Parts(), z.Parts());
    }
  }

  // ---------------------------------------------------------------------------
  // Bumping
  // ---------------------------------------------------------------------------

  /** The triple a bump of `part` leads to. */
  function Bumped(t: Triple, part: VersionPart): (r: Triple)
    ensures Precedes(t, r)
  {
    match part
    case Major => Triple(t.major + 1, 0, 0)
    case Minor => Triple(t.major, t.minor + 1, 0)
    case Patch => Triple(t.major, t.minor, t.patch + 1)
  }

  /** A bump goes to the smallest triple that is larger at the bumped part's
      level: the next major, the next minor within the major, or the next
      patch. No triple that is already larger at that level comes before it. */
  lemma BumpedIsLeastAtItsLevel(t: Triple, part: VersionPart, u: Triple)
    requires part == Major ==> u.major > t.major
    requires part == Minor ==> u.major > t.major || (u.major == t.major && u.minor > t.minor)
    requires part == Patch ==> Precedes(t, u)
    ensures !Precedes(u, Bumped(t, part))
  {
    PrecedesByParts(u, Bumped(t, part));
    PrecedesByParts(t, u);
  }

  // ---------------------------------------------------------------------------
  // Rendering
  // ---------------------------------------------------------------------------

  predicate IsDottedDigits(s: string) {
    forall i | 0 <= i < |s| :: IsDigit(s[i]) || s[i] == '.'
  }

  lemma DottedDigitsJoin(a: string, b: string)
    requires IsDottedDigits(a) && IsDottedDigits(b)
    ensures IsDottedDigits(a + "." + b)
  {
    assert forall i | 0 <= i < |a + "." + b| ::
      (a + "." + b)[i] == if i < |a| then a[i] else if i == |a| then '.' else b[i - |a| - 1];
  }

  /** `"{major}.{minor}.{patch}"`: only digits and dots. */
  function ReleaseString(t: Triple): (r: string)
    ensures IsDottedDigits(r)
  {
    var a, b, c := NatToString(t.major), NatToString(t.minor), NatToString(t.patch);
    DottedDigitsJoin(a, b);
    DottedDigitsJoin(a + "." + b, c);
    a + "." + b + "." + c
  }

  /** A rendered release reads back as the same triple. */
  lemma ReleaseStringRoundTrip(t: Triple)
    ensures ParseVersionParts(ReleaseString(t)) == Ok(t)
  {
    ParseVersionPartsAcceptsBare(NatToString(t.major), NatToString(t.minor), NatToString(t.patch));
  }

  /** `"{major}.{minor}.{patch}.dev{commits}"`: the release string followed
      by the developmental-release segment of PEP 440. */
  function DevString(v: Version): (r: string)
    ensures |ReleaseString(v.release)| < |r| && r[..|ReleaseString(v.release)|] == ReleaseString(v.release)
  {
    ReleaseString(v.release) + ".dev" + NatToString(v.commits)
  }

  /** A development version is never itself a plain release version. */
  lemma DevStringIsNotRelease(v: Version)
    ensures ParseVersionParts(DevString(v)).Err?
  {
    var t := v.release;
    var a, b, c := NatToString(t.major), NatToString(t.minor), NatToString(t.patch);
    var suffix := ".dev" + NatToString(v.commits);
    assert DevString(v) == a + "." + b + "." + c + suffix;
    SuffixedVersionRejectedBare(a, b, c, suffix);
  }

  // ---------------------------------------------------------------------------
  // The mutable version object
  // ---------------------------------------------------------------------------

  /** `DynamicVersion`: three parts and a commit count. Equality and order
      look at the three parts only; `Bump` is the one operation that changes
      an object. */
  class DynamicVersion {
    var major: nat
    var minor: nat
    var patch: nat
    var commits: nat

    constructor (major: nat, minor: nat, patch: nat, commits: nat)
      ensures this.major == major && this.minor == minor && this.patch == patch
      ensures this.commits == commits
    {
      this.major := major;
      this.minor := minor;
      this.patch := patch;
      this.commits := commits;
    }

    function Release(): Triple
      reads this
    {
      Triple(major, minor, patch)
    }

    function AsVersion(): Version
      reads this
    {
      Version(Release(), commits)
    }

    /** `from_version_string`: a fresh object with the parsed parts and no
        commits, or the parse error. */
    static method FromVersionString(s: string) returns (r: Result<DynamicVersion>)
      ensures r.Err? <==> ParseVersionParts(s).Err?
      ensures r.Err? ==> r.error == NotSemanticVersion(s)
      ensures r.Ok? ==> fresh(r.value) && r.value.AsVersion() == Version(ParseVersionParts(s).value, 0)
    {
      match ParseVersionParts(s)
      case Ok(t) =>
        var v := new DynamicVersion(t.major, t.minor, t.patch, 0);
        r := Ok(v);
      case Err(e) =>
        r := Err(e);
    }

    /** `bump`: increments the chosen part and zeroes the parts below it; the
        commit count is kept. The object ends strictly greater than it was. */
    method Bump(part: VersionPart)
      modifies this
      ensures part == Major ==> major == old(major) + 1 && minor == 0 && patch == 0
      ensures part == Minor ==> major == old(major) && minor == old(minor) + 1 && patch == 0
      ensures part == Patch ==> major == old(major) && minor == old(minor) && patch == old(patch) + 1
      ensures commits == old(commits)
      ensures Release() == Bumped(old(Release()), part)
      ensures Precedes(old(Release()), Release())
    {
      if part == Major {
        major := major + 1;
        minor := 0;
        patch := 0;
      }
      if part == Minor {
        minor := minor + 1;
        patch := 0;
      }
      if part == Patch {
        patch := patch + 1;
      }
    }

    /** `version_string`: reads back through `from_version_string` as an
        equal version. */
    function VersionString(): (r: string)
      reads this
      ensures ParseVersionParts(r) == Ok(Release())
    {
      ReleaseStringRoundTrip(Release());
      ReleaseString(Release())
    }

    /** `dev_version_string`: the release string, `.dev` and the commit count. */
    function DevVersionString(): (r: string)
      reads this
      ensures r == VersionString() + ".dev" + NatToString(commits)
      ensures ParseVersionParts(r).Err?
    {
      DevStringIsNotRelease(AsVersion());
      DevString(AsVersion())
    }

    /** `__lt__`, written as the source's chain of tests; it agrees with the
        lexicographic order on the three parts. */
    function LessThan(other: DynamicVersion): (r: bool)
      reads this, other
      ensures r <==> Precedes(Release(), other.Release())
    {
      PrecedesByParts(Release(), other.Release());
      if major < other.major then true
      else if major == other.major && minor < other.minor then true
      else if major == other.major && minor == other.minor && patch < other.patch then true
      else false
    }

    /** `__eq__`: the three parts agree; the commit counts are not compared. */
    function Equals(other: DynamicVersion): (r: bool)
      reads this, other
      ensures r <==> Release() == other.Release()
    {
      major == other.major && minor == other.minor && patch == other.patch
    }

    /** `>` as `functools.total_ordering` derives it from `__lt__` and
        `__eq__` (neither less nor equal); it is `<` with the operands
        swapped. */
    function GreaterThan(other: DynamicVersion): (r: bool)
      reads this, other
      ensures r <==> other.LessThan(this)
    {
      PrecedesIsStrictTotalOrder(Release(), other.Release(), other.Release());
      !LessThan(other) && !Equals(other)
    }
  }

  /** For any two version objects exactly one of `<`, `==` and `>` holds. */
  lemma DynamicVersionTrichotomy(x: DynamicVersion, y: DynamicVersion)
    ensures x.LessThan(y) || x.Equals(y) || x.GreaterThan(y)
    ensures !(x.LessThan(y) && x.Equals(y))
    ensures !(x.LessThan(y) && x.GreaterThan(y))
    ensures !(x.Equals(y) && x.GreaterThan(y))
  {
    PrecedesIsStrictTotalOrder(x.Release(), y.Release(), y.Release());
  }
}
