/** The tag half of `src/dynamic_versioning/utils.py`: reading the line
    `git describe --long` prints, classifying the errors of `git fetch` and
    `git describe`, and `get_version_from_git`, which turns those outcomes
    into a version or an abort. The git processes themselves are not run: their
    error and output streams are inputs. */
module GitDescribe {
  import opened Outcomes
  import opened Text
  import opened Versions

  // ---------------------------------------------------------------------------
  // Parsing `^[v|V]?(\d+)\.(\d+)\.(\d+)\-(\d+)\-g\w{,7}$`
  // ---------------------------------------------------------------------------

  /** `\w{,7}`: at most seven word characters (possibly none). */
  predicate IsAbbrevHash(h: string) {
    |h| <= 7 && forall i | 0 <= i < |h| :: IsWordChar(h[i])
  }

  /** Reads `\-(\d+)\-g\w{,7}` up to the end of `s`: the commit count. */
  function ScanDistance(s: string): Option<nat> {
    if s == [] || s[0] != '-' then None
    else
      match ScanNumeral(s[1..])
      case None => None
      case Some((n, rest)) =>
        if |rest| >= 2 && rest[0] == '-' && rest[1] == 'g' && IsAbbrevHash(rest[2..]) then Some(n) else None
  }

  /** The regular-expression match on the stripped describe line: the tag's
      three parts and the number of commits since it, or an abort. */
  function ParseDescribe(line: string): (r: Result<Version>)
    ensures r.Err? ==> r.error == UnparseableTag(line)
  {
    match ScanTriple(DropTagPrefix(line))
    case None => Err(UnparseableTag(line))
    case Some((t, rest)) =>
      match ScanDistance(rest)
      case None => Err(UnparseableTag(line))
      case Some(n) => Ok(Version(t, n))
  }

  // The grammar the describe parser is meant to accept, written declaratively.

  ghost predicate DescribeFields(p: string, a: string, b: string, c: string, n: string, h: string) {
    ReleaseFields(p, a, b, c) && IsNumeral(n) && IsAbbrevHash(h)
  }

  ghost function DescribeLayout(p: string, a: string, b: string, c: string, n: string, h: string): string {
    p + a + "." + b + "." + c + "-" + n + "-g" + h
  }

  lemma ScanDistanceOf(n: string, h: string)
    requires IsNumeral(n)
    ensures ScanDistance("-" + n + "-g" + h) == if IsAbbrevHash(h) then Some(Value(n)) else None
  {
    var s := "-" + n + "-g" + h;
    var rest := "-g" + h;
    assert s[1..] == n + rest;
    ScanNumeralOf(n, rest);
    assert rest[2..] == h;
  }

  lemma ScanDistanceSound(s: string) returns (n: string, h: string)
    requires ScanDistance(s).Some?
    ensures IsNumeral(n) && IsAbbrevHash(h) && s == "-" + n + "-g" + h
    ensures ScanDistance(s).value == Value(n)
  {
    n := ScanNumeralSound(s[1..]);
    var rest := ScanNumeral(s[1..]).value.1;
    h := rest[2..];
    assert rest == "-g" + h;
    assert s == [s[0]] + s[1..];
  }

  lemma RegroupDescribe(line: string, p: string, body: string, a: string, b: string, c: string,
                        rest: string, n: string, h: string)
    requires line == p + body && body == a + "." + b + "." + c + rest && rest == "-" + n + "-g" + h
    ensures line == DescribeLayout(p, a, b, c, n, h)
  {
  }

  /** Every line of the form `[v|V]?a.b.c-n-g` followed by at most seven word
      characters parses, to the values of its digit runs. */
  lemma ParseDescribeAccepts(p: string, a: string, b: string, c: string, n: string, h: string)
    requires DescribeFields(p, a, b, c, n, h)
    ensures ParseDescribe(DescribeLayout(p, a, b, c, n, h)) == Ok(Version(Triple(Value(a), Value(b), Value(c)), Value(n)))
  {
    var rest := "-" + n + "-g" + h;
    var body := a + "." + b + "." + c + rest;
    RegroupDescribe(DescribeLayout(p, a, b, c, n, h), p, body, a, b, c, rest, n, h);
    assert DescribeLayout(p, a, b, c, n, h) == p + body;
    DropTagPrefixOf(p, body);
    ScanTripleOf(a, b, c, rest);
    ScanDistanceOf(n, h);
  }

  /** Only lines of that form parse. */
  lemma ParseDescribeOnlyAccepts(line: string)
    requires ParseDescribe(line).Ok?
    ensures exists p, a, b, c, n, h :: DescribeFields(p, a, b, c, n, h) && line == DescribeLayout(p, a, b, c, n, h) &&
                                       ParseDescribe(line).value == Version(Triple(Value(a), Value(b), Value(c)), Value(n))
  {
    var p := SplitTagPrefix(line);
    var body := DropTagPrefix(line);
    var a, b, c := ScanTripleSound(body);
    var rest := ScanTriple(body).value.1;
    var n, h := ScanDistanceSound(rest);
    RegroupDescribe(line, p, body, a, b, c, rest, n, h);
    assert DescribeFields(p, a, b, c, n, h);
  }

  /** A hash of more than seven characters is rejected, even though
      `git describe` prints longer abbreviations in large repositories. */
  lemma LongHashRejected(p: string, a: string, b: string, c: string, n: string, h: string)
    requires ReleaseFields(p, a, b, c) && IsNumeral(n)
    requires |h| > 7
    ensures ParseDescribe(DescribeLayout(p, a, b, c, n, h)).Err?
  {
    var rest := "-" + n + "-g" + h;
    var body := a + "." + b + "." + c + rest;
    RegroupDescribe(DescribeLayout(p, a, b, c, n, h), p, body, a, b, c, rest, n, h);
    assert DescribeLayout(p, a, b, c, n, h) == p + body;
    DropTagPrefixOf(p, body);
    ScanTripleOf(a, b, c, rest);
    ScanDistanceOf(n, h);
  }

  /** A two-part tag such as `v1.2-5-gabc1234` is rejected. */
  lemma TwoPartTagRejected(p: string, a: string, b: string, n: string, h: string)
    requires IsTagPrefix(p) && IsNumeral(a) && IsNumeral(b) && IsNumeral(n)
    ensures ParseDescribe(p + a + "." + b + "-" + n + "-g" + h).Err?
  {
    var rest := "-" + n + "-g" + h;
    var body := a + "." + b + rest;
    assert p + a + "." + b + "-" + n + "-g" + h == p + body;
    DropTagPrefixOf(p, body);
    ScanTripleOfTwoParts(a, b, rest);
  }

  // ---------------------------------------------------------------------------
  // get_version_from_git
  // ---------------------------------------------------------------------------

  /** The text git writes when the history has no annotated tag. */
  const NoAnnotatedTags := "No names found, cannot describe anything"

  /** What the two git invocations produced: the error stream of
      `git fetch`, and the output and error streams of `git describe --long`. */
  datatype GitOutcome = GitOutcome(fetchStderr: string, describeStdout: string, describeStderr: string)

  /** `get_version_from_git`: a failed fetch aborts; a describe that reports
      no annotated tag means 0.0.0; any other describe failure falls back to
      the strictly parsed fallback version (or aborts without one); otherwise
      the stripped describe line is parsed and a 0.0.0 tag aborts. */
  function GetVersionFromGit(git: GitOutcome, fallback: Option<string>): (r: Result<Version>)
    ensures git.fetchStderr != [] ==> r == Err(FetchFailed(Strip(git.fetchStderr)))
    ensures r.Ok? && git.describeStderr == [] ==> r.value.release != Zero
    ensures r.Ok? && git.describeStderr != [] ==> r.value.commits == 0
    ensures r.Ok? && fallback.None? ==> git.describeStderr == [] || r.value == Version(Zero, 0)
  {
    if git.fetchStderr != [] then Err(FetchFailed(Strip(git.fetchStderr)))
    else if git.describeStderr != [] then
      if Contains(Strip(git.describeStderr), NoAnnotatedTags) then Ok(Version(Zero, 0))
      else if fallback.Some? then
        match ParseVersionParts(fallback.value)
        case Ok(t) => Ok(Version(t, 0))
        case Err(e) => Err(e)
      else Err(DescribeFailedWithoutFallback)
    else
      match ParseDescribe(Strip(git.describeStdout))
      case Err(e) => Err(e)
      case Ok(v) => if v.release == Zero then Err(ZeroTag) else Ok(v)
  }

  /** With no annotated tag the history starts at 0.0.0 with no commits. */
  lemma NoTagsMeansZero(git: GitOutcome, fallback: Option<string>)
    requires git.fetchStderr == [] && git.describeStderr != []
    requires Contains(git.describeStderr, NoAnnotatedTags)
    ensures GetVersionFromGit(git, fallback) == Ok(Version(Zero, 0))
  {
    StripKeepsOccurrences(git.describeStderr, NoAnnotatedTags);
  }

  /** Any other describe failure uses the fallback, parsed strictly and with
      no commits, and aborts without one. */
  lemma DescribeFailureUsesFallback(git: GitOutcome, fallback: Option<string>)
    requires git.fetchStderr == [] && git.describeStderr != []
    requires !Contains(git.describeStderr, NoAnnotatedTags)
    ensures fallback.None? ==> GetVersionFromGit(git, fallback) == Err(DescribeFailedWithoutFallback)
    ensures fallback.Some? && ParseVersionParts(fallback.value).Ok? ==>
              GetVersionFromGit(git, fallback) == Ok(Version(ParseVersionParts(fallback.value).value, 0))
    ensures fallback.Some? && ParseVersionParts(fallback.value).Err? ==>
              GetVersionFromGit(git, fallback) == Err(NotSemanticVersion(fallback.value))
  {
    StripKeepsOccurrences(git.describeStderr, NoAnnotatedTags);
  }

  /** A well-formed describe line gives its tag and commit count, unless the
      tag is 0.0.0, which aborts. */
  lemma DescribedTag(git: GitOutcome, fallback: Option<string>, p: string, a: string, b: string, c: string, n: string, h: string)
    requires git.fetchStderr == [] && git.describeStderr == []
    requires DescribeFields(p, a, b, c, n, h) && Strip(git.describeStdout) == DescribeLayout(p, a, b, c, n, h)
    ensures Value(a) == 0 && Value(b) == 0 && Value(c) == 0 ==> GetVersionFromGit(git, fallback) == Err(ZeroTag)
    ensures !(Value(a) == 0 && Value(b) == 0 && Value(c) == 0) ==>
              GetVersionFromGit(git, fallback) == Ok(Version(Triple(Value(a), Value(b), Value(c)), Value(n)))
  {
    ParseDescribeAccepts(p, a, b, c, n, h);
  }

  /** A describe that succeeds with a stripped line the pattern refuses
      aborts with that line, and with no version. */
  lemma UnparseableDescribeAborts(git: GitOutcome, fallback: Option<string>)
    requires git.fetchStderr == [] && git.describeStderr == []
    requires ParseDescribe(Strip(git.describeStdout)).Err?
    ensures GetVersionFromGit(git, fallback) == Err(UnparseableTag(Strip(git.describeStdout)))
  {
  }

  /** On a describe that succeeds, the result is exactly the parse of the
      stripped line, with 0.0.0 refused: a version is returned only when the
      line has the describe layout, and then it is that layout's tag and
      commit count. */
  lemma DescribedVersionIsTheLine(git: GitOutcome, fallback: Option<string>)
    requires git.fetchStderr == [] && git.describeStderr == []
    requires GetVersionFromGit(git, fallback).Ok?
    ensures exists p, a, b, c, n, h :: DescribeFields(p, a, b, c, n, h) && Strip(git.describeStdout) == DescribeLayout(p, a, b, c, n, h) &&
                                       GetVersionFromGit(git, fallback).value == Version(Triple(Value(a), Value(b), Value(c)), Value(n))
  {
    ParseDescribeOnlyAccepts(Strip(git.describeStdout));
  }

  // `.strip()` on the describe error does not change whether the no-tag text
  // is found in it, because that text neither starts nor ends with a space.

  lemma StripIsInfix(s: string) returns (i: nat, j: nat)
    ensures i <= j <= |s| && Strip(s) == s[i..j]
    ensures forall k | 0 <= k < i :: IsSpace(s[k])
    ensures forall k | j <= k < |s| :: IsSpace(s[k])
  {
    var t := TrimStart(s);
    i := |s| - |t|;
    var u := TrimEnd(t);
    j := i + |u|;
    assert forall k | j <= k < |s| :: s[k] == t[k - i];
  }

  lemma OccurrenceInStripped(s: string, sub: string, i: nat, j: nat, k: int)
    requires i <= j <= |s| && OccursAt(s[i..j], sub, k)
    ensures OccursAt(s, sub, i + k)
  {
    var inner, outer := s[i..j][k..k + |sub|], s[i + k..i + k + |sub|];
    assert forall x | 0 <= x < |sub| :: inner[x] == outer[x];
    assert inner == outer;
  }

  lemma OccurrenceSurvivesStrip(s: string, sub: string, i: nat, j: nat, m: int)
    requires sub != [] && !IsSpace(sub[0]) && !IsSpace(sub[|sub| - 1])
    requires i <= j <= |s| && OccursAt(s, sub, m)
    requires forall k | 0 <= k < i :: IsSpace(s[k])
    requires forall k | j <= k < |s| :: IsSpace(s[k])
    ensures OccursAt(s[i..j], sub, m - i)
  {
    assert s[m] == sub[0];
    assert s[m + |sub| - 1] == sub[|sub| - 1];
    var inner, outer := s[i..j][m - i..m - i + |sub|], s[m..m + |sub|];
    assert forall x | 0 <= x < |sub| :: inner[x] == outer[x];
    assert inner == outer;
  }

  /** `sub in s.strip()` holds exactly when `sub in s` does, for any `sub`
      that neither starts nor ends with whitespace. */
  lemma StripKeepsOccurrences(s: string, sub: string)
    requires sub != [] && !IsSpace(sub[0]) && !IsSpace(sub[|sub| - 1])
    ensures Contains(Strip(s), sub) <==> Contains(s, sub)
  {
    var i, j := StripIsInfix(s);
    ContainsIffOccursAt(s[i..j], sub);
    ContainsIffOccursAt(s, sub);
    if Contains(s[i..j], sub) {
      var k :| OccursAt(s[i..j], sub, k);
      OccurrenceInStripped(s, sub, i, j, k);
    }
    if Contains(s, sub) {
      var m :| OccursAt(s, sub, m);
      OccurrenceSurvivesStrip(s, sub, i, j, m);
    }
  }
}
