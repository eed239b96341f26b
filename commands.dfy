/** The cascading policy of `src/dynamic_versioning/commands.py`: the option
    fields of the `egg_info` command, how configuration and environment fill
    them in, how they are validated, and `tagged_version`, which picks the
    version among the setuptools default, an explicit version, a bumped tag
    and a development version.

    Each mutator of the command object has a pure counterpart on an
    `Options` record; the class methods are proved to follow them, and the
    properties of the policy are proved about the pure functions. */
module Commands {
  import opened Outcomes
  import opened Text
  import opened Versions
  import opened GitDescribe

  /** The four fields the command adds: `new_version`, `current_version`,
      `version_bump` and `dev_version`. */
  datatype Options = Options(
    newVersion: Option<string>,
    currentVersion: Option<string>,
    versionBump: Option<VersionPart>,
    devVersion: bool)

  /** The fields as `initialize_options` leaves them. */
  const Defaults := Options(None, None, None, false)

  /** The fields after a step that may abort part-way, and whether it
      completed. */
  datatype Applied = Applied(options: Options, outcome: Outcome)

  /** Python's truthiness of a `str | None`: present and non-empty. */
  predicate IsSet(v: Option<string>) {
    v.Some? && v.value != []
  }

  // ---------------------------------------------------------------------------
  // Tokens
  // ---------------------------------------------------------------------------

  /** `VersionPart[token.upper()]`: the member named by the upper-cased token,
      if there is one. */
  function ReadBumpToken(token: string): (r: Option<VersionPart>)
    ensures r.Some? ==> NamesPart(token, r.value)
  {
    var name := Upper(token);
    assert Upper("major") == "MAJOR" && Upper("minor") == "MINOR";
    assert Upper("patch") == "PATCH" && Upper("update") == "UPDATE";
    UpperMatchesWord(token, "major");
    UpperMatchesWord(token, "minor");
    UpperMatchesWord(token, "patch");
    UpperMatchesWord(token, "update");
    if name == "MAJOR" then Some(Major)
    else if name == "MINOR" then Some(Minor)
    else if name == "PATCH" || name == "UPDATE" then Some(Patch)
    else None
  }

  /** `value.lower() in ("true", "t")`. */
  function ParseFlag(value: string): bool {
    var v := Lower(value);
    v == "true" || v == "t"
  }

  predicate IsLowerWord(w: string) {
    forall i | 0 <= i < |w| :: 'a' <= w[i] <= 'z'
  }

  /** Upper-casing `t` gives the upper-cased lower-case word `w` exactly when
      `t` and `w` agree up to case. */
  lemma UpperMatchesWord(t: string, w: string)
    requires IsLowerWord(w)
    ensures Upper(t) == Upper(w) <==> EqualsIgnoringCase(t, w)
  {
    if Upper(t) == Upper(w) {
      forall i | 0 <= i < |t| ensures LowerChar(t[i]) == LowerChar(w[i]) {
        assert UpperChar(t[i]) == Upper(t)[i] == Upper(w)[i] == UpperChar(w[i]);
      }
    }
    if EqualsIgnoringCase(t, w) {
      forall i | 0 <= i < |t| ensures Upper(t)[i] == Upper(w)[i] {
        assert LowerChar(t[i]) == LowerChar(w[i]);
      }
    }
  }

  /** Lower-casing `t` gives the lower-case word `w` exactly when `t` and
      `w` agree up to case. */
  lemma LowerMatchesWord(t: string, w: string)
    requires IsLowerWord(w)
    ensures Lower(t) == w <==> EqualsIgnoringCase(t, w)
  {
    if Lower(t) == w {
      forall i | 0 <= i < |t| ensures LowerChar(t[i]) == LowerChar(w[i]) {
        assert LowerChar(t[i]) == Lower(t)[i];
      }
    }
    if EqualsIgnoringCase(t, w) {
      forall i | 0 <= i < |t| ensures Lower(t)[i] == w[i] {
        assert LowerChar(t[i]) == LowerChar(w[i]);
      }
    }
  }

  /** The names a token may spell, in any case, for each part: `update` is a
      second name of the patch part. */
  predicate NamesPart(token: string, part: VersionPart) {
    match part
    case Major => EqualsIgnoringCase(token, "major")
    case Minor => EqualsIgnoringCase(token, "minor")
    case Patch => EqualsIgnoringCase(token, "patch") || EqualsIgnoringCase(token, "update")
  }

  /** A `version-bump` token is read case-insensitively as `major`, `minor`,
      `patch` or `update`, and every other token is refused. */
  lemma ReadBumpTokenReadsNames(token: string, part: VersionPart)
    ensures ReadBumpToken(token) == Some(part) <==> NamesPart(token, part)
    ensures ReadBumpToken(token).None? <==> forall p: VersionPart :: !NamesPart(token, p)
  {
    assert Upper("major") == "MAJOR";
    assert Upper("minor") == "MINOR";
    assert Upper("patch") == "PATCH";
    assert Upper("update") == "UPDATE";
    UpperMatchesWord(token, "major");
    UpperMatchesWord(token, "minor");
    UpperMatchesWord(token, "patch");
    UpperMatchesWord(token, "update");
    assert NamesPart(token, Major) == EqualsIgnoringCase(token, "major");
    assert NamesPart(token, Minor) == EqualsIgnoringCase(token, "minor");
    assert NamesPart(token, Patch) == (EqualsIgnoringCase(token, "patch") || EqualsIgnoringCase(token, "update"));
  }

  /** A `dev-version` value is true exactly when it spells `true` or `t` in
      any case. */
  lemma ParseFlagReadsTrue(value: string)
    ensures ParseFlag(value) <==> EqualsIgnoringCase(value, "true") || EqualsIgnoringCase(value, "t")
  {
    LowerMatchesWord(value, "true");
    LowerMatchesWord(value, "t");
  }

  // ---------------------------------------------------------------------------
  // The three field-setting steps
  // ---------------------------------------------------------------------------

  /** `_read_config`: every key present in the configuration sets its field,
      in the order new version, current version, bump, development flag; an
      unknown bump token aborts after the first two. */
  function FromConfig(o: Options, config: map<string, string>): Applied {
    var o1 := if "new-version" in config then o.(newVersion := Some(config["new-version"])) else o;
    var o2 := if "current-version" in config then o1.(currentVersion := Some(config["current-version"])) else o1;
    if "version-bump" in config && ReadBumpToken(config["version-bump"]).None? then
      Applied(o2, Fail(UnknownVersionPart(config["version-bump"])))
    else
      var o3 := if "version-bump" in config then o2.(versionBump := ReadBumpToken(config["version-bump"])) else o2;
      var o4 := if "dev-version" in config then o3.(devVersion := ParseFlag(config["dev-version"])) else o3;
      Applied(o4, Pass)
  }

  /** `os.environ.get(name, ...)` as a string, a missing variable reading as
      empty. */
  function EnvValue(env: map<string, string>, name: string): string {
    if name in env then env[name] else ""
  }

  /** `_read_environment`: each variable that is set to a non-empty value
      overrides its field, in the same order as the configuration; an unknown
      bump token aborts after the first two. */
  function FromEnvironment(o: Options, env: map<string, string>): Applied {
    var nv := EnvValue(env, "DV_NEW_VERSION");
    var cv := EnvValue(env, "DV_CURRENT_VERSION");
    var vb := EnvValue(env, "DV_VERSION_BUMP");
    var dv := EnvValue(env, "DV_DEV_VERSION");
    var o1 := if nv != [] then o.(newVersion := Some(nv)) else o;
    var o2 := if cv != [] then o1.(currentVersion := Some(cv)) else o1;
    if vb != [] && ReadBumpToken(vb).None? then
      Applied(o2, Fail(UnknownVersionPart(vb)))
    else
      var o3 := if vb != [] then o2.(versionBump := ReadBumpToken(vb)) else o2;
      var o4 := if dv != [] then o3.(devVersion := ParseFlag(dv)) else o3;
      Applied(o4, Pass)
  }

  /** The check `_validate_fields` applies to one version field: a set value
      that reads as 0.0.0 is dropped, one that does not parse aborts. */
  function ValidatedField(v: Option<string>): Result<Option<string>> {
    if IsSet(v) then
      match ValidateSemanticVersioning(v.value)
      case Err(e) => Err(e)
      case Ok(valid) => Ok(if valid then v else None)
    else Ok(v)
  }

  /** `_validate_fields`: the new version first, then the current version. */
  function FromValidation(o: Options): (a: Applied)
    ensures a.outcome.Pass? <==>
      (IsSet(o.newVersion) ==> ParseVersionParts(o.newVersion.value).Ok?) &&
      (IsSet(o.currentVersion) ==> ParseVersionParts(o.currentVersion.value).Ok?)
    ensures a.outcome.Pass? ==>
      a.options.newVersion == (if IsSet(o.newVersion) && ParseVersionParts(o.newVersion.value) == Ok(Zero) then None else o.newVersion)
    ensures a.outcome.Pass? ==>
      a.options.currentVersion == (if IsSet(o.currentVersion) && ParseVersionParts(o.currentVersion.value) == Ok(Zero) then None else o.currentVersion)
    ensures a.options.versionBump == o.versionBump && a.options.devVersion == o.devVersion
  {
    match ValidatedField(o.newVersion)
    case Err(e) => Applied(o, Fail(e))
    case Ok(nv) =>
      var o1 := o.(newVersion := nv);
      match ValidatedField(o.currentVersion)
      case Err(e) => Applied(o1, Fail(e))
      case Ok(cv) => Applied(o1.(currentVersion := cv), Pass)
  }

  /** Configuration, then environment, then validation, stopping at the first
      step that aborts. */
  function Prepared(o: Options, config: map<string, string>, env: map<string, string>): Applied {
    var a := FromConfig(o, config);
    if a.outcome.Fail? then a
    else
      var b := FromEnvironment(a.options, env);
      if b.outcome.Fail? then b
      else FromValidation(b.options)
  }

  /** An environment variable with a non-empty value overrides what the
      configuration set; an empty or missing one leaves the configured (or
      earlier) value in place. */
  lemma EnvironmentOverridesConfig(o: Options, config: map<string, string>, env: map<string, string>)
    requires FromConfig(o, config).outcome.Pass?
    requires FromEnvironment(FromConfig(o, config).options, env).outcome.Pass?
    ensures var r := FromEnvironment(FromConfig(o, config).options, env).options;
      && r.newVersion == (if EnvValue(env, "DV_NEW_VERSION") != [] then Some(EnvValue(env, "DV_NEW_VERSION"))
                          else if "new-version" in config then Some(config["new-version"]) else o.newVersion)
      && r.currentVersion == (if EnvValue(env, "DV_CURRENT_VERSION") != [] then Some(EnvValue(env, "DV_CURRENT_VERSION"))
                              else if "current-version" in config then Some(config["current-version"]) else o.currentVersion)
      && r.versionBump == (if EnvValue(env, "DV_VERSION_BUMP") != [] then ReadBumpToken(EnvValue(env, "DV_VERSION_BUMP"))
                           else if "version-bump" in config then ReadBumpToken(config["version-bump"]) else o.versionBump)
      && r.devVersion == (if EnvValue(env, "DV_DEV_VERSION") != [] then ParseFlag(EnvValue(env, "DV_DEV_VERSION"))
                          else if "dev-version" in config then ParseFlag(config["dev-version"]) else o.devVersion)
  {
  }

  /** Neither configuration nor environment can introduce an unknown bump:
      after a completed step the bump field is either what it was or a part
      some token named. */
  lemma StepsOnlyStoreNamedParts(o: Options, config: map<string, string>, env: map<string, string>)
    requires Prepared(o, config, env).outcome.Pass?
    ensures var r := Prepared(o, config, env).options;
      r.versionBump == o.versionBump ||
      ("version-bump" in config && r.versionBump.Some? && NamesPart(config["version-bump"], r.versionBump.value)) ||
      (r.versionBump.Some? && NamesPart(EnvValue(env, "DV_VERSION_BUMP"), r.versionBump.value))
  {
    var r := Prepared(o, config, env).options;
    if r.versionBump != o.versionBump {
      var c := FromConfig(o, config).options;
      if r.versionBump == c.versionBump {
        ReadBumpTokenReadsNames(config["version-bump"], r.versionBump.value);
      } else {
        ReadBumpTokenReadsNames(EnvValue(env, "DV_VERSION_BUMP"), r.versionBump.value);
      }
    }
  }

  // ---------------------------------------------------------------------------
  // The cascade
  // ---------------------------------------------------------------------------

  /** The decision `tagged_version` makes once its fields are final, given
      what git reports, the version in the distribution metadata, and the
      version setuptools would use on its own. */
  function Resolved(o: Options, git: GitOutcome, distVersion: string, defaultVersion: string): (r: Result<string>)
    ensures r.Err? ==> !IsSet(o.newVersion) && !(o.newVersion.None? && o.versionBump.None? && !o.devVersion)
    ensures r.Err? ==> GetVersionFromGit(git, o.currentVersion).Err? ||
                       (o.versionBump.Some? && !o.devVersion && r.error == NotSemanticVersion(distVersion))
  {
    if o.newVersion.None? && o.versionBump.None? && !o.devVersion then Ok(defaultVersion)
    else if IsSet(o.newVersion) then Ok(o.newVersion.value)
    else
      match GetVersionFromGit(git, o.currentVersion)
      case Err(e) => Err(e)
      case Ok(tag) => FromTag(o, tag, distVersion)
  }

  /** The part of the cascade after git has reported `tag`: a release bump
      compared against the distribution version, or a development version. */
  function FromTag(o: Options, tag: Version, distVersion: string): (r: Result<string>)
    ensures r.Err? <==> o.versionBump.Some? && !o.devVersion && ParseVersionParts(distVersion).Err?
    ensures r.Err? ==> r.error == NotSemanticVersion(distVersion)
  {
    if o.versionBump.Some? && !o.devVersion then
      match ParseVersionParts(distVersion)
      case Err(e) => Err(e)
      case Ok(st) =>
        var bumped := Bumped(tag.release, o.versionBump.value);
        if Precedes(bumped, st) then Ok(ReleaseString(st)) else Ok(ReleaseString(bumped))
    else
      Ok(DevString(Version(Bumped(tag.release, o.versionBump.GetOr(Major)), tag.commits)))
  }

  /** `tagged_version` as a whole: prepare the fields, then decide. */
  function TaggedVersionOf(o: Options, config: map<string, string>, env: map<string, string>,
                           git: GitOutcome, distVersion: string, defaultVersion: string): Result<string> {
    var a := Prepared(o, config, env);
    if a.outcome.Fail? then Err(a.outcome.error) else Resolved(a.options, git, distVersion, defaultVersion)
  }

  /** A configured `version-bump` that names no part aborts the whole
      command with that token, whatever the environment and git hold. */
  lemma UnknownConfiguredBumpAborts(o: Options, config: map<string, string>, env: map<string, string>,
                                    git: GitOutcome, distVersion: string, defaultVersion: string)
    requires "version-bump" in config && forall p: VersionPart :: !NamesPart(config["version-bump"], p)
    ensures TaggedVersionOf(o, config, env, git, distVersion, defaultVersion) == Err(UnknownVersionPart(config["version-bump"]))
  {
    ReadBumpTokenReadsNames(config["version-bump"], Major);
  }

  /** Once the configuration is read, a non-empty `DV_VERSION_BUMP` that
      names no part aborts the whole command with that value. */
  lemma UnknownEnvironmentBumpAborts(o: Options, config: map<string, string>, env: map<string, string>,
                                     git: GitOutcome, distVersion: string, defaultVersion: string)
    requires FromConfig(o, config).outcome.Pass?
    requires EnvValue(env, "DV_VERSION_BUMP") != [] && forall p: VersionPart :: !NamesPart(EnvValue(env, "DV_VERSION_BUMP"), p)
    ensures TaggedVersionOf(o, config, env, git, distVersion, defaultVersion) == Err(UnknownVersionPart(EnvValue(env, "DV_VERSION_BUMP")))
  {
    ReadBumpTokenReadsNames(EnvValue(env, "DV_VERSION_BUMP"), Major);
  }

  /** Disabled: with no explicit version, no bump and no development flag
      the setuptools default is returned, whatever git would say. */
  lemma DisabledKeepsDefault(o: Options, git: GitOutcome, distVersion: string, defaultVersion: string)
    requires o.newVersion.None? && o.versionBump.None? && !o.devVersion
    ensures Resolved(o, git, distVersion, defaultVersion) == Ok(defaultVersion)
  {
  }

  /** Explicit: a non-empty new version is returned as it is, over any bump
      or development flag, whatever git would say. */
  lemma ExplicitVersionWins(o: Options, git: GitOutcome, distVersion: string, defaultVersion: string)
    requires IsSet(o.newVersion)
    ensures Resolved(o, git, distVersion, defaultVersion) == Ok(o.newVersion.value)
  {
  }

  /** Once git is consulted, a failure there aborts the whole resolution with
      the same error. */
  lemma GitFailureAborts(o: Options, git: GitOutcome, distVersion: string, defaultVersion: string)
    requires !(o.newVersion.None? && o.versionBump.None? && !o.devVersion) && !IsSet(o.newVersion)
    requires GetVersionFromGit(git, o.currentVersion).Err?
    ensures Resolved(o, git, distVersion, defaultVersion) == Err(GetVersionFromGit(git, o.currentVersion).error)
  {
  }

  /** Once the fields ask for git and git reports `tag`, the rest of the
      cascade depends only on the tag and the distribution version. */
  lemma ResolvedFromTag(o: Options, git: GitOutcome, distVersion: string, defaultVersion: string, tag: Version)
    requires !(o.newVersion.None? && o.versionBump.None? && !o.devVersion) && !IsSet(o.newVersion)
    requires GetVersionFromGit(git, o.currentVersion) == Ok(tag)
    ensures Resolved(o, git, distVersion, defaultVersion) == FromTag(o, tag, distVersion)
  {
  }

  /** The release a bump settles on: the larger of the bumped tag and the
      distribution version, the bumped tag on a tie. */
  lemma ChosenReleaseIsTheLarger(bumped: Triple, dist: Triple)
    ensures var chosen := if Precedes(bumped, dist) then dist else bumped;
      && (chosen == bumped || chosen == dist)
      && !Precedes(chosen, bumped) && !Precedes(chosen, dist)
      && (chosen == dist ==> chosen == bumped || Precedes(bumped, dist))
  {
    PrecedesIsStrictTotalOrder(bumped, dist, dist);
    PrecedesIsStrictTotalOrder(bumped, bumped, bumped);
    PrecedesIsStrictTotalOrder(dist, dist, dist);
  }

  /** Bump: the result is the larger of the bumped tag and the distribution
      version, the bumped tag on a tie; it reads back as a plain release. */
  lemma BumpTakesTheLarger(o: Options, git: GitOutcome, distVersion: string, defaultVersion: string,
                           tag: Version, dist: Triple)
    requires !IsSet(o.newVersion) && o.versionBump.Some? && !o.devVersion
    requires GetVersionFromGit(git, o.currentVersion) == Ok(tag)
    requires ParseVersionParts(distVersion) == Ok(dist)
    ensures var r := Resolved(o, git, distVersion, defaultVersion);
      var bumped := Bumped(tag.release, o.versionBump.value);
      && r.Ok? && ParseVersionParts(r.value).Ok?
      && var chosen := ParseVersionParts(r.value).value;
      && r.value == ReleaseString(chosen)
      && (chosen == bumped || chosen == dist)
      && !Precedes(chosen, bumped) && !Precedes(chosen, dist)
      && (chosen == dist ==> chosen == bumped || Precedes(bumped, dist))
  {
    ResolvedFromTag(o, git, distVersion, defaultVersion, tag);
    var bumped := Bumped(tag.release, o.versionBump.value);
    var chosen := if Precedes(bumped, dist) then dist else bumped;
    assert FromTag(o, tag, distVersion) == Ok(ReleaseString(chosen));
    ReleaseStringRoundTrip(chosen);
    ChosenReleaseIsTheLarger(bumped, dist);
  }

  /** Bump: a distribution version that is not `X.Y.Z` aborts with that
      version, once git has reported a tag. */
  lemma UnparseableDistributionAborts(o: Options, git: GitOutcome, distVersion: string, defaultVersion: string)
    requires !IsSet(o.newVersion) && o.versionBump.Some? && !o.devVersion
    requires GetVersionFromGit(git, o.currentVersion).Ok?
    requires ParseVersionParts(distVersion).Err?
    ensures Resolved(o, git, distVersion, defaultVersion) == Err(NotSemanticVersion(distVersion))
  {
    ResolvedFromTag(o, git, distVersion, defaultVersion, GetVersionFromGit(git, o.currentVersion).value);
  }

  /** A release bump is rendered as a plain release string. */
  lemma FromTagBumpIsRelease(o: Options, tag: Version, distVersion: string)
    requires o.versionBump.Some? && !o.devVersion
    requires FromTag(o, tag, distVersion).Ok?
    ensures IsDottedDigits(FromTag(o, tag, distVersion).value)
  {
    var dist := ParseVersionParts(distVersion).value;
    var bumped := Bumped(tag.release, o.versionBump.value);
    var chosen := if Precedes(bumped, dist) then dist else bumped;
    assert FromTag(o, tag, distVersion) == Ok(ReleaseString(chosen));
  }

  /** A string of digits and dots holds no `.dev`. */
  lemma DottedDigitsHaveNoDev(s: string)
    requires IsDottedDigits(s)
    ensures !Contains(s, ".dev")
  {
    var dev := ".dev";
    assert dev[1] == 'd';
    NoOccurrenceWithoutChar(s, dev, 1);
  }

  /** Bump: the result never carries a `.dev` segment. */
  lemma BumpIsNeverDev(o: Options, git: GitOutcome, distVersion: string, defaultVersion: string)
    requires !IsSet(o.newVersion) && o.versionBump.Some? && !o.devVersion
    requires Resolved(o, git, distVersion, defaultVersion).Ok?
    ensures !Contains(Resolved(o, git, distVersion, defaultVersion).value, ".dev")
  {
    var tag := GetVersionFromGit(git, o.currentVersion).value;
    ResolvedFromTag(o, git, distVersion, defaultVersion, tag);
    FromTagBumpIsRelease(o, tag, distVersion);
    DottedDigitsHaveNoDev(FromTag(o, tag, distVersion).value);
  }

  /** Development: the tag is bumped by the requested part, or the major part
      when none is requested, and rendered with `.dev` and the commit count;
      the flag takes precedence over a requested release bump. */
  lemma DevelopmentVersion(o: Options, git: GitOutcome, distVersion: string, defaultVersion: string, tag: Version)
    requires !IsSet(o.newVersion) && o.devVersion
    requires GetVersionFromGit(git, o.currentVersion) == Ok(tag)
    ensures var r := Resolved(o, git, distVersion, defaultVersion);
      && r == Ok(ReleaseString(Bumped(tag.release, o.versionBump.GetOr(Major))) + ".dev" + NatToString(tag.commits))
      && ParseVersionParts(r.value).Err?
  {
    ResolvedFromTag(o, git, distVersion, defaultVersion, tag);
    var dev := Version(Bumped(tag.release, o.versionBump.GetOr(Major)), tag.commits);
    assert FromTag(o, tag, distVersion) == Ok(DevString(dev));
    DevStringIsNotRelease(dev);
  }

  /** An empty `new-version` is not `None`, so it does not leave the command
      disabled, yet it is not a usable explicit version either: with no bump
      and no development flag the result is a development version one major
      above the tag. */
  lemma EmptyNewVersionGivesDevVersion(o: Options, git: GitOutcome, distVersion: string, defaultVersion: string, tag: Version)
    requires o.newVersion == Some("") && o.versionBump.None? && !o.devVersion
    requires GetVersionFromGit(git, o.currentVersion) == Ok(tag)
    ensures Resolved(o, git, distVersion, defaultVersion) == Ok(DevString(Version(Bumped(tag.release, Major), tag.commits)))
  {
  }

  // ---------------------------------------------------------------------------
  // The command object
  // ---------------------------------------------------------------------------

  /** `DynamicVersioningEggInfo`: the `egg_info` command with the four
      option fields and the cascading `tagged_version`. */
  class DynamicVersioningEggInfo {
    var newVersion: Option<string>
    var currentVersion: Option<string>
    var versionBump: Option<VersionPart>
    var devVersion: bool

    function Fields(): Options
      reads this
    {
      Options(newVersion, currentVersion, versionBump, devVersion)
    }

    /** `initialize_options`: no explicit, current or bump value and no
        development flag. */
    constructor InitializeOptions()
      ensures Fields() == Defaults
    {
      newVersion := None;
      currentVersion := None;
      versionBump := None;
      devVersion := false;
    }

    /** `_read_config` on the map the configuration loader returned. */
    method ReadConfig(config: map<string, string>) returns (outcome: Outcome)
      modifies this
      ensures Applied(Fields(), outcome) == FromConfig(old(Fields()), config)
    {
      if "new-version" in config {
        newVersion := Some(config["new-version"]);
      }
      if "current-version" in config {
        currentVersion := Some(config["current-version"]);
      }
      if "version-bump" in config {
        var part := ReadBumpToken(config["version-bump"]);
        if part.None? {
          return Fail(UnknownVersionPart(config["version-bump"]));
        }
        versionBump := part;
      }
      if "dev-version" in config {
        devVersion := ParseFlag(config["dev-version"]);
      }
      return Pass;
    }

    /** `_read_environment` on the process environment. */
    method ReadEnvironment(env: map<string, string>) returns (outcome: Outcome)
      modifies this
      ensures Applied(Fields(), outcome) == FromEnvironment(old(Fields()), env)
    {
      var nv := EnvValue(env, "DV_NEW_VERSION");
      if nv != [] {
        newVersion := Some(nv);
      }
      var cv := EnvValue(env, "DV_CURRENT_VERSION");
      if cv != [] {
        currentVersion := Some(cv);
      }
      var vb := EnvValue(env, "DV_VERSION_BUMP");
      if vb != [] {
        var part := ReadBumpToken(vb);
        if part.None? {
          return Fail(UnknownVersionPart(vb));
        }
        versionBump := part;
      }
      var dv := EnvValue(env, "DV_DEV_VERSION");
      if dv != [] {
        devVersion := ParseFlag(dv);
      }
      return Pass;
    }

    /** `_validate_fields`. */
    method ValidateFields() returns (outcome: Outcome)
      modifies this
      ensures Applied(Fields(), outcome) == FromValidation(old(Fields()))
    {
      if IsSet(newVersion) {
        var valid := ValidateSemanticVersioning(newVersion.value);
        if valid.Err? {
          return Fail(valid.error);
        }
        if !valid.value {
          newVersion := None;
        }
      }
      assert ValidatedField(old(newVersion)) == Ok(newVersion);
      if IsSet(currentVersion) {
        var valid := ValidateSemanticVersioning(currentVersion.value);
        if valid.Err? {
          return Fail(valid.error);
        }
        if !valid.value {
          currentVersion := None;
        }
      }
      return Pass;
    }

    /** `tagged_version`: reads and validates the fields, then runs the
        cascade, bumping a fresh version object in place. */
    method TaggedVersion(config: map<string, string>, env: map<string, string>,
                         git: GitOutcome, distVersion: string, defaultVersion: string)
      returns (r: Result<string>)
      modifies this
      ensures Fields() == Prepared(old(Fields()), config, env).options
      ensures r == TaggedVersionOf(old(Fields()), config, env, git, distVersion, defaultVersion)
    {
      ghost var initial := Fields();
      var outcome := ReadConfig(config);
      if outcome.Fail? {
        return Err(outcome.error);
      }
      ghost var configured := Fields();
      outcome := ReadEnvironment(env);
      if outcome.Fail? {
        return Err(outcome.error);
      }
      ghost var overridden := Fields();
      outcome := ValidateFields();
      if outcome.Fail? {
        return Err(outcome.error);
      }
      assert FromValidation(overridden) == Applied(Fields(), Pass);
      assert Prepared(initial, config, env) == Applied(Fields(), Pass);
      r := Resolve(git, distVersion, defaultVersion);
    }

    /** The cascade of `tagged_version` once its fields are final: the
        default, the explicit version, or a version object built from the
        git tag and bumped in place. */
    method Resolve(git: GitOutcome, distVersion: string, defaultVersion: string) returns (r: Result<string>)
      ensures r == Resolved(Fields(), git, distVersion, defaultVersion)
    {
      if newVersion.None? && versionBump.None? && !devVersion {
        return Ok(defaultVersion);
      }
      if IsSet(newVersion) {
        return Ok(newVersion.value);
      }

      var fromGit := GetVersionFromGit(git, currentVersion);
      if fromGit.Err? {
        return Err(fromGit.error);
      }
      var tag := fromGit.value;
      assert Resolved(Fields(), git, distVersion, defaultVersion) == FromTag(Fields(), tag, distVersion);
      var dynamicVersion := new DynamicVersion(tag.release.major, tag.release.minor, tag.release.patch, tag.commits);

      if versionBump.Some? && !devVersion {
        var stVersion := DynamicVersion.FromVersionString(distVersion);
        if stVersion.Err? {
          return Err(stVersion.error);
        }
        dynamicVersion.Bump(versionBump.value);
        if stVersion.value.GreaterThan(dynamicVersion) {
          return Ok(stVersion.value.VersionString());
        }
        return Ok(dynamicVersion.VersionString());
      }

      dynamicVersion.Bump(versionBump.GetOr(Major));
      return Ok(dynamicVersion.DevVersionString());
    }
  }
}
