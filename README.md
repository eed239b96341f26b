# dynamic-versioning, modelled in Dafny

This project models the version-resolution core of the `dynamic-versioning`
setuptools plugin. That plugin extends setuptools' `egg_info` command so that
a package's version comes from a cascading policy:

1. Nothing configured: the version setuptools found on its own.
2. An explicit `new-version`.
3. The most recent annotated git tag, bumped by `version-bump` and compared
   with the version in the distribution metadata. The larger wins.
4. A development version `a.b.c.devN`: the bumped tag (a major bump by
   default) followed by the number of commits since the tag.

The model is split into modules:

- **`Outcomes`** (`outcomes.dfy`): `Option`, `Result`, `Outcome`, and the
  `Error` datatype. `Error` stands for what escapes to the caller: each
  `SystemExit`, the `KeyError` of an unknown bump token, and the failure on
  the unbound `git_desc` when describe fails with no fallback
  (`DescribeFailedWithoutFallback`). The `NoAnnotatedTagError` and
  `GitDescribeError` exceptions are caught inside `get_version_from_git`
  and have no `Error` of their own.
- **`Text`** (`text.dfy`): character-level helpers. These are digit runs and
  their values (`\d+`, `int(...)`), decimal rendering (`f"{n}"`), ASCII case
  mapping, `str.strip`, and substring search.
- **`Versions`** (`versions.dfy`), the version value of
  `src/dynamic_versioning/utils.py`:
  - the strict `^[v|V]?(\d+)\.(\d+)\.(\d+)$` parser and the "not 0.0.0"
    validation;
  - `VersionPart`, the lexicographic order, bumping and rendering;
  - the `DynamicVersion` class, whose `Bump` updates its fields in place.
- **`GitDescribe`** (`git_describe.dfy`): the `git describe --long` line
  grammar and `get_version_from_git`. The outcomes of `git fetch` and
  `git describe` are inputs to it.
- **`Commands`** (`commands.dfy`), the `DynamicVersioningEggInfo` command of
  `src/dynamic_versioning/commands.py`:
  - its four option fields as a class;
  - the methods `InitializeOptions`, `ReadConfig`, `ReadEnvironment`,
    `ValidateFields` and `TaggedVersion`, each proved to follow a pure
    function on an `Options` record;
  - the policy's properties, proved about those functions.
- **`WorkedCases`** (`worked_cases.dfy`): the cases the plugin's tests
  exercise, worked through the model.

Some behaviours of the code are kept on purpose:

- The character class `[v|V]` also accepts a literal `|` as the tag prefix.
- The abbreviated hash in a describe line is 0–7 word characters.
- Two-part versions and two-part tags are rejected, both in the metadata and
  in the fallback `current-version`.
- A `version-bump` token that names no part aborts. Fields the step had
  already set stay set.
- An empty `new-version` does not leave the command disabled, because it is
  not `None`. It is not used as an explicit version either, because it is
  empty. With no `version-bump` and no development flag the result is then a
  development version one major above the tag. With a bump it is the
  release-bump result (the larger of the bumped tag and the distribution
  version); with the flag it is the development version, bumped by the
  requested part or by major when none is requested.

## Model

| member | source | states |
|---|---|---|
| Versions.ParseVersionParts | src/dynamic_versioning/utils.py:34-47 | A string the pattern rejects aborts with an error carrying that string |
| Versions.ParseVersionPartsAccepts | src/dynamic_versioning/utils.py:21 | An optional prefix (`v`, `V` or a vertical bar) followed by three dot-separated digit runs parses to the runs' integer values |
| Versions.ParseVersionPartsAcceptsBare | src/dynamic_versioning/utils.py:21 | Three dot-separated digit runs with no prefix parse to their integer values |
| Versions.ParseVersionPartsOnlyAccepts | src/dynamic_versioning/utils.py:21 | Every string that parses has that layout, and the result is the values of its runs |
| Versions.TwoPartVersionRejected | src/dynamic_versioning/utils.py:21 | A two-part version aborts |
| Versions.SuffixedVersionRejected | src/dynamic_versioning/utils.py:21 | A version followed by anything that is not a digit aborts |
| Versions.ValidateSemanticVersioning | src/dynamic_versioning/utils.py:25-31 | Succeeds exactly when the string parses; returns false exactly when it reads as 0.0.0; an unparseable string aborts instead of returning false |
| Versions.LexLessIrreflexive | src/dynamic_versioning/utils.py:118-129 | No part sequence is lexicographically below itself |
| Versions.LexLessTransitive | src/dynamic_versioning/utils.py:118-129 | The lexicographic order on equal-length part sequences is transitive |
| Versions.LexLessTotal | src/dynamic_versioning/utils.py:118-129 | Two equal-length part sequences are equal or one is below the other |
| Versions.PrecedesByParts | src/dynamic_versioning/utils.py:118-129 | The order on triples is: major smaller, or major equal and minor smaller, or both equal and patch smaller |
| Versions.PrecedesIsStrictTotalOrder | src/dynamic_versioning/utils.py:118-140 | The order on triples is irreflexive, asymmetric, transitive and total |
| Versions.Bumped | src/dynamic_versioning/utils.py:87-101 | A bumped triple is strictly above the original |
| Versions.BumpedIsLeastAtItsLevel | src/dynamic_versioning/utils.py:87-101 | No triple that raises the bumped part is below the bump, so lower parts are reset to zero |
| Versions.ReleaseString | src/dynamic_versioning/utils.py:104-108 | The rendering consists only of digits and dots |
| Versions.ReleaseStringRoundTrip | src/dynamic_versioning/utils.py:104-108 | A rendered release parses back to the same triple |
| Versions.DevString | src/dynamic_versioning/utils.py:111-115 | The development rendering strictly extends the release rendering |
| Versions.DevStringIsNotRelease | src/dynamic_versioning/utils.py:111-115 | A development rendering never parses as a plain release |
| Versions.DynamicVersion.constructor | src/dynamic_versioning/utils.py:68-75 | The object holds exactly the given parts and commit count |
| Versions.DynamicVersion.FromVersionString | src/dynamic_versioning/utils.py:78-84 | Fails exactly when the string does not parse; otherwise gives a fresh object with the parsed triple and zero commits |
| Versions.DynamicVersion.Bump | src/dynamic_versioning/utils.py:87-101 | Major gives (a+1,0,0), minor (a,b+1,0), patch or update (a,b,c+1); the commit count is unchanged; the new version is strictly above the old |
| Versions.DynamicVersion.VersionString | src/dynamic_versioning/utils.py:104-108 | The rendering parses back to the object's triple, so reading it again gives an equal version |
| Versions.DynamicVersion.DevVersionString | src/dynamic_versioning/utils.py:111-115 | The release rendering followed by `.dev` and the commit count; it never parses as a release |
| Versions.DynamicVersion.LessThan | src/dynamic_versioning/utils.py:118-129 | True exactly when this triple precedes the other lexicographically |
| Versions.DynamicVersion.Equals | src/dynamic_versioning/utils.py:132-140 | True exactly when the triples agree; the commit count is ignored |
| Versions.DynamicVersion.GreaterThan | src/dynamic_versioning/utils.py:63 | The order's "not less and not equal" is exactly "the other is less than this" |
| Versions.DynamicVersionTrichotomy | src/dynamic_versioning/utils.py:118-140 | For any two versions exactly one of less, equal and greater holds |
| Text.NatToString | src/dynamic_versioning/utils.py:108 | The decimal rendering is a digit run with the number's value and no leading zero |
| Text.ContainsIffOccursAt | src/dynamic_versioning/utils.py:187 | Substring search finds exactly the occurrences at some position |
| GitDescribe.ParseDescribe | src/dynamic_versioning/utils.py:222-235 | A line the pattern rejects aborts with an error carrying that line |
| GitDescribe.ParseDescribeAccepts | src/dynamic_versioning/utils.py:22 | An optional prefix, `a.b.c-n-g` and 0–7 word characters parses to (a,b,c) with n commits |
| GitDescribe.ParseDescribeOnlyAccepts | src/dynamic_versioning/utils.py:22 | Every line that parses has that layout, and the result is the values of its runs |
| GitDescribe.LongHashRejected | src/dynamic_versioning/utils.py:22 | A hash longer than 7 characters aborts |
| GitDescribe.TwoPartTagRejected | src/dynamic_versioning/utils.py:22 | A two-part tag aborts |
| GitDescribe.GetVersionFromGit | src/dynamic_versioning/utils.py:197-244 | A fetch error aborts before describe; a version read from git is never 0.0.0; a version from a failed describe has no commits; without a fallback a failed describe gives 0.0.0 or aborts |
| GitDescribe.NoTagsMeansZero | src/dynamic_versioning/utils.py:186-213 | A describe error containing the no-annotated-tag text gives 0.0.0 with no commits |
| GitDescribe.DescribeFailureUsesFallback | src/dynamic_versioning/utils.py:214-220 | Any other describe error gives the strict parse of the fallback with no commits, or aborts when that does not parse or there is no fallback |
| GitDescribe.DescribedTag | src/dynamic_versioning/utils.py:222-244 | A well-formed describe line gives its tag and commit count, and a 0.0.0 tag aborts |
| GitDescribe.UnparseableDescribeAborts | src/dynamic_versioning/utils.py:222-235 | A describe that succeeds with a stripped line the pattern refuses aborts with that line instead of giving a version |
| GitDescribe.DescribedVersionIsTheLine | src/dynamic_versioning/utils.py:222-244 | When describe succeeds, a version is returned only for a line with the describe layout, and it is that line's tag and commit count |
| GitDescribe.StripKeepsOccurrences | src/dynamic_versioning/utils.py:187 | Stripping the describe error does not change whether the no-annotated-tag text occurs in it |
| Commands.ReadBumpToken | src/dynamic_versioning/commands.py:35 | A token is read as a part only when it spells one of that part's names in some case |
| Commands.ReadBumpTokenReadsNames | src/dynamic_versioning/commands.py:35 | A bump token names a part exactly when it spells `major`, `minor`, `patch` or `update` in any case, with `update` the patch part; every other token is refused |
| Commands.ParseFlagReadsTrue | src/dynamic_versioning/commands.py:37 | The development flag is true exactly when its value spells `true` or `t` in any case |
| Commands.FromValidation | src/dynamic_versioning/commands.py:55-67 | Completes exactly when every set version field parses; a field reading as 0.0.0 is cleared, other values and unset or empty fields are kept; bump and flag are untouched |
| Commands.EnvironmentOverridesConfig | src/dynamic_versioning/commands.py:25-52 | Each field ends as the non-empty environment value if there is one, else the configured value, else its earlier value |
| Commands.StepsOnlyStoreNamedParts | src/dynamic_versioning/commands.py:25-52 | After preparation the bump is unchanged or is the part named by the configured or environment token |
| Commands.UnknownConfiguredBumpAborts | src/dynamic_versioning/commands.py:34-35 | A configured bump token that names no part aborts the command with that token, whatever the environment and git hold |
| Commands.UnknownEnvironmentBumpAborts | src/dynamic_versioning/commands.py:49-50 | After the configuration is read, a non-empty bump variable that names no part aborts the command with that value |
| Commands.Resolved | src/dynamic_versioning/commands.py:113-162 | The cascade aborts only once git is consulted (no explicit version, not disabled), and then only on a git failure or, on a release bump, with the distribution version's parse error |
| Commands.FromTag | src/dynamic_versioning/commands.py:131-162 | After git reports a tag, the only abort is a release bump whose distribution version does not parse, with that version's error |
| Commands.DisabledKeepsDefault | src/dynamic_versioning/commands.py:113-116 | With no new version, no bump and no development flag, the setuptools default is returned whatever git reports |
| Commands.ExplicitVersionWins | src/dynamic_versioning/commands.py:118-126 | A non-empty new version is returned over bump and development flag, whatever git reports |
| Commands.GitFailureAborts | src/dynamic_versioning/commands.py:128-129 | Once git is consulted, its failure aborts with the same error |
| Commands.ResolvedFromTag | src/dynamic_versioning/commands.py:128-162 | Once git reports a tag, the rest depends only on the tag and the distribution version |
| Commands.ChosenReleaseIsTheLarger | src/dynamic_versioning/commands.py:141-151 | The chosen release is one of the two, is not below either, and is the distribution version only when that is strictly above the bump |
| Commands.BumpTakesTheLarger | src/dynamic_versioning/commands.py:131-151 | A release bump returns exactly the release string of the larger of the bumped tag and the distribution version, the bumped tag on a tie |
| Commands.UnparseableDistributionAborts | src/dynamic_versioning/commands.py:132-136 | On a release bump, a distribution version that is not three dot-separated digit runs aborts with that version |
| Commands.FromTagBumpIsRelease | src/dynamic_versioning/commands.py:143-151 | A release bump is rendered with digits and dots only |
| Commands.DottedDigitsHaveNoDev | src/dynamic_versioning/commands.py:147-151 | A string of digits and dots never contains `.dev` |
| Commands.BumpIsNeverDev | src/dynamic_versioning/commands.py:131-151 | A release bump never contains `.dev` |
| Commands.DevelopmentVersion | src/dynamic_versioning/commands.py:153-162 | With the flag set, the tag is bumped by the requested part or major, then `.dev` and the commit count are appended; the flag wins over a release bump and the result is never a plain release |
| Commands.EmptyNewVersionGivesDevVersion | src/dynamic_versioning/commands.py:113-155 | An empty new version with no bump and no flag gives the development version one major above the tag |
| WorkedCases.FirstDistributionVersionParses | tests/dynamic_versioning/test_commands.py:153-158 | The distribution version 0.0.1 reads as (0,0,1) |
| WorkedCases.SecondDistributionVersionParses | tests/dynamic_versioning/test_commands.py:153-158 | The distribution version 1.3.0 reads as (1,3,0) |
| WorkedCases.PatchBumpScenario | tests/dynamic_versioning/test_commands.py:153-158 | 1.2.3 bumped by patch against 0.0.1 gives 1.2.4 |
| WorkedCases.MinorBumpScenario | tests/dynamic_versioning/test_commands.py:153-158 | 1.2.3 bumped by minor against 0.0.1 gives 1.3.0 |
| WorkedCases.MajorBumpScenario | tests/dynamic_versioning/test_commands.py:153-158 | 1.2.3 bumped by major against 0.0.1 gives 2.0.0 |
| WorkedCases.OvertakenBumpScenario | tests/dynamic_versioning/test_commands.py:153-158 | 1.2.3 bumped by patch against 1.3.0 gives 1.3.0 |
| WorkedCases.DefaultDevScenario | tests/dynamic_versioning/test_commands.py:177-183 | 1.2.3 with 20 commits and no bump gives 2.0.0.dev20 |
| WorkedCases.PatchDevScenario | tests/dynamic_versioning/test_commands.py:177-183 | 1.2.3 with 20 commits and a patch bump gives 1.2.4.dev20 |
| WorkedCases.MinorDevScenario | tests/dynamic_versioning/test_commands.py:177-183 | 1.2.3 with 20 commits and a minor bump gives 1.3.0.dev20 |
| WorkedCases.ReadingScenarios | tests/dynamic_versioning/test_commands.py:44-76 | The configuration and environment of the reading tests give the fields those tests expect |
| Commands.DynamicVersioningEggInfo.InitializeOptions | src/dynamic_versioning/commands.py:70-80 | No new, current or bump value and no development flag |
| Commands.DynamicVersioningEggInfo.ReadConfig | src/dynamic_versioning/commands.py:25-37 | The new fields and the outcome are those of the configuration step on the old fields |
| Commands.DynamicVersioningEggInfo.ReadEnvironment | src/dynamic_versioning/commands.py:40-52 | The new fields and the outcome are those of the environment step on the old fields |
| Commands.DynamicVersioningEggInfo.ValidateFields | src/dynamic_versioning/commands.py:55-67 | The new fields and the outcome are those of validation on the old fields |
| Commands.DynamicVersioningEggInfo.TaggedVersion | src/dynamic_versioning/commands.py:83-162 | Returns the cascade's decision on the prepared fields, or the first preparation error, and leaves the fields as preparation made them |
| Commands.DynamicVersioningEggInfo.Resolve | src/dynamic_versioning/commands.py:113-162 | Building a version object from the tag, bumping it in place and comparing it with the distribution version gives the cascade's decision |

## Left out

- Running git: `_git_fetch` and the subprocess part of `_git_describe`
  (src/dynamic_versioning/utils.py:143-194), and the working directory. Their
  outputs (fetch error text, describe output and describe error text) are the
  fields of `GitOutcome`.
- Configuration files: `src/dynamic_versioning/configuration.py` is not part of
  this model. The configuration arrives as a map from key to string value. A
  value of another type (a TOML boolean, say) is not modelled.
- The process environment is a map from name to value.
- setuptools: the default version (`super().tagged_version()`) and the
  distribution version are inputs. `_maybe_tag` and `best_effort_version` are
  taken as the identity.
- Logging is left out. Process exits and exceptions become `Err` results.
- The unbound `git_desc` after a non-sentinel describe error with no fallback
  (src/dynamic_versioning/utils.py:214-222) is the error
  `DescribeFailedWithoutFallback`.
- Unicode: `\d`, `\w`, `str.upper`, `str.lower` and `str.strip` are modelled
  on ASCII only. A `$` matching before a trailing newline is not modelled.
- Python integers become `nat`. Digit runs cannot denote negative numbers, and
  bumps only add.
- The test of `_validate_fields` (tests/dynamic_versioning/test_commands.py:79-91)
  replaces the validation with one that always fails. The model keeps the real
  validation, under which that test's value aborts.
- `tests/dynamic_versioning/test_utils.py` targets functions that
  `src/dynamic_versioning/utils.py` no longer has. Its expectation that
  two-part tags parse contradicts the pattern at
  src/dynamic_versioning/utils.py:22, so no property is drawn from it.
