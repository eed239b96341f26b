/** The cases the plugin's own tests exercise, worked through the model: a
    tag 1.2.3 twenty commits back, bumped against two distribution versions
    or turned into development versions, and the reading of a configuration
    and an environment. */
module WorkedCases {
  import opened Outcomes
  import opened Text
  import opened Versions
  import opened Commands

  lemma SmallNumerals()
    ensures NatToString(0) == "0" && NatToString(1) == "1" && NatToString(2) == "2"
    ensures NatToString(3) == "3" && NatToString(4) == "4" && NatToString(20) == "20"
  {
    assert NatToString(20) == NatToString(2) + [DigitChar(0)];
  }

  /** The rendering of the releases the worked cases arrive at. */
  lemma SmallReleaseStrings()
    ensures ReleaseString(Triple(1, 2, 4)) == "1.2.4"
    ensures ReleaseString(Triple(1, 3, 0)) == "1.3.0"
    ensures ReleaseString(Triple(2, 0, 0)) == "2.0.0"
  {
    SmallNumerals();
  }

  /** The distribution versions the worked cases compare against. */
  lemma FirstDistributionVersionParses()
    ensures ParseVersionParts("0.0.1") == Ok(Triple(0, 0, 1))
  {
    ParseVersionPartsAcceptsBare("0", "0", "1");
    assert "0" + "." + "0" + "." + "1" == "0.0.1";
    assert Value("0") == 0 && Value("1") == 1;
  }

  lemma SecondDistributionVersionParses()
    ensures ParseVersionParts("1.3.0") == Ok(Triple(1, 3, 0))
  {
    ParseVersionPartsAcceptsBare("1", "3", "0");
    assert "1" + "." + "3" + "." + "0" == "1.3.0";
    assert Value("0") == 0 && Value("1") == 1 && Value("3") == 3;
  }

  /** The tag the worked cases start from: 1.2.3, twenty commits back. */
  const ExampleTag := Version(Triple(1, 2, 3), 20)

  /** A patch bump of 1.2.3 against the distribution version 0.0.1. */
  lemma PatchBumpScenario()
    ensures FromTag(Options(None, None, Some(Patch), false), ExampleTag, "0.0.1") == Ok("1.2.4")
  {
    FirstDistributionVersionParses();
    SmallReleaseStrings();
    PrecedesByParts(Triple(1, 2, 4), Triple(0, 0, 1));
    assert Bumped(ExampleTag.release, Patch) == Triple(1, 2, 4);
    assert !Precedes(Triple(1, 2, 4), Triple(0, 0, 1));
    assert FromTag(Options(None, None, Some(Patch), false), ExampleTag, "0.0.1") == Ok(ReleaseString(Triple(1, 2, 4)));
  }

  /** A minor bump of 1.2.3 against the distribution version 0.0.1. */
  lemma MinorBumpScenario()
    ensures FromTag(Options(None, None, Some(Minor), false), ExampleTag, "0.0.1") == Ok("1.3.0")
  {
    FirstDistributionVersionParses();
    SmallReleaseStrings();
    PrecedesByParts(Triple(1, 3, 0), Triple(0, 0, 1));
    assert Bumped(ExampleTag.release, Minor) == Triple(1, 3, 0);
    assert !Precedes(Triple(1, 3, 0), Triple(0, 0, 1));
    assert FromTag(Options(None, None, Some(Minor), false), ExampleTag, "0.0.1") == Ok(ReleaseString(Triple(1, 3, 0)));
  }

  /** A major bump of 1.2.3 against the distribution version 0.0.1. */
  lemma MajorBumpScenario()
    ensures FromTag(Options(None, None, Some(Major), false), ExampleTag, "0.0.1") == Ok("2.0.0")
  {
    FirstDistributionVersionParses();
    SmallReleaseStrings();
    PrecedesByParts(Triple(2, 0, 0), Triple(0, 0, 1));
    assert Bumped(ExampleTag.release, Major) == Triple(2, 0, 0);
    assert !Precedes(Triple(2, 0, 0), Triple(0, 0, 1));
    assert FromTag(Options(None, None, Some(Major), false), ExampleTag, "0.0.1") == Ok(ReleaseString(Triple(2, 0, 0)));
  }

  /** A patch bump of 1.2.3 that the distribution version 1.3.0 overtakes. */
  lemma OvertakenBumpScenario()
    ensures FromTag(Options(None, None, Some(Patch), false), ExampleTag, "1.3.0") == Ok("1.3.0")
  {
    SecondDistributionVersionParses();
    SmallReleaseStrings();
    PrecedesByParts(Triple(1, 2, 4), Triple(1, 3, 0));
    assert Bumped(ExampleTag.release, Patch) == Triple(1, 2, 4);
    assert Precedes(Triple(1, 2, 4), Triple(1, 3, 0));
    assert FromTag(Options(None, None, Some(Patch), false), ExampleTag, "1.3.0") == Ok(ReleaseString(Triple(1, 3, 0)));
  }

  /** The development version of 1.2.3 with twenty commits with no bump requested: a major bump. */
  lemma DefaultDevScenario()
    ensures FromTag(Options(None, None, None, true), ExampleTag, "") == Ok("2.0.0.dev20")
  {
    SmallNumerals();
    SmallReleaseStrings();
    assert Bumped(ExampleTag.release, Major) == Triple(2, 0, 0);
    assert "2.0.0" + ".dev" + "20" == "2.0.0.dev20";
    assert DevString(Version(Triple(2, 0, 0), 20)) == "2.0.0.dev20";
    assert FromTag(Options(None, None, None, true), ExampleTag, "") == Ok(DevString(Version(Triple(2, 0, 0), 20)));
  }

  /** The development version of 1.2.3 with twenty commits with a patch bump. */
  lemma PatchDevScenario()
    ensures FromTag(Options(None, None, Some(Patch), true), ExampleTag, "") == Ok("1.2.4.dev20")
  {
    SmallNumerals();
    SmallReleaseStrings();
    assert Bumped(ExampleTag.release, Patch) == Triple(1, 2, 4);
    assert "1.2.4" + ".dev" + "20" == "1.2.4.dev20";
    assert DevString(Version(Triple(1, 2, 4), 20)) == "1.2.4.dev20";
    assert FromTag(Options(None, None, Some(Patch), true), ExampleTag, "") == Ok(DevString(Version(Triple(1, 2, 4), 20)));
  }

  /** The development version of 1.2.3 with twenty commits with a minor bump. */
  lemma MinorDevScenario()
    ensures FromTag(Options(None, None, Some(Minor), true), ExampleTag, "") == Ok("1.3.0.dev20")
  {
    SmallNumerals();
    SmallReleaseStrings();
    assert Bumped(ExampleTag.release, Minor) == Triple(1, 3, 0);
    assert "1.3.0" + ".dev" + "20" == "1.3.0.dev20";
    assert DevString(Version(Triple(1, 3, 0), 20)) == "1.3.0.dev20";
    assert FromTag(Options(None, None, Some(Minor), true), ExampleTag, "") == Ok(DevString(Version(Triple(1, 3, 0), 20)));
  }

  /** A configuration naming a new version, the `update` bump and a
      development flag `TRUE`; an environment naming a new version, the
      `Minor` bump and the flag `false`. */
  lemma ReadingScenarios()
    ensures FromConfig(Defaults, map["new-version" := "1.0.0", "version-bump" := "update", "dev-version" := "TRUE"])
         == Applied(Options(Some("1.0.0"), None, Some(Patch), true), Pass)
    ensures FromEnvironment(Defaults, map["DV_NEW_VERSION" := "1.0.0", "DV_VERSION_BUMP" := "Minor", "DV_DEV_VERSION" := "false"])
         == Applied(Options(Some("1.0.0"), None, Some(Minor), false), Pass)
  {
    assert Upper("update") == "UPDATE";
    assert Upper("Minor") == "MINOR";
    assert Lower("TRUE") == "true";
    assert Lower("false") == "false";
  }
}
