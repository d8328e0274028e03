/** `showApkInfo`: the mismatch between the uses-sdk declaration and the caller's SDK range. */
module ApkInfo {
  import opened Wrappers
  import opened Findings
  import opened Manifest

  /**
   * The two-bit mismatch code: bit 0 for the minimum, bit 1 for the maximum.
   * A uses-sdk value of 0 means "not declared" and never mismatches. No order
   * between minimum and maximum is assumed (the maximum argument may be 0).
   */
  function MismatchCode(usesMin: int, usesMax: int, argsMin: int, argsMax: int): (code: nat)
    ensures code <= 3
    ensures code % 2 == 1 <==> usesMin != 0 && usesMin != argsMin
    ensures code / 2 == 1 <==> usesMax != 0 && usesMax != argsMax
  {
    (if usesMin != 0 && usesMin != argsMin then 1 else 0)
    + (if usesMax != 0 && usesMax != argsMax then 2 else 0)
  }

  /** The cases of the showApkInfo unit test: (uses-sdk min, max), args min, args max, expected. */
  lemma MismatchCodeTestCases()
    ensures MismatchCode(15, 30, 15, 30) == 0 && MismatchCode(15, 30, 20, 30) == 1
    ensures MismatchCode(15, 30, 20, 31) == 3 && MismatchCode(15, 30, 15, 31) == 2
    ensures MismatchCode(15, 30, 1, 30) == 1 && MismatchCode(15, 30, 1, 31) == 3
    ensures MismatchCode(15, 30, 15, 0) == 2 && MismatchCode(15, 30, 16, 0) == 3
    ensures MismatchCode(15, 30, 1, 0) == 3 && MismatchCode(0, 0, 15, 30) == 0
    ensures MismatchCode(1, 0, 15, 30) == 1 && MismatchCode(0, 4, 15, 30) == 2
    ensures MismatchCode(13, 4, 15, 30) == 3 && MismatchCode(15, 0, 15, 30) == 0
    ensures MismatchCode(0, 30, 15, 30) == 0 && MismatchCode(1, 30, 15, 30) == 1
  {
  }

  /** What showApkInfo logs about the supported range: the two SDK records, then the maxSdkVersion warning if declared. */
  function SdkLines(facts: ManifestFacts, args: Args): seq<Output>
  {
    var code := MismatchCode(facts.usesSdkMin, facts.usesSdkMax, args.minSdkVersion, args.maxSdkVersion);
    [Log(Info, MinSdkVersion(args.minSdkVersion, if code % 2 == 1 then Some(facts.usesSdkMin) else None)),
     Log(Info, MaxSdkVersion(args.maxSdkVersion, if code / 2 == 1 then Some(facts.usesSdkMax) else None))]
    + if facts.usesSdkMax != 0 then [Log(Warning, MaxSdkDeclared)] else []
  }

  /**
   * The SDK part of `showApkInfo`: sets the mismatch bits one by one, reports
   * the caller's minimum and maximum (with the declared value when it
   * mismatches) and warns when uses-sdk declares a maximum at all.
   */
  method ShowApkInfo(facts: ManifestFacts, args: Args) returns (res: nat, out: seq<Output>)
    ensures res == MismatchCode(facts.usesSdkMin, facts.usesSdkMax, args.minSdkVersion, args.maxSdkVersion)
    ensures |out| >= 2
    ensures out[0] == Log(Info, MinSdkVersion(args.minSdkVersion, if res % 2 == 1 then Some(facts.usesSdkMin) else None))
    ensures out[1] == Log(Info, MaxSdkVersion(args.maxSdkVersion, if res / 2 == 1 then Some(facts.usesSdkMax) else None))
    ensures out[2..] == if facts.usesSdkMax != 0 then [Log(Warning, MaxSdkDeclared)] else []
    ensures out == SdkLines(facts, args)
    ensures CriticalFree(out)
  {
    var bits: bv8 := 0;
    var minNote: Option<int> := None;
    var maxNote: Option<int> := None;
    if facts.usesSdkMin != 0 && facts.usesSdkMin != args.minSdkVersion {
      bits := bits | 1;
      minNote := Some(facts.usesSdkMin);
    }
    if facts.usesSdkMax != 0 && facts.usesSdkMax != args.maxSdkVersion {
      bits := bits | 2;
      maxNote := Some(facts.usesSdkMax);
    }
    res := bits as nat;
    out := [Log(Info, MinSdkVersion(args.minSdkVersion, minNote)), Log(Info, MaxSdkVersion(args.maxSdkVersion, maxNote))];
    if facts.usesSdkMax != 0 {
      out := out + [Log(Warning, MaxSdkDeclared)];
    }
  }
}
