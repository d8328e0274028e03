/**
 * The backup checks: `isADBBackupAllowed`, `isAutoBackupAllowed`,
 * `isBackupAgentImplemented`, `getBackupRulesFile` and the
 * `analyzeBackupFeatures` sequence that runs them.
 */
module Backup {
  import opened Wrappers
  import opened Text
  import opened Utils
  import opened Findings
  import opened Manifest
  import opened ApiLevels

  /** ADB backup is possible unless `allowBackup` is explicitly false (it defaults to true). */
  function IsADBBackupAllowed(allowBackup: TriBool): (allowed: bool)
    ensures allowed <==> allowBackup != False
  {
    allowBackup == True || allowBackup == Unset
  }

  /** Auto Backup additionally needs a supported level of at least 23. */
  function IsAutoBackupAllowed(allowBackup: TriBool, maxSdk: int): (allowed: bool)
    ensures allowed <==> IsADBBackupAllowed(allowBackup) && maxSdk >= 23
  {
    (allowBackup == True || allowBackup == Unset) && maxSdk >= 23
  }

  /**
   * The encryption remark of an enabled Auto Backup, tested in the source's
   * order: encrypted from a minimum of 28, else unavailable below a maximum
   * of 28, else only available from API 28.
   */
  function AutoBackupEncryption(minSdk: int, maxSdk: int): (e: Encryption)
    ensures e == Encrypted <==> minSdk >= 28
    ensures e == NotAvailable <==> minSdk < 28 && maxSdk < 28
    ensures e == FromApi28 <==> minSdk < 28 <= maxSdk
  {
    if minSdk >= 28 then Encrypted
    else if maxSdk < 28 then NotAvailable
    else FromApi28
  }

  /** What the Auto Backup check reports: the encryption remark when enabled, nothing otherwise. */
  function AutoBackupReport(allowBackup: TriBool, minSdk: int, maxSdk: int): (r: Option<Encryption>)
    ensures r.Some? <==> IsAutoBackupAllowed(allowBackup, maxSdk)
    ensures r.Some? ==> r.value == AutoBackupEncryption(minSdk, maxSdk)
  {
    if IsAutoBackupAllowed(allowBackup, maxSdk) then Some(AutoBackupEncryption(minSdk, maxSdk)) else None
  }

  /** Auto Backup is never allowed where ADB backup is not. */
  lemma AutoBackupImpliesADB(allowBackup: TriBool, maxSdk: int)
    ensures IsAutoBackupAllowed(allowBackup, maxSdk) ==> IsADBBackupAllowed(allowBackup)
  {
  }

  /** ADB backup: the resolved flag holds on some (equivalently every) supported level. */
  lemma ADBBackupOnLevels(allowBackup: TriBool, minSdk: int, maxSdk: int)
    requires minSdk <= maxSdk
    ensures IsADBBackupAllowed(allowBackup)
        <==> exists api :: minSdk <= api <= maxSdk && Resolve(allowBackup, AllowBackupDefault(api))
    ensures IsADBBackupAllowed(allowBackup)
        <==> forall api :: minSdk <= api <= maxSdk ==> Resolve(allowBackup, AllowBackupDefault(api))
  {
    if IsADBBackupAllowed(allowBackup) {
      assert Resolve(allowBackup, AllowBackupDefault(minSdk));
    } else {
      assert !Resolve(allowBackup, AllowBackupDefault(minSdk));
    }
  }

  /** Auto Backup: ADB backup is allowed and some supported level has Auto Backup. */
  lemma AutoBackupOnLevels(allowBackup: TriBool, minSdk: int, maxSdk: int)
    requires minSdk <= maxSdk
    ensures IsAutoBackupAllowed(allowBackup, maxSdk)
        <==> IsADBBackupAllowed(allowBackup)
             && exists api :: minSdk <= api <= maxSdk && AutoBackupAvailable(api)
  {
    if maxSdk >= 23 {
      assert AutoBackupAvailable(maxSdk);
    }
  }

  /**
   * The encryption remark classifies the supported range against API 28:
   * encrypted when every level encrypts, unavailable when none does, and
   * "from API 28" when the range straddles the threshold.
   */
  lemma EncryptionOnLevels(minSdk: int, maxSdk: int)
    requires minSdk <= maxSdk
    ensures var e := AutoBackupEncryption(minSdk, maxSdk);
      && (e == Encrypted <==> forall api :: minSdk <= api <= maxSdk ==> BackupEncrypted(api))
      && (e == NotAvailable <==> forall api :: minSdk <= api <= maxSdk ==> !BackupEncrypted(api))
      && (e == FromApi28 <==>
            (exists api :: minSdk <= api <= maxSdk && !BackupEncrypted(api))
            && (exists api :: minSdk <= api <= maxSdk && BackupEncrypted(api)))
  {
    assert BackupEncrypted(minSdk) <==> minSdk >= 28;
    assert BackupEncrypted(maxSdk) <==> maxSdk >= 28;
  }

  /** The isADBBackupAllowed and isAutoBackupAllowed unit-test cases (minimum 8). */
  lemma BackupTestCases()
    ensures IsADBBackupAllowed(True) && !IsADBBackupAllowed(False) && IsADBBackupAllowed(Unset)
    ensures !IsAutoBackupAllowed(True, 12) && IsAutoBackupAllowed(True, 25) && IsAutoBackupAllowed(True, 23)
    ensures IsAutoBackupAllowed(Unset, 23) && IsAutoBackupAllowed(Unset, 25) && !IsAutoBackupAllowed(Unset, 13)
    ensures !IsAutoBackupAllowed(False, 13) && !IsAutoBackupAllowed(False, 23) && !IsAutoBackupAllowed(False, 26)
  {
  }

  /** A backup agent is declared when the attribute is present and non-empty. */
  function IsBackupAgentImplemented(agent: Option<string>): (declared: bool)
    ensures declared <==> agent.Some? && agent.value != []
  {
    agent.Some? && agent.value != ""
  }

  /**
   * The two-bit code of the backup-rules check: bit 0 when levels up to 30
   * are supported and `fullBackupContent` is declared, bit 1 when levels from
   * 31 are supported and `dataExtractionRules` is declared.
   */
  function BackupRulesCode(minSdk: int, maxSdk: int, fullBackupContent: Option<string>,
                           dataExtractionRules: Option<string>): (code: nat)
    ensures code <= 3
    ensures code % 2 == 1 <==> minSdk <= 30 && fullBackupContent.Some?
    ensures code / 2 == 1 <==> maxSdk >= 31 && dataExtractionRules.Some?
  {
    (if minSdk <= 30 && fullBackupContent.Some? then 1 else 0)
    + (if maxSdk >= 31 && dataExtractionRules.Some? then 2 else 0)
  }

  /** Each bit stands for a declared rules file that governs some supported level. */
  lemma BackupRulesOnLevels(minSdk: int, maxSdk: int, full: Option<string>, extraction: Option<string>)
    requires minSdk <= maxSdk
    ensures var code := BackupRulesCode(minSdk, maxSdk, full, extraction);
      && (code % 2 == 1 <==> full.Some? && exists api :: minSdk <= api <= maxSdk && LegacyRulesApply(api))
      && (code / 2 == 1 <==> extraction.Some? && exists api :: minSdk <= api <= maxSdk && ExtractionRulesApply(api))
  {
    assert LegacyRulesApply(minSdk) <==> minSdk <= 30;
    assert ExtractionRulesApply(maxSdk) <==> maxSdk >= 31;
  }

  /** With a range straddling API 31 the getBackupRulesFile unit-test cases give 3, 2, 1 and 0. */
  lemma BackupRulesTestCases(minSdk: int, maxSdk: int)
    requires minSdk <= 30 && maxSdk >= 31
    ensures BackupRulesCode(minSdk, maxSdk, Some("test.xml"), Some("test.xml")) == 3
    ensures BackupRulesCode(minSdk, maxSdk, None, Some("test.xml")) == 2
    ensures BackupRulesCode(minSdk, maxSdk, Some("test.xml"), None) == 1
    ensures BackupRulesCode(minSdk, maxSdk, None, None) == 0
  {
  }

  /** What getBackupRulesFile logs for the window up to API 30, when the range reaches it. */
  function LegacyLines(minSdk: int, fullBackupContent: Option<string>): seq<Output>
  {
    if minSdk > 30 then []
    else if fullBackupContent.Some? then [Log(Info, LegacyBackupRules(fullBackupContent.value))]
    else [Log(Warning, NoLegacyBackupRules(minSdk))]
  }

  /** What getBackupRulesFile logs for the window from API 31, when the range reaches it. */
  function ExtractionLines(maxSdk: int, dataExtractionRules: Option<string>): seq<Output>
  {
    if maxSdk < 31 then []
    else if dataExtractionRules.Some? then [Log(Info, DataExtractionRules(dataExtractionRules.value))]
    else [Log(Warning, NoDataExtractionRules(maxSdk))]
  }

  /**
   * `getBackupRulesFile`: for each window the supported range reaches (up to
   * 30, from 31) either reports the declared rules file and sets its bit, or
   * warns that none is declared.
   */
  method GetBackupRulesFile(minSdk: int, maxSdk: int, fullBackupContent: Option<string>,
                            dataExtractionRules: Option<string>)
    returns (res: nat, out: seq<Output>)
    ensures res == BackupRulesCode(minSdk, maxSdk, fullBackupContent, dataExtractionRules)
    ensures |out| == (if minSdk <= 30 then 1 else 0) + (if maxSdk >= 31 then 1 else 0)
    ensures Log(Warning, NoLegacyBackupRules(minSdk)) in out <==> minSdk <= 30 && fullBackupContent.None?
    ensures Log(Warning, NoDataExtractionRules(maxSdk)) in out <==> maxSdk >= 31 && dataExtractionRules.None?
    ensures forall file :: Log(Info, LegacyBackupRules(file)) in out
                       <==> minSdk <= 30 && fullBackupContent == Some(file)
    ensures forall file :: Log(Info, DataExtractionRules(file)) in out
                       <==> maxSdk >= 31 && dataExtractionRules == Some(file)
    ensures out == LegacyLines(minSdk, fullBackupContent) + ExtractionLines(maxSdk, dataExtractionRules)
    ensures CriticalFree(out)
  {
    var bits: bv8 := 0;
    var legacy: seq<Output> := [];
    var extraction: seq<Output> := [];
    if minSdk <= 30 {
      if fullBackupContent.Some? {
        legacy := [Log(Info, LegacyBackupRules(fullBackupContent.value))];
        bits := bits | 1;
      } else {
        legacy := [Log(Warning, NoLegacyBackupRules(minSdk))];
      }
    }
    if maxSdk >= 31 {
      if dataExtractionRules.Some? {
        extraction := [Log(Info, DataExtractionRules(dataExtractionRules.value))];
        bits := bits | 2;
      } else {
        extraction := [Log(Warning, NoDataExtractionRules(maxSdk))];
      }
    }
    res := bits as nat;
    out := legacy + extraction;
  }

  /** The backup agent record: a warning naming the agent class, or an INFO record that there is none. */
  function AgentLine(backupAgent: Option<string>): Output
  {
    if IsBackupAgentImplemented(backupAgent) then Log(Warning, OwnBackupAgent(AfterLast(backupAgent.value, '.')))
    else Log(Info, NoBackupAgent)
  }

  /**
   * What analyzeBackupFeatures logs: the ADB and Auto Backup records, the
   * rules-file records when ADB backup is allowed, and the agent record.
   */
  function BackupLines(facts: ManifestFacts, args: Args): seq<Output>
  {
    [Log(Info, AdbBackup(IsADBBackupAllowed(facts.allowBackup))),
     Log(Info, AutoBackup(AutoBackupReport(facts.allowBackup, args.minSdkVersion, args.maxSdkVersion)))]
    + (if IsADBBackupAllowed(facts.allowBackup)
       then LegacyLines(args.minSdkVersion, facts.fullBackupContent)
            + ExtractionLines(args.maxSdkVersion, facts.dataExtractionRules)
       else [])
    + [AgentLine(facts.backupAgent)]
  }

  /**
   * `analyzeBackupFeatures`: the ADB and Auto Backup checks, the rules-file
   * check when either allows a backup (which is exactly when ADB backup is
   * allowed), then the backup agent check.
   */
  method AnalyzeBackupFeatures(facts: ManifestFacts, args: Args) returns (rulesCode: Option<nat>, out: seq<Output>)
    ensures rulesCode.Some? <==> IsADBBackupAllowed(facts.allowBackup)
    ensures rulesCode.Some? ==> rulesCode.value == BackupRulesCode(args.minSdkVersion, args.maxSdkVersion,
                                                    facts.fullBackupContent, facts.dataExtractionRules)
    ensures |out| >= 3
    ensures out[0] == Log(Info, AdbBackup(IsADBBackupAllowed(facts.allowBackup)))
    ensures out[1] == Log(Info, AutoBackup(AutoBackupReport(facts.allowBackup, args.minSdkVersion, args.maxSdkVersion)))
    ensures out[|out| - 1] == if IsBackupAgentImplemented(facts.backupAgent)
                              then Log(Warning, OwnBackupAgent(AfterLast(facts.backupAgent.value, '.')))
                              else Log(Info, NoBackupAgent)
    ensures out == BackupLines(facts, args)
    ensures CriticalFree(out)
  {
    var adb := IsADBBackupAllowed(facts.allowBackup);
    var auto := IsAutoBackupAllowed(facts.allowBackup, args.maxSdkVersion);
    out := [Log(Info, AdbBackup(adb)),
            Log(Info, AutoBackup(if auto then Some(AutoBackupEncryption(args.minSdkVersion, args.maxSdkVersion)) else None))];
    if adb || auto {
      var code, lines := GetBackupRulesFile(args.minSdkVersion, args.maxSdkVersion,
                                            facts.fullBackupContent, facts.dataExtractionRules);
      rulesCode := Some(code);
      out := out + lines;
    } else {
      rulesCode := None;
    }
    if IsBackupAgentImplemented(facts.backupAgent) {
      out := out + [Log(Warning, OwnBackupAgent(AfterLast(facts.backupAgent.value, '.')))];
    } else {
      out := out + [Log(Info, NoBackupAgent)];
    }
  }
}
