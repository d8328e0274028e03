/**
 * `checkForFirebaseURL` and `runAllTests`: the whole analysis of one
 * manifest, the checks run one after the other in a fixed order, their
 * records concatenated.
 */
module Engine {
  import opened Wrappers
  import opened Seqs
  import opened Findings
  import opened Manifest
  import opened Utils
  import ApkInfo
  import Permissions
  import Backup
  import Network
  import Components
  import Intents

  /** The record checkForFirebaseURL logs for one Firebase URL found in the strings. */
  function FirebaseLine(url: string): Output
  {
    Log(Info, FirebaseUrl(url))
  }

  /** `checkForFirebaseURL`: one INFO record per URL the string search returned, in order. */
  method CheckForFirebaseURL(urls: seq<string>) returns (out: seq<Output>)
    ensures out == Map(urls, FirebaseLine)
  {
    out := [];
    var i := 0;
    while i < |urls|
      invariant 0 <= i <= |urls|
      invariant out == Map(urls[..i], FirebaseLine)
    {
      assert urls[..i + 1] == urls[..i] + [urls[i]];
      MapSnoc(urls[..i], urls[i], FirebaseLine);
      out := out + [Log(Info, FirebaseUrl(urls[i]))];
      i := i + 1;
    }
    assert urls[..i] == urls;
  }

  /** Every URL found is logged, nothing else is, and only at INFO. */
  lemma FirebaseLinesContents(urls: seq<string>)
    ensures var out := Map(urls, FirebaseLine);
      && |out| == |urls|
      && (forall u :: Log(Info, FirebaseUrl(u)) in out <==> u in urls)
      && (forall o :: o in out ==> o.Log? && o.level == Info)
  {
    var out := Map(urls, FirebaseLine);
    forall u ensures Log(Info, FirebaseUrl(u)) in out <==> u in urls {
      if u in urls {
        var k :| 0 <= k < |urls| && urls[k] == u;
        assert out[k] == Log(Info, FirebaseUrl(u));
      }
      if Log(Info, FirebaseUrl(u)) in out {
        var k :| 0 <= k < |out| && out[k] == Log(Info, FirebaseUrl(u));
        assert urls[k] == u;
      }
    }
  }

  /** What each check of a run returns. */
  datatype Summary = Summary(
    sdkMismatch: nat,
    dangerousPermissions: nat,
    exploitableCustomPermissions: nat,
    backupRules: Option<nat>,
    networkConfig: bool,
    debuggable: bool,
    cleartext: Option<bool>,
    appLinkHosts: Option<nat>,
    exportedScore: nat,
    unprotectedComponents: nat,
    unexportedProviders: nat)

  /** What the first checks of a run log: the SDK range, the permissions and the backup features, in that order. */
  function AppLines(facts: ManifestFacts, args: Args, dangerous: set<string>): seq<Output>
  {
    ApkInfo.SdkLines(facts, args)
    + Permissions.RequiredLines(facts.requiredPermissions, dangerous, args.logLevel)
    + Permissions.CustomLines(facts.customPermissions, args.logLevel)
    + Backup.BackupLines(facts, args)
  }

  /** The first checks of a run: the SDK range, the permissions and the backup features. */
  method RunAppChecks(facts: ManifestFacts, args: Args, dangerous: set<string>)
    returns (sdk: nat, dangerousCount: nat, exploitable: nat, rules: Option<nat>, out: seq<Output>)
    ensures sdk == ApkInfo.MismatchCode(facts.usesSdkMin, facts.usesSdkMax, args.minSdkVersion, args.maxSdkVersion)
    ensures dangerousCount == Count(facts.requiredPermissions, Permissions.InSet(dangerous))
    ensures exploitable == Count(facts.customPermissions, Permissions.IsExploitable())
    ensures rules.Some? <==> Backup.IsADBBackupAllowed(facts.allowBackup)
    ensures rules.Some? ==> rules.value == Backup.BackupRulesCode(args.minSdkVersion, args.maxSdkVersion,
                                                                  facts.fullBackupContent, facts.dataExtractionRules)
    ensures out == AppLines(facts, args, dangerous)
    ensures CriticalFree(out) <==> exploitable == 0
  {
    var level := args.logLevel;
    var apkLines, requiredLines, customLines, backupLines;
    sdk, apkLines := ApkInfo.ShowApkInfo(facts, args);
    dangerousCount, requiredLines := Permissions.AnalyzeRequiredPerms(facts.requiredPermissions, dangerous, level);
    var customTable;
    exploitable, customTable, customLines := Permissions.AnalyzeCustomPerms(facts.customPermissions, level);
    rules, backupLines := Backup.AnalyzeBackupFeatures(facts, args);
    CriticalFreeConcat(apkLines, requiredLines);
    CriticalFreeConcat(apkLines + requiredLines, customLines);
    CriticalFreeConcat(apkLines + requiredLines + customLines, backupLines);
    out := apkLines + requiredLines + customLines + backupLines;
  }

  /** What the network security configuration, debug mode and cleartext traffic checks log, in that order. */
  function NetworkLines(facts: ManifestFacts, args: Args): seq<Output>
  {
    Network.GetNetworkConfigFile(facts.networkSecurityConfig).out
    + Network.IsDebuggable(facts.debuggable, facts.hasFlutterKernelBlob).out
    + Network.IsCleartextTrafficAllowed(facts.usesCleartextTraffic, facts.networkSecurityConfig, args.minSdkVersion).out
  }

  /** The network security configuration, debug mode and cleartext traffic checks. */
  method RunNetworkChecks(facts: ManifestFacts, args: Args)
    returns (nsc: bool, debuggable: bool, cleartext: Option<bool>, out: seq<Output>)
    ensures nsc <==> facts.networkSecurityConfig.Some?
    ensures debuggable <==> facts.debuggable == True
    ensures cleartext == Network.CleartextVerdict(facts.usesCleartextTraffic, facts.networkSecurityConfig, args.minSdkVersion)
    ensures out == NetworkLines(facts, args)
    ensures CriticalFree(out) <==> !(debuggable && facts.hasFlutterKernelBlob)
  {
    var config := Network.GetNetworkConfigFile(facts.networkSecurityConfig);
    var debug := Network.IsDebuggable(facts.debuggable, facts.hasFlutterKernelBlob);
    var traffic := Network.IsCleartextTrafficAllowed(facts.usesCleartextTraffic, facts.networkSecurityConfig,
                                                     args.minSdkVersion);
    nsc, debuggable, cleartext := config.value, debug.value, traffic.value;
    CriticalFreeConcat(config.out, debug.out);
    CriticalFreeConcat(config.out + debug.out, traffic.out);
    out := config.out + debug.out + traffic.out;
  }

  /**
   * What the checks that end a run log, in order: the exported-component
   * listing, the intent filters (for the groups and reports chosen where the
   * source iterates over a set), the component permissions, the unexported
   * providers and the Firebase URLs.
   */
  function ComponentLines(facts: ManifestFacts, level: LogLevel, groups: seq<Intents.LinkGroup>,
                          reports: seq<Intents.HostReport>): seq<Output>
  {
    Flatten(Map(AnalyzedKinds, Components.KindListing(facts)))
    + Intents.IntentLines(facts, level, groups, reports)
    + Components.ExportedLines(facts, level)
    + Components.ProviderReport(facts.unexportedProviders, level)
    + Map(facts.firebaseUrls, FirebaseLine)
  }

  /** The component, intent filter and Firebase checks that end a run. */
  method RunComponentChecks(facts: ManifestFacts, level: LogLevel, assetHosts: set<string>)
    returns (appLinks: Option<nat>, score: nat, unprotected: nat, providers: nat, out: seq<Output>,
             ghost groups: seq<Intents.LinkGroup>, ghost reports: seq<Intents.HostReport>)
    ensures appLinks.Some? <==> |facts.universalLinks| > 0
    ensures appLinks.Some? ==> appLinks.value == |Intents.VerifiedHosts(facts.universalLinks)|
    ensures unprotected
         == if ShowsWarnings(level)
            then Count(Components.Candidates(facts), Components.Exposed(LinkNames(facts.universalLinks))) else 0
    ensures score
         == unprotected
            + if level == Info
              then 2 * Count(Components.Candidates(facts), Components.Guarded(LinkNames(facts.universalLinks))) else 0
    ensures providers == |facts.unexportedProviders|
    ensures Intents.IntentChoices(facts.universalLinks, assetHosts, groups, reports)
    ensures out == ComponentLines(facts, level, groups, reports)
    ensures CriticalFree(out)
  {
    var listing := Components.GetExportedComponents(facts);
    Components.ListingQuiet(facts);
    var intentLines;
    appLinks, intentLines, groups, reports := Intents.AnalyzeIntentFilters(facts, level, assetHosts);
    var headers, table, exportedLines;
    score, unprotected, headers, table, exportedLines := Components.AnalyzeExportedComponent(facts, level);
    var providerLines;
    providers, providerLines := Components.AnalyzeUnexportedProviders(facts.unexportedProviders, level);
    Components.ProviderReportContents(facts.unexportedProviders, level);
    var firebaseLines := CheckForFirebaseURL(facts.firebaseUrls);
    FirebaseLinesContents(facts.firebaseUrls);
    CriticalFreeConcat(listing, intentLines);
    CriticalFreeConcat(listing + intentLines, exportedLines);
    CriticalFreeConcat(listing + intentLines + exportedLines, providerLines);
    CriticalFreeConcat(listing + intentLines + exportedLines + providerLines, firebaseLines);
    out := listing + intentLines + exportedLines + providerLines + firebaseLines;
  }

  /**
   * `runAllTests`: every check in the order of the source, with the logging
   * threshold of the arguments. The run holds a critical record exactly when
   * some custom permission can be obtained by any application, or when the
   * application is debuggable and ships its Flutter kernel blob.
   */
  method RunAllTests(facts: ManifestFacts, args: Args, dangerous: set<string>, assetHosts: set<string>)
    returns (s: Summary, out: seq<Output>, ghost groups: seq<Intents.LinkGroup>, ghost reports: seq<Intents.HostReport>)
    ensures s.sdkMismatch == ApkInfo.MismatchCode(facts.usesSdkMin, facts.usesSdkMax, args.minSdkVersion, args.maxSdkVersion)
    ensures s.dangerousPermissions == Count(facts.requiredPermissions, Permissions.InSet(dangerous))
    ensures s.exploitableCustomPermissions == Count(facts.customPermissions, Permissions.IsExploitable())
    ensures s.backupRules.Some? <==> Backup.IsADBBackupAllowed(facts.allowBackup)
    ensures s.backupRules.Some? ==> s.backupRules.value == Backup.BackupRulesCode(args.minSdkVersion, args.maxSdkVersion,
                                                            facts.fullBackupContent, facts.dataExtractionRules)
    ensures s.networkConfig <==> facts.networkSecurityConfig.Some?
    ensures s.debuggable <==> facts.debuggable == True
    ensures s.cleartext == Network.CleartextVerdict(facts.usesCleartextTraffic, facts.networkSecurityConfig, args.minSdkVersion)
    ensures s.appLinkHosts.Some? <==> |facts.universalLinks| > 0
    ensures s.appLinkHosts.Some? ==> s.appLinkHosts.value == |Intents.VerifiedHosts(facts.universalLinks)|
    ensures s.unprotectedComponents
         == if ShowsWarnings(args.logLevel)
            then Count(Components.Candidates(facts), Components.Exposed(LinkNames(facts.universalLinks))) else 0
    ensures s.exportedScore
         == s.unprotectedComponents
            + if args.logLevel == Info
              then 2 * Count(Components.Candidates(facts), Components.Guarded(LinkNames(facts.universalLinks))) else 0
    ensures s.unexportedProviders == |facts.unexportedProviders|
    ensures Intents.IntentChoices(facts.universalLinks, assetHosts, groups, reports)
    ensures out == AppLines(facts, args, dangerous) + NetworkLines(facts, args) + ComponentLines(facts, args.logLevel, groups, reports)
    ensures !CriticalFree(out) <==> s.exploitableCustomPermissions > 0 || (s.debuggable && facts.hasFlutterKernelBlob)
  {
    var sdk, dangerousCount, exploitable, rules, appOut := RunAppChecks(facts, args, dangerous);
    var nsc, debuggable, cleartext, networkOut := RunNetworkChecks(facts, args);
    var appLinks, score, unprotected, providers, componentOut;
    appLinks, score, unprotected, providers, componentOut, groups, reports := RunComponentChecks(facts, args.logLevel, assetHosts);
    CriticalFreeConcat(appOut, networkOut);
    CriticalFreeConcat(appOut + networkOut, componentOut);
    out := appOut + networkOut + componentOut;
    s := Summary(sdk, dangerousCount, exploitable, rules, nsc, debuggable, cleartext, appLinks,
                 score, unprotected, providers);
  }
}
