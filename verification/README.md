# AMAnDe analyzer core in Dafny

AMAnDe reads an Android manifest (or an APK) and reports security-relevant
settings against the range of Android API levels an application supports:
the declared SDK bounds, dangerous and custom permissions, ADB and Auto
Backup, backup rule files, the network security configuration, debug mode,
cleartext traffic, exported components without permissions, unexported
providers granting URI permissions, intent filters, deep links and app links,
and Firebase URLs. This project models the `Analyzer` checks of
`src/analyzer.py` and the two string helpers of `src/utils.py`, and proves
what they decide.

How the model is built:

- Everything the analyzer asks its parser becomes a field of the immutable
  record `Manifest.ManifestFacts`. The command-line arguments become
  `Manifest.Args`: the minimum and maximum supported SDK versions and the
  logging threshold (INFO, WARNING or ERROR).
- Every `self.logger.<level>(...)` call and every `print(...)` becomes an
  `Output` value, `Log(level, event)` or `Print(event)`, returned in order.
  Where the source itself tests `self.logger.level`, the model tests it too.
- Python's three-valued booleans (`True`, `False`, `None`) are `Utils.TriBool`.
- Checks that loop and build results step by step are methods with loop
  invariants, proved against specification functions. Straight-line
  decisions are functions.
- Two outside services become parameters:
  - the reference set of dangerous builtin permissions (`dangerous`);
  - the hosts whose Digital Asset Links file is reachable (`assetHosts`).
- Python set iteration (distinct host names, distinct component names) is
  modelled as an arbitrary choice, so every order is covered.
- `ApiLevels` states the per-API-level rules that the analyzer's docstrings
  cite. Lemmas show that each range check in the code agrees with them over
  every level from the minimum to the maximum.

The headline whole-run property is `Engine.RunAllTests`. A run logs a
critical record exactly when:

- some custom permission has a protection level of `normal` or `dangerous`, or
- the application is debuggable and ships its Flutter kernel blob.

## Model

| member | source | states |
|---|---|---|
| Utils.Str2Bool | src/utils.py:36-42 | "true" gives True, "false" gives False, and every other string gives None; both directions of each case |
| Utils.Str2BoolRoundTrip | src/utils.py:37-40 | parsing the lower-case spelling of a boolean returns that boolean |
| Utils.Str2BoolOnlySpellings | src/utils.py:36-42 | only the two spellings give a boolean; "True", "" and "1" give None |
| Utils.GetResourceTypeName | src/utils.py:45-53 | None maps to None; otherwise the result is the text between the first '/' and the next '/' (or the end), or None when that text is empty; a result never contains '/' and is never empty; a value without '/' is excluded because the split index fails there |
| Utils.ResourceNameIsInfix | src/utils.py:49-52 | a returned name occurs in the reference right after its first '/' and is followed by '/' or the end |
| Utils.ResourceNameOfReference | src/utils.py:49-53 | for `@type/name` with no '/' in either part, the result is the name, or None when the name is empty |
| Utils.ResourceNameStopsAtSlash | src/utils.py:50 | "a/b/c" gives "b" |
| Utils.ResourceNameEmptyExamples | src/utils.py:51-53 | "@xml/" and "a//b" give None, not "" |
| Text.AfterLast | src/analyzer.py:377 | `s.split(".")[-1]` is the suffix after the last separator: it contains none, and it is all of `s` or is preceded by a separator |
| Text.JoinSplit | src/analyzer.py:485 | joining the pieces of a split with a glue string replaces each separator by the glue |
| Text.JoinSplitRoundTrip | src/analyzer.py:485 | joining the pieces of a split with the separator gives back the original string |
| ApkInfo.MismatchCode | src/analyzer.py:76-83 | the code is in 0..3; bit 0 is set iff the declared minimum is non-zero and differs from the argument; bit 1 likewise for the maximum; no order between minimum and maximum is assumed |
| ApkInfo.MismatchCodeTestCases | unitTests/tests.py:64-100 | the sixteen expected results of the showApkInfo unit test, including the argument maximum 0 |
| ApkInfo.ShowApkInfo | src/analyzer.py:67-89 | the result bits equal MismatchCode; the output is the minimum record, the maximum record, then the warning; the two SDK records carry the declared value exactly when its bit is set; the maxSdkVersion warning is logged iff uses-sdk declares a maximum; nothing is critical |
| Permissions.AnalyzeRequiredPerms | src/analyzer.py:133-153 | the count is the number of required permissions, with multiplicity, in the dangerous set, and is at most their number; each permission gets its console or INFO line in order; a warning is logged iff the count is positive |
| Permissions.NoWarningPerPermission | src/analyzer.py:140-147 | no per-permission line is a warning or critical, so the summary is the only warning |
| Permissions.AnalyzeCustomPerms | src/analyzer.py:155-187 | the count is the number of custom permissions whose protectionLevel is exactly "normal" or "dangerous"; the table lists those and, at INFO, all others, in order; the table is printed iff non-empty; the output holds a critical record iff the count is positive |
| Permissions.ExploitableCount | src/analyzer.py:172-187 | the count is positive iff some custom permission is exploitable |
| Permissions.CustomTableSize | src/analyzer.py:168-179 | the table has a row per custom permission at INFO and one per exploitable permission otherwise |
| Backup.IsADBBackupAllowed | src/analyzer.py:189-204 | ADB backup is allowed iff allowBackup is not explicitly false |
| Backup.IsAutoBackupAllowed | src/analyzer.py:206-231 | Auto Backup is allowed iff ADB backup is allowed and the maximum is at least 23 |
| Backup.AutoBackupEncryption | src/analyzer.py:222-227 | exactly one remark applies: encrypted iff minimum >= 28; unavailable iff minimum < 28 and maximum < 28; "from API 28" iff minimum < 28 <= maximum |
| Backup.AutoBackupReport | src/analyzer.py:219-231 | a remark is reported iff Auto Backup is allowed, and it is the encryption remark |
| Backup.AutoBackupImpliesADB | src/analyzer.py:200-219 | Auto Backup is never allowed where ADB backup is not |
| Backup.ADBBackupOnLevels | src/analyzer.py:198-204 | ADB backup is allowed iff the resolved flag holds on some supported level, equivalently on every one |
| Backup.AutoBackupOnLevels | src/analyzer.py:218-219 | Auto Backup is allowed iff ADB backup is allowed and some supported level has Auto Backup (API 23 and up) |
| Backup.EncryptionOnLevels | src/analyzer.py:221-227 | encrypted iff every supported level encrypts; unavailable iff none does; "from API 28" iff the range holds levels of both kinds |
| Backup.BackupTestCases | unitTests/tests.py:23-61 | the expected results of the isADBBackupAllowed and isAutoBackupAllowed unit tests |
| Backup.IsBackupAgentImplemented | src/analyzer.py:233-249 | an agent counts iff the attribute is present and non-empty |
| Backup.BackupRulesCode | src/analyzer.py:268-303 | the code is in 0..3; bit 0 iff minimum <= 30 and fullBackupContent is declared; bit 1 iff maximum >= 31 and dataExtractionRules is declared |
| Backup.BackupRulesOnLevels | src/analyzer.py:262-285 | each bit stands for a declared rules file that governs some supported level (up to API 30 for fullBackupContent, from API 31 for dataExtractionRules) |
| Backup.BackupRulesTestCases | unitTests/tests.py:118-135 | with a range straddling API 31, the four presence combinations give 3, 2, 1 and 0 |
| Backup.GetBackupRulesFile | src/analyzer.py:251-303 | the result is BackupRulesCode; the output is the record for the window up to API 30, then the one for the window from API 31, each present only when the range reaches that window; a warning is logged exactly when a reached window's file is missing; the file is reported exactly when it is declared and its window is reached |
| Backup.AnalyzeBackupFeatures | src/analyzer.py:327-336 | the output is the ADB and Auto Backup records, then the rules-file records exactly when ADB backup is allowed (which is exactly when either backup is allowed), then the backup agent record; the rules code is BackupRulesCode in that case; the agent record is a warning with the agent's class name iff an agent is declared; nothing is critical |
| Network.GetNetworkConfigFile | src/analyzer.py:305-325 | true iff a network security configuration is declared; reports it at INFO, or warns that it is absent |
| Network.IsDebuggable | src/analyzer.py:338-354 | true iff debuggable is explicitly true (the default is false); a critical record is emitted iff the application is debuggable and ships the Flutter kernel blob |
| Network.CleartextVerdict | src/analyzer.py:456-469 | None iff a network security configuration is declared and minimum >= 24; otherwise true iff the flag is true, or unset with minimum <= 27; false otherwise |
| Network.CleartextMonotone | src/analyzer.py:446-448 | if cleartext traffic is permitted on one level, it is permitted on every lower level |
| Network.CleartextOnLevels | src/analyzer.py:446-448 | checking only the minimum is exact: the verdict is true iff cleartext traffic is permitted on some supported level, and None iff the configuration governs every supported level |
| Network.CleartextTestCases | unitTests/tests.py:169-197 | the thirteen expected results of the isCleartextTrafficAllowed unit test |
| Network.IsCleartextTrafficAllowed | src/analyzer.py:439-469 | the verdict is CleartextVerdict, with one record per case: INFO when deferred, a warning when allowed, INFO when not allowed |
| Components.KeptColumns | src/analyzer.py:399-411 | the kept columns are name, type and permission, then readPermission and writePermission unless the table is non-empty and they are empty; 3 to 5 columns |
| Components.KeptColumnsLoseNothing | src/analyzer.py:402-411 | no column holding a value is dropped |
| Components.KeptColumnsExact | src/analyzer.py:402-411 | in a non-empty table, readPermission or writePermission is dropped iff no row sets it |
| Components.PruneEmptyColumns | src/analyzer.py:399-411 | headers and every row are projected onto KeptColumns of the unpruned table; both drop decisions are taken before either column is removed; every row has as many cells as there are headers (3, 4 or 5) |
| Components.ExportedStep | src/analyzer.py:374-398 | for each component: an unprotected considered one adds a row, 1 to the count and 1 to the result when warnings are shown; a protected one adds a row and 2 to the result at INFO; any other changes nothing |
| Components.CollectKind | src/analyzer.py:375-398 | the inner loop extends the table, the count and the result exactly as the specification functions do over the components seen |
| Components.CollectPermissionRows | src/analyzer.py:365-398 | over all four kinds in order, the rows are the tabled components; the count is the unprotected considered ones when warnings are shown; the result adds twice the protected ones at INFO |
| Components.AnalyzeExportedComponent | src/analyzer.py:356-420 | deep-link components and MainActivity are skipped; count and result are as in CollectPermissionRows, unaffected by pruning; the table is every tabled row projected onto the kept columns, and it is printed after a note iff it has rows; the warning fires iff the count is positive; nothing is critical |
| Components.TableSize | src/analyzer.py:386-398 | the table holds every considered component at INFO, exactly the unprotected ones at WARNING, and none at ERROR |
| Components.ResultCountsRows | src/analyzer.py:386-398 | every tabled row is unprotected or protected, never both |
| Components.ProviderReportContents | src/analyzer.py:422-437 | the warning appears iff there is a provider; a provider is listed iff warnings are shown; the report has 1 + n, n or no lines accordingly; nothing is critical |
| Components.AnalyzeUnexportedProviders | src/analyzer.py:422-437 | the count is the number of providers, and the output is the warning followed by the providers in order when warnings are shown |
| Components.ListKind | src/analyzer.py:560-561 | the lines for one kind are one INFO line per exported component of that kind, in order |
| Components.GetExportedComponents | src/analyzer.py:554-561 | one INFO line per exported component, kind by kind in the order activity, receiver, provider, service; nothing is critical |
| Components.ListingQuiet | src/analyzer.py:561 | every listing line is an INFO record |
| Components.ListingSound | src/analyzer.py:559-561 | every listed line names an exported component of an analyzed kind |
| Components.ListingComplete | src/analyzer.py:559-561 | every exported component of an analyzed kind is listed |
| Intents.WrapMime | src/analyzer.py:483-486 | a mime type of at most 40 characters is unchanged; a longer one gets a line break after every '/' |
| Intents.UnwrapReplace | src/analyzer.py:485 | removing the inserted line breaks restores the text; the length grows by the number of '/' |
| Intents.WrapMimeRoundTrip | src/analyzer.py:483-486 | wrapping a long mime type only inserts line breaks: unwrapping gives it back |
| Intents.FilterRowShape | src/analyzer.py:478-488 | a row is the component label followed by the filter's cells; only the last cell, the mime type, may be wrapped |
| Intents.ComponentRows | src/analyzer.py:479-488 | the inner loop, which overwrites the mime cell in place, builds exactly one row per intent filter, in order |
| Intents.GetIntentFilterInfo | src/analyzer.py:471-490 | the table is the rows of every filtered component in order; it is logged at INFO iff non-empty |
| Intents.GroupByName | src/analyzer.py:531-535 | one group per distinct component name, no name twice; each group holds exactly that component's entries in order, tagged with the tag of its first entry |
| Intents.NamedGroup | src/analyzer.py:535-537 | the entries of a name that occurs are never empty, so the first entry the warning reads exists, and its tag is the group's tag |
| Intents.LinkNamesEmpty | src/analyzer.py:531 | there is a component name iff there is a link |
| Intents.IsDeepLinkUsed | src/analyzer.py:527-544 | true iff the link list is non-empty; one warning per component, followed by its URIs when warnings are shown |
| Intents.VerifiedHostsMember | src/analyzer.py:499 | a host is verified iff some auto-verified link names it |
| Intents.VerifiedHostsEmpty | src/analyzer.py:499 | there is no verified host iff no auto-verified link names a host |
| Intents.DeclarationLines | src/analyzer.py:515-524 | for each component: where its links are declared, then their URIs |
| Intents.ReportHost | src/analyzer.py:501-524 | per host: a warning, then the Digital Asset Links remark and the declarations when warnings are shown; the host's links, with or without autoVerify, are grouped by component |
| Intents.IsAppLinkUsed | src/analyzer.py:492-525 | the result is the number of distinct verified hosts; there is exactly one report per verified host; each report groups exactly the links naming that host, one group per component |
| Intents.DeepLinesQuiet | src/analyzer.py:537-543 | the deep-link report holds no critical record |
| Intents.HostLinesQuiet | src/analyzer.py:506-524 | the app-link report holds no critical record |
| Intents.IntentLinesQuiet | src/analyzer.py:546-552 | for every choice of groups and reports, the intent-filter output holds no critical record |
| Intents.AnalyzeIntentFilters | src/analyzer.py:546-552 | the output is the intent-filter table record, then the deep-link report, then the app-link report exactly when there is a deep link, for some grouping by component name and some report per verified host as the set iterations choose (IntentChoices); the app-link count is the number of verified hosts; nothing is critical |
| Engine.CheckForFirebaseURL | src/analyzer.py:563-572 | one INFO record per URL found, in order |
| Engine.FirebaseLinesContents | src/analyzer.py:569-572 | a URL is logged iff it was found; there is one record per URL; all are INFO |
| Engine.RunAppChecks | src/analyzer.py:586-589 | the output is the showApkInfo, analyzeRequiredPerms, analyzeCustomPerms and analyzeBackupFeatures records, in that order, each as that check specifies; the SDK, permission and backup results; the output holds a critical record iff some custom permission is exploitable |
| Engine.RunNetworkChecks | src/analyzer.py:590-592 | the output is the getNetworkConfigFile, isDebuggable and isCleartextTrafficAllowed records, in that order; the network-configuration, debug and cleartext results; the output holds a critical record iff the application is debuggable and ships the Flutter kernel blob |
| Engine.RunComponentChecks | src/analyzer.py:593-597 | the output is the getExportedComponents, analyzeIntentFilters, analyzeExportedComponent, analyzeUnexportedProviders and checkForFirebaseURL records, in that order; the app-link, exported-component and provider results; nothing is critical |
| Engine.RunAllTests | src/analyzer.py:584-597 | the output is the records of the twelve checks concatenated in the source's order (AppLines, NetworkLines, ComponentLines); each summary field is its check's proved result; it holds a critical record iff some custom permission is exploitable or the application is debuggable and ships the Flutter kernel blob |

## Left out

- Rendering: `termcolor` colours, `tabulate` drawing, the run banner, `printTestInfo` and `printSubTestInfo` headers, and `CustomFormatter` (src/utils.py:7-33, 55-59). Records and table rows are data.
- Message wording: the singular or plural "permission(s)" and "provider(s)" in warnings is not modelled; the records carry the counts.
- Logger threshold filtering by Python's `logging` is not applied to the returned records. Decisions the source gates on `self.logger.level` are modelled.
- `setLogLevel` and the logger wiring in `__init__` (src/analyzer.py:19-43): the threshold is an input.
- ApkInfo.ShowApkInfo: models only the SDK part. The package, version, component-count, library and feature lines come from parser data that is not part of this model. The `apksigner` subprocess (src/analyzer.py:122-129) is a foreign call.
- The dangerous permission set in src/constants.py is not part of this model; it is the `dangerous` parameter.
- `checkDigitalAssetLinks` is a network request; it becomes membership in the `assetHosts` parameter.
- Parser internals are inputs to the model, not modelled:
  - `getFullBackupContentRules`, `getDataExtractionRulesContent` and their rule tables;
  - `NetworkSecParser` and `analyseNetworkSecurityConfigFile`;
  - `searchInStrings` (the Firebase URLs are given);
  - `hasFile` (a boolean field).
- Network.IsCleartextTrafficAllowed: decides from the minimum supported SDK version only, as the code does. The docstring speaks of the target API level.
- main.py: argument parsing, APK download over ADB, the temporary directory and exit codes are plumbing. Its argument checks (main.py:20-29) restrict each version to 1..ANDROID_MAX_SDK and require min <= max. src/constants.py, which holds ANDROID_MAX_SDK, is not part of this model. The range lemmas require only `min <= max`. The checks require nothing, since the unit tests call them with a maximum of 0.
- Intents.ComponentRows: `intent_data[-1] = mt` also alters the parser's own list in place. The model builds a new row and does not capture that aliasing.
- Manifest.FilterData: every intent-filter row is assumed non-empty; the source reads its last cell unguarded.
- Python set iteration order is not modelled. Host and component groups come out in an arbitrary order, and every contract holds for every order.
- Utils.GetResourceTypeName: requires a '/' in a present value. Without one, the source's index into the split fails with an IndexError, and the model does not represent that exception.
