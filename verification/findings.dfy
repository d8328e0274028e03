/**
 * What the analyzer hands to its logger and to the console, as data: one
 * `Output` per `self.logger.<level>(...)` call (`Log`) or `print(...)` call
 * (`Print`). Colours, wording and table drawing are the reporter's business.
 */
module Findings {
  import opened Wrappers

  /** Python logging levels, with the numeric values the analyzer compares. */
  datatype Level = Info | Warning | Error | Critical
  {
    function Value(): nat
    {
      match this
      case Info => 20
      case Warning => 30
      case Error => 40
      case Critical => 50
    }
  }

  /** A threshold `setLogLevel` installs: INFO (0), WARNING (1) or ERROR (2). */
  type LogLevel = l: Level | l != Critical witness Info

  /** `self.logger.level <= logging.WARNING`. */
  predicate ShowsWarnings(level: LogLevel)
  {
    level.Value() <= Warning.Value()
  }

  /** The end-to-end encryption remark attached to an enabled auto backup. */
  datatype Encryption = Encrypted | NotAvailable | FromApi28

  /** A table row; `None` cells are Python `None` values. */
  type Row = seq<Option<string>>

  datatype Event =
    // showApkInfo
    | MinSdkVersion(args: int, mismatch: Option<int>)
    | MaxSdkVersion(args: int, mismatch: Option<int>)
    | MaxSdkDeclared
    // analyzeRequiredPerms
    | Permission(name: string)
    | DangerousPermission(name: string)
    | DangerousPermissions(count: nat)
    // analyzeCustomPerms
    | CustomPermissionTable(rows: seq<Row>)
    | ExploitableCustomPermissions(count: nat)
    // backup
    | AdbBackup(allowed: bool)
    | AutoBackup(encryption: Option<Encryption>)
    | LegacyBackupRules(file: string)
    | NoLegacyBackupRules(minSdk: int)
    | DataExtractionRules(file: string)
    | NoDataExtractionRules(maxSdk: int)
    | OwnBackupAgent(className: string)
    | NoBackupAgent
    // network security configuration, debug mode, cleartext traffic
    | NetworkSecurityConfig(file: string)
    | NoNetworkSecurityConfig
    | Debuggable
    | FlutterKernelBlob(path: string)
    | NotDebuggable
    | DeferredToNetworkSecurityConfig
    | CleartextTraffic(allowed: bool)
    // components
    | ExportedComponent(name: string, kind: string)
    | DeepLinksNotInTable
    | ComponentPermissionTable(headers: seq<string>, rows: seq<Row>)
    | UnprotectedComponents(count: nat)
    | UnexportedProviders(count: nat)
    | UnexportedProvider(name: string)
    // intent filters and links
    | IntentFilterTable(filterRows: seq<seq<string>>)
    | DeepLink(tag: string, name: string)
    | AppLink(host: string)
    | AssetLinks(host: string, found: bool)
    | DeclaredIn(tag: string, name: string)
    | Uri(uri: string)
    // checkForFirebaseURL
    | FirebaseUrl(url: string)

  datatype Output = Log(level: Level, event: Event) | Print(event: Event)

  /** What a check returns, with the records it emits on the way. */
  datatype Checked<T> = Checked(value: T, out: seq<Output>)

  /** A record handed to `logger.critical`. */
  predicate IsCritical(o: Output)
  {
    o.Log? && o.level == Critical
  }

  /** No record of `out` is critical. */
  predicate CriticalFree(out: seq<Output>)
  {
    forall o :: o in out ==> !IsCritical(o)
  }

  /** Two runs of records put together hold a critical record exactly when one of them does. */
  lemma CriticalFreeConcat(a: seq<Output>, b: seq<Output>)
    ensures CriticalFree(a + b) <==> CriticalFree(a) && CriticalFree(b)
  {
    if !CriticalFree(a) {
      var o :| o in a && IsCritical(o);
      assert o in a + b;
    }
    if !CriticalFree(b) {
      var o :| o in b && IsCritical(o);
      assert o in a + b;
    }
  }
}
