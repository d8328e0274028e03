/**
 * The inputs of the analyzer: everything it asks its parser for, as one
 * immutable record, and the caller's arguments.
 */
module Manifest {
  import opened Wrappers
  import opened Utils
  import opened Findings
  import opened Seqs

  datatype ComponentKind = Activity | ActivityAlias | Receiver | Provider | Service
  {
    /** The manifest tag of the kind. */
    function Tag(): string
    {
      match this
      case Activity => "activity"
      case ActivityAlias => "activity-alias"
      case Receiver => "receiver"
      case Provider => "provider"
      case Service => "service"
    }
  }

  /** The kinds whose exported components are listed and checked, in the analyzer's order. */
  const AnalyzedKinds: seq<ComponentKind> := [Activity, Receiver, Provider, Service]

  /** A `<permission>` the application declares itself. */
  datatype CustomPermission = CustomPermission(name: string, protectionLevel: Option<string>)

  /** The permission attributes of one exported component. */
  datatype ComponentPermission = ComponentPermission(
    componentName: string,
    componentType: string,
    permission: Option<string>,
    readPermission: Option<string>,
    writePermission: Option<string>)

  /** One VIEW + BROWSABLE intent filter with at least one URI (a deep link). */
  datatype UniversalLink = UniversalLink(
    name: string,
    tag: string,
    autoVerify: bool,
    hosts: seq<string>,
    uris: seq<string>)

  function LinkName(l: UniversalLink): string
  {
    l.name
  }

  /** The names of the components declaring the given deep links. */
  function LinkNames(links: seq<UniversalLink>): set<string>
  {
    Image(links, LinkName)
  }

  /**
   * One intent filter of a component as the parser lists it: action,
   * category and link cells, always ending with the mime type.
   */
  type FilterData = d: seq<string> | |d| > 0 witness [""]

  /** A component that declares intent filters, with its manifest tag. */
  datatype FilteredComponent = FilteredComponent(name: string, tag: string)

  datatype ManifestFacts = ManifestFacts(
    usesSdkMin: int,            // uses-sdk minSdkVersion, 0 when not declared
    usesSdkMax: int,            // uses-sdk maxSdkVersion, 0 when not declared
    requiredPermissions: seq<string>,
    customPermissions: seq<CustomPermission>,
    allowBackup: TriBool,
    backupAgent: Option<string>,
    fullBackupContent: Option<string>,
    dataExtractionRules: Option<string>,
    networkSecurityConfig: Option<string>,
    usesCleartextTraffic: TriBool,
    debuggable: TriBool,
    hasFlutterKernelBlob: bool,  // the package holds assets/flutter_assets/kernel_blob.bin
    exportedComponents: map<ComponentKind, seq<string>>,
    exportedPermissions: map<ComponentKind, seq<ComponentPermission>>,
    unexportedProviders: seq<string>,  // unexported providers with grantUriPermissions set
    filteredComponents: seq<FilteredComponent>,
    intentFilters: map<string, seq<FilterData>>,  // per component, one row per intent filter
    universalLinks: seq<UniversalLink>,
    firebaseUrls: seq<string>)
  {
    /** `parser.exportedComponents(kind)`; an absent kind has none. */
    function ExportedNames(kind: ComponentKind): seq<string>
    {
      if kind in exportedComponents then exportedComponents[kind] else []
    }

    /** `parser.getExportedComponentPermission(kind)`. */
    function ExportedPermissions(kind: ComponentKind): seq<ComponentPermission>
    {
      if kind in exportedPermissions then exportedPermissions[kind] else []
    }

    /** `parser.getIntentFilters(name)`. */
    function IntentFilters(name: string): seq<FilterData>
    {
      if name in intentFilters then intentFilters[name] else []
    }
  }

  /** The command-line arguments the analyzer reads. */
  datatype Args = Args(minSdkVersion: int, maxSdkVersion: int, logLevel: LogLevel)
}
