/**
 * The per-API-level behaviour the analyzer's rules refer to, one predicate
 * per documented threshold. A rule sees only the range [min, max] of levels
 * the application supports; the lemmas beside each rule say which levels of
 * that range its verdict speaks for.
 */
module ApiLevels {
  import opened Utils

  /** The effective value of a manifest flag: its declared value, or the default when unset. */
  function Resolve(flag: TriBool, default: bool): bool
  {
    match flag
    case True => true
    case False => false
    case Unset => default
  }

  /** `android:allowBackup` defaults to true on every level. */
  predicate AllowBackupDefault(api: int)
  {
    true
  }

  /** Auto Backup exists from API 23. */
  predicate AutoBackupAvailable(api: int)
  {
    api >= 23
  }

  /** Auto Backup data is end-to-end encrypted from API 28 (Android 9). */
  predicate BackupEncrypted(api: int)
  {
    api >= 28
  }

  /** `fullBackupContent` rules govern levels up to API 30 (Android 11). */
  predicate LegacyRulesApply(api: int)
  {
    api <= 30
  }

  /** `dataExtractionRules` govern levels from API 31 (Android 12). */
  predicate ExtractionRulesApply(api: int)
  {
    api >= 31
  }

  /** `usesCleartextTraffic` defaults to true up to API 27. */
  predicate CleartextDefault(api: int)
  {
    api <= 27
  }

  /** A network security configuration supersedes `usesCleartextTraffic` from API 24. */
  predicate NetworkConfigSupersedes(api: int)
  {
    api >= 24
  }
}
