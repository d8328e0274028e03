/** `analyzeRequiredPerms` and `analyzeCustomPerms`: counting risky permissions. */
module Permissions {
  import opened Wrappers
  import opened Seqs
  import opened Findings

  import opened Manifest

  /** Membership in the reference set of dangerous builtin permissions. */
  function InSet(dangerous: set<string>): string -> bool
  {
    perm => perm in dangerous
  }

  /** What analyzeRequiredPerms reports about one required permission. */
  function PermissionLine(dangerous: set<string>, level: LogLevel): string -> seq<Output>
  {
    perm =>
      if perm in dangerous then (if ShowsWarnings(level) then [Print(DangerousPermission(perm))] else [])
      else [Log(Info, Permission(perm))]
  }

  /** Whether an output is a record at WARNING level. */
  predicate IsWarning(o: Output)
  {
    o.Log? && o.level == Warning
  }

  /** What analyzeRequiredPerms logs: a line per required permission, then the summary warning if any is dangerous. */
  function RequiredLines(perms: seq<string>, dangerous: set<string>, level: LogLevel): seq<Output>
  {
    var count := Count(perms, InSet(dangerous));
    Flatten(Map(perms, PermissionLine(dangerous, level)))
    + (if count > 0 then [Log(Warning, DangerousPermissions(count))] else [])
  }

  /**
   * Walks the required permissions, counting (with multiplicity) those in the
   * dangerous set, and warns once at the end when there is any.
   */
  method AnalyzeRequiredPerms(perms: seq<string>, dangerous: set<string>, level: LogLevel)
    returns (count: nat, out: seq<Output>)
    ensures count == Count(perms, InSet(dangerous)) && count <= |perms|
    ensures out == Flatten(Map(perms, PermissionLine(dangerous, level)))
                   + (if count > 0 then [Log(Warning, DangerousPermissions(count))] else [])
    ensures out == RequiredLines(perms, dangerous, level)
    ensures (exists o :: o in out && IsWarning(o)) <==> count > 0
    ensures CriticalFree(out)
  {
    count := 0;
    out := [];
    var i := 0;
    while i < |perms|
      invariant 0 <= i <= |perms|
      invariant count == Count(perms[..i], InSet(dangerous))
      invariant out == Flatten(Map(perms[..i], PermissionLine(dangerous, level)))
    {
      var perm := perms[i];
      assert perms[..i + 1] == perms[..i] + [perm];
      RequiredStep(perms[..i], perm, dangerous, level);
      if perm in dangerous {
        if ShowsWarnings(level) {
          out := out + [Print(DangerousPermission(perm))];
        }
        count := count + 1;
      } else {
        out := out + [Log(Info, Permission(perm))];
      }
      i := i + 1;
    }
    assert perms[..i] == perms;
    var lines := out;
    NoWarningPerPermission(perms, dangerous, level);
    if count > 0 {
      out := out + [Log(Warning, DangerousPermissions(count))];
      assert out[|out| - 1] in out;
    } else {
      assert out == lines;
    }
  }

  /** One more required permission: how the count and the lines grow. */
  lemma RequiredStep(done: seq<string>, perm: string, dangerous: set<string>, level: LogLevel)
    ensures Count(done + [perm], InSet(dangerous)) == Count(done, InSet(dangerous)) + (if perm in dangerous then 1 else 0)
    ensures Flatten(Map(done + [perm], PermissionLine(dangerous, level)))
         == Flatten(Map(done, PermissionLine(dangerous, level))) + PermissionLine(dangerous, level)(perm)
  {
    CountSnoc(done, perm, InSet(dangerous));
    MapSnoc(done, perm, PermissionLine(dangerous, level));
    FlattenSnoc(Map(done, PermissionLine(dangerous, level)), PermissionLine(dangerous, level)(perm));
  }

  /** The per-permission lines are never warnings, nor critical: only the summary is a warning. */
  lemma NoWarningPerPermission(perms: seq<string>, dangerous: set<string>, level: LogLevel)
    ensures forall o :: o in Flatten(Map(perms, PermissionLine(dangerous, level))) ==> !IsWarning(o) && !IsCritical(o)
  {
    var lines := Map(perms, PermissionLine(dangerous, level));
    forall o | o in Flatten(lines) ensures !IsWarning(o) && !IsCritical(o) {
      FlattenMember(lines, o);
    }
  }

  /** A custom permission another application can obtain by asking for it. */
  predicate Exploitable(c: CustomPermission)
  {
    c.protectionLevel == Some("normal") || c.protectionLevel == Some("dangerous")
  }

  function IsExploitable(): CustomPermission -> bool
  {
    c => Exploitable(c)
  }

  /** The count is positive exactly when some custom permission is exploitable. */
  lemma {:induction false} ExploitableCount(customs: seq<CustomPermission>)
    ensures Count(customs, IsExploitable()) > 0 <==> exists c :: c in customs && Exploitable(c)
  {
    if customs != [] {
      var n := |customs| - 1;
      ExploitableCount(customs[..n]);
      if exists c :: c in customs[..n] && Exploitable(c) {
        var c :| c in customs[..n] && Exploitable(c);
        assert c in customs;
      }
      if exists c :: c in customs && Exploitable(c) {
        var c :| c in customs && Exploitable(c);
        if c != customs[n] {
          assert c in customs[..n];
        }
      }
    }
  }

  /** The custom permissions the table lists: the exploitable ones, and all of them at INFO. */
  function Listed(level: LogLevel): CustomPermission -> bool
  {
    c => Exploitable(c) || level.Value() <= Info.Value()
  }

  /** The table holds a row per custom permission at INFO, otherwise one per exploitable permission. */
  lemma CustomTableSize(customs: seq<CustomPermission>, level: LogLevel)
    ensures |Map(Filter(customs, Listed(level)), CustomRow)|
         == if level == Info then |customs| else Count(customs, IsExploitable())
  {
    if level == Info {
      CountAll(customs, Listed(level));
    } else {
      CountSame(customs, Listed(level), IsExploitable());
    }
  }

  function CustomRow(c: CustomPermission): Row
  {
    [Some(c.name), c.protectionLevel]
  }

  /** One more custom permission: how the count and the table grow. */
  lemma CustomStep(done: seq<CustomPermission>, c: CustomPermission, level: LogLevel)
    ensures Count(done + [c], IsExploitable()) == Count(done, IsExploitable()) + (if Exploitable(c) then 1 else 0)
    ensures Map(Filter(done + [c], Listed(level)), CustomRow)
         == Map(Filter(done, Listed(level)), CustomRow)
            + (if Exploitable(c) || level.Value() <= Info.Value() then [CustomRow(c)] else [])
  {
    CountSnoc(done, c, IsExploitable());
    FilterSnoc(done, c, Listed(level));
    MapSnoc(Filter(done, Listed(level)), c, CustomRow);
  }

  /** What analyzeCustomPerms logs: the table when it has rows, then the critical summary if any permission is exploitable. */
  function CustomLines(customs: seq<CustomPermission>, level: LogLevel): seq<Output>
  {
    var table := Map(Filter(customs, Listed(level)), CustomRow);
    var count := Count(customs, IsExploitable());
    (if |table| > 0 then [Print(CustomPermissionTable(table))] else [])
    + (if count > 0 then [Log(Critical, ExploitableCustomPermissions(count))] else [])
  }

  /**
   * Counts the custom permissions whose protectionLevel is exactly "normal" or
   * "dangerous", tabulates them (and, at INFO, the others) and raises a
   * critical record when there is any.
   */
  method AnalyzeCustomPerms(customs: seq<CustomPermission>, level: LogLevel)
    returns (count: nat, table: seq<Row>, out: seq<Output>)
    ensures count == Count(customs, IsExploitable()) && count <= |customs|
    ensures table == Map(Filter(customs, Listed(level)), CustomRow)
    ensures out == (if |table| > 0 then [Print(CustomPermissionTable(table))] else [])
                   + (if count > 0 then [Log(Critical, ExploitableCustomPermissions(count))] else [])
    ensures out == CustomLines(customs, level)
    ensures CriticalFree(out) <==> count == 0
  {
    count := 0;
    table := [];
    var i := 0;
    while i < |customs|
      invariant 0 <= i <= |customs|
      invariant count == Count(customs[..i], IsExploitable())
      invariant table == Map(Filter(customs[..i], Listed(level)), CustomRow)
    {
      var c := customs[i];
      assert customs[..i + 1] == customs[..i] + [c];
      CustomStep(customs[..i], c, level);
      if c.protectionLevel == Some("normal") || c.protectionLevel == Some("dangerous") {
        table := table + [CustomRow(c)];
        count := count + 1;
      } else if level.Value() <= Info.Value() {
        table := table + [CustomRow(c)];
      }
      i := i + 1;
    }
    assert customs[..i] == customs;
    var tableLines := if |table| > 0 then [Print(CustomPermissionTable(table))] else [];
    var summary := if count > 0 then [Log(Critical, ExploitableCustomPermissions(count))] else [];
    out := tableLines + summary;
    if count > 0 {
      assert IsCritical(out[|out| - 1]);
    }
  }
}
