/**
 * `analyzeExportedComponent`, `analyzeUnexportedProviders` and
 * `getExportedComponents`: which exported components can be reached
 * without a permission.
 */
module Components {
  import opened Wrappers
  import opened Seqs
  import opened Text
  import opened Findings
  import opened Manifest

  /** The columns of the permission table before empty ones are removed. */
  const PermissionHeaders: seq<string> := ["Name", "Type", "Permission", "readPermission", "writePermission"]

  /** The class name of a component: what follows the last dot. */
  function ShortName(name: string): string
  {
    AfterLast(name, '.')
  }

  /**
   * No permission guards the component: for a provider none of its three
   * permission attributes is set, for any other kind `android:permission`
   * is not.
   */
  predicate Unprotected(e: ComponentPermission)
  {
    (e.componentType != "provider" && e.permission.None?)
    || (e.componentType == "provider" && e.writePermission.None? && e.readPermission.None? && e.permission.None?)
  }

  /**
   * The components the analysis looks at: not one that declares a deep link
   * (those never carry permissions) and not one named `MainActivity` (the
   * entry point, always exported without a permission).
   */
  predicate Considered(linkNames: set<string>, e: ComponentPermission)
  {
    e.componentName !in linkNames && ShortName(e.componentName) != "MainActivity"
  }

  /** Considered and unprotected: the components the warning counts. */
  function Exposed(linkNames: set<string>): ComponentPermission -> bool
  {
    e => Considered(linkNames, e) && Unprotected(e)
  }

  /** Considered and guarded by some permission. */
  function Guarded(linkNames: set<string>): ComponentPermission -> bool
  {
    e => Considered(linkNames, e) && !Unprotected(e)
  }

  /** The table lists unprotected components up to WARNING and protected ones only at INFO. */
  function Tabled(linkNames: set<string>, level: LogLevel): ComponentPermission -> bool
  {
    e => Considered(linkNames, e) && (if Unprotected(e) then ShowsWarnings(level) else level == Info)
  }

  /** A table row: short name, type, then the three permission attributes. */
  function FullRow(e: ComponentPermission): Row
  {
    [Some(ShortName(e.componentName)), Some(e.componentType), e.permission, e.readPermission, e.writePermission]
  }

  function PermissionsOf(facts: ManifestFacts): ComponentKind -> seq<ComponentPermission>
  {
    kind => facts.ExportedPermissions(kind)
  }

  /** Every exported component's permissions, activities first, then receivers, providers and services. */
  function Candidates(facts: ManifestFacts): seq<ComponentPermission>
  {
    Flatten(Map(AnalyzedKinds, PermissionsOf(facts)))
  }

  /** The table before its empty columns are removed. */
  function TableRows(facts: ManifestFacts, level: LogLevel): seq<Row>
  {
    Map(Filter(Candidates(facts), Tabled(LinkNames(facts.universalLinks), level)), FullRow)
  }

  /** No row has a value in column `j`. */
  predicate EmptyColumn(rows: seq<Row>, j: nat)
  {
    forall i :: 0 <= i < |rows| && j < |rows[i]| ==> rows[i][j].None?
  }

  /**
   * The columns the printed table keeps: all five for an empty table,
   * otherwise name, type and permission, and each of readPermission and
   * writePermission that some row sets.
   */
  function KeptColumns(rows: seq<Row>): (cols: seq<nat>)
    ensures forall c :: 0 <= c < |cols| ==> cols[c] < 5
    ensures 3 <= |cols| <= 5 && cols[..3] == [0, 1, 2]
  {
    if |rows| == 0 then [0, 1, 2, 3, 4]
    else [0, 1, 2] + (if EmptyColumn(rows, 3) then [] else [3]) + (if EmptyColumn(rows, 4) then [] else [4])
  }

  /** The cells of `row` at the columns `cols`, in order. */
  function Project<T>(row: seq<T>, cols: seq<nat>): (r: seq<T>)
    requires forall c :: 0 <= c < |cols| ==> cols[c] < |row|
    ensures |r| == |cols|
  {
    seq(|cols|, c requires 0 <= c < |cols| => row[cols[c]])
  }

  /** Only empty columns are dropped: every value of every row is still shown. */
  lemma KeptColumnsLoseNothing(rows: seq<Row>, i: nat, j: nat)
    requires i < |rows| && j < 5 && j < |rows[i]|
    requires rows[i][j].Some?
    ensures j in KeptColumns(rows)
  {
    if j == 3 || j == 4 {
      assert !EmptyColumn(rows, j);
    }
  }

  /** A column is dropped from a non-empty table exactly when no row sets it. */
  lemma KeptColumnsExact(rows: seq<Row>, j: nat)
    requires |rows| > 0 && 3 <= j < 5
    ensures j !in KeptColumns(rows) <==> EmptyColumn(rows, j)
  {
  }

  /**
   * The pruning step of analyzeExportedComponent: when the table has rows,
   * drops the readPermission column if no row sets it, then the
   * writePermission column likewise, with their headers.
   */
  method PruneEmptyColumns(rows: seq<Row>) returns (headers: seq<string>, table: seq<Row>)
    requires forall i :: 0 <= i < |rows| ==> |rows[i]| == 5
    ensures headers == Project(PermissionHeaders, KeptColumns(rows))
    ensures |table| == |rows|
    ensures forall i :: 0 <= i < |table| ==> table[i] == Project(rows[i], KeptColumns(rows))
    ensures 3 <= |headers| <= 5 && forall i :: 0 <= i < |table| ==> |table[i]| == |headers|
  {
    headers := PermissionHeaders;
    table := rows;
    if |table| > 0 {
      var nowp := forall i :: 0 <= i < |table| ==> table[i][4].None?;
      var norp := forall i :: 0 <= i < |table| ==> table[i][3].None?;
      assert nowp == EmptyColumn(rows, 4) && norp == EmptyColumn(rows, 3);
      if norp {
        table := seq(|table|, i requires 0 <= i < |table| => table[i][..3] + table[i][4..]);
        headers := headers[..3] + headers[4..];
      }
      if nowp {
        table := seq(|table|, i requires 0 <= i < |table| && |table[i]| > 0 => table[i][..|table[i]| - 1]);
        headers := headers[..|headers| - 1];
      }
    }
  }

  /** The unprotected considered components among `seen`, counted only when warnings are shown. */
  function ExposedCount(seen: seq<ComponentPermission>, linkNames: set<string>, level: LogLevel): nat
  {
    if ShowsWarnings(level) then Count(seen, Exposed(linkNames)) else 0
  }

  /** The analyzer's result over `seen`: 1 per unprotected and, at INFO, 2 per protected component. */
  function Score(seen: seq<ComponentPermission>, linkNames: set<string>, level: LogLevel): nat
  {
    ExposedCount(seen, linkNames, level) + if level == Info then 2 * Count(seen, Guarded(linkNames)) else 0
  }

  /** The rows tabled for `seen`. */
  function TableOf(seen: seq<ComponentPermission>, linkNames: set<string>, level: LogLevel): seq<Row>
  {
    Map(Filter(seen, Tabled(linkNames, level)), FullRow)
  }

  /** One more component: how the count, the result and the table grow, branch by branch. */
  lemma ExportedStep(seen: seq<ComponentPermission>, e: ComponentPermission, linkNames: set<string>, level: LogLevel)
    ensures var next := seen + [e];
      if Considered(linkNames, e) && Unprotected(e) && ShowsWarnings(level) then
        && ExposedCount(next, linkNames, level) == ExposedCount(seen, linkNames, level) + 1
        && Score(next, linkNames, level) == Score(seen, linkNames, level) + 1
        && TableOf(next, linkNames, level) == TableOf(seen, linkNames, level) + [FullRow(e)]
      else if Considered(linkNames, e) && !Unprotected(e) && level == Info then
        && ExposedCount(next, linkNames, level) == ExposedCount(seen, linkNames, level)
        && Score(next, linkNames, level) == Score(seen, linkNames, level) + 2
        && TableOf(next, linkNames, level) == TableOf(seen, linkNames, level) + [FullRow(e)]
      else
        && ExposedCount(next, linkNames, level) == ExposedCount(seen, linkNames, level)
        && Score(next, linkNames, level) == Score(seen, linkNames, level)
        && TableOf(next, linkNames, level) == TableOf(seen, linkNames, level)
  {
    CountSnoc(seen, e, Exposed(linkNames));
    CountSnoc(seen, e, Guarded(linkNames));
    FilterSnoc(seen, e, Tabled(linkNames, level));
    MapSnoc(Filter(seen, Tabled(linkNames, level)), e, FullRow);
  }

  /**
   * The inner loop of analyzeExportedComponent over the components of one
   * kind: continues the table, the count and the result from those of the
   * components `seen` before.
   */
  method CollectKind(entries: seq<ComponentPermission>, linkNames: set<string>, level: LogLevel,
                     ghost seen: seq<ComponentPermission>, res0: nat, count0: nat, rows0: seq<Row>)
    returns (res: nat, count: nat, rows: seq<Row>)
    requires rows0 == TableOf(seen, linkNames, level)
    requires count0 == ExposedCount(seen, linkNames, level)
    requires res0 == Score(seen, linkNames, level)
    ensures rows == TableOf(seen + entries, linkNames, level)
    ensures count == ExposedCount(seen + entries, linkNames, level)
    ensures res == Score(seen + entries, linkNames, level)
  {
    res, count, rows := res0, count0, rows0;
    var j := 0;
    assert seen + entries[..j] == seen;
    while j < |entries|
      invariant 0 <= j <= |entries|
      invariant rows == TableOf(seen + entries[..j], linkNames, level)
      invariant count == ExposedCount(seen + entries[..j], linkNames, level)
      invariant res == Score(seen + entries[..j], linkNames, level)
    {
      var e := entries[j];
      assert seen + entries[..j + 1] == (seen + entries[..j]) + [e];
      ExportedStep(seen + entries[..j], e, linkNames, level);
      if e.componentName !in linkNames {
        var n := ShortName(e.componentName);
        if n != "MainActivity" {
          if Unprotected(e) {
            if ShowsWarnings(level) {
              rows := rows + [FullRow(e)];
              count := count + 1;
              res := res + 1;
            }
          } else if level == Info {
            rows := rows + [FullRow(e)];
            res := res + 2;
          }
        }
      }
      j := j + 1;
    }
    assert entries[..j] == entries;
  }

  /**
   * Collects the considered components of each analyzed kind into the
   * table (by the level rule of Tabled), counting the unprotected ones when
   * warnings are shown; the result adds 1 per unprotected and 2 per
   * protected tabled component.
   */
  method CollectPermissionRows(facts: ManifestFacts, level: LogLevel) returns (res: nat, count: nat, rows: seq<Row>)
    ensures rows == TableRows(facts, level)
    ensures count == if ShowsWarnings(level) then Count(Candidates(facts), Exposed(LinkNames(facts.universalLinks))) else 0
    ensures res == count + if level == Info then 2 * Count(Candidates(facts), Guarded(LinkNames(facts.universalLinks))) else 0
  {
    var linkNames := LinkNames(facts.universalLinks);
    ghost var groups := Map(AnalyzedKinds, PermissionsOf(facts));
    res, count, rows := 0, 0, [];
    var k := 0;
    while k < |AnalyzedKinds|
      invariant 0 <= k <= |AnalyzedKinds|
      invariant rows == TableOf(Flatten(groups[..k]), linkNames, level)
      invariant count == ExposedCount(Flatten(groups[..k]), linkNames, level)
      invariant res == Score(Flatten(groups[..k]), linkNames, level)
    {
      var entries := facts.ExportedPermissions(AnalyzedKinds[k]);
      assert groups[k] == entries;
      FlattenPrefix(groups, k);
      res, count, rows := CollectKind(entries, linkNames, level, Flatten(groups[..k]), res, count, rows);
      k := k + 1;
    }
    assert groups[..k] == groups;
  }

  /** The table analyzeExportedComponent prints: every row projected onto the columns kept for the whole table. */
  function PrunedTable(rows: seq<Row>): seq<Row>
    requires forall i :: 0 <= i < |rows| ==> |rows[i]| == 5
  {
    seq(|rows|, i requires 0 <= i < |rows| => Project(rows[i], KeptColumns(rows)))
  }

  /** What analyzeExportedComponent logs: the note and the pruned table when it has rows, then the summary warning. */
  function ExportedLines(facts: ManifestFacts, level: LogLevel): seq<Output>
  {
    var rows := TableRows(facts, level);
    var count := if ShowsWarnings(level) then Count(Candidates(facts), Exposed(LinkNames(facts.universalLinks))) else 0;
    (if |rows| > 0
     then [Log(Info, DeepLinksNotInTable),
           Print(ComponentPermissionTable(Project(PermissionHeaders, KeptColumns(rows)), PrunedTable(rows)))]
     else [])
    + (if count > 0 then [Log(Warning, UnprotectedComponents(count))] else [])
  }

  /**
   * `analyzeExportedComponent`: the table of permissions of the considered
   * exported components with its empty columns removed, printed after a
   * note when it has rows, then a warning with the number of unprotected
   * ones when there is any.
   */
  method AnalyzeExportedComponent(facts: ManifestFacts, level: LogLevel)
    returns (res: nat, count: nat, headers: seq<string>, table: seq<Row>, out: seq<Output>)
    ensures count == if ShowsWarnings(level) then Count(Candidates(facts), Exposed(LinkNames(facts.universalLinks))) else 0
    ensures res == count + if level == Info then 2 * Count(Candidates(facts), Guarded(LinkNames(facts.universalLinks))) else 0
    ensures |table| == |TableRows(facts, level)|
    ensures headers == Project(PermissionHeaders, KeptColumns(TableRows(facts, level)))
    ensures forall i :: 0 <= i < |table| ==> table[i] == Project(TableRows(facts, level)[i], KeptColumns(TableRows(facts, level)))
    ensures out == (if |table| > 0 then [Log(Info, DeepLinksNotInTable), Print(ComponentPermissionTable(headers, table))] else [])
                   + (if count > 0 then [Log(Warning, UnprotectedComponents(count))] else [])
    ensures table == PrunedTable(TableRows(facts, level))
    ensures out == ExportedLines(facts, level)
    ensures CriticalFree(out)
  {
    var rows;
    res, count, rows := CollectPermissionRows(facts, level);
    headers, table := PruneEmptyColumns(rows);
    var shown := if |table| > 0 then [Log(Info, DeepLinksNotInTable), Print(ComponentPermissionTable(headers, table))] else [];
    var summary := if count > 0 then [Log(Warning, UnprotectedComponents(count))] else [];
    out := shown + summary;
  }

  /**
   * The table's size by level: at INFO every considered component, at
   * WARNING the unprotected ones (exactly the count), at ERROR none.
   */
  lemma TableSize(facts: ManifestFacts, level: LogLevel)
    ensures var linkNames := LinkNames(facts.universalLinks);
      |TableRows(facts, level)|
      == if level == Info then Count(Candidates(facts), Exposed(linkNames)) + Count(Candidates(facts), Guarded(linkNames))
         else if level == Warning then Count(Candidates(facts), Exposed(linkNames))
         else 0
  {
    var linkNames := LinkNames(facts.universalLinks);
    var s := Candidates(facts);
    if level == Info {
      CountUnion(s, Exposed(linkNames), Guarded(linkNames), Tabled(linkNames, level));
    } else if level == Warning {
      CountSame(s, Tabled(linkNames, level), Exposed(linkNames));
    } else {
      CountSplit(s, Tabled(linkNames, level), e => true);
      CountAll(s, e => true);
    }
  }

  /** Every tabled row is either unprotected or protected, never both: the table size is the sum of the two counts. */
  lemma ResultCountsRows(facts: ManifestFacts, level: LogLevel)
    ensures var linkNames := LinkNames(facts.universalLinks);
      var rows := Filter(Candidates(facts), Tabled(linkNames, level));
      |TableRows(facts, level)| == Count(rows, Exposed(linkNames)) + Count(rows, Guarded(linkNames))
  {
    var linkNames := LinkNames(facts.universalLinks);
    var rows := Filter(Candidates(facts), Tabled(linkNames, level));
    FilterMembers(Candidates(facts), Tabled(linkNames, level));
    CountUnion(rows, Exposed(linkNames), Guarded(linkNames), e => true);
    CountAll(rows, e => true);
  }

  /** The console line listing one unexported provider. */
  function ProviderLine(name: string): Output
  {
    Print(UnexportedProvider(name))
  }

  /**
   * What analyzeUnexportedProviders reports: a warning with the number of
   * unexported providers that grant URI permissions when there is any, then
   * one line per provider, in order, when warnings are shown.
   */
  function ProviderReport(providers: seq<string>, level: LogLevel): seq<Output>
  {
    (if |providers| > 0 then [Log(Warning, UnexportedProviders(|providers|))] else [])
    + (if ShowsWarnings(level) then Map(providers, ProviderLine) else [])
  }

  /** The warning appears exactly when there is a provider, each provider is listed exactly when warnings are shown, and nothing is critical. */
  lemma ProviderReportContents(providers: seq<string>, level: LogLevel)
    ensures var out := ProviderReport(providers, level);
      && (Log(Warning, UnexportedProviders(|providers|)) in out <==> |providers| > 0)
      && (forall p :: Print(UnexportedProvider(p)) in out <==> ShowsWarnings(level) && p in providers)
      && |out| == (if |providers| > 0 then 1 else 0) + (if ShowsWarnings(level) then |providers| else 0)
      && CriticalFree(out)
  {
    var out := ProviderReport(providers, level);
    var lines := Map(providers, ProviderLine);
    forall p ensures Print(UnexportedProvider(p)) in lines <==> p in providers {
      if p in providers {
        var k :| 0 <= k < |providers| && providers[k] == p;
        assert lines[k] == Print(UnexportedProvider(p));
      }
      if Print(UnexportedProvider(p)) in lines {
        var k :| 0 <= k < |lines| && lines[k] == Print(UnexportedProvider(p));
        assert providers[k] == p;
      }
    }
    if |providers| > 0 {
      assert out[0] == Log(Warning, UnexportedProviders(|providers|));
    }
    assert forall o :: o in lines ==> o.Print?;
  }

  /** `analyzeUnexportedProviders`: the warning, then the providers one by one when warnings are shown. */
  method AnalyzeUnexportedProviders(providers: seq<string>, level: LogLevel) returns (count: nat, out: seq<Output>)
    ensures count == |providers|
    ensures out == ProviderReport(providers, level)
  {
    count := |providers|;
    out := if count > 0 then [Log(Warning, UnexportedProviders(count))] else [];
    if ShowsWarnings(level) {
      ghost var head := out;
      var i := 0;
      while i < |providers|
        invariant 0 <= i <= |providers|
        invariant out == head + Map(providers[..i], ProviderLine)
      {
        assert providers[..i + 1] == providers[..i] + [providers[i]];
        MapSnoc(providers[..i], providers[i], ProviderLine);
        out := out + [Print(UnexportedProvider(providers[i]))];
        i := i + 1;
      }
      assert providers[..i] == providers;
    }
  }

  /** The line getExportedComponents writes for one exported component of a kind. */
  function ListingLine(kind: ComponentKind): string -> Output
  {
    name => Log(Info, ExportedComponent(ShortName(name), kind.Tag()))
  }

  function KindListing(facts: ManifestFacts): ComponentKind -> seq<Output>
  {
    kind => Map(facts.ExportedNames(kind), ListingLine(kind))
  }

  /** One more component of a kind: its line is appended to those of the kind. */
  lemma ListingStep(names: seq<string>, j: nat, kind: ComponentKind)
    requires j < |names|
    ensures Map(names[..j + 1], ListingLine(kind))
         == Map(names[..j], ListingLine(kind)) + [Log(Info, ExportedComponent(ShortName(names[j]), kind.Tag()))]
  {
    assert names[..j + 1] == names[..j] + [names[j]];
    MapSnoc(names[..j], names[j], ListingLine(kind));
  }

  /** The inner loop of getExportedComponents: one line per exported component of one kind, in order. */
  method ListKind(facts: ManifestFacts, kind: ComponentKind) returns (lines: seq<Output>)
    ensures lines == KindListing(facts)(kind)
  {
    var names := facts.ExportedNames(kind);
    lines := [];
    var j := 0;
    while j < |names|
      invariant 0 <= j <= |names|
      invariant lines == Map(names[..j], ListingLine(kind))
    {
      ListingStep(names, j, kind);
      lines := lines + [Log(Info, ExportedComponent(ShortName(names[j]), kind.Tag()))];
      j := j + 1;
    }
    assert names[..j] == names;
  }

  /** `getExportedComponents`: one line per exported component, kind by kind. */
  method GetExportedComponents(facts: ManifestFacts) returns (out: seq<Output>)
    ensures out == Flatten(Map(AnalyzedKinds, KindListing(facts)))
    ensures CriticalFree(out)
  {
    ghost var groups := Map(AnalyzedKinds, KindListing(facts));
    out := [];
    var k := 0;
    while k < |AnalyzedKinds|
      invariant 0 <= k <= |AnalyzedKinds|
      invariant out == Flatten(groups[..k])
    {
      var lines := ListKind(facts, AnalyzedKinds[k]);
      FlattenPrefix(groups, k);
      out := out + lines;
      k := k + 1;
    }
    assert groups[..k] == groups;
    ListingQuiet(facts);
  }

  /** The listing is made of INFO records only. */
  lemma ListingQuiet(facts: ManifestFacts)
    ensures forall o :: o in Flatten(Map(AnalyzedKinds, KindListing(facts))) ==> o.Log? && o.level == Info
  {
    forall kind, o | kind in AnalyzedKinds && o in KindListing(facts)(kind) ensures o.Log? && o.level == Info {
      var names := facts.ExportedNames(kind);
      var k :| 0 <= k < |Map(names, ListingLine(kind))| && Map(names, ListingLine(kind))[k] == o;
    }
    FlattenMapAll(AnalyzedKinds, KindListing(facts), (o: Output) => o.Log? && o.level == Info);
  }

  /** A component of one of the analyzed kinds exported under `name`. */
  predicate ExportedAs(facts: ManifestFacts, k: int, name: string)
  {
    0 <= k < |AnalyzedKinds| && name in facts.ExportedNames(AnalyzedKinds[k])
  }

  /** Every listed line names an exported component of an analyzed kind. */
  lemma ListingSound(facts: ManifestFacts, short: string, tag: string)
    requires Log(Info, ExportedComponent(short, tag)) in Flatten(Map(AnalyzedKinds, KindListing(facts)))
    ensures exists k, name :: ExportedAs(facts, k, name) && short == ShortName(name) && tag == AnalyzedKinds[k].Tag()
  {
    var groups := Map(AnalyzedKinds, KindListing(facts));
    var line := Log(Info, ExportedComponent(short, tag));
    FlattenMember(groups, line);
    var k :| 0 <= k < |groups| && line in groups[k];
    var kind := AnalyzedKinds[k];
    var names := facts.ExportedNames(kind);
    assert groups[k] == Map(names, ListingLine(kind));
    var j :| 0 <= j < |names| && groups[k][j] == line;
    assert ListingLine(kind)(names[j]) == line;
    assert ExportedAs(facts, k, names[j]) && short == ShortName(names[j]) && tag == kind.Tag();
  }

  /** Every exported component of an analyzed kind is listed. */
  lemma ListingComplete(facts: ManifestFacts, k: int, name: string)
    requires ExportedAs(facts, k, name)
    ensures Log(Info, ExportedComponent(ShortName(name), AnalyzedKinds[k].Tag())) in Flatten(Map(AnalyzedKinds, KindListing(facts)))
  {
    var groups := Map(AnalyzedKinds, KindListing(facts));
    var names := facts.ExportedNames(AnalyzedKinds[k]);
    assert groups[k] == Map(names, ListingLine(AnalyzedKinds[k]));
    var j :| 0 <= j < |names| && names[j] == name;
    assert groups[k][j] == Log(Info, ExportedComponent(ShortName(name), AnalyzedKinds[k].Tag()));
    MemberFlatten(groups, k, groups[k][j]);
  }
}
