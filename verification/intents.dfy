/**
 * `getIntentFilterInfo`, `isDeepLinkUsed`, `isAppLinkUsed` and
 * `analyzeIntentFilters`: the intent filters of exported components and
 * the deep links and app links they declare.
 */
module Intents {
  import opened Wrappers
  import opened Seqs
  import opened Text
  import opened Findings
  import opened Manifest
  import Components

  /** Mime types longer than this are printed over several lines. */
  const MimeWrapWidth: nat := 40

  /** A mime type as the intent-filter table shows it: long ones get a line break after each '/'. */
  function WrapMime(mt: string): (w: string)
    ensures |mt| <= MimeWrapWidth ==> w == mt
    ensures |mt| > MimeWrapWidth ==> w == Replace(mt, '/', "/\n")
  {
    if |mt| > MimeWrapWidth then
      JoinSplit(mt, '/', "/\n");
      Join(Split(mt, '/'), "/\n")
    else mt
  }

  /** `s` with the line break after every '/' taken out again. */
  function Unwrap(s: string): string
  {
    if |s| >= 2 && s[0] == '/' && s[1] == '\n' then "/" + Unwrap(s[2..])
    else if s == [] then []
    else [s[0]] + Unwrap(s[1..])
  }

  /** Wrapping a long mime type only adds line breaks: taking them out restores it. */
  lemma {:induction false} UnwrapReplace(s: string)
    ensures Unwrap(Replace(s, '/', "/\n")) == s
    ensures |Replace(s, '/', "/\n")| == |s| + Occurrences(s, '/')
  {
    if s != [] {
      UnwrapReplace(s[1..]);
      var rest := Replace(s[1..], '/', "/\n");
      if s[0] == '/' {
        assert Replace(s, '/', "/\n") == "/\n" + rest;
        assert ("/\n" + rest)[2..] == rest;
      } else {
        assert Replace(s, '/', "/\n") == [s[0]] + rest;
        assert ([s[0]] + rest)[1..] == rest;
      }
    }
  }

  /** A wrapped long mime type holds the same text. */
  lemma WrapMimeRoundTrip(mt: string)
    requires |mt| > MimeWrapWidth
    ensures Unwrap(WrapMime(mt)) == mt
    ensures |WrapMime(mt)| == |mt| + Occurrences(mt, '/')
  {
    UnwrapReplace(mt);
  }

  /** The first cell of a row: the component's class name and, on a second line, its tag in parentheses. */
  function RowLabel(c: FilteredComponent): string
  {
    Components.ShortName(c.name) + "\n(" + c.tag + ")"
  }

  /** A table row: the label, then the intent filter's cells with its mime type wrapped. */
  function FilterRow(c: FilteredComponent): FilterData -> seq<string>
  {
    (d: FilterData) => [RowLabel(c)] + d[..|d| - 1] + [WrapMime(d[|d| - 1])]
  }

  function ComponentFilterRows(facts: ManifestFacts): FilteredComponent -> seq<seq<string>>
  {
    (c: FilteredComponent) => Map(facts.IntentFilters(c.name), FilterRow(c))
  }

  /** Each row keeps the filter's cells after its label; only the last, the mime type, may be wrapped. */
  lemma FilterRowShape(c: FilteredComponent, d: FilterData)
    ensures var row := FilterRow(c)(d);
      && |row| == |d| + 1
      && row[0] == RowLabel(c)
      && row[1..|d|] == d[..|d| - 1]
      && (|d[|d| - 1]| <= MimeWrapWidth ==> row[1..] == d)
      && (|d[|d| - 1]| > MimeWrapWidth ==> Unwrap(row[|d|]) == d[|d| - 1])
  {
    var row := FilterRow(c)(d);
    if |d[|d| - 1]| > MimeWrapWidth {
      WrapMimeRoundTrip(d[|d| - 1]);
    } else {
      assert d == d[..|d| - 1] + [d[|d| - 1]];
    }
  }

  /** The row built by overwriting the mime cell of a filter is the filter's table row. */
  lemma FilterRowBuilt(c: FilteredComponent, d: FilterData, data: seq<string>, row: seq<string>)
    requires var mt := d[|d| - 1];
      data == if |mt| > MimeWrapWidth then d[|d| - 1 := WrapMime(mt)] else d
    requires row == [RowLabel(c)] + data
    ensures row == FilterRow(c)(d)
  {
    var w := WrapMime(d[|d| - 1]);
    assert data == d[..|d| - 1] + [w];
    assert FilterRow(c)(d) == [RowLabel(c)] + d[..|d| - 1] + [w];
  }

  /** One more intent filter of a component: its row is appended. */
  lemma FilterRowsStep(c: FilteredComponent, filters: seq<FilterData>, j: nat)
    requires j < |filters|
    ensures Map(filters[..j + 1], FilterRow(c)) == Map(filters[..j], FilterRow(c)) + [FilterRow(c)(filters[j])]
  {
    assert filters[..j + 1] == filters[..j] + [filters[j]];
    MapSnoc(filters[..j], filters[j], FilterRow(c));
  }

  /** The inner loop of getIntentFilterInfo: the rows of one component's intent filters. */
  method ComponentRows(c: FilteredComponent, filters: seq<FilterData>) returns (rows: seq<seq<string>>)
    ensures rows == Map(filters, FilterRow(c))
  {
    rows := [];
    var j := 0;
    while j < |filters|
      invariant 0 <= j <= |filters|
      invariant rows == Map(filters[..j], FilterRow(c))
    {
      var intentData := filters[j];
      var row := [Components.ShortName(c.name) + "\n(" + c.tag + ")"];
      var mt := intentData[|intentData| - 1];
      if |mt| > MimeWrapWidth {
        mt := WrapMime(mt);
        intentData := intentData[|intentData| - 1 := mt];
      }
      row := row + intentData;
      FilterRowBuilt(c, filters[j], intentData, row);
      FilterRowsStep(c, filters, j);
      rows := rows + [row];
      j := j + 1;
    }
    assert filters[..j] == filters;
  }

  /** One more component: its rows are appended to the table. */
  lemma FilterTableStep(facts: ManifestFacts, k: nat, table: seq<seq<string>>, rows: seq<seq<string>>)
    requires k < |facts.filteredComponents|
    requires table == Flatten(Map(facts.filteredComponents[..k], ComponentFilterRows(facts)))
    requires var c := facts.filteredComponents[k];
      rows == Map(facts.IntentFilters(c.name), FilterRow(c))
    ensures table + rows == Flatten(Map(facts.filteredComponents[..k + 1], ComponentFilterRows(facts)))
  {
    var f := ComponentFilterRows(facts);
    assert f(facts.filteredComponents[k]) == rows;
    FlattenMapPrefix(facts.filteredComponents, k, f);
  }

  /**
   * `getIntentFilterInfo`: one row per intent filter of each component that
   * declares some, in order, logged as one table when there is any.
   */
  method GetIntentFilterInfo(facts: ManifestFacts) returns (table: seq<seq<string>>, out: seq<Output>)
    ensures table == Flatten(Map(facts.filteredComponents, ComponentFilterRows(facts)))
    ensures out == if |table| > 0 then [Log(Info, IntentFilterTable(table))] else []
  {
    var components := facts.filteredComponents;
    table := [];
    var k := 0;
    while k < |components|
      invariant 0 <= k <= |components|
      invariant table == Flatten(Map(components[..k], ComponentFilterRows(facts)))
    {
      var c := components[k];
      var rows := ComponentRows(c, facts.IntentFilters(c.name));
      FilterTableStep(facts, k, table, rows);
      table := table + rows;
      k := k + 1;
    }
    assert components[..k] == components;
    out := if |table| > 0 then [Log(Info, IntentFilterTable(table))] else [];
  }

  /** The deep links of one component: its name, the tag of its first one, and all of them in order. */
  datatype LinkGroup = LinkGroup(name: string, tag: string, entries: seq<UniversalLink>)

  function Named(name: string): UniversalLink -> bool
  {
    (l: UniversalLink) => l.name == name
  }

  /** The group of `entries` declared by the component `g.name`. */
  predicate GroupOf(entries: seq<UniversalLink>, g: LinkGroup)
  {
    && g.entries == Filter(entries, Named(g.name))
    && |g.entries| > 0
    && g.tag == g.entries[0].tag
  }

  function GroupName(g: LinkGroup): string
  {
    g.name
  }

  /** `groups` partitions `entries` by component name: one group per distinct name, in some order. */
  predicate GroupedByName(entries: seq<UniversalLink>, groups: seq<LinkGroup>)
  {
    && Image(groups, GroupName) == LinkNames(entries)
    && DistinctBy(groups, GroupName)
    && (forall g :: g in groups ==> GroupOf(entries, g))
  }

  /** The groups built so far are those of the names in `done`, one each. */
  predicate GroupsOf(entries: seq<UniversalLink>, groups: seq<LinkGroup>, done: set<string>)
  {
    && Image(groups, GroupName) == done
    && DistinctBy(groups, GroupName)
    && (forall g :: g in groups ==> GroupOf(entries, g))
  }

  /** The group of one more name extends the groups built so far. */
  lemma GroupStep(entries: seq<UniversalLink>, groups: seq<LinkGroup>, done: set<string>, g: LinkGroup)
    requires GroupsOf(entries, groups, done)
    requires g.name !in done && GroupOf(entries, g)
    ensures GroupsOf(entries, groups + [g], done + {g.name})
  {
    var next := groups + [g];
    ImageSnoc(groups, g, GroupName);
    forall i, j | 0 <= i < j < |next| ensures GroupName(next[i]) != GroupName(next[j]) {
      if j == |groups| {
        ImageMember(groups, GroupName, g.name);
      }
    }
  }

  /** The group of a name some entry carries. */
  lemma NamedGroup(entries: seq<UniversalLink>, name: string)
    requires name in LinkNames(entries)
    ensures var group := Filter(entries, Named(name)); |group| > 0 && GroupOf(entries, LinkGroup(name, group[0].tag, group))
  {
    ImageMember(entries, LinkName, name);
    var i :| 0 <= i < |entries| && LinkName(entries[i]) == name;
    CountPositive(entries, Named(name), entries[i]);
  }

  /**
   * Groups the entries by component name: the loop over the distinct names
   * (a Python set, so in no particular order) that collects each name's
   * entries.
   */
  method GroupByName(entries: seq<UniversalLink>) returns (groups: seq<LinkGroup>)
    ensures GroupedByName(entries, groups)
    ensures |groups| == |LinkNames(entries)|
  {
    var names := LinkNames(entries);
    groups := [];
    ghost var done: set<string> := {};
    while names != {}
      invariant names !! done && names + done == LinkNames(entries)
      invariant GroupsOf(entries, groups, done)
      decreases |names|
    {
      var name :| name in names;
      var group := Filter(entries, Named(name));
      NamedGroup(entries, name);
      GroupStep(entries, groups, done, LinkGroup(name, group[0].tag, group));
      groups := groups + [LinkGroup(name, group[0].tag, group)];
      names := names - {name};
      done := done + {name};
    }
    ImageCard(groups, GroupName);
  }

  /** The console line of one deep-link URI. */
  function UriLine(uri: string): Output
  {
    Print(Uri(uri))
  }

  function UriLines(l: UniversalLink): seq<Output>
  {
    Map(l.uris, UriLine)
  }

  /** What isDeepLinkUsed reports for one component: a warning, then its URIs when warnings are shown. */
  function DeepLinkLines(level: LogLevel): LinkGroup -> seq<Output>
  {
    (g: LinkGroup) => [Log(Warning, DeepLink(g.tag, Components.ShortName(g.name)))]
         + if ShowsWarnings(level) then Flatten(Map(g.entries, UriLines)) else []
  }

  /** Some link is declared exactly when some component name is. */
  lemma LinkNamesEmpty(links: seq<UniversalLink>)
    ensures LinkNames(links) == {} <==> links == []
  {
    if links != [] {
      ImageMember(links, LinkName, links[0].name);
    }
  }

  /**
   * `isDeepLinkUsed`: groups the deep links by component, reports each
   * group, and answers whether there is any deep link at all.
   */
  method IsDeepLinkUsed(links: seq<UniversalLink>, level: LogLevel) returns (used: bool, groups: seq<LinkGroup>, out: seq<Output>)
    ensures used <==> |links| > 0
    ensures GroupedByName(links, groups)
    ensures out == Flatten(Map(groups, DeepLinkLines(level)))
  {
    groups := GroupByName(links);
    out := [];
    var i := 0;
    while i < |groups|
      invariant 0 <= i <= |groups|
      invariant out == Flatten(Map(groups[..i], DeepLinkLines(level)))
    {
      assert groups[..i + 1] == groups[..i] + [groups[i]];
      MapSnoc(groups[..i], groups[i], DeepLinkLines(level));
      FlattenSnoc(Map(groups[..i], DeepLinkLines(level)), DeepLinkLines(level)(groups[i]));
      out := out + DeepLinkLines(level)(groups[i]);
      i := i + 1;
    }
    assert groups[..i] == groups;
    LinkNamesEmpty(links);
    used := |LinkNames(links)| > 0;
  }

  /** The hosts of the links whose intent filter sets `android:autoVerify`. */
  function VerifiedHosts(links: seq<UniversalLink>): set<string>
  {
    if links == [] then {}
    else
      var l := links[|links| - 1];
      VerifiedHosts(links[..|links| - 1]) + if l.autoVerify then set h | h in l.hosts else {}
  }

  /** A verified host is a host of some auto-verified link, and every such host is verified. */
  lemma {:induction false} VerifiedHostsMember(links: seq<UniversalLink>, h: string)
    ensures h in VerifiedHosts(links) <==> exists i :: 0 <= i < |links| && links[i].autoVerify && h in links[i].hosts
  {
    if links != [] {
      var n := |links| - 1;
      VerifiedHostsMember(links[..n], h);
      if exists i :: 0 <= i < n && links[i].autoVerify && h in links[i].hosts {
        var i :| 0 <= i < n && links[i].autoVerify && h in links[i].hosts;
        assert links[..n][i] == links[i];
      }
      if exists i :: 0 <= i < n && links[..n][i].autoVerify && h in links[..n][i].hosts {
        var i :| 0 <= i < n && links[..n][i].autoVerify && h in links[..n][i].hosts;
        assert links[..n][i] == links[i];
      }
    }
  }

  /** There are verified hosts exactly when some auto-verified link names a host. */
  lemma VerifiedHostsEmpty(links: seq<UniversalLink>)
    ensures VerifiedHosts(links) == {} <==> forall i :: 0 <= i < |links| && links[i].autoVerify ==> links[i].hosts == []
  {
    if exists i :: 0 <= i < |links| && links[i].autoVerify && links[i].hosts != [] {
      var i :| 0 <= i < |links| && links[i].autoVerify && links[i].hosts != [];
      VerifiedHostsMember(links, links[i].hosts[0]);
    }
    if VerifiedHosts(links) != {} {
      var h :| h in VerifiedHosts(links);
      VerifiedHostsMember(links, h);
    }
  }

  function HasHost(host: string): UniversalLink -> bool
  {
    (l: UniversalLink) => host in l.hosts
  }

  /** What isAppLinkUsed finds for one verified host. */
  datatype HostReport = HostReport(host: string, assetLinksFound: bool, groups: seq<LinkGroup>)

  /**
   * The report of `host`: whether its assetlinks file was found, and the
   * links naming it (whether auto-verified or not) grouped by component.
   */
  predicate ReportFor(links: seq<UniversalLink>, assetHosts: set<string>, r: HostReport)
  {
    && (r.assetLinksFound <==> r.host in assetHosts)
    && GroupedByName(Filter(links, HasHost(r.host)), r.groups)
  }

  /** The console line for one component's app links, then their URIs. */
  function GroupLines(g: LinkGroup): seq<Output>
  {
    [Print(DeclaredIn(g.tag, Components.ShortName(g.name)))] + Flatten(Map(g.entries, UriLines))
  }

  /** What isAppLinkUsed reports for one host: a warning, then the details when warnings are shown. */
  function HostLines(level: LogLevel): HostReport -> seq<Output>
  {
    (r: HostReport) => [Log(Warning, AppLink(r.host))]
         + if ShowsWarnings(level) then [Print(AssetLinks(r.host, r.assetLinksFound))] + Flatten(Map(r.groups, GroupLines)) else []
  }

  function HostOf(r: HostReport): string
  {
    r.host
  }

  /** The reports built so far are those of the hosts in `done`, one each. */
  predicate ReportsOf(links: seq<UniversalLink>, assetHosts: set<string>, reports: seq<HostReport>, done: set<string>)
  {
    && Image(reports, HostOf) == done
    && DistinctBy(reports, HostOf)
    && (forall r :: r in reports ==> ReportFor(links, assetHosts, r))
  }

  /** The report of one more host extends the reports and their lines. */
  lemma HostStep(links: seq<UniversalLink>, assetHosts: set<string>, level: LogLevel, verified: set<string>,
                 remaining: set<string>, reports: seq<HostReport>, out: seq<Output>, r: HostReport, lines: seq<Output>)
    requires ReportsOf(links, assetHosts, reports, verified - remaining) && out == Flatten(Map(reports, HostLines(level)))
    requires remaining <= verified && r.host in remaining && ReportFor(links, assetHosts, r) && lines == HostLines(level)(r)
    ensures ReportsOf(links, assetHosts, reports + [r], verified - (remaining - {r.host}))
    ensures out + lines == Flatten(Map(reports + [r], HostLines(level)))
  {
    var next := reports + [r];
    ImageSnoc(reports, r, HostOf);
    assert (verified - remaining) + {r.host} == verified - (remaining - {r.host});
    forall i, j | 0 <= i < j < |next| ensures HostOf(next[i]) != HostOf(next[j]) {
      if j == |reports| {
        ImageMember(reports, HostOf, r.host);
      }
    }
    MapSnoc(reports, r, HostLines(level));
    FlattenSnoc(Map(reports, HostLines(level)), HostLines(level)(r));
  }

  /** The innermost loops of isAppLinkUsed: per component, where its links are declared and their URIs. */
  method DeclarationLines(groups: seq<LinkGroup>) returns (lines: seq<Output>)
    ensures lines == Flatten(Map(groups, GroupLines))
  {
    lines := [];
    var i := 0;
    while i < |groups|
      invariant 0 <= i <= |groups|
      invariant lines == Flatten(Map(groups[..i], GroupLines))
    {
      assert groups[..i + 1] == groups[..i] + [groups[i]];
      MapSnoc(groups[..i], groups[i], GroupLines);
      FlattenSnoc(Map(groups[..i], GroupLines), GroupLines(groups[i]));
      lines := lines + GroupLines(groups[i]);
      i := i + 1;
    }
    assert groups[..i] == groups;
  }

  /**
   * The body of isAppLinkUsed's loop for one host: the warning, the Digital
   * Asset Links remark, then, per component whose links name the host,
   * where they are declared and their URIs.
   */
  method ReportHost(links: seq<UniversalLink>, level: LogLevel, assetHosts: set<string>, host: string)
    returns (report: HostReport, lines: seq<Output>)
    ensures report.host == host && ReportFor(links, assetHosts, report)
    ensures lines == HostLines(level)(report)
  {
    var found := host in assetHosts;
    lines := [Log(Warning, AppLink(host))];
    if ShowsWarnings(level) {
      lines := lines + [Print(AssetLinks(host, found))];
    }
    var applinks := Filter(links, HasHost(host));
    var groups := GroupByName(applinks);
    if ShowsWarnings(level) {
      var declared := DeclarationLines(groups);
      lines := lines + declared;
    }
    report := HostReport(host, found, groups);
  }

  /**
   * `isAppLinkUsed`: one report per distinct verified host (a Python set,
   * so in no particular order), and the number of such hosts. Whether a
   * host serves its Digital Asset Links file is the set `assetHosts`.
   */
  method IsAppLinkUsed(links: seq<UniversalLink>, level: LogLevel, assetHosts: set<string>)
    returns (n: nat, reports: seq<HostReport>, out: seq<Output>)
    ensures n == |VerifiedHosts(links)| == |reports|
    ensures Image(reports, HostOf) == VerifiedHosts(links)
    ensures DistinctBy(reports, HostOf)
    ensures forall r :: r in reports ==> ReportFor(links, assetHosts, r)
    ensures out == Flatten(Map(reports, HostLines(level)))
  {
    var verified := VerifiedHosts(links);
    var remaining := verified;
    reports := [];
    out := [];
    while remaining != {}
      invariant remaining <= verified
      invariant ReportsOf(links, assetHosts, reports, verified - remaining)
      invariant out == Flatten(Map(reports, HostLines(level)))
      decreases |remaining|
    {
      var host :| host in remaining;
      var report, lines := ReportHost(links, level, assetHosts, host);
      HostStep(links, assetHosts, level, verified, remaining, reports, out, report, lines);
      reports := reports + [report];
      out := out + lines;
      remaining := remaining - {host};
    }
    assert verified - remaining == verified;
    ImageCard(reports, HostOf);
    n := |verified|;
  }

  /** The URI lines of some links hold no critical record. */
  lemma UriLinesQuiet(entries: seq<UniversalLink>)
    ensures CriticalFree(Flatten(Map(entries, UriLines)))
  {
    forall l, o | l in entries && o in UriLines(l) ensures !IsCritical(o) {
      var k :| 0 <= k < |UriLines(l)| && UriLines(l)[k] == o;
    }
    FlattenMapAll(entries, UriLines, (o: Output) => !IsCritical(o));
  }

  /** What isDeepLinkUsed reports holds no critical record. */
  lemma DeepLinesQuiet(groups: seq<LinkGroup>, level: LogLevel)
    ensures CriticalFree(Flatten(Map(groups, DeepLinkLines(level))))
  {
    forall g, o | g in groups && o in DeepLinkLines(level)(g) ensures !IsCritical(o) {
      UriLinesQuiet(g.entries);
    }
    FlattenMapAll(groups, DeepLinkLines(level), (o: Output) => !IsCritical(o));
  }

  /** What isAppLinkUsed reports holds no critical record. */
  lemma HostLinesQuiet(reports: seq<HostReport>, level: LogLevel)
    ensures CriticalFree(Flatten(Map(reports, HostLines(level))))
  {
    forall r, o | r in reports && o in HostLines(level)(r) ensures !IsCritical(o) {
      forall g, o' | g in r.groups && o' in GroupLines(g) ensures !IsCritical(o') {
        UriLinesQuiet(g.entries);
      }
      FlattenMapAll(r.groups, GroupLines, (o: Output) => !IsCritical(o));
    }
    FlattenMapAll(reports, HostLines(level), (o: Output) => !IsCritical(o));
  }

  /**
   * The choices an analysis makes where the source iterates over a Python
   * set: the deep-link groups, one per component name, and the app-link
   * reports, one per verified host (none when there is no deep link).
   */
  predicate IntentChoices(links: seq<UniversalLink>, assetHosts: set<string>, groups: seq<LinkGroup>, reports: seq<HostReport>)
  {
    && GroupedByName(links, groups)
    && if |links| > 0 then ReportsOf(links, assetHosts, reports, VerifiedHosts(links)) else reports == []
  }

  /** What analyzeIntentFilters logs for those choices: the table, the deep links, then the app links if there is a deep link. */
  function IntentLines(facts: ManifestFacts, level: LogLevel, groups: seq<LinkGroup>, reports: seq<HostReport>): seq<Output>
  {
    var table := Flatten(Map(facts.filteredComponents, ComponentFilterRows(facts)));
    (if |table| > 0 then [Log(Info, IntentFilterTable(table))] else [])
    + Flatten(Map(groups, DeepLinkLines(level)))
    + (if |facts.universalLinks| > 0 then Flatten(Map(reports, HostLines(level))) else [])
  }

  /**
   * `analyzeIntentFilters`: the intent-filter table, the deep links, and the
   * app links only when there is some deep link. The ghost results are the
   * groups and reports the set iterations produced.
   */
  method AnalyzeIntentFilters(facts: ManifestFacts, level: LogLevel, assetHosts: set<string>)
    returns (appLinks: Option<nat>, out: seq<Output>, ghost groups: seq<LinkGroup>, ghost reports: seq<HostReport>)
    ensures appLinks.Some? <==> |facts.universalLinks| > 0
    ensures appLinks.Some? ==> appLinks.value == |VerifiedHosts(facts.universalLinks)|
    ensures IntentChoices(facts.universalLinks, assetHosts, groups, reports)
    ensures out == IntentLines(facts, level, groups, reports)
    ensures CriticalFree(out)
  {
    var table, tableLines := GetIntentFilterInfo(facts);
    var used, deepGroups, deepLines := IsDeepLinkUsed(facts.universalLinks, level);
    groups := deepGroups;
    var appLines := [];
    if used {
      var n, hostReports, hostLines := IsAppLinkUsed(facts.universalLinks, level, assetHosts);
      reports := hostReports;
      appLinks := Some(n);
      appLines := hostLines;
    } else {
      reports := [];
      appLinks := None;
    }
    out := tableLines + deepLines + appLines;
    IntentLinesQuiet(facts, level, groups, reports);
  }

  /** What analyzeIntentFilters logs holds no critical record, whatever the set iterations chose. */
  lemma IntentLinesQuiet(facts: ManifestFacts, level: LogLevel, groups: seq<LinkGroup>, reports: seq<HostReport>)
    ensures CriticalFree(IntentLines(facts, level, groups, reports))
  {
    var table := Flatten(Map(facts.filteredComponents, ComponentFilterRows(facts)));
    var tableLines := if |table| > 0 then [Log(Info, IntentFilterTable(table))] else [];
    var deepLines := Flatten(Map(groups, DeepLinkLines(level)));
    var appLines := if |facts.universalLinks| > 0 then Flatten(Map(reports, HostLines(level))) else [];
    DeepLinesQuiet(groups, level);
    HostLinesQuiet(reports, level);
    CriticalFreeConcat(tableLines, deepLines);
    CriticalFreeConcat(tableLines + deepLines, appLines);
  }

}
