/** The expected-CRD check (internal/crdcheck/crdcheck.go): the checklist syntax, the check itself,
    and the reporter of missing CRDs at the granularity of its lock. */
module CrdCheck {
  import opened Text
  import opened Uuids
  import opened Registry
  import opened Landscape

  datatype CRDEntry = CRDEntry(group: string, version: string, resource: string,
    displayName: string, category: string)
  {
    function String(): string { group + "/" + version + "/" + resource }
  }

  const DEFAULT_CHECKLIST := [
    CRDEntry("structure.emeland.io", "v1alpha1", "systems", "EmELand System", "EmELand"),
    CRDEntry("structure.emeland.io", "v1alpha1", "apis", "EmELand API", "EmELand"),
    CRDEntry("structure.emeland.io", "v1alpha1", "components", "EmELand Component", "EmELand"),
    CRDEntry("structure.emeland.io", "v1alpha1", "systeminstances", "EmELand SystemInstance", "EmELand"),
    CRDEntry("structure.emeland.io", "v1alpha1", "findingrules", "EmELand FindingRule", "EmELand"),
    CRDEntry("cert-manager.io", "v1", "certificates", "Certificate", "CertManager"),
    CRDEntry("cert-manager.io", "v1", "issuers", "Issuer", "CertManager"),
    CRDEntry("cert-manager.io", "v1", "clusterissuers", "ClusterIssuer", "CertManager"),
    CRDEntry("monitoring.coreos.com", "v1", "servicemonitors", "ServiceMonitor", "Prometheus Operator"),
    CRDEntry("monitoring.coreos.com", "v1", "prometheusrules", "PrometheusRule", "Prometheus Operator"),
    CRDEntry("grafana.integreatly.org", "v1beta1", "grafanadashboards", "GrafanaDashboard", "Grafana Operator")
  ]

  // ---- the checklist syntax ----

  /** The non-empty trimmed tokens of a comma-separated list, in order. */
  function TrimmedTokens(parts: seq<string>): seq<string> {
    if parts == [] then []
    else
      var last := TrimSpace(parts[|parts| - 1]);
      TrimmedTokens(parts[..|parts| - 1]) + if last == "" then [] else [last]
  }

  function Tokens(raw: string): seq<string> { TrimmedTokens(Split(raw, ',')) }

  /** Exactly three non-empty slash-separated parts. */
  predicate WellFormed(token: string) {
    var parts := Split(token, '/');
    |parts| == 3 && parts[0] != "" && parts[1] != "" && parts[2] != ""
  }

  /** strings.SplitN: at most n parts, the last of which is the unsplit rest. */
  function SplitN(s: string, sep: char, n: nat): seq<string>
    requires n > 0
  {
    var parts := Split(s, sep);
    if |parts| <= n then parts else parts[..n - 1] + [Join(parts[n - 1..], sep)]
  }

  /** The part of the default checklist that bears on a token: its entry, if it has one. */
  function KnownEntry(entries: seq<CRDEntry>, token: string): Option<CRDEntry> {
    if entries == [] then None
    else if entries[|entries| - 1].String() == token then Some(entries[|entries| - 1])
    else KnownEntry(entries[..|entries| - 1], token)
  }

  /** The display name and category of an entry that is not on the default checklist. */
  predicate Generic(e: CRDEntry) { e.displayName == e.resource && e.category == e.group }

  method ParseCRDToken(token: string) returns (entry: Option<CRDEntry>)
    ensures entry.Some? <==> WellFormed(token)
    ensures entry.Some? ==> entry.value.String() == token
    ensures entry.Some? ==> Generic(entry.value) && Clean(entry.value)
  {
    var parts := SplitN(token, '/', 4);
    if |parts| != 3 || parts[0] == "" || parts[1] == "" || parts[2] == "" { return None; }
    assert Split(token, '/') == parts;
    JoinSplit(token, '/');
    assert parts[1..][1..] == [parts[2]];
    assert Join(parts[1..], '/') == parts[1] + ['/'] + parts[2];
    assert token == parts[0] + ['/'] + (parts[1] + ['/'] + parts[2]);
    return Some(CRDEntry(parts[0], parts[1], parts[2], parts[2], parts[0]));
  }

  function Listed(lookup: map<string, CRDEntry>, token: string): Option<CRDEntry> {
    if token in lookup then Some(lookup[token]) else None
  }

  /** The table of known entries. */
  method BuildLookup() returns (lookup: map<string, CRDEntry>)
    ensures forall t :: Listed(lookup, t) == KnownEntry(DEFAULT_CHECKLIST, t)
  {
    lookup := map[];
    var entries := DEFAULT_CHECKLIST;
    for i := 0 to |entries|
      invariant forall t :: Listed(lookup, t) == KnownEntry(entries[..i], t)
    {
      assert entries[..i + 1][..i] == entries[..i];
      lookup := lookup[entries[i].String() := entries[i]];
    }
    assert entries[..|entries|] == entries;
  }

  /** Parsing succeeds exactly when every token is well formed; printing the entries gives back the
      tokens in order, for known and unknown entries alike; known tokens give the default entry. */
  method ParseChecklist(raw: string) returns (result: Option<seq<CRDEntry>>)
    ensures result.Some? <==> forall t | t in Tokens(raw) :: WellFormed(t)
    ensures result.Some? ==> |result.value| == |Tokens(raw)| && forall e | e in result.value :: Clean(e)
    ensures result.Some? ==> forall i | 0 <= i < |Tokens(raw)| :: result.value[i].String() == Tokens(raw)[i]
    ensures result.Some? ==> forall i | 0 <= i < |Tokens(raw)| && KnownEntry(DEFAULT_CHECKLIST, Tokens(raw)[i]).Some? ::
      KnownEntry(DEFAULT_CHECKLIST, Tokens(raw)[i]) == Some(result.value[i])
    ensures result.Some? ==> forall i | 0 <= i < |Tokens(raw)| && KnownEntry(DEFAULT_CHECKLIST, Tokens(raw)[i]).None? ::
      Generic(result.value[i])
  {
    hide WellFormed, KnownEntry, Split, TrimSpace, Clean;
    if raw == "" {
      NoTokens();
      return Some([]);
    }
    var lookup := BuildLookup();
    var parts := Split(raw, ',');
    var entries: seq<CRDEntry> := [];
    for i := 0 to |parts|
      invariant Parsed(TrimmedTokens(parts[..i]), entries)
    {
      assert parts[..i + 1][..i] == parts[..i];
      var token := TrimSpace(parts[i]);
      if token == "" { continue; }
      ghost var before := TrimmedTokens(parts[..i]);
      assert TrimmedTokens(parts[..i + 1]) == before + [token];
      if token in lookup {
        KnownIsWellFormed(token);
        ParsedMore(before, entries, token, lookup[token]);
        entries := entries + [lookup[token]];
      } else {
        var entry := ParseCRDToken(token);
        if entry.None? {
          TokensGrow(parts, i + 1);
          assert token in TrimmedTokens(parts);
          return None;
        }
        ParsedMore(before, entries, token, entry.value);
        entries := entries + [entry.value];
      }
    }
    assert parts[..|parts|] == parts;
    return Some(entries);
  }

  ghost predicate Parsed(tokens: seq<string>, entries: seq<CRDEntry>) {
    && (forall t | t in tokens :: WellFormed(t)) && (forall e | e in entries :: Clean(e)) && |entries| == |tokens|
    && forall i | 0 <= i < |tokens| :: entries[i].String() == tokens[i] && Describes(entries[i], tokens[i])
  }

  ghost predicate Describes(entry: CRDEntry, token: string) {
    var known := KnownEntry(DEFAULT_CHECKLIST, token);
    if known.Some? then known == Some(entry) else Generic(entry)
  }

  lemma ParsedMore(tokens: seq<string>, entries: seq<CRDEntry>, token: string, entry: CRDEntry)
    requires Parsed(tokens, entries) && WellFormed(token) && entry.String() == token && Clean(entry)
    requires Describes(entry, token)
    ensures Parsed(tokens + [token], entries + [entry])
  {
    hide WellFormed, Describes, Clean;
  }

  lemma NoTokens()
    ensures Tokens("") == []
  {
    assert Split("", ',') == [""];
    assert [""][..0] == [];
  }

  lemma {:induction false} TokensGrow(parts: seq<string>, n: nat)
    requires n <= |parts|
    ensures forall t | t in TrimmedTokens(parts[..n]) :: t in TrimmedTokens(parts)
    decreases |parts|
  {
    if n == |parts| {
      assert parts[..n] == parts;
    } else {
      var init := parts[..|parts| - 1];
      TokensGrow(init, n);
      assert init[..n] == parts[..n];
    }
  }

  /** Every default entry is printed as a well-formed token. */
  lemma KnownIsWellFormed(token: string)
    ensures KnownEntry(DEFAULT_CHECKLIST, token).Some? ==>
      var entry := KnownEntry(DEFAULT_CHECKLIST, token).value;
      WellFormed(token) && entry.String() == token && Clean(entry)
  {
    DefaultsAreClean();
    KnownIsListed(DEFAULT_CHECKLIST, token);
    var known := KnownEntry(DEFAULT_CHECKLIST, token);
    if known.Some? { CleanIsWellFormed(known.value); }
  }

  lemma {:induction false} KnownIsListed(entries: seq<CRDEntry>, token: string)
    ensures KnownEntry(entries, token).Some? ==>
      KnownEntry(entries, token).value in entries && KnownEntry(entries, token).value.String() == token
  {
    if entries != [] { KnownIsListed(entries[..|entries| - 1], token); }
  }

  predicate Clean(e: CRDEntry) {
    '/' !in e.group && '/' !in e.version && '/' !in e.resource && e.group != "" && e.version != "" && e.resource != ""
  }

  lemma NativeGroupHasNoSlash()
    ensures '/' !in "structure.emeland.io" && '/' !in "v1alpha1"
  {
  }

  lemma OtherGroupsHaveNoSlash()
    ensures '/' !in "cert-manager.io" && '/' !in "v1" && '/' !in "v1beta1"
    ensures '/' !in "monitoring.coreos.com" && '/' !in "grafana.integreatly.org"
  {
  }

  lemma NativeResourcesHaveNoSlash()
    ensures '/' !in "systems" && '/' !in "apis" && '/' !in "components"
    ensures '/' !in "systeminstances" && '/' !in "findingrules"
  {
  }

  lemma OtherResourcesHaveNoSlash()
    ensures '/' !in "certificates" && '/' !in "issuers" && '/' !in "clusterissuers"
    ensures '/' !in "servicemonitors" && '/' !in "prometheusrules" && '/' !in "grafanadashboards"
  {
  }

  lemma DefaultsAreClean()
    ensures forall e | e in DEFAULT_CHECKLIST :: Clean(e)
  {
    assert |DEFAULT_CHECKLIST| == 11;
    forall i | 0 <= i < 11 ensures Clean(DEFAULT_CHECKLIST[i]) {
      CleanAt(i);
    }
  }

  lemma CleanAt(i: nat)
    requires i < 11
    ensures Clean(DEFAULT_CHECKLIST[i])
  {
    NativeGroupHasNoSlash();
    OtherGroupsHaveNoSlash();
    NativeResourcesHaveNoSlash();
    OtherResourcesHaveNoSlash();
    if i < 5 {
      assert DEFAULT_CHECKLIST[i].group == "structure.emeland.io" && DEFAULT_CHECKLIST[i].version == "v1alpha1";
    }
  }

  lemma CleanParts(e: CRDEntry)
    requires Clean(e)
    ensures Split(e.String(), '/') == [e.group, e.version, e.resource]
  {
    SplitAtom(e.group, '/');
    SplitAtom(e.version, '/');
    SplitAtom(e.resource, '/');
    SplitConcat(e.version, e.resource, '/');
    SplitConcat(e.group, e.version + "/" + e.resource, '/');
    assert e.String() == e.group + ['/'] + (e.version + "/" + e.resource);
  }

  lemma CleanIsWellFormed(e: CRDEntry)
    requires Clean(e)
    ensures WellFormed(e.String())
  {
    CleanParts(e);
  }

  // ---- the check ----

  /** The entries whose key was discovered, or those whose key was not, in checklist order. */
  function Select(checklist: seq<CRDEntry>, discovered: set<string>, wanted: bool): seq<CRDEntry> {
    if checklist == [] then []
    else
      var n := |checklist| - 1;
      Select(checklist[..n], discovered, wanted)
        + if (checklist[n].String() in discovered) == wanted then [checklist[n]] else []
  }

  lemma SelectOne(init: seq<CRDEntry>, e: CRDEntry, discovered: set<string>)
    ensures multiset(Select(init + [e], discovered, true)) + multiset(Select(init + [e], discovered, false))
      == multiset(Select(init, discovered, true)) + multiset(Select(init, discovered, false)) + multiset{e}
  {
    assert (init + [e])[..|init|] == init;
    var a, b := Select(init, discovered, true), Select(init, discovered, false);
    assert a + [] == a && b + [] == b;
  }

  /** Every entry is on exactly one of the two lists, as often as it was on the checklist. */
  lemma {:induction false} SelectConserves(checklist: seq<CRDEntry>, discovered: set<string>)
    ensures multiset(Select(checklist, discovered, true)) + multiset(Select(checklist, discovered, false))
      == multiset(checklist)
  {
    if checklist != [] {
      var n := |checklist| - 1;
      var init, e := checklist[..n], checklist[n];
      SelectConserves(init, discovered);
      assert checklist == init + [e];
      SelectOne(init, e, discovered);
    }
  }

  /** What the discovery API lists for one group and version. */
  datatype ResourceList = ResourceList(groupVersion: string, names: seq<string>)

  function Key(list: ResourceList, name: string): string { list.groupVersion + "/" + name }

  /** The keys of all resources in the lists that are there. */
  function Discovered(lists: seq<Option<ResourceList>>): set<string> {
    set i, name | 0 <= i < |lists| && lists[i].Some? && name in lists[i].value.names :: Key(lists[i].value, name)
  }

  /** The discovery lists the resource of an entry, under its group and version. */
  ghost predicate Offered(lists: seq<Option<ResourceList>>, e: CRDEntry) {
    exists i, name :: 0 <= i < |lists| && lists[i].Some? && name in lists[i].value.names
      && lists[i].value.groupVersion + "/" + name == e.group + "/" + e.version + "/" + e.resource
  }

  lemma DiscoveredIsOffered(lists: seq<Option<ResourceList>>, e: CRDEntry)
    ensures e.String() in Discovered(lists) <==> Offered(lists, e)
  {
    if e.String() in Discovered(lists) {
      var i, name :| 0 <= i < |lists| && lists[i].Some? && name in lists[i].value.names
        && e.String() == Key(lists[i].value, name);
    }
    if Offered(lists, e) {
      var i, name :| 0 <= i < |lists| && lists[i].Some? && name in lists[i].value.names
        && lists[i].value.groupVersion + "/" + name == e.group + "/" + e.version + "/" + e.resource;
      assert Key(lists[i].value, name) in Discovered(lists);
    }
  }

  /** What is left of a list when some of its elements are left out, in the same order. */
  ghost predicate Subsequence<T>(part: seq<T>, whole: seq<T>) {
    part == [] ||
    (whole != [] &&
      var p, w := |part| - 1, |whole| - 1;
      (part[p] == whole[w] && Subsequence(part[..p], whole[..w])) || Subsequence(part, whole[..w]))
  }

  /** The two lists keep the order of the checklist; the first has entries that are offered only, and the
      second has only entries that are not. */
  lemma {:induction false} SelectLaws(checklist: seq<CRDEntry>, lists: seq<Option<ResourceList>>, wanted: bool)
    ensures var chosen := Select(checklist, Discovered(lists), wanted);
      Subsequence(chosen, checklist) && forall e | e in chosen :: Offered(lists, e) <==> wanted
  {
    hide Discovered, Offered;
    if checklist != [] {
      var n := |checklist| - 1;
      SelectLaws(checklist[..n], lists, wanted);
      DiscoveredIsOffered(lists, checklist[n]);
      var before := Select(checklist[..n], Discovered(lists), wanted);
      assert (before + [checklist[n]])[..|before|] == before;
      assert before + [] == before;
    }
  }

  method CollectKeys(lists: seq<Option<ResourceList>>) returns (available: set<string>)
    ensures available == Discovered(lists)
  {
    available := {};
    for i := 0 to |lists|
      invariant available == Discovered(lists[..i])
    {
      assert lists[..i + 1] == lists[..i] + [lists[i]];
      if lists[i].None? { continue; }
      var list := lists[i].value;
      ghost var before := available;
      for j := 0 to |list.names|
        invariant available == before + set name | name in list.names[..j] :: Key(list, name)
      {
        assert list.names[..j + 1] == list.names[..j] + [list.names[j]];
        available := available + {Key(list, list.names[j])};
      }
      assert list.names[..|list.names|] == list.names;
      ListAdds(lists, i);
    }
    assert lists[..|lists|] == lists;
  }

  lemma ListAdds(lists: seq<Option<ResourceList>>, i: nat)
    requires i < |lists| && lists[i].Some?
    ensures Discovered(lists[..i + 1])
      == Discovered(lists[..i]) + set name | name in lists[i].value.names :: Key(lists[i].value, name)
  {
    hide Key;
    assert forall j | 0 <= j < i :: lists[..i + 1][j] == lists[..i][j];
    assert lists[..i + 1][i] == lists[i];
  }

  /** `lists` is None when discovery returned nothing at all, `failed` whether it returned an error, which
      it can also do beside partial lists. */
  method Check(checklist: seq<CRDEntry>, lists: Option<seq<Option<ResourceList>>>, failed: bool)
    returns (available: seq<CRDEntry>, missing: seq<CRDEntry>, discoveryErr: bool)
    ensures discoveryErr == failed
    ensures failed && lists.None? ==> available == [] && missing == checklist
    ensures !(failed && lists.None?) ==>
      var given := if lists.Some? then lists.value else [];
      (forall e | e in available :: Offered(given, e)) && forall e | e in missing :: !Offered(given, e)
    ensures Subsequence(available, checklist) && Subsequence(missing, checklist)
    ensures multiset(available) + multiset(missing) == multiset(checklist)
  {
    hide Discovered, Offered;
    if failed && lists.None? {
      Whole(checklist);
      return [], checklist, failed;
    }
    discoveryErr := failed;
    var given := if lists.Some? then lists.value else [];
    var keys := CollectKeys(given);
    available, missing := [], [];
    for i := 0 to |checklist|
      invariant available == Select(checklist[..i], keys, true) && missing == Select(checklist[..i], keys, false)
    {
      assert checklist[..i + 1][..i] == checklist[..i];
      if checklist[i].String() in keys {
        available := available + [checklist[i]];
      } else {
        missing := missing + [checklist[i]];
      }
    }
    assert checklist[..|checklist|] == checklist;
    SelectConserves(checklist, keys);
    SelectLaws(checklist, given, true);
    SelectLaws(checklist, given, false);
  }

  lemma {:induction false} Whole<T>(list: seq<T>)
    ensures Subsequence(list, list)
  {
    if list != [] { Whole(list[..|list| - 1]); }
  }

  // ---- the reporter ----

  function CrdFindingId(e: CRDEntry): Uuid { V5(CrdMissingSpace, Octets(e.String())) }

  /** Missing CRDs have one finding each: different CRDs of well-formed entries have different ids. */
  lemma CrdFindingIdInjective(d: CRDEntry, e: CRDEntry)
    requires Clean(d) && Clean(e)
    ensures CrdFindingId(d) == CrdFindingId(e)
      <==> d.group == e.group && d.version == e.version && d.resource == e.resource
  {
    OctetsInjective(d.String(), e.String());
    CleanParts(d);
    CleanParts(e);
  }

  function CrdMissing(subject: ResourceRef): Finding { Finding(OfKind(CRD_NOT_AVAILABLE), [subject]) }

  /** The findings after reporting the missing CRDs against a subject. */
  function Reported(findings: map<Uuid, Finding>, missing: seq<CRDEntry>, subject: ResourceRef): map<Uuid, Finding> {
    if missing == [] || subject.id == Nil then findings
    else
      var n := |missing| - 1;
      Reported(findings, missing[..n], subject)[CrdFindingId(missing[n]) := CrdMissing(subject)]
  }

  /** `latest` is the context reported last and `clearing` the number of ClearContext calls between
      their two critical sections; both are history variables. */
  datatype State = State(findings: map<Uuid, Finding>, reportedWithContext: bool, latest: Uuid, clearing: nat)

  /** One critical section. */
  datatype Step = WithContext(id: Uuid) | Fallback | ClearBegin | ClearEnd

  function ReportedFallback(s: State, missing: seq<CRDEntry>, fallback: Uuid): State {
    if fallback == Nil || s.reportedWithContext then s
    else s.(findings := Reported(s.findings, missing, ResourceRef(fallback, NodeResource)))
  }

  /** `fallback` is the sensor Node, Nil when there is none. */
  function Next(s: State, missing: seq<CRDEntry>, fallback: Uuid, step: Step): State {
    match step
    case WithContext(id) =>
      if id == Nil then s
      else
        s.(findings := Reported(s.findings, missing, ResourceRef(id, ContextResource)),
           reportedWithContext := true, latest := id)
    case Fallback => ReportedFallback(s, missing, fallback)
    case ClearBegin => s.(reportedWithContext := false, clearing := s.clearing + 1)
    case ClearEnd =>
      if s.clearing == 0 then s
      else ReportedFallback(s, missing, fallback).(clearing := s.clearing - 1)
  }

  class Reporter {
    const model: Model
    const missing: seq<CRDEntry>
    const fallback: Uuid
    var reportedWithContext: bool
    ghost var latest: Uuid
    ghost var clearing: nat

    ghost function View(): State
      reads this, model
    {
      State(model.findings, reportedWithContext, latest, clearing)
    }

    constructor (model: Model, missing: seq<CRDEntry>, fallback: Uuid)
      ensures this.model == model && this.missing == missing && this.fallback == fallback
      ensures View() == State(model.findings, false, Nil, 0)
    {
      this.model, this.missing, this.fallback := model, missing, fallback;
      reportedWithContext, latest, clearing := false, Nil, 0;
    }

    method Report(subject: ResourceRef)
      modifies model`findings
      ensures model.findings == Reported(old(model.findings), missing, subject)
    {
      if |missing| == 0 || subject.id == Nil { return; }
      for i := 0 to |missing|
        invariant model.findings == Reported(old(model.findings), missing[..i], subject)
      {
        assert missing[..i + 1][..i] == missing[..i];
        model.findings := model.findings[CrdFindingId(missing[i]) := CrdMissing(subject)];
      }
      assert missing[..|missing|] == missing;
    }

    method ReportWithContext(id: Uuid)
      modifies this, model`findings
      ensures View() == Next(old(View()), missing, fallback, WithContext(id))
    {
      if id == Nil { return; }
      Report(ResourceRef(id, ContextResource));
      reportedWithContext, latest := true, id;
    }

    method ReportFallback()
      modifies model`findings
      ensures View() == Next(old(View()), missing, fallback, Fallback)
    {
      if fallback == Nil || reportedWithContext { return; }
      Report(ResourceRef(fallback, NodeResource));
    }

    /** ClearContext up to the point where it releases the lock. */
    method BeginClear()
      modifies this
      ensures View() == Next(old(View()), missing, fallback, ClearBegin)
    {
      reportedWithContext, clearing := false, clearing + 1;
    }

    /** The rest of ClearContext, under a lock of its own. */
    method EndClear()
      requires clearing > 0
      modifies this, model`findings
      ensures View() == Next(old(View()), missing, fallback, ClearEnd)
    {
      ReportFallback();
      clearing := clearing - 1;
    }
  }

  /** The CRD findings are all on `subject`, or there are none. */
  ghost predicate AllOn(findings: map<Uuid, Finding>, missing: seq<CRDEntry>, subject: Option<ResourceRef>) {
    forall e | e in missing ::
      match subject
      case None => CrdFindingId(e) !in findings
      case Some(r) => MapsTo(findings, CrdFindingId(e), Finding(OfKind(CRD_NOT_AVAILABLE), [r]))
  }

  /** Other findings are as before. */
  ghost predicate OthersKept(f: map<Uuid, Finding>, g: map<Uuid, Finding>, missing: seq<CRDEntry>) {
    forall id | (forall e | e in missing :: id != CrdFindingId(e)) :: SameAt(f, g, id)
  }

  lemma {:induction false} ReportedLaws(findings: map<Uuid, Finding>, missing: seq<CRDEntry>, subject: ResourceRef)
    requires subject.id != Nil
    ensures AllOn(Reported(findings, missing, subject), missing, Some(subject))
    ensures OthersKept(findings, Reported(findings, missing, subject), missing)
  {
    hide CrdFindingId;
    if missing != [] {
      var n := |missing| - 1;
      ReportedLaws(findings, missing[..n], subject);
      assert missing == missing[..n] + [missing[n]];
      ReportedOne(findings, Reported(findings, missing[..n], subject), missing[..n], missing[n], subject);
    }
  }

  lemma ReportedOne(f: map<Uuid, Finding>, g: map<Uuid, Finding>, init: seq<CRDEntry>, e: CRDEntry,
      subject: ResourceRef)
    requires AllOn(g, init, Some(subject)) && OthersKept(f, g, init)
    ensures var h := g[CrdFindingId(e) := CrdMissing(subject)];
      AllOn(h, init + [e], Some(subject)) && OthersKept(f, h, init + [e])
  {
    hide CrdFindingId;
    assert forall d | d in init + [e] :: d in init || d == e;
    assert e in init + [e] && forall d | d in init :: d in init + [e];
    var h := g[CrdFindingId(e) := CrdMissing(subject)];
    forall id | (forall d | d in init + [e] :: id != CrdFindingId(d)) ensures SameAt(f, h, id) {
      assert SameAt(f, g, id);
    }
  }

  /** Where the findings are, given the flag. */
  ghost predicate Inv(s: State, missing: seq<CRDEntry>, fallback: Uuid) {
    exists on: Option<ResourceRef> ::
      && AllOn(s.findings, missing, on)
      && (s.reportedWithContext ==> s.latest != Nil && on == Some(ResourceRef(s.latest, ContextResource)))
      && (!s.reportedWithContext && s.clearing == 0 && fallback != Nil ==>
        on == None || on == Some(ResourceRef(fallback, NodeResource)))
  }

  lemma StepKeepsInv(s: State, missing: seq<CRDEntry>, fallback: Uuid, step: Step)
    requires Inv(s, missing, fallback)
    ensures Inv(Next(s, missing, fallback, step), missing, fallback)
    ensures OthersKept(s.findings, Next(s, missing, fallback, step).findings, missing)
  {
    hide CrdFindingId, CrdMissing;
    var on: Option<ResourceRef> :|
      && AllOn(s.findings, missing, on)
      && (s.reportedWithContext ==> s.latest != Nil && on == Some(ResourceRef(s.latest, ContextResource)))
      && (!s.reportedWithContext && s.clearing == 0 && fallback != Nil ==>
        on == None || on == Some(ResourceRef(fallback, NodeResource)));
    var t := Next(s, missing, fallback, step);
    if step.WithContext? && step.id != Nil {
      var r := ResourceRef(step.id, ContextResource);
      ReportedLaws(s.findings, missing, r);
      assert AllOn(t.findings, missing, Some(r));
    } else if (step.Fallback? || (step.ClearEnd? && s.clearing > 0)) && fallback != Nil && !s.reportedWithContext {
      var r := ResourceRef(fallback, NodeResource);
      ReportedLaws(s.findings, missing, r);
      assert AllOn(t.findings, missing, Some(r));
    } else {
      assert t.findings == s.findings;
      assert AllOn(t.findings, missing, on);
    }
  }

  ghost predicate IsRun(run: seq<Step>, states: seq<State>, missing: seq<CRDEntry>, fallback: Uuid) {
    && |states| == |run| + 1
    && !states[0].reportedWithContext && states[0].clearing == 0 && AllOn(states[0].findings, missing, None)
    && forall i | 0 <= i < |run| :: Next(states[i], missing, fallback, run[i]) == states[i + 1]
  }

  lemma {:induction false} RunKeepsInv(run: seq<Step>, states: seq<State>, missing: seq<CRDEntry>, fallback: Uuid,
      i: nat)
    requires IsRun(run, states, missing, fallback) && i <= |run|
    ensures Inv(states[i], missing, fallback)
    decreases i
  {
    hide CrdFindingId, CrdMissing;
    if i > 0 {
      RunKeepsInv(run, states, missing, fallback, i - 1);
      StepKeepsInv(states[i - 1], missing, fallback, run[i - 1]);
      assert Next(states[i - 1], missing, fallback, run[i - 1]) == states[i];
    }
  }

  /** For every interleaving of critical sections, also with a ReportWithContext in the gap of a
      ClearContext: all missing-CRD findings have one and the same subject; while the flag is set it
      is the latest context; and once the flag is off, no clear is under way and there is a sensor
      Node, any findings are on that Node. */
  lemma FindingsFollowTheFlag(run: seq<Step>, states: seq<State>, missing: seq<CRDEntry>, fallback: Uuid, i: nat,
      d: CRDEntry, e: CRDEntry)
    requires IsRun(run, states, missing, fallback) && i <= |run| && d in missing && e in missing
    ensures var s := states[i];
      && (CrdFindingId(d) in s.findings <==> CrdFindingId(e) in s.findings)
      && (CrdFindingId(e) in s.findings ==> s.findings[CrdFindingId(d)] == s.findings[CrdFindingId(e)])
      && (s.reportedWithContext ==> MapsTo(s.findings, CrdFindingId(e),
            Finding(OfKind(CRD_NOT_AVAILABLE), [ResourceRef(s.latest, ContextResource)])))
      && (!s.reportedWithContext && s.clearing == 0 && fallback != Nil && CrdFindingId(e) in s.findings ==>
            MapsTo(s.findings, CrdFindingId(e),
              Finding(OfKind(CRD_NOT_AVAILABLE), [ResourceRef(fallback, NodeResource)])))
  {
    RunKeepsInv(run, states, missing, fallback, i);
    hide CrdFindingId, CrdMissing;
  }
}
