/** What holds over every run of the Helm, SystemInstance, workload and API-instance reconcilers. */
module HelmLaws {
  import opened Text
  import opened Uuids
  import opened Registry
  import opened Landscape
  import opened HelmSecretName
  import opened ReferenceFindings
  import opened HelmRelease

  /** What is assumed of the cluster: which object a UID belongs to (UIDs are unique), and which index
      keys are those of Helm releases (no SystemInstance custom resource has one of these). */
  datatype Holder = Native(api: bool, name: string) | Other
  datatype Cluster = Cluster(holder: Uuid -> Holder, isRelease: string -> bool)

  datatype Got = Found(obj: NativeObject) | NotFound

  datatype Event =
    | InstanceEvent(onApi: bool, name: string, got: Got, known: bool)
    | SecretSeen(secret: Secret, systemKnown: bool, addFails: bool)
    | SecretLost(namespace: string, secretName: string)
    | Startup(secrets: seq<Secret>)
    | CustomEvent(name: string, resource: Option<CustomResource>)
    | Elsewhere(findings: FindingMap)

  function SideOf(s: Helm, onApi: bool): Side { if onApi then s.api else s.component }

  function OnInstance(s: Helm, onApi: bool, name: string, got: Got, known: bool): Helm {
    var r := match got
      case Found(obj) =>
        if onApi then
          InstanceFound(s.api, s.findings, name, obj.(skip := false), APIInstanceResource, APIResource, known)
        else InstanceFound(s.component, s.findings, name, obj, ComponentInstanceResource, ComponentResource, known)
      case NotFound => InstanceGone(SideOf(s, onApi), s.findings, name);
    if onApi then s.(api := r.side, findings := r.findings) else s.(component := r.side, findings := r.findings)
  }

  function OnCustom(s: Helm, name: string, resource: Option<CustomResource>): Helm {
    if resource.Some? then CustomFound(s, name, resource.value) else CustomGone(s, name)
  }

  ghost function Step(s: Helm, e: Event): Helm {
    match e
    case InstanceEvent(onApi, name, got, known) => OnInstance(s, onApi, name, got, known)
    case SecretSeen(secret, known, addFails) => SecretFound(s, secret, known, addFails)
    case SecretLost(namespace, name) => SecretGone(s, namespace, name)
    case Startup(secrets) => s.(latest := ListAll(s.latest, secrets))
    case CustomEvent(name, resource) => OnCustom(s, name, resource)
    case Elsewhere(findings) => s.(findings := s.findings.(now := findings))
  }

  // ---- subjects and their findings ----

  /** Subjects whose reference findings these reconcilers own. */
  predicate Ours(c: Cluster, id: Uuid) { IsHelm(id) || c.holder(id).Native? }

  /** The id of a release's SystemInstance. */
  predicate IsHelm(id: Uuid) { id.V5? && id.space == HelmSpace }

  ghost predicate SameRefs(f: FindingMap, g: FindingMap, id: Uuid) {
    (Dangling(id) in f <==> Dangling(id) in g) && (Missing(id) in f <==> Missing(id) in g)
  }

  /** No subject both misses a reference and has a dangling one. */
  ghost predicate Exclusive(c: Cluster, f: FindingMap) {
    forall id | Ours(c, id) :: !(Dangling(id) in f && Missing(id) in f)
  }

  lemma RefIdsDistinct(a: Uuid)
    ensures forall b | b != a :: Dangling(b) != Dangling(a) && Missing(b) != Missing(a)
    ensures forall b :: Dangling(b) != Missing(a) && Missing(b) != Dangling(a)
  {
    forall b ensures (b != a ==> Dangling(b) != Dangling(a) && Missing(b) != Missing(a))
      && Dangling(b) != Missing(a) && Missing(b) != Dangling(a) {
      ReferenceFindingIdInjective(a, REFERENCED_RESOURCE_NOT_FOUND, b, REFERENCED_RESOURCE_NOT_FOUND);
      ReferenceFindingIdInjective(a, MISSING_RESOURCE_REFERENCE, b, MISSING_RESOURCE_REFERENCE);
      ReferenceFindingIdInjective(a, MISSING_RESOURCE_REFERENCE, b, REFERENCED_RESOURCE_NOT_FOUND);
      ReferenceFindingIdInjective(a, REFERENCED_RESOURCE_NOT_FOUND, b, MISSING_RESOURCE_REFERENCE);
      assert REFERENCED_RESOURCE_NOT_FOUND[0] != MISSING_RESOURCE_REFERENCE[0];
    }
  }

  /** A write to the findings of one subject. */
  ghost predicate Touches(f: FindingMap, g: FindingMap, id: Uuid) {
    forall b | b != id :: SameRefs(f, g, b)
  }

  lemma ExclusiveAfter(c: Cluster, f: FindingMap, g: FindingMap, id: Uuid)
    requires Exclusive(c, f) && Touches(f, g, id) && !(Dangling(id) in g && Missing(id) in g)
    ensures Exclusive(c, g)
  {
    hide Dangling, Missing;
    forall b | Ours(c, b) ensures !(Dangling(b) in g && Missing(b) in g) {
      if b != id { assert SameRefs(f, g, b); }
    }
  }

  ghost predicate AlwaysExclusive(c: Cluster, f: Findings) {
    Exclusive(c, f.now) && forall g | g in f.journal :: Exclusive(c, g)
  }

  /** Reconciling the findings of a subject settles that subject and no other, and at neither of its
      two writes does a subject have both findings. */
  lemma ReconcileLaws(c: Cluster, f: Findings, id: Uuid, subject: ResourceType, ref: Uuid, target: ResourceType,
      known: bool)
    requires AlwaysExclusive(c, f)
    ensures var g := f.Reconcile(id, subject, ref, target, known);
      && AlwaysExclusive(c, g) && Touches(f.now, g.now, id)
      && (Missing(id) in g.now <==> ref == Nil) && (Dangling(id) in g.now <==> ref != Nil && !known)
  {
    RefIdsDistinct(id);
    hide Dangling, Missing, Exclusive;
    var g := f.Reconcile(id, subject, ref, target, known);
    var mid := if ref == Nil then f.now - {Dangling(id)} else f.now - {Missing(id)};
    assert g.journal == f.journal + [mid, g.now];
    ExclusiveAfter(c, f.now, mid, id);
    ExclusiveAfter(c, f.now, g.now, id);
  }

  lemma ForgetLaws(c: Cluster, f: Findings, id: Uuid)
    requires AlwaysExclusive(c, f)
    ensures var g := f.Forget(id);
      AlwaysExclusive(c, g) && Touches(f.now, g.now, id) && Missing(id) !in g.now && Dangling(id) !in g.now
  {
    RefIdsDistinct(id);
    hide Dangling, Missing, Exclusive;
    var g := f.Forget(id);
    var mid := f.now - {Dangling(id)};
    assert g.journal == f.journal + [mid, g.now];
    ExclusiveAfter(c, f.now, mid, id);
    ExclusiveAfter(c, f.now, g.now, id);
  }

  // ---- one side ----

  /** Names and stored instances belong to the objects the cluster says they do. */
  ghost predicate Owned(side: Side, c: Cluster, api: bool) {
    && (forall n | n in side.names :: side.names[n] != Nil && c.holder(side.names[n]) == Native(api, n))
    && (forall id | id in side.instances :: c.holder(id).Native? && c.holder(id).api == api)
  }

  /** Whenever an indexed instance without its own annotation has a Helm owner, it is attached to
      exactly that owner. */
  ghost predicate Agrees(side: Side) {
    forall n | n in side.owners && n in side.names && side.names[n] in side.instances
      && side.instances[side.names[n]].annotated == Nil ::
      side.instances[side.names[n]].systemInstance == side.owners[n]
  }

  ghost predicate OwnersSet(side: Side) {
    forall n | n in side.owners :: IsHelm(side.owners[n])
  }

  lemma SideFound(side: Side, c: Cluster, api: bool, name: string, obj: NativeObject)
    requires Owned(side, c, api) && Agrees(side) && OwnersSet(side)
    requires obj.uid != Nil && c.holder(obj.uid) == Native(api, name)
    ensures var t := side.Found(name, obj); Owned(t, c, api) && Agrees(t) && OwnersSet(t)
  {
  }

  lemma SideGone(side: Side, c: Cluster, api: bool, name: string)
    requires Owned(side, c, api) && Agrees(side) && OwnersSet(side)
    ensures var t := side.Gone(name); Owned(t, c, api) && Agrees(t) && OwnersSet(t)
  {
  }

  lemma SideClaim(side: Side, c: Cluster, api: bool, name: string, release: Uuid)
    requires Owned(side, c, api) && Agrees(side) && OwnersSet(side) && IsHelm(release)
    ensures var t := side.Claim(name, release); Owned(t, c, api) && Agrees(t) && OwnersSet(t)
  {
  }

  lemma SideRelease(side: Side, c: Cluster, api: bool, id: Uuid)
    requires Owned(side, c, api) && Agrees(side) && OwnersSet(side)
    ensures var t := side.Release(id); Owned(t, c, api) && Agrees(t) && OwnersSet(t)
  {
  }

  // ---- the invariant ----

  ghost predicate SideOk(side: Side, c: Cluster, api: bool) {
    Owned(side, c, api) && Agrees(side) && OwnersSet(side)
  }

  ghost predicate Live(systemNames: NameMap, id: Uuid) {
    exists k :: k in systemNames && systemNames[k] == id
  }

  /** An indexed release has a tracked revision and a stored SystemInstance; what is indexed beside the
      releases is not a release's; and every stored SystemInstance of a release is indexed. */
  ghost predicate ReleasesOk(s: Helm, c: Cluster) {
    && (forall k | k in s.systemNames && c.isRelease(k) ::
          s.systemNames[k] == HelmReleaseId(k) && k in s.latest && s.systemNames[k] in s.systemInstances)
    && (forall k | k in s.systemNames && !c.isRelease(k) :: !IsHelm(s.systemNames[k]))
    && (forall id | id in s.systemInstances && IsHelm(id) :: Live(s.systemNames, id))
  }

  ghost predicate OwnersLive(side: Side, systemNames: NameMap) {
    forall n | n in side.owners :: Live(systemNames, side.owners[n])
  }

  ghost predicate RefsMatch(side: Side, f: FindingMap) {
    forall id | id in side.instances :: Missing(id) in f <==> side.instances[id].ref == Nil
  }

  predicate HasEntity(s: Helm, id: Uuid) {
    id in s.component.instances || id in s.api.instances || (IsHelm(id) && id in s.systemInstances)
  }

  /** No reference finding outlives its entity. */
  ghost predicate NoOrphanFindings(s: Helm, c: Cluster) {
    forall id | Ours(c, id) :: Dangling(id) in s.findings.now || Missing(id) in s.findings.now ==> HasEntity(s, id)
  }

  ghost predicate FindingsOk(s: Helm, c: Cluster) {
    && AlwaysExclusive(c, s.findings) && NoOrphanFindings(s, c)
    && RefsMatch(s.component, s.findings.now) && RefsMatch(s.api, s.findings.now)
  }

  ghost predicate Inv(s: Helm, c: Cluster) {
    && SideOk(s.component, c, false) && SideOk(s.api, c, true)
    && OwnersLive(s.component, s.systemNames) && OwnersLive(s.api, s.systemNames)
    && ReleasesOk(s, c) && FindingsOk(s, c)
  }

  /** Derived ids are not Kubernetes UIDs. */
  ghost predicate DerivedIdsApart(c: Cluster) {
    forall k :: c.holder(HelmReleaseId(k)) == Other
  }

  ghost predicate Possible(s: Helm, c: Cluster, e: Event) {
    match e
    case InstanceEvent(onApi, name, got, _) =>
      got.Found? && got.obj.uid != Nil ==> c.holder(got.obj.uid) == Native(onApi, name)
    case SecretSeen(secret, _, _) => SecretOk(c, secret.namespace, secret.name)
    case SecretLost(namespace, name) => SecretOk(c, namespace, name)
    case Startup(_) => true
    case CustomEvent(name, resource) => !c.isRelease(name) && (resource.Some? ==> !IsHelm(resource.value.id))
    case Elsewhere(findings) => forall id | Ours(c, id) :: SameRefs(s.findings.now, findings, id)
  }

  ghost predicate SecretOk(c: Cluster, namespace: string, name: string) {
    var parts := ParseSecretName(name);
    parts.Some? ==> c.isRelease(ReleaseKey(namespace, parts.value.release))
  }

  // ---- instances ----

  lemma RefsAfter(side: Side, f: FindingMap, g: FindingMap, id: Uuid)
    requires RefsMatch(side, f) && Touches(f, g, id) && id !in side.instances
    ensures RefsMatch(side, g)
  {
    hide Dangling, Missing;
    forall b | b in side.instances ensures Missing(b) in g <==> side.instances[b].ref == Nil {
      assert b != id && SameRefs(f, g, b);
    }
  }

  lemma OrphansAfter(s: Helm, t: Helm, c: Cluster, id: Uuid)
    requires NoOrphanFindings(s, c) && Touches(s.findings.now, t.findings.now, id)
    requires forall b | b != id && HasEntity(s, b) :: HasEntity(t, b)
    requires HasEntity(t, id) || (Dangling(id) !in t.findings.now && Missing(id) !in t.findings.now)
    ensures NoOrphanFindings(t, c)
  {
    hide Dangling, Missing, HasEntity, Ours;
    forall b | Ours(c, b) && (Dangling(b) in t.findings.now || Missing(b) in t.findings.now) ensures HasEntity(t, b) {
      if b != id { assert SameRefs(s.findings.now, t.findings.now, b); }
    }
  }

  /** An instance that exists is reconciled, on the side `mine`; `other` is the other side. */
  lemma FoundRefs(mine: Side, other: Side, c: Cluster, api: bool, f: Findings, name: string, obj: NativeObject,
                  subject: ResourceType, target: ResourceType, known: bool)
    requires AlwaysExclusive(c, f) && RefsMatch(mine, f.now) && RefsMatch(other, f.now)
    requires Owned(mine, c, api) && Owned(other, c, !api) && obj.uid != Nil && c.holder(obj.uid) == Native(api, name)
    ensures var g := f.Reconcile(obj.uid, subject, obj.Ref(), target, known);
      RefsMatch(mine.Found(name, obj), g.now) && RefsMatch(other, g.now)
  {
    ReconcileLaws(c, f, obj.uid, subject, obj.Ref(), target, known);
    hide Dangling, Missing, AlwaysExclusive;
    var g := f.Reconcile(obj.uid, subject, obj.Ref(), target, known);
    RefsAfter(other, f.now, g.now, obj.uid);
    var t := mine.Found(name, obj);
    forall id | id in t.instances ensures Missing(id) in g.now <==> t.instances[id].ref == Nil {
      if id != obj.uid { assert SameRefs(f.now, g.now, id); }
    }
  }

  lemma FoundKeepsInv(s: Helm, c: Cluster, onApi: bool, name: string, obj: NativeObject, known: bool)
    requires Inv(s, c) && obj.uid != Nil && c.holder(obj.uid) == Native(onApi, name) && !obj.skip
    ensures Inv(OnInstance(s, onApi, name, Found(obj), known), c)
  {
    hide Dangling, Missing, HelmReleaseId, Ours, AlwaysExclusive, RefsMatch, Touches, Owned, Agrees, OwnersSet,
        ReleasesOk, Live;
    var t := OnInstance(s, onApi, name, Found(obj), known);
    var subject := if onApi then APIInstanceResource else ComponentInstanceResource;
    var target := if onApi then APIResource else ComponentResource;
    SideFound(SideOf(s, onApi), c, onApi, name, obj);
    FoundRefs(SideOf(s, onApi), SideOf(s, !onApi), c, onApi, s.findings, name, obj, subject, target, known);
    ReconcileLaws(c, s.findings, obj.uid, subject, obj.Ref(), target, known);
    ReleasesFrame(s, t, c);
    OrphansAfter(s, t, c, obj.uid);
  }

  lemma ReleasesFrame(s: Helm, t: Helm, c: Cluster)
    requires ReleasesOk(s, c) && t.systemNames == s.systemNames && t.systemInstances == s.systemInstances
      && s.latest.Keys <= t.latest.Keys
    ensures ReleasesOk(t, c)
  {
    hide HelmReleaseId, IsHelm;
  }

  lemma NamesApart(mine: Side, other: Side, c: Cluster, api: bool, name: string)
    requires Owned(mine, c, api) && Owned(other, c, !api) && name in mine.names
    ensures mine.names[name] != Nil && mine.names[name] !in other.instances
  {
  }

  lemma GoneKeepsInv(s: Helm, c: Cluster, onApi: bool, name: string)
    requires Inv(s, c)
    ensures Inv(OnInstance(s, onApi, name, NotFound, false), c)
  {
    hide Dangling, Missing, HelmReleaseId, Ours, AlwaysExclusive, RefsMatch, Touches, Owned, Agrees, OwnersSet,
        ReleasesOk, Live;
    var t := OnInstance(s, onApi, name, NotFound, false);
    var mine, other := SideOf(s, onApi), SideOf(s, !onApi);
    SideGone(mine, c, onApi, name);
    ReleasesFrame(s, t, c);
    if name in mine.names {
      var id := mine.names[name];
      NamesApart(mine, other, c, onApi, name);
      ForgetLaws(c, s.findings, id);
      RefsAfter(other, s.findings.now, t.findings.now, id);
      RefsMatchGone(mine, s.findings.now, t.findings.now, name);
      OrphansAfter(s, t, c, id);
    } else {
      assert mine.names - {name} == mine.names;
    }
  }

  lemma RefsMatchGone(side: Side, f: FindingMap, g: FindingMap, name: string)
    requires RefsMatch(side, f) && name in side.names && side.names[name] != Nil && Touches(f, g, side.names[name])
    ensures RefsMatch(side.Gone(name), g)
  {
    hide Dangling, Missing;
    var t := side.Gone(name);
    forall b | b in t.instances ensures Missing(b) in g <==> t.instances[b].ref == Nil {
      assert b != side.names[name] && SameRefs(f, g, b);
    }
  }

  // ---- releases ----

  lemma ClaimRefs(side: Side, f: FindingMap, name: string, release: Uuid)
    requires RefsMatch(side, f)
    ensures RefsMatch(side.Claim(name, release), f) && side.Claim(name, release).instances.Keys == side.instances.Keys
  {
    hide Missing;
  }

  lemma ClaimLive(side: Side, systemNames: NameMap, name: string, release: Uuid)
    requires OwnersLive(side, systemNames) && Live(systemNames, release)
    ensures OwnersLive(side.Claim(name, release), systemNames)
  {
    hide Live;
  }

  lemma ClaimKeepsSide(side: Side, c: Cluster, api: bool, f: FindingMap, systemNames: NameMap, name: string, id: Uuid)
    requires SideOk(side, c, api) && RefsMatch(side, f) && OwnersLive(side, systemNames) && Live(systemNames, id)
      && IsHelm(id)
    ensures var t := side.Claim(name, id);
      SideOk(t, c, api) && RefsMatch(t, f) && OwnersLive(t, systemNames) && t.instances.Keys == side.instances.Keys
  {
    SideClaim(side, c, api, name, id);
    ClaimRefs(side, f, name, id);
    ClaimLive(side, systemNames, name, id);
  }

  lemma CorrelateKeepsInv(s: Helm, c: Cluster, r: Resource, namespace: string, id: Uuid)
    requires Inv(s, c) && Live(s.systemNames, id) && IsHelm(id)
    ensures Inv(Correlate(s, r, namespace, id), c) && Correlate(s, r, namespace, id).systemNames == s.systemNames
  {
    hide Dangling, Missing, Ours, AlwaysExclusive, RefsMatch, SideOk, ReleasesOk, Live, OwnersLive, NameKey,
        IsWorkload, IsService;
    var t := Correlate(s, r, namespace, id);
    ClaimKeepsSide(s.component, c, false, s.findings.now, s.systemNames, NameKey(r, namespace), id);
    ClaimKeepsSide(s.api, c, true, s.findings.now, s.systemNames, NameKey(r, namespace), id);
    ReleasesFrame(s, t, c);
    assert forall b :: HasEntity(s, b) == HasEntity(t, b);
  }

  lemma {:induction false} CorrelateAllKeepsInv(s: Helm, c: Cluster, resources: seq<Resource>, namespace: string,
      id: Uuid)
    requires Inv(s, c) && Live(s.systemNames, id) && IsHelm(id)
    ensures var t := CorrelateAll(s, resources, namespace, id);
      Inv(t, c) && t.systemNames == s.systemNames && t.systemInstances == s.systemInstances && t.findings == s.findings
  {
    hide Inv, Live, NameKey;
    if resources != [] {
      var n := |resources| - 1;
      CorrelateAllKeepsInv(s, c, resources[..n], namespace, id);
      CorrelateKeepsInv(CorrelateAll(s, resources[..n], namespace, id), c, resources[n], namespace, id);
    }
  }

  lemma AddRelease(s: Helm, c: Cluster, key: string, si: SystemInstance)
    requires Inv(s, c) && key in s.latest && c.isRelease(key)
    ensures var id := HelmReleaseId(key);
      Inv(s.(systemInstances := s.systemInstances[id := si], systemNames := s.systemNames[key := id]), c)
  {
    var id := HelmReleaseId(key);
    var t := s.(systemInstances := s.systemInstances[id := si], systemNames := s.systemNames[key := id]);
    assert IsHelm(id);
    assert key in s.systemNames ==> s.systemNames[key] == id;
    assert t.systemNames[key] == id && Live(t.systemNames, id);
    LiveKept(s.systemNames, t.systemNames, key);
    hide Dangling, Missing, HelmReleaseId, IsHelm, Ours, AlwaysExclusive, RefsMatch, SideOk, Live;
    OwnersStillLive(s.component, s.systemNames, t.systemNames, c, false);
    OwnersStillLive(s.api, s.systemNames, t.systemNames, c, true);
  }

  /** A change under one key that takes no release's id away. */
  lemma LiveKept(before: NameMap, after: NameMap, key: string)
    requires forall k | k in before && k != key :: k in after && after[k] == before[k]
    requires key in before && IsHelm(before[key]) ==> key in after && after[key] == before[key]
    ensures forall id | Live(before, id) && IsHelm(id) :: Live(after, id)
  {
    hide IsHelm;
    forall id | Live(before, id) && IsHelm(id) ensures Live(after, id) {
      var k :| k in before && before[k] == id;
      assert k in after && after[k] == id;
    }
  }

  lemma OwnersStillLive(side: Side, before: NameMap, after: NameMap, c: Cluster, api: bool)
    requires SideOk(side, c, api) && OwnersLive(side, before)
    requires forall id | Live(before, id) && IsHelm(id) :: Live(after, id)
    ensures OwnersLive(side, after)
  {
    hide IsHelm, Live, Owned, Agrees;
  }

  lemma ReleaseIdApart(s: Helm, c: Cluster, key: string)
    requires SideOk(s.component, c, false) && SideOk(s.api, c, true) && DerivedIdsApart(c)
    ensures HelmReleaseId(key) !in s.component.instances && HelmReleaseId(key) !in s.api.instances
      && HelmReleaseId(key) != Nil
  {
    assert c.holder(HelmReleaseId(key)) == Other;
  }

  /** The finding part of a deployment or of any other change to one release's findings. */
  lemma ReleaseFindings(s: Helm, c: Cluster, id: Uuid, g: Findings)
    requires Inv(s, c) && AlwaysExclusive(c, g) && Touches(s.findings.now, g.now, id)
    requires id !in s.component.instances && id !in s.api.instances && id in s.systemInstances && IsHelm(id)
    ensures Inv(s.(findings := g), c)
  {
    hide Dangling, Missing, HelmReleaseId, Ours, AlwaysExclusive, RefsMatch, SideOk, OwnersLive, ReleasesOk, Touches;
    var t := s.(findings := g);
    ReleasesFrame(s, t, c);
    RefsAfter(s.component, s.findings.now, g.now, id);
    RefsAfter(s.api, s.findings.now, g.now, id);
    OrphansAfter(s, t, c, id);
  }

  lemma DeployKeepsInv(s: Helm, c: Cluster, key: string, release: string, namespace: string, data: ReleaseData,
      systemRef: Uuid, known: bool)
    requires Inv(s, c) && key in s.latest && c.isRelease(key) && DerivedIdsApart(c)
    ensures Inv(Deploy(s, key, release, namespace, data, systemRef, known), c)
  {
    var id, si := HelmReleaseId(key), SystemInstance(release, data.chartName + "-" + data.chartVersion);
    var s1 := s.(systemInstances := s.systemInstances[id := si], systemNames := s.systemNames[key := id]);
    AddRelease(s, c, key, si);
    assert Live(s1.systemNames, id) by { assert key in s1.systemNames && s1.systemNames[key] == id; }
    ReleaseIdApart(s, c, key);
    CorrelateAllKeepsInv(s1, c, data.resources, namespace, id);
    var s2 := CorrelateAll(s1, data.resources, namespace, id);
    hide HelmReleaseId, CorrelateAll, SideOk, OwnersLive, ReleasesOk, AlwaysExclusive, NoOrphanFindings, RefsMatch;
    ReleaseIdApart(s2, c, key);
    ReconcileLaws(c, s2.findings, id, SystemInstanceResource, systemRef, SystemResource, known);
    ReleaseFindings(s2, c, id, s2.findings.Reconcile(id, SystemInstanceResource, systemRef, SystemResource, known));
  }

  lemma TrackedMore(s: Helm, c: Cluster, latest: Revisions)
    requires Inv(s, c) && s.latest.Keys <= latest.Keys
    ensures Inv(s.(latest := latest), c)
  {
    hide SideOk, OwnersLive, ReleasesOk, AlwaysExclusive, RefsMatch, Dangling, Missing, Ours;
    ReleasesFrame(s, s.(latest := latest), c);
  }

  lemma SeenKeepsInv(s: Helm, c: Cluster, secret: Secret, known: bool, addFails: bool)
    requires Inv(s, c) && SecretOk(c, secret.namespace, secret.name) && DerivedIdsApart(c)
    ensures Inv(SecretFound(s, secret, known, addFails), c)
  {
    hide Inv, Deploy, ParseSecretName, DerivedIdsApart, ReleaseKey;
    var parts := ParseSecretName(secret.name);
    if secret.helmType && parts.Some? {
      var key, p := ReleaseKey(secret.namespace, parts.value.release), parts.value;
      if !(key in s.latest && p.revision < s.latest[key]) {
        var s1 := s.(latest := s.latest[key := p.revision]);
        TrackedMore(s, c, s1.latest);
        if secret.data.Some? {
          DeployKeepsInv(s1, c, key, p.release, secret.namespace, secret.data.value, secret.systemRef, known);
        }
      }
    }
  }

  lemma ReleaseRefs(side: Side, f: FindingMap, id: Uuid)
    requires RefsMatch(side, f)
    ensures RefsMatch(side.Release(id), f)
  {
    hide Missing;
  }

  lemma ReleaseLive(side: Side, systemNames: NameMap, key: string)
    requires OwnersLive(side, systemNames) && key in systemNames
    ensures OwnersLive(side.Release(systemNames[key]), systemNames - {key})
  {
    var t := side.Release(systemNames[key]);
    forall n | n in t.owners ensures Live(systemNames - {key}, t.owners[n]) {
      assert Live(systemNames, side.owners[n]);
      var k :| k in systemNames && systemNames[k] == side.owners[n];
      assert k in systemNames - {key} && (systemNames - {key})[k] == t.owners[n];
    }
  }

  lemma ReleasesWithout(s: Helm, t: Helm, c: Cluster, key: string)
    requires ReleasesOk(s, c) && key in s.systemNames && c.isRelease(key)
    requires t.systemNames == s.systemNames - {key} && t.latest == s.latest - {key}
    requires t.systemInstances == s.systemInstances - {s.systemNames[key]}
    ensures ReleasesOk(t, c)
  {
    forall k | k in t.systemNames && c.isRelease(k)
      ensures t.systemNames[k] == HelmReleaseId(k) && k in t.latest && t.systemNames[k] in t.systemInstances
    {
      HelmReleaseIdInjective(k, key);
    }
    hide HelmReleaseId, IsHelm;
    forall id | id in t.systemInstances && IsHelm(id) ensures Live(t.systemNames, id) {
      var k :| k in s.systemNames && s.systemNames[k] == id;
      assert k in t.systemNames && t.systemNames[k] == id;
    }
  }

  lemma LostKeepsInv(s: Helm, c: Cluster, key: string, revision: int)
    requires Inv(s, c) && c.isRelease(key) && DerivedIdsApart(c)
    ensures Inv(ReleaseGone(s, key, revision), c)
  {
    var t := ReleaseGone(s, key, revision);
    hide AlwaysExclusive, RefsMatch, Dangling, Missing, Ours, Owned, Agrees, OwnersSet, Touches, DerivedIdsApart;
    if key in s.latest && revision == s.latest[key] {
      if key in s.systemNames {
        var id := s.systemNames[key];
        assert id == HelmReleaseId(key) && IsHelm(id);
        ReleaseIdApart(s, c, key);
        hide HelmReleaseId, IsHelm, OwnersLive, Live, ReleasesOk;
        ReleasesWithout(s, t, c, key);
        SideRelease(s.component, c, false, id);
        SideRelease(s.api, c, true, id);
        ReleaseLive(s.component, s.systemNames, key);
        ReleaseLive(s.api, s.systemNames, key);
        ForgetLaws(c, s.findings, id);
        RefsAfter(s.component, s.findings.now, t.findings.now, id);
        RefsAfter(s.api, s.findings.now, t.findings.now, id);
        ReleaseRefs(s.component, t.findings.now, id);
        ReleaseRefs(s.api, t.findings.now, id);
        OrphansAfter(s, t, c, id);
      } else {
        assert s.systemNames - {key} == s.systemNames;
      }
    }
  }

  lemma {:induction false} ListAllGrows(latest: Revisions, secrets: seq<Secret>)
    ensures latest.Keys <= ListAll(latest, secrets).Keys
  {
    hide ParseSecretName;
    if secrets != [] { ListAllGrows(latest, secrets[..|secrets| - 1]); }
  }

  lemma ElsewhereKeepsInv(s: Helm, c: Cluster, findings: FindingMap)
    requires Inv(s, c) && forall id | Ours(c, id) :: SameRefs(s.findings.now, findings, id)
    ensures Inv(s.(findings := s.findings.(now := findings)), c)
  {
    hide Dangling, Missing, HelmReleaseId, OwnersLive, ReleasesOk, Agrees, OwnersSet;
    var t := s.(findings := s.findings.(now := findings));
    ReleasesFrame(s, t, c);
    assert Exclusive(c, findings) by {
      forall id | Ours(c, id) ensures !(Dangling(id) in findings && Missing(id) in findings) {
        assert SameRefs(s.findings.now, findings, id);
      }
    }
    forall id | id in s.component.instances || id in s.api.instances ensures SameRefs(s.findings.now, findings, id) {
      assert Ours(c, id);
    }
    assert RefsMatch(t.component, findings) && RefsMatch(t.api, findings);
    assert forall id | Ours(c, id) :: HasEntity(t, id) == HasEntity(s, id) && SameRefs(s.findings.now, findings, id);
  }

  lemma CustomReleases(s: Helm, c: Cluster, name: string, resource: Option<CustomResource>)
    requires ReleasesOk(s, c) && !c.isRelease(name) && (resource.Some? ==> !IsHelm(resource.value.id))
    ensures var t := OnCustom(s, name, resource);
      && ReleasesOk(t, c) && (forall id | Live(s.systemNames, id) && IsHelm(id) :: Live(t.systemNames, id))
      && (forall id | IsHelm(id) :: id in s.systemInstances <==> id in t.systemInstances)
  {
    assert forall k :: IsHelm(HelmReleaseId(k));
    hide HelmReleaseId, IsHelm, Live;
    LiveKept(s.systemNames, OnCustom(s, name, resource).systemNames, name);
  }

  /** A SystemInstance custom resource appears, changes or goes: releases are not affected. */
  lemma CustomKeepsInv(s: Helm, c: Cluster, name: string, resource: Option<CustomResource>)
    requires Inv(s, c) && !c.isRelease(name) && (resource.Some? ==> !IsHelm(resource.value.id))
    ensures Inv(OnCustom(s, name, resource), c)
  {
    var t := OnCustom(s, name, resource);
    CustomReleases(s, c, name, resource);
    hide Dangling, Missing, IsHelm, Ours, AlwaysExclusive, RefsMatch, SideOk, OwnersLive, ReleasesOk, Live;
    OwnersStillLive(s.component, s.systemNames, t.systemNames, c, false);
    OwnersStillLive(s.api, s.systemNames, t.systemNames, c, true);
    assert forall id :: HasEntity(t, id) == HasEntity(s, id);
  }

  /** Every event keeps the invariant. */
  lemma StepKeepsInv(s: Helm, c: Cluster, e: Event)
    requires Inv(s, c) && Possible(s, c, e) && DerivedIdsApart(c)
    ensures Inv(Step(s, e), c)
  {
    hide Inv, DerivedIdsApart, ParseSecretName, ReleaseKey;
    match e
    case InstanceEvent(onApi, name, got, known) =>
      if got.NotFound? {
        GoneKeepsInv(s, c, onApi, name);
      } else {
        var obj := if onApi then got.obj.(skip := false) else got.obj;
        assert Step(s, e) == OnInstance(s, onApi, name, Found(obj), known);
        if !Ignored(obj) { FoundKeepsInv(s, c, onApi, name, obj, known); }
      }
    case SecretSeen(secret, known, addFails) => SeenKeepsInv(s, c, secret, known, addFails);
    case SecretLost(namespace, name) =>
      var parts := ParseSecretName(name);
      if parts.Some? { LostKeepsInv(s, c, ReleaseKey(namespace, parts.value.release), parts.value.revision); }
    case Startup(secrets) =>
      ListAllGrows(s.latest, secrets);
      TrackedMore(s, c, ListAll(s.latest, secrets));
    case CustomEvent(name, resource) => CustomKeepsInv(s, c, name, resource);
    case Elsewhere(findings) => ElsewhereKeepsInv(s, c, findings);
  }

  // ---- runs ----

  const START := Helm(map[], map[], map[], Side(map[], map[], map[]), Side(map[], map[], map[]), Findings(map[], []))

  ghost predicate IsRun(run: seq<Event>, states: seq<Helm>, c: Cluster) {
    && |states| == |run| + 1 && states[0] == START
    && forall i | 0 <= i < |run| :: Possible(states[i], c, run[i]) && Step(states[i], run[i]) == states[i + 1]
  }

  lemma StartIsInv(c: Cluster)
    ensures Inv(START, c)
  {
    hide Dangling, Missing, HelmReleaseId;
  }

  lemma {:induction false} ReachableIsInv(run: seq<Event>, states: seq<Helm>, c: Cluster, i: nat)
    requires IsRun(run, states, c) && DerivedIdsApart(c) && i <= |run|
    ensures Inv(states[i], c)
    decreases i
  {
    hide Inv, DerivedIdsApart;
    if i == 0 {
      StartIsInv(c);
    } else {
      ReachableIsInv(run, states, c, i - 1);
      assert Possible(states[i - 1], c, run[i - 1]) && Step(states[i - 1], run[i - 1]) == states[i];
      StepKeepsInv(states[i - 1], c, run[i - 1]);
    }
  }

  /** Owner agreement in every reachable state, in whatever order releases, workloads and services
      came, changed and went: an indexed instance without an annotation of its own that the owner
      index assigns to a release is attached to exactly that release. */
  lemma HelmOwnerAgreement(run: seq<Event>, states: seq<Helm>, c: Cluster, i: nat, onApi: bool, name: string)
    requires IsRun(run, states, c) && DerivedIdsApart(c) && i <= |run|
    ensures var side := SideOf(states[i], onApi);
      name in side.owners && name in side.names && side.names[name] in side.instances
      && side.instances[side.names[name]].annotated == Nil
      ==> side.instances[side.names[name]].systemInstance == side.owners[name]
  {
    ReachableIsInv(run, states, c, i);
    hide Dangling, Missing, HelmReleaseId;
  }

  /** No orphaned Helm state in any reachable state, whatever custom resources there are beside the
      releases: an indexed release has a tracked revision and a stored SystemInstance, every stored
      SystemInstance of a release is that of an indexed one, and every owner entry names one. */
  lemma NoOrphanedHelmState(run: seq<Event>, states: seq<Helm>, c: Cluster, i: nat)
    requires IsRun(run, states, c) && DerivedIdsApart(c) && i <= |run|
    ensures var s := states[i];
      && (forall k | k in s.systemNames && c.isRelease(k) ::
            k in s.latest && s.systemNames[k] == HelmReleaseId(k) && s.systemNames[k] in s.systemInstances)
      && (forall id | id in s.systemInstances && IsHelm(id) :: Released(s, c, id))
      && (forall onApi, n | n in SideOf(s, onApi).owners :: Released(s, c, SideOf(s, onApi).owners[n]))
  {
    ReachableIsInv(run, states, c, i);
    hide Dangling, Missing, HelmReleaseId, IsHelm;
    var s := states[i];
    forall id | Live(s.systemNames, id) && IsHelm(id) ensures Released(s, c, id) {
      var k :| k in s.systemNames && s.systemNames[k] == id;
      assert c.isRelease(k);
    }
  }

  /** The id of the SystemInstance of an indexed release. */
  ghost predicate Released(s: Helm, c: Cluster, id: Uuid) {
    exists k :: c.isRelease(k) && k in s.systemNames && s.systemNames[k] == id
  }

  /** Reference findings: at no model write of any run does a subject have both findings; between
      events a stored API or component instance misses a reference exactly when it has none; and no
      reference finding outlives its entity. */
  lemma ReferenceFindingsAreExact(run: seq<Event>, states: seq<Helm>, c: Cluster, i: nat)
    requires IsRun(run, states, c) && DerivedIdsApart(c) && i <= |run|
    ensures var s := states[i];
      && (forall f, id | (f in s.findings.journal || f == s.findings.now) && Ours(c, id) ::
            !(Dangling(id) in f && Missing(id) in f))
      && (forall onApi, id | id in SideOf(s, onApi).instances ::
            Missing(id) in s.findings.now <==> SideOf(s, onApi).instances[id].ref == Nil)
      && (forall id | Ours(c, id) && (Dangling(id) in s.findings.now || Missing(id) in s.findings.now) ::
        HasEntity(s, id))
  {
    ReachableIsInv(run, states, c, i);
    hide Dangling, Missing, HelmReleaseId;
    var s := states[i];
    assert forall f | f in s.findings.journal || f == s.findings.now :: Exclusive(c, f);
  }
}
