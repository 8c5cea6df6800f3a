/** What one event of the Helm, workload and API-instance reconcilers changes, and what it leaves. */
module HelmEffects {
  import opened Text
  import opened Uuids
  import opened Registry
  import opened Landscape
  import opened HelmSecretName
  import opened ReferenceFindings
  import opened HelmRelease
  import opened HelmLaws

  // ---- reference findings ----

  /** From f to g the findings of a subject are settled: it misses a reference if it has none, it has a
      dangling one if the target is unknown, and no other finding changes. */
  ghost predicate Settled(f: FindingMap, g: FindingMap, subject: ResourceRef, ref: ResourceRef, known: bool) {
    var missing := ReferenceFindingId(subject.id, MISSING_RESOURCE_REFERENCE);
    var dangling := ReferenceFindingId(subject.id, REFERENCED_RESOURCE_NOT_FOUND);
    && (forall id | id != missing && id != dangling :: SameAt(f, g, id))
    && (if ref.id == Nil then MapsTo(g, missing, Finding(OfKind(MISSING_RESOURCE_REFERENCE), [subject]))
        else missing !in g)
    && if ref.id != Nil && !known then
         MapsTo(g, dangling, Finding(OfKind(REFERENCED_RESOURCE_NOT_FOUND), [subject, ref]))
       else dangling !in g
  }

  lemma ReconcileSettles(f: Findings, id: Uuid, subject: ResourceType, ref: Uuid, target: ResourceType, known: bool)
    ensures Settled(f.now, f.Reconcile(id, subject, ref, target, known).now,
      ResourceRef(id, subject), ResourceRef(ref, target), known)
  {
    RefIdsDistinct(id);
    assert ReferenceFindingId(id, MISSING_RESOURCE_REFERENCE) == Missing(id);
    assert ReferenceFindingId(id, REFERENCED_RESOURCE_NOT_FOUND) == Dangling(id);
    hide ReferenceFindingId;
  }

  // ---- instances ----

  /** An instance that exists: the annotation `ref` comes before `legacyRef`, and the object's own
      SystemInstance annotation before the Helm owner of its name. */
  lemma InstanceEffect(s: Helm, onApi: bool, name: string, obj: NativeObject, known: bool)
    requires obj.uid != Nil && (onApi || !obj.skip)
    ensures var t, mine := Step(s, InstanceEvent(onApi, name, Found(obj), known)), SideOf(s, onApi);
      var ref := if obj.ref != Nil then obj.ref else obj.legacyRef;
      var owner := if name in mine.owners then mine.owners[name] else Nil;
      var attached := if obj.systemInstanceId != Nil then obj.systemInstanceId else owner;
      var instance := Instance(obj.name, ref, obj.systemInstanceId, attached);
      && SideOf(t, onApi)
          == Side(mine.names[name := obj.uid], mine.owners, mine.instances[obj.uid := instance])
      && t == s.(component := t.component, api := t.api, findings := t.findings)
      && SideOf(t, !onApi) == SideOf(s, !onApi)
      && Settled(s.findings.now, t.findings.now,
           ResourceRef(obj.uid, if onApi then APIInstanceResource else ComponentInstanceResource),
           ResourceRef(ref, if onApi then APIResource else ComponentResource), known)
  {
    ReconcileSettles(s.findings, obj.uid, if onApi then APIInstanceResource else ComponentInstanceResource,
      if obj.ref != Nil then obj.ref else obj.legacyRef, if onApi then APIResource else ComponentResource, known);
    hide Settled, Findings.Reconcile;
  }

  /** An object that is skipped or has no readable UID changes nothing; only workloads are skipped. */
  lemma IgnoredEffect(s: Helm, onApi: bool, name: string, obj: NativeObject, known: bool)
    requires obj.uid == Nil || (!onApi && obj.skip)
    ensures Step(s, InstanceEvent(onApi, name, Found(obj), known)) == s
  {
  }

  /** From f to g both findings of a subject go, and no other changes. */
  ghost predicate Dropped(f: FindingMap, g: FindingMap, id: Uuid) {
    g == f - {ReferenceFindingId(id, MISSING_RESOURCE_REFERENCE), ReferenceFindingId(id, REFERENCED_RESOURCE_NOT_FOUND)}
  }

  lemma ForgetDrops(f: Findings, id: Uuid)
    ensures Dropped(f.now, f.Forget(id).now, id)
  {
    hide ReferenceFindingId;
  }

  /** An instance that is gone takes its name, its entity and its findings with it. */
  lemma GoneEffect(s: Helm, onApi: bool, name: string, known: bool)
    ensures var t, mine := Step(s, InstanceEvent(onApi, name, NotFound, known)), SideOf(s, onApi);
      && t == s.(component := t.component, api := t.api, findings := t.findings)
      && SideOf(t, !onApi) == SideOf(s, !onApi)
      && if name in mine.names && mine.names[name] != Nil then
           var id := mine.names[name];
           && SideOf(t, onApi) == Side(mine.names - {name}, mine.owners, mine.instances - {id})
           && Dropped(s.findings.now, t.findings.now, id)
         else SideOf(t, onApi) == mine.(names := mine.names - {name}) && t.findings == s.findings
  {
    var mine := SideOf(s, onApi);
    if name in mine.names { ForgetDrops(s.findings, mine.names[name]); }
    hide Dropped, Findings.Forget;
  }

  // ---- what a release claims ----

  const WORKLOADS := {"Deployment", "StatefulSet", "DaemonSet", "Job", "CronJob"}
  const SERVICES := {"Service", "Ingress"}

  /** The kinds of manifest resources that show up as instances of a side. */
  function KindsOf(onApi: bool): set<string> { if onApi then SERVICES else WORKLOADS }

  /** The name of a resource, in its own namespace or in that of the release. */
  function NameOf(r: Resource, namespace: string): string {
    (if r.namespace != "" then r.namespace else namespace) + "/" + r.name
  }

  predicate ClaimsAs(r: Resource, namespace: string, onApi: bool, name: string) {
    r.kind in KindsOf(onApi) && name == NameOf(r, namespace)
  }

  ghost predicate Claims(resources: seq<Resource>, namespace: string, onApi: bool, name: string) {
    exists r :: r in resources && ClaimsAs(r, namespace, onApi, name)
  }

  /** From side a to side b a release claims the names that its manifest has for this side: it is
      their owner, and what is indexed under them is attached to it. Nothing else changes. */
  ghost predicate Claimed(a: Side, b: Side, resources: seq<Resource>, namespace: string, onApi: bool, id: Uuid) {
    b.names == a.names && Owns(a, b, resources, namespace, onApi, id) && Attaches(a, b, resources, namespace, onApi, id)
  }

  ghost predicate Owns(a: Side, b: Side, resources: seq<Resource>, namespace: string, onApi: bool, id: Uuid) {
    forall k :: if Claims(resources, namespace, onApi, k) then MapsTo(b.owners, k, id)
                else SameAt(a.owners, b.owners, k)
  }

  ghost predicate Attaches(a: Side, b: Side, resources: seq<Resource>, namespace: string, onApi: bool, id: Uuid) {
    && b.instances.Keys == a.instances.Keys
    && forall x | x in a.instances :: b.instances[x] ==
         if x != Nil && Known(a.names, resources, namespace, onApi, x) then a.instances[x].(systemInstance := id)
         else a.instances[x]
  }

  /** The id is that of a claimed name. */
  ghost predicate Known(names: NameMap, resources: seq<Resource>, namespace: string, onApi: bool, id: Uuid) {
    exists k :: k in names && names[k] == id && Claims(resources, namespace, onApi, k)
  }

  lemma KindsApart(kind: string)
    ensures !(kind in WORKLOADS && kind in SERVICES)
    ensures IsWorkload(kind) <==> kind in WORKLOADS
    ensures IsService(kind) <==> kind in SERVICES
  {
    if kind in SERVICES { assert kind[0] == 'S' || kind[0] == 'I'; assert kind[1] == 'e' || kind[1] == 'n'; }
  }

  lemma CorrelateEffect(s: Helm, r: Resource, namespace: string, id: Uuid, onApi: bool)
    ensures var t := Correlate(s, r, namespace, id);
      && t == s.(component := t.component, api := t.api)
      && SideOf(t, onApi) ==
           if r.kind in KindsOf(onApi) then SideOf(s, onApi).Claim(NameOf(r, namespace), id) else SideOf(s, onApi)
  {
    KindsApart(r.kind);
    hide IsWorkload, IsService, Side.Claim;
  }

  lemma ClaimsOneMore(resources: seq<Resource>, namespace: string, onApi: bool)
    requires resources != []
    ensures var init, r := resources[..|resources| - 1], resources[|resources| - 1];
      forall k :: Claims(resources, namespace, onApi, k)
        <==> Claims(init, namespace, onApi, k) || ClaimsAs(r, namespace, onApi, k)
  {
    hide ClaimsAs;
    var n := |resources| - 1;
    assert resources == resources[..n] + [resources[n]];
  }

  /** A release claims one more name, or none. */
  ghost predicate ClaimedName(b: Side, c: Side, claims: string -> bool, id: Uuid) {
    && c.names == b.names && c.instances.Keys == b.instances.Keys
    && (forall k :: if claims(k) then MapsTo(c.owners, k, id) else SameAt(b.owners, c.owners, k))
    && forall x | x in b.instances :: c.instances[x] ==
         if x != Nil && exists k :: k in b.names && b.names[k] == x && claims(k)
         then b.instances[x].(systemInstance := id) else b.instances[x]
  }

  lemma ClaimIsOfName(b: Side, name: string, id: Uuid)
    ensures ClaimedName(b, b.Claim(name, id), k => k == name, id)
  {
  }

  lemma KnownOneMore(names: NameMap, resources: seq<Resource>, namespace: string, onApi: bool, x: Uuid)
    requires resources != []
    ensures var init, r := resources[..|resources| - 1], resources[|resources| - 1];
      var one := exists k :: k in names && names[k] == x && ClaimsAs(r, namespace, onApi, k);
      Known(names, resources, namespace, onApi, x) <==> Known(names, init, namespace, onApi, x) || one
  {
    ClaimsOneMore(resources, namespace, onApi);
    hide ClaimsAs, Claims;
  }

  /** One more resource of the manifest. */
  lemma OwnsOneMore(a: Side, b: Side, c: Side, resources: seq<Resource>, namespace: string, onApi: bool, id: Uuid)
    requires resources != [] && Owns(a, b, resources[..|resources| - 1], namespace, onApi, id)
    requires ClaimedName(b, c, k => ClaimsAs(resources[|resources| - 1], namespace, onApi, k), id)
    ensures Owns(a, c, resources, namespace, onApi, id)
  {
    ClaimsOneMore(resources, namespace, onApi);
    hide ClaimsAs, Claims;
    var init, r := resources[..|resources| - 1], resources[|resources| - 1];
    forall k ensures if Claims(resources, namespace, onApi, k) then MapsTo(c.owners, k, id)
                     else SameAt(a.owners, c.owners, k) {
      if Claims(init, namespace, onApi, k) { assert MapsTo(b.owners, k, id); }
      if !ClaimsAs(r, namespace, onApi, k) { assert SameAt(b.owners, c.owners, k); }
      if !Claims(init, namespace, onApi, k) { assert SameAt(a.owners, b.owners, k); }
    }
  }

  lemma AttachesOneMore(a: Side, b: Side, c: Side, resources: seq<Resource>, namespace: string, onApi: bool, id: Uuid)
    requires resources != [] && Attaches(a, b, resources[..|resources| - 1], namespace, onApi, id)
    requires ClaimedName(b, c, k => ClaimsAs(resources[|resources| - 1], namespace, onApi, k), id) && a.names == b.names
    ensures Attaches(a, c, resources, namespace, onApi, id)
  {
    forall x | x in a.instances ensures c.instances[x] ==
        if x != Nil && Known(a.names, resources, namespace, onApi, x) then a.instances[x].(systemInstance := id)
        else a.instances[x] {
      KnownOneMore(a.names, resources, namespace, onApi, x);
      hide ClaimsAs, Known;
    }
  }

  lemma ClaimedOneMore(a: Side, b: Side, c: Side, resources: seq<Resource>, namespace: string, onApi: bool, id: Uuid)
    requires resources != [] && Claimed(a, b, resources[..|resources| - 1], namespace, onApi, id)
    requires ClaimedName(b, c, k => ClaimsAs(resources[|resources| - 1], namespace, onApi, k), id)
    ensures Claimed(a, c, resources, namespace, onApi, id)
  {
    hide ClaimsAs, Owns, Attaches;
    OwnsOneMore(a, b, c, resources, namespace, onApi, id);
    AttachesOneMore(a, b, c, resources, namespace, onApi, id);
  }

  lemma CorrelateClaims(b: Side, r: Resource, namespace: string, onApi: bool, id: Uuid)
    ensures var c := if r.kind in KindsOf(onApi) then b.Claim(NameOf(r, namespace), id) else b;
      ClaimedName(b, c, k => ClaimsAs(r, namespace, onApi, k), id)
  {
    ClaimIsOfName(b, NameOf(r, namespace), id);
    hide KindsOf, NameOf, Side.Claim;
  }

  lemma {:induction false} CorrelateAllEffect(s: Helm, resources: seq<Resource>, namespace: string, id: Uuid,
      onApi: bool)
    ensures var t := CorrelateAll(s, resources, namespace, id);
      && t == s.(component := t.component, api := t.api)
      && Claimed(SideOf(s, onApi), SideOf(t, onApi), resources, namespace, onApi, id)
  {
    hide Claimed, ClaimedName, Correlate, KindsOf, NameOf, Side.Claim;
    if resources == [] {
      NothingClaimed(SideOf(s, onApi), namespace, onApi, id);
    } else {
      var n := |resources| - 1;
      var before := CorrelateAll(s, resources[..n], namespace, id);
      CorrelateAllEffect(s, resources[..n], namespace, id, onApi);
      CorrelateEffect(before, resources[n], namespace, id, onApi);
      CorrelateClaims(SideOf(before, onApi), resources[n], namespace, onApi, id);
      ClaimedOneMore(SideOf(s, onApi), SideOf(before, onApi),
        SideOf(CorrelateAll(s, resources, namespace, id), onApi), resources, namespace, onApi, id);
    }
  }

  lemma NothingClaimed(a: Side, namespace: string, onApi: bool, id: Uuid)
    ensures Claimed(a, a, [], namespace, onApi, id)
  {
  }

  // ---- a Secret is seen ----

  /** The Secret is that of a release, and no newer revision of the release is tracked. */
  ghost predicate Current(s: Helm, secret: Secret) {
    secret.helmType && ParseSecretName(secret.name).Some? &&
    var parts := ParseSecretName(secret.name).value;
    var key := secret.namespace + "/" + parts.release;
    key in s.latest ==> s.latest[key] <= parts.revision
  }

  /** It says that the release is deployed, and the release brings no SystemInstance of its own. */
  ghost predicate Deployed(secret: Secret) {
    && secret.data.Some? && secret.data.value.status == "deployed"
    && forall r | r in secret.data.value.resources :: r.kind != "SystemInstance"
  }

  lemma DeployEffect(s: Helm, key: string, release: string, namespace: string, data: ReleaseData, systemRef: Uuid,
                     known: bool)
    ensures var t, id := Deploy(s, key, release, namespace, data, systemRef, known), HelmReleaseId(key);
      var entity := SystemInstance(release, data.chartName + "-" + data.chartVersion);
      && t.latest == s.latest && t.systemNames == s.systemNames[key := id]
      && t.systemInstances == s.systemInstances[id := entity]
      && (forall onApi :: Claimed(SideOf(s, onApi), SideOf(t, onApi), data.resources, namespace, onApi, id))
      && Settled(s.findings.now, t.findings.now, ResourceRef(id, SystemInstanceResource),
           ResourceRef(systemRef, SystemResource), known)
  {
    var id, entity := HelmReleaseId(key), SystemInstance(release, data.chartName + "-" + data.chartVersion);
    var s1 := s.(systemInstances := s.systemInstances[id := entity], systemNames := s.systemNames[key := id]);
    CorrelateAllEffect(s1, data.resources, namespace, id, false);
    CorrelateAllEffect(s1, data.resources, namespace, id, true);
    ReconcileSettles(s.findings, id, SystemInstanceResource, systemRef, SystemResource, known);
    hide HelmReleaseId, CorrelateAll, Claimed, Settled, Findings.Reconcile;
  }

  /** A Secret that is not current changes nothing; a current one is tracked; and if it is deployed, and the
      model takes it, the release is stored and indexed, claims what its manifest has on either side, and
      has its reference findings settled. */
  lemma SecretEffect(s: Helm, secret: Secret, known: bool, addFails: bool)
    ensures !Current(s, secret) ==> Step(s, SecretSeen(secret, known, addFails)) == s
    ensures Current(s, secret) ==>
      var t, parts := Step(s, SecretSeen(secret, known, addFails)), ParseSecretName(secret.name).value;
      var key := secret.namespace + "/" + parts.release;
      && t.latest == s.latest[key := parts.revision]
      && if !Deployed(secret) || addFails then t == s.(latest := t.latest)
         else
           var id, data := HelmReleaseId(key), secret.data.value;
           var entity := SystemInstance(parts.release, data.chartName + "-" + data.chartVersion);
           && t.systemNames == s.systemNames[key := id] && t.systemInstances == s.systemInstances[id := entity]
           && (forall onApi ::
                 Claimed(SideOf(s, onApi), SideOf(t, onApi), data.resources, secret.namespace, onApi, id))
           && Settled(s.findings.now, t.findings.now, ResourceRef(id, SystemInstanceResource),
                ResourceRef(secret.systemRef, SystemResource), known)
  {
    hide ParseSecretName, HelmReleaseId, Claimed, Settled, Deploy;
    if Current(s, secret) && Deployed(secret) {
      var parts := ParseSecretName(secret.name).value;
      var key := secret.namespace + "/" + parts.release;
      var s1 := s.(latest := s.latest[key := parts.revision]);
      DeployEffect(s1, key, parts.release, secret.namespace, secret.data.value, secret.systemRef, known);
    }
  }

  // ---- a Secret is gone, and custom resources ----

  /** The Secret holds the tracked revision of its release. */
  ghost predicate Tracked(s: Helm, namespace: string, secretName: string) {
    ParseSecretName(secretName).Some? &&
    var parts := ParseSecretName(secretName).value;
    MapsTo(s.latest, namespace + "/" + parts.release, parts.revision)
  }

  /** A Secret that is gone counts only if it holds the tracked revision of its release. Then the release is
      forgotten: its revision, its name and, if it is indexed, its SystemInstance, its owner entries and its
      findings. Instances stay as they are. */
  lemma LostEffect(s: Helm, namespace: string, secretName: string)
    ensures !Tracked(s, namespace, secretName) ==> Step(s, SecretLost(namespace, secretName)) == s
    ensures Tracked(s, namespace, secretName) ==>
      var t, key := Step(s, SecretLost(namespace, secretName)),
        namespace + "/" + ParseSecretName(secretName).value.release;
      && t.latest == s.latest - {key} && t.systemNames == s.systemNames - {key}
      && if key !in s.systemNames || s.systemNames[key] == Nil then
           t == s.(latest := t.latest, systemNames := t.systemNames)
         else
           var id := s.systemNames[key];
           && t.systemInstances == s.systemInstances - {id} && Dropped(s.findings.now, t.findings.now, id)
           && (forall onApi :: SideOf(t, onApi) == SideOf(s, onApi).(owners := SideOf(t, onApi).owners))
           && (forall onApi, k :: if MapsTo(SideOf(s, onApi).owners, k, id) then k !in SideOf(t, onApi).owners
                                  else SameAt(SideOf(s, onApi).owners, SideOf(t, onApi).owners, k))
  {
    hide ParseSecretName, Dropped, Findings.Forget;
    if Tracked(s, namespace, secretName) {
      var key := namespace + "/" + ParseSecretName(secretName).value.release;
      if key in s.systemNames { ForgetDrops(s.findings, s.systemNames[key]); }
    }
  }

  /** A SystemInstance custom resource with a UUID is stored and indexed; one that is gone takes its name
      and its entity with it. Nothing else changes. */
  lemma CustomEffect(s: Helm, name: string, resource: Option<CustomResource>)
    ensures var t := Step(s, CustomEvent(name, resource));
      && t == s.(systemNames := t.systemNames, systemInstances := t.systemInstances)
      && match resource
         case Some(r) =>
           if r.id == Nil then t == s
           else t.systemNames == s.systemNames[name := r.id]
                && t.systemInstances == s.systemInstances[r.id := r.entity]
         case None =>
           && t.systemNames == s.systemNames - {name}
           && t.systemInstances == if name in s.systemNames && s.systemNames[name] != Nil
                                   then s.systemInstances - {s.systemNames[name]} else s.systemInstances
  {
  }
}
