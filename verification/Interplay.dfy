/** The machines share one store of findings. What one of them does is, to each of the others, an event
    of its `Elsewhere`: every machine keeps to findings of its own. */
module Interplay {
  import opened Uuids
  import opened Registry
  import opened Landscape
  import opened ReferenceFindings
  import CrdCheck
  import HelmLaws
  import HelmRelease
  import ImageObservations
  import ImageScan
  import ImageScanLaws
  import Rbac
  import RbacLaws

  type FindingStore = map<Uuid, Finding>

  datatype Machine = RbacMachine | HelmMachine | ScanMachine | CrdMachine

  /** The findings a machine writes. */
  ghost predicate Owns(m: Machine, id: Uuid) {
    match m
    case RbacMachine => id.V5? && id.space in {MissingSubjectSpace, MissingRoleSpecSpace}
    case HelmMachine => exists a :: id == Dangling(a) || id == Missing(a)
    case ScanMachine => exists a :: id == ImageScan.NotRetrievedId(a)
    case CrdMachine => id.V5? && id.space == CrdMissingSpace
  }

  ghost predicate Writes(m: Machine, f: FindingStore, g: FindingStore) {
    forall id | !Owns(m, id) :: SameAt(f, g, id)
  }

  /** No finding has two owners. */
  lemma OneOwner(m: Machine, n: Machine, id: Uuid)
    requires m != n && Owns(m, id)
    ensures !Owns(n, id)
  {
    forall a, b ensures ImageScan.NotRetrievedId(a) != Dangling(b) && ImageScan.NotRetrievedId(a) != Missing(b) {
      ReferenceFindingIdInjective(a, IMAGE_NOT_RETRIEVED, b, REFERENCED_RESOURCE_NOT_FOUND);
      ReferenceFindingIdInjective(a, IMAGE_NOT_RETRIEVED, b, MISSING_RESOURCE_REFERENCE);
      assert IMAGE_NOT_RETRIEVED[0] == 'I';
      assert REFERENCED_RESOURCE_NOT_FOUND[0] == 'R' && MISSING_RESOURCE_REFERENCE[0] == 'M';
    }
  }

  lemma WritesTwice(m: Machine, f: FindingStore, g: FindingStore, h: FindingStore)
    requires Writes(m, f, g) && Writes(m, g, h)
    ensures Writes(m, f, h)
  {
    hide Owns;
    forall id | !Owns(m, id) ensures SameAt(f, h, id) {
      assert SameAt(f, g, id) && SameAt(g, h, id);
    }
  }

  // ---- what each machine writes ----

  lemma BindingWrites(a: Rbac.Access, wl: Rbac.Whitelist, nn: Rbac.NamespacedName, got: Rbac.Got<Rbac.BindingObject>)
    ensures got.Found? ==> Writes(RbacMachine, a.findings, Rbac.BindingFound(a, wl, nn, got.obj).findings)
    ensures Writes(RbacMachine, a.findings, Rbac.BindingGone(a, nn).findings)
  {
    hide WithWaiting, WithoutWaiting;
  }

  lemma RoleWrites(a: Rbac.Access, wl: Rbac.Whitelist, nn: Rbac.NamespacedName, got: Rbac.Got<Rbac.RoleObject>)
    ensures got.Found? ==> Writes(RbacMachine, a.findings, Rbac.RoleFound(a, wl, nn, got.obj).findings)
    ensures Writes(RbacMachine, a.findings, Rbac.RoleGone(a, nn).findings)
  {
  }

  lemma RbacWrites(s: RbacLaws.System, wl: Rbac.Whitelist, e: RbacLaws.Event)
    requires !e.Elsewhere?
    ensures Writes(RbacMachine, s.a.findings, RbacLaws.Step(s, wl, e).a.findings)
  {
    hide Owns, Rbac.BindingFound, Rbac.BindingGone, Rbac.RoleFound, Rbac.RoleGone, Rbac.SendAll;
    match e
    case BindingEvent(nn, got) => BindingWrites(s.a, wl, nn, got);
    case RoleEvent(nn, got, _) => RoleWrites(s.a, wl, nn, got);
    case Dequeue(clusterScoped, got) =>
      var items := s.Chan(clusterScoped).items;
      if items != [] { BindingWrites(s.a, wl, items[0], got); }
  }

  ghost predicate OnlyAt(f: FindingStore, g: FindingStore, a: Uuid, b: Uuid) {
    forall id | id != a && id != b :: SameAt(f, g, id)
  }

  lemma OnlyReferences(f: FindingStore, g: FindingStore, id: Uuid)
    requires OnlyAt(f, g, Dangling(id), Missing(id))
    ensures Writes(HelmMachine, f, g)
  {
    assert Owns(HelmMachine, Dangling(id)) && Owns(HelmMachine, Missing(id));
    hide Owns, Dangling, Missing;
  }

  lemma ReconcileWrites(f: Findings, id: Uuid, subject: ResourceType, ref: Uuid, target: ResourceType, known: bool)
    ensures Writes(HelmMachine, f.now, f.Reconcile(id, subject, ref, target, known).now)
    ensures Writes(HelmMachine, f.now, f.Forget(id).now)
  {
    hide Owns, Dangling, Missing, Writes;
    OnlyReferences(f.now, f.Reconcile(id, subject, ref, target, known).now, id);
    OnlyReferences(f.now, f.Forget(id).now, id);
  }

  lemma {:induction false} CorrelateWritesNothing(s: HelmRelease.Helm, resources: seq<HelmRelease.Resource>,
                                                  namespace: string, id: Uuid)
    ensures HelmRelease.CorrelateAll(s, resources, namespace, id).findings == s.findings
  {
    hide HelmRelease.NameKey;
    if resources != [] { CorrelateWritesNothing(s, resources[..|resources| - 1], namespace, id); }
  }

  lemma DeployWrites(s: HelmRelease.Helm, key: string, release: string, namespace: string,
                     data: HelmRelease.ReleaseData, systemRef: Uuid, known: bool)
    ensures Writes(HelmMachine, s.findings.now,
      HelmRelease.Deploy(s, key, release, namespace, data, systemRef, known).findings.now)
  {
    var id, entity := HelmReleaseId(key), SystemInstance(release, data.chartName + "-" + data.chartVersion);
    var s1 := s.(systemInstances := s.systemInstances[id := entity], systemNames := s.systemNames[key := id]);
    CorrelateWritesNothing(s1, data.resources, namespace, id);
    ReconcileWrites(s.findings, id, SystemInstanceResource, systemRef, SystemResource, known);
    hide Writes, HelmRelease.CorrelateAll;
  }

  lemma Unwritten(m: Machine, f: FindingStore)
    ensures Writes(m, f, f)
  {
  }

  lemma SecretWrites(s: HelmRelease.Helm, secret: HelmRelease.Secret, known: bool, addFails: bool)
    ensures Writes(HelmMachine, s.findings.now, HelmRelease.SecretFound(s, secret, known, addFails).findings.now)
  {
    Unwritten(HelmMachine, s.findings.now);
    hide Writes, HelmRelease.Deploy, HelmRelease.ReleaseKey;
    forall t: HelmRelease.Helm, key, release, data | t.findings == s.findings
      ensures Writes(HelmMachine, s.findings.now,
        HelmRelease.Deploy(t, key, release, secret.namespace, data, secret.systemRef, known).findings.now)
    {
      DeployWrites(t, key, release, secret.namespace, data, secret.systemRef, known);
    }
  }

  lemma ReleaseGoneWrites(s: HelmRelease.Helm, key: string, revision: int)
    ensures Writes(HelmMachine, s.findings.now, HelmRelease.ReleaseGone(s, key, revision).findings.now)
  {
    Unwritten(HelmMachine, s.findings.now);
    if key in s.systemNames {
      ReconcileWrites(s.findings, s.systemNames[key], SystemInstanceResource, Nil, SystemResource, false);
    }
    hide Writes;
  }

  lemma InstanceWrites(s: HelmRelease.Helm, onApi: bool, name: string, got: HelmLaws.Got, known: bool)
    ensures Writes(HelmMachine, s.findings.now, HelmLaws.OnInstance(s, onApi, name, got, known).findings.now)
  {
    Unwritten(HelmMachine, s.findings.now);
    var side := HelmLaws.SideOf(s, onApi);
    match got
    case Found(obj) =>
      ReconcileWrites(s.findings, obj.uid, ComponentInstanceResource, obj.Ref(), ComponentResource, known);
      ReconcileWrites(s.findings, obj.uid, APIInstanceResource, obj.Ref(), APIResource, known);
      hide Writes;
    case NotFound =>
      if name in side.names {
        ReconcileWrites(s.findings, side.names[name], ComponentInstanceResource, Nil, ComponentResource, known);
      }
      hide Writes;
  }

  lemma HelmWrites(s: HelmRelease.Helm, e: HelmLaws.Event)
    requires !e.Elsewhere?
    ensures Writes(HelmMachine, s.findings.now, HelmLaws.Step(s, e).findings.now)
  {
    Unwritten(HelmMachine, s.findings.now);
    hide Writes, HelmLaws.OnInstance, HelmRelease.SecretFound, HelmRelease.ReleaseGone, HelmRelease.ReleaseKey;
    match e
    case InstanceEvent(onApi, name, got, known) => InstanceWrites(s, onApi, name, got, known);
    case SecretSeen(secret, known, addFails) => SecretWrites(s, secret, known, addFails);
    case SecretLost(namespace, name) =>
      forall key, revision
        ensures Writes(HelmMachine, s.findings.now, HelmRelease.ReleaseGone(s, key, revision).findings.now)
      {
        ReleaseGoneWrites(s, key, revision);
      }
    case Startup(_) =>
    case CustomEvent(_, _) =>
  }

  lemma VisitWrites(s: ImageScan.Images, o: ImageObservations.Observation, v: ImageScan.Visit)
    ensures Writes(ScanMachine, s.findings, ImageScan.VisitImage(s, o, v).s.findings)
  {
    var artifact := ImageScan.WithArtifact(s, o, v).1;
    if artifact.Some? { assert Owns(ScanMachine, ImageScan.NotRetrievedId(artifact.value)); }
    hide Owns, ImageScan.NotRetrievedId, ImageScan.FindExisting, ArtifactId, ArtifactInstanceId;
  }

  lemma {:induction false} VisitAllWrites(s: ImageScan.Images, obs: ImageObservations.Table,
      visits: seq<ImageScan.Visit>)
    requires forall v | v in visits :: v.key in obs
    ensures Writes(ScanMachine, s.findings, ImageScan.VisitAll(s, obs, visits).s.findings)
  {
    Unwritten(ScanMachine, s.findings);
    hide Writes, ImageScan.VisitImage;
    if visits != [] {
      var n := |visits| - 1;
      VisitAllWrites(s, obs, visits[..n]);
      var before := ImageScan.VisitAll(s, obs, visits[..n]);
      if before.ok {
        VisitWrites(before.s, obs[visits[n].key], visits[n]);
        WritesTwice(ScanMachine, s.findings, before.s.findings, ImageScan.VisitAll(s, obs, visits).s.findings);
      }
    }
  }

  lemma {:induction false} DropInstancesWritesNothing(s: ImageScan.Images, keys: seq<string>, desired: set<string>)
    ensures ImageScan.DropInstances(s, keys, desired).findings == s.findings
  {
    if keys != [] { DropInstancesWritesNothing(s, keys[..|keys| - 1], desired); }
  }

  lemma DropArtifactWrites(s: ImageScan.Images, key: string)
    ensures Writes(ScanMachine, s.findings, ImageScan.DropArtifact(s, key).findings)
  {
    if key in s.tracked { assert Owns(ScanMachine, ImageScan.NotRetrievedId(s.tracked[key])); }
    hide Owns, ImageScan.NotRetrievedId, ArtifactId;
  }

  lemma {:induction false} DropArtifactsWrites(s: ImageScan.Images, keys: seq<string>, desired: set<string>)
    ensures Writes(ScanMachine, s.findings, ImageScan.DropArtifacts(s, keys, desired).findings)
  {
    Unwritten(ScanMachine, s.findings);
    hide Writes, ImageScan.DropArtifact;
    if keys != [] {
      var n := |keys| - 1;
      DropArtifactsWrites(s, keys[..n], desired);
      var before := ImageScan.DropArtifacts(s, keys[..n], desired);
      DropArtifactWrites(before, keys[n]);
      if keys[n] !in desired {
        WritesTwice(ScanMachine, s.findings, before.findings, ImageScan.DropArtifact(before, keys[n]).findings);
      }
    }
  }

  lemma ScanWrites(s: ImageScan.Images, obs: ImageObservations.Table, p: ImageScan.Plan)
    requires forall v | v in p.visits :: v.key in obs
    ensures Writes(ScanMachine, s.findings, ImageScan.Scan(s, obs, p).s.findings)
  {
    VisitAllWrites(s, obs, p.visits);
    var visited := ImageScan.VisitAll(s, obs, p.visits);
    if visited.ok {
      var t := ImageScan.DropInstances(visited.s, p.instanceOrder, obs.Keys);
      DropInstancesWritesNothing(visited.s, p.instanceOrder, obs.Keys);
      DropArtifactsWrites(t, p.artifactOrder, obs.Keys);
      WritesTwice(ScanMachine, s.findings, t.findings, ImageScan.Scan(s, obs, p).s.findings);
    }
  }

  lemma {:induction false} ReportWrites(f: FindingStore, missing: seq<CrdCheck.CRDEntry>, subject: ResourceRef)
    ensures Writes(CrdMachine, f, CrdCheck.Reported(f, missing, subject))
  {
    if missing != [] { ReportWrites(f, missing[..|missing| - 1], subject); }
  }

  lemma CrdWrites(s: CrdCheck.State, missing: seq<CrdCheck.CRDEntry>, fallback: Uuid, step: CrdCheck.Step)
    ensures Writes(CrdMachine, s.findings, CrdCheck.Next(s, missing, fallback, step).findings)
  {
    Unwritten(CrdMachine, s.findings);
    ReportWrites(s.findings, missing, ResourceRef(fallback, NodeResource));
    if step.WithContext? { ReportWrites(s.findings, missing, ResourceRef(step.id, ContextResource)); }
    hide Writes, CrdCheck.Reported;
  }

  // ---- and what that is to the others ----

  lemma ForRbac(m: Machine, s: RbacLaws.System, owner: RbacLaws.Owner, g: FindingStore)
    requires m != RbacMachine && Writes(m, s.a.findings, g)
    ensures RbacLaws.Possible(s, owner, RbacLaws.Elsewhere(g))
  {
    forall id ensures SameAt(s.a.findings, g, SubjectFindingId(id)) && SameAt(s.a.findings, g, RoleSpecFindingId(id)) {
      OneOwner(RbacMachine, m, SubjectFindingId(id));
      OneOwner(RbacMachine, m, RoleSpecFindingId(id));
    }
    hide Owns, SubjectFindingId, RoleSpecFindingId;
  }

  lemma ForHelm(m: Machine, s: HelmRelease.Helm, c: HelmLaws.Cluster, g: FindingStore)
    requires m != HelmMachine && Writes(m, s.findings.now, g)
    ensures HelmLaws.Possible(s, c, HelmLaws.Elsewhere(g))
  {
    forall id ensures HelmLaws.SameRefs(s.findings.now, g, id) {
      assert Owns(HelmMachine, Dangling(id)) && Owns(HelmMachine, Missing(id));
      OneOwner(HelmMachine, m, Dangling(id));
      OneOwner(HelmMachine, m, Missing(id));
    }
  }

  lemma ForScan(m: Machine, s: ImageScan.Images, g: FindingStore)
    requires m != ScanMachine && Writes(m, s.findings, g)
    ensures ImageScanLaws.Possible(s, ImageScanLaws.Elsewhere(g))
  {
    forall k ensures SameAt(s.findings, g, ImageScanLaws.FindingOf(k)) {
      assert Owns(ScanMachine, ImageScanLaws.FindingOf(k));
      OneOwner(ScanMachine, m, ImageScanLaws.FindingOf(k));
    }
    hide Owns, ImageScanLaws.FindingOf;
  }

  /** The four machines over one store of findings. */
  datatype World = World(rbac: RbacLaws.System, helm: HelmRelease.Helm, scan: ImageScan.Images, crd: CrdCheck.State)

  ghost predicate Shared(w: World) {
    w.rbac.a.findings == w.helm.findings.now == w.scan.findings == w.crd.findings
  }

  /** What a machine other than `m` sees of a step of m that leaves the findings g. */
  ghost predicate IsElsewhere(w: World, m: Machine, g: FindingStore, owner: RbacLaws.Owner, c: HelmLaws.Cluster) {
    && (m != RbacMachine ==> RbacLaws.Possible(w.rbac, owner, RbacLaws.Elsewhere(g)))
    && (m != HelmMachine ==> HelmLaws.Possible(w.helm, c, HelmLaws.Elsewhere(g)))
    && (m != ScanMachine ==> ImageScanLaws.Possible(w.scan, ImageScanLaws.Elsewhere(g)))
  }

  lemma WritesAreElsewhere(w: World, m: Machine, g: FindingStore, owner: RbacLaws.Owner, c: HelmLaws.Cluster)
    requires Shared(w) && Writes(m, w.rbac.a.findings, g)
    ensures IsElsewhere(w, m, g, owner, c)
  {
    hide Writes, RbacLaws.Possible, HelmLaws.Possible, ImageScanLaws.Possible;
    if m != RbacMachine { ForRbac(m, w.rbac, owner, g); }
    if m != HelmMachine { ForHelm(m, w.helm, c, g); }
    if m != ScanMachine { ForScan(m, w.scan, g); }
  }

  /** Whatever one machine does to the shared findings, in any state and for any event, is possible for
      the `Elsewhere` of each of the others. */
  lemma StepsAreElsewhere(w: World, owner: RbacLaws.Owner, c: HelmLaws.Cluster, wl: Rbac.Whitelist,
                          r: RbacLaws.Event, h: HelmLaws.Event, obs: ImageObservations.Table, p: ImageScan.Plan,
                          missing: seq<CrdCheck.CRDEntry>, fallback: Uuid, step: CrdCheck.Step)
    requires Shared(w) && !r.Elsewhere? && !h.Elsewhere? && forall v | v in p.visits :: v.key in obs
    ensures IsElsewhere(w, RbacMachine, RbacLaws.Step(w.rbac, wl, r).a.findings, owner, c)
    ensures IsElsewhere(w, HelmMachine, HelmLaws.Step(w.helm, h).findings.now, owner, c)
    ensures IsElsewhere(w, ScanMachine, ImageScan.Scan(w.scan, obs, p).s.findings, owner, c)
    ensures IsElsewhere(w, CrdMachine, CrdCheck.Next(w.crd, missing, fallback, step).findings, owner, c)
  {
    hide *;
    assert w.rbac.a.findings == w.helm.findings.now == w.scan.findings == w.crd.findings by { SharedIs(w); }
    RbacWrites(w.rbac, wl, r);
    HelmWrites(w.helm, h);
    ScanWrites(w.scan, obs, p);
    CrdWrites(w.crd, missing, fallback, step);
    WritesAreElsewhere(w, RbacMachine, RbacLaws.Step(w.rbac, wl, r).a.findings, owner, c);
    WritesAreElsewhere(w, HelmMachine, HelmLaws.Step(w.helm, h).findings.now, owner, c);
    WritesAreElsewhere(w, ScanMachine, ImageScan.Scan(w.scan, obs, p).s.findings, owner, c);
    WritesAreElsewhere(w, CrdMachine, CrdCheck.Next(w.crd, missing, fallback, step).findings, owner, c);
  }

  lemma SharedIs(w: World)
    requires Shared(w)
    ensures w.rbac.a.findings == w.helm.findings.now == w.scan.findings == w.crd.findings
  {
  }
}
