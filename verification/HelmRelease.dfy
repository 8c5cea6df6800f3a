/** Helm releases (internal/controller/helmrelease_controller.go). */
module HelmRelease {
  import opened Text
  import opened Uuids
  import opened Registry
  import opened Landscape
  import opened HelmSecretName
  import opened ReferenceFindings

  datatype Resource = Resource(kind: string, name: string, namespace: string)

  /** The decoded payload of a release Secret. */
  datatype ReleaseData = ReleaseData(status: string, chartName: string, chartVersion: string, resources: seq<Resource>)

  /** A Secret; `data` is None when it cannot be decoded, `systemRef` the parsed system annotation. */
  datatype Secret = Secret(namespace: string, name: string, helmType: bool, data: Option<ReleaseData>, systemRef: Uuid)

  type Revisions = map<string, int>

  /** The state the Helm, SystemInstance, workload and API-instance reconcilers share. The names and
      the store of SystemInstances hold those of Helm releases and those of custom resources. */
  datatype Helm = Helm(latest: Revisions, systemNames: NameMap, systemInstances: map<Uuid, SystemInstance>,
    component: Side, api: Side, findings: Findings)

  function ReleaseKey(namespace: string, release: string): string { namespace + "/" + release }

  // ---- revision tracking ----

  /** A Secret was seen by a reconcile; an older revision than the tracked one is ignored. */
  function Seen(latest: Revisions, key: string, revision: int): Revisions {
    if key in latest && revision < latest[key] then latest else latest[key := revision]
  }

  /** A Secret was listed at startup; an untracked release counts as revision 0. */
  function Listed(latest: Revisions, key: string, revision: int): Revisions {
    if revision > (if key in latest then latest[key] else 0) then latest[key := revision] else latest
  }

  ghost function ListAll(latest: Revisions, secrets: seq<Secret>): Revisions {
    if secrets == [] then latest
    else
      var before := ListAll(latest, secrets[..|secrets| - 1]);
      var s := secrets[|secrets| - 1];
      var parts := ParseSecretName(s.name);
      if !s.helmType || parts.None? then before
      else Listed(before, ReleaseKey(s.namespace, parts.value.release), parts.value.revision)
  }

  // ---- correlation ----

  predicate IsWorkload(kind: string) { kind in {"Deployment", "StatefulSet", "DaemonSet", "Job", "CronJob"} }

  predicate IsService(kind: string) { kind in {"Service", "Ingress"} }

  function NameKey(r: Resource, releaseNamespace: string): string {
    (if r.namespace == "" then releaseNamespace else r.namespace) + "/" + r.name
  }

  function Correlate(s: Helm, r: Resource, namespace: string, id: Uuid): Helm {
    if IsWorkload(r.kind) then s.(component := s.component.Claim(NameKey(r, namespace), id))
    else if IsService(r.kind) then s.(api := s.api.Claim(NameKey(r, namespace), id))
    else s
  }

  function CorrelateAll(s: Helm, resources: seq<Resource>, namespace: string, id: Uuid): Helm {
    if resources == [] then s
    else
      var n := |resources| - 1;
      Correlate(CorrelateAll(s, resources[..n], namespace, id), resources[n], namespace, id)
  }

  predicate DeploysSystemInstance(resources: seq<Resource>) {
    exists r :: r in resources && r.kind == "SystemInstance"
  }

  // ---- one reconcile as a function ----

  /** A Secret of this release exists. `addFails` says that the model rejected the SystemInstance. */
  function ReleaseFound(s: Helm, key: string, parts: Parts, secret: Secret, known: bool, addFails: bool): Helm {
    if key in s.latest && parts.revision < s.latest[key] then s
    else
      var s1 := s.(latest := s.latest[key := parts.revision]);
      if secret.data.None? || secret.data.value.status != "deployed"
        || DeploysSystemInstance(secret.data.value.resources) || addFails then s1
      else Deploy(s1, key, parts.release, secret.namespace, secret.data.value, secret.systemRef, known)
  }

  function Deploy(s: Helm, key: string, release: string, namespace: string, data: ReleaseData, systemRef: Uuid,
      known: bool): Helm {
    var id := HelmReleaseId(key);
    var entity := SystemInstance(release, data.chartName + "-" + data.chartVersion);
    var s1 := s.(systemInstances := s.systemInstances[id := entity],
                 systemNames := s.systemNames[key := id]);
    var s2 := CorrelateAll(s1, data.resources, namespace, id);
    s2.(findings := s2.findings.Reconcile(id, SystemInstanceResource, systemRef, SystemResource, known))
  }

  ghost function SecretFound(s: Helm, secret: Secret, known: bool, addFails: bool): Helm {
    var parts := ParseSecretName(secret.name);
    if !secret.helmType || parts.None? then s
    else ReleaseFound(s, ReleaseKey(secret.namespace, parts.value.release), parts.value, secret, known, addFails)
  }

  /** A Secret of this release is gone; only the tracked revision counts. */
  function ReleaseGone(s: Helm, key: string, revision: int): Helm {
    if key !in s.latest || revision != s.latest[key] then s
    else
      var s1 := s.(latest := s.latest - {key}, systemNames := s.systemNames - {key});
      if key !in s.systemNames || s.systemNames[key] == Nil then s1 else Undeploy(s1, s.systemNames[key])
  }

  function Undeploy(s: Helm, id: Uuid): Helm {
    s.(component := s.component.Release(id), api := s.api.Release(id),
       findings := s.findings.Forget(id), systemInstances := s.systemInstances - {id})
  }

  ghost function SecretGone(s: Helm, namespace: string, name: string): Helm {
    match ParseSecretName(name)
    case None => s
    case Some(parts) => ReleaseGone(s, ReleaseKey(namespace, parts.release), parts.revision)
  }

  // ---- custom resources ----

  /** A SystemInstance custom resource; `id` is Nil when it has no resolvable UUID. */
  datatype CustomResource = CustomResource(id: Uuid, entity: SystemInstance)

  function CustomFound(s: Helm, name: string, r: CustomResource): Helm {
    if r.id == Nil then s
    else s.(systemInstances := s.systemInstances[r.id := r.entity], systemNames := s.systemNames[name := r.id])
  }

  function CustomGone(s: Helm, name: string): Helm {
    var s1 := s.(systemNames := s.systemNames - {name});
    if name !in s.systemNames || s.systemNames[name] == Nil then s1
    else s1.(systemInstances := s.systemInstances - {s.systemNames[name]})
  }

  // ---- the reconcilers ----

  /** What the reconcilers of this module see of the shared stores, with the tracked revisions. */
  ghost function ViewOf(model: Model, index: NameIndex, latest: Revisions): Helm
    reads model, index
  {
    Helm(latest, index.Names(KindSystemInstance), model.systemInstances,
      Side(index.Names(KindComponentInstance), index.Owners(KindComponentInstance), model.componentInstances),
      Side(index.Names(KindAPIInstance), index.Owners(KindAPIInstance), model.apiInstances),
      Findings(model.findings, model.history))
  }

  class SystemInstanceReconciler {
    const model: Model
    const index: NameIndex

    constructor (model: Model, index: NameIndex)
      ensures this.model == model && this.index == index
    {
      this.model, this.index := model, index;
    }

    method ReconcileFound(name: string, r: CustomResource, ghost latest: Revisions)
      modifies index`names, model`systemInstances
      ensures index.OnlyKinds({KindSystemInstance})
      ensures ViewOf(model, index, latest) == CustomFound(old(ViewOf(model, index, latest)), name, r)
    {
      if r.id == Nil { return; }
      model.systemInstances := model.systemInstances[r.id := r.entity];
      index.Put(KindSystemInstance, name, r.id);
    }

    method ReconcileGone(name: string, ghost latest: Revisions)
      modifies index`names, model`systemInstances
      ensures index.OnlyKinds({KindSystemInstance})
      ensures ViewOf(model, index, latest) == CustomGone(old(ViewOf(model, index, latest)), name)
    {
      var id := index.Delete(KindSystemInstance, name);
      if id == Nil { return; }
      model.systemInstances := model.systemInstances - {id};
    }
  }

  class HelmReleaseReconciler {
    const model: Model
    const index: NameIndex
    var latestRevision: Revisions

    ghost function View(): Helm
      reads this, model, index
    {
      ViewOf(model, index, latestRevision)
    }

    constructor (model: Model, index: NameIndex)
      ensures this.model == model && this.index == index && latestRevision == map[]
    {
      this.model, this.index, latestRevision := model, index, map[];
    }

    method PopulateLatestRevisions(secrets: seq<Secret>)
      modifies this`latestRevision
      ensures latestRevision == ListAll(old(latestRevision), secrets)
    {
      for i := 0 to |secrets|
        invariant latestRevision == ListAll(old(latestRevision), secrets[..i])
      {
        assert secrets[..i + 1][..i] == secrets[..i];
        var s := secrets[i];
        if !s.helmType { continue; }
        var parts := SecretNameParts(s.name);
        if parts.None? { continue; }
        var key := ReleaseKey(s.namespace, parts.value.release);
        if parts.value.revision > (if key in latestRevision then latestRevision[key] else 0) {
          latestRevision := latestRevision[key := parts.value.revision];
        }
      }
      assert secrets[..|secrets|] == secrets;
    }

    method HasSystemInstance(resources: seq<Resource>) returns (found: bool)
      ensures found == DeploysSystemInstance(resources)
    {
      for i := 0 to |resources|
        invariant forall j | 0 <= j < i :: resources[j].kind != "SystemInstance"
      {
        if resources[i].kind == "SystemInstance" { return true; }
      }
      return false;
    }

    method ClaimComponent(nameKey: string, id: Uuid)
      modifies index`helmOwner, model`componentInstances
      ensures View() == old(View()).(component := old(View()).component.Claim(nameKey, id))
    {
      index.SetHelmOwner(KindComponentInstance, nameKey, id);
      var resource := index.Get(KindComponentInstance, nameKey);
      if resource != Nil && resource in model.componentInstances {
        model.componentInstances :=
          model.componentInstances[resource := model.componentInstances[resource].(systemInstance := id)];
      }
    }

    method ClaimApi(nameKey: string, id: Uuid)
      modifies index`helmOwner, model`apiInstances
      ensures View() == old(View()).(api := old(View()).api.Claim(nameKey, id))
    {
      index.SetHelmOwner(KindAPIInstance, nameKey, id);
      var resource := index.Get(KindAPIInstance, nameKey);
      if resource != Nil && resource in model.apiInstances {
        model.apiInstances := model.apiInstances[resource := model.apiInstances[resource].(systemInstance := id)];
      }
    }

    method CorrelateResource(r: Resource, namespace: string, id: Uuid)
      modifies index`helmOwner, model`componentInstances, model`apiInstances
      ensures View() == Correlate(old(View()), r, namespace, id)
    {
      if IsWorkload(r.kind) {
        ClaimComponent(NameKey(r, namespace), id);
      } else if IsService(r.kind) {
        ClaimApi(NameKey(r, namespace), id);
      }
    }

    method CorrelateResources(resources: seq<Resource>, namespace: string, id: Uuid)
      modifies index`helmOwner, model`componentInstances, model`apiInstances
      ensures View() == CorrelateAll(old(View()), resources, namespace, id)
    {
      for i := 0 to |resources|
        invariant View() == CorrelateAll(old(View()), resources[..i], namespace, id)
      {
        assert resources[..i + 1][..i] == resources[..i];
        CorrelateResource(resources[i], namespace, id);
      }
      assert resources[..|resources|] == resources;
    }

    method Write(next: FindingMap)
      modifies model`history, model`findings
      ensures View() == old(View()).(findings := old(View()).findings.Write(next))
    {
      model.findings := next;
      model.history := model.history + [next];
    }

    method ReconcileSystemReferenceFindings(id: Uuid, systemRef: Uuid)
      modifies model`history, model`findings
      ensures var f := old(View()).findings;
        View() == old(View()).(findings :=
          f.Reconcile(id, SystemInstanceResource, systemRef, SystemResource, systemRef in model.systems))
    {
      if systemRef == Nil {
        Write(model.findings - {Dangling(id)});
        var resources := [ResourceRef(id, SystemInstanceResource)];
        Write(model.findings[Missing(id) := Finding(OfKind(MISSING_RESOURCE_REFERENCE), resources)]);
        return;
      }
      Write(model.findings - {Missing(id)});
      if systemRef !in model.systems {
        var resources := [ResourceRef(id, SystemInstanceResource), ResourceRef(systemRef, SystemResource)];
        Write(model.findings[Dangling(id) := Finding(OfKind(REFERENCED_RESOURCE_NOT_FOUND), resources)]);
      } else {
        Write(model.findings - {Dangling(id)});
      }
    }

    method DeployRelease(key: string, release: string, namespace: string, data: ReleaseData, systemRef: Uuid)
      modifies index`names, index`helmOwner
      modifies model`systemInstances, model`componentInstances, model`apiInstances, model`findings, model`history
      ensures index.OnlyKinds({KindSystemInstance})
      ensures View() == Deploy(old(View()), key, release, namespace, data, systemRef, systemRef in model.systems)
    {
      hide HelmReleaseId, CorrelateAll;
      var id := HelmReleaseId(key);
      var entity := SystemInstance(release, data.chartName + "-" + data.chartVersion);
      model.systemInstances := model.systemInstances[id := entity];
      index.Put(KindSystemInstance, key, id);
      CorrelateResources(data.resources, namespace, id);
      ReconcileSystemReferenceFindings(id, systemRef);
    }

    method ReconcileFound(secret: Secret, addFails: bool)
      modifies this`latestRevision, model`history, index`names, index`helmOwner
      modifies model`systemInstances, model`componentInstances, model`apiInstances, model`findings
      ensures index.OnlyKinds({KindSystemInstance})
      ensures View() == SecretFound(old(View()), secret, secret.systemRef in model.systems, addFails)
    {
      hide Deploy, ParseSecretName, ReleaseKey;
      if !secret.helmType { return; }
      var parts := SecretNameParts(secret.name);
      if parts.None? { return; }
      var key, revision := ReleaseKey(secret.namespace, parts.value.release), parts.value.revision;
      if key in latestRevision && revision < latestRevision[key] { return; }
      latestRevision := latestRevision[key := revision];
      if secret.data.None? { return; }
      var data := secret.data.value;
      if data.status != "deployed" { return; }
      var own := HasSystemInstance(data.resources);
      if own { return; }
      if addFails { return; }
      DeployRelease(key, parts.value.release, secret.namespace, data, secret.systemRef);
    }

    method ReconcileGone(namespace: string, name: string)
      modifies this`latestRevision, model`history, index`names, index`helmOwner, model`systemInstances, model`findings
      ensures index.OnlyKinds({KindSystemInstance})
      ensures View() == SecretGone(old(View()), namespace, name)
    {
      hide ParseSecretName, ReleaseKey, Undeploy;
      var parts := SecretNameParts(name);
      if parts.None? { return; }
      var key := ReleaseKey(namespace, parts.value.release);
      if key !in latestRevision || parts.value.revision != latestRevision[key] { return; }
      latestRevision := latestRevision - {key};
      var id := index.Delete(KindSystemInstance, key);
      if id == Nil { return; }
      UndeployRelease(id);
    }

    method UndeployRelease(id: Uuid)
      modifies index`helmOwner, model`systemInstances, model`findings, model`history
      ensures View() == Undeploy(old(View()), id)
    {
      hide Dangling, Missing;
      index.DeleteHelmOwnersBySystemInstance(id);
      Write(model.findings - {Dangling(id)});
      Write(model.findings - {Missing(id)});
      model.systemInstances := model.systemInstances - {id};
    }
  }
}
