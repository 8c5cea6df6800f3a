/** Reference findings (internal/controller/reference_findings.go) and the API and component
    instances that carry them (apiinstance_controller.go, workload_controller.go). */
module ReferenceFindings {
  import opened Uuids
  import opened Registry
  import opened Landscape

  type FindingMap = map<Uuid, Finding>

  function Dangling(id: Uuid): Uuid { ReferenceFindingId(id, REFERENCED_RESOURCE_NOT_FOUND) }

  function Missing(id: Uuid): Uuid { ReferenceFindingId(id, MISSING_RESOURCE_REFERENCE) }

  /** The finding store with a history of it, one entry for every write. */
  datatype Findings = Findings(now: FindingMap, journal: seq<FindingMap>) {
    function Write(next: FindingMap): Findings { Findings(next, journal + [next]) }
    function Delete(id: Uuid): Findings { Write(now - {id}) }

    function UpsertMissing(id: Uuid, subject: ResourceType): Findings {
      Write(now[Missing(id) := Finding(OfKind(MISSING_RESOURCE_REFERENCE), [ResourceRef(id, subject)])])
    }

    function UpsertDangling(id: Uuid, subject: ResourceType, ref: Uuid, target: ResourceType): Findings {
      Write(now[Dangling(id) :=
        Finding(OfKind(REFERENCED_RESOURCE_NOT_FOUND), [ResourceRef(id, subject), ResourceRef(ref, target)])])
    }

    /** The common shape of the three finding reconcilers: without a reference the subject misses
        one; with a reference it dangles unless the target is known. */
    function Reconcile(id: Uuid, subject: ResourceType, ref: Uuid, target: ResourceType, known: bool): Findings {
      if ref == Nil then Delete(Dangling(id)).UpsertMissing(id, subject)
      else
        var cleared := Delete(Missing(id));
        if known then cleared.Delete(Dangling(id)) else cleared.UpsertDangling(id, subject, ref, target)
    }

    function Forget(id: Uuid): Findings { Delete(Dangling(id)).Delete(Missing(id)) }
  }

  /** A Service, Ingress or workload; annotation values are parsed, Nil when missing or not a UUID.
      `skip` is the verdict of the workload reconciler's skip function. */
  datatype NativeObject = NativeObject(uid: Uuid, name: string, ref: Uuid, legacyRef: Uuid,
    systemInstanceId: Uuid, skip: bool)
  {
    function Ref(): Uuid { if ref != Nil then ref else legacyRef }
  }

  /** One kind of instance: its names, the Helm owners of its names, and its store. */
  datatype Side = Side(names: NameMap, owners: NameMap, instances: map<Uuid, Instance>) {
    function Owner(name: string): Uuid { if name in owners then owners[name] else Nil }

    function Found(name: string, obj: NativeObject): Side {
      var si := if obj.systemInstanceId != Nil then obj.systemInstanceId else Owner(name);
      var instance := Instance(obj.name, obj.Ref(), obj.systemInstanceId, si);
      this.(names := names[name := obj.uid], instances := instances[obj.uid := instance])
    }

    function Gone(name: string): Side {
      if name !in names || names[name] == Nil then this.(names := names - {name})
      else this.(names := names - {name}, instances := instances - {names[name]})
    }

    /** A release claims a name; the stored instance of that name, if any, is attached to it. */
    function Claim(name: string, release: Uuid): Side {
      var claimed := this.(owners := owners[name := release]);
      if name in names && names[name] != Nil && names[name] in instances then
        claimed.(instances := instances[names[name] := instances[names[name]].(systemInstance := release)])
      else claimed
    }

    function Release(id: Uuid): Side { this.(owners := NotOwnedBy(owners, id)) }
  }

  predicate Ignored(obj: NativeObject) { obj.skip || obj.uid == Nil }

  datatype SideResult = SideResult(side: Side, findings: Findings)

  /** One reconcile of an instance that exists. */
  function InstanceFound(side: Side, f: Findings, name: string, obj: NativeObject, subject: ResourceType,
      target: ResourceType, known: bool): SideResult {
    if Ignored(obj) then SideResult(side, f)
    else SideResult(side.Found(name, obj), f.Reconcile(obj.uid, subject, obj.Ref(), target, known))
  }

  /** One reconcile of an instance that is gone. */
  function InstanceGone(side: Side, f: Findings, name: string): SideResult {
    var id := if name in side.names then side.names[name] else Nil;
    SideResult(side.Gone(name), if id == Nil then f else f.Forget(id))
  }

  // ---- the reconcilers ----

  class WorkloadReconciler {
    const model: Model
    const index: NameIndex

    ghost function SideView(): Side
      reads model, index
    {
      Side(index.Names(KindComponentInstance), index.Owners(KindComponentInstance), model.componentInstances)
    }

    ghost function FindingsView(): Findings
      reads model
    {
      Findings(model.findings, model.history)
    }

    constructor (model: Model, index: NameIndex)
      ensures this.model == model && this.index == index
    {
      this.model, this.index := model, index;
    }

    method Write(next: FindingMap)
      modifies model`history, model`findings
      ensures FindingsView() == old(FindingsView()).Write(next)
    {
      model.findings := next;
      model.history := model.history + [next];
    }

    method ReconcileComponentReferenceFindings(id: Uuid, obj: NativeObject)
      modifies model`history, model`findings
      ensures var known := obj.Ref() in model.components;
        FindingsView()
          == old(FindingsView()).Reconcile(id, ComponentInstanceResource, obj.Ref(), ComponentResource, known)
    {
      var ref := obj.ref;
      if ref == Nil { ref := obj.legacyRef; }
      if ref == Nil {
        Write(model.findings - {Dangling(id)});
        var resources := [ResourceRef(id, ComponentInstanceResource)];
        Write(model.findings[Missing(id) := Finding(OfKind(MISSING_RESOURCE_REFERENCE), resources)]);
        return;
      }
      Write(model.findings - {Missing(id)});
      if ref !in model.components {
        var resources := [ResourceRef(id, ComponentInstanceResource), ResourceRef(ref, ComponentResource)];
        Write(model.findings[Dangling(id) := Finding(OfKind(REFERENCED_RESOURCE_NOT_FOUND), resources)]);
      } else {
        Write(model.findings - {Dangling(id)});
      }
    }

    method ReconcileFound(name: string, obj: NativeObject)
      modifies model`history, model`findings, model`componentInstances, index`names
      ensures index.OnlyKinds({KindComponentInstance})
      ensures SideResult(SideView(), FindingsView()) ==
        InstanceFound(old(SideView()), old(FindingsView()), name, obj, ComponentInstanceResource, ComponentResource,
          obj.Ref() in model.components)
    {
      if obj.skip || obj.uid == Nil { return; }
      var ref := if obj.ref != Nil then obj.ref else obj.legacyRef;
      var ci := Instance(obj.name, ref, obj.systemInstanceId, obj.systemInstanceId);
      if ci.systemInstance == Nil {
        var si := index.GetHelmOwner(KindComponentInstance, name);
        if si != Nil { ci := ci.(systemInstance := si); }
      }
      model.componentInstances := model.componentInstances[obj.uid := ci];
      index.Put(KindComponentInstance, name, obj.uid);
      ReconcileComponentReferenceFindings(obj.uid, obj);
    }

    method ReconcileGone(name: string)
      modifies model`history, model`findings, model`componentInstances, index`names
      ensures index.OnlyKinds({KindComponentInstance})
      ensures SideResult(SideView(), FindingsView()) == InstanceGone(old(SideView()), old(FindingsView()), name)
    {
      var id := index.Delete(KindComponentInstance, name);
      if id == Nil { return; }
      Write(model.findings - {Dangling(id)});
      Write(model.findings - {Missing(id)});
      model.componentInstances := model.componentInstances - {id};
    }
  }

  class APIInstanceReconciler {
    const model: Model
    const index: NameIndex

    ghost function SideView(): Side
      reads model, index
    {
      Side(index.Names(KindAPIInstance), index.Owners(KindAPIInstance), model.apiInstances)
    }

    ghost function FindingsView(): Findings
      reads model
    {
      Findings(model.findings, model.history)
    }

    constructor (model: Model, index: NameIndex)
      ensures this.model == model && this.index == index
    {
      this.model, this.index := model, index;
    }

    method Write(next: FindingMap)
      modifies model`history, model`findings
      ensures FindingsView() == old(FindingsView()).Write(next)
    {
      model.findings := next;
      model.history := model.history + [next];
    }

    method ReconcileAPIReferenceFindings(id: Uuid, obj: NativeObject)
      modifies model`history, model`findings
      ensures var known := obj.Ref() in model.apis;
        FindingsView() == old(FindingsView()).Reconcile(id, APIInstanceResource, obj.Ref(), APIResource, known)
    {
      var ref := obj.ref;
      if ref == Nil { ref := obj.legacyRef; }
      if ref == Nil {
        Write(model.findings - {Dangling(id)});
        var resources := [ResourceRef(id, APIInstanceResource)];
        Write(model.findings[Missing(id) := Finding(OfKind(MISSING_RESOURCE_REFERENCE), resources)]);
        return;
      }
      Write(model.findings - {Missing(id)});
      if ref !in model.apis {
        var resources := [ResourceRef(id, APIInstanceResource), ResourceRef(ref, APIResource)];
        Write(model.findings[Dangling(id) := Finding(OfKind(REFERENCED_RESOURCE_NOT_FOUND), resources)]);
      } else {
        Write(model.findings - {Dangling(id)});
      }
    }

    /** There is no skip function for API instances. */
    method ReconcileFound(name: string, obj: NativeObject)
      modifies model`history, model`findings, model`apiInstances, index`names
      ensures index.OnlyKinds({KindAPIInstance})
      ensures SideResult(SideView(), FindingsView()) ==
        InstanceFound(old(SideView()), old(FindingsView()), name, obj.(skip := false), APIInstanceResource,
          APIResource, obj.Ref() in model.apis)
    {
      if obj.uid == Nil { return; }
      var ref := if obj.ref != Nil then obj.ref else obj.legacyRef;
      var ai := Instance(obj.name, ref, obj.systemInstanceId, obj.systemInstanceId);
      if ai.systemInstance == Nil {
        var si := index.GetHelmOwner(KindAPIInstance, name);
        if si != Nil { ai := ai.(systemInstance := si); }
      }
      model.apiInstances := model.apiInstances[obj.uid := ai];
      index.Put(KindAPIInstance, name, obj.uid);
      ReconcileAPIReferenceFindings(obj.uid, obj);
    }

    method ReconcileGone(name: string)
      modifies model`history, model`findings, model`apiInstances, index`names
      ensures index.OnlyKinds({KindAPIInstance})
      ensures SideResult(SideView(), FindingsView()) == InstanceGone(old(SideView()), old(FindingsView()), name)
    {
      var id := index.Delete(KindAPIInstance, name);
      if id == Nil { return; }
      Write(model.findings - {Dangling(id)});
      Write(model.findings - {Missing(id)});
      model.apiInstances := model.apiInstances - {id};
    }
  }
}
