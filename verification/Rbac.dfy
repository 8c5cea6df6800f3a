/** Roles and bindings: the late-arrival protocol between internal/controller/rolebinding_controller.go
    and internal/controller/role_controller.go. */
module Rbac {
  import opened Uuids
  import opened Registry
  import opened Landscape

  datatype NamespacedName = NamespacedName(namespace: string, name: string) {
    /** types.NamespacedName.String: the slash is always there, also for cluster-scoped names. */
    function String(): string { namespace + "/" + name }

    predicate ClusterScoped() { namespace == "" }

    /** "namespace/name", or the bare name of a cluster-scoped role. */
    function RoleIndexKey(): string { if namespace == "" then name else namespace + "/" + name }

    function BindingKind(): string { if ClusterScoped() then "ClusterRoleBinding" else "RoleBinding" }

    function RoleKind(): string { if ClusterScoped() then "ClusterRole" else "Role" }
  }

  /** Splits at the first slash. */
  function ParseNamespacedName(s: string): NamespacedName {
    if '/' in s then
      var i := FirstSlash(s);
      NamespacedName(s[..i], s[i + 1..])
    else NamespacedName("", s)
  }

  function FirstSlash(s: string): (i: nat)
    requires '/' in s
    ensures i < |s| && s[i] == '/' && '/' !in s[..i]
  {
    if s[0] == '/' then 0 else 1 + FirstSlash(s[1..])
  }

  /** The parts of a RoleBinding or ClusterRoleBinding that matter; `subjectId` is the parsed subject
      annotation and `uid` the parsed UID, Nil when missing or not a UUID. */
  datatype BindingObject = BindingObject(uid: Uuid, roleRefKind: string, roleRefName: string,
    subjectKinds: seq<string>, subjectId: Uuid)
  {
    function RoleKey(namespace: string): string {
      if roleRefKind == "Role" && namespace != "" then namespace + "/" + roleRefName else roleRefName
    }

    function Subject(): Subject {
      if subjectId == Nil then NoSubject
      else if subjectKinds != [] && subjectKinds[0] in {"User", "ServiceAccount"} then Identity(subjectId)
      else Group(subjectId)
    }
  }

  datatype RoleObject = RoleObject(uid: Uuid, roleSpecId: Uuid)

  /** What reading an object from the cluster yields. */
  datatype Got<T> = Found(obj: T) | NotFound | Failed

  /** Whether a reconcile of a binding that reads `got` deals with the binding. */
  predicate Settles(got: Got<BindingObject>) { got.NotFound? || (got.Found? && got.obj.uid != Nil) }

  /** IsWhitelisted, by kind and name. */
  type Whitelist = (string, string) -> bool

  // ---- one reconcile as a function on the shared state ----

  datatype Access = Access(roles: NameMap, bindings: NameMap, pending: Waiting,
    storedRoles: map<Uuid, Role>, stored: map<Uuid, Binding>, findings: map<Uuid, Finding>)
  {
    function RoleId(roleKey: string): Uuid { if roleKey in roles then roles[roleKey] else Nil }
  }

  function MissingSubject(binding: Uuid): Finding {
    Finding(MissingSubjectAnnotation, [ResourceRef(binding, BindingResource)])
  }

  function MissingRoleSpec(role: Uuid): Finding {
    Finding(MissingRoleSpecAnnotation, [ResourceRef(role, RoleResource)])
  }

  function SubjectFindings(findings: map<Uuid, Finding>, id: Uuid, whitelisted: bool, subjectId: Uuid)
    : map<Uuid, Finding>
  {
    if whitelisted || subjectId != Nil then findings - {SubjectFindingId(id)}
    else findings[SubjectFindingId(id) := MissingSubject(id)]
  }

  function RoleSpecFindings(findings: map<Uuid, Finding>, id: Uuid, whitelisted: bool, specId: Uuid)
    : map<Uuid, Finding>
  {
    if whitelisted || specId != Nil then findings - {RoleSpecFindingId(id)}
    else findings[RoleSpecFindingId(id) := MissingRoleSpec(id)]
  }

  function BindingFound(a: Access, wl: Whitelist, nn: NamespacedName, obj: BindingObject): Access {
    if obj.uid == Nil then a
    else
      var id, name, roleKey := obj.uid, nn.String(), obj.RoleKey(nn.namespace);
      var findings := SubjectFindings(a.findings, id, wl(nn.BindingKind(), nn.name), obj.subjectId);
      var bindings := a.bindings[name := id];
      if obj.subjectId == Nil then
        a.(bindings := bindings, pending := WithoutWaiting(a.pending, roleKey, name),
           stored := a.stored - {id}, findings := findings)
      else
        a.(bindings := bindings,
           pending := if a.RoleId(roleKey) == Nil then WithWaiting(a.pending, roleKey, name)
                      else WithoutWaiting(a.pending, roleKey, name),
           stored := a.stored[id := Binding(nn.name, a.RoleId(roleKey), obj.Subject())],
           findings := findings)
  }

  function BindingGone(a: Access, nn: NamespacedName): Access {
    var name := nn.String();
    var id := if name in a.bindings then a.bindings[name] else Nil;
    if id == Nil then a.(bindings := a.bindings - {name})
    else
      a.(bindings := a.bindings - {name}, pending := WithoutBinding(a.pending, name),
         stored := a.stored - {id}, findings := a.findings - {SubjectFindingId(id)})
  }

  function RoleFound(a: Access, wl: Whitelist, nn: NamespacedName, obj: RoleObject): Access {
    if obj.uid == Nil then a
    else
      a.(storedRoles := a.storedRoles[obj.uid := Role(nn.name, obj.roleSpecId)],
         roles := a.roles[nn.RoleIndexKey() := obj.uid],
         findings := RoleSpecFindings(a.findings, obj.uid, wl(nn.RoleKind(), nn.name), obj.roleSpecId),
         pending := a.pending - {nn.RoleIndexKey()})
  }

  /** The bindings a role's reconcile has to wake. */
  function Woken(a: Access, nn: NamespacedName, obj: RoleObject): set<string> {
    if obj.uid == Nil then {} else WaitingFor(a.pending, nn.RoleIndexKey())
  }

  function RoleGone(a: Access, nn: NamespacedName): Access {
    var id := a.RoleId(nn.RoleIndexKey());
    if id == Nil then a.(roles := a.roles - {nn.RoleIndexKey()})
    else
      a.(roles := a.roles - {nn.RoleIndexKey()}, findings := a.findings - {RoleSpecFindingId(id)},
         storedRoles := a.storedRoles - {id})
  }

  // ---- the requeue channels ----

  const CAPACITY := 64

  /** A buffered channel. The history variable `lost` holds the bindings whose request was dropped
      because the buffer was full, until they are reconciled again. */
  datatype Channel = Channel(items: seq<NamespacedName>, lost: set<NamespacedName>) {
    function Send(nn: NamespacedName): Channel {
      if |items| < CAPACITY then this.(items := items + [nn]) else this.(lost := lost + {nn})
    }

    function Settle(nn: NamespacedName): Channel { this.(lost := lost - {nn}) }
  }

  function SendIf(ch: Channel, nn: NamespacedName, matches: bool): Channel {
    if matches then ch.Send(nn) else ch
  }

  /** Sends each name to the channel of the reconciler of its scope. */
  function SendAll(ch: Channel, names: seq<string>, cluster: bool): Channel {
    if names == [] then ch
    else
      var before := SendAll(ch, names[..|names| - 1], cluster);
      var nn := ParseNamespacedName(names[|names| - 1]);
      SendIf(before, nn, nn.ClusterScoped() == cluster)
  }

  // ---- the reconcilers ----

  ghost function ViewOf(model: Model, index: NameIndex): Access
    reads model, index
  {
    Access(index.Names(KindRole), index.Names(KindBinding), index.pendingBindings,
      model.roles, model.bindings, model.findings)
  }

  class RoleBindingReconciler {
    const model: Model
    const index: NameIndex
    const whitelist: Whitelist
    const kind: string
    var requeue: seq<NamespacedName>
    ghost var lost: set<NamespacedName>

    ghost function Queue(): Channel
      reads this
    {
      Channel(requeue, lost)
    }

    constructor (model: Model, index: NameIndex, whitelist: Whitelist, kind: string)
      ensures this.model == model && this.index == index && this.whitelist == whitelist && this.kind == kind
      ensures Queue() == Channel([], {})
    {
      this.model, this.index, this.whitelist, this.kind := model, index, whitelist, kind;
      requeue, lost := [], {};
    }

    predicate IsClusterScoped() { kind == "ClusterRoleBinding" }

    method EnqueueBinding(nameKey: string)
      modifies this
      ensures Queue() == old(Queue()).Send(ParseNamespacedName(nameKey))
    {
      if |requeue| < CAPACITY {
        requeue := requeue + [ParseNamespacedName(nameKey)];
      } else {
        lost := lost + {ParseNamespacedName(nameKey)};
      }
    }

    method ReconcileSubjectFinding(binding: Uuid, name: string, subjectId: Uuid)
      modifies model`findings
      ensures model.findings == SubjectFindings(old(model.findings), binding, whitelist(kind, name), subjectId)
    {
      if whitelist(kind, name) {
        model.findings := model.findings - {SubjectFindingId(binding)};
        return;
      }
      if subjectId != Nil {
        model.findings := model.findings - {SubjectFindingId(binding)};
        return;
      }
      model.findings := model.findings[SubjectFindingId(binding) := MissingSubject(binding)];
    }

    /** A binding waits while its role is absent. */
    method Park(roleKey: string, name: string)
      modifies index`pendingBindings
      ensures var a := old(ViewOf(model, index));
        index.pendingBindings == if a.RoleId(roleKey) == Nil then WithWaiting(a.pending, roleKey, name)
                                 else WithoutWaiting(a.pending, roleKey, name)
    {
      hide WithWaiting, WithoutWaiting;
      var roleId := index.Get(KindRole, roleKey);
      if roleId == Nil {
        index.AddPendingBinding(roleKey, name);
      } else {
        index.RemovePendingBinding(roleKey, name);
      }
    }

    method ReconcileFound(nn: NamespacedName, obj: BindingObject)
      requires kind == nn.BindingKind()
      modifies index`names, index`pendingBindings, model`bindings, model`findings
      ensures index.OnlyKinds({KindBinding})
      ensures ViewOf(model, index) == BindingFound(old(ViewOf(model, index)), whitelist, nn, obj)
    {
      hide SubjectFindings, SubjectFindingId, WithWaiting, WithoutWaiting;
      if obj.uid == Nil { return; }
      var id, name, roleKey := obj.uid, nn.String(), obj.RoleKey(nn.namespace);
      var roleId := index.Get(KindRole, roleKey);
      var binding := Binding(nn.name, roleId, obj.Subject());
      index.Put(KindBinding, name, id);
      if binding.subject == NoSubject {
        if id in model.bindings { model.bindings := model.bindings - {id}; }
        index.RemovePendingBinding(roleKey, name);
        ReconcileSubjectFinding(id, nn.name, obj.subjectId);
        return;
      }
      Park(roleKey, name);
      model.bindings := model.bindings[id := binding];
      ReconcileSubjectFinding(id, nn.name, obj.subjectId);
    }

    method ReconcileGone(nn: NamespacedName)
      modifies index`names, index`pendingBindings, model`bindings, model`findings
      ensures index.OnlyKinds({KindBinding})
      ensures ViewOf(model, index) == BindingGone(old(ViewOf(model, index)), nn)
    {
      hide SubjectFindingId;
      var id := index.Delete(KindBinding, nn.String());
      if id == Nil { return; }
      index.RemovePendingBindingByName(nn.String());
      model.findings := model.findings - {SubjectFindingId(id)};
      model.bindings := model.bindings - {id};
    }

    method Reconcile(nn: NamespacedName, got: Got<BindingObject>)
      requires kind == nn.BindingKind()
      modifies this`lost, index`names, index`pendingBindings, model`bindings, model`findings
      ensures index.OnlyKinds({KindBinding})
      ensures ViewOf(model, index) == match got
        case Found(obj) => BindingFound(old(ViewOf(model, index)), whitelist, nn, obj)
        case NotFound => BindingGone(old(ViewOf(model, index)), nn)
        case Failed => old(ViewOf(model, index))
      ensures Queue() == if Settles(got) then old(Queue()).Settle(nn) else old(Queue())
    {
      hide BindingFound, BindingGone;
      if Settles(got) { lost := lost - {nn}; }
      match got
      case Found(obj) => ReconcileFound(nn, obj);
      case NotFound => ReconcileGone(nn);
      case Failed =>
    }
  }

  /** The two calls that make a role reconciler wake both binding reconcilers. */
  method Wire(role: RoleReconciler, spaced: RoleBindingReconciler, cluster: RoleBindingReconciler)
    requires role.bindingReconcilers == [] && spaced != cluster
    requires !spaced.IsClusterScoped() && cluster.IsClusterScoped()
    modifies role
    ensures role.Wired() && role.bindingReconcilers == [spaced, cluster]
    ensures role.Queue(false) == spaced.Queue() && role.Queue(true) == cluster.Queue()
  {
    role.SetBindingReconciler(spaced);
    role.SetBindingReconciler(cluster);
  }

  class RoleReconciler {
    const model: Model
    const index: NameIndex
    const whitelist: Whitelist
    const kind: string
    var bindingReconcilers: seq<RoleBindingReconciler>

    constructor (model: Model, index: NameIndex, whitelist: Whitelist, kind: string)
      ensures this.model == model && this.index == index && this.whitelist == whitelist && this.kind == kind
      ensures bindingReconcilers == []
    {
      this.model, this.index, this.whitelist, this.kind := model, index, whitelist, kind;
      bindingReconcilers := [];
    }

    method SetBindingReconciler(rbc: RoleBindingReconciler)
      modifies this
      ensures bindingReconcilers == old(bindingReconcilers) + [rbc]
    {
      bindingReconcilers := bindingReconcilers + [rbc];
    }

    /** One binding reconciler for each scope. */
    ghost predicate Wired()
      reads this
    {
      |bindingReconcilers| == 2 && bindingReconcilers[0] != bindingReconcilers[1]
      && !bindingReconcilers[0].IsClusterScoped() && bindingReconcilers[1].IsClusterScoped()
    }

    ghost function Queue(cluster: bool): Channel
      requires Wired()
      reads this, bindingReconcilers
    {
      bindingReconcilers[if cluster then 1 else 0].Queue()
    }

    method ReconcileRoleSpecFinding(role: Uuid, name: string, specId: Uuid)
      modifies model`findings
      ensures model.findings == RoleSpecFindings(old(model.findings), role, whitelist(kind, name), specId)
    {
      if whitelist(kind, name) {
        model.findings := model.findings - {RoleSpecFindingId(role)};
        return;
      }
      if specId != Nil {
        model.findings := model.findings - {RoleSpecFindingId(role)};
        return;
      }
      model.findings := model.findings[RoleSpecFindingId(role) := MissingRoleSpec(role)];
    }

    /** Re-enqueues the bindings that were waiting. */
    method Wake(names: seq<string>)
      requires Wired()
      modifies bindingReconcilers
      ensures Wired()
      ensures forall cluster :: Queue(cluster) == SendAll(old(Queue(cluster)), names, cluster)
    {
      for i := 0 to |names|
        invariant forall cluster :: Queue(cluster) == SendAll(old(Queue(cluster)), names[..i], cluster)
      {
        assert names[..i + 1][..i] == names[..i];
        var nn := ParseNamespacedName(names[i]);
        label next:
        for j := 0 to |bindingReconcilers|
          invariant forall cluster ::
            Queue(cluster) == SendIf(old@next(Queue(cluster)), nn,
              nn.ClusterScoped() == cluster && (if cluster then 1 else 0) < j)
        {
          var rbc := bindingReconcilers[j];
          if rbc.IsClusterScoped() == nn.ClusterScoped() { rbc.EnqueueBinding(names[i]); }
        }
      }
      assert names[..|names|] == names;
    }

    method Reconcile(nn: NamespacedName, got: Got<RoleObject>) returns (ghost order: seq<string>)
      requires kind == nn.RoleKind() && Wired()
      modifies index`names, index`pendingBindings, model`roles, model`findings, bindingReconcilers
      ensures Wired() && index.OnlyKinds({KindRole})
      ensures if got.Found? then Enumerates(order, Woken(old(ViewOf(model, index)), nn, got.obj)) else order == []
      ensures forall cluster :: Queue(cluster) == SendAll(old(Queue(cluster)), order, cluster)
      ensures ViewOf(model, index) == match got
        case Found(obj) => RoleFound(old(ViewOf(model, index)), whitelist, nn, obj)
        case NotFound => RoleGone(old(ViewOf(model, index)), nn)
        case Failed => old(ViewOf(model, index))
    {
      hide RoleSpecFindings, RoleSpecFindingId;
      order := [];
      match got
      case Found(obj) =>
        if obj.uid == Nil { return; }
        model.roles := model.roles[obj.uid := Role(nn.name, obj.roleSpecId)];
        var indexKey := nn.RoleIndexKey();
        index.Put(KindRole, indexKey, obj.uid);
        ReconcileRoleSpecFinding(obj.uid, nn.name, obj.roleSpecId);
        var names := index.ResolvePendingBindings(indexKey);
        Wake(names);
        order := names;
      case NotFound =>
        var id := index.Delete(KindRole, nn.RoleIndexKey());
        if id == Nil { return; }
        model.findings := model.findings - {RoleSpecFindingId(id)};
        model.roles := model.roles - {id};
      case Failed =>
    }
  }
}
