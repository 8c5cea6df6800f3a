/** The role and binding reconcilers as cmd/main.go puts them together, and their events. */
module RbacSensor {
  import opened Uuids
  import opened Registry
  import opened Landscape
  import opened Rbac
  import opened RbacLaws

  ghost predicate ScopeOf(ch: Channel, clusterScoped: bool) {
    forall nn | nn in ch.items :: nn.ClusterScoped() == clusterScoped
  }

  lemma {:induction false} SendKeepsScope(ch: Channel, names: seq<string>, clusterScoped: bool)
    requires ScopeOf(ch, clusterScoped)
    ensures ScopeOf(SendAll(ch, names, clusterScoped), clusterScoped)
  {
    if names != [] { SendKeepsScope(ch, names[..|names| - 1], clusterScoped); }
  }

  class Sensor {
    const model: Model
    const index: NameIndex
    const whitelist: Whitelist
    const spaced: RoleBindingReconciler
    const cluster: RoleBindingReconciler
    const roles: RoleReconciler
    const clusterRoles: RoleReconciler
    /** The object each indexed binding was last reconciled from. */
    ghost var seen: map<string, BindingObject>
    /** The id its role was indexed under at that moment. */
    ghost var found: map<string, Uuid>

    ghost predicate Assembled()
      reads roles, clusterRoles
    {
      && spaced.kind == "RoleBinding" && cluster.kind == "ClusterRoleBinding"
      && roles.kind == "Role" && clusterRoles.kind == "ClusterRole"
      && roles.bindingReconcilers == clusterRoles.bindingReconcilers == [spaced, cluster]
      && spaced.model == cluster.model == roles.model == clusterRoles.model == model
      && spaced.index == cluster.index == roles.index == clusterRoles.index == index
      && spaced.whitelist == cluster.whitelist == roles.whitelist == clusterRoles.whitelist == whitelist
    }

    ghost predicate Valid()
      reads spaced, cluster, roles, clusterRoles
    {
      Assembled() && ScopeOf(spaced.Queue(), false) && ScopeOf(cluster.Queue(), true)
    }

    ghost function View(): System
      reads this, model, index, spaced, cluster
    {
      System(ViewOf(model, index), spaced.Queue(), cluster.Queue(), seen, found)
    }

    constructor (model: Model, index: NameIndex, whitelist: Whitelist)
      ensures Valid() && this.model == model && this.index == index && this.whitelist == whitelist
      ensures fresh(spaced) && fresh(cluster) && fresh(roles) && fresh(clusterRoles)
      ensures View() == System(ViewOf(model, index), Channel([], {}), Channel([], {}), map[], map[])
    {
      var b := new RoleBindingReconciler(model, index, whitelist, "RoleBinding");
      var c := new RoleBindingReconciler(model, index, whitelist, "ClusterRoleBinding");
      var r := new RoleReconciler(model, index, whitelist, "Role");
      var cr := new RoleReconciler(model, index, whitelist, "ClusterRole");
      Wire(r, b, c);
      Wire(cr, b, c);
      this.model, this.index, this.whitelist := model, index, whitelist;
      spaced, cluster, roles, clusterRoles, seen, found := b, c, r, cr, map[], map[];
    }

    method HandleBinding(nn: NamespacedName, got: Got<BindingObject>)
      requires Valid()
      modifies this`seen, this`found, index`names, index`pendingBindings, model`bindings, model`findings
      modifies spaced`lost, cluster`lost
      ensures index.OnlyKinds({KindBinding})
      ensures Valid() && View() == ReconcileBinding(old(View()), whitelist, nn, got)
    {
      hide BindingFound, BindingGone;
      if nn.ClusterScoped() {
        cluster.Reconcile(nn, got);
      } else {
        spaced.Reconcile(nn, got);
      }
      match got
      case Found(obj) =>
        if obj.uid != Nil {
          seen := seen[nn.String() := obj];
          found := found[nn.String() := IndexedId(index.Names(KindRole), Referenced(obj, nn.namespace))];
        } else {
          UnreadableFound(old(ViewOf(model, index)), nn, obj);
        }
      case NotFound => seen, found := seen - {nn.String()}, found - {nn.String()};
      case Failed =>
    }

    lemma UnreadableFound(a: Access, nn: NamespacedName, obj: BindingObject)
      requires obj.uid == Nil
      ensures BindingFound(a, whitelist, nn, obj) == a
    {
    }

    method HandleRole(nn: NamespacedName, got: Got<RoleObject>) returns (ghost order: seq<string>)
      requires Valid()
      modifies index`names, index`pendingBindings, model`roles, model`findings, spaced, cluster
      ensures index.OnlyKinds({KindRole})
      ensures Valid() && View() == ReconcileRole(old(View()), whitelist, nn, got, order)
      ensures got.Found? ==> Enumerates(order, Woken(old(View()).a, nn, got.obj))
    {
      hide RoleFound, RoleGone, Woken, SendAll;
      ghost var s := View();
      var role := if nn.ClusterScoped() then clusterRoles else roles;
      assert role.Queue(false) == s.spaced && role.Queue(true) == s.cluster;
      order := role.Reconcile(nn, got);
      assert role.Queue(false) == spaced.Queue() && role.Queue(true) == cluster.Queue();
      Drained(s, order);
      SendNothing(s);
    }

    lemma SendNothing(s: System)
      ensures SendAll(s.spaced, [], false) == s.spaced && SendAll(s.cluster, [], true) == s.cluster
    {
    }

    lemma Drained(s: System, order: seq<string>)
      requires ScopeOf(s.spaced, false) && ScopeOf(s.cluster, true)
      ensures ScopeOf(SendAll(s.spaced, order, false), false) && ScopeOf(SendAll(s.cluster, order, true), true)
    {
      SendKeepsScope(s.spaced, order, false);
      SendKeepsScope(s.cluster, order, true);
    }

    /** A binding reconciler takes the next request from its channel; a failed read leaves it there. */
    method TakeRequest(clusterScoped: bool, got: Got<BindingObject>)
      requires Valid()
      modifies this`seen, this`found, index`names, index`pendingBindings, model`bindings, model`findings
      modifies spaced, cluster
      ensures index.OnlyKinds({KindBinding})
      ensures Valid() && View() == Step(old(View()), whitelist, Dequeue(clusterScoped, got))
    {
      hide ReconcileBinding;
      var rbc := if clusterScoped then cluster else spaced;
      if |rbc.requeue| == 0 { return; }
      var nn := rbc.requeue[0];
      if !got.Failed? { rbc.requeue := rbc.requeue[1..]; }
      HandleBinding(nn, got);
    }

    /** Any event: the sensor does what the machine does, waking bindings in some order. */
    method Handle(e: Event) returns (ghost done: Event)
      requires Valid() && !e.Elsewhere?
      modifies this`seen, this`found, index`names, index`pendingBindings, model`bindings, model`roles, model`findings
      modifies spaced, cluster
      ensures index.OnlyKinds({KindRole, KindBinding})
      ensures Valid() && View() == Step(old(View()), whitelist, done)
      ensures if e.RoleEvent? then done.RoleEvent? && done.role == e.role && done.gotRole == e.gotRole else done == e
      ensures e.RoleEvent? && e.gotRole.Found? ==> Enumerates(done.order, Woken(old(View()).a, e.role, e.gotRole.obj))
    {
      hide ReconcileBinding, ReconcileRole, Receive, Woken;
      done := e;
      match e
      case BindingEvent(nn, got) => HandleBinding(nn, got);
      case RoleEvent(nn, got, _) =>
        ghost var order := HandleRole(nn, got);
        done := RoleEvent(nn, got, order);
      case Dequeue(clusterScoped, got) => TakeRequest(clusterScoped, got);
    }
  }
}
