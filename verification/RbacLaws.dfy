/** No wake-up is lost: what holds in every reachable state of the role and binding reconcilers, with
    each reconcile taken as one atomic step. */
module RbacLaws {
  import opened Uuids
  import opened Registry
  import opened Landscape
  import opened Rbac

  /** The shared state, the two requeue channels, and two history variables: for each indexed binding the
      object it was last reconciled from, and the id its role was indexed under at that moment. */
  datatype System = System(a: Access, spaced: Channel, cluster: Channel, seen: map<string, BindingObject>,
    found: map<string, Uuid>)
  {
    function Chan(clusterScoped: bool): Channel { if clusterScoped then cluster else spaced }

    function Settle(nn: NamespacedName): System {
      if nn.ClusterScoped() then this.(cluster := cluster.Settle(nn)) else this.(spaced := spaced.Settle(nn))
    }
  }

  /** A watch event for a binding or a role, or a binding reconciler taking the next request from its
      channel. `order` is the order in which a role's reconcile wakes the bindings. `Elsewhere` is
      any change the other reconcilers make to their own findings. */
  datatype Event =
    | BindingEvent(binding: NamespacedName, got: Got<BindingObject>)
    | RoleEvent(role: NamespacedName, gotRole: Got<RoleObject>, order: seq<string>)
    | Dequeue(clusterScoped: bool, got: Got<BindingObject>)
    | Elsewhere(findings: map<Uuid, Finding>)

  /** The role an object refers to: one of its own namespace, or a cluster role. */
  function Referenced(obj: BindingObject, namespace: string): NamespacedName {
    NamespacedName(if obj.roleRefKind == "Role" then namespace else "", obj.roleRefName)
  }

  /** The id a role is indexed under, Nil for none. */
  function IndexedId(roles: NameMap, role: NamespacedName): Uuid {
    if role.RoleIndexKey() in roles then roles[role.RoleIndexKey()] else Nil
  }

  function ReconcileBinding(s: System, wl: Whitelist, nn: NamespacedName, got: Got<BindingObject>): System {
    match got
    case Found(obj) =>
      if obj.uid == Nil then s
      else s.Settle(nn).(a := BindingFound(s.a, wl, nn, obj), seen := s.seen[nn.String() := obj],
                         found := s.found[nn.String() := IndexedId(s.a.roles, Referenced(obj, nn.namespace))])
    case NotFound =>
      s.Settle(nn).(a := BindingGone(s.a, nn), seen := s.seen - {nn.String()}, found := s.found - {nn.String()})
    case Failed => s
  }

  function ReconcileRole(s: System, wl: Whitelist, nn: NamespacedName, got: Got<RoleObject>,
      order: seq<string>): System {
    match got
    case Found(obj) =>
      s.(a := RoleFound(s.a, wl, nn, obj), spaced := SendAll(s.spaced, order, false),
         cluster := SendAll(s.cluster, order, true))
    case NotFound => s.(a := RoleGone(s.a, nn))
    case Failed => s
  }

  /** Takes the head of a channel. A failed read is retried, so the request stays. */
  function Receive(s: System, clusterScoped: bool, got: Got<BindingObject>): System {
    if got.Failed? || s.Chan(clusterScoped).items == [] then s
    else if clusterScoped then s.(cluster := s.cluster.(items := s.cluster.items[1..]))
    else s.(spaced := s.spaced.(items := s.spaced.items[1..]))
  }

  function Step(s: System, wl: Whitelist, e: Event): System {
    match e
    case BindingEvent(nn, got) => ReconcileBinding(s, wl, nn, got)
    case RoleEvent(nn, got, order) => ReconcileRole(s, wl, nn, got, order)
    case Dequeue(clusterScoped, got) =>
      if s.Chan(clusterScoped).items == [] then s
      else ReconcileBinding(Receive(s, clusterScoped, got), wl, s.Chan(clusterScoped).items[0], got)
    case Elsewhere(findings) => s.(a := s.a.(findings := findings))
  }

  /** Kubernetes UIDs are unique over all kinds: `owner` says which object a UID belongs to. */
  datatype Holder = OfBinding(name: string) | OfRole(role: NamespacedName) | Nobody
  type Owner = Uuid -> Holder

  ghost predicate OwnObject(owner: Owner, nn: NamespacedName, got: Got<BindingObject>) {
    '/' !in nn.namespace && (got.Found? && got.obj.uid != Nil ==> owner(got.obj.uid) == OfBinding(nn.String()))
  }

  ghost predicate OwnRole(owner: Owner, nn: NamespacedName, got: Got<RoleObject>) {
    '/' !in nn.namespace && (got.Found? && got.obj.uid != Nil ==> owner(got.obj.uid) == OfRole(nn))
  }

  /** The events the cluster can produce. A binding taken from a channel while indexed still has a
      readable UID. */
  ghost predicate Possible(s: System, owner: Owner, e: Event) {
    match e
    case BindingEvent(nn, got) => OwnObject(owner, nn, got)
    case RoleEvent(nn, got, order) =>
      OwnRole(owner, nn, got) && (got.Found? ==> Enumerates(order, Woken(s.a, nn, got.obj)))
    case Dequeue(clusterScoped, got) =>
      s.Chan(clusterScoped).items != [] ==>
        var nn := s.Chan(clusterScoped).items[0];
        OwnObject(owner, nn, got) && (got.Found? && got.obj.uid == Nil ==> nn.String() !in s.a.bindings)
    case Elsewhere(findings) =>
      && (forall id :: SubjectFindingId(id) in findings <==> SubjectFindingId(id) in s.a.findings)
      && (forall id :: RoleSpecFindingId(id) in findings <==> RoleSpecFindingId(id) in s.a.findings)
  }

  // ---- names ----

  /** What NamespacedName.String printed is read back unchanged. */
  lemma NameRoundTrip(nn: NamespacedName)
    requires '/' !in nn.namespace
    ensures ParseNamespacedName(nn.String()) == nn
  {
    var s := nn.String();
    var i := |nn.namespace|;
    assert s[i] == '/' && s[..i] == nn.namespace && s[i + 1..] == nn.name;
    var j := FirstSlash(s);
    assert forall k | 0 <= k < i :: s[k] == nn.namespace[k] != '/';
    assert forall k | 0 <= k < j :: s[k] == s[..j][k] != '/';
  }

  lemma PrintParsed(s: string)
    requires '/' in s
    ensures ParseNamespacedName(s).String() == s && '/' !in ParseNamespacedName(s).namespace
  {
  }

  // ---- the invariant ----

  /** The role an indexed binding refers to. */
  function RoleOf(s: System, name: string): NamespacedName
    requires name in s.seen
  {
    Referenced(s.seen[name], ParseNamespacedName(name).namespace)
  }

  /** A binding looks its role up under the key the role is indexed under. */
  lemma RoleKeyIsIndexKey(obj: BindingObject, namespace: string)
    ensures obj.RoleKey(namespace) == Referenced(obj, namespace).RoleIndexKey()
  {
  }

  /** Different roles are indexed under different keys. */
  lemma IndexKeysDiffer(r: NamespacedName, q: NamespacedName)
    requires '/' !in r.namespace && '/' !in r.name && '/' !in q.namespace && '/' !in q.name
    ensures r.RoleIndexKey() == q.RoleIndexKey() <==> r == q
  {
    NameRoundTrip(r);
    NameRoundTrip(q);
    assert r.namespace != "" ==> r.RoleIndexKey()[|r.namespace|] == '/';
    assert q.namespace != "" ==> q.RoleIndexKey()[|q.namespace|] == '/';
  }

  ghost predicate RoleIsIndexed(s: System, name: string)
    requires name in s.seen
  {
    RoleOf(s, name).RoleIndexKey() in s.a.roles
  }

  /** The binding waits under the key of the role it refers to. */
  ghost predicate WaitsForRole(s: System, name: string)
    requires name in s.seen
  {
    name in WaitingFor(s.a.pending, RoleOf(s, name).RoleIndexKey())
  }

  function ChanOf(s: System, name: string): Channel { s.Chan(ParseNamespacedName(name).ClusterScoped()) }

  ghost predicate Stored(s: System, name: string) {
    name in s.a.bindings && s.a.bindings[name] in s.a.stored
  }

  ghost predicate Unresolved(s: System, name: string) {
    Stored(s, name) && s.a.stored[s.a.bindings[name]].role == Nil
  }

  /** An unresolved binding will be looked at again: it waits for its role, or its request is in the
      channel of the reconciler of its scope; the one exception is a request for this very binding
      that was dropped because the channel was full. */
  ghost predicate WillWake(s: System, name: string)
    requires name in s.seen
  {
    || WaitsForRole(s, name)
    || ParseNamespacedName(name) in ChanOf(s, name).items
    || ParseNamespacedName(name) in ChanOf(s, name).lost
  }

  function Whitelisted(wl: Whitelist, name: string): bool {
    var nn := ParseNamespacedName(name);
    wl(nn.BindingKind(), nn.name)
  }

  /** Stored exactly when the last annotation was valid; a finding exactly when neither stored nor
      whitelisted. */
  ghost predicate StoredOrFinding(s: System, wl: Whitelist, name: string)
    requires name in s.seen && name in s.found && name in s.a.bindings
  {
    && (Stored(s, name) <==> s.seen[name].subjectId != Nil)
    && (Stored(s, name) ==> s.a.stored[s.a.bindings[name]].subject == s.seen[name].Subject()
                            && s.a.stored[s.a.bindings[name]].role == s.found[name])
    && (SubjectFindingId(s.a.bindings[name]) in s.a.findings <==> !Stored(s, name) && !Whitelisted(wl, name))
  }

  ghost predicate Identified(s: System, owner: Owner, name: string) {
    && name in s.a.bindings && name in s.seen && name in s.found && '/' in name
    && s.a.bindings[name] == s.seen[name].uid != Nil && owner(s.a.bindings[name]) == OfBinding(name)
  }

  ghost predicate NamesOk(s: System, wl: Whitelist, owner: Owner) {
    forall n | n in s.a.bindings ::
      Identified(s, owner, n) && StoredOrFinding(s, wl, n) && (Unresolved(s, n) ==> WillWake(s, n))
  }

  /** Waiting sets are non-empty, hold indexed bindings only, and wait for roles that are absent. */
  ghost predicate PendingOk(a: Access) {
    WaitingOk(a.pending, a.bindings.Keys, a.roles.Keys) && forall k | k in a.roles :: a.roles[k] != Nil
  }

  ghost predicate WaitingOk(w: Waiting, names: set<string>, roleKeys: set<string>) {
    forall k | k in w :: w[k] != {} && w[k] <= names && k !in roleKeys
  }

  lemma WaitingStaysOk(w: Waiting, names: set<string>, roleKeys: set<string>, roleKey: string, name: string)
    requires WaitingOk(w, names, roleKeys)
    ensures WaitingOk(WithoutWaiting(w, roleKey, name), names + {name}, roleKeys)
    ensures roleKey !in roleKeys ==> WaitingOk(WithWaiting(w, roleKey, name), names + {name}, roleKeys)
    ensures WaitingOk(WithoutBinding(w, name), names - {name}, roleKeys)
  {
  }

  ghost predicate SubjectsOk(a: Access) {
    forall id | id in a.stored :: a.stored[id].subject != NoSubject
  }

  ghost predicate ChannelOk(ch: Channel, clusterScoped: bool) {
    |ch.items| <= CAPACITY && forall nn | nn in ch.items :: '/' !in nn.namespace && nn.ClusterScoped() == clusterScoped
  }

  ghost predicate Inv(s: System, wl: Whitelist, owner: Owner) {
    NamesOk(s, wl, owner) && PendingOk(s.a) && SubjectsOk(s.a) && ChannelOk(s.spaced, false)
      && ChannelOk(s.cluster, true)
  }

  // ---- a binding is reconciled ----

  /** Reconciling one binding leaves every other indexed binding as it was. */
  ghost predicate SameBinding(s: System, t: System, name: string)
    requires name in s.a.bindings
  {
    && name in t.a.bindings && t.a.bindings[name] == s.a.bindings[name]
    && (name in s.seen ==> name in t.seen && t.seen[name] == s.seen[name])
    && (name in s.found ==> name in t.found && t.found[name] == s.found[name])
    && (Stored(t, name) <==> Stored(s, name))
    && (Stored(s, name) ==> t.a.stored[t.a.bindings[name]] == s.a.stored[s.a.bindings[name]])
    && (SubjectFindingId(s.a.bindings[name]) in t.a.findings <==> SubjectFindingId(s.a.bindings[name]) in s.a.findings)
    && (forall k :: name in WaitingFor(s.a.pending, k) ==> name in WaitingFor(t.a.pending, k))
  }

  lemma SameBindingOk(s: System, t: System, wl: Whitelist, owner: Owner, name: string)
    requires name in s.a.bindings && Identified(s, owner, name) && StoredOrFinding(s, wl, name)
    requires Unresolved(s, name) ==> WillWake(s, name)
    requires SameBinding(s, t, name)
    requires forall nn | nn in ChanOf(s, name).items && nn == ParseNamespacedName(name) :: nn in ChanOf(t, name).items
    requires ParseNamespacedName(name) in ChanOf(s, name).lost ==> ParseNamespacedName(name) in ChanOf(t, name).lost
    ensures Identified(t, owner, name) && StoredOrFinding(t, wl, name) && (Unresolved(t, name) ==> WillWake(t, name))
  {
    hide SubjectFindingId, ParseNamespacedName;
  }

  /** Where waiting names are after one of the index operations. */
  lemma WaitingLaws(w: Waiting, roleKey: string, name: string)
    ensures forall k, n :: n in WaitingFor(WithWaiting(w, roleKey, name), k) <==>
      n in WaitingFor(w, k) || (k == roleKey && n == name)
    ensures forall k, n :: n in WaitingFor(WithoutWaiting(w, roleKey, name), k) <==>
      n in WaitingFor(w, k) && !(k == roleKey && n == name)
    ensures forall k, n :: n in WaitingFor(WithoutBinding(w, name), k) <==> n in WaitingFor(w, k) && n != name
  {
    forall k, n ensures n in WaitingFor(WithoutWaiting(w, roleKey, name), k) <==>
      n in WaitingFor(w, k) && !(k == roleKey && n == name) {
      if roleKey in w && k == roleKey { assert n in w[k] - {name} <==> n in w[k] && n != name; }
    }
    forall k, n ensures n in WaitingFor(WithoutBinding(w, name), k) <==> n in WaitingFor(w, k) && n != name {
      if k in w { assert n in w[k] - {name} <==> n in w[k] && n != name; }
    }
  }

  /** What the reconcile of a binding stores of it. */
  lemma FoundStored(a: Access, wl: Whitelist, nn: NamespacedName, obj: BindingObject)
    requires obj.uid != Nil
    ensures var b, roleId := BindingFound(a, wl, nn, obj), IndexedId(a.roles, Referenced(obj, nn.namespace));
      && b.stored == (if obj.subjectId == Nil then a.stored - {obj.uid}
                      else a.stored[obj.uid := Binding(nn.name, roleId, obj.Subject())])
      && (obj.subjectId != Nil && roleId == Nil ==>
            nn.String() in WaitingFor(b.pending, Referenced(obj, nn.namespace).RoleIndexKey()))
      && (SubjectFindingId(obj.uid) in b.findings <==> obj.subjectId == Nil && !wl(nn.BindingKind(), nn.name))
  {
    RoleKeyIsIndexKey(obj, nn.namespace);
    WaitingLaws(a.pending, obj.RoleKey(nn.namespace), nn.String());
    hide SubjectFindingId, WithWaiting, WithoutWaiting, WaitingFor, BindingObject.Subject, BindingObject.RoleKey,
        Referenced;
  }

  lemma FoundOwn(s: System, wl: Whitelist, owner: Owner, nn: NamespacedName, obj: BindingObject)
    requires OwnObject(owner, nn, Found(obj)) && obj.uid != Nil
    ensures var t, n := ReconcileBinding(s, wl, nn, Found(obj)), nn.String();
      && Identified(t, owner, n) && StoredOrFinding(t, wl, n)
      && (Unresolved(t, n) ==> WaitsForRole(t, n))
  {
    NameRoundTrip(nn);
    FoundEffect(s, wl, nn, obj);
    FoundStored(s.a, wl, nn, obj);
    assert '/' in nn.String() by { assert nn.String()[|nn.namespace|] == '/'; }
    hide SubjectFindingId, ParseNamespacedName, WaitingFor, ReconcileBinding, BindingFound, SubjectFindings,
        Referenced, IndexedId, BindingObject.Subject, NamespacedName.BindingKind, NamespacedName.RoleIndexKey;
  }

  lemma SubjectFindingsOfOthers(findings: map<Uuid, Finding>, id: Uuid, whitelisted: bool, subjectId: Uuid, other: Uuid)
    requires other != id
    ensures SubjectFindingId(other) in SubjectFindings(findings, id, whitelisted, subjectId)
      <==> SubjectFindingId(other) in findings
  {
    SubjectFindingIdInjective(other, id);
    hide SubjectFindingId;
  }

  lemma WaitingOfOthers(s: System, wl: Whitelist, nn: NamespacedName, obj: BindingObject)
    ensures var t := ReconcileBinding(s, wl, nn, Found(obj));
      forall k, n | n != nn.String() :: n in WaitingFor(s.a.pending, k) <==> n in WaitingFor(t.a.pending, k)
  {
    WaitingLaws(s.a.pending, obj.RoleKey(nn.namespace), nn.String());
    hide SubjectFindings, WithWaiting, WithoutWaiting, WaitingFor;
  }

  lemma FoundEffect(s: System, wl: Whitelist, nn: NamespacedName, obj: BindingObject)
    requires obj.uid != Nil
    ensures var t, whitelisted := ReconcileBinding(s, wl, nn, Found(obj)), wl(nn.BindingKind(), nn.name);
      && t.a == BindingFound(s.a, wl, nn, obj) && t.seen == s.seen[nn.String() := obj]
      && t.found == s.found[nn.String() := IndexedId(s.a.roles, Referenced(obj, nn.namespace))]
      && t.a.bindings == s.a.bindings[nn.String() := obj.uid]
      && t.a.findings == SubjectFindings(s.a.findings, obj.uid, whitelisted, obj.subjectId)
  {
    hide SubjectFindings, WithWaiting, WithoutWaiting;
  }

  lemma FoundStores(a: Access, wl: Whitelist, nn: NamespacedName, obj: BindingObject, id: Uuid)
    requires obj.uid != Nil && id != obj.uid
    ensures var b := BindingFound(a, wl, nn, obj);
      (id in b.stored <==> id in a.stored) && (id in a.stored ==> b.stored[id] == a.stored[id])
  {
    hide SubjectFindings, WithWaiting, WithoutWaiting;
  }

  lemma FoundOthers(s: System, wl: Whitelist, owner: Owner, nn: NamespacedName, obj: BindingObject, n: string)
    requires OwnObject(owner, nn, Found(obj)) && obj.uid != Nil
    requires Identified(s, owner, n) && n != nn.String()
    ensures SameBinding(s, ReconcileBinding(s, wl, nn, Found(obj)), n)
  {
    WaitingOfOthers(s, wl, nn, obj);
    FoundEffect(s, wl, nn, obj);
    FoundStores(s.a, wl, nn, obj, s.a.bindings[n]);
    SubjectFindingsOfOthers(s.a.findings, obj.uid, wl(nn.BindingKind(), nn.name), obj.subjectId, s.a.bindings[n]);
    hide ReconcileBinding, BindingFound, SubjectFindings, SubjectFindingId, WaitingFor;
  }

  lemma GoneOthers(s: System, wl: Whitelist, owner: Owner, nn: NamespacedName, n: string)
    requires Identified(s, owner, n) && n != nn.String()
    requires nn.String() in s.a.bindings ==> Identified(s, owner, nn.String())
    ensures SameBinding(s, ReconcileBinding(s, wl, nn, NotFound), n)
  {
    WaitingLaws(s.a.pending, "", nn.String());
    if nn.String() in s.a.bindings { SubjectFindingIdInjective(s.a.bindings[n], s.a.bindings[nn.String()]); }
    hide SubjectFindingId, ParseNamespacedName, WithWaiting, WithoutWaiting, WithoutBinding, WaitingFor;
  }

  /** As NamesOk, but nothing is promised about waking binding `ex`. */
  ghost predicate NamesOkBut(s: System, wl: Whitelist, owner: Owner, ex: string) {
    forall n | n in s.a.bindings ::
      Identified(s, owner, n) && StoredOrFinding(s, wl, n) && (n != ex && Unresolved(s, n) ==> WillWake(s, n))
  }

  lemma FoundPending(a: Access, wl: Whitelist, nn: NamespacedName, obj: BindingObject)
    requires PendingOk(a)
    ensures PendingOk(BindingFound(a, wl, nn, obj))
  {
    var roleKey, b := obj.RoleKey(nn.namespace), BindingFound(a, wl, nn, obj);
    assert obj.uid != Nil ==> b.bindings.Keys == a.bindings.Keys + {nn.String()};
    WaitingStaysOk(a.pending, a.bindings.Keys, a.roles.Keys, roleKey, nn.String());
    hide SubjectFindings, WithWaiting, WithoutWaiting, WaitingOk;
  }

  lemma GonePending(a: Access, nn: NamespacedName)
    requires PendingOk(a) && (nn.String() in a.bindings ==> a.bindings[nn.String()] != Nil)
    ensures PendingOk(BindingGone(a, nn))
  {
    WaitingStaysOk(a.pending, a.bindings.Keys, a.roles.Keys, "", nn.String());
    hide SubjectFindingId, WithoutBinding;
    if nn.String() !in a.bindings { assert a.bindings - {nn.String()} == a.bindings; }
  }

  /** Reconciling another binding leaves the requests for this one alone. */
  lemma RequestsKept(s: System, wl: Whitelist, owner: Owner, nn: NamespacedName, got: Got<BindingObject>, n: string)
    requires Identified(s, owner, n) && n != nn.String()
    ensures var t := ReconcileBinding(s, wl, nn, got);
      && ChanOf(t, n).items == ChanOf(s, n).items
      && (ParseNamespacedName(n) in ChanOf(s, n).lost ==> ParseNamespacedName(n) in ChanOf(t, n).lost)
  {
    PrintParsed(n);
    hide ParseNamespacedName, BindingFound, BindingGone;
  }

  lemma FoundNames(s: System, wl: Whitelist, owner: Owner, nn: NamespacedName, obj: BindingObject)
    requires NamesOkBut(s, wl, owner, nn.String()) && OwnObject(owner, nn, Found(obj)) && obj.uid != Nil
    ensures NamesOk(ReconcileBinding(s, wl, nn, Found(obj)), wl, owner)
  {
    var t := ReconcileBinding(s, wl, nn, Found(obj));
    FoundOwn(s, wl, owner, nn, obj);
    assert t.a.bindings == s.a.bindings[nn.String() := obj.uid];
    hide Identified, StoredOrFinding, Unresolved, WillWake, ReconcileBinding, SubjectFindingId, SubjectFindings,
        ParseNamespacedName, OwnObject, SameBinding;
    forall n | n in t.a.bindings && n != nn.String()
      ensures Identified(t, owner, n) && StoredOrFinding(t, wl, n) && (Unresolved(t, n) ==> WillWake(t, n))
    {
      FoundOthers(s, wl, owner, nn, obj, n);
      RequestsKept(s, wl, owner, nn, Found(obj), n);
      SameBindingOk(s, t, wl, owner, n);
    }
  }

  lemma GoneNames(s: System, wl: Whitelist, owner: Owner, nn: NamespacedName)
    requires NamesOkBut(s, wl, owner, nn.String())
    ensures NamesOk(ReconcileBinding(s, wl, nn, NotFound), wl, owner)
  {
    var t := ReconcileBinding(s, wl, nn, NotFound);
    hide StoredOrFinding, Unresolved, SubjectFindingId, ParseNamespacedName, SameBinding, WithoutBinding;
    forall n | n in t.a.bindings
      ensures Identified(t, owner, n) && StoredOrFinding(t, wl, n) && (Unresolved(t, n) ==> WillWake(t, n))
    {
      GoneOthers(s, wl, owner, nn, n);
      RequestsKept(s, wl, owner, nn, NotFound, n);
      SameBindingOk(s, t, wl, owner, n);
    }
  }

  /** Everything of the invariant except the promise to wake binding `ex`. */
  ghost predicate InvBut(s: System, wl: Whitelist, owner: Owner, ex: string) {
    NamesOkBut(s, wl, owner, ex) && PendingOk(s.a) && SubjectsOk(s.a) && ChannelOk(s.spaced, false)
      && ChannelOk(s.cluster, true)
  }

  /** Reconciling a binding settles it: afterwards the full invariant holds. */
  lemma BindingLaws(s: System, wl: Whitelist, owner: Owner, nn: NamespacedName, got: Got<BindingObject>)
    requires InvBut(s, wl, owner, nn.String()) && OwnObject(owner, nn, got) && !got.Failed?
    requires got.Found? && got.obj.uid == Nil ==> nn.String() !in s.a.bindings
    ensures Inv(ReconcileBinding(s, wl, nn, got), wl, owner)
  {
    hide Identified, StoredOrFinding, Unresolved, WillWake, PendingOk, ChannelOk, SubjectFindings, SubjectFindingId,
        OwnObject, IndexedId, Referenced, WithWaiting, WithoutWaiting, WithoutBinding;
    SettleKeepsChannels(s, nn);
    if got.NotFound? {
      GoneNames(s, wl, owner, nn);
      IdsAreSet(s, wl, owner, nn.String());
      GonePending(s.a, nn);
    } else if got.obj.uid != Nil {
      FoundNames(s, wl, owner, nn, got.obj);
      FoundPending(s.a, wl, nn, got.obj);
      assert got.obj.subjectId != Nil ==> got.obj.Subject() != NoSubject;
    }
  }

  lemma SettleKeepsChannels(s: System, nn: NamespacedName)
    ensures forall ch, c :: ChannelOk(ch, c) ==> ChannelOk(ch.Settle(nn), c)
  {
  }

  lemma IdsAreSet(s: System, wl: Whitelist, owner: Owner, name: string)
    requires NamesOkBut(s, wl, owner, name)
    ensures name in s.a.bindings ==> s.a.bindings[name] != Nil
  {
  }

  // ---- a role is reconciled ----

  /** The requests for one scope among those sent, in order. */
  function Scoped(names: seq<string>, clusterScoped: bool): seq<NamespacedName> {
    if names == [] then []
    else
      var nn := ParseNamespacedName(names[|names| - 1]);
      Scoped(names[..|names| - 1], clusterScoped) + if nn.ClusterScoped() == clusterScoped then [nn] else []
  }

  /** How many more requests fit. */
  function Free(ch: Channel): int { CAPACITY - |ch.items| }

  function Min(a: int, b: int): int { if a < b then a else b }

  function Elements(list: seq<NamespacedName>): set<NamespacedName> { set nn | nn in list }

  /** Exactly what a drain leaves: the first requests of the channel's scope, as many as are free, are
      in the channel in order, and the rest of them is lost. */
  lemma {:induction false} SendAllLaws(ch: Channel, names: seq<string>, clusterScoped: bool)
    requires |ch.items| <= CAPACITY
    ensures var t, sent := SendAll(ch, names, clusterScoped), Scoped(names, clusterScoped);
      var fit := Min(|sent|, Free(ch));
      t.items == ch.items + sent[..fit] && t.lost == ch.lost + Elements(sent[fit..])
  {
    var sent := Scoped(names, clusterScoped);
    if names == [] {
      assert ch.items + sent[..0] == ch.items && ch.lost + Elements([]) == ch.lost;
    } else {
      var k := |names| - 1;
      var nn := ParseNamespacedName(names[k]);
      SendAllLaws(ch, names[..k], clusterScoped);
      hide ParseNamespacedName;
      var before := Scoped(names[..k], clusterScoped);
      if nn.ClusterScoped() == clusterScoped {
        SendOne(ch, before, nn);
      } else {
        assert before + [] == before;
      }
    }
  }

  lemma SendOne(ch: Channel, sent: seq<NamespacedName>, nn: NamespacedName)
    requires |ch.items| <= CAPACITY
    ensures var fit := Min(|sent|, Free(ch));
      var t := Channel(ch.items + sent[..fit], ch.lost + Elements(sent[fit..])).Send(nn);
      var more := sent + [nn];
      var fitMore := Min(|more|, Free(ch));
      t == Channel(ch.items + more[..fitMore], ch.lost + Elements(more[fitMore..]))
  {
    var fit, more := Min(|sent|, Free(ch)), sent + [nn];
    if |sent| < Free(ch) {
      assert ch.items + more[..|more|] == ch.items + sent[..fit] + [nn];
      assert sent[fit..] == [] && more[|more|..] == [];
    } else {
      assert more[..fit] == sent[..fit] && more[fit..] == sent[fit..] + [nn];
      assert Elements(sent[fit..] + [nn]) == Elements(sent[fit..]) + {nn};
    }
  }

  /** What a drain sends is what was woken in that scope. */
  lemma {:induction false} ScopedLaws(names: seq<string>, clusterScoped: bool)
    requires forall n | n in names :: '/' in n
    ensures forall nn | nn in Scoped(names, clusterScoped) ::
      '/' !in nn.namespace && nn.ClusterScoped() == clusterScoped
    ensures forall n | n in names && ParseNamespacedName(n).ClusterScoped() == clusterScoped ::
      ParseNamespacedName(n) in Scoped(names, clusterScoped)
  {
    if names != [] {
      var k := |names| - 1;
      PrintParsed(names[k]);
      hide ParseNamespacedName;
      ScopedLaws(names[..k], clusterScoped);
      assert forall n | n in names :: n in names[..k] || n == names[k];
    }
  }

  /** A drain keeps what was in the channel; what it sends is in the channel or lost afterwards. */
  lemma DrainLaw(ch: Channel, names: seq<string>, clusterScoped: bool)
    requires ChannelOk(ch, clusterScoped) && forall n | n in names :: '/' in n
    ensures var t := SendAll(ch, names, clusterScoped);
      && ChannelOk(t, clusterScoped) && ch.lost <= t.lost
      && (forall nn | nn in ch.items :: nn in t.items)
      && (forall n | n in names && ParseNamespacedName(n).ClusterScoped() == clusterScoped ::
            ParseNamespacedName(n) in t.items || ParseNamespacedName(n) in t.lost)
  {
    SendAllLaws(ch, names, clusterScoped);
    ScopedLaws(names, clusterScoped);
    hide ParseNamespacedName, SendAll, Scoped;
    var sent := Scoped(names, clusterScoped);
    var fit := Min(|sent|, Free(ch));
    assert sent == sent[..fit] + sent[fit..];
  }

  lemma RoleKeepsBinding(s: System, t: System, wl: Whitelist, owner: Owner, nn: NamespacedName, obj: RoleObject,
      n: string)
    requires n in s.a.bindings && Identified(s, owner, n) && StoredOrFinding(s, wl, n)
    requires t.a == RoleFound(s.a, wl, nn, obj) && t.seen == s.seen && t.found == s.found
    ensures Identified(t, owner, n) && StoredOrFinding(t, wl, n) && (Unresolved(t, n) ==> Unresolved(s, n))
  {
    assert SubjectFindingId(s.a.bindings[n]) != RoleSpecFindingId(obj.uid);
    hide SubjectFindingId, RoleSpecFindingId, ParseNamespacedName;
  }

  lemma RoleNames(s: System, wl: Whitelist, owner: Owner, nn: NamespacedName, obj: RoleObject, order: seq<string>)
    requires Inv(s, wl, owner) && Enumerates(order, Woken(s.a, nn, obj))
    ensures var t := ReconcileRole(s, wl, nn, Found(obj), order);
      NamesOk(t, wl, owner) && ChannelOk(t.spaced, false) && ChannelOk(t.cluster, true)
  {
    var t := ReconcileRole(s, wl, nn, Found(obj), order);
    forall n | n in order ensures '/' in n && n in s.a.bindings {
      assert n in s.a.bindings && Identified(s, owner, n);
    }
    DrainLaw(s.spaced, order, false);
    DrainLaw(s.cluster, order, true);
    hide Identified, StoredOrFinding, Unresolved, WillWake, SubjectFindingId, SendAll, ParseNamespacedName,
        RoleSpecFindings;
    forall n | n in s.a.bindings
      ensures Identified(t, owner, n) && StoredOrFinding(t, wl, n) && (Unresolved(t, n) ==> WillWake(t, n))
    {
      RoleKeepsBinding(s, t, wl, owner, nn, obj, n);
      if Unresolved(t, n) { StillWakes(s, t, nn, obj, order, n); }
    }
  }

  /** The role's arrival moves the request of a binding from the waiting set to its channel. */
  lemma StillWakes(s: System, t: System, nn: NamespacedName, obj: RoleObject, order: seq<string>, n: string)
    requires n in s.seen && WillWake(s, n)
    requires Enumerates(order, Woken(s.a, nn, obj)) && t.seen == s.seen
    requires t.a.pending == if obj.uid == Nil then s.a.pending else s.a.pending - {nn.RoleIndexKey()}
    requires ChanOf(s, n).lost <= ChanOf(t, n).lost && forall m | m in ChanOf(s, n).items :: m in ChanOf(t, n).items
    requires n in order ==> ParseNamespacedName(n) in ChanOf(t, n).items || ParseNamespacedName(n) in ChanOf(t, n).lost
    ensures WillWake(t, n)
  {
    hide ParseNamespacedName;
    if WaitsForRole(s, n) && n !in order {
      assert WaitsForRole(t, n);
    }
  }

  lemma RoleGoneNames(s: System, wl: Whitelist, owner: Owner, nn: NamespacedName)
    requires Inv(s, wl, owner)
    ensures NamesOk(s.(a := RoleGone(s.a, nn)), wl, owner)
  {
    var t := s.(a := RoleGone(s.a, nn));
    assert forall id :: SubjectFindingId(id) != RoleSpecFindingId(s.a.RoleId(nn.RoleIndexKey()));
    hide SubjectFindingId, RoleSpecFindingId, ParseNamespacedName;
    forall n | n in t.a.bindings
      ensures Identified(t, owner, n) && StoredOrFinding(t, wl, n) && (Unresolved(t, n) ==> WillWake(t, n))
    {
      assert Identified(s, owner, n) && StoredOrFinding(s, wl, n) && (Unresolved(s, n) ==> WillWake(s, n));
    }
  }

  lemma RolePending(a: Access, wl: Whitelist, nn: NamespacedName, obj: RoleObject)
    requires PendingOk(a)
    ensures PendingOk(RoleFound(a, wl, nn, obj)) && PendingOk(RoleGone(a, nn))
  {
    hide RoleSpecFindings, RoleSpecFindingId;
  }

  lemma ElsewhereNames(s: System, wl: Whitelist, owner: Owner, findings: map<Uuid, Finding>)
    requires NamesOk(s, wl, owner) && forall id :: SubjectFindingId(id) in findings <==>
      SubjectFindingId(id) in s.a.findings
    ensures NamesOk(s.(a := s.a.(findings := findings)), wl, owner)
  {
    var t := s.(a := s.a.(findings := findings));
    hide SubjectFindingId, ParseNamespacedName;
    forall n | n in t.a.bindings
      ensures Identified(t, owner, n) && StoredOrFinding(t, wl, n) && (Unresolved(t, n) ==> WillWake(t, n))
    {
      assert Identified(s, owner, n) && StoredOrFinding(s, wl, n) && (Unresolved(s, n) ==> WillWake(s, n));
    }
  }

  /** Taking a request from its channel breaks the promise for that binding only. */
  lemma ReceiveLaws(s: System, wl: Whitelist, owner: Owner, clusterScoped: bool, got: Got<BindingObject>)
    requires Inv(s, wl, owner) && s.Chan(clusterScoped).items != []
    ensures var nn := s.Chan(clusterScoped).items[0];
      '/' !in nn.namespace && InvBut(Receive(s, clusterScoped, got), wl, owner, nn.String())
  {
    var items := s.Chan(clusterScoped).items;
    var nn, t := items[0], Receive(s, clusterScoped, got);
    assert nn in items;
    hide SubjectFindingId;
    forall n | n in s.a.bindings
      ensures Identified(t, owner, n) && StoredOrFinding(t, wl, n)
        && (n != nn.String() && Unresolved(t, n) ==> WillWake(t, n))
    {
      assert Identified(s, owner, n) && StoredOrFinding(s, wl, n) && (Unresolved(s, n) ==> WillWake(s, n));
      PrintParsed(n);
      hide ParseNamespacedName;
      assert forall m | m in items && m != nn :: m in items[1..];
    }
    assert forall m | m in items[1..] :: m in items;
  }

  lemma InvIsInvBut(s: System, wl: Whitelist, owner: Owner, ex: string)
    requires Inv(s, wl, owner)
    ensures InvBut(s, wl, owner, ex)
  {
    hide Identified, StoredOrFinding, Unresolved, WillWake;
  }

  /** Every possible event keeps the invariant. */
  lemma StepKeepsInv(s: System, wl: Whitelist, owner: Owner, e: Event)
    requires Inv(s, wl, owner) && Possible(s, owner, e)
    ensures Inv(Step(s, wl, e), wl, owner)
  {
    hide NamesOk, PendingOk, NamesOkBut, ChannelOk, OwnObject, BindingFound, BindingGone, Receive, SendAll,
        RoleSpecFindings, RoleSpecFindingId;
    match e
    case BindingEvent(nn, got) =>
      if got.NotFound? || (got.Found? && got.obj.uid != Nil) {
        InvIsInvBut(s, wl, owner, nn.String());
        BindingLaws(s, wl, owner, nn, got);
      } else {
        UnreadableChangesNothing(s, wl, nn, got);
      }
    case RoleEvent(nn, got, order) =>
      if got.Found? {
        RoleNames(s, wl, owner, nn, got.obj, order);
        RolePending(s.a, wl, nn, got.obj);
      } else if got.NotFound? {
        RoleGoneNames(s, wl, owner, nn);
        RolePending(s.a, wl, nn, RoleObject(Nil, Nil));
      }
    case Dequeue(clusterScoped, got) =>
      if s.Chan(clusterScoped).items != [] && !got.Failed? {
        ReceiveLaws(s, wl, owner, clusterScoped, got);
        ReceiveKeepsAccess(s, clusterScoped, got);
        BindingLaws(Receive(s, clusterScoped, got), wl, owner, s.Chan(clusterScoped).items[0], got);
      } else {
        ReceiveNothing(s, clusterScoped, got);
      }
    case Elsewhere(findings) =>
      ElsewhereNames(s, wl, owner, findings);
      ElsewherePending(s.a, findings);
  }

  lemma UnreadableChangesNothing(s: System, wl: Whitelist, nn: NamespacedName, got: Got<BindingObject>)
    requires got.Failed? || (got.Found? && got.obj.uid == Nil)
    ensures ReconcileBinding(s, wl, nn, got) == s
  {
  }

  lemma ReceiveKeepsAccess(s: System, clusterScoped: bool, got: Got<BindingObject>)
    ensures Receive(s, clusterScoped, got).a == s.a
  {
  }

  lemma ReceiveNothing(s: System, clusterScoped: bool, got: Got<BindingObject>)
    requires got.Failed? || s.Chan(clusterScoped).items == []
    ensures Receive(s, clusterScoped, got) == s
  {
  }

  lemma ElsewherePending(a: Access, findings: map<Uuid, Finding>)
    requires PendingOk(a)
    ensures PendingOk(a.(findings := findings))
  {
  }

  // ---- runs ----

  const START := System(Access(map[], map[], map[], map[], map[], map[]), Channel([], {}), Channel([], {}), map[],
    map[])

  ghost predicate IsRun(run: seq<Event>, states: seq<System>, wl: Whitelist, owner: Owner) {
    && |states| == |run| + 1 && states[0] == START
    && forall i | 0 <= i < |run| :: Possible(states[i], owner, run[i]) && Step(states[i], wl, run[i]) == states[i + 1]
  }

  lemma {:induction false} ReachableIsInv(run: seq<Event>, states: seq<System>, wl: Whitelist, owner: Owner, i: nat)
    requires IsRun(run, states, wl, owner) && i <= |run|
    ensures Inv(states[i], wl, owner)
    decreases i
  {
    if i > 0 {
      ReachableIsInv(run, states, wl, owner, i - 1);
      assert Possible(states[i - 1], owner, run[i - 1]);
      StepKeepsInv(states[i - 1], wl, owner, run[i - 1]);
    }
  }

  /** No lost wake-up: in every reachable state an indexed, stored binding without a role either waits
      for exactly the role it references, which is then not indexed, or its request is in the channel
      of the one reconciler of its scope, or since its last reconcile a request for it was dropped. */
  lemma NoLostWakeUp(run: seq<Event>, states: seq<System>, wl: Whitelist, owner: Owner, i: nat, name: string)
    requires IsRun(run, states, wl, owner) && i <= |run|
    requires Unresolved(states[i], name)
    ensures var s := states[i];
      && name in s.seen
      && ((WaitsForRole(s, name) && !RoleIsIndexed(s, name))
          || ParseNamespacedName(name) in ChanOf(s, name).items
          || ParseNamespacedName(name) in ChanOf(s, name).lost)
  {
    ReachableIsInv(run, states, wl, owner, i);
    hide ParseNamespacedName, SubjectFindingId;
    assert Identified(states[i], owner, name);
  }

  /** Stored or finding: in every reachable state no stored binding has an empty subject; an indexed
      binding is stored exactly when its last annotation named a subject, with that subject and with the id
      its role was indexed under when the binding was last reconciled, and it carries a missing-subject
      finding exactly when it is neither stored nor whitelisted; and only indexed bindings wait. */
  lemma StoredOrFindingAlways(run: seq<Event>, states: seq<System>, wl: Whitelist, owner: Owner, i: nat)
    requires IsRun(run, states, wl, owner) && i <= |run|
    ensures var s := states[i];
      && (forall id | id in s.a.stored :: s.a.stored[id].subject != NoSubject)
      && (forall n | n in s.a.bindings :: n in s.seen && s.seen[n].uid == s.a.bindings[n]
            && (s.a.bindings[n] in s.a.stored <==> s.seen[n].subjectId != Nil)
            && (s.a.bindings[n] in s.a.stored ==> s.a.stored[s.a.bindings[n]].subject == s.seen[n].Subject())
            && n in s.found && (s.a.bindings[n] in s.a.stored ==> s.a.stored[s.a.bindings[n]].role == s.found[n])
            && (SubjectFindingId(s.a.bindings[n]) in s.a.findings <==>
              s.a.bindings[n] !in s.a.stored && !Whitelisted(wl, n)))
      && (forall k | k in s.a.pending :: s.a.pending[k] != {} && s.a.pending[k] <= s.a.bindings.Keys)
  {
    ReachableIsInv(run, states, wl, owner, i);
    hide ParseNamespacedName, SubjectFindingId;
    var s := states[i];
    assert forall n | n in s.a.bindings :: Identified(s, owner, n) && StoredOrFinding(s, wl, n);
  }

  // ---- draining ----

  function Requests(s: System): nat { |s.spaced.items| + |s.cluster.items| }

  /** Takes requests, from either channel, as long as there are any. */
  function Drain(s: System, wl: Whitelist, answers: seq<(bool, Got<BindingObject>)>): System
    decreases |answers|
  {
    if answers == [] then s
    else Drain(Step(s, wl, Dequeue(answers[0].0, answers[0].1)), wl, answers[1..])
  }

  ghost predicate Answers(s: System, wl: Whitelist, owner: Owner, answers: seq<(bool, Got<BindingObject>)>)
    decreases |answers|
  {
    answers != [] ==>
      && s.Chan(answers[0].0).items != [] && !answers[0].1.Failed?
      && Possible(s, owner, Dequeue(answers[0].0, answers[0].1))
      && Answers(Step(s, wl, Dequeue(answers[0].0, answers[0].1)), wl, owner, answers[1..])
  }

  /** A reconcile of a binding sends nothing, so each request taken leaves one fewer: no drain takes
      more requests than there were. */
  lemma {:induction false} DrainTerminates(s: System, wl: Whitelist, owner: Owner,
      answers: seq<(bool, Got<BindingObject>)>)
    requires Answers(s, wl, owner, answers)
    ensures Requests(Drain(s, wl, answers)) == Requests(s) - |answers|
    decreases |answers|
  {
    hide Step, Requests, Possible;
    if answers != [] {
      DequeueKeeps(s, wl, answers[0].0, answers[0].1);
      DrainTerminates(Step(s, wl, Dequeue(answers[0].0, answers[0].1)), wl, owner, answers[1..]);
    }
  }

  lemma BindingsLeaveRoles(a: Access, wl: Whitelist, nn: NamespacedName, obj: BindingObject)
    ensures BindingFound(a, wl, nn, obj).roles == BindingGone(a, nn).roles == a.roles
    ensures BindingFound(a, wl, nn, obj).storedRoles == BindingGone(a, nn).storedRoles == a.storedRoles
  {
    hide SubjectFindings, SubjectFindingId, WithWaiting, WithoutWaiting, WithoutBinding;
  }

  lemma DequeueKeeps(s: System, wl: Whitelist, clusterScoped: bool, got: Got<BindingObject>)
    ensures var t := Step(s, wl, Dequeue(clusterScoped, got));
      && t.spaced.lost <= s.spaced.lost && t.cluster.lost <= s.cluster.lost && t.a.roles == s.a.roles
      && (s.Chan(clusterScoped).items != [] && !got.Failed? ==> Requests(t) == Requests(s) - 1)
  {
    var items := s.Chan(clusterScoped).items;
    if items != [] && got.Found? { BindingsLeaveRoles(s.a, wl, items[0], got.obj); }
    if items != [] { BindingsLeaveRoles(s.a, wl, items[0], BindingObject(Nil, "", "", [], Nil)); }
    hide BindingFound, BindingGone, Referenced, IndexedId;
  }

  lemma {:induction false} DrainLaws(s: System, wl: Whitelist, owner: Owner, answers: seq<(bool, Got<BindingObject>)>)
    requires Inv(s, wl, owner) && Answers(s, wl, owner, answers)
    ensures var t := Drain(s, wl, answers);
      Inv(t, wl, owner) && t.spaced.lost <= s.spaced.lost && t.cluster.lost <= s.cluster.lost && t.a.roles == s.a.roles
    decreases |answers|
  {
    if answers != [] {
      var e := Dequeue(answers[0].0, answers[0].1);
      StepKeepsInv(s, wl, owner, e);
      DequeueKeeps(s, wl, answers[0].0, answers[0].1);
      hide Inv, Possible, Step;
      DrainLaws(Step(s, wl, e), wl, owner, answers[1..]);
    }
  }

  /** Once both channels are drained, every stored binding has the id its role was indexed under when it was
      last reconciled, and if that role is indexed now it was so then, whatever the cluster answered
      meanwhile, unless a request for the binding had been dropped. */
  lemma DrainedIsResolved(run: seq<Event>, states: seq<System>, wl: Whitelist, owner: Owner, i: nat,
                          answers: seq<(bool, Got<BindingObject>)>, name: string)
    requires IsRun(run, states, wl, owner) && i <= |run|
    requires ParseNamespacedName(name) !in ChanOf(states[i], name).lost
    requires Answers(states[i], wl, owner, answers) && |answers| == Requests(states[i])
    ensures var t := Drain(states[i], wl, answers);
      && Requests(t) == 0
      && (Stored(t, name) ==>
            && name in t.seen && name in t.found && t.a.stored[t.a.bindings[name]].role == t.found[name]
            && (RoleIsIndexed(t, name) ==> t.found[name] != Nil))
  {
    ReachableIsInv(run, states, wl, owner, i);
    DrainTerminates(states[i], wl, owner, answers);
    DrainLaws(states[i], wl, owner, answers);
    hide ParseNamespacedName, SubjectFindingId, Drain, Answers;
    var t := Drain(states[i], wl, answers);
    assert t.spaced.items == [] && t.cluster.items == [];
  }
}
