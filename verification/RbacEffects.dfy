/** What one event of the role and binding reconcilers changes, what it leaves, and what holds of roles
    over every run. */
module RbacEffects {
  import opened Uuids
  import opened Registry
  import opened Landscape
  import opened Rbac
  import opened RbacLaws
  import opened WakeUps

  // ---- bindings ----

  /** From w to v one binding comes to wait under one key, or ceases to; nothing else changes. */
  ghost predicate WaitingIs(w: Waiting, v: Waiting, roleKey: string, name: string, waits: bool) {
    forall k, n :: n in WaitingFor(v, k) <==> if k == roleKey && n == name then waits else n in WaitingFor(w, k)
  }

  lemma SubjectFindingEffect(f: map<Uuid, Finding>, id: Uuid, whitelisted: bool, subjectId: Uuid)
    ensures FindingIs(f, SubjectFindings(f, id, whitelisted, subjectId), SubjectFindingId(id),
      subjectId == Nil && !whitelisted, Finding(MissingSubjectAnnotation, [ResourceRef(id, BindingResource)]))
  {
    hide SubjectFindingId;
  }

  /** Which subject a binding with an annotation names: the kind of its first subject decides. */
  lemma SubjectEffect(obj: BindingObject)
    ensures obj.Subject() ==
      if obj.subjectId == Nil then NoSubject
      else if obj.subjectKinds != [] && (obj.subjectKinds[0] == "User" || obj.subjectKinds[0] == "ServiceAccount")
      then Identity(obj.subjectId)
      else Group(obj.subjectId)
  {
  }

  /** A binding that exists: it is indexed; it is stored, with its role's id and its subject, if and only if
      it has a subject; it waits under the key of its role if and only if it is stored without a role; and
      it has the finding if and only if it has no subject and is not whitelisted. */
  lemma BindingEffect(s: System, wl: Whitelist, nn: NamespacedName, obj: BindingObject)
    requires obj.uid != Nil
    ensures var t, role := Step(s, wl, BindingEvent(nn, Found(obj))), Referenced(obj, nn.namespace);
      var roleId := IndexedId(s.a.roles, role);
      && t.a.bindings == s.a.bindings[nn.namespace + "/" + nn.name := obj.uid]
      && t.a.stored == (if obj.subjectId == Nil then s.a.stored - {obj.uid}
                        else s.a.stored[obj.uid := Binding(nn.name, roleId, obj.Subject())])
      && WaitingIs(s.a.pending, t.a.pending, role.RoleIndexKey(), nn.namespace + "/" + nn.name,
           obj.subjectId != Nil && roleId == Nil)
      && FindingIs(s.a.findings, t.a.findings, SubjectFindingId(obj.uid),
           obj.subjectId == Nil && !wl(if nn.namespace == "" then "ClusterRoleBinding" else "RoleBinding", nn.name),
           Finding(MissingSubjectAnnotation, [ResourceRef(obj.uid, BindingResource)]))
      && t.a.roles == s.a.roles && t.a.storedRoles == s.a.storedRoles
      && t.spaced.items == s.spaced.items && t.cluster.items == s.cluster.items
  {
    assert nn.String() == nn.namespace + "/" + nn.name;
    FoundEffect(s, wl, nn, obj);
    FoundStored(s.a, wl, nn, obj);
    BindingsLeaveRoles(s.a, wl, nn, obj);
    SubjectFindingEffect(s.a.findings, obj.uid, wl(nn.BindingKind(), nn.name), obj.subjectId);
    BindingWaits(s.a, wl, nn, obj);
    hide SubjectFindingId, WaitingIs, FindingIs, BindingFound, SubjectFindings, Referenced, IndexedId,
        BindingObject.Subject, NamespacedName.RoleIndexKey;
  }

  lemma BindingWaits(a: Access, wl: Whitelist, nn: NamespacedName, obj: BindingObject)
    requires obj.uid != Nil
    ensures var role := Referenced(obj, nn.namespace);
      WaitingIs(a.pending, BindingFound(a, wl, nn, obj).pending, role.RoleIndexKey(), nn.String(),
        obj.subjectId != Nil && IndexedId(a.roles, role) == Nil)
  {
    RoleKeyIsIndexKey(obj, nn.namespace);
    WaitingLaws(a.pending, obj.RoleKey(nn.namespace), nn.String());
    hide SubjectFindings, WithWaiting, WithoutWaiting, WaitingFor, BindingObject.Subject, BindingObject.RoleKey,
        Referenced, NamespacedName.RoleIndexKey;
  }

  /** A binding that is gone is not indexed, waits nowhere, and takes its entity and its finding with it. */
  lemma BindingGoneEffect(s: System, wl: Whitelist, nn: NamespacedName)
    ensures var t, name := Step(s, wl, BindingEvent(nn, NotFound)), nn.namespace + "/" + nn.name;
      && t.a.bindings == s.a.bindings - {name} && t.a.roles == s.a.roles && t.a.storedRoles == s.a.storedRoles
      && t.spaced.items == s.spaced.items && t.cluster.items == s.cluster.items
      && if name in s.a.bindings && s.a.bindings[name] != Nil then
           && t.a.stored == s.a.stored - {s.a.bindings[name]}
           && t.a.findings == s.a.findings - {SubjectFindingId(s.a.bindings[name])}
           && (forall k, n :: n in WaitingFor(t.a.pending, k) <==> n in WaitingFor(s.a.pending, k) && n != name)
         else t.a.stored == s.a.stored && t.a.findings == s.a.findings && t.a.pending == s.a.pending
  {
    assert nn.String() == nn.namespace + "/" + nn.name;
    WaitingLaws(s.a.pending, "", nn.String());
    hide SubjectFindingId, WithoutBinding, WaitingFor;
  }

  /** Taking a request is a reconcile of the binding it is for, and takes the request out of its channel. */
  lemma RequestEffect(s: System, wl: Whitelist, clusterScoped: bool, got: Got<BindingObject>)
    requires s.Chan(clusterScoped).items != [] && !got.Failed?
    ensures var t, nn := Step(s, wl, Dequeue(clusterScoped, got)), s.Chan(clusterScoped).items[0];
      && t.a == Step(s, wl, BindingEvent(nn, got)).a
      && t.Chan(clusterScoped).items == s.Chan(clusterScoped).items[1..]
      && t.Chan(!clusterScoped).items == s.Chan(!clusterScoped).items
  {
    hide BindingFound, BindingGone, Referenced, IndexedId;
  }

  // ---- roles ----

  lemma RoleSpecFindingEffect(f: map<Uuid, Finding>, id: Uuid, whitelisted: bool, specId: Uuid)
    ensures FindingIs(f, RoleSpecFindings(f, id, whitelisted, specId), RoleSpecFindingId(id),
      specId == Nil && !whitelisted, Finding(MissingRoleSpecAnnotation, [ResourceRef(id, RoleResource)]))
  {
    hide RoleSpecFindingId;
  }

  /** A role that exists: it is stored with its RoleSpec and indexed, nothing waits under its key any more,
      and it has the finding if and only if it has no RoleSpec and is not whitelisted. */
  lemma RoleEffect(s: System, wl: Whitelist, nn: NamespacedName, obj: RoleObject, order: seq<string>)
    requires obj.uid != Nil
    ensures var t := Step(s, wl, RoleEvent(nn, Found(obj), order));
      && t.a.roles == s.a.roles[nn.RoleIndexKey() := obj.uid]
      && t.a.storedRoles == s.a.storedRoles[obj.uid := Role(nn.name, obj.roleSpecId)]
      && t.a.pending == s.a.pending - {nn.RoleIndexKey()}
      && SpecFindingIs(s.a, t.a, wl, nn, obj)
      && t.a.bindings == s.a.bindings && t.a.stored == s.a.stored && t.seen == s.seen && t.found == s.found
  {
    RoleSpecFindingEffect(s.a.findings, obj.uid, wl(nn.RoleKind(), nn.name), obj.roleSpecId);
    hide RoleSpecFindings, RoleSpecFindingId, FindingIs, SendAll, NamespacedName.RoleIndexKey;
  }

  /** A role that is gone takes its entity and its finding with it; bindings keep the id they have. */
  lemma RoleGoneEffect(s: System, wl: Whitelist, nn: NamespacedName, order: seq<string>)
    ensures var t, id := Step(s, wl, RoleEvent(nn, NotFound, order)), IndexedId(s.a.roles, nn);
      && t == s.(a := s.a.(roles := s.a.roles - {nn.RoleIndexKey()}, storedRoles := t.a.storedRoles,
                           findings := t.a.findings))
      && if id != Nil then
           && t.a.storedRoles == s.a.storedRoles - {id}
           && t.a.findings == s.a.findings - {RoleSpecFindingId(id)}
         else t.a.storedRoles == s.a.storedRoles && t.a.findings == s.a.findings
  {
    hide RoleSpecFindingId, NamespacedName.RoleIndexKey, IndexedId;
    RoleGoneOn(s.a, nn);
    hide RoleGone;
  }

  lemma RoleGoneOn(a: Access, nn: NamespacedName)
    ensures var b, id := RoleGone(a, nn), IndexedId(a.roles, nn);
      && b == a.(roles := a.roles - {nn.RoleIndexKey()}, storedRoles := b.storedRoles, findings := b.findings)
      && b.storedRoles == (if id != Nil then a.storedRoles - {id} else a.storedRoles)
      && b.findings == (if id != Nil then a.findings - {RoleSpecFindingId(id)} else a.findings)
  {
    hide RoleSpecFindingId, NamespacedName.RoleIndexKey;
  }

  /** The arrival of the very role a binding waits for wakes the binding: its request goes to the channel of
      its scope if the role's requests fit there. */
  lemma ArrivalWakes(run: seq<Event>, states: seq<System>, wl: Whitelist, owner: Owner, i: nat, name: string)
    requires IsRun(run, states, wl, owner) && i < |run| && Unresolved(states[i], name)
    requires run[i].RoleEvent? && run[i].gotRole.Found? && run[i].gotRole.obj.uid != Nil
    requires name in states[i].seen && WaitsForRole(states[i], name) && run[i].role == RoleOf(states[i], name)
    ensures var t := states[i + 1];
      && name in run[i].order && IndexedId(t.a.roles, RoleOf(states[i], name)) == run[i].gotRole.obj.uid
      && (Room(states[i], run[i].role, run[i].gotRole.obj, ParseNamespacedName(name).ClusterScoped()) ==>
            ParseNamespacedName(name) in ChanOf(t, name).items)
  {
    var s, e := states[i], run[i];
    var c := ParseNamespacedName(name).ClusterScoped();
    ReachableIsInv(run, states, wl, owner, i);
    assert Possible(s, owner, e) && Step(s, wl, e) == states[i + 1];
    assert Enumerates(e.order, Woken(s.a, e.role, e.gotRole.obj));
    assert name in Woken(s.a, e.role, e.gotRole.obj);
    assert e == RoleEvent(e.role, Found(e.gotRole.obj), e.order);
    InvIsOrderly(s, wl, owner, e.role, e.gotRole.obj);
    WokenIsInScope(s, e.role, e.gotRole.obj, e.order, c);
    hide Step, Inv, Possible, ParseNamespacedName, Scoped, SendAll, Room, Woken, WaitsForRole, IsRun;
    RoleEffect(s, wl, e.role, e.gotRole.obj, e.order);
    ArrivalEffect(s, wl, e.role, e.gotRole.obj, e.order);
    NothingDroppedExactly(s, e.role, e.gotRole.obj, e.order, c);
    ScopedHas(e.order, name);
  }

  lemma ScopedHas(order: seq<string>, name: string)
    requires name in order && Distinct(order)
    ensures ParseNamespacedName(name) in Scoped(order, ParseNamespacedName(name).ClusterScoped())
  {
    ScopedLaws(order, ParseNamespacedName(name).ClusterScoped());
  }

  // ---- roles over runs ----

  /** An object a role was reconciled from. */
  datatype Appearance = Appearance(role: NamespacedName, obj: RoleObject)

  /** The roles that are there after these events, by index key, as they were last reconciled. */
  function Roles(run: seq<Event>): map<string, Appearance> {
    if run == [] then map[]
    else
      var before, e := Roles(run[..|run| - 1]), run[|run| - 1];
      if !e.RoleEvent? then before
      else
        match e.gotRole
        case Found(obj) => if obj.uid == Nil then before else before[e.role.RoleIndexKey() := Appearance(e.role, obj)]
        case NotFound => before - {e.role.RoleIndexKey()}
        case Failed => before
  }

  /** A role is indexed and stored as it last appeared, and has a finding exactly when it named no RoleSpec
      and is not whitelisted. */
  ghost predicate Shown(a: Access, wl: Whitelist, owner: Owner, key: string, last: Appearance) {
    var id, kind := last.obj.uid, if last.role.namespace == "" then "ClusterRole" else "Role";
    && id != Nil && owner(id) == OfRole(last.role) && last.role.RoleIndexKey() == key
    && MapsTo(a.roles, key, id) && MapsTo(a.storedRoles, id, Role(last.role.name, last.obj.roleSpecId))
    && (RoleSpecFindingId(id) in a.findings <==> last.obj.roleSpecId == Nil && !wl(kind, last.role.name))
  }

  ghost predicate AllShown(a: Access, wl: Whitelist, owner: Owner, roles: map<string, Appearance>) {
    a.roles.Keys == roles.Keys && forall k | k in roles :: Shown(a, wl, owner, k, roles[k])
  }

  /** An event changes nothing of a role. */
  ghost predicate RoleKept(a: Access, b: Access, key: string, id: Uuid) {
    SameAt(a.roles, b.roles, key) && SameAt(a.storedRoles, b.storedRoles, id)
    && (RoleSpecFindingId(id) in a.findings <==> RoleSpecFindingId(id) in b.findings)
  }

  lemma ShownStays(a: Access, b: Access, wl: Whitelist, owner: Owner, key: string, last: Appearance)
    requires Shown(a, wl, owner, key, last) && RoleKept(a, b, key, last.obj.uid)
    ensures Shown(b, wl, owner, key, last)
  {
    hide RoleSpecFindingId, NamespacedName.RoleIndexKey;
  }

  lemma BindingKeepsRoles(s: System, wl: Whitelist, nn: NamespacedName, got: Got<BindingObject>)
    ensures var t := Step(s, wl, BindingEvent(nn, got));
      t.a.roles == s.a.roles && forall k, id :: RoleKept(s.a, t.a, k, id)
  {
    assert forall a, b :: SubjectFindingId(a) != RoleSpecFindingId(b);
    hide SubjectFindingId, RoleSpecFindingId, WaitingIs, Referenced, IndexedId, BindingObject.Subject;
    match got
    case Found(obj) =>
      if obj.uid != Nil {
        BindingEffect(s, wl, nn, obj);
        hide Step;
      } else {
        UnreadableChangesNothing(s, wl, nn, got);
      }
    case NotFound =>
      BindingGoneEffect(s, wl, nn);
      hide Step;
    case Failed =>
  }

  /** The finding part of a role's reconcile. */
  ghost predicate SpecFindingIs(a: Access, b: Access, wl: Whitelist, nn: NamespacedName, obj: RoleObject) {
    FindingIs(a.findings, b.findings, RoleSpecFindingId(obj.uid),
      obj.roleSpecId == Nil && !wl(if nn.namespace == "" then "ClusterRole" else "Role", nn.name),
      Finding(MissingRoleSpecAnnotation, [ResourceRef(obj.uid, RoleResource)]))
  }

  lemma FindingFrame(a: Access, b: Access, wl: Whitelist, nn: NamespacedName, obj: RoleObject)
    requires SpecFindingIs(a, b, wl, nn, obj)
    ensures forall f | f != RoleSpecFindingId(obj.uid) :: SameAt(a.findings, b.findings, f)
  {
    hide RoleSpecFindingId;
  }

  lemma OwnRoleShown(a: Access, b: Access, wl: Whitelist, owner: Owner, nn: NamespacedName, obj: RoleObject)
    requires OwnRole(owner, nn, Found(obj)) && obj.uid != Nil && SpecFindingIs(a, b, wl, nn, obj)
    requires b.roles == a.roles[nn.RoleIndexKey() := obj.uid]
    requires b.storedRoles == a.storedRoles[obj.uid := Role(nn.name, obj.roleSpecId)]
    ensures Shown(b, wl, owner, nn.RoleIndexKey(), Appearance(nn, obj))
  {
    hide RoleSpecFindingId, NamespacedName.RoleIndexKey;
  }

  lemma RoleAdded(a: Access, b: Access, wl: Whitelist, owner: Owner, nn: NamespacedName, obj: RoleObject,
                  roles: map<string, Appearance>)
    requires AllShown(a, wl, owner, roles) && OwnRole(owner, nn, Found(obj)) && obj.uid != Nil
    requires SpecFindingIs(a, b, wl, nn, obj) && b.roles == a.roles[nn.RoleIndexKey() := obj.uid]
    requires b.storedRoles == a.storedRoles[obj.uid := Role(nn.name, obj.roleSpecId)]
    ensures AllShown(b, wl, owner, roles[nn.RoleIndexKey() := Appearance(nn, obj)])
  {
    hide NamespacedName.RoleIndexKey, OwnRole, Shown, SpecFindingIs, RoleKept;
    OwnRoleShown(a, b, wl, owner, nn, obj);
    FindingFrame(a, b, wl, nn, obj);
    forall k | k in roles && k != nn.RoleIndexKey() ensures Shown(b, wl, owner, k, roles[k]) {
      UidsDiffer(a, wl, owner, k, roles[k], nn, obj);
      OtherRoleKept(a, b, k, roles[k].obj.uid, obj.uid);
      ShownStays(a, b, wl, owner, k, roles[k]);
    }
  }

  lemma RoleAppears(s: System, wl: Whitelist, owner: Owner, nn: NamespacedName, obj: RoleObject, order: seq<string>,
                    roles: map<string, Appearance>)
    requires AllShown(s.a, wl, owner, roles) && OwnRole(owner, nn, Found(obj)) && obj.uid != Nil
    ensures AllShown(Step(s, wl, RoleEvent(nn, Found(obj), order)).a, wl, owner,
      roles[nn.RoleIndexKey() := Appearance(nn, obj)])
  {
    hide *;
    RoleEffect(s, wl, nn, obj, order);
    RoleAdded(s.a, Step(s, wl, RoleEvent(nn, Found(obj), order)).a, wl, owner, nn, obj, roles);
  }

  lemma UidsDiffer(a: Access, wl: Whitelist, owner: Owner, k: string, last: Appearance, nn: NamespacedName,
                   obj: RoleObject)
    requires Shown(a, wl, owner, k, last) && OwnRole(owner, nn, Found(obj)) && obj.uid != Nil
    requires k != nn.RoleIndexKey()
    ensures last.obj.uid != obj.uid
  {
    hide RoleSpecFindingId, NamespacedName.RoleIndexKey;
  }

  /** What happens to one role leaves the others as they are. */
  lemma OtherRoleKept(a: Access, b: Access, key: string, id: Uuid, changed: Uuid)
    requires id != changed
    requires SameAt(a.roles, b.roles, key) && SameAt(a.storedRoles, b.storedRoles, id)
    requires forall f | f != RoleSpecFindingId(changed) :: SameAt(a.findings, b.findings, f)
    ensures RoleKept(a, b, key, id)
  {
    RoleSpecFindingIdInjective(id, changed);
    hide RoleSpecFindingId;
    assert SameAt(a.findings, b.findings, RoleSpecFindingId(id));
  }

  lemma RoleRemoved(a: Access, b: Access, wl: Whitelist, owner: Owner, key: string, id: Uuid,
                    roles: map<string, Appearance>)
    requires AllShown(a, wl, owner, roles) && id == if key in a.roles then a.roles[key] else Nil
    requires b.roles == a.roles - {key}
    requires b.storedRoles == (if id != Nil then a.storedRoles - {id} else a.storedRoles)
    requires b.findings == (if id != Nil then a.findings - {RoleSpecFindingId(id)} else a.findings)
    ensures AllShown(b, wl, owner, roles - {key})
  {
    hide Shown, RoleKept, RoleSpecFindingId;
    forall k | k in roles && k != key ensures Shown(b, wl, owner, k, roles[k]) {
      IdsDiffer(a, wl, owner, roles, k, key);
      OtherRoleKept(a, b, k, roles[k].obj.uid, id);
      ShownStays(a, b, wl, owner, k, roles[k]);
    }
  }

  lemma RoleGoes(s: System, wl: Whitelist, owner: Owner, nn: NamespacedName, order: seq<string>,
                 roles: map<string, Appearance>)
    requires AllShown(s.a, wl, owner, roles)
    ensures AllShown(Step(s, wl, RoleEvent(nn, NotFound, order)).a, wl, owner, roles - {nn.RoleIndexKey()})
  {
    var id := IndexedId(s.a.roles, nn);
    assert id == if nn.RoleIndexKey() in s.a.roles then s.a.roles[nn.RoleIndexKey()] else Nil;
    hide *;
    RoleGoneEffect(s, wl, nn, order);
    RoleRemoved(s.a, Step(s, wl, RoleEvent(nn, NotFound, order)).a, wl, owner, nn.RoleIndexKey(), id, roles);
  }

  lemma IdsDiffer(a: Access, wl: Whitelist, owner: Owner, roles: map<string, Appearance>, k: string, role: string)
    requires AllShown(a, wl, owner, roles) && k in roles && k != role
    ensures roles[k].obj.uid != if role in a.roles then a.roles[role] else Nil
  {
    assert Shown(a, wl, owner, k, roles[k]);
    if role in roles { assert Shown(a, wl, owner, role, roles[role]); }
  }

  lemma NothingKept(a: Access, b: Access, wl: Whitelist, owner: Owner, roles: map<string, Appearance>)
    requires AllShown(a, wl, owner, roles) && a.roles == b.roles && forall k, id :: RoleKept(a, b, k, id)
    ensures AllShown(b, wl, owner, roles)
  {
    hide Shown, RoleKept;
    forall k | k in roles ensures Shown(b, wl, owner, k, roles[k]) {
      ShownStays(a, b, wl, owner, k, roles[k]);
    }
  }

  /** Every event keeps the roles shown. */
  lemma StepShows(s: System, wl: Whitelist, owner: Owner, e: Event, roles: map<string, Appearance>, run: seq<Event>)
    requires AllShown(s.a, wl, owner, roles) && Possible(s, owner, e)
    requires run != [] && run[|run| - 1] == e && Roles(run[..|run| - 1]) == roles
    ensures AllShown(Step(s, wl, e).a, wl, owner, Roles(run))
  {
    hide AllShown, Step, RoleKept, NamespacedName.RoleIndexKey;
    match e
    case BindingEvent(nn, got) =>
      BindingKeepsRoles(s, wl, nn, got);
      NothingKept(s.a, Step(s, wl, e).a, wl, owner, roles);
    case RoleEvent(nn, got, order) =>
      match got {
        case Found(obj) =>
          if obj.uid != Nil {
            RoleAppears(s, wl, owner, nn, obj, order, roles);
          } else {
            IgnoredRole(s, wl, nn, got, order);
          }
        case NotFound => RoleGoes(s, wl, owner, nn, order, roles);
        case Failed => IgnoredRole(s, wl, nn, got, order);
      }
    case Dequeue(clusterScoped, got) =>
      var items := s.Chan(clusterScoped).items;
      if items != [] && !got.Failed? {
        RequestEffect(s, wl, clusterScoped, got);
        BindingKeepsRoles(s, wl, items[0], got);
        NothingKept(s.a, Step(s, wl, e).a, wl, owner, roles);
      } else {
        IgnoredRequest(s, wl, clusterScoped, got);
      }
    case Elsewhere(findings) =>
      ElsewhereKeepsRoles(s, wl, findings);
      NothingKept(s.a, Step(s, wl, e).a, wl, owner, roles);
  }

  lemma IgnoredRole(s: System, wl: Whitelist, nn: NamespacedName, got: Got<RoleObject>, order: seq<string>)
    requires got.Failed? || (got.Found? && got.obj.uid == Nil)
    ensures Step(s, wl, RoleEvent(nn, got, order)).a == s.a
  {
  }

  lemma IgnoredRequest(s: System, wl: Whitelist, clusterScoped: bool, got: Got<BindingObject>)
    requires got.Failed? || s.Chan(clusterScoped).items == []
    ensures Step(s, wl, Dequeue(clusterScoped, got)).a == s.a
  {
  }

  lemma ElsewhereKeepsRoles(s: System, wl: Whitelist, findings: map<Uuid, Finding>)
    requires forall id :: RoleSpecFindingId(id) in findings <==> RoleSpecFindingId(id) in s.a.findings
    ensures var t := Step(s, wl, Elsewhere(findings));
      t.a.roles == s.a.roles && forall k, id :: RoleKept(s.a, t.a, k, id)
  {
    hide RoleSpecFindingId;
  }

  /** In every reachable state the indexed roles are those that appeared and have not gone since; each is
      stored as it last appeared, and has a finding exactly when it named no RoleSpec and is not
      whitelisted. */
  lemma {:induction false} RolesAreShown(run: seq<Event>, states: seq<System>, wl: Whitelist, owner: Owner, i: nat)
    requires IsRun(run, states, wl, owner) && i <= |run|
    ensures AllShown(states[i].a, wl, owner, Roles(run[..i]))
    decreases i
  {
    hide Step, Possible, Shown;
    if i > 0 {
      RolesAreShown(run, states, wl, owner, i - 1);
      assert Possible(states[i - 1], owner, run[i - 1]) && Step(states[i - 1], wl, run[i - 1]) == states[i];
      assert run[..i][..i - 1] == run[..i - 1];
      StepShows(states[i - 1], wl, owner, run[i - 1], Roles(run[..i - 1]), run[..i]);
    }
  }
}
