/** Exactly when a wake-up is lost: the room a requeue channel needs when a role arrives. */
module WakeUps {
  import opened Uuids
  import opened Registry
  import opened Rbac
  import opened RbacLaws

  /** The waiting bindings of one scope that the role's reconcile wakes. */
  function WokenIn(s: System, nn: NamespacedName, obj: RoleObject, clusterScoped: bool): set<string> {
    set n | n in Woken(s.a, nn, obj) && ParseNamespacedName(n).ClusterScoped() == clusterScoped
  }

  /** What can be checked before the role is reconciled: its requests fit into the channel. */
  predicate Room(s: System, nn: NamespacedName, obj: RoleObject, clusterScoped: bool) {
    |s.Chan(clusterScoped).items| + |WokenIn(s, nn, obj, clusterScoped)| <= CAPACITY
  }

  predicate Distinct(names: seq<string>) {
    && (forall i, j | 0 <= i < j < |names| :: names[i] != names[j])
    && forall n | n in names :: '/' in n
  }

  // ---- the requests of one scope ----

  function InScope(names: seq<string>, clusterScoped: bool): set<string> {
    set n | n in names && ParseNamespacedName(n).ClusterScoped() == clusterScoped
  }

  lemma InScopeGrows(names: seq<string>, clusterScoped: bool)
    requires names != [] && Distinct(names)
    ensures var k := |names| - 1;
      && Distinct(names[..k]) && names[k] !in InScope(names[..k], clusterScoped)
      && InScope(names, clusterScoped) == InScope(names[..k], clusterScoped)
           + if ParseNamespacedName(names[k]).ClusterScoped() == clusterScoped then {names[k]} else {}
  {
    hide ParseNamespacedName;
    assert forall n | n in names :: n in names[..|names| - 1] || n == names[|names| - 1];
  }

  lemma {:induction false} ScopedCount(names: seq<string>, clusterScoped: bool)
    requires Distinct(names)
    ensures |Scoped(names, clusterScoped)| == |InScope(names, clusterScoped)|
  {
    hide ParseNamespacedName, Distinct;
    if names == [] {
      assert InScope(names, clusterScoped) == {};
    } else {
      InScopeGrows(names, clusterScoped);
      ScopedCount(names[..|names| - 1], clusterScoped);
      hide InScope;
    }
  }

  lemma {:induction false} ScopedFrom(names: seq<string>, clusterScoped: bool)
    requires forall n | n in names :: '/' in n
    ensures forall nn | nn in Scoped(names, clusterScoped) :: nn.String() in names
  {
    if names != [] {
      var k := |names| - 1;
      ScopedFrom(names[..k], clusterScoped);
      PrintParsed(names[k]);
      hide ParseNamespacedName;
      assert names[k] in names && forall n | n in names[..k] :: n in names;
    }
  }

  /** No request is sent twice. */
  lemma {:induction false} ScopedDistinct(names: seq<string>, clusterScoped: bool)
    requires Distinct(names)
    ensures forall i, j | 0 <= i < j < |Scoped(names, clusterScoped)| ::
      Scoped(names, clusterScoped)[i] != Scoped(names, clusterScoped)[j]
  {
    if names != [] {
      var k := |names| - 1;
      ScopedDistinct(names[..k], clusterScoped);
      ScopedFrom(names[..k], clusterScoped);
      PrintParsed(names[k]);
      hide ParseNamespacedName;
      assert names[k] !in names[..k];
      assert ParseNamespacedName(names[k]) !in Scoped(names[..k], clusterScoped);
    }
  }

  /** How many requests of a scope are sent before the k-th woken binding's turn. */
  function Ahead(order: seq<string>, k: nat, clusterScoped: bool): nat
    requires k <= |order|
  {
    |Scoped(order[..k], clusterScoped)|
  }

  /** When a woken binding has its turn. */
  function Turn(order: seq<string>, name: string): (k: nat)
    ensures k <= |order| && (name in order ==> k < |order| && order[k] == name)
  {
    if order == [] || order[0] == name then 0 else 1 + Turn(order[1..], name)
  }

  lemma {:induction false} ScopedAt(order: seq<string>, k: nat, clusterScoped: bool)
    requires k < |order| && ParseNamespacedName(order[k]).ClusterScoped() == clusterScoped
    ensures var at := Ahead(order, k, clusterScoped);
      at < |Scoped(order, clusterScoped)| && Scoped(order, clusterScoped)[at] == ParseNamespacedName(order[k])
    decreases |order|
  {
    hide ParseNamespacedName;
    var init := order[..|order| - 1];
    if k < |init| {
      ScopedAt(init, k, clusterScoped);
      assert init[..k] == order[..k];
    }
  }

  // ---- one role arrives ----

  /** What holds of every reachable state: waiting names have a slash, and no channel is overfull. */
  ghost predicate Orderly(s: System, nn: NamespacedName, obj: RoleObject) {
    (forall n | n in Woken(s.a, nn, obj) :: '/' in n) && forall c: bool :: |s.Chan(c).items| <= CAPACITY
  }

  lemma InvIsOrderly(s: System, wl: Whitelist, owner: Owner, nn: NamespacedName, obj: RoleObject)
    requires Inv(s, wl, owner)
    ensures Orderly(s, nn, obj)
  {
    hide ParseNamespacedName, SubjectFindingId;
    assert forall n | n in s.a.bindings :: Identified(s, owner, n);
  }

  lemma WokenIsInScope(s: System, nn: NamespacedName, obj: RoleObject, order: seq<string>, clusterScoped: bool)
    requires Enumerates(order, Woken(s.a, nn, obj)) && forall n | n in Woken(s.a, nn, obj) :: '/' in n
    ensures Distinct(order) && |Scoped(order, clusterScoped)| == |WokenIn(s, nn, obj, clusterScoped)|
  {
    ScopedCount(order, clusterScoped);
    hide ParseNamespacedName, Woken;
    assert InScope(order, clusterScoped) == WokenIn(s, nn, obj, clusterScoped);
  }

  /** Whatever the order, the role's reconcile drops nothing if and only if its requests fit. */
  lemma NothingDroppedExactly(s: System, nn: NamespacedName, obj: RoleObject, order: seq<string>, clusterScoped: bool)
    requires Orderly(s, nn, obj) && Enumerates(order, Woken(s.a, nn, obj))
    ensures var ch, t := s.Chan(clusterScoped), SendAll(s.Chan(clusterScoped), order, clusterScoped);
      && (t.items == ch.items + Scoped(order, clusterScoped) <==> Room(s, nn, obj, clusterScoped))
      && (Room(s, nn, obj, clusterScoped) ==> t.lost == ch.lost)
  {
    WokenIsInScope(s, nn, obj, order, clusterScoped);
    SendAllLaws(s.Chan(clusterScoped), order, clusterScoped);
    hide SendAll, Scoped, WokenIn;
    var ch, sent := s.Chan(clusterScoped), Scoped(order, clusterScoped);
    var t, fit := SendAll(ch, order, clusterScoped), Min(|sent|, Free(ch));
    if Room(s, nn, obj, clusterScoped) {
      assert sent[..fit] == sent && sent[fit..] == [];
    } else {
      assert |t.items| == CAPACITY < |ch.items + sent|;
    }
  }

  /** The request of the k-th woken binding is in the channel of its scope afterwards if and only if it
      was there before or fewer requests than are free come before it. */
  lemma RequestSentExactly(ch: Channel, order: seq<string>, k: nat, clusterScoped: bool)
    requires |ch.items| <= CAPACITY && Distinct(order)
    requires k < |order| && ParseNamespacedName(order[k]).ClusterScoped() == clusterScoped
    ensures ParseNamespacedName(order[k]) in SendAll(ch, order, clusterScoped).items <==>
      ParseNamespacedName(order[k]) in ch.items || |ch.items| + Ahead(order, k, clusterScoped) < CAPACITY
  {
    SendAllLaws(ch, order, clusterScoped);
    ScopedAt(order, k, clusterScoped);
    ScopedDistinct(order, clusterScoped);
    hide SendAll, Scoped, Ahead, ParseNamespacedName;
    var sent, at, nn := Scoped(order, clusterScoped), Ahead(order, k, clusterScoped), ParseNamespacedName(order[k]);
    var fit := Min(|sent|, Free(ch));
    assert nn in sent[..fit] <==> at < fit by {
      if at < fit { assert sent[..fit][at] == nn; }
    }
  }

  /** The binding waits for the role it refers to, or its request is in the channel of its scope. */
  ghost predicate Wakes(s: System, name: string)
    requires name in s.seen
  {
    WaitsForRole(s, name) || ParseNamespacedName(name) in ChanOf(s, name).items
  }

  /** The role's arrival is the last chance of this binding: it waits for this very role. */
  ghost predicate Due(s: System, nn: NamespacedName, name: string)
    requires name in s.seen
  {
    RoleOf(s, name).RoleIndexKey() == nn.RoleIndexKey() && ParseNamespacedName(name) !in ChanOf(s, name).items
  }

  lemma ArrivalEffect(s: System, wl: Whitelist, nn: NamespacedName, obj: RoleObject, order: seq<string>)
    requires obj.uid != Nil
    ensures var t := Step(s, wl, RoleEvent(nn, Found(obj), order));
      && t.seen == s.seen && t.a.bindings == s.a.bindings && t.a.stored == s.a.stored
      && t.a.pending == s.a.pending - {nn.RoleIndexKey()}
      && (forall c: bool :: t.Chan(c) == SendAll(s.Chan(c), order, c))
  {
    hide SendAll, RoleSpecFindings;
  }

  lemma WaitsAfter(s: System, t: System, nn: NamespacedName, name: string)
    requires name in s.seen && t.seen == s.seen && t.a.pending == s.a.pending - {nn.RoleIndexKey()}
    ensures RoleOf(t, name).RoleIndexKey() == RoleOf(s, name).RoleIndexKey()
    ensures WaitsForRole(t, name) <==> WaitsForRole(s, name) && RoleOf(s, name).RoleIndexKey() != nn.RoleIndexKey()
  {
    hide ParseNamespacedName;
  }

  lemma QueuedAfter(ch: Channel, order: seq<string>, name: string, k: nat)
    requires |ch.items| <= CAPACITY && Distinct(order) && (name in order ==> k < |order| && order[k] == name)
    ensures var c, nn := ParseNamespacedName(name).ClusterScoped(), ParseNamespacedName(name);
      && (nn in ch.items ==> nn in SendAll(ch, order, c).items)
      && (name in order ==>
            (nn in SendAll(ch, order, c).items <==> nn in ch.items || |ch.items| + Ahead(order, k, c) < CAPACITY))
  {
    var c := ParseNamespacedName(name).ClusterScoped();
    DrainKeeps(ch, order, c);
    if name in order { RequestSentExactly(ch, order, k, c); }
  }

  /** For one binding and one order of waking: a binding that would have been looked at again still will
      be if and only if it is not due, or fewer requests than are free come before its own. */
  lemma WakesExactly(s: System, wl: Whitelist, nn: NamespacedName, obj: RoleObject,
                     order: seq<string>, name: string, k: nat)
    requires Orderly(s, nn, obj) && Enumerates(order, Woken(s.a, nn, obj)) && obj.uid != Nil
    requires Unresolved(s, name) && name in s.seen && Wakes(s, name)
    requires name in order ==> k < |order| && order[k] == name
    ensures var t := Step(s, wl, RoleEvent(nn, Found(obj), order));
      && Unresolved(t, name) && name in t.seen && (Due(s, nn, name) ==> name in order)
      && (Wakes(t, name) <==>
          (Due(s, nn, name) ==>
             |ChanOf(s, name).items| + Ahead(order, k, ParseNamespacedName(name).ClusterScoped()) < CAPACITY))
  {
    var c, t := ParseNamespacedName(name).ClusterScoped(), Step(s, wl, RoleEvent(nn, Found(obj), order));
    ArrivalEffect(s, wl, nn, obj, order);
    WokenIsInScope(s, nn, obj, order, c);
    assert Due(s, nn, name) ==> name in Woken(s.a, nn, obj);
    hide ParseNamespacedName, Step, SendAll, Ahead, Scoped, Distinct, Woken, WaitingFor, WokenIn;
    WaitsAfter(s, t, nn, name);
    QueuedAfter(ChanOf(s, name), order, name, k);
  }

  lemma DrainKeeps(ch: Channel, names: seq<string>, clusterScoped: bool)
    requires |ch.items| <= CAPACITY
    ensures forall nn | nn in ch.items :: nn in SendAll(ch, names, clusterScoped).items
  {
    SendAllLaws(ch, names, clusterScoped);
    hide SendAll, Scoped;
  }

  lemma ListOf(names: set<string>) returns (list: seq<string>)
    ensures Enumerates(list, names)
    decreases names
  {
    if names == {} {
      list := [];
    } else {
      var n :| n in names;
      var rest := ListOf(names - {n});
      list := rest + [n];
    }
  }

  lemma DueIsWoken(s: System, nn: NamespacedName, obj: RoleObject, name: string)
    requires name in s.seen && Wakes(s, name) && Due(s, nn, name) && obj.uid != Nil
    ensures name in Woken(s.a, nn, obj)
  {
    hide ParseNamespacedName;
  }

  lemma AheadBound(order: seq<string>, k: nat, clusterScoped: bool)
    requires k < |order| && ParseNamespacedName(order[k]).ClusterScoped() == clusterScoped
    ensures var sent := |Scoped(order, clusterScoped)|;
      Ahead(order, k, clusterScoped) < sent && (k == |order| - 1 ==> Ahead(order, k, clusterScoped) == sent - 1)
  {
    ScopedAt(order, k, clusterScoped);
    hide ParseNamespacedName;
  }

  lemma OneOrder(s: System, wl: Whitelist, nn: NamespacedName, obj: RoleObject,
                 order: seq<string>, name: string, comesLast: bool)
    requires Orderly(s, nn, obj) && obj.uid != Nil
    requires Unresolved(s, name) && name in s.seen && Wakes(s, name) && Due(s, nn, name)
    requires Enumerates(order, Woken(s.a, nn, obj)) && name in order
    requires comesLast ==> order[|order| - 1] == name
    requires comesLast || Room(s, nn, obj, ParseNamespacedName(name).ClusterScoped())
    ensures var t := Step(s, wl, RoleEvent(nn, Found(obj), order));
      name in t.seen && (Wakes(t, name) <==> Room(s, nn, obj, ParseNamespacedName(name).ClusterScoped()))
  {
    hide ParseNamespacedName, Step, Unresolved, Due, Wakes, Scoped, Ahead, WokenIn, Woken, Distinct;
    var c := ParseNamespacedName(name).ClusterScoped();
    var k: nat :| k < |order| && order[k] == name && (comesLast ==> k == |order| - 1);
    WokenIsInScope(s, nn, obj, order, c);
    AheadBound(order, k, c);
    WakesExactly(s, wl, nn, obj, order, name, k);
  }

  /** A binding that is not due keeps its wake-up in every order. */
  lemma NotDueStillWakes(s: System, wl: Whitelist, nn: NamespacedName, obj: RoleObject,
                         order: seq<string>, name: string)
    requires Orderly(s, nn, obj) && Enumerates(order, Woken(s.a, nn, obj)) && obj.uid != Nil
    requires Unresolved(s, name) && name in s.seen && Wakes(s, name) && !Due(s, nn, name)
    ensures var t := Step(s, wl, RoleEvent(nn, Found(obj), order)); name in t.seen && Wakes(t, name)
  {
    hide ParseNamespacedName, Step, Unresolved, Due, Wakes, Woken, Orderly;
    WakesExactly(s, wl, nn, obj, order, name, Turn(order, name));
  }

  /** For one binding and every order of waking: a binding keeps its wake-up whatever the order if and
      only if it is not due or the requests of its scope fit into its channel. */
  lemma AlwaysWakesExactly(s: System, wl: Whitelist, nn: NamespacedName, obj: RoleObject, name: string)
    requires Orderly(s, nn, obj) && obj.uid != Nil
    requires Unresolved(s, name) && name in s.seen && Wakes(s, name)
    ensures (forall order | Enumerates(order, Woken(s.a, nn, obj)) ::
               var t := Step(s, wl, RoleEvent(nn, Found(obj), order)); name in t.seen && Wakes(t, name))
            <==> (Due(s, nn, name) ==> Room(s, nn, obj, ParseNamespacedName(name).ClusterScoped()))
  {
    hide ParseNamespacedName, Step, Unresolved, Due, Wakes, Room, WokenIn, Woken, Orderly;
    var c, woken := ParseNamespacedName(name).ClusterScoped(), Woken(s.a, nn, obj);
    if Due(s, nn, name) {
      DueIsWoken(s, nn, obj, name);
      var rest := ListOf(woken - {name});
      var last := rest + [name];
      assert Enumerates(last, woken);
      forall order | Enumerates(order, woken) && (Room(s, nn, obj, c) || order == last)
        ensures var t := Step(s, wl, RoleEvent(nn, Found(obj), order));
          name in t.seen && (Wakes(t, name) <==> Room(s, nn, obj, c))
      {
        OneOrder(s, wl, nn, obj, order, name, order == last);
      }
    } else {
      forall order | Enumerates(order, woken)
        ensures var t := Step(s, wl, RoleEvent(nn, Found(obj), order)); name in t.seen && Wakes(t, name)
      {
        NotDueStillWakes(s, wl, nn, obj, order, name);
      }
    }
  }

  // ---- runs with room ----

  /** At every arrival of a role its requests fit. */
  ghost predicate AlwaysRoom(run: seq<Event>, states: seq<System>)
    requires |states| == |run| + 1
  {
    forall i, c: bool | 0 <= i < |run| && run[i].RoleEvent? && run[i].gotRole.Found? ::
      Room(states[i], run[i].role, run[i].gotRole.obj, c)
  }

  lemma ArrivalLosesNothing(s: System, wl: Whitelist, owner: Owner, e: Event)
    requires Inv(s, wl, owner) && Possible(s, owner, e) && e.RoleEvent? && e.gotRole.Found?
    requires Room(s, e.role, e.gotRole.obj, false) && Room(s, e.role, e.gotRole.obj, true)
    ensures var t := Step(s, wl, e); t.spaced.lost == s.spaced.lost && t.cluster.lost == s.cluster.lost
  {
    InvIsOrderly(s, wl, owner, e.role, e.gotRole.obj);
    hide Inv, Room, SendAll, RoleFound, Woken, Orderly;
    NothingDroppedExactly(s, e.role, e.gotRole.obj, e.order, false);
    NothingDroppedExactly(s, e.role, e.gotRole.obj, e.order, true);
  }

  lemma {:induction false} NothingIsLost(run: seq<Event>, states: seq<System>, wl: Whitelist, owner: Owner, i: nat)
    requires IsRun(run, states, wl, owner) && AlwaysRoom(run, states) && i <= |run|
    ensures states[i].spaced.lost == states[i].cluster.lost == {}
    decreases i
  {
    hide Inv, Room, Step, Possible;
    if i > 0 {
      NothingIsLost(run, states, wl, owner, i - 1);
      var s, e := states[i - 1], run[i - 1];
      assert Possible(s, owner, e) && Step(s, wl, e) == states[i];
      if e.RoleEvent? && e.gotRole.Found? {
        ReachableIsInv(run, states, wl, owner, i - 1);
        assert Room(s, e.role, e.gotRole.obj, false) && Room(s, e.role, e.gotRole.obj, true);
        ArrivalLosesNothing(s, wl, owner, e);
      } else {
        NothingSent(s, wl, e);
        assert states[i].Chan(false).lost == {} && states[i].Chan(true).lost == {};
      }
    }
  }

  lemma NothingSent(s: System, wl: Whitelist, e: Event)
    requires !(e.RoleEvent? && e.gotRole.Found?)
    ensures forall c: bool :: Step(s, wl, e).Chan(c).lost <= s.Chan(c).lost
  {
    hide BindingFound, BindingGone, RoleGone;
  }

  /** No wake-up is lost in any run in which every role finds room for its requests: in every reachable
      state a stored binding without a role waits for exactly that role, which is not indexed, or its
      request is in the channel of the one reconciler of its scope. */
  lemma NoWakeUpLostWithRoom(run: seq<Event>, states: seq<System>, wl: Whitelist, owner: Owner, i: nat, name: string)
    requires IsRun(run, states, wl, owner) && AlwaysRoom(run, states) && i <= |run|
    requires Unresolved(states[i], name)
    ensures var s := states[i];
      && name in s.seen
      && ((WaitsForRole(s, name) && !RoleIsIndexed(s, name))
          || ParseNamespacedName(name) in ChanOf(s, name).items)
  {
    NothingIsLost(run, states, wl, owner, i);
    NoLostWakeUp(run, states, wl, owner, i, name);
  }

  /** In such a run draining both channels resolves every stored binding whose role is indexed. */
  lemma DrainResolvesWithRoom(run: seq<Event>, states: seq<System>, wl: Whitelist, owner: Owner, i: nat,
                              answers: seq<(bool, Got<BindingObject>)>, name: string)
    requires IsRun(run, states, wl, owner) && AlwaysRoom(run, states) && i <= |run|
    requires Answers(states[i], wl, owner, answers) && |answers| == Requests(states[i])
    ensures var t := Drain(states[i], wl, answers);
      && Requests(t) == 0
      && (Stored(t, name) ==>
            && name in t.seen && name in t.found && t.a.stored[t.a.bindings[name]].role == t.found[name]
            && (RoleIsIndexed(t, name) ==> t.found[name] != Nil))
  {
    NothingIsLost(run, states, wl, owner, i);
    DrainedIsResolved(run, states, wl, owner, i, answers, name);
  }

  // ---- exactly which runs lose nothing ----

  /** No stored binding without a role is forgotten. */
  ghost predicate AllWake(s: System) {
    forall n | Unresolved(s, n) :: n in s.seen && Wakes(s, n)
  }

  /** Every binding that waits for the arriving role, and has no request in its channel yet, comes early
      enough in the order of waking for its request to fit. */
  ghost predicate InTime(s: System, e: Event) {
    e.RoleEvent? && e.gotRole.Found? && e.gotRole.obj.uid != Nil ==>
      forall n | Unresolved(s, n) && n in s.seen && Due(s, e.role, n) :: Fits(s, e.order, n)
  }

  ghost predicate Fits(s: System, order: seq<string>, name: string) {
    |ChanOf(s, name).items| + Ahead(order, Turn(order, name), ParseNamespacedName(name).ClusterScoped()) < CAPACITY
  }

  /** One role arrives while no binding is forgotten: none is forgotten if and only if it is in time. */
  lemma ArrivalExactly(s: System, wl: Whitelist, owner: Owner, e: Event)
    requires Inv(s, wl, owner) && Possible(s, owner, e) && AllWake(s)
    requires e.RoleEvent? && e.gotRole.Found? && e.gotRole.obj.uid != Nil
    ensures AllWake(Step(s, wl, e)) <==> InTime(s, e)
  {
    var nn, obj, t := e.role, e.gotRole.obj, Step(s, wl, e);
    InvIsOrderly(s, wl, owner, nn, obj);
    assert Enumerates(e.order, Woken(s.a, nn, obj));
    assert e == RoleEvent(nn, Found(obj), e.order);
    SameUnresolved(s, wl, e);
    hide Inv, Possible, Step, Orderly, Unresolved, Wakes, Due, Ahead, Woken, ParseNamespacedName;
    forall n | Unresolved(s, n)
      ensures n in s.seen && n in t.seen && (Wakes(t, n) <==> (Due(s, nn, n) ==> Fits(s, e.order, n)))
    {
      WakesExactly(s, wl, nn, obj, e.order, n, Turn(e.order, n));
    }
  }

  lemma SameUnresolved(s: System, wl: Whitelist, e: Event)
    requires e.RoleEvent? && e.gotRole.Found? && e.gotRole.obj.uid != Nil
    ensures forall n :: Unresolved(Step(s, wl, e), n) <==> Unresolved(s, n)
  {
    ArrivalEffect(s, wl, e.role, e.gotRole.obj, e.order);
    hide Step;
  }

  function Forgiven(s: System): System {
    s.(spaced := s.spaced.(lost := {}), cluster := s.cluster.(lost := {}))
  }

  /** While no binding is forgotten the dropped requests do not matter. */
  lemma ForgivenInv(s: System, wl: Whitelist, owner: Owner)
    requires Inv(s, wl, owner) && AllWake(s)
    ensures Inv(Forgiven(s), wl, owner)
  {
    var t := Forgiven(s);
    hide ParseNamespacedName, SubjectFindingId;
    forall n | n in t.a.bindings
      ensures Identified(t, owner, n) && StoredOrFinding(t, wl, n) && (Unresolved(t, n) ==> WillWake(t, n))
    {
      assert Identified(s, owner, n) && StoredOrFinding(s, wl, n);
      assert Unresolved(s, n) ==> n in s.seen && Wakes(s, n);
    }
  }

  lemma InvWakes(s: System, wl: Whitelist, owner: Owner)
    requires Inv(s, wl, owner) && s.spaced.lost == s.cluster.lost == {}
    ensures AllWake(s)
  {
    hide ParseNamespacedName, SubjectFindingId;
    forall n | Unresolved(s, n) ensures n in s.seen && Wakes(s, n) {
      assert Identified(s, owner, n) && WillWake(s, n);
    }
  }

  lemma ForgivenBinding(s: System, wl: Whitelist, nn: NamespacedName, got: Got<BindingObject>)
    ensures ReconcileBinding(Forgiven(s), wl, nn, got) == Forgiven(ReconcileBinding(s, wl, nn, got))
  {
    hide BindingFound, BindingGone, IndexedId, Referenced;
    ForgivenSettle(s, nn);
    hide Forgiven, System.Settle;
    assert Forgiven(s).a == s.a && Forgiven(s).seen == s.seen && Forgiven(s).found == s.found by { ForgivenKeeps(s); }
    var t := s.Settle(nn);
    forall a, seen, found
      ensures Forgiven(t.(a := a, seen := seen, found := found)) == Forgiven(t).(a := a, seen := seen, found := found)
    {
      ForgivenFrame(t, a, seen, found);
    }
  }

  lemma ForgivenSettle(s: System, nn: NamespacedName)
    ensures Forgiven(s).Settle(nn) == Forgiven(s.Settle(nn))
  {
  }

  lemma ForgivenKeeps(s: System)
    ensures Forgiven(s).a == s.a && Forgiven(s).seen == s.seen && Forgiven(s).found == s.found
  {
  }

  lemma ForgivenFrame(s: System, a: Access, seen: map<string, BindingObject>, found: map<string, Uuid>)
    ensures Forgiven(s.(a := a, seen := seen, found := found))
      == Forgiven(s).(a := a, seen := seen, found := found)
  {
  }

  lemma ForgivenReceive(s: System, clusterScoped: bool, got: Got<BindingObject>)
    ensures Receive(Forgiven(s), clusterScoped, got) == Forgiven(Receive(s, clusterScoped, got))
  {
  }

  /** The lost requests have no influence on anything else. */
  lemma ForgivenStep(s: System, wl: Whitelist, e: Event)
    requires !(e.RoleEvent? && e.gotRole.Found?)
    ensures Step(Forgiven(s), wl, e) == Forgiven(Step(s, wl, e))
  {
    hide ReconcileBinding, Receive, RoleGone;
    match e
    case BindingEvent(nn, got) => ForgivenBinding(s, wl, nn, got);
    case RoleEvent(_, _, _) =>
    case Dequeue(clusterScoped, got) =>
      ForgivenReceive(s, clusterScoped, got);
      var items := s.Chan(clusterScoped).items;
      if items != [] { ForgivenBinding(Receive(s, clusterScoped, got), wl, items[0], got); }
    case Elsewhere(_) =>
  }

  lemma ForgivenWakes(s: System)
    ensures AllWake(Forgiven(s)) <==> AllWake(s)
  {
    hide ParseNamespacedName, Unresolved;
    assert forall n :: Unresolved(Forgiven(s), n) <==> Unresolved(s, n) by { ForgivenUnresolved(s); }
    assert forall n | n in s.seen :: Wakes(Forgiven(s), n) <==> Wakes(s, n);
  }

  lemma ForgivenUnresolved(s: System)
    ensures forall n :: Unresolved(Forgiven(s), n) <==> Unresolved(s, n)
  {
  }

  /** Any event other than a role's arrival forgets no binding. */
  lemma OthersForgetNothing(s: System, wl: Whitelist, owner: Owner, e: Event)
    requires Inv(s, wl, owner) && Possible(s, owner, e) && AllWake(s)
    requires !(e.RoleEvent? && e.gotRole.Found?)
    ensures AllWake(Step(s, wl, e))
  {
    ForgivenInv(s, wl, owner);
    assert Possible(Forgiven(s), owner, e);
    hide Inv, Possible, AllWake, Step;
    StepKeepsInv(Forgiven(s), wl, owner, e);
    ForgivenStep(s, wl, e);
    InvWakes(Step(Forgiven(s), wl, e), wl, owner);
    ForgivenWakes(Step(s, wl, e));
  }

  /** A role without a readable UID changes nothing, and wakes nothing. */
  lemma UnreadableRole(s: System, wl: Whitelist, owner: Owner, e: Event)
    requires Inv(s, wl, owner) && AllWake(s)
    requires e.RoleEvent? && e.gotRole.Found? && e.gotRole.obj.uid == Nil
    ensures AllWake(Step(s, wl, e))
  {
    var t := Step(s, wl, e);
    InvIsOrderly(s, wl, owner, e.role, e.gotRole.obj);
    DrainKeeps(s.spaced, e.order, false);
    DrainKeeps(s.cluster, e.order, true);
    assert t.a == s.a && t.seen == s.seen;
    hide ParseNamespacedName, SendAll, Inv, RoleSpecFindings;
  }

  lemma StepExactly(s: System, wl: Whitelist, owner: Owner, e: Event)
    requires Inv(s, wl, owner) && Possible(s, owner, e) && AllWake(s)
    ensures AllWake(Step(s, wl, e)) <==> InTime(s, e)
  {
    hide Inv, Possible, AllWake, Step;
    if e.RoleEvent? && e.gotRole.Found? {
      if e.gotRole.obj.uid != Nil { ArrivalExactly(s, wl, owner, e); } else { UnreadableRole(s, wl, owner, e); }
    } else {
      OthersForgetNothing(s, wl, owner, e);
    }
  }

  /** For every run: up to moment n no stored binding without a role was ever forgotten if and only if
      every role that arrived before was in time. */
  lemma {:induction false} NoneForgottenExactly(run: seq<Event>, states: seq<System>, wl: Whitelist, owner: Owner,
      n: nat)
    requires IsRun(run, states, wl, owner) && n <= |run|
    ensures (forall m | 0 <= m <= n :: AllWake(states[m])) <==> (forall m | 0 <= m < n :: InTime(states[m], run[m]))
    decreases n
  {
    hide Inv, Possible, AllWake, Step, InTime;
    if n == 0 {
      NothingToForget();
    } else {
      NoneForgottenExactly(run, states, wl, owner, n - 1);
      if forall m | 0 <= m <= n - 1 :: AllWake(states[m]) {
        ReachableIsInv(run, states, wl, owner, n - 1);
        assert Possible(states[n - 1], owner, run[n - 1]) && Step(states[n - 1], wl, run[n - 1]) == states[n];
        StepExactly(states[n - 1], wl, owner, run[n - 1]);
      }
    }
  }

  lemma NothingToForget()
    ensures AllWake(START)
  {
  }
}
