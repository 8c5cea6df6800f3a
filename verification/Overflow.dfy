/** A run that loses a wake-up: 65 bindings wait for one role, one more than a requeue channel holds. */
module Overflow {
  import opened Uuids
  import opened Registry
  import opened Rbac
  import opened RbacLaws

  const ROLE := NamespacedName("ns", "r")
  const ROLE_OBJECT := RoleObject(Given(0), Nil)

  function Name(i: nat): NamespacedName { NamespacedName("ns", seq(i + 1, _ => 'b')) }

  function Key(i: nat): string { Name(i).String() }

  /** Binding i refers to the role, which does not exist yet. */
  function Late(i: nat): BindingObject { BindingObject(Given(i + 1), "Role", "r", [], Given(0)) }

  /** The role has UID 0 and binding i has UID i + 1. */
  function Owns(id: Uuid): Holder {
    if !id.Given? then Nobody else if id.n == 0 then OfRole(ROLE) else OfBinding(Key(id.n - 1))
  }

  function Keys(n: nat): set<string> { set i: nat | i < n :: Key(i) }

  function KeyList(n: nat): seq<string> { seq(n, i requires 0 <= i => Key(i)) }

  function NameList(n: nat): seq<NamespacedName> { seq(n, i requires 0 <= i => Name(i)) }

  /** The state after the first n bindings. */
  function Filled(wl: Whitelist, n: nat): System {
    if n == 0 then START else Step(Filled(wl, n - 1), wl, BindingEvent(Name(n - 1), Found(Late(n - 1))))
  }

  lemma KeysDiffer(i: nat, j: nat)
    ensures Key(i) == Key(j) <==> i == j
    ensures Name(i) == Name(j) <==> i == j
  {
    assert |Key(i)| == 4 + i && |Key(j)| == 4 + j;
    assert |Name(i).name| == 1 + i && |Name(j).name| == 1 + j;
  }

  lemma KeyParses(i: nat)
    ensures ParseNamespacedName(Key(i)) == Name(i)
  {
    NameRoundTrip(Name(i));
  }

  ghost predicate Waits(s: System, i: nat) {
    && Key(i) in s.a.bindings && s.a.bindings[Key(i)] == Given(i + 1) && Key(i) in s.seen && s.seen[Key(i)] == Late(i)
    && Given(i + 1) in s.a.stored && s.a.stored[Given(i + 1)].role == Nil
  }

  ghost predicate WaitFor(s: System, n: nat) {
    && s.a.roles == map[] && s.spaced == s.cluster == Channel([], {})
    && s.a.pending.Keys <= {"ns/r"} && WaitingFor(s.a.pending, "ns/r") == Keys(n)
    && forall i: nat | i < n :: Waits(s, i)
  }

  lemma {:induction false} FilledLaws(wl: Whitelist, n: nat)
    ensures WaitFor(Filled(wl, n), n)
  {
    hide Step, Waits, Key;
    if n == 0 {
      assert Filled(wl, 0) == START;
      assert Keys(0) == {};
    } else {
      FilledLaws(wl, n - 1);
      FillOne(Filled(wl, n - 1), wl, n - 1);
    }
  }

  lemma FillOne(s: System, wl: Whitelist, n: nat)
    requires WaitFor(s, n)
    ensures WaitFor(Step(s, wl, BindingEvent(Name(n), Found(Late(n)))), n + 1)
  {
    var t := Step(s, wl, BindingEvent(Name(n), Found(Late(n))));
    assert Late(n).RoleKey("ns") == "ns/r";
    WaitingLaws(s.a.pending, "ns/r", Key(n));
    assert WithWaiting(s.a.pending, "ns/r", Key(n)).Keys <= {"ns/r"};
    hide SubjectFindings, Key, Waits, Name, WithWaiting, WaitingFor;
    assert Keys(n + 1) == Keys(n) + {Key(n)};
    assert t.a.pending == WithWaiting(s.a.pending, "ns/r", Key(n)) && t.spaced == s.spaced.Settle(Name(n))
      && t.cluster == s.cluster by { NameOf(n); }
    forall i: nat | i < n + 1 ensures Waits(t, i) {
      StillWaits(s, wl, n, i);
    }
  }

  lemma NameOf(n: nat)
    ensures Name(n).namespace == "ns" && Key(n) == Name(n).String()
  {
  }

  lemma StillWaits(s: System, wl: Whitelist, n: nat, i: nat)
    requires s.a.roles == map[] && i <= n && (i < n ==> Waits(s, i))
    ensures Waits(Step(s, wl, BindingEvent(Name(n), Found(Late(n)))), i)
  {
    KeysDiffer(i, n);
    NameOf(n);
    hide SubjectFindings, Key, Name, WithWaiting, WithoutWaiting;
  }

  lemma SendOneMore(n: nat, cluster: bool)
    ensures SendAll(Channel([], {}), KeyList(n + 1), cluster) ==
      var before := SendAll(Channel([], {}), KeyList(n), cluster);
      if cluster then before else before.Send(Name(n))
  {
    KeyParses(n);
    NameOf(n);
    assert KeyList(n + 1)[..n] == KeyList(n) && KeyList(n + 1)[n] == Key(n);
    hide Key, Name, KeyList, ParseNamespacedName;
  }

  lemma SendNothing()
    ensures SendAll(Channel([], {}), KeyList(0), false).items == NameList(0)
  {
  }

  lemma NameListGrows(n: nat)
    ensures |NameList(n)| == n && NameList(n + 1) == NameList(n) + [Name(n)]
  {
  }

  /** The first 64 wake-ups fit, the last one is lost. */
  lemma {:induction false} SendKeys(n: nat)
    requires n <= 65
    ensures SendAll(Channel([], {}), KeyList(n), false).items == NameList(if n <= 64 then n else 64)
  {
    hide SendAll, Name, KeyList, NameList;
    if n == 0 {
      SendNothing();
    } else {
      SendKeys(n - 1);
      SendOneMore(n - 1, false);
      NameListGrows(n - 1);
    }
  }

  lemma {:induction false} SendNoKeys(n: nat)
    ensures SendAll(Channel([], {}), KeyList(n), true).items == []
  {
    if n > 0 {
      SendNoKeys(n - 1);
      SendOneMore(n - 1, true);
    }
  }

  lemma KeyListEnumerates(n: nat)
    ensures Enumerates(KeyList(n), Keys(n))
  {
    forall i, j | 0 <= i < j < n ensures KeyList(n)[i] != KeyList(n)[j] { KeysDiffer(i, j); }
    forall k | k in Keys(n) ensures k in KeyList(n) {
      var i: nat :| i < n && k == Key(i);
      assert KeyList(n)[i] == k;
    }
  }

  function Fill(n: nat): seq<Event> { seq(n, i requires 0 <= i => BindingEvent(Name(i), Found(Late(i)))) }

  function States(wl: Whitelist, n: nat): seq<System> { seq(n + 1, i requires 0 <= i => Filled(wl, i)) }

  lemma FillIsRun(wl: Whitelist, n: nat)
    ensures IsRun(Fill(n), States(wl, n), wl, Owns)
  {
    hide Step, Key;
    forall i | 0 <= i < n
      ensures Possible(States(wl, n)[i], Owns, Fill(n)[i])
        && Step(States(wl, n)[i], wl, Fill(n)[i]) == States(wl, n)[i + 1]
    {
      NameOf(i);
    }
  }

  lemma RoleIsPossible(s: System)
    requires WaitFor(s, 65)
    ensures Possible(s, Owns, RoleEvent(ROLE, Found(ROLE_OBJECT), KeyList(65)))
  {
    assert ROLE.RoleIndexKey() == "ns/r";
    KeyListEnumerates(65);
    hide KeyList, Keys, Enumerates, Waits;
  }

  lemma RoleEffect(s: System, wl: Whitelist, order: seq<string>)
    ensures var t := Step(s, wl, RoleEvent(ROLE, Found(ROLE_OBJECT), order));
      && t.seen == s.seen && t.a.bindings == s.a.bindings && t.a.stored == s.a.stored
      && t.a.roles == s.a.roles["ns/r" := Given(0)] && t.a.pending == s.a.pending - {"ns/r"}
      && t.spaced == SendAll(s.spaced, order, false) && t.cluster == SendAll(s.cluster, order, true)
  {
    assert ROLE.RoleIndexKey() == "ns/r";
    hide SendAll, RoleSpecFindings;
  }

  lemma LastIsNotSent()
    ensures Name(64) !in NameList(64)
  {
    forall i: nat | i < 64 ensures NameList(64)[i] != Name(64) { KeysDiffer(i, 64); }
  }

  /** The role arrives. */
  lemma RoleArrives(s: System, wl: Whitelist)
    requires WaitFor(s, 65)
    ensures Stranded(Step(s, wl, RoleEvent(ROLE, Found(ROLE_OBJECT), KeyList(65))), Key(64))
  {
    var t := Step(s, wl, RoleEvent(ROLE, Found(ROLE_OBJECT), KeyList(65)));
    assert Waits(s, 64);
    assert Late(64).RoleKey("ns") == "ns/r";
    hide Step, SendAll, KeyList, Keys, NameList, Key, Name, ParseNamespacedName;
    RoleEffect(s, wl, KeyList(65));
    SendKeys(65);
    SendNoKeys(65);
    KeyParses(64);
    NameOf(64);
    LastIsNotSent();
    assert t.a.pending == map[];
    assert RoleOf(t, Key(64)).RoleIndexKey() == "ns/r";
  }

  /** A stored binding has no role although the role it references is indexed, and neither the waiting
      sets nor the channels know the binding. */
  ghost predicate Stranded(t: System, name: string) {
    && Unresolved(t, name) && name in t.seen && RoleIsIndexed(t, name)
    && (forall k :: name !in WaitingFor(t.a.pending, k))
    && ParseNamespacedName(name) !in t.spaced.items && ParseNamespacedName(name) !in t.cluster.items
  }

  /** A whole run from the start that ends with a stranded binding. */
  lemma WakeUpLost(wl: Whitelist) returns (run: seq<Event>, states: seq<System>)
    ensures IsRun(run, states, wl, Owns)
    ensures Stranded(states[|run|], Key(64))
  {
    hide Step, Possible, Stranded, Filled, KeyList, Key, WaitFor, IsRun;
    var before, e := Filled(wl, 65), RoleEvent(ROLE, Found(ROLE_OBJECT), KeyList(65));
    FilledLaws(wl, 65);
    RoleIsPossible(before);
    RoleArrives(before, wl);
    FillIsRun(wl, 65);
    run, states := Fill(65), States(wl, 65);
    assert |run| == 65 && states[65] == before;
    RunExtends(run, states, wl, Owns, e);
    run, states := run + [e], states + [Step(before, wl, e)];
  }

  lemma RunExtends(run: seq<Event>, states: seq<System>, wl: Whitelist, owner: Owner, e: Event)
    requires IsRun(run, states, wl, owner) && Possible(states[|run|], owner, e)
    ensures IsRun(run + [e], states + [Step(states[|run|], wl, e)], wl, owner)
  {
    hide Step, Possible;
    var more, after := run + [e], states + [Step(states[|run|], wl, e)];
    forall i | 0 <= i < |more| ensures Possible(after[i], owner, more[i])
      && Step(after[i], wl, more[i]) == after[i + 1] {
      if i < |run| { assert more[i] == run[i] && after[i] == states[i] && after[i + 1] == states[i + 1]; }
    }
  }
}
