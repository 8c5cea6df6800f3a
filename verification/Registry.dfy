/** The name index (internal/controller/registry.go), the object the reconcilers share. Each method of the
    object is one critical section of the source's mutex. */
module Registry {
  import opened Uuids

  datatype ResourceKind =
    | KindContext | KindSystem | KindAPI | KindComponent | KindSystemInstance | KindAPIInstance
    | KindComponentInstance | KindRole | KindBinding | KindArtifact | KindArtifactInstance

  type NameMap = map<string, Uuid>

  /** The waiting bindings, by the index key of the role they wait for. */
  type Waiting = map<string, set<string>>

  function WaitingFor(w: Waiting, roleKey: string): set<string> {
    if roleKey in w then w[roleKey] else {}
  }

  function WithWaiting(w: Waiting, roleKey: string, binding: string): Waiting {
    w[roleKey := WaitingFor(w, roleKey) + {binding}]
  }

  function WithoutWaiting(w: Waiting, roleKey: string, binding: string): Waiting {
    if roleKey !in w then w
    else if w[roleKey] - {binding} == {} then w - {roleKey}
    else w[roleKey := w[roleKey] - {binding}]
  }

  function WithoutBinding(w: Waiting, binding: string): Waiting {
    map k | k in w && w[k] - {binding} != {} :: w[k] - {binding}
  }

  function NotOwnedBy(m: NameMap, id: Uuid): NameMap {
    map n | n in m && m[n] != id :: m[n]
  }

  /** Two maps say the same about a key. */
  ghost predicate SameAt<K, V>(a: map<K, V>, b: map<K, V>, k: K) {
    (k in a <==> k in b) && (k in a ==> a[k] == b[k])
  }

  ghost predicate MapsTo<K, V>(a: map<K, V>, k: K, v: V) { k in a && a[k] == v }

  /** A sequence that lists each element of a set once, in some order. */
  ghost predicate Enumerates<T>(list: seq<T>, s: set<T>) {
    && (forall x | x in list :: x in s) && (forall x | x in s :: x in list)
    && forall i, j | 0 <= i < j < |list| :: list[i] != list[j]
  }

  /** Go ranges over a map in no particular order. */
  method InAnyOrder<T(==)>(s: set<T>) returns (list: seq<T>)
    ensures Enumerates(list, s)
  {
    list := [];
    var todo := s;
    while todo != {}
      invariant todo <= s && Enumerates(list, s - todo)
    {
      var x :| x in todo;
      list := list + [x];
      todo := todo - {x};
    }
  }

  class NameIndex {
    var names: map<ResourceKind, NameMap>
    var helmOwner: map<ResourceKind, NameMap>
    var pendingBindings: Waiting

    /** The names of one kind; a kind without an inner map has none. */
    ghost function Names(kind: ResourceKind): NameMap
      reads this
    {
      if kind in names then names[kind] else map[]
    }

    ghost function Owners(kind: ResourceKind): NameMap
      reads this
    {
      if kind in helmOwner then helmOwner[kind] else map[]
    }

    /** The names of all other kinds are as before. */
    twostate predicate OnlyKinds(kinds: set<ResourceKind>)
      reads this
    {
      forall k | k !in kinds :: Names(k) == old(Names(k))
    }

    constructor ()
      ensures forall k :: Names(k) == map[] && Owners(k) == map[]
      ensures pendingBindings == map[]
    {
      names, helmOwner, pendingBindings := map[], map[], map[];
    }

    method Put(kind: ResourceKind, name: string, id: Uuid)
      modifies this`names
      ensures Names(kind) == old(Names(kind))[name := id] && OnlyKinds({kind})
    {
      var m := if kind in names then names[kind] else map[];
      names := names[kind := m[name := id]];
    }

    method Get(kind: ResourceKind, name: string) returns (id: Uuid)
      ensures id == if name in Names(kind) then Names(kind)[name] else Nil
    {
      if kind !in names { return Nil; }
      id := if name in names[kind] then names[kind][name] else Nil;
    }

    method Delete(kind: ResourceKind, name: string) returns (id: Uuid)
      modifies this`names
      ensures id == if name in old(Names(kind)) then old(Names(kind))[name] else Nil
      ensures Names(kind) == old(Names(kind)) - {name} && OnlyKinds({kind})
    {
      if kind !in names || name !in names[kind] { return Nil; }
      id := names[kind][name];
      names := names[kind := names[kind] - {name}];
    }

    method Keys(kind: ResourceKind) returns (keys: seq<string>)
      ensures Enumerates(keys, Names(kind).Keys)
    {
      if kind !in names { return []; }
      keys := InAnyOrder(names[kind].Keys);
    }

    method SetHelmOwner(kind: ResourceKind, name: string, systemInstance: Uuid)
      modifies this`helmOwner
      ensures Owners(kind) == old(Owners(kind))[name := systemInstance]
      ensures forall k | k != kind :: Owners(k) == old(Owners(k))
    {
      var m := if kind in helmOwner then helmOwner[kind] else map[];
      helmOwner := helmOwner[kind := m[name := systemInstance]];
    }

    method GetHelmOwner(kind: ResourceKind, name: string) returns (id: Uuid)
      ensures id == if name in Owners(kind) then Owners(kind)[name] else Nil
    {
      if kind !in helmOwner { return Nil; }
      id := if name in helmOwner[kind] then helmOwner[kind][name] else Nil;
    }

    method DeleteHelmOwnersBySystemInstance(systemInstance: Uuid)
      modifies this`helmOwner
      ensures forall k :: Owners(k) == NotOwnedBy(old(Owners(k)), systemInstance)
    {
      var kinds := helmOwner.Keys;
      while kinds != {}
        invariant kinds <= helmOwner.Keys == old(helmOwner.Keys)
        invariant forall k | k in helmOwner ::
          helmOwner[k] == if k in kinds then old(helmOwner[k]) else NotOwnedBy(old(helmOwner[k]), systemInstance)
      {
        var kind :| kind in kinds;
        var m := WithoutOwner(helmOwner[kind], systemInstance);
        helmOwner := helmOwner[kind := m];
        kinds := kinds - {kind};
      }
    }

    static method WithoutOwner(owners: NameMap, systemInstance: Uuid) returns (m: NameMap)
      ensures m == NotOwnedBy(owners, systemInstance)
    {
      m := owners;
      var todo := owners.Keys;
      while todo != {}
        invariant todo <= owners.Keys
        invariant m == map n | n in owners && (n in todo || owners[n] != systemInstance) :: owners[n]
      {
        var n :| n in todo;
        if owners[n] == systemInstance { m := m - {n}; }
        todo := todo - {n};
      }
    }

    method AddPendingBinding(roleKey: string, binding: string)
      modifies this`pendingBindings
      ensures pendingBindings == WithWaiting(old(pendingBindings), roleKey, binding)
    {
      var m := if roleKey in pendingBindings then pendingBindings[roleKey] else {};
      pendingBindings := pendingBindings[roleKey := m + {binding}];
    }

    method RemovePendingBinding(roleKey: string, binding: string)
      modifies this`pendingBindings
      ensures pendingBindings == WithoutWaiting(old(pendingBindings), roleKey, binding)
    {
      if roleKey in pendingBindings {
        var m := pendingBindings[roleKey] - {binding};
        pendingBindings := if m == {} then pendingBindings - {roleKey} else pendingBindings[roleKey := m];
      }
    }

    method RemovePendingBindingByName(binding: string)
      modifies this`pendingBindings
      ensures pendingBindings == WithoutBinding(old(pendingBindings), binding)
    {
      var todo := pendingBindings.Keys;
      while todo != {}
        invariant todo <= old(pendingBindings).Keys
        invariant pendingBindings == map k | k in old(pendingBindings)
          && (k in todo || old(pendingBindings)[k] - {binding} != {}) ::
          if k in todo then old(pendingBindings)[k] else old(pendingBindings)[k] - {binding}
      {
        var roleKey :| roleKey in todo;
        RemovePendingBinding(roleKey, binding);
        todo := todo - {roleKey};
      }
    }

    method ResolvePendingBindings(roleKey: string) returns (bindings: seq<string>)
      modifies this`pendingBindings
      ensures pendingBindings == old(pendingBindings) - {roleKey}
      ensures Enumerates(bindings, WaitingFor(old(pendingBindings), roleKey))
    {
      if roleKey !in pendingBindings {
        assert pendingBindings - {roleKey} == pendingBindings;
        return [];
      }
      bindings := InAnyOrder(pendingBindings[roleKey]);
      pendingBindings := pendingBindings - {roleKey};
    }
  }
}
