/** A release goes away, Secret by Secret. */
module HelmDeletion {
  import opened Uuids
  import opened Registry
  import opened HelmSecretName
  import opened ReferenceFindings
  import opened HelmRelease
  import opened HelmLaws
  import opened HelmRevisions

  // ---- in whatever order ----

  /** NotFound is delivered for Secrets of one release, in the given order. */
  function DeliverGone(s: Helm, key: string, revisions: seq<int>): Helm
    decreases |revisions|
  {
    if revisions == [] then s else DeliverGone(ReleaseGone(s, key, revisions[0]), key, revisions[1..])
  }

  /** Whatever the order, the effect is that of the one NotFound of the tracked revision, and nothing
      at all if that revision is not among them. */
  lemma {:induction false} OrderDoesNotMatter(s: Helm, key: string, revisions: seq<int>)
    ensures DeliverGone(s, key, revisions) ==
      if key in s.latest && s.latest[key] in revisions then ReleaseGone(s, key, s.latest[key]) else s
    decreases |revisions|
  {
    if revisions != [] {
      var r := revisions[0];
      OrderDoesNotMatter(ReleaseGone(s, key, r), key, revisions[1..]);
      GoneUntracks(s, key, r);
      hide ReleaseGone;
    }
  }

  lemma GoneUntracks(s: Helm, key: string, revision: int)
    ensures var t := ReleaseGone(s, key, revision);
      if key in s.latest && revision == s.latest[key] then key !in t.latest else t == s
  {
  }

  /** Nothing of release `key` is left. */
  ghost predicate Vanished(s: Helm, key: string) {
    && key !in s.latest && key !in s.systemNames && HelmReleaseId(key) !in s.systemInstances
    && (forall n | n in s.component.owners :: s.component.owners[n] != HelmReleaseId(key))
    && (forall n | n in s.api.owners :: s.api.owners[n] != HelmReleaseId(key))
    && Dangling(HelmReleaseId(key)) !in s.findings.now && Missing(HelmReleaseId(key)) !in s.findings.now
  }

  /** Nothing of any other release, no custom resource and no instance is touched. */
  ghost predicate OthersUntouched(s: Helm, t: Helm, key: string) {
    && (forall k | k != key :: SameAt(s.latest, t.latest, k) && SameAt(s.systemNames, t.systemNames, k))
    && (forall id | id != HelmReleaseId(key) :: SameAt(s.systemInstances, t.systemInstances, id))
    && (forall n | n in s.component.owners && s.component.owners[n] != HelmReleaseId(key) ::
          SameAt(s.component.owners, t.component.owners, n))
    && (forall n | n in s.api.owners && s.api.owners[n] != HelmReleaseId(key) ::
          SameAt(s.api.owners, t.api.owners, n))
    && s.component.names == t.component.names && s.component.instances == t.component.instances
    && s.api.names == t.api.names && s.api.instances == t.api.instances
    && (forall id | id != HelmReleaseId(key) :: SameRefs(s.findings.now, t.findings.now, id))
  }

  lemma UntrackedHasVanished(s: Helm, c: Cluster, key: string)
    requires Inv(s, c) && DerivedIdsApart(c) && c.isRelease(key) && key !in s.latest
    ensures Vanished(s, key)
  {
    assert key !in s.systemNames && IsHelm(HelmReleaseId(key));
    forall k | k in s.systemNames ensures s.systemNames[k] != HelmReleaseId(key) { HelmReleaseIdInjective(k, key); }
    ReleaseIdApart(s, c, key);
    assert Ours(c, HelmReleaseId(key));
    hide Dangling, Missing, HelmReleaseId, IsHelm, Owned, Agrees, OwnersSet, RefsMatch, AlwaysExclusive;
    assert !Live(s.systemNames, HelmReleaseId(key));
    assert !HasEntity(s, HelmReleaseId(key));
  }

  lemma UndeployTouchesOne(s: Helm, c: Cluster, key: string)
    requires AlwaysExclusive(c, s.findings) && key in s.systemNames && s.systemNames[key] == HelmReleaseId(key)
    ensures OthersUntouched(s,
      Undeploy(s.(latest := s.latest - {key}, systemNames := s.systemNames - {key}), s.systemNames[key]), key)
  {
    forall k | k != key ensures HelmReleaseId(k) != HelmReleaseId(key) { HelmReleaseIdInjective(k, key); }
    ForgetLaws(c, s.findings, HelmReleaseId(key));
    hide Dangling, Missing, HelmReleaseId, AlwaysExclusive;
    var id := HelmReleaseId(key);
    var t := Undeploy(s.(latest := s.latest - {key}, systemNames := s.systemNames - {key}), id);
    assert Touches(s.findings.now, t.findings.now, id);
  }

  lemma UntouchedItself(s: Helm, t: Helm, key: string)
    requires t == s.(latest := s.latest - {key}, systemNames := s.systemNames - {key}) || t == s
    ensures OthersUntouched(s, t, key)
  {
    hide HelmReleaseId, Dangling, Missing;
  }

  lemma GoneTouchesOne(s: Helm, c: Cluster, key: string, revision: int)
    requires Inv(s, c) && c.isRelease(key)
    ensures OthersUntouched(s, ReleaseGone(s, key, revision), key)
  {
    ReleasesNamed(s, c, key);
    var t := ReleaseGone(s, key, revision);
    hide Dangling, Missing, HelmReleaseId, SideOk, OwnersLive, RefsMatch, NoOrphanFindings, AlwaysExclusive,
        OthersUntouched, Undeploy, ReleasesOk;
    if key in s.latest && revision == s.latest[key] && key in s.systemNames && s.systemNames[key] != Nil {
      UndeployTouchesOne(s, c, key);
    } else {
      UntouchedItself(s, t, key);
    }
  }

  lemma ReleasesNamed(s: Helm, c: Cluster, key: string)
    requires ReleasesOk(s, c) && c.isRelease(key)
    ensures key in s.systemNames ==> s.systemNames[key] == HelmReleaseId(key)
  {
    hide HelmReleaseId;
  }

  // ---- over a run ----

  ghost predicate OfRelease(namespace: string, name: string, key: string) {
    var parts := ParseSecretName(name);
    parts.Some? && ReleaseKey(namespace, parts.value.release) == key
  }

  /** The event shows the sensor that a Secret exists. */
  ghost predicate Shows(e: Event, namespace: string, name: string) {
    match e
    case SecretSeen(secret, _, _) => IsSecret(secret, namespace, name)
    case Startup(secrets) => exists secret :: secret in secrets && IsSecret(secret, namespace, name)
    case _ => false
  }

  ghost predicate IsSecret(secret: Secret, namespace: string, name: string) {
    secret.helmType && secret.namespace == namespace && secret.name == name
  }

  ghost predicate ShownBefore(run: seq<Event>, i: nat, namespace: string, name: string)
    requires i <= |run|
  {
    exists m :: 0 <= m < i && Shows(run[m], namespace, name)
  }

  /** By moment j the Secret is gone: its last report says so. */
  ghost predicate GoneBy(run: seq<Event>, j: nat, namespace: string, name: string)
    requires j <= |run|
  {
    exists l :: 0 <= l < j && run[l] == SecretLost(namespace, name)
      && forall k | l < k < j :: !Shows(run[k], namespace, name)
  }

  ghost predicate Unchanged(s: Revisions, t: Revisions, key: string) {
    key in s && key in t && s[key] == t[key]
  }

  lemma {:induction false} ListedFrom(latest: Revisions, secrets: seq<Secret>, key: string)
    returns (namespace: string, name: string)
    requires key in ListAll(latest, secrets)
    ensures Unchanged(latest, ListAll(latest, secrets), key)
      || (Shows(Startup(secrets), namespace, name) && OfRelease(namespace, name, key)
          && ParseSecretName(name).value.revision == ListAll(latest, secrets)[key])
  {
    hide ParseSecretName, ReleaseKey;
    namespace, name := "", "";
    if secrets != [] {
      var n := |secrets| - 1;
      var secret, before := secrets[n], ListAll(latest, secrets[..n]);
      if Unchanged(before, ListAll(latest, secrets), key) {
        namespace, name := ListedFrom(latest, secrets[..n], key);
        assert forall x | x in secrets[..n] :: x in secrets;
      } else {
        namespace, name := secret.namespace, secret.name;
        assert secret in secrets && IsSecret(secret, namespace, name);
      }
    }
  }

  /** A tracked revision is the one tracked before or that of a Secret the event shows. */
  lemma TrackedFrom(s: Helm, e: Event, key: string) returns (namespace: string, name: string)
    requires key in Step(s, e).latest
    ensures Unchanged(s.latest, Step(s, e).latest, key)
      || (Shows(e, namespace, name) && OfRelease(namespace, name, key)
          && ParseSecretName(name).value.revision == Step(s, e).latest[key])
  {
    hide ParseSecretName, ReleaseKey;
    namespace, name := "", "";
    match e
    case SecretSeen(secret, known, addFails) =>
      namespace, name := secret.namespace, secret.name;
      DeployKeepsRevisions(s, secret, known, addFails);
    case Startup(secrets) => namespace, name := ListedFrom(s.latest, secrets, key);
    case SecretLost(_, _) =>
    case InstanceEvent(_, _, _, _) =>
    case CustomEvent(_, _) =>
    case Elsewhere(_) =>
  }

  /** A tracked revision is that of a Secret that was shown at some moment m, and has been the tracked
      one ever since. */
  lemma {:induction false} TrackedWasShown(run: seq<Event>, states: seq<Helm>, c: Cluster, i: nat, key: string)
    returns (m: nat, namespace: string, name: string)
    requires IsRun(run, states, c) && i <= |run| && key in states[i].latest
    ensures m < i && Shows(run[m], namespace, name) && OfRelease(namespace, name, key)
    ensures ParseSecretName(name).value.revision == states[i].latest[key]
    ensures forall k | m < k <= i :: Unchanged(states[k].latest, states[i].latest, key)
    decreases i
  {
    assert states[0].latest == map[];
    assert Step(states[i - 1], run[i - 1]) == states[i];
    hide Step, ParseSecretName, OfRelease, Shows;
    namespace, name := TrackedFrom(states[i - 1], run[i - 1], key);
    m := i - 1;
    if Unchanged(states[i - 1].latest, states[i].latest, key) {
      m, namespace, name := TrackedWasShown(run, states, c, i - 1, key);
    }
  }

  lemma LosingForgets(s: Helm, namespace: string, name: string, key: string)
    requires key in s.latest && OfRelease(namespace, name, key) && ParseSecretName(name).value.revision == s.latest[key]
    ensures key !in Step(s, SecretLost(namespace, name)).latest
  {
    hide ParseSecretName;
  }

  /** A release whose Secrets are all deleted leaves nothing behind, in whatever order its Secrets
      came and went, old revisions pruned long before included, and whatever else happened: if every
      Secret of the release that was ever shown is gone by moment j of a run, then at j there is no
      SystemInstance, owner entry or reference finding of the release. */
  lemma DeletedReleaseVanishes(run: seq<Event>, states: seq<Helm>, c: Cluster, j: nat, key: string)
    requires IsRun(run, states, c) && DerivedIdsApart(c) && j <= |run| && c.isRelease(key)
    requires forall namespace, name | ShownBefore(run, j, namespace, name) && OfRelease(namespace, name, key) ::
      GoneBy(run, j, namespace, name)
    ensures Vanished(states[j], key)
  {
    if key in states[j].latest {
      var m, namespace, name := TrackedWasShown(run, states, c, j, key);
      assert ShownBefore(run, j, namespace, name);
      var l :| 0 <= l < j && run[l] == SecretLost(namespace, name)
        && forall k | l < k < j :: !Shows(run[k], namespace, name);
      assert !Shows(run[l], namespace, name);
      assert m < l && Step(states[l], run[l]) == states[l + 1];
      assert Unchanged(states[l].latest, states[j].latest, key);
      assert Unchanged(states[l + 1].latest, states[j].latest, key);
      LosingForgets(states[l], namespace, name, key);
      assert false;
    }
    ReachableIsInv(run, states, c, j);
    UntrackedHasVanished(states[j], c, key);
  }

  /** In every run the deletion of a Secret touches no other release, no custom resource and no
      instance. */
  lemma DeletionTouchesOne(run: seq<Event>, states: seq<Helm>, c: Cluster, i: nat, key: string)
    requires IsRun(run, states, c) && DerivedIdsApart(c) && i < |run|
    requires run[i].SecretLost? && OfRelease(run[i].namespace, run[i].secretName, key)
    ensures OthersUntouched(states[i], states[i + 1], key)
  {
    ReachableIsInv(run, states, c, i);
    assert Possible(states[i], c, run[i]) && Step(states[i], run[i]) == states[i + 1];
    hide ParseSecretName, ReleaseKey, Inv, OthersUntouched, ReleaseGone;
    GoneTouchesOne(states[i], c, key, ParseSecretName(run[i].secretName).value.revision);
  }
}
