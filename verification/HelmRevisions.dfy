/** The tracked revision of a release is the largest one observed since it was last cleared. */
module HelmRevisions {
  import opened Text
  import opened HelmSecretName
  import opened HelmRelease
  import HelmLaws
  import Landscape
  import Uuids

  /** What can happen to the tracker: a Secret is reconciled while present, listed at startup, or
      reconciled after it is gone. */
  datatype Sighting =
    | Present(key: string, revision: int)
    | AtStartup(key: string, revision: int)
    | Gone(key: string, revision: int)

  function Track(latest: Revisions, o: Sighting): Revisions {
    match o
    case Present(key, r) => Seen(latest, key, r)
    case AtStartup(key, r) => Listed(latest, key, r)
    case Gone(key, r) => if key in latest && r == latest[key] then latest - {key} else latest
  }

  function TrackAll(log: seq<Sighting>): Revisions {
    if log == [] then map[] else Track(TrackAll(log[..|log| - 1]), log[|log| - 1])
  }

  ghost predicate IsLargest(m: int, s: set<int>) {
    m in s && forall r | r in s :: r <= m
  }

  /** The revisions of `key` observed since it was last cleared; only the disappearance of the largest
      one clears it. */
  ghost function Observed(log: seq<Sighting>, key: string): set<int> {
    if log == [] then {}
    else
      var before, o := Observed(log[..|log| - 1], key), log[|log| - 1];
      if o.key != key then before
      else if o.Gone? then (if IsLargest(o.revision, before) then {} else before)
      else before + {o.revision}
  }

  /** A release is tracked exactly when some revision was observed since it was last cleared, and the
      tracked revision is the largest of those. */
  ghost predicate TracksLargest(log: seq<Sighting>, key: string) {
    var latest, observed := TrackAll(log), Observed(log, key);
    (key in latest <==> observed != {}) && (key in latest ==> IsLargest(latest[key], observed))
  }

  /** The startup listing meets a revision below 1 of a release that is not tracked. */
  predicate Overlooks(latest: Revisions, o: Sighting, key: string) {
    o.AtStartup? && o.key == key && o.revision <= 0 && key !in latest
  }

  /** That never happens in this history. */
  ghost predicate Careful(log: seq<Sighting>, key: string) {
    forall n | 0 <= n < |log| :: !Overlooks(TrackAll(log[..n]), log[n], key)
  }

  lemma LargestOnce(s: set<int>)
    ensures forall m, n :: IsLargest(m, s) && IsLargest(n, s) ==> m == n
  {
  }

  /** One sighting keeps the law if and only if the listing does not overlook it. */
  lemma SightingKeepsLaw(log: seq<Sighting>, key: string)
    requires log != [] && TracksLargest(log[..|log| - 1], key)
    ensures TracksLargest(log, key) <==> !Overlooks(TrackAll(log[..|log| - 1]), log[|log| - 1], key)
  {
    var o, before := log[|log| - 1], Observed(log[..|log| - 1], key);
    LargestOnce(before);
    if o.key == key && !o.Gone? { assert o.revision in Observed(log, key); }
  }

  /** The law holds at every moment of a history if and only if the startup listing never meets a
      revision below 1 of an untracked release. */
  lemma {:induction false} LargestExactly(log: seq<Sighting>, key: string)
    ensures (forall n | 0 <= n <= |log| :: TracksLargest(log[..n], key)) <==> Careful(log, key)
  {
    hide TracksLargest, Overlooks, TrackAll;
    assert log[..|log|] == log;
    if log == [] {
      NothingTracked(key);
    } else {
      var init := log[..|log| - 1];
      LargestExactly(init, key);
      assert init[..|init|] == init;
      assert forall n | 0 <= n <= |init| :: init[..n] == log[..n];
      if TracksLargest(init, key) { SightingKeepsLaw(log, key); }
      assert Careful(log, key) <==> Careful(init, key) && !Overlooks(TrackAll(init), log[|init|], key);
    }
  }

  lemma NothingTracked(key: string)
    ensures TracksLargest([], key)
  {
  }

  /** For every interleaving of present Secrets, the startup listing and disappearances, of whatever
      revisions, as long as the listing overlooks nothing: a release is tracked exactly when a revision
      was observed since it was last cleared, and the tracked revision is the largest of those. */
  lemma TrackedIsLargest(log: seq<Sighting>, key: string)
    requires Careful(log, key)
    ensures key in TrackAll(log) <==> Observed(log, key) != {}
    ensures key in TrackAll(log) ==> IsLargest(TrackAll(log)[key], Observed(log, key))
  {
    LargestExactly(log, key);
    assert log[..|log|] == log;
    assert TracksLargest(log, key);
  }

  ghost predicate FromOne(log: seq<Sighting>, key: string) {
    forall o | o in log && o.AtStartup? && o.key == key :: o.revision >= 1
  }

  /** Helm numbers revisions from 1: then nothing is overlooked. */
  lemma PositiveIsCareful(log: seq<Sighting>, key: string)
    requires FromOne(log, key)
    ensures Careful(log, key)
  {
    hide TrackAll;
  }

  /** Revision r of the release was seen, by a reconcile or at startup. */
  ghost predicate Sees(log: seq<Sighting>, key: string, r: int) {
    exists o :: o in log && o.key == key && o.revision == r
  }

  lemma {:induction false} ObservedIsAllSeen(log: seq<Sighting>, key: string)
    requires forall o | o in log && o.key == key :: !o.Gone?
    ensures forall r :: r in Observed(log, key) <==> Sees(log, key, r)
  {
    if log != [] {
      var n := |log| - 1;
      ObservedIsAllSeen(log[..n], key);
      assert forall o :: o in log <==> o in log[..n] || o == log[n];
    }
  }

  /** Neither the order of observations matters nor whether they are made at startup or by a
      reconcile: while no Secret of the release goes away, histories that see the same revisions track
      the same one. */
  lemma OrderIndependent(a: seq<Sighting>, b: seq<Sighting>, key: string)
    requires Careful(a, key) && Careful(b, key)
    requires forall o | o in a + b && o.key == key :: !o.Gone?
    requires forall r :: Sees(a, key, r) <==> Sees(b, key, r)
    ensures key in TrackAll(a) <==> key in TrackAll(b)
    ensures key in TrackAll(a) ==> TrackAll(a)[key] == TrackAll(b)[key]
  {
    assert forall o | o in a || o in b :: o in a + b;
    ObservedIsAllSeen(a, key);
    ObservedIsAllSeen(b, key);
    TrackedIsLargest(a, key);
    TrackedIsLargest(b, key);
    hide Careful, TrackAll, Observed;
    var x, y := Observed(a, key), Observed(b, key);
    assert x == y by { assert forall r :: r in x <==> r in y; }
  }

  /** What overlooking does: a listed Secret of revision 0 is not tracked, the same Secret reconciled
      is. */
  lemma RevisionZeroDependsOnOrder()
    ensures "ns/app" !in TrackAll([AtStartup("ns/app", 0)]) && "ns/app" in TrackAll([Present("ns/app", 0)])
    ensures !Careful([AtStartup("ns/app", 0)], "ns/app")
  {
    var log := [AtStartup("ns/app", 0)];
    assert log[..0] == [] && [Present("ns/app", 0)][..0] == [];
    assert Overlooks(TrackAll(log[..0]), log[0], "ns/app");
  }

  /** Listing a Secret and reconciling it have the same effect if and only if it is not overlooked. */
  lemma ListingAgreesWithReconcile(latest: Revisions, key: string, r: int)
    ensures Listed(latest, key, r) == Seen(latest, key, r) <==> key in latest || r >= 1
    ensures Listed(latest, key, r) == Seen(latest, key, r) <==> !Overlooks(latest, AtStartup(key, r), key)
  {
    assert key in Seen(latest, key, r);
  }

  // ---- the tracker inside the running reconcilers ----

  ghost function SecretSighting(secret: Secret, gone: bool): seq<Sighting> {
    var parts := ParseSecretName(secret.name);
    if !secret.helmType || parts.None? then []
    else
      var key, r := ReleaseKey(secret.namespace, parts.value.release), parts.value.revision;
      [if gone then Gone(key, r) else Present(key, r)]
  }

  ghost function StartupSightings(secrets: seq<Secret>): seq<Sighting> {
    if secrets == [] then []
    else
      var s := secrets[|secrets| - 1];
      var parts := ParseSecretName(s.name);
      StartupSightings(secrets[..|secrets| - 1])
        + if !s.helmType || parts.None? then []
          else [AtStartup(ReleaseKey(s.namespace, parts.value.release), parts.value.revision)]
  }

  ghost function SightingsOf(e: HelmLaws.Event): seq<Sighting> {
    match e
    case SecretSeen(secret, _, _) => SecretSighting(secret, false)
    case SecretLost(namespace, name) => SecretSighting(Secret(namespace, name, true, None, Uuids.Nil), true)
    case Startup(secrets) => StartupSightings(secrets)
    case _ => []
  }

  ghost function LogOf(run: seq<HelmLaws.Event>): seq<Sighting> {
    if run == [] then [] else LogOf(run[..|run| - 1]) + SightingsOf(run[|run| - 1])
  }

  lemma TrackOne(log: seq<Sighting>, o: Sighting)
    ensures TrackAll(log + [o]) == Track(TrackAll(log), o)
  {
    assert (log + [o])[..|log|] == log;
  }

  lemma {:induction false} StartupTracks(log: seq<Sighting>, secrets: seq<Secret>)
    ensures TrackAll(log + StartupSightings(secrets)) == ListAll(TrackAll(log), secrets)
  {
    hide ParseSecretName, ReleaseKey;
    if secrets == [] {
      assert log + [] == log;
    } else {
      var n := |secrets| - 1;
      StartupTracks(log, secrets[..n]);
      var s, parts := secrets[n], ParseSecretName(secrets[n].name);
      var before := log + StartupSightings(secrets[..n]);
      if !s.helmType || parts.None? {
        assert log + StartupSightings(secrets) == before;
      } else {
        var o := AtStartup(ReleaseKey(s.namespace, parts.value.release), parts.value.revision);
        assert log + StartupSightings(secrets) == before + [o];
        TrackOne(before, o);
      }
    }
  }

  lemma StepTracks(log: seq<Sighting>, s: Helm, e: HelmLaws.Event)
    requires s.latest == TrackAll(log)
    ensures HelmLaws.Step(s, e).latest == TrackAll(log + SightingsOf(e))
  {
    hide ParseSecretName, ReleaseKey, TrackAll;
    match e
    case SecretSeen(secret, known, addFails) =>
      DeployKeepsRevisions(s, secret, known, addFails);
      var o := SecretSighting(secret, false);
      if o == [] { assert log + [] == log; } else { TrackOne(log, o[0]); }
    case SecretLost(namespace, name) =>
      var o := SecretSighting(Secret(namespace, name, true, None, Uuids.Nil), true);
      if o == [] { assert log + [] == log; } else { TrackOne(log, o[0]); }
    case Startup(secrets) => StartupTracks(log, secrets);
    case InstanceEvent(_, _, _, _) => assert log + [] == log;
    case CustomEvent(_, _) => assert log + [] == log;
    case Elsewhere(_) => assert log + [] == log;
  }

  lemma DeployKeepsRevisions(s: Helm, secret: Secret, known: bool, addFails: bool)
    ensures SecretFound(s, secret, known, addFails).latest ==
      var o := SecretSighting(secret, false);
      if o == [] then s.latest else Seen(s.latest, o[0].key, o[0].revision)
  {
    var parts := ParseSecretName(secret.name);
    if secret.helmType && parts.Some? && secret.data.Some? {
      var key := ReleaseKey(secret.namespace, parts.value.release);
      CorrelateKeepsRevisions(s.(latest := s.latest[key := parts.value.revision]), key, parts.value.release, secret,
        known);
    }
    hide ParseSecretName, ReleaseKey, Deploy;
  }

  lemma CorrelateKeepsRevisions(s: Helm, key: string, release: string, secret: Secret, known: bool)
    requires secret.data.Some?
    ensures Deploy(s, key, release, secret.namespace, secret.data.value, secret.systemRef, known).latest == s.latest
  {
    var data, id := secret.data.value, Uuids.HelmReleaseId(key);
    var entity := Landscape.SystemInstance(release, data.chartName + "-" + data.chartVersion);
    var s1 := s.(systemInstances := s.systemInstances[id := entity],
                 systemNames := s.systemNames[key := id]);
    CorrelateAllKeepsRevisions(s1, data.resources, secret.namespace, id);
    hide CorrelateAll;
  }

  lemma {:induction false} CorrelateAllKeepsRevisions(s: Helm, resources: seq<Resource>, namespace: string,
      id: Uuids.Uuid)
    ensures CorrelateAll(s, resources, namespace, id).latest == s.latest
  {
    hide NameKey;
    if resources != [] { CorrelateAllKeepsRevisions(s, resources[..|resources| - 1], namespace, id); }
  }

  lemma {:induction false} RunTracks(run: seq<HelmLaws.Event>, states: seq<Helm>, c: HelmLaws.Cluster, i: nat)
    requires HelmLaws.IsRun(run, states, c) && i <= |run|
    ensures states[i].latest == TrackAll(LogOf(run[..i]))
    decreases i
  {
    if i > 0 {
      RunTracks(run, states, c, i - 1);
      assert run[..i][..i - 1] == run[..i - 1];
      assert HelmLaws.Step(states[i - 1], run[i - 1]) == states[i];
      StepTracks(LogOf(run[..i - 1]), states[i - 1], run[i - 1]);
    }
  }

  /** In every reachable state of the reconcilers: only the listing of this release matters. */
  lemma LatestRevisionIsLargest(run: seq<HelmLaws.Event>, states: seq<Helm>, c: HelmLaws.Cluster, i: nat, key: string)
    requires HelmLaws.IsRun(run, states, c) && i <= |run| && Careful(LogOf(run[..i]), key)
    ensures key in states[i].latest <==> Observed(LogOf(run[..i]), key) != {}
    ensures key in states[i].latest ==> IsLargest(states[i].latest[key], Observed(LogOf(run[..i]), key))
  {
    RunTracks(run, states, c, i);
    TrackedIsLargest(LogOf(run[..i]), key);
  }

  /** Helm numbers revisions from 1: no listed Secret of the release has a revision below. */
  ghost predicate ListsFromOne(secrets: seq<Secret>, key: string) {
    forall s | s in secrets && s.helmType ::
      var parts := ParseSecretName(s.name);
      parts.Some? && ReleaseKey(s.namespace, parts.value.release) == key ==> parts.value.revision >= 1
  }

  lemma {:induction false} ListingsFromOne(secrets: seq<Secret>, key: string)
    requires ListsFromOne(secrets, key)
    ensures FromOne(StartupSightings(secrets), key)
  {
    hide ParseSecretName, ReleaseKey;
    if secrets != [] {
      var n := |secrets| - 1;
      assert secrets[n] in secrets && forall s | s in secrets[..n] :: s in secrets;
      ListingsFromOne(secrets[..n], key);
    }
  }

  lemma {:induction false} RunFromOne(run: seq<HelmLaws.Event>, key: string)
    requires forall m | 0 <= m < |run| && run[m].Startup? :: ListsFromOne(run[m].secrets, key)
    ensures FromOne(LogOf(run), key)
  {
    hide ParseSecretName, ReleaseKey, ListsFromOne;
    if run != [] {
      var n := |run| - 1;
      RunFromOne(run[..n], key);
      if run[n].Startup? { ListingsFromOne(run[n].secrets, key); }
    }
  }

  /** With revisions numbered from 1 the tracked revision is the largest one in every reachable state. */
  lemma LargestFromOne(run: seq<HelmLaws.Event>, states: seq<Helm>, c: HelmLaws.Cluster, i: nat, key: string)
    requires HelmLaws.IsRun(run, states, c) && i <= |run|
    requires forall m | 0 <= m < i && run[m].Startup? :: ListsFromOne(run[m].secrets, key)
    ensures key in states[i].latest <==> Observed(LogOf(run[..i]), key) != {}
    ensures key in states[i].latest ==> IsLargest(states[i].latest[key], Observed(LogOf(run[..i]), key))
  {
    RunFromOne(run[..i], key);
    PositiveIsCareful(LogOf(run[..i]), key);
    LatestRevisionIsLargest(run, states, c, i, key);
  }
}
