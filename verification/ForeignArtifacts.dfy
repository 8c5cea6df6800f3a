/** Scans of a model that also holds artifacts the sensor did not mint. Nothing is assumed about the
    state a scan starts from. */
module ForeignArtifacts {
  import opened Text
  import opened Uuids
  import opened Registry
  import opened Landscape
  import opened ImageIdentity
  import opened ImageObservations
  import opened ImageScan
  import opened ImageScanLaws

  ghost predicate IsMinted(id: Uuid) {
    exists k :: id == ArtifactId(k)
  }

  /** The artifact is the same now and was the same after every write in between. */
  ghost predicate Untouched(s: Images, t: Images, id: Uuid) {
    && SameAt(s.artifacts, t.artifacts, id)
    && s.journal <= t.journal
    && forall i | |s.journal| <= i < |t.journal| :: SameAt(s.artifacts, t.journal[i].artifacts, id)
  }

  lemma UntouchedTwice(s: Images, t: Images, u: Images, id: Uuid)
    requires Untouched(s, t, id) && Untouched(t, u, id)
    ensures Untouched(s, u, id)
  {
    forall i | |s.journal| <= i < |u.journal| ensures SameAt(s.artifacts, u.journal[i].artifacts, id) {
      if i < |t.journal| { assert u.journal[i] == t.journal[i]; }
    }
  }

  lemma WithArtifactUntouched(s: Images, o: Observation, v: Visit, id: Uuid)
    requires id != ArtifactId(o.key)
    ensures Untouched(s, WithArtifact(s, o, v).0, id)
  {
    hide ArtifactId, FindExisting;
  }

  lemma InstanceUntouched(s: Images, o: Observation, artifact: Uuid, id: Uuid)
    ensures Untouched(s, EnsureInstance(s, o, artifact), id) && Untouched(s, DeleteInstance(s, o.key), id)
  {
    hide ArtifactInstanceId;
  }

  lemma VisitUntouched(s: Images, o: Observation, v: Visit, id: Uuid)
    requires !IsMinted(id)
    ensures Untouched(s, VisitImage(s, o, v).s, id)
  {
    assert id != ArtifactId(o.key);
    WithArtifactUntouched(s, o, v, id);
    var (s1, found) := WithArtifact(s, o, v);
    var t := VisitImage(s, o, v).s;
    if found.Some? { InstanceUntouched(s1, o, found.value, id); }
    hide ArtifactId, NotRetrievedId, WithArtifact, EnsureInstance, DeleteInstance, IsMinted;
    assert Untouched(s1, t, id);
    UntouchedTwice(s, s1, t, id);
  }

  lemma {:induction false} VisitAllUntouched(s: Images, obs: Table, visits: seq<Visit>, id: Uuid)
    requires !IsMinted(id) && VisitsKnown(obs, visits)
    ensures Untouched(s, VisitAll(s, obs, visits).s, id)
  {
    hide VisitImage;
    if visits != [] {
      var n := |visits| - 1;
      VisitAllUntouched(s, obs, visits[..n], id);
      var before := VisitAll(s, obs, visits[..n]);
      if before.ok {
        VisitUntouched(before.s, obs[visits[n].key], visits[n], id);
        UntouchedTwice(s, before.s, VisitAll(s, obs, visits).s, id);
      }
    }
  }

  lemma {:induction false} DropInstancesUntouched(s: Images, keys: seq<string>, desired: set<string>, id: Uuid)
    ensures Untouched(s, DropInstances(s, keys, desired), id)
  {
    if keys != [] {
      var n := |keys| - 1;
      DropInstancesUntouched(s, keys[..n], desired, id);
      var mid := DropInstances(s, keys[..n], desired);
      assert Untouched(mid, DropInstance(mid, keys[n]), id);
      if keys[n] !in desired { UntouchedTwice(s, mid, DropInstance(mid, keys[n]), id); }
    }
  }

  lemma {:induction false} DropArtifactsUntouched(s: Images, keys: seq<string>, desired: set<string>, id: Uuid)
    requires !IsMinted(id)
    ensures Untouched(s, DropArtifacts(s, keys, desired), id)
  {
    if keys != [] {
      var n := |keys| - 1;
      DropArtifactsUntouched(s, keys[..n], desired, id);
      var mid := DropArtifacts(s, keys[..n], desired);
      assert id != ArtifactId(keys[n]);
      hide ArtifactId, NotRetrievedId, IsMinted;
      assert Untouched(mid, DropArtifact(mid, keys[n]), id);
      if keys[n] !in desired { UntouchedTwice(s, mid, DropArtifact(mid, keys[n]), id); }
    }
  }

  /** No scan, successful or not, ever deletes or overwrites an artifact whose id is not minted. */
  lemma ForeignIsUntouched(s: Images, obs: Table, p: Plan, id: Uuid)
    requires !IsMinted(id) && VisitsKnown(obs, p.visits)
    ensures Untouched(s, Scan(s, obs, p).s, id)
  {
    hide IsMinted, Untouched, VisitAll, DropInstances, DropArtifacts;
    VisitAllUntouched(s, obs, p.visits, id);
    var visited := VisitAll(s, obs, p.visits);
    if visited.ok {
      var t := DropInstances(visited.s, p.instanceOrder, obs.Keys);
      DropInstancesUntouched(visited.s, p.instanceOrder, obs.Keys, id);
      DropArtifactsUntouched(t, p.artifactOrder, obs.Keys, id);
      UntouchedTwice(s, visited.s, t, id);
      UntouchedTwice(s, t, Scan(s, obs, p).s, id);
    }
  }

  /** Two artifacts with the same hash are both old. */
  ghost predicate NoNewTwins(before: map<Uuid, Artifact>, after: map<Uuid, Artifact>) {
    forall a, b | a in after && b in after && a != b && after[a].hash == after[b].hash != "" ::
      && a in before && b in before && before[a].hash == before[b].hash == after[a].hash
  }

  lemma TwinsTwice(a: map<Uuid, Artifact>, b: map<Uuid, Artifact>, c: map<Uuid, Artifact>)
    requires NoNewTwins(a, b) && NoNewTwins(b, c)
    ensures NoNewTwins(a, c)
  {
    forall i, j | i in c && j in c && i != j && c[i].hash == c[j].hash != ""
      ensures i in a && j in a && a[i].hash == a[j].hash == c[i].hash
    {
      assert i in b && j in b && b[i].hash == b[j].hash == c[i].hash;
    }
  }

  lemma WithArtifactMintsNoTwin(s: Images, o: Observation, v: Visit)
    requires v.lookup.Listing? && forall id | id in s.artifacts :: id in v.lookup.ids
    ensures NoNewTwins(s.artifacts, WithArtifact(s, o, v).0.artifacts)
  {
    hide ArtifactId;
    FirstLaws(v.lookup.ids, s.artifacts, a => HashIs(a, o.hash));
    if FindExisting(s, o, v.lookup).None? && o.hash != "" {
      assert forall id | id in s.artifacts :: s.artifacts[id].hash != o.hash;
    }
  }

  /** The image's hash is on another artifact and not on its own. */
  ghost predicate HashElsewhere(artifacts: map<Uuid, Artifact>, o: Observation) {
    && o.hash != "" && (ArtifactId(o.key) in artifacts ==> artifacts[ArtifactId(o.key)].hash != o.hash)
    && exists id :: id in artifacts && id != ArtifactId(o.key) && artifacts[id].hash == o.hash
  }

  /** Exactly when ensuring an artifact gives a hash a second one: the listing failed, so that the
      artifact that has the hash already could not be seen. */
  lemma MintsTwinExactly(s: Images, o: Observation, v: Visit)
    requires v.lookup.Listing? ==> forall id | id in s.artifacts :: id in v.lookup.ids
    ensures NoNewTwins(s.artifacts, WithArtifact(s, o, v).0.artifacts) <==>
      !(v.lookup.ListFailed? && !v.artifactFails && HashElsewhere(s.artifacts, o))
  {
    if v.lookup.Listing? {
      WithArtifactMintsNoTwin(s, o, v);
    } else {
      hide ArtifactId;
      var own, after := ArtifactId(o.key), WithArtifact(s, o, v).0.artifacts;
      if !v.artifactFails && HashElsewhere(s.artifacts, o) {
        var id :| id in s.artifacts && id != own && s.artifacts[id].hash == o.hash;
        assert own in after && id in after && after[own].hash == after[id].hash != "";
      }
    }
  }

  lemma VisitKeepsArtifacts(s: Images, o: Observation, v: Visit)
    ensures VisitImage(s, o, v).s.artifacts == WithArtifact(s, o, v).0.artifacts
  {
    hide WithArtifact, ArtifactInstanceId, NotRetrievedId;
  }

  lemma {:induction false} VisitAllMintsNoTwin(s: Images, obs: Table, visits: seq<Visit>)
    requires VisitsKnown(obs, visits) && ListingsComplete(s, obs, visits)
    requires forall v | v in visits :: v.lookup.Listing?
    ensures NoNewTwins(s.artifacts, VisitAll(s, obs, visits).s.artifacts)
  {
    if visits != [] {
      var n := |visits| - 1;
      hide VisitImage;
      VisitAllMintsNoTwin(s, obs, visits[..n]);
      var before := VisitAll(s, obs, visits[..n]);
      if before.ok {
        WithArtifactMintsNoTwin(before.s, obs[visits[n].key], visits[n]);
        VisitKeepsArtifacts(before.s, obs[visits[n].key], visits[n]);
        TwinsTwice(s.artifacts, before.s.artifacts, VisitAll(s, obs, visits).s.artifacts);
      }
    }
  }

  lemma {:induction false} DropsShrink(s: Images, instanceKeys: seq<string>, artifactKeys: seq<string>,
      desired: set<string>)
    ensures DropInstances(s, instanceKeys, desired).artifacts == s.artifacts
    ensures forall id | id in DropArtifacts(s, artifactKeys, desired).artifacts ::
      id in s.artifacts && s.artifacts[id] == DropArtifacts(s, artifactKeys, desired).artifacts[id]
    decreases |instanceKeys| + |artifactKeys|
  {
    hide ArtifactId, NotRetrievedId;
    if instanceKeys != [] { DropsShrink(s, instanceKeys[..|instanceKeys| - 1], [], desired); }
    if artifactKeys != [] { DropsShrink(s, [], artifactKeys[..|artifactKeys| - 1], desired); }
  }

  /** While artifact listings succeed, no scan mints a second artifact for a hash that has one. */
  lemma NoSecondArtifactForAHash(s: Images, obs: Table, p: Plan)
    requires PlanFits(s, obs, p) && forall v | v in p.visits :: v.lookup.Listing?
    ensures NoNewTwins(s.artifacts, Scan(s, obs, p).s.artifacts)
  {
    hide VisitAll, DropInstances, DropArtifacts;
    VisitAllMintsNoTwin(s, obs, p.visits);
    var visited := VisitAll(s, obs, p.visits);
    if visited.ok {
      var t := DropInstances(visited.s, p.instanceOrder, obs.Keys);
      DropsShrink(visited.s, p.instanceOrder, [], obs.Keys);
      DropsShrink(t, [], p.artifactOrder, obs.Keys);
    }
  }

  // ---- runs ----

  /** No run of scans, from any state, with failures or not, deletes or overwrites an artifact whose
      id is not minted. */
  lemma {:induction false} RunsKeepForeign(run: seq<Event>, states: seq<Images>, i: nat, id: Uuid)
    requires IsRun(run, states) && i <= |run| && !IsMinted(id)
    ensures Untouched(states[0], states[i], id)
    decreases i
  {
    hide IsMinted, Scan, Collect;
    if i > 0 {
      RunsKeepForeign(run, states, i - 1, id);
      var s, e := states[i - 1], run[i - 1];
      assert Possible(s, e) && After(s, e).s == states[i];
      if e.Scanned? {
        ForeignIsUntouched(s, Collect(e.pods), e.plan, id);
      }
      UntouchedTwice(states[0], s, states[i], id);
    }
  }

  /** While artifact listings succeed, no run of scans ever gives a hash a second artifact. */
  lemma {:induction false} RunsMintNoTwin(run: seq<Event>, states: seq<Images>, i: nat)
    requires IsRun(run, states) && i <= |run|
    requires forall e | e in run && e.Scanned? :: forall v | v in e.plan.visits :: v.lookup.Listing?
    ensures NoNewTwins(states[0].artifacts, states[i].artifacts)
    decreases i
  {
    hide Scan, Collect;
    if i > 0 {
      RunsMintNoTwin(run, states, i - 1);
      var s, e := states[i - 1], run[i - 1];
      assert Possible(s, e) && After(s, e).s == states[i] && e in run;
      if e.Scanned? { NoSecondArtifactForAHash(s, Collect(e.pods), e.plan); }
      TwinsTwice(states[0].artifacts, s.artifacts, states[i].artifacts);
    }
  }

  // ---- a scan that mints a twin ----

  function Digest(): string { "sha256:" + seq(64, _ => '0') }

  /** One pod that declares the image by its digest and has no container status yet. */
  const POD := Pod("ns", "p", "", [Digest()], [], [], [], [], [])

  /** Another source has an artifact with the image's hash. */
  const FOREIGN := Images(map[], map[], map[Given(1) := Artifact("foreign", HashOfKey(Digest()))], map[], map[], [])

  const BLIND := Plan([Visit(Digest(), ListFailed, false, false)], [], [Digest()])

  lemma DigestIdentity()
    ensures var id := IdentityFromImage(Digest(), "");
      id.key == Digest() && id.hash == HashOfKey(Digest()) && id.hash != ""
  {
    var k := Digest();
    assert k[..7] == "sha256:" && k[7..] == seq(64, _ => '0');
    assert IsDigestKey(k);
    DigestKeyParses(k);
    TrimSpaceTrims(k);
    var hash := "SHA256:" + k[7..];
    assert hash[..7] == "SHA256:" && hash[7..] == k[7..];
    assert ParseImageId("") == "";
    hide ParseImageId, TrimSpace;
  }

  lemma OneObservation(pod: Pod, image: string)
    requires pod.Declared() == [image] && image != ""
    requires pod.containerStatuses == pod.initContainerStatuses == pod.ephemeralContainerStatuses == []
    requires IdentityFromImage(image, "").key == image
    ensures Collect([pod]) == map[image := New(IdentityFromImage(image, ""))]
  {
    hide IdentityFromImage;
    var id, images, pods := IdentityFromImage(image, ""), [image], [pod];
    var t := map[image := New(id)];
    assert Declare(map[], images) == t by {
      assert images[..|images| - 1] == [];
      assert Declare(map[], []) == map[];
    }
    assert ObservePod(map[], pod) == t;
    assert ObservePods(pods) == t by { assert pods[..|pods| - 1] == []; }
    assert Settled(t) == t;
  }

  /** Handling an image that never started while the artifacts cannot be listed. */
  lemma BlindVisit(s: Images, o: Observation, v: Visit)
    requires v == Visit(o.key, ListFailed, false, false) && !o.started && !o.pullFailed
    ensures var r, id := VisitImage(s, o, v), ArtifactId(o.key);
      && r.ok && r.s.copies == s.copies - {o.key} && r.s.tracked == s.tracked[o.key := id]
      && r.s.artifacts == s.artifacts[id := Artifact(o.displayName, o.hash)]
  {
    hide ArtifactId, ArtifactInstanceId, NotRetrievedId;
  }

  lemma OneVisit(s: Images, obs: Table, v: Visit)
    requires v.key in obs && v.lookup.ListFailed?
    ensures VisitsKnown(obs, [v]) && ListingsComplete(s, obs, [v]) && Covers([v], {v.key})
    ensures VisitAll(s, obs, [v]) == VisitImage(s, obs[v.key], v)
  {
    NoVisits(s, obs);
    VisitOneMore(s, obs, [], {}, v);
    hide VisitAll, VisitImage, ListingsComplete, Covers;
    assert [] + [v] == [v] && {} + {v.key} == {v.key};
  }

  lemma NothingStale(s: Images, key: string)
    ensures DropInstances(s, [], {key}) == s && DropArtifacts(s, [key], {key}) == s
  {
    assert [key][..0] == [];
  }

  /** A scan of one such image, with nothing tracked before: it follows a plan the program can follow. */
  lemma BlindScan(s: Images, obs: Table, o: Observation, p: Plan)
    requires s.tracked == map[] && s.copies == map[] && obs == map[o.key := o] && !o.started && !o.pullFailed
    requires p == Plan([Visit(o.key, ListFailed, false, false)], [], [o.key])
    ensures PlanFits(s, obs, p)
    ensures var r := Scan(s, obs, p);
      r.ok && r.s.artifacts == s.artifacts[ArtifactId(o.key) := Artifact(o.displayName, o.hash)]
  {
    var v := Visit(o.key, ListFailed, false, false);
    BlindVisit(s, o, v);
    OneVisit(s, obs, v);
    hide ArtifactId, VisitAll, VisitImage, ListingsComplete, DropInstances, DropArtifacts, Covers;
    var t := VisitAll(s, obs, [v]).s;
    NothingStale(t, o.key);
    assert obs.Keys == {o.key} && t.copies == map[] && t.tracked.Keys == {o.key};
  }

  lemma TwinOf(s: Images, pod: Pod, image: string, p: Plan)
    requires s.tracked == map[] && s.copies == map[]
    requires pod.Declared() == [image] && image != ""
    requires pod.containerStatuses == pod.initContainerStatuses == pod.ephemeralContainerStatuses == []
    requires IdentityFromImage(image, "").key == image && IdentityFromImage(image, "").hash != ""
    requires p == Plan([Visit(image, ListFailed, false, false)], [], [image])
    requires Given(1) in s.artifacts && s.artifacts[Given(1)].hash == IdentityFromImage(image, "").hash
    requires ArtifactId(image) !in s.artifacts
    ensures PlanFits(s, Collect([pod]), p)
    ensures var r := Scan(s, Collect([pod]), p);
      && r.ok && !NoNewTwins(s.artifacts, r.s.artifacts)
      && Given(1) in r.s.artifacts && ArtifactId(image) in r.s.artifacts
      && r.s.artifacts[Given(1)].hash == r.s.artifacts[ArtifactId(image)].hash != ""
  {
    var o := New(IdentityFromImage(image, ""));
    assert ArtifactId(image) != Given(1);
    assert o.key == image && o.hash == IdentityFromImage(image, "").hash && !o.started && !o.pullFailed;
    OneObservation(pod, image);
    hide *;
    BlindScan(s, Collect([pod]), o, p);
    NewTwin(s.artifacts, Scan(s, Collect([pod]), p).s.artifacts, ArtifactId(image), Given(1));
  }

  lemma NewTwin(before: map<Uuid, Artifact>, after: map<Uuid, Artifact>, a: Uuid, b: Uuid)
    requires a in after && b in after && a != b && a !in before && after[a].hash == after[b].hash != ""
    ensures !NoNewTwins(before, after)
  {
  }

  /** A scan that cannot list the artifacts ends well and leaves two artifacts of one hash. */
  lemma BlindScanMintsTwin()
    ensures PlanFits(FOREIGN, Collect([POD]), BLIND)
    ensures var r := Scan(FOREIGN, Collect([POD]), BLIND);
      && r.ok && !NoNewTwins(FOREIGN.artifacts, r.s.artifacts)
      && Given(1) in r.s.artifacts && ArtifactId(Digest()) in r.s.artifacts
      && r.s.artifacts[Given(1)].hash == r.s.artifacts[ArtifactId(Digest())].hash != ""
  {
    DigestIdentity();
    assert Digest()[0] == 's' && ArtifactId(Digest()) !in FOREIGN.artifacts;
    assert POD.Declared() == [Digest()];
    hide *;
    TwinOf(FOREIGN, POD, Digest(), BLIND);
  }
}
