/** What a scan does to any model, also one that holds artifacts of other origin. */
module ScanEffects {
  import opened Text
  import opened Uuids
  import opened Registry
  import opened Landscape
  import opened ImageObservations
  import opened ObservationLaws
  import opened ImageScan
  import opened ImageScanLaws

  /** From s to t the finding that an artifact cannot be retrieved is set or cleared, and no other changes. */
  ghost predicate RetrievalIs(s: Images, t: Images, artifact: Uuid, failed: bool) {
    FindingIs(s.findings, t.findings, ReferenceFindingId(artifact, IMAGE_NOT_RETRIEVED), failed,
      Finding(OfKind(IMAGE_NOT_RETRIEVED), [ResourceRef(artifact, ArtifactResource)]))
  }

  /** The instance of an image in state t, given the state s before. */
  ghost predicate InstanceIs(s: Images, t: Images, o: Observation, artifact: Uuid) {
    if o.started then
      var instance := ArtifactInstance(o.displayName, artifact, o.locations);
      && t.copies == s.copies[o.key := ArtifactInstanceId(o.key)]
      && t.instances == s.instances[ArtifactInstanceId(o.key) := instance]
    else
      && t.copies == s.copies - {o.key}
      && t.instances == s.instances - {if o.key in s.copies && s.copies[o.key] != Nil then s.copies[o.key]
                                       else ArtifactInstanceId(o.key)}
  }

  /** One image in any state: it is given a candidate, or a minted artifact if there is none; its instance
      is of that artifact and there is one if and only if a copy has started; and the artifact has the
      finding if and only if no copy has and a pull failed. No other finding changes. */
  lemma VisitEffect(s: Images, o: Observation, v: Visit)
    requires Complete(s, v.lookup)
    ensures var r, s1, found := VisitImage(s, o, v), WithArtifact(s, o, v).0, WithArtifact(s, o, v).1;
      && Ensured(s, s1, o, v, found)
      && r.s.tracked == s1.tracked && r.s.artifacts == s1.artifacts
      && (r.ok <==> found.Some? && !(o.started && v.instanceFails))
      && (r.ok ==> InstanceIs(s, r.s, o, found.value)
                   && RetrievalIs(s, r.s, found.value, o.pullFailed && !o.started))
      && (!r.ok ==> r.s == s1)
  {
    EnsuresCandidate(s, o, v);
    VisitRest(s, o, v);
    if VisitImage(s, o, v).ok { VisitFinding(s, o, v); }
    hide VisitImage, WithArtifact, Ensured, InstanceIs, RetrievalIs;
  }

  lemma VisitRest(s: Images, o: Observation, v: Visit)
    ensures var r, s1, found := VisitImage(s, o, v), WithArtifact(s, o, v).0, WithArtifact(s, o, v).1;
      && r.s.tracked == s1.tracked && r.s.artifacts == s1.artifacts
      && (r.ok <==> found.Some? && !(o.started && v.instanceFails))
      && (r.ok ==> InstanceIs(s, r.s, o, found.value))
      && (!r.ok ==> r.s == s1)
  {
    assert WithArtifact(s, o, v).0.copies == s.copies && WithArtifact(s, o, v).0.instances == s.instances;
    hide WithArtifact, ArtifactInstanceId, ReferenceFindingId;
  }

  lemma FindingsStay(s: Images, o: Observation, v: Visit)
    ensures var (s1, found) := WithArtifact(s, o, v);
      && s1.findings == s.findings && DeleteInstance(s1, o.key).findings == s.findings
      && (found.Some? ==> EnsureInstance(s1, o, found.value).findings == s.findings)
  {
    hide FindExisting, ArtifactId, ArtifactInstanceId;
  }

  lemma VisitFinding(s: Images, o: Observation, v: Visit)
    requires VisitImage(s, o, v).ok
    ensures WithArtifact(s, o, v).1.Some?
    ensures RetrievalIs(s, VisitImage(s, o, v).s, WithArtifact(s, o, v).1.value, o.pullFailed && !o.started)
  {
    hide WithArtifact, ReferenceFindingId, EnsureInstance, DeleteInstance;
    var (s1, found) := WithArtifact(s, o, v);
    FindingsStay(s, o, v);
  }

  // ---- the names after a scan ----

  ghost predicate KeysFit(obs: Table) { forall k | k in obs :: obs[k].key == k }

  lemma TrackedNames(s: Images, o: Observation, v: Visit, k: string)
    ensures var (t, found) := WithArtifact(s, o, v);
      found.Some? ==> (k in t.tracked <==> k in s.tracked || k == o.key)
  {
    hide FindExisting, ArtifactId;
  }

  lemma VisitNames(s: Images, o: Observation, v: Visit, k: string)
    requires VisitImage(s, o, v).ok
    ensures var t := VisitImage(s, o, v).s;
      && (k in t.tracked <==> k in s.tracked || k == o.key)
      && (k in t.copies <==> if k == o.key then o.started else k in s.copies)
  {
    VisitRest(s, o, v);
    TrackedNames(s, o, v, k);
    hide VisitImage, WithArtifact, ArtifactInstanceId, RetrievalIs;
  }

  lemma {:induction false} VisitAllNames(s: Images, obs: Table, visits: seq<Visit>, k: string)
    requires VisitsKnown(obs, visits) && KeysFit(obs) && VisitAll(s, obs, visits).ok
    ensures var t := VisitAll(s, obs, visits).s;
      && (k in t.tracked <==> k in s.tracked || exists v :: v in visits && v.key == k)
      && ((exists v :: v in visits && v.key == k) ==> (k in t.copies <==> obs[k].started))
  {
    hide VisitImage;
    if visits != [] {
      var n := |visits| - 1;
      assert visits == visits[..n] + [visits[n]];
      VisitAllNames(s, obs, visits[..n], k);
      VisitNames(VisitAll(s, obs, visits[..n]).s, obs[visits[n].key], visits[n], k);
    }
  }

  lemma {:induction false} DropInstancesNames(s: Images, keys: seq<string>, desired: set<string>, k: string)
    ensures var t := DropInstances(s, keys, desired);
      t.tracked == s.tracked && (k in t.copies <==> k in s.copies && (k in keys ==> k in desired))
  {
    if keys != [] {
      var n := |keys| - 1;
      assert keys == keys[..n] + [keys[n]];
      DropInstancesNames(s, keys[..n], desired, k);
    }
  }

  lemma {:induction false} DropArtifactsNames(s: Images, keys: seq<string>, desired: set<string>, k: string)
    ensures var t := DropArtifacts(s, keys, desired);
      t.copies == s.copies && (k in t.tracked <==> k in s.tracked && (k in keys ==> k in desired))
  {
    hide ArtifactId, NotRetrievedId;
    if keys != [] {
      var n := |keys| - 1;
      assert keys == keys[..n] + [keys[n]];
      DropArtifactsNames(s, keys[..n], desired, k);
    }
  }

  /** After a scan that succeeds, from any state at all, an image is indexed if and only if it was observed,
      and its instance if and only if a copy of it has started. */
  lemma ScanNames(s: Images, pods: seq<Pod>, p: Plan, k: string)
    requires PlanFits(s, Collect(pods), p) && Scan(s, Collect(pods), p).ok
    ensures var t, obs := Scan(s, Collect(pods), p).s, Collect(pods);
      && (k in t.tracked <==> k in obs)
      && (k in t.copies <==> k in obs && obs[k].started)
  {
    var obs := Collect(pods);
    CollectIsNormal(pods);
    assert KeysFit(obs);
    hide VisitAll, Collect, Normal, DropInstances, DropArtifacts, ListingsComplete, Enumerates;
    var s1 := VisitAll(s, obs, p.visits).s;
    var s2 := DropInstances(s1, p.instanceOrder, obs.Keys);
    VisitAllNames(s, obs, p.visits, k);
    DropInstancesNames(s1, p.instanceOrder, obs.Keys, k);
    DropArtifactsNames(s2, p.artifactOrder, obs.Keys, k);
    Listed(p.instanceOrder, s1.copies.Keys, k);
    Listed(p.artifactOrder, s2.tracked.Keys, k);
  }

  lemma Listed(order: seq<string>, keys: set<string>, k: string)
    requires Enumerates(order, keys)
    ensures k in order <==> k in keys
  {
  }
}
