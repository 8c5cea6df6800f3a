/** The cluster-wide image scan (internal/controller/image_scan_controller.go). */
module ImageScan {
  import opened Text
  import opened Uuids
  import opened Registry
  import opened Landscape
  import opened ImageObservations

  /** What the environment decides while one image is handled: the artifact listing (in any order, or
      an error) and whether the two adds fail. */
  datatype Lookup = Listing(ids: seq<Uuid>) | ListFailed
  datatype Visit = Visit(key: string, lookup: Lookup, artifactFails: bool, instanceFails: bool)

  /** One way a scan can go: the order in which images are visited and stale keys are dropped. */
  datatype Plan = Plan(visits: seq<Visit>, instanceOrder: seq<string>, artifactOrder: seq<string>)

  datatype Stores = Stores(artifacts: map<Uuid, Artifact>, instances: map<Uuid, ArtifactInstance>)

  /** The part of the sensor's state the scan reads and writes: the names of the two artifact kinds,
      the two artifact stores and the findings. `journal` is a history of the artifact stores, one
      entry for every write the scan made to either. */
  datatype Images = Images(tracked: NameMap, copies: NameMap,
    artifacts: map<Uuid, Artifact>, instances: map<Uuid, ArtifactInstance>, findings: map<Uuid, Finding>,
    journal: seq<Stores>)
  {
    function WriteArtifacts(next: map<Uuid, Artifact>): Images {
      this.(artifacts := next, journal := journal + [Stores(next, instances)])
    }

    function WriteInstances(next: map<Uuid, ArtifactInstance>): Images {
      this.(instances := next, journal := journal + [Stores(artifacts, next)])
    }
  }

  datatype Outcome = Outcome(s: Images, ok: bool)

  function NotRetrievedId(artifact: Uuid): Uuid { ReferenceFindingId(artifact, IMAGE_NOT_RETRIEVED) }

  function NotRetrieved(artifact: Uuid): Finding {
    Finding(OfKind(IMAGE_NOT_RETRIEVED), [ResourceRef(artifact, ArtifactResource)])
  }

  // ---- the scan as functions on values ----

  predicate HashIs(a: Artifact, hash: string) { a.hash == hash }

  predicate NameIs(a: Artifact, name: string) { a.displayName == name }

  function First(ids: seq<Uuid>, artifacts: map<Uuid, Artifact>, wanted: Artifact -> bool): Option<Uuid> {
    if ids == [] then None
    else if ids[0] in artifacts && wanted(artifacts[ids[0]]) then Some(ids[0])
    else First(ids[1..], artifacts, wanted)
  }

  function FindExisting(s: Images, o: Observation, lookup: Lookup): Option<Uuid> {
    if lookup.ListFailed? then None
    else
      var byHash := if o.hash != "" then First(lookup.ids, s.artifacts, a => HashIs(a, o.hash)) else None;
      if byHash.Some? then byHash
      else
        var byName := First(lookup.ids, s.artifacts, a => NameIs(a, o.displayName));
        if byName.Some? then byName
        else
          var id := if o.key in s.tracked then s.tracked[o.key] else Nil;
          if id != Nil && id in s.artifacts then Some(id) else None
  }

  function WithArtifact(s: Images, o: Observation, v: Visit): (Images, Option<Uuid>) {
    match FindExisting(s, o, v.lookup)
    case Some(id) => (s.(tracked := s.tracked[o.key := id]), Some(id))
    case None =>
      if v.artifactFails then (s, None)
      else
        var id := ArtifactId(o.key);
        var minted := Artifact(o.displayName, o.hash);
        (s.(tracked := s.tracked[o.key := id]).WriteArtifacts(s.artifacts[id := minted]), Some(id))
  }

  function EnsureInstance(s: Images, o: Observation, artifact: Uuid): Images {
    var id := ArtifactInstanceId(o.key);
    var instance := ArtifactInstance(o.displayName, artifact, o.locations);
    s.(copies := s.copies[o.key := id]).WriteInstances(s.instances[id := instance])
  }

  function DeleteInstance(s: Images, key: string): Images {
    var id := if key in s.copies && s.copies[key] != Nil then s.copies[key] else ArtifactInstanceId(key);
    s.(copies := s.copies - {key}).WriteInstances(s.instances - {id})
  }

  function VisitImage(s: Images, o: Observation, v: Visit): Outcome {
    var (s1, found) := WithArtifact(s, o, v);
    if found.None? then Outcome(s1, false)
    else
      var artifact := found.value;
      if o.started then
        if v.instanceFails then Outcome(s1, false)
        else
          var s2 := EnsureInstance(s1, o, artifact);
          Outcome(s2.(findings := s2.findings - {NotRetrievedId(artifact)}), true)
      else
        var s2 := DeleteInstance(s1, o.key);
        if o.pullFailed then
          Outcome(s2.(findings := s2.findings[NotRetrievedId(artifact) := NotRetrieved(artifact)]), true)
        else Outcome(s2.(findings := s2.findings - {NotRetrievedId(artifact)}), true)
  }

  /** Visits images in the given order; an error ends the scan. */
  function VisitAll(s: Images, obs: Table, visits: seq<Visit>): Outcome
    requires forall v | v in visits :: v.key in obs
  {
    if visits == [] then Outcome(s, true)
    else
      var n := |visits| - 1;
      var before := VisitAll(s, obs, visits[..n]);
      if !before.ok then before else VisitImage(before.s, obs[visits[n].key], visits[n])
  }

  function DropInstance(s: Images, key: string): Images {
    if key !in s.copies || s.copies[key] == Nil then s.(copies := s.copies - {key})
    else s.(copies := s.copies - {key}).WriteInstances(s.instances - {s.copies[key]})
  }

  function DropArtifact(s: Images, key: string): Images {
    var s1 := s.(tracked := s.tracked - {key});
    if key !in s.tracked || s.tracked[key] == Nil then s1
    else
      var id := s.tracked[key];
      var s2 := s1.(findings := s1.findings - {NotRetrievedId(id)});
      if id == ArtifactId(key) then s2.WriteArtifacts(s2.artifacts - {id}) else s2
  }

  function DropInstances(s: Images, keys: seq<string>, desired: set<string>): Images {
    if keys == [] then s
    else
      var n := |keys| - 1;
      var s1 := DropInstances(s, keys[..n], desired);
      if keys[n] in desired then s1 else DropInstance(s1, keys[n])
  }

  function DropArtifacts(s: Images, keys: seq<string>, desired: set<string>): Images {
    if keys == [] then s
    else
      var n := |keys| - 1;
      var s1 := DropArtifacts(s, keys[..n], desired);
      if keys[n] in desired then s1 else DropArtifact(s1, keys[n])
  }

  function Scan(s: Images, obs: Table, p: Plan): Outcome
    requires forall v | v in p.visits :: v.key in obs
  {
    var visited := VisitAll(s, obs, p.visits);
    if !visited.ok then visited
    else Outcome(DropArtifacts(DropInstances(visited.s, p.instanceOrder, obs.Keys), p.artifactOrder, obs.Keys), true)
  }

  /** A listing that succeeds has all artifacts. */
  ghost predicate Complete(s: Images, lookup: Lookup) {
    lookup.Listing? ==> forall id | id in s.artifacts :: id in lookup.ids
  }

  /** Every listing that succeeds is complete at the time it is made. */
  ghost predicate ListingsComplete(s: Images, obs: Table, visits: seq<Visit>)
    requires forall v | v in visits :: v.key in obs
  {
    visits != [] ==>
      var n := |visits| - 1;
      ListingsComplete(s, obs, visits[..n]) && Complete(VisitAll(s, obs, visits[..n]).s, visits[n].lookup)
  }

  ghost predicate VisitsKnown(obs: Table, visits: seq<Visit>) {
    forall v | v in visits :: v.key in obs
  }

  ghost predicate Covers(visits: seq<Visit>, keys: set<string>) {
    forall k | k in keys :: exists v :: v in visits && v.key == k
  }

  lemma NoVisits(s: Images, obs: Table)
    ensures VisitsKnown(obs, []) && ListingsComplete(s, obs, []) && Covers([], {})
      && VisitAll(s, obs, []) == Outcome(s, true)
  {
  }

  lemma VisitOneMore(s: Images, obs: Table, visits: seq<Visit>, keys: set<string>, v: Visit)
    requires VisitsKnown(obs, visits) && ListingsComplete(s, obs, visits) && Covers(visits, keys) && v.key in obs
    requires Complete(VisitAll(s, obs, visits).s, v.lookup)
    ensures var more := visits + [v];
      && VisitsKnown(obs, more) && ListingsComplete(s, obs, more) && Covers(more, keys + {v.key})
      && VisitAll(s, obs, more) ==
        var before := VisitAll(s, obs, visits);
        if before.ok then VisitImage(before.s, obs[v.key], v) else before
  {
    var more := visits + [v];
    assert more[..|more| - 1] == visits;
    assert forall w | w in visits :: w in more;
    assert v in more;
  }

  /** The plans the program can follow: unless an error ends it, every observed image is visited and
      every indexed key is considered for cleanup. */
  ghost predicate PlanFits(s: Images, obs: Table, p: Plan) {
    VisitsKnown(obs, p.visits) && ListingsComplete(s, obs, p.visits) &&
    var visited := VisitAll(s, obs, p.visits);
    visited.ok ==>
      && Covers(p.visits, obs.Keys)
      && Enumerates(p.instanceOrder, visited.s.copies.Keys)
      && Enumerates(p.artifactOrder, DropInstances(visited.s, p.instanceOrder, obs.Keys).tracked.Keys)
  }

  // ---- which artifact an image gets ----

  /** The artifacts an image can be given: those with its digest if there are any, or else those with its
      display name, or else the one it had. */
  ghost function Candidates(s: Images, o: Observation): set<Uuid> {
    var sameHash := set id | id in s.artifacts && s.artifacts[id].hash == o.hash;
    var sameName := set id | id in s.artifacts && s.artifacts[id].displayName == o.displayName;
    if o.hash != "" && sameHash != {} then sameHash
    else if sameName != {} then sameName
    else set id | id in s.artifacts && id != Nil && o.key in s.tracked && s.tracked[o.key] == id
  }

  lemma {:induction false} FirstLaws(ids: seq<Uuid>, artifacts: map<Uuid, Artifact>, wanted: Artifact -> bool)
    ensures var f := First(ids, artifacts, wanted);
      && (f.Some? ==> f.value in artifacts && wanted(artifacts[f.value]))
      && (f.None? ==> forall id | id in ids && id in artifacts :: !wanted(artifacts[id]))
  {
    if ids != [] { FirstLaws(ids[1..], artifacts, wanted); }
  }

  lemma FirstOfAll(ids: seq<Uuid>, artifacts: map<Uuid, Artifact>, wanted: Artifact -> bool, matching: set<Uuid>)
    requires forall id | id in artifacts :: id in ids
    requires forall id :: id in matching <==> id in artifacts && wanted(artifacts[id])
    ensures var f := First(ids, artifacts, wanted);
      (f.Some? <==> matching != {}) && (f.Some? ==> f.value in matching)
  {
    FirstLaws(ids, artifacts, wanted);
    if matching != {} {
      var id :| id in matching;
      assert id in ids && id in artifacts;
    }
  }

  /** The lookup finds a candidate, and finds none only when there is none or listing failed. */
  lemma FindsCandidate(s: Images, o: Observation, lookup: Lookup)
    requires Complete(s, lookup)
    ensures var found := FindExisting(s, o, lookup);
      && (found.Some? <==> lookup.Listing? && Candidates(s, o) != {})
      && (found.Some? ==> found.value in Candidates(s, o))
  {
    if lookup.Listing? {
      FirstOfAll(lookup.ids, s.artifacts, a => HashIs(a, o.hash),
        set id | id in s.artifacts && s.artifacts[id].hash == o.hash);
      FirstOfAll(lookup.ids, s.artifacts, a => NameIs(a, o.displayName),
        set id | id in s.artifacts && s.artifacts[id].displayName == o.displayName);
      hide First;
      if o.key in s.tracked && s.tracked[o.key] != Nil && s.tracked[o.key] in s.artifacts {
        assert s.tracked[o.key]
          in set id | id in s.artifacts && id != Nil && o.key in s.tracked && s.tracked[o.key] == id;
      }
    }
  }

  /** Ensuring an artifact of image o led from s to t with this result. A candidate is adopted, and the
      store of artifacts stays as it is; an artifact is minted if there is none or listing failed. */
  ghost predicate Ensured(s: Images, t: Images, o: Observation, v: Visit, result: Option<Uuid>) {
    if v.lookup.Listing? && Candidates(s, o) != {} then
      && result.Some? && result.value in Candidates(s, o)
      && t == s.(tracked := s.tracked[o.key := result.value])
    else if v.artifactFails then result.None? && t == s
    else
      var artifacts := s.artifacts[ArtifactId(o.key) := Artifact(o.displayName, o.hash)];
      && result == Some(ArtifactId(o.key))
      && t == s.(tracked := s.tracked[o.key := ArtifactId(o.key)], artifacts := artifacts,
                 journal := s.journal + [Stores(artifacts, s.instances)])
  }

  lemma EnsuresCandidate(s: Images, o: Observation, v: Visit)
    requires Complete(s, v.lookup)
    ensures Ensured(s, WithArtifact(s, o, v).0, o, v, WithArtifact(s, o, v).1)
  {
    FindsCandidate(s, o, v.lookup);
    hide FindExisting, Candidates, ArtifactId;
  }

  // ---- the scan as the program runs it ----

  class ImageScanReconciler {
    const model: Model
    const index: NameIndex
    ghost var journal: seq<Stores>

    ghost function View(): Images
      reads this, model, index
    {
      Images(index.Names(KindArtifact), index.Names(KindArtifactInstance),
        model.artifacts, model.artifactInstances, model.findings, journal)
    }

    constructor (model: Model, index: NameIndex)
      ensures this.model == model && this.index == index && journal == []
    {
      this.model, this.index, journal := model, index, [];
    }

    method FindExistingArtifact(o: Observation, lookup: Lookup) returns (existing: Option<Uuid>)
      ensures existing == FindExisting(View(), o, lookup)
    {
      if lookup.ListFailed? { return None; }
      var all := lookup.ids;
      if o.hash != "" {
        for i := 0 to |all|
          invariant First(all, model.artifacts, a => HashIs(a, o.hash)) ==
            First(all[i..], model.artifacts, a => HashIs(a, o.hash))
        {
          if all[i] in model.artifacts && HashIs(model.artifacts[all[i]], o.hash) { return Some(all[i]); }
        }
      }
      for i := 0 to |all|
        invariant First(all, model.artifacts, a => NameIs(a, o.displayName)) ==
          First(all[i..], model.artifacts, a => NameIs(a, o.displayName))
      {
        if all[i] in model.artifacts && NameIs(model.artifacts[all[i]], o.displayName) { return Some(all[i]); }
      }
      var id := index.Get(KindArtifact, o.key);
      if id != Nil && id in model.artifacts { return Some(id); }
      return None;
    }

    method EnsureArtifact(o: Observation, v: Visit) returns (id: Option<Uuid>)
      modifies this`journal, model`artifacts, model`artifactInstances, model`findings, index`names
      ensures index.OnlyKinds({KindArtifact, KindArtifactInstance})
      ensures (View(), id) == WithArtifact(old(View()), o, v)
      ensures Complete(old(View()), v.lookup) ==> Ensured(old(View()), View(), o, v, id)
    {
      if Complete(View(), v.lookup) { EnsuresCandidate(View(), o, v); }
      hide Candidates, Ensured, Complete;
      var existing := FindExistingArtifact(o, v.lookup);
      if existing.Some? {
        index.Put(KindArtifact, o.key, existing.value);
        return existing;
      }
      if v.artifactFails { return None; }
      var minted := ArtifactId(o.key);
      model.artifacts := model.artifacts[minted := Artifact(o.displayName, o.hash)];
      journal := journal + [Stores(model.artifacts, model.artifactInstances)];
      index.Put(KindArtifact, o.key, minted);
      return Some(minted);
    }

    method EnsureArtifactInstance(o: Observation, artifact: Uuid)
      modifies this`journal, model`artifacts, model`artifactInstances, model`findings, index`names
      ensures index.OnlyKinds({KindArtifact, KindArtifactInstance})
      ensures View() == EnsureInstance(old(View()), o, artifact)
    {
      var id := ArtifactInstanceId(o.key);
      model.artifactInstances := model.artifactInstances[id := ArtifactInstance(o.displayName, artifact, o.locations)];
      journal := journal + [Stores(model.artifacts, model.artifactInstances)];
      index.Put(KindArtifactInstance, o.key, id);
    }

    method DeleteArtifactInstance(key: string)
      modifies this`journal, model`artifacts, model`artifactInstances, model`findings, index`names
      ensures index.OnlyKinds({KindArtifact, KindArtifactInstance})
      ensures View() == DeleteInstance(old(View()), key)
    {
      var id := index.Delete(KindArtifactInstance, key);
      if id == Nil { id := ArtifactInstanceId(key); }
      model.artifactInstances := model.artifactInstances - {id};
      journal := journal + [Stores(model.artifacts, model.artifactInstances)];
    }

    /** One turn of the loop over the observations. */
    method ReconcileImage(o: Observation, v: Visit) returns (ok: bool)
      modifies this`journal, model`artifacts, model`artifactInstances, model`findings, index`names
      ensures index.OnlyKinds({KindArtifact, KindArtifactInstance})
      ensures Outcome(View(), ok) == VisitImage(old(View()), o, v)
    {
      var id := EnsureArtifact(o, v);
      if id.None? { return false; }
      if o.started {
        if v.instanceFails { return false; }
        EnsureArtifactInstance(o, id.value);
        model.findings := model.findings - {NotRetrievedId(id.value)};
      } else {
        DeleteArtifactInstance(o.key);
        if o.pullFailed {
          model.findings := model.findings[NotRetrievedId(id.value) := NotRetrieved(id.value)];
        } else {
          model.findings := model.findings - {NotRetrievedId(id.value)};
        }
      }
      return true;
    }

    method CleanupInstances(desired: set<string>) returns (order: seq<string>)
      modifies this`journal, model`artifacts, model`artifactInstances, model`findings, index`names
      ensures index.OnlyKinds({KindArtifact, KindArtifactInstance})
      ensures Enumerates(order, old(View()).copies.Keys)
      ensures View() == DropInstances(old(View()), order, desired)
    {
      order := index.Keys(KindArtifactInstance);
      for i := 0 to |order|
        invariant index.OnlyKinds({KindArtifact, KindArtifactInstance})
        invariant View() == DropInstances(old(View()), order[..i], desired)
      {
        assert order[..i + 1][..i] == order[..i];
        if order[i] !in desired { DropStaleInstance(order[i]); }
      }
      assert order[..|order|] == order;
    }

    method DropStaleInstance(key: string)
      modifies this`journal, model`artifacts, model`artifactInstances, model`findings, index`names
      ensures index.OnlyKinds({KindArtifact, KindArtifactInstance})
      ensures View() == DropInstance(old(View()), key)
    {
      var id := index.Delete(KindArtifactInstance, key);
      if id == Nil { return; }
      model.artifactInstances := model.artifactInstances - {id};
      journal := journal + [Stores(model.artifacts, model.artifactInstances)];
    }

    method CleanupArtifacts(desired: set<string>) returns (order: seq<string>)
      modifies this`journal, model`artifacts, model`artifactInstances, model`findings, index`names
      ensures index.OnlyKinds({KindArtifact, KindArtifactInstance})
      ensures Enumerates(order, old(View()).tracked.Keys)
      ensures View() == DropArtifacts(old(View()), order, desired)
    {
      order := index.Keys(KindArtifact);
      for i := 0 to |order|
        invariant index.OnlyKinds({KindArtifact, KindArtifactInstance})
        invariant View() == DropArtifacts(old(View()), order[..i], desired)
      {
        assert order[..i + 1][..i] == order[..i];
        if order[i] !in desired { DropStaleArtifact(order[i]); }
      }
      assert order[..|order|] == order;
    }

    method DropStaleArtifact(key: string)
      modifies this`journal, model`artifacts, model`artifactInstances, model`findings, index`names
      ensures index.OnlyKinds({KindArtifact, KindArtifactInstance})
      ensures View() == DropArtifact(old(View()), key)
    {
      var id := index.Delete(KindArtifact, key);
      if id == Nil { return; }
      model.findings := model.findings - {NotRetrievedId(id)};
      if id == ArtifactId(key) {
        model.artifacts := model.artifacts - {id};
        journal := journal + [Stores(model.artifacts, model.artifactInstances)];
      }
    }

    /** What the model server answers while one image is handled. */
    method Ask(key: string) returns (v: Visit)
      ensures v.key == key
      ensures Complete(View(), v.lookup)
    {
      var listFails: bool, artifactFails: bool, instanceFails: bool := *, *, *;
      if listFails { return Visit(key, ListFailed, artifactFails, instanceFails); }
      var ids := InAnyOrder(model.artifacts.Keys);
      return Visit(key, Listing(ids), artifactFails, instanceFails);
    }

    /** The loop over the observations, in the order the map iteration picks. */
    method ReconcileImages(obs: Table) returns (ok: bool, ghost visits: seq<Visit>)
      modifies this`journal, model`artifacts, model`artifactInstances, model`findings, index`names
      ensures index.OnlyKinds({KindArtifact, KindArtifactInstance})
      ensures VisitsKnown(obs, visits) && ListingsComplete(old(View()), obs, visits)
      ensures VisitAll(old(View()), obs, visits) == Outcome(View(), ok)
      ensures ok ==> Covers(visits, obs.Keys)
    {
      hide VisitAll, VisitImage, ListingsComplete, Covers;
      visits := [];
      var todo, desired := obs.Keys, {};
      NoVisits(View(), obs);
      while todo != {}
        invariant index.OnlyKinds({KindArtifact, KindArtifactInstance})
        invariant desired == obs.Keys - todo && todo <= obs.Keys
        invariant VisitsKnown(obs, visits) && ListingsComplete(old(View()), obs, visits) && Covers(visits, desired)
        invariant VisitAll(old(View()), obs, visits) == Outcome(View(), true)
      {
        var key :| key in todo;
        var v := Ask(key);
        VisitOneMore(old(View()), obs, visits, desired, v);
        visits := visits + [v];
        var done := ReconcileImage(obs[key], v);
        if !done { return false, visits; }
        todo, desired := todo - {key}, desired + {key};
      }
      assert desired == obs.Keys;
      return true, visits;
    }

    /** One scan: it follows some fitting plan. */
    method Reconcile(pods: seq<Pod>) returns (ok: bool, ghost plan: Plan)
      modifies this`journal, model`artifacts, model`artifactInstances, model`findings, index`names
      ensures index.OnlyKinds({KindArtifact, KindArtifactInstance})
      ensures PlanFits(old(View()), Collect(pods), plan)
      ensures Outcome(View(), ok) == Scan(old(View()), Collect(pods), plan)
    {
      var table := CollectImageObservations(pods);
      var observations := table.View();
      ghost var visits;
      ok, visits := ReconcileImages(observations);
      if !ok { return false, Plan(visits, [], []); }
      var instanceOrder := CleanupInstances(observations.Keys);
      var artifactOrder := CleanupArtifacts(observations.Keys);
      return true, Plan(visits, instanceOrder, artifactOrder);
    }
  }
}
