/** The incremental scan agrees with rebuilding from scratch, and keeps references intact at every
    model write. These laws are for models whose artifacts were all minted by the sensor. */
module ImageScanLaws {
  import opened Text
  import opened Uuids
  import opened Registry
  import opened Landscape
  import opened ImageIdentity
  import opened ImageObservations
  import opened ObservationLaws
  import opened ImageScan

  // ---- derived ids can be read back ----

  function Chars(name: seq<Octet>): string {
    seq(|name|, i requires 0 <= i < |name| => if name[i].Char? then name[i].c else ' ')
  }

  /** The image key an artifact or instance id was derived from. */
  function KeyOf(id: Uuid): string {
    if id.V5? && |id.name| >= 9 then Chars(id.name[9..]) else ""
  }

  lemma KeyOfIds(key: string)
    ensures KeyOf(ArtifactId(key)) == key && KeyOf(ArtifactInstanceId(key)) == key
  {
    assert ("artifact:" + key)[9..] == key && ("instance:" + key)[9..] == key;
    assert Chars(ArtifactId(key).name[9..]) == key;
    assert Chars(ArtifactInstanceId(key).name[9..]) == key;
  }

  function FindingOf(key: string): Uuid { NotRetrievedId(ArtifactId(key)) }

  lemma FindingsOfKeys()
    ensures forall j, k :: FindingOf(j) == FindingOf(k) ==> j == k
  {
    forall j, k ensures FindingOf(j) == FindingOf(k) ==> j == k {
      ReferenceFindingIdInjective(ArtifactId(j), IMAGE_NOT_RETRIEVED, ArtifactId(k), IMAGE_NOT_RETRIEVED);
      ImageIdsInjective(j, k);
    }
  }

  // ---- the invariant ----

  ghost predicate Fits(key: string, a: Artifact) {
    ValidKey(key) && a.hash == HashOfKey(key) && NameFits(key, a.displayName)
  }

  /** The artifact store and the artifact names agree, and hold sensor-minted artifacts only. */
  ghost predicate MintedArtifacts(s: Images) {
    && (forall k | k in s.tracked ::
      s.tracked[k] == ArtifactId(k) && KeyOf(s.tracked[k]) == k && s.tracked[k] in s.artifacts)
    && (forall id | id in s.artifacts ::
      KeyOf(id) in s.tracked && id == s.tracked[KeyOf(id)] && Fits(KeyOf(id), s.artifacts[id]))
  }

  /** The instance store and the instance names agree, and every instance is of a tracked artifact. */
  ghost predicate MintedCopies(s: Images) {
    && (forall k | k in s.copies ::
      k in s.tracked && s.copies[k] == ArtifactInstanceId(k) && KeyOf(s.copies[k]) == k && s.copies[k] in s.instances)
    && (forall id | id in s.instances ::
      KeyOf(id) in s.copies && id == s.copies[KeyOf(id)] && s.instances[id].artifact == ArtifactId(KeyOf(id)))
  }

  /** A pull-failure finding on a minted artifact is on a tracked one. */
  ghost predicate MintedFindings(s: Images) {
    forall k | FindingOf(k) in s.findings :: k in s.tracked
  }

  /** Every artifact instance points at an artifact in the model. */
  ghost predicate RefsIntact(m: Stores) {
    forall id | id in m.instances :: m.instances[id].artifact in m.artifacts
  }

  ghost predicate AlwaysIntact(s: Images) {
    forall m | m in s.journal :: RefsIntact(m)
  }

  /** Holds between any two images of a scan, and between scans. */
  ghost predicate Sound(s: Images) {
    MintedArtifacts(s) && MintedCopies(s) && MintedFindings(s) && AlwaysIntact(s)
  }

  // ---- one image ----

  ghost predicate Observed(key: string, o: Observation) {
    Normal(key, o) && !(o.started && o.pullFailed)
  }

  ghost predicate AllObserved(obs: Table) {
    forall k | k in obs :: Observed(k, obs[k])
  }

  /** The state shows image o as it was observed. */
  ghost predicate Synced(s: Images, o: Observation) {
    && o.key in s.tracked
    && (o.key in s.copies <==> o.started)
    && (o.started ==>
      MapsTo(s.instances, ArtifactInstanceId(o.key), ArtifactInstance(o.displayName, ArtifactId(o.key), o.locations)))
    && (FindingOf(o.key) in s.findings <==> o.pullFailed)
    && (o.pullFailed ==> MapsTo(s.findings, FindingOf(o.key), NotRetrieved(ArtifactId(o.key))))
  }

  /** Only image `key`, its instance and its finding can differ. */
  ghost predicate SameBut(s: Images, t: Images, key: string) {
    && (forall k | k != key :: (k in s.tracked <==> k in t.tracked) && (k in s.copies <==> k in t.copies))
    && (forall id | id != ArtifactInstanceId(key) :: SameAt(s.instances, t.instances, id))
    && (forall f | f != FindingOf(key) :: SameAt(s.findings, t.findings, f))
  }

  lemma ObservedFits(key: string, o: Observation)
    requires Observed(key, o)
    ensures o.key == key && Fits(key, Artifact(o.displayName, o.hash))
  {
  }

  lemma FitsHash(key: string, a: Artifact, b: Artifact)
    requires Fits(key, a) && Fits(key, b)
    ensures a.hash == b.hash
  {
  }

  /** The lookups by hash, by display name and by index find the image's own artifact or nothing. */
  lemma ExistingIsOwn(s: Images, o: Observation, lookup: Lookup)
    requires MintedArtifacts(s) && Observed(o.key, o)
    ensures FindExisting(s, o, lookup).Some? ==>
      FindExisting(s, o, lookup).value == ArtifactId(o.key) && o.key in s.tracked
  {
    var found := FindExisting(s, o, lookup);
    if found.Some? {
      var byHash := if o.hash != "" then First(lookup.ids, s.artifacts, a => HashIs(a, o.hash)) else None;
      FirstLaws(lookup.ids, s.artifacts, a => HashIs(a, o.hash));
      FirstLaws(lookup.ids, s.artifacts, a => NameIs(a, o.displayName));
      var key := KeyOf(found.value);
      if byHash.Some? {
        HashDeterminesKey(key, o.key);
      } else if First(lookup.ids, s.artifacts, a => NameIs(a, o.displayName)).Some? {
        NameDeterminesKey(key, o.key, o.displayName);
      }
    }
  }

  lemma SoundIsIntact(s: Images)
    requires MintedArtifacts(s) && MintedCopies(s)
    ensures RefsIntact(Stores(s.artifacts, s.instances))
  {
    forall id | id in s.instances ensures s.instances[id].artifact in s.artifacts {
      assert KeyOf(id) in s.copies && KeyOf(id) in s.tracked;
    }
  }

  lemma JournalGrows(s: Images, t: Images)
    requires AlwaysIntact(s) && MintedArtifacts(t) && MintedCopies(t)
    requires t.journal == s.journal + [Stores(t.artifacts, t.instances)]
    ensures AlwaysIntact(t)
  {
    SoundIsIntact(t);
    hide MintedArtifacts, MintedCopies, RefsIntact;
  }

  // Each store by itself.

  lemma AddArtifact(s: Images, t: Images, key: string, a: Artifact)
    requires MintedArtifacts(s) && Fits(key, a)
    requires t.tracked == s.tracked[key := ArtifactId(key)] && t.artifacts == s.artifacts[ArtifactId(key) := a]
    ensures MintedArtifacts(t)
  {
    KeyOfIds(key);
    hide ArtifactId, KeyOf, Fits;
  }

  lemma RemoveArtifact(s: Images, t: Images, key: string)
    requires MintedArtifacts(s) && key in s.tracked
    requires t.tracked == s.tracked - {key} && t.artifacts == s.artifacts - {ArtifactId(key)}
    ensures MintedArtifacts(t)
  {
    hide ArtifactId, KeyOf, Fits;
  }

  lemma AddCopy(s: Images, t: Images, key: string, i: ArtifactInstance)
    requires MintedCopies(s) && key in s.tracked && i.artifact == ArtifactId(key)
    requires t.tracked == s.tracked && t.copies == s.copies[key := ArtifactInstanceId(key)]
      && t.instances == s.instances[ArtifactInstanceId(key) := i]
    ensures MintedCopies(t)
  {
    KeyOfIds(key);
    hide ArtifactId, ArtifactInstanceId, KeyOf;
  }

  lemma RemoveCopy(s: Images, t: Images, key: string)
    requires MintedCopies(s)
    requires t.tracked == s.tracked && t.copies == s.copies - {key}
      && t.instances == s.instances - {ArtifactInstanceId(key)}
    ensures MintedCopies(t)
  {
    KeyOfIds(key);
    hide ArtifactId, ArtifactInstanceId, KeyOf;
  }

  lemma ArtifactsFrame(s: Images, t: Images)
    requires MintedArtifacts(s) && t.tracked == s.tracked && t.artifacts == s.artifacts
    ensures MintedArtifacts(t)
  {
    hide ArtifactId, KeyOf, Fits;
  }

  lemma CopiesFrame(s: Images, t: Images)
    requires MintedCopies(s) && s.copies == t.copies && s.instances == t.instances && s.copies.Keys <= t.tracked.Keys
    ensures MintedCopies(t)
  {
    hide ArtifactId, ArtifactInstanceId, KeyOf;
  }

  lemma FindingsFrame(s: Images, t: Images)
    requires MintedFindings(s) && s.tracked.Keys <= t.tracked.Keys && t.findings == s.findings
    ensures MintedFindings(t)
  {
    hide FindingOf;
  }

  lemma CopiesAreTracked(s: Images)
    requires MintedCopies(s)
    ensures s.copies.Keys <= s.tracked.Keys
  {
    hide ArtifactId, ArtifactInstanceId, KeyOf;
  }

  // The writes of a scan.

  lemma MintLaws(s: Images, key: string, a: Artifact)
    requires Sound(s) && Fits(key, a)
    ensures Sound(s.(tracked := s.tracked[key := ArtifactId(key)]).WriteArtifacts(s.artifacts[ArtifactId(key) := a]))
  {
    hide ArtifactId, Fits, AlwaysIntact, MintedArtifacts, MintedCopies, MintedFindings;
    var t := s.(tracked := s.tracked[key := ArtifactId(key)]).WriteArtifacts(s.artifacts[ArtifactId(key) := a]);
    CopiesAreTracked(s);
    AddArtifact(s, t, key, a);
    CopiesFrame(s, t);
    FindingsFrame(s, t);
    JournalGrows(s, t);
  }

  lemma EnsureInstanceLaws(s: Images, o: Observation)
    requires Sound(s) && o.key in s.tracked
    ensures var t := EnsureInstance(s, o, ArtifactId(o.key));
      Sound(t) && SameBut(s, t, o.key) && t.tracked == s.tracked && o.key in t.copies
  {
    hide ArtifactId, ArtifactInstanceId, FindingOf, AlwaysIntact, MintedArtifacts, MintedCopies, MintedFindings;
    var t := EnsureInstance(s, o, ArtifactId(o.key));
    ArtifactsFrame(s, t);
    AddCopy(s, t, o.key, ArtifactInstance(o.displayName, ArtifactId(o.key), o.locations));
    FindingsFrame(s, t);
    JournalGrows(s, t);
  }

  /** Deleting an instance together with its name. */
  lemma WithoutInstanceLaws(s: Images, key: string)
    requires Sound(s)
    ensures var t := s.(copies := s.copies - {key}).WriteInstances(s.instances - {ArtifactInstanceId(key)});
      Sound(t) && SameBut(s, t, key)
  {
    hide ArtifactId, ArtifactInstanceId, FindingOf, AlwaysIntact, MintedArtifacts, MintedCopies, MintedFindings;
    var t := s.(copies := s.copies - {key}).WriteInstances(s.instances - {ArtifactInstanceId(key)});
    ArtifactsFrame(s, t);
    RemoveCopy(s, t, key);
    FindingsFrame(s, t);
    JournalGrows(s, t);
  }

  /** Deleting an artifact together with its name and finding, once its instance is gone. */
  lemma DropTracked(s: Images, key: string)
    requires Sound(s) && key !in s.copies && key in s.tracked
    ensures var s1 := s.(tracked := s.tracked - {key}, findings := s.findings - {FindingOf(key)});
      var t := s1.WriteArtifacts(s.artifacts - {ArtifactId(key)});
      Sound(t) && SameBut(s, t, key)
  {
    hide ArtifactId, ArtifactInstanceId, FindingOf, AlwaysIntact, MintedArtifacts, MintedCopies;
    var s1 := s.(tracked := s.tracked - {key}, findings := s.findings - {FindingOf(key)});
    var t := s1.WriteArtifacts(s.artifacts - {ArtifactId(key)});
    CopiesAreTracked(s);
    RemoveArtifact(s, t, key);
    CopiesFrame(s, t);
    assert MintedFindings(t);
    JournalGrows(s, t);
  }

  lemma WithArtifactLaws(s: Images, o: Observation, v: Visit)
    requires Sound(s) && Observed(o.key, o)
    ensures var (t, id) := WithArtifact(s, o, v);
      && Sound(t) && SameBut(s, t, o.key)
      && (id.Some? ==> id.value == ArtifactId(o.key) && o.key in t.tracked)
  {
    hide ArtifactId, ArtifactInstanceId, FindingOf, KeyOf, MintedCopies, MintedFindings, AlwaysIntact, FindExisting,
        Observed, Fits;
    ExistingIsOwn(s, o, v.lookup);
    ObservedFits(o.key, o);
    hide SameBut, MintedArtifacts;
    var found := FindExisting(s, o, v.lookup);
    if found.Some? {
      TrackedIsMinted(s, o.key);
      assert s.tracked[o.key := found.value] == s.tracked;
      SameButItself(s, o.key);
    } else if v.artifactFails {
      SameButItself(s, o.key);
    } else {
      MintLaws(s, o.key, Artifact(o.displayName, o.hash));
      MintIsLocal(s, o.key, Artifact(o.displayName, o.hash));
    }
  }

  lemma TrackedIsMinted(s: Images, key: string)
    requires MintedArtifacts(s) && key in s.tracked
    ensures s.tracked[key] == ArtifactId(key)
  {
  }

  lemma MintIsLocal(s: Images, key: string, a: Artifact)
    ensures var t := s.(tracked := s.tracked[key := ArtifactId(key)]);
      SameBut(s, t.WriteArtifacts(s.artifacts[ArtifactId(key) := a]), key)
  {
    hide ArtifactId, ArtifactInstanceId, FindingOf;
  }

  lemma DeleteInstanceLaws(s: Images, key: string)
    requires Sound(s)
    ensures var t := DeleteInstance(s, key);
      Sound(t) && SameBut(s, t, key) && t.tracked == s.tracked && key !in t.copies
  {
    hide ArtifactInstanceId, SameBut, MintedArtifacts, MintedFindings, AlwaysIntact;
    WithoutInstanceLaws(s, key);
  }

  lemma SetFindingLaws(s: Images, key: string, findings: map<Uuid, Finding>)
    requires Sound(s) && key in s.tracked
    requires forall f | f != FindingOf(key) :: SameAt(s.findings, findings, f)
    ensures Sound(s.(findings := findings)) && SameBut(s, s.(findings := findings), key)
  {
    FindingsOfKeys();
    hide ArtifactId, ArtifactInstanceId, FindingOf, KeyOf, Fits;
    var t := s.(findings := findings);
    assert MintedArtifacts(t) && MintedCopies(t) && AlwaysIntact(t);
    forall k | FindingOf(k) in findings ensures k in s.tracked {
      if k != key { assert FindingOf(k) != FindingOf(key) && SameAt(s.findings, findings, FindingOf(k)); }
    }
  }

  lemma SameButIsTransitive(s: Images, t: Images, u: Images, key: string)
    requires SameBut(s, t, key) && SameBut(t, u, key)
    ensures SameBut(s, u, key)
  {
    hide ArtifactInstanceId, FindingOf;
    forall id | id != ArtifactInstanceId(key) ensures SameAt(s.instances, u.instances, id) {
      assert SameAt(s.instances, t.instances, id) && SameAt(t.instances, u.instances, id);
    }
    forall f | f != FindingOf(key) ensures SameAt(s.findings, u.findings, f) {
      assert SameAt(s.findings, t.findings, f) && SameAt(t.findings, u.findings, f);
    }
  }

  /** The instance and finding part of one turn, once the artifact is ensured. */
  lemma RestOfVisitLaws(s: Images, o: Observation)
    requires Sound(s) && Observed(o.key, o) && o.key in s.tracked
    ensures var s2 := if o.started then EnsureInstance(s, o, ArtifactId(o.key)) else DeleteInstance(s, o.key);
      var t := s2.(findings := if o.pullFailed then s2.findings[FindingOf(o.key) := NotRetrieved(ArtifactId(o.key))]
                               else s2.findings - {FindingOf(o.key)});
      Sound(t) && SameBut(s, t, o.key) && Synced(t, o)
  {
    hide ArtifactId, ArtifactInstanceId, FindingOf, KeyOf, Fits;
    var s2 := if o.started then EnsureInstance(s, o, ArtifactId(o.key)) else DeleteInstance(s, o.key);
    if o.started { EnsureInstanceLaws(s, o); } else { DeleteInstanceLaws(s, o.key); }
    var findings := if o.pullFailed then s2.findings[FindingOf(o.key) := NotRetrieved(ArtifactId(o.key))]
                    else s2.findings - {FindingOf(o.key)};
    SetFindingLaws(s2, o.key, findings);
    SameButIsTransitive(s, s2, s2.(findings := findings), o.key);
  }

  /** Handling one image keeps the invariant, even when it fails; it touches nothing of any other
      image, and on success the state shows the image as observed. */
  lemma VisitLaws(s: Images, o: Observation, v: Visit)
    requires Sound(s) && Observed(o.key, o)
    ensures var r := VisitImage(s, o, v);
      Sound(r.s) && SameBut(s, r.s, o.key) && (r.ok ==> Synced(r.s, o))
  {
    hide ArtifactId, ArtifactInstanceId, NotRetrievedId, KeyOf, Fits, WithArtifact, EnsureInstance, DeleteInstance,
        Sound, SameBut, Synced;
    WithArtifactLaws(s, o, v);
    var (s1, found) := WithArtifact(s, o, v);
    var r := VisitImage(s, o, v);
    if found.Some? && r.ok {
      RestOfVisitLaws(s1, o);
      SameButIsTransitive(s, s1, r.s, o.key);
    }
  }

  // ---- a whole scan ----

  /** Findings that are not pull failures of image artifacts are as before. */
  ghost predicate OtherFindingsKept(s: Images, t: Images) {
    forall f | (forall k :: f != FindingOf(k)) :: SameAt(s.findings, t.findings, f)
  }

  /** The images in `keys` are shown as observed. */
  ghost predicate AllSynced(s: Images, obs: Table, keys: set<string>)
    requires keys <= obs.Keys
  {
    forall k | k in keys :: Synced(s, obs[k])
  }

  lemma SyncedElsewhere(s: Images, t: Images, key: string, o: Observation)
    requires SameBut(s, t, key) && Synced(s, o) && o.key != key
    ensures Synced(t, o)
  {
    ImageIdsInjective(o.key, key);
    FindingsOfKeys();
    hide ArtifactId, ArtifactInstanceId, FindingOf, KeyOf;
    assert FindingOf(o.key) != FindingOf(key);
    assert SameAt(s.instances, t.instances, ArtifactInstanceId(o.key));
    assert SameAt(s.findings, t.findings, FindingOf(o.key));
  }

  function KeysOf(visits: seq<Visit>): set<string> {
    set v | v in visits :: v.key
  }

  /** Visiting images keeps the invariant at every point, and syncs exactly the visited images. */
  lemma {:induction false} VisitAllLaws(s: Images, obs: Table, visits: seq<Visit>)
    requires Sound(s) && AllObserved(obs) && VisitsKnown(obs, visits)
    ensures var r := VisitAll(s, obs, visits);
      Sound(r.s) && OtherFindingsKept(s, r.s) && (r.ok ==> AllSynced(r.s, obs, KeysOf(visits)))
  {
    hide Sound, SameBut, Synced, VisitImage, FindingOf, Normal;
    if visits != [] {
      var n := |visits| - 1;
      VisitAllLaws(s, obs, visits[..n]);
      var before := VisitAll(s, obs, visits[..n]);
      if before.ok {
        var v := visits[n];
        var o, t := obs[v.key], VisitImage(before.s, obs[v.key], v).s;
        ObservedFits(v.key, o);
        VisitLaws(before.s, o, v);
        OthersKept(s, before.s, t, v.key);
        forall k | k in KeysOf(visits) && k != v.key && VisitAll(s, obs, visits).ok ensures Synced(t, obs[k]) {
          assert exists w :: w in visits[..n] && w.key == k;
          ObservedFits(k, obs[k]);
          SyncedElsewhere(before.s, t, v.key, obs[k]);
        }
      }
    }
  }

  lemma OthersKept(s: Images, t: Images, u: Images, key: string)
    requires OtherFindingsKept(s, t) && SameBut(t, u, key)
    ensures OtherFindingsKept(s, u)
  {
    hide ArtifactInstanceId, FindingOf;
    forall f | forall k :: f != FindingOf(k) ensures SameAt(s.findings, u.findings, f) {
      assert f != FindingOf(key);
      assert SameAt(s.findings, t.findings, f) && SameAt(t.findings, u.findings, f);
    }
  }

  lemma DropInstanceLaws(s: Images, key: string)
    requires Sound(s)
    ensures var t := DropInstance(s, key);
      Sound(t) && SameBut(s, t, key) && t.tracked == s.tracked && t.copies == s.copies - {key}
  {
    MintedIdsAreSet(key);
    hide ArtifactInstanceId, SameBut, MintedArtifacts, MintedFindings, AlwaysIntact;
    if key in s.copies {
      WithoutInstanceLaws(s, key);
    } else {
      assert s.copies - {key} == s.copies;
      SameButItself(s, key);
    }
  }

  /** Dropping a stale artifact is safe once its instance is gone. */
  lemma DropArtifactLaws(s: Images, key: string)
    requires Sound(s) && key !in s.copies
    ensures var t := DropArtifact(s, key);
      Sound(t) && SameBut(s, t, key) && t.tracked == s.tracked - {key} && t.copies == s.copies
  {
    hide ArtifactId, KeyOf, Fits, SameBut;
    if key in s.tracked {
      assert s.tracked[key] != Nil by { MintedIdsAreSet(key); }
      DropTracked(s, key);
    } else {
      assert s.tracked - {key} == s.tracked;
      SameButItself(s, key);
    }
  }

  lemma SameButItself(s: Images, key: string)
    ensures SameBut(s, s, key)
  {
  }

  lemma MintedIdsAreSet(key: string)
    ensures ArtifactId(key) != Nil && ArtifactInstanceId(key) != Nil
  {
  }

  lemma {:induction false} DropInstancesLaws(s: Images, keys: seq<string>, desired: set<string>)
    requires Sound(s)
    ensures var t := DropInstances(s, keys, desired);
      && Sound(t) && t.tracked == s.tracked && SameOn(s, t, desired)
      && t.copies.Keys == s.copies.Keys - ((set k | k in keys) - desired)
  {
    hide Sound, SameBut, DropInstance, FindingOf;
    if keys == [] {
      SameOnItself(s, desired);
    } else {
      var n := |keys| - 1;
      DropInstancesLaws(s, keys[..n], desired);
      var mid := DropInstances(s, keys[..n], desired);
      assert forall k | k in keys :: k in keys[..n] || k == keys[n];
      if keys[n] !in desired {
        DropInstanceLaws(mid, keys[n]);
        SameOnStep(s, mid, DropInstance(mid, keys[n]), keys[n], desired);
      }
    }
  }

  lemma {:induction false} DropArtifactsLaws(s: Images, keys: seq<string>, desired: set<string>)
    requires Sound(s) && s.copies.Keys <= desired
    ensures var t := DropArtifacts(s, keys, desired);
      && Sound(t) && t.copies == s.copies && SameOn(s, t, desired)
      && t.tracked.Keys == s.tracked.Keys - ((set k | k in keys) - desired)
  {
    hide Sound, SameBut, DropArtifact, FindingOf;
    if keys == [] {
      SameOnItself(s, desired);
    } else {
      var n := |keys| - 1;
      DropArtifactsLaws(s, keys[..n], desired);
      var mid := DropArtifacts(s, keys[..n], desired);
      assert forall k | k in keys :: k in keys[..n] || k == keys[n];
      if keys[n] !in desired {
        DropArtifactLaws(mid, keys[n]);
        SameOnStep(s, mid, DropArtifact(mid, keys[n]), keys[n], desired);
      }
    }
  }

  /** Everything about the images in `keys`, and every other finding, is the same. */
  ghost predicate SameOn(s: Images, t: Images, keys: set<string>) {
    && (forall k | k in keys :: (k in s.tracked <==> k in t.tracked) && (k in s.copies <==> k in t.copies)
          && SameAt(s.instances, t.instances, ArtifactInstanceId(k)) && SameAt(s.findings, t.findings, FindingOf(k)))
    && OtherFindingsKept(s, t)
  }

  lemma SameOnItself(s: Images, keys: set<string>)
    ensures SameOn(s, s, keys)
  {
  }

  lemma SameOnStep(s: Images, t: Images, u: Images, key: string, keys: set<string>)
    requires SameOn(s, t, keys) && SameBut(t, u, key) && key !in keys
    ensures SameOn(s, u, keys)
  {
    FindingsOfKeys();
    hide ArtifactId, ArtifactInstanceId, FindingOf, KeyOf, OtherFindingsKept;
    OthersKept(s, t, u, key);
    forall k | k in keys
      ensures SameAt(s.instances, u.instances, ArtifactInstanceId(k)) && SameAt(s.findings, u.findings, FindingOf(k))
    {
      ImageIdsInjective(k, key);
      assert FindingOf(k) != FindingOf(key);
      assert SameAt(s.instances, t.instances, ArtifactInstanceId(k))
        && SameAt(t.instances, u.instances, ArtifactInstanceId(k));
      assert SameAt(s.findings, t.findings, FindingOf(k)) && SameAt(t.findings, u.findings, FindingOf(k));
    }
  }

  lemma SameOnSynced(s: Images, t: Images, keys: set<string>, o: Observation)
    requires SameOn(s, t, keys) && o.key in keys && Synced(s, o)
    ensures Synced(t, o)
  {
    hide ArtifactId, ArtifactInstanceId, FindingOf;
  }

  // ---- rebuilding from scratch ----

  /** The state a rebuild from scratch would produce for these observations: an artifact for every
      image, an instance for every started one, a finding for every failed pull, and nothing else. */
  ghost predicate Rebuilt(s: Images, obs: Table) {
    RebuiltArtifacts(s, obs) && RebuiltInstances(s, obs) && RebuiltFindings(s, obs)
  }

  ghost predicate RebuiltArtifacts(s: Images, obs: Table) {
    && s.tracked.Keys == obs.Keys
    && (forall id :: id in s.artifacts <==> exists k :: k in obs && id == ArtifactId(k))
    && (forall k | k in obs ::
          s.tracked[k] == ArtifactId(k) && ArtifactId(k) in s.artifacts
            && s.artifacts[ArtifactId(k)].hash == obs[k].hash)
  }

  ghost predicate RebuiltInstances(s: Images, obs: Table) {
    && s.copies.Keys == (set k | k in obs && obs[k].started)
    && (forall id :: id in s.instances <==> exists k :: k in obs && obs[k].started && id == ArtifactInstanceId(k))
    && (forall k | k in s.copies :: s.copies[k] == ArtifactInstanceId(k)
          && MapsTo(s.instances, ArtifactInstanceId(k),
            ArtifactInstance(obs[k].displayName, ArtifactId(k), obs[k].locations)))
  }

  ghost predicate RebuiltFindings(s: Images, obs: Table) {
    && (forall k :: FindingOf(k) in s.findings <==> k in obs && obs[k].pullFailed)
    && (forall k | k in obs && obs[k].pullFailed :: MapsTo(s.findings, FindingOf(k),
          Finding(OfKind(IMAGE_NOT_RETRIEVED), [ResourceRef(ArtifactId(k), ArtifactResource)])))
  }

  lemma SyncedArtifacts(s: Images, obs: Table)
    requires MintedArtifacts(s) && AllObserved(obs) && s.tracked.Keys == obs.Keys
    ensures RebuiltArtifacts(s, obs)
  {
    hide ArtifactId, KeyOf, Fits, Observed;
    forall id | id in s.artifacts ensures exists k :: k in obs && id == ArtifactId(k) {
      assert KeyOf(id) in obs && id == ArtifactId(KeyOf(id));
    }
    forall k | k in obs ensures s.tracked[k] == ArtifactId(k) && ArtifactId(k) in s.artifacts
      && s.artifacts[ArtifactId(k)].hash == obs[k].hash {
      assert k in s.tracked && KeyOf(ArtifactId(k)) == k;
      ObservedFits(k, obs[k]);
      FitsHash(k, s.artifacts[ArtifactId(k)], Artifact(obs[k].displayName, obs[k].hash));
    }
  }

  lemma SyncedInstances(s: Images, obs: Table)
    requires MintedCopies(s) && s.copies.Keys <= obs.Keys
    requires forall k | k in obs :: obs[k].key == k && Synced(s, obs[k])
    ensures RebuiltInstances(s, obs)
  {
    hide ArtifactId, ArtifactInstanceId, FindingOf, KeyOf;
    forall id | id in s.instances ensures exists k :: k in obs && obs[k].started && id == ArtifactInstanceId(k) {
      assert KeyOf(id) in obs && id == ArtifactInstanceId(KeyOf(id));
    }
  }

  lemma SyncedFindings(s: Images, obs: Table)
    requires MintedFindings(s) && s.tracked.Keys == obs.Keys
    requires forall k | k in obs :: obs[k].key == k && Synced(s, obs[k])
    ensures RebuiltFindings(s, obs)
  {
    hide ArtifactId, ArtifactInstanceId, FindingOf;
    assert forall k | k in obs :: Synced(s, obs[k]);
  }

  /** Cleanup after all images are synced leaves nothing but the observed images. */
  lemma CleanupRebuilds(s: Images, obs: Table, instanceOrder: seq<string>, artifactOrder: seq<string>)
    requires Sound(s) && AllObserved(obs) && AllSynced(s, obs, obs.Keys)
    requires Enumerates(instanceOrder, s.copies.Keys)
    requires Enumerates(artifactOrder, DropInstances(s, instanceOrder, obs.Keys).tracked.Keys)
    ensures var u := DropArtifacts(DropInstances(s, instanceOrder, obs.Keys), artifactOrder, obs.Keys);
      Sound(u) && OtherFindingsKept(s, u) && Rebuilt(u, obs)
  {
    var t := DropInstances(s, instanceOrder, obs.Keys);
    var u := DropArtifacts(t, artifactOrder, obs.Keys);
    hide Synced, MintedArtifacts, MintedCopies, MintedFindings, AlwaysIntact, RebuiltArtifacts, RebuiltInstances,
        RebuiltFindings, FindingOf, DropInstances, DropArtifacts, Normal;
    DropInstancesLaws(s, instanceOrder, obs.Keys);
    DropArtifactsLaws(t, artifactOrder, obs.Keys);
    forall k | k in obs ensures obs[k].key == k && Synced(u, obs[k]) && k in u.tracked {
      ObservedFits(k, obs[k]);
      SameOnSynced(s, t, obs.Keys, obs[k]);
      SameOnSynced(t, u, obs.Keys, obs[k]);
      SyncedIsTracked(u, obs[k]);
    }
    SyncedArtifacts(u, obs);
    SyncedInstances(u, obs);
    SyncedFindings(u, obs);
    OthersKeptTwice(s, t, u);
  }

  /** One scan of any pods, however it goes, keeps the invariant and every other finding; if it
      succeeds the state is the one a rebuild from scratch would produce. */
  lemma ScanRefinesRebuild(s: Images, pods: seq<Pod>, p: Plan)
    requires Sound(s) && PlanFits(s, Collect(pods), p)
    ensures var r := Scan(s, Collect(pods), p);
      Sound(r.s) && OtherFindingsKept(s, r.s) && (r.ok ==> Rebuilt(r.s, Collect(pods)))
  {
    var obs := Collect(pods);
    CollectIsNormal(pods);
    hide Sound, Synced, Rebuilt, VisitAll, Normal, FindingOf, Collect, DropInstances, DropArtifacts,
        OtherFindingsKept, Enumerates;
    VisitAllLaws(s, obs, p.visits);
    var visited := VisitAll(s, obs, p.visits);
    if visited.ok {
      assert KeysOf(p.visits) == obs.Keys;
      CleanupRebuilds(visited.s, obs, p.instanceOrder, p.artifactOrder);
      OthersKeptTwice(s, visited.s, Scan(s, obs, p).s);
    }
  }

  lemma SyncedIsTracked(s: Images, o: Observation)
    requires Synced(s, o)
    ensures o.key in s.tracked
  {
  }

  lemma OthersKeptTwice(s: Images, t: Images, u: Images)
    requires OtherFindingsKept(s, t) && OtherFindingsKept(t, u)
    ensures OtherFindingsKept(s, u)
  {
    hide FindingOf;
    forall f | forall k :: f != FindingOf(k) ensures SameAt(s.findings, u.findings, f) {
      assert SameAt(s.findings, t.findings, f) && SameAt(t.findings, u.findings, f);
    }
  }

  /** Scanning incrementally from any sound state and scanning from nothing give the same names, the
      same artifact ids and hashes, the same instances and the same pull-failure findings, whatever
      the two iteration orders. */
  lemma IncrementalEqualsFresh(s: Images, pods: seq<Pod>, p: Plan, q: Plan)
    requires Sound(s) && PlanFits(s, Collect(pods), p) && PlanFits(NOTHING, Collect(pods), q)
    requires Scan(s, Collect(pods), p).ok && Scan(NOTHING, Collect(pods), q).ok
    ensures var a, b := Scan(s, Collect(pods), p).s, Scan(NOTHING, Collect(pods), q).s;
      && a.tracked == b.tracked && a.copies == b.copies && a.instances == b.instances
      && a.artifacts.Keys == b.artifacts.Keys
      && (forall id | id in a.artifacts :: a.artifacts[id].hash == b.artifacts[id].hash)
      && (forall k :: SameAt(a.findings, b.findings, FindingOf(k)))
  {
    NothingIsSound();
    ScanRefinesRebuild(s, pods, p);
    ScanRefinesRebuild(NOTHING, pods, q);
    hide Sound, PlanFits, Scan, Collect;
    RebuiltAgree(Scan(s, Collect(pods), p).s, Scan(NOTHING, Collect(pods), q).s, Collect(pods));
  }

  const NOTHING := Images(map[], map[], map[], map[], map[], [])

  lemma NothingIsSound()
    ensures Sound(NOTHING)
  {
  }

  lemma RebuiltAgree(a: Images, b: Images, obs: Table)
    requires Rebuilt(a, obs) && Rebuilt(b, obs)
    ensures a.tracked == b.tracked && a.copies == b.copies && a.instances == b.instances
    ensures a.artifacts.Keys == b.artifacts.Keys
    ensures forall id | id in a.artifacts :: a.artifacts[id].hash == b.artifacts[id].hash
    ensures forall k :: SameAt(a.findings, b.findings, FindingOf(k))
  {
    hide RebuiltArtifacts, RebuiltInstances, RebuiltFindings, FindingOf;
    ArtifactsAgree(a, b, obs);
    InstancesAgree(a, b, obs);
    FindingsAgree(a, b, obs);
  }

  lemma ArtifactsAgree(a: Images, b: Images, obs: Table)
    requires RebuiltArtifacts(a, obs) && RebuiltArtifacts(b, obs)
    ensures a.tracked == b.tracked && a.artifacts.Keys == b.artifacts.Keys
    ensures forall id | id in a.artifacts :: a.artifacts[id].hash == b.artifacts[id].hash
  {
    hide ArtifactId;
    forall id | id in a.artifacts ensures a.artifacts[id].hash == b.artifacts[id].hash {
      var k :| k in obs && id == ArtifactId(k);
    }
  }

  lemma InstancesAgree(a: Images, b: Images, obs: Table)
    requires RebuiltInstances(a, obs) && RebuiltInstances(b, obs)
    ensures a.copies == b.copies && a.instances == b.instances
  {
    hide ArtifactId, ArtifactInstanceId;
    assert a.copies == b.copies;
    assert a.instances.Keys == b.instances.Keys;
    forall id | id in a.instances ensures a.instances[id] == b.instances[id] {
      var k :| k in obs && obs[k].started && id == ArtifactInstanceId(k);
      assert k in a.copies && k in b.copies;
    }
  }

  lemma FindingsAgree(a: Images, b: Images, obs: Table)
    requires RebuiltFindings(a, obs) && RebuiltFindings(b, obs)
    ensures forall k :: SameAt(a.findings, b.findings, FindingOf(k))
  {
    hide ArtifactId, FindingOf;
    forall k ensures SameAt(a.findings, b.findings, FindingOf(k)) {
      if FindingOf(k) in a.findings { assert k in obs && obs[k].pullFailed; }
    }
  }

  // ---- runs ----

  /** A scan, or a change of other findings by the other reconcilers. */
  datatype Event = Scanned(pods: seq<Pod>, plan: Plan) | Elsewhere(findings: map<Uuid, Finding>)

  ghost predicate Possible(s: Images, e: Event) {
    match e
    case Scanned(pods, plan) => PlanFits(s, Collect(pods), plan)
    case Elsewhere(findings) => forall k :: SameAt(s.findings, findings, FindingOf(k))
  }

  function After(s: Images, e: Event): Outcome
    requires e.Scanned? ==> forall v | v in e.plan.visits :: v.key in Collect(e.pods)
  {
    match e
    case Scanned(pods, plan) => Scan(s, Collect(pods), plan)
    case Elsewhere(findings) => Outcome(s.(findings := findings), true)
  }

  ghost predicate IsRun(run: seq<Event>, states: seq<Images>) {
    && |states| == |run| + 1
    && forall i | 0 <= i < |run| :: Possible(states[i], run[i]) && After(states[i], run[i]).s == states[i + 1]
  }

  /** Every run from nothing, with any number of scans that fail midway: the invariant holds after
      every event, references were intact at every single write of a store, and every scan that
      succeeded left the state a rebuild from scratch would have produced. */
  lemma {:induction false} RunsRefineRebuild(run: seq<Event>, states: seq<Images>, i: nat)
    requires IsRun(run, states) && states[0] == NOTHING && i <= |run|
    ensures Sound(states[i])
    ensures forall m | m in states[i].journal :: RefsIntact(m)
    ensures i > 0 && run[i - 1].Scanned? && After(states[i - 1], run[i - 1]).ok ==>
      Rebuilt(states[i], Collect(run[i - 1].pods))
    decreases i
  {
    if i == 0 {
      NothingIsSound();
    } else {
      RunsRefineRebuild(run, states, i - 1);
      var s, e := states[i - 1], run[i - 1];
      assert Possible(s, e) && After(s, e).s == states[i];
      if e.Scanned? {
        ScanRefinesRebuild(s, e.pods, e.plan);
      } else {
        ElsewhereKeepsSound(s, e.findings);
      }
    }
  }

  lemma ElsewhereKeepsSound(s: Images, findings: map<Uuid, Finding>)
    requires Sound(s) && forall k :: SameAt(s.findings, findings, FindingOf(k))
    ensures Sound(s.(findings := findings))
  {
    hide ArtifactId, ArtifactInstanceId, FindingOf, KeyOf, Fits;
    var t := s.(findings := findings);
    ArtifactsFrame(s, t);
    CopiesAreTracked(s);
    CopiesFrame(s, t);
  }
}
