/** What the observation fold guarantees for every list of pods. */
module ObservationLaws {
  import opened Text
  import opened ImageIdentity
  import opened ImageObservations

  ghost predicate NoDuplicates(list: seq<string>) {
    "" !in list && forall i, j | 0 <= i < j < |list| :: list[i] != list[j]
  }

  /** The normal form every entry has while the fold runs. */
  ghost predicate Normal(key: string, o: Observation) {
    && o.key == key && ValidKey(key) && o.hash == HashOfKey(key) && NameFits(key, o.displayName)
    && (o.started <==> o.locations != [])
    && (o.pullFailed <==> o.failingPods != [])
    && NoDuplicates(o.locations) && NoDuplicates(o.failingPods)
  }

  ghost predicate AllNormal(t: Table) {
    forall k | k in t :: Normal(k, t[k])
  }

  /** A piece of evidence: a location of a started copy, or a pod that fails to pull. */
  datatype Evidence = At(location: string) | Fails(podKey: string)

  ghost predicate Holds(o: Observation, e: Evidence) {
    match e case At(l) => l in o.locations case Fails(p) => p in o.failingPods
  }

  ghost predicate Recorded(t: Table, e: Evidence) {
    exists k :: k in t && Holds(t[k], e)
  }

  /** The image was pulled and the container has run. */
  ghost predicate HasRun(cs: ContainerStatus) { cs.imageId != "" && (cs.running || cs.terminated) }

  /** The container waits because its image cannot be pulled. */
  ghost predicate CannotPull(cs: ContainerStatus) {
    cs.waiting in [Some("ErrImagePull"), Some("ImagePullBackOff"), Some("InvalidImageName")]
  }

  /** The evidence a container status gives about nodes and failing pods. */
  ghost predicate StatusGives(pod: Pod, cs: ContainerStatus, e: Evidence) {
    IdentityFromImage(cs.image, cs.imageId).key != "" &&
    match e
    case At(l) => HasRun(cs) && pod.nodeName != "" && l == "node://" + pod.nodeName
    case Fails(p) => CannotPull(cs) && p == pod.namespace + "/" + pod.name
  }

  ghost predicate SomeGives(pod: Pod, css: seq<ContainerStatus>, e: Evidence) {
    exists j :: 0 <= j < |css| && StatusGives(pod, css[j], e)
  }

  ghost predicate PodGives(pod: Pod, e: Evidence) {
    SomeGives(pod, pod.containerStatuses + pod.initContainerStatuses + pod.ephemeralContainerStatuses, e)
  }

  /** Some status of some pod gives the evidence. */
  ghost predicate PodsGive(pods: seq<Pod>, e: Evidence) {
    exists i :: 0 <= i < |pods| && PodGives(pods[i], e)
  }

  /** Evidence about nodes and failing pods; the oci:// locations are left aside. */
  ghost predicate Traced(e: Evidence) {
    match e case At(l) => HasPrefix(l, "node://") case Fails(p) => p != ""
  }

  lemma UniqueLaws(list: seq<string>, value: string)
    ensures forall v | v != "" :: v in Unique(list, value) <==> v in list || v == value
    ensures NoDuplicates(list) ==> NoDuplicates(Unique(list, value))
    ensures value != "" ==> Unique(list, value) != []
    ensures list != [] ==> Unique(list, value) != []
  {
  }

  lemma {:induction false} UniqueAllLaws(list: seq<string>, values: seq<string>)
    ensures forall v | v != "" :: v in UniqueAll(list, values) <==> v in list || v in values
    ensures NoDuplicates(list) ==> NoDuplicates(UniqueAll(list, values))
    ensures list != [] || (values != [] && "" !in values) ==> UniqueAll(list, values) != []
    ensures list == values == [] ==> UniqueAll(list, values) == []
  {
    if values != [] {
      var n := |values| - 1;
      UniqueAllLaws(list, values[..n]);
      UniqueLaws(UniqueAll(list, values[..n]), values[n]);
      assert values == values[..n] + [values[n]];
    }
  }

  /** Registering an image changes nothing that is already there: on normal tables the late upgrade
      of hash and display name never happens. */
  lemma EnsureLaws(t: Table, ref: string, imageId: string, e: Evidence)
    requires AllNormal(t)
    ensures var id := IdentityFromImage(ref, imageId);
      Ensure(t, id) == (if id.key in t then t else t[id.key := New(id)])
    ensures var t1 := Ensure(t, IdentityFromImage(ref, imageId));
      AllNormal(t1) && (Recorded(t1, e) <==> Recorded(t, e))
  {
    IdentityIsCanonical(ref, imageId);
    hide IdentityFromImage, ValidKey, NameFits, HashOfKey;
    var id := IdentityFromImage(ref, imageId);
    var t1 := Ensure(t, id);
    if Recorded(t, e) {
      var k :| k in t && Holds(t[k], e);
      assert k in t1 && Holds(t1[k], e);
    }
    if Recorded(t1, e) {
      var k :| k in t1 && Holds(t1[k], e);
      assert k in t && Holds(t[k], e);
    }
  }

  /** Merging a tag entry into a digest entry keeps the normal form and all evidence. */
  lemma MergeLaws(t: Table, key: string, tagKey: string, e: Evidence)
    requires AllNormal(t) && key in t && Traced(e)
    ensures var t1 := MergeTag(t, key, tagKey);
      AllNormal(t1) && key in t1 && (Recorded(t1, e) <==> Recorded(t, e))
  {
    hide ValidKey, NameFits, HashOfKey, UniqueAll;
    if tagKey != "" && tagKey != key && tagKey in t {
      var o, prev, t1 := t[key], t[tagKey], MergeTag(t, key, tagKey);
      UniqueAllLaws(o.locations, prev.locations);
      UniqueAllLaws(o.failingPods, prev.failingPods);
      assert Holds(t1[key], e) <==> Holds(o, e) || Holds(prev, e);
      if Recorded(t, e) {
        var k :| k in t && Holds(t[k], e);
        assert Holds(t1[if k == tagKey then key else k], e);
      }
      if Recorded(t1, e) {
        var k :| k in t1 && Holds(t1[k], e);
        assert Holds(t[if k != key || Holds(o, e) then k else tagKey], e);
      }
    }
  }

  lemma MarkLaws(key: string, o: Observation, pod: Pod, cs: ContainerStatus, e: Evidence)
    requires Normal(key, o) && Traced(e) && IdentityFromImage(cs.image, cs.imageId).key != ""
    ensures Normal(key, Mark(o, pod, cs))
    ensures Holds(Mark(o, pod, cs), e) <==> Holds(o, e) || StatusGives(pod, cs, e)
  {
    hide ValidKey, NameFits, HashOfKey, IdentityFromImage, Unique;
    var oci, node := "oci://" + o.displayName, "node://" + pod.nodeName;
    assert oci[0] == 'o';
    assert e.At? ==> e.location[0] == e.location[..7][0] == 'n';
    UniqueLaws(o.locations, oci);
    UniqueLaws(Unique(o.locations, oci), node);
    UniqueLaws(o.failingPods, pod.Key());
  }

  lemma RegisterLaws(t: Table, cs: ContainerStatus, e: Evidence)
    requires AllNormal(t) && Traced(e)
    ensures var t1 := Register(t, IdentityFromImage(cs.image, cs.imageId), TrimSpace(cs.image));
      AllNormal(t1) && (Recorded(t1, e) <==> Recorded(t, e))
  {
    var id := IdentityFromImage(cs.image, cs.imageId);
    EnsureLaws(t, cs.image, cs.imageId, e);
    if id.hash != "" { MergeLaws(Ensure(t, id), id.key, TrimSpace(cs.image), e); }
  }

  lemma UpdateLaws(t: Table, key: string, o: Observation, e: Evidence, added: bool)
    requires AllNormal(t) && Normal(key, o)
    requires key in t && (Holds(o, e) <==> Holds(t[key], e) || added)
    ensures AllNormal(t[key := o]) && (Recorded(t[key := o], e) <==> Recorded(t, e) || added)
  {
    var t1 := t[key := o];
    assert Holds(t1[key], e) <==> Holds(t[key], e) || added;
    assert forall k | k in t && k != key :: Holds(t1[k], e) <==> Holds(t[k], e);
  }

  /** One container status keeps the normal form and adds exactly its own evidence. */
  lemma StatusLaws(t: Table, pod: Pod, cs: ContainerStatus, e: Evidence)
    requires AllNormal(t) && Traced(e)
    ensures var t' := ObserveStatus(t, pod, cs);
      AllNormal(t') && (Recorded(t', e) <==> Recorded(t, e) || StatusGives(pod, cs, e))
  {
    var id := IdentityFromImage(cs.image, cs.imageId);
    if id.key != "" {
      RegisterLaws(t, cs, e);
      var t1 := Register(t, id, TrimSpace(cs.image));
      MarkLaws(id.key, t1[id.key], pod, cs, e);
      UpdateLaws(t1, id.key, Mark(t1[id.key], pod, cs), e, StatusGives(pod, cs, e));
    }
  }

  lemma {:induction false} StatusesLaws(t: Table, pod: Pod, css: seq<ContainerStatus>, e: Evidence)
    requires AllNormal(t) && Traced(e)
    ensures var t' := ObserveStatuses(t, pod, css);
      AllNormal(t') && (Recorded(t', e) <==> Recorded(t, e) || SomeGives(pod, css, e))
  {
    hide Normal, ObserveStatus, StatusGives;
    if css != [] {
      var n := |css| - 1;
      StatusesLaws(t, pod, css[..n], e);
      StatusLaws(ObserveStatuses(t, pod, css[..n]), pod, css[n], e);
      assert SomeGives(pod, css[..n], e) ==> SomeGives(pod, css, e) by {
        assert forall j | 0 <= j < n :: css[..n][j] == css[j];
      }
      if SomeGives(pod, css, e) && !StatusGives(pod, css[n], e) {
        var j :| 0 <= j < |css| && StatusGives(pod, css[j], e);
        assert css[..n][j] == css[j];
      }
    }
  }

  lemma {:induction false} DeclareLaws(t: Table, images: seq<string>, e: Evidence)
    requires AllNormal(t)
    ensures AllNormal(Declare(t, images)) && (Recorded(Declare(t, images), e) <==> Recorded(t, e))
  {
    hide Normal, Ensure, IdentityFromImage, Holds;
    if images != [] {
      var n := |images| - 1;
      DeclareLaws(t, images[..n], e);
      EnsureLaws(Declare(t, images[..n]), images[n], "", e);
    }
  }

  lemma PodLaws(t: Table, pod: Pod, e: Evidence)
    requires AllNormal(t) && Traced(e)
    ensures var t' := ObservePod(t, pod);
      AllNormal(t') && (Recorded(t', e) <==> Recorded(t, e) || PodGives(pod, e))
  {
    hide Normal, Recorded, SomeGives;
    var a, b, c := pod.containerStatuses, pod.initContainerStatuses, pod.ephemeralContainerStatuses;
    DeclareLaws(t, pod.Declared(), e);
    var t0 := Declare(t, pod.Declared());
    StatusesLaws(t0, pod, a, e);
    StatusesLaws(ObserveStatuses(t0, pod, a), pod, b, e);
    StatusesLaws(ObserveStatuses(ObserveStatuses(t0, pod, a), pod, b), pod, c, e);
    SomeGivesConcat(pod, a, b, e);
    SomeGivesConcat(pod, a + b, c, e);
  }

  lemma SomeGivesConcat(pod: Pod, a: seq<ContainerStatus>, b: seq<ContainerStatus>, e: Evidence)
    ensures SomeGives(pod, a + b, e) <==> SomeGives(pod, a, e) || SomeGives(pod, b, e)
  {
    assert forall j | 0 <= j < |a| :: (a + b)[j] == a[j];
    assert forall j | 0 <= j < |b| :: (a + b)[|a| + j] == b[j];
  }

  lemma {:induction false} PodsLaws(pods: seq<Pod>, e: Evidence)
    requires Traced(e)
    ensures AllNormal(ObservePods(pods)) && (Recorded(ObservePods(pods), e) <==> PodsGive(pods, e))
  {
    hide Normal, PodGives, ObservePod;
    if pods != [] {
      var n := |pods| - 1;
      PodsLaws(pods[..n], e);
      PodLaws(ObservePods(pods[..n]), pods[n], e);
      PodsGiveLast(pods, e);
    }
  }

  lemma PodsGiveLast(pods: seq<Pod>, e: Evidence)
    requires pods != []
    ensures var n := |pods| - 1;
      PodsGive(pods, e) <==> PodsGive(pods[..n], e) || PodGives(pods[n], e)
  {
    var n := |pods| - 1;
    assert forall i | 0 <= i < n :: pods[..n][i] == pods[i];
  }

  /** Normal form: for every pod list each collected entry is normal, and no image is both started
      and failing to pull. */
  lemma CollectIsNormal(pods: seq<Pod>)
    ensures AllNormal(Collect(pods))
    ensures forall k | k in Collect(pods) :: !(Collect(pods)[k].started && Collect(pods)[k].pullFailed)
  {
    hide ObservePods, ValidKey, NameFits, HashOfKey;
    PodsLaws(pods, Fails("/"));
  }

  /** Conservation of locations: the nodes recorded over the whole result are exactly the nodes of
      pods that have a started container of some image. */
  lemma NodesAreConserved(pods: seq<Pod>, location: string)
    requires HasPrefix(location, "node://")
    ensures (exists k :: k in Collect(pods) && location in Collect(pods)[k].locations) <==> PodsGive(pods, At(location))
  {
    hide Normal, ObservePods, PodsGive;
    PodsLaws(pods, At(location));
    var t, final := ObservePods(pods), Collect(pods);
    assert forall k | k in t :: Holds(t[k], At(location)) <==> location in final[k].locations;
  }

  /** Conservation of failures: a pod that fails to pull is named by an observation in the result,
      unless the observation that had collected it turned out to have started; and only such pods
      are named. */
  lemma FailuresAreConserved(pods: seq<Pod>, podKey: string)
    requires podKey != ""
    ensures PodsGive(pods, Fails(podKey)) <==>
      exists k :: k in Collect(pods) && podKey in ObservePods(pods)[k].failingPods
        && (Collect(pods)[k].started || podKey in Collect(pods)[k].failingPods)
    ensures forall k | k in Collect(pods) && podKey in Collect(pods)[k].failingPods :: PodsGive(pods, Fails(podKey))
  {
    hide Normal, ObservePods, PodsGive;
    PodsLaws(pods, Fails(podKey));
    var t, final := ObservePods(pods), Collect(pods);
    assert forall k | k in t :: Holds(t[k], Fails(podKey)) ==>
      final[k].started || podKey in final[k].failingPods;
    assert forall k | k in t :: podKey in final[k].failingPods ==> Holds(t[k], Fails(podKey));
  }
}
