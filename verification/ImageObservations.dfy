/** The fold over all pods that aggregates one observation per image (internal/controller/image.go). */
module ImageObservations {
  import opened Text
  import opened ImageIdentity

  datatype ContainerStatus = ContainerStatus(image: string, imageId: string,
    running: bool, terminated: bool, waiting: Option<string>)

  datatype Pod = Pod(namespace: string, name: string, nodeName: string,
    containers: seq<string>, initContainers: seq<string>, ephemeralContainers: seq<string>,
    containerStatuses: seq<ContainerStatus>, initContainerStatuses: seq<ContainerStatus>,
    ephemeralContainerStatuses: seq<ContainerStatus>)
  {
    function Key(): string { namespace + "/" + name }
    function Declared(): seq<string> { containers + initContainers + ephemeralContainers }
  }

  predicate ContainerStarted(cs: ContainerStatus) {
    cs.imageId != "" && (cs.running || cs.terminated)
  }

  predicate ContainerPullFailed(cs: ContainerStatus) {
    cs.waiting.Some? && cs.waiting.value in {"ErrImagePull", "ImagePullBackOff", "InvalidImageName"}
  }

  datatype Observation = Observation(key: string, displayName: string, hash: string, started: bool, pullFailed: bool,
    locations: seq<string>, failingPods: seq<string>)

  /** What the in-place map holds, as a value. */
  type Table = map<string, Observation>

  // ---- the fold as functions on values ----

  function New(id: Identity): Observation {
    Observation(id.key, id.displayName, id.hash, false, false, [], [])
  }

  function Ensure(t: Table, id: Identity): Table {
    if id.key !in t then t[id.key := New(id)]
    else if t[id.key].hash == "" && id.hash != "" then
      t[id.key := t[id.key].(hash := id.hash, displayName := id.displayName)]
    else t
  }

  function Unique(list: seq<string>, value: string): seq<string> {
    if value == "" || value in list then list else list + [value]
  }

  function UniqueAll(list: seq<string>, values: seq<string>): seq<string> {
    if values == [] then list
    else Unique(UniqueAll(list, values[..|values| - 1]), values[|values| - 1])
  }

  function Absorb(o: Observation, prev: Observation): Observation {
    o.(started := o.started || prev.started, pullFailed := o.pullFailed || prev.pullFailed,
       locations := UniqueAll(o.locations, prev.locations), failingPods := UniqueAll(o.failingPods, prev.failingPods))
  }

  function MergeTag(t: Table, key: string, tagKey: string): Table
    requires key in t
  {
    if tagKey == "" || tagKey == key || tagKey !in t then t
    else t[key := Absorb(t[key], t[tagKey])] - {tagKey}
  }

  function Mark(o: Observation, pod: Pod, cs: ContainerStatus): Observation {
    var a := if !ContainerStarted(cs) then o else
      var locations := Unique(o.locations, "oci://" + o.displayName);
      o.(started := true,
         locations := if pod.nodeName == "" then locations else Unique(locations, "node://" + pod.nodeName));
    if !ContainerPullFailed(cs) then a
    else a.(pullFailed := true, failingPods := Unique(a.failingPods, pod.Key()))
  }

  /** Registers the image and, once its digest is known, absorbs the entry kept under its tag. */
  function Register(t: Table, id: Identity, tagKey: string): (t': Table)
    ensures id.key in t'
  {
    if id.hash != "" then MergeTag(Ensure(t, id), id.key, tagKey) else Ensure(t, id)
  }

  function ObserveStatus(t: Table, pod: Pod, cs: ContainerStatus): Table {
    var id := IdentityFromImage(cs.image, cs.imageId);
    if id.key == "" then t
    else
      var t1 := Register(t, id, TrimSpace(cs.image));
      t1[id.key := Mark(t1[id.key], pod, cs)]
  }

  function ObserveStatuses(t: Table, pod: Pod, css: seq<ContainerStatus>): Table {
    if css == [] then t
    else ObserveStatus(ObserveStatuses(t, pod, css[..|css| - 1]), pod, css[|css| - 1])
  }

  function Declare(t: Table, images: seq<string>): Table {
    if images == [] then t
    else
      var t1 := Declare(t, images[..|images| - 1]);
      var image := images[|images| - 1];
      if image == "" then t1 else Ensure(t1, IdentityFromImage(image, ""))
  }

  function ObservePod(t: Table, pod: Pod): Table {
    ObserveStatuses(ObserveStatuses(ObserveStatuses(Declare(t, pod.Declared()), pod, pod.containerStatuses),
      pod, pod.initContainerStatuses), pod, pod.ephemeralContainerStatuses)
  }

  function ObservePods(pods: seq<Pod>): Table {
    if pods == [] then map[] else ObservePod(ObservePods(pods[..|pods| - 1]), pods[|pods| - 1])
  }

  /** A pull failure only counts while no copy of the image has started. */
  function Settle(o: Observation): Observation {
    if o.started then o.(pullFailed := false, failingPods := []) else o
  }

  function Settled(t: Table): Table {
    map k | k in t :: Settle(t[k])
  }

  function Collect(pods: seq<Pod>): Table {
    Settled(ObservePods(pods))
  }

  // ---- the fold as the program runs it, in place ----

  method AddUnique(list: seq<string>, value: string) returns (result: seq<string>)
    ensures result == Unique(list, value)
  {
    if value == "" { return list; }
    for i := 0 to |list|
      invariant value !in list[..i]
    {
      if list[i] == value { return list; }
    }
    return list + [value];
  }

  method AddUniqueAll(list: seq<string>, values: seq<string>) returns (result: seq<string>)
    ensures result == UniqueAll(list, values)
  {
    result := list;
    for i := 0 to |values|
      invariant result == UniqueAll(list, values[..i])
    {
      assert values[..i + 1][..i] == values[..i];
      result := AddUnique(result, values[i]);
    }
    assert values[..|values|] == values;
  }

  class ImageObservation {
    const key: string
    var displayName: string
    var hash: string
    var started: bool
    var pullFailed: bool
    var locations: seq<string>
    var failingPods: seq<string>

    function View(): Observation
      reads this
    {
      Observation(key, displayName, hash, started, pullFailed, locations, failingPods)
    }

    constructor (id: Identity)
      ensures View() == New(id)
    {
      key, displayName, hash := id.key, id.displayName, id.hash;
      started, pullFailed, locations, failingPods := false, false, [], [];
    }

    /** The field updates of mergeTagObservation. */
    method TakeOver(prev: ImageObservation)
      requires prev != this
      modifies this
      ensures View() == Absorb(old(View()), old(prev.View()))
    {
      if prev.started { started := true; }
      if prev.pullFailed { pullFailed := true; }
      locations := AddUniqueAll(locations, prev.locations);
      failingPods := AddUniqueAll(failingPods, prev.failingPods);
    }

    /** The field updates of observeContainerStatus. */
    method Record(pod: Pod, cs: ContainerStatus)
      modifies this
      ensures View() == Mark(old(View()), pod, cs)
    {
      if ContainerStarted(cs) {
        started := true;
        locations := AddUnique(locations, "oci://" + displayName);
        if pod.nodeName != "" {
          locations := AddUnique(locations, "node://" + pod.nodeName);
        }
      }
      if ContainerPullFailed(cs) {
        pullFailed := true;
        failingPods := AddUnique(failingPods, pod.Key());
      }
    }

    /** A pull failure only counts when the image never started anywhere. */
    method Finish()
      modifies this
      ensures View() == Settle(old(View()))
    {
      if started {
        pullFailed := false;
        failingPods := [];
      }
    }
  }

  /** The map from key to *imageObservation. Entries are shared references; two keys never share one. */
  class ObservationTable {
    var obs: map<string, ImageObservation>

    ghost predicate Valid()
      reads this
    {
      forall k | k in obs :: obs[k].key == k
    }

    function View(): Table
      reads this, obs.Values
    {
      map k | k in obs :: obs[k].View()
    }

    constructor ()
      ensures Valid() && View() == map[] && obs == map[]
    {
      obs := map[];
    }

    method EnsureObservation(id: Identity) returns (o: ImageObservation)
      requires Valid()
      modifies this, obs.Values
      ensures Valid() && fresh(obs.Values - old(obs.Values))
      ensures id.key in obs && obs[id.key] == o
      ensures View() == Ensure(old(View()), id)
    {
      if id.key !in obs {
        o := new ImageObservation(id);
        obs := obs[id.key := o];
        return;
      }
      o := obs[id.key];
      if o.hash == "" && id.hash != "" {
        o.hash := id.hash;
        o.displayName := id.displayName;
      }
    }

    method MergeTagObservation(o: ImageObservation, tagKey: string)
      requires Valid() && o.key in obs && obs[o.key] == o
      modifies this, obs.Values
      ensures Valid() && obs.Values <= old(obs.Values)
      ensures o.key in obs && obs[o.key] == o
      ensures View() == MergeTag(old(View()), o.key, tagKey)
      ensures tagKey != "" && tagKey != o.key ==> tagKey !in obs
    {
      hide Absorb;
      if tagKey == "" || tagKey == o.key || tagKey !in obs { return; }
      var prev := obs[tagKey];
      o.TakeOver(prev);
      UpdatedAt(o);
      obs := obs - {tagKey};
    }

    method ObserveContainerStatus(pod: Pod, cs: ContainerStatus)
      requires Valid()
      modifies this, obs.Values
      ensures Valid() && fresh(obs.Values - old(obs.Values))
      ensures View() == ObserveStatus(old(View()), pod, cs)
    {
      hide IdentityFromImage, Ensure, MergeTag, Mark;
      var id := IdentityFromImage(cs.image, cs.imageId);
      if id.key == "" { return; }
      var o := EnsureObservation(id);
      if id.hash != "" { MergeTagObservation(o, TrimSpace(cs.image)); }
      label merged:
      o.Record(pod, cs);
      UpdatedAt@merged(o);
    }

    /** Writing through one shared entry changes the table at that entry's key only. */
    twostate lemma UpdatedAt(o: ImageObservation)
      requires old(Valid()) && obs == old(obs)
      requires o.key in obs && obs[o.key] == o
      requires forall p | p in obs.Values && p != o :: unchanged(p)
      ensures View() == old(View())[o.key := o.View()]
    {
      forall k | k in obs && k != o.key ensures obs[k].View() == old(obs[k].View()) {
        assert obs[k] in obs.Values && obs[k].key == k;
        assert unchanged(obs[k]);
      }
    }

    method ObserveContainerStatuses(pod: Pod, css: seq<ContainerStatus>)
      requires Valid()
      modifies this, obs.Values
      ensures Valid() && fresh(obs.Values - old(obs.Values))
      ensures View() == ObserveStatuses(old(View()), pod, css)
    {
      hide ObserveStatus;
      for i := 0 to |css|
        invariant Valid() && fresh(obs.Values - old(obs.Values))
        invariant View() == ObserveStatuses(old(View()), pod, css[..i])
      {
        assert css[..i + 1][..i] == css[..i];
        ObserveContainerStatus(pod, css[i]);
      }
      assert css[..|css|] == css;
    }

    method RegisterDeclaredImages(images: seq<string>)
      requires Valid()
      modifies this, obs.Values
      ensures Valid() && fresh(obs.Values - old(obs.Values))
      ensures View() == Declare(old(View()), images)
    {
      hide Ensure, IdentityFromImage;
      for i := 0 to |images|
        invariant Valid() && fresh(obs.Values - old(obs.Values))
        invariant View() == Declare(old(View()), images[..i])
      {
        assert images[..i + 1][..i] == images[..i];
        if images[i] != "" {
          var _ := EnsureObservation(IdentityFromImage(images[i], ""));
        }
      }
      assert images[..|images|] == images;
    }

    method ObservePodImages(pod: Pod)
      requires Valid()
      modifies this, obs.Values
      ensures Valid() && fresh(obs.Values - old(obs.Values))
      ensures View() == ObservePod(old(View()), pod)
    {
      RegisterDeclaredImages(pod.Declared());
      ObserveContainerStatuses(pod, pod.containerStatuses);
      ObserveContainerStatuses(pod, pod.initContainerStatuses);
      ObserveContainerStatuses(pod, pod.ephemeralContainerStatuses);
    }

    /** The closing loop over the map. */
    method FinishAll()
      requires Valid()
      modifies obs.Values
      ensures Valid() && View() == Settled(old(View()))
    {
      hide Settle;
      ghost var t := View();
      var todo := obs.Keys;
      while todo != {}
        invariant todo <= obs.Keys && Valid()
        invariant View() == map k | k in t :: if k in todo then t[k] else Settle(t[k])
      {
        var k :| k in todo;
        FinishAt(k);
        todo := todo - {k};
      }
    }

    method FinishAt(key: string)
      requires Valid() && key in obs
      modifies obs[key]
      ensures Valid() && View() == old(View())[key := Settle(old(View())[key])]
    {
      label before:
      obs[key].Finish();
      UpdatedAt@before(obs[key]);
    }
  }

  method CollectImageObservations(pods: seq<Pod>) returns (table: ObservationTable)
    ensures fresh(table) && fresh(table.obs.Values) && table.Valid()
    ensures table.View() == Collect(pods)
  {
    hide ObservePod, Settle;
    table := new ObservationTable();
    for i := 0 to |pods|
      invariant fresh(table) && fresh(table.obs.Values) && table.Valid()
      invariant table.View() == ObservePods(pods[..i])
    {
      assert pods[..i + 1][..i] == pods[..i];
      table.ObservePodImages(pods[i]);
    }
    assert pods[..|pods|] == pods;
    table.FinishAll();
  }
}
