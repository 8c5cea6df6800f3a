/** Where the evidence of each container status ends up: the entry of its image or, once a digest was
    reported under the image's tag, the entry of that digest. */
module TagMerges {
  import opened Text
  import opened Registry
  import opened ImageIdentity
  import opened ImageObservations
  import opened ObservationLaws

  // ---- one container status ----

  /** A status with a digest takes over the entry that is kept under its tag. */
  predicate TakesOver(cs: ContainerStatus, tag: string) {
    var d := IdentityFromImage(cs.image, cs.imageId);
    d.hash != "" && tag == TrimSpace(cs.image) && tag != "" && tag != d.key
  }

  /** A status without an image changes nothing; any other has an entry afterwards and leaves all others
      alone, except that the entry it takes over is gone. */
  lemma StatusKeys(t: Table, pod: Pod, cs: ContainerStatus, k: string)
    ensures var d, t' := IdentityFromImage(cs.image, cs.imageId), ObserveStatus(t, pod, cs);
      && (d.key == "" ==> t' == t)
      && (d.key != "" ==> d.key in t')
      && (d.key != "" && TakesOver(cs, k) ==> k !in t')
      && (d.key != "" && k != d.key && !TakesOver(cs, k) ==> SameAt(t, t', k))
  {
    hide IdentityFromImage, TrimSpace, Absorb, Mark, New;
  }

  lemma {:induction false} UniqueAllExtends(list: seq<string>, values: seq<string>)
    ensures list <= UniqueAll(list, values)
  {
    if values != [] { UniqueAllExtends(list, values[..|values| - 1]); }
  }

  /** What the entry a status belongs to starts from. */
  function Before(t: Table, id: Identity): Observation {
    if id.key in t then t[id.key] else Observation(id.key, id.displayName, id.hash, false, false, [], [])
  }

  /** Where a status says a copy of its image is. */
  ghost predicate Locates(pod: Pod, cs: ContainerStatus, displayName: string, l: string) {
    HasRun(cs) && (l == "oci://" + displayName || (pod.nodeName != "" && l == "node://" + pod.nodeName))
  }

  ghost predicate Blames(pod: Pod, cs: ContainerStatus, p: string) {
    CannotPull(cs) && p == pod.namespace + "/" + pod.name
  }

  lemma MarkEffect(o: Observation, pod: Pod, cs: ContainerStatus, v: string)
    ensures var o1 := Mark(o, pod, cs);
      && (o1.started <==> o.started || HasRun(cs)) && (o1.pullFailed <==> o.pullFailed || CannotPull(cs))
      && o1.displayName == o.displayName && o1.hash == o.hash
      && o.locations <= o1.locations && o.failingPods <= o1.failingPods
    ensures var o1 := Mark(o, pod, cs);
      v != "" ==>
        && (v in o1.locations <==> v in o.locations || Locates(pod, cs, o1.displayName, v))
        && (v in o1.failingPods <==> v in o.failingPods || Blames(pod, cs, v))
  {
  }

  lemma AbsorbEffect(o: Observation, prev: Observation, v: string)
    ensures var o1 := Absorb(o, prev);
      && (o1.started <==> o.started || prev.started) && (o1.pullFailed <==> o.pullFailed || prev.pullFailed)
      && o1.displayName == o.displayName && o1.hash == o.hash
      && o.locations <= o1.locations && o.failingPods <= o1.failingPods
      && (v != "" ==>
           && (v in o1.locations <==> v in o.locations || v in prev.locations)
           && (v in o1.failingPods <==> v in o.failingPods || v in prev.failingPods))
  {
    UniqueAllExtends(o.locations, prev.locations);
    UniqueAllExtends(o.failingPods, prev.failingPods);
    UniqueAllLaws(o.locations, prev.locations);
    UniqueAllLaws(o.failingPods, prev.failingPods);
    hide UniqueAll;
  }

  /** The entry that a status takes over, or one that says nothing. */
  function Taken(t: Table, cs: ContainerStatus): Observation {
    var tag := TrimSpace(cs.image);
    if TakesOver(cs, tag) && tag in t then t[tag] else Observation(tag, "", "", false, false, [], [])
  }

  /** A digest learned late gives the entry its hash and name. */
  function Learned(o: Observation, d: Identity): Observation {
    if o.hash == "" && d.hash != "" then o.(hash := d.hash, displayName := d.displayName) else o
  }

  lemma EntryOf(t: Table, pod: Pod, cs: ContainerStatus)
    requires IdentityFromImage(cs.image, cs.imageId).key != ""
    ensures var d, t' := IdentityFromImage(cs.image, cs.imageId), ObserveStatus(t, pod, cs);
      d.key in t' && t'[d.key] == Mark(Absorb(Learned(Before(t, d), d), Taken(t, cs)), pod, cs)
  {
    hide IdentityFromImage, TrimSpace, Mark;
  }

  /** What the entry of a status holds afterwards: what it held, what the entry it takes over held, and
      what the status itself says; the lists only grow at the end. */
  lemma StatusEffect(t: Table, pod: Pod, cs: ContainerStatus, v: string)
    requires IdentityFromImage(cs.image, cs.imageId).key != "" && v != ""
    ensures var d, t', taken := IdentityFromImage(cs.image, cs.imageId), ObserveStatus(t, pod, cs), Taken(t, cs);
      d.key in t' && var was, o := Before(t, d), t'[d.key];
      && o.hash == (if was.hash == "" then d.hash else was.hash)
      && o.displayName == (if was.hash == "" && d.hash != "" then d.displayName else was.displayName)
      && was.locations <= o.locations && was.failingPods <= o.failingPods
      && (o.started <==> was.started || taken.started || HasRun(cs))
      && (o.pullFailed <==> was.pullFailed || taken.pullFailed || CannotPull(cs))
      && (v in o.locations <==> v in was.locations || v in taken.locations || Locates(pod, cs, o.displayName, v))
      && (v in o.failingPods <==> v in was.failingPods || v in taken.failingPods || Blames(pod, cs, v))
  {
    EntryOf(t, pod, cs);
    var d := IdentityFromImage(cs.image, cs.imageId);
    var learned := Learned(Before(t, d), d);
    AbsorbEffect(learned, Taken(t, cs), v);
    MarkEffect(Absorb(learned, Taken(t, cs)), pod, cs, v);
    hide IdentityFromImage, TrimSpace, Absorb, Mark, HasRun, CannotPull, Locates, Blames, ObserveStatus, Taken, Before;
  }

  // ---- what pods say, in the order it is read ----

  /** A pod declares an image, or reports the status of a container. */
  datatype Word = Declares(image: string) | Reports(pod: Pod, cs: ContainerStatus)

  function Declarations(images: seq<string>): seq<Word> {
    seq(|images|, i requires 0 <= i < |images| => Declares(images[i]))
  }

  function Reported(pod: Pod, css: seq<ContainerStatus>): seq<Word> {
    seq(|css|, i requires 0 <= i < |css| => Reports(pod, css[i]))
  }

  function WordsOf(pod: Pod): seq<Word> {
    Declarations(pod.containers) + Declarations(pod.initContainers) + Declarations(pod.ephemeralContainers)
      + Reported(pod, pod.containerStatuses) + Reported(pod, pod.initContainerStatuses)
      + Reported(pod, pod.ephemeralContainerStatuses)
  }

  function Words(pods: seq<Pod>): seq<Word> {
    if pods == [] then [] else Words(pods[..|pods| - 1]) + WordsOf(pods[|pods| - 1])
  }

  /** The image a word speaks of. */
  function KeyOf(w: Word): string {
    match w
    case Declares(image) => IdentityFromImage(image, "").key
    case Reports(_, cs) => IdentityFromImage(cs.image, cs.imageId).key
  }

  /** Whether a word speaks of any image. */
  predicate Names(w: Word) { if w.Declares? then w.image != "" else KeyOf(w) != "" }

  predicate Removes(w: Word, k: string) { w.Reports? && KeyOf(w) != "" && TakesOver(w.cs, k) }

  /** Something an entry can hold. */
  datatype Fact = Started | PullFailed | OnNode(node: string) | Failing(pod: string)

  ghost predicate Has(o: Observation, f: Fact) {
    match f
    case Started => o.started
    case PullFailed => o.pullFailed
    case OnNode(n) => "node://" + n in o.locations
    case Failing(p) => p in o.failingPods
  }

  ghost predicate Tells(w: Word, f: Fact) {
    w.Reports? && KeyOf(w) != "" &&
    match f
    case Started => HasRun(w.cs)
    case PullFailed => CannotPull(w.cs)
    case OnNode(n) => HasRun(w.cs) && n == w.pod.nodeName
    case Failing(p) => CannotPull(w.cs) && p == w.pod.namespace + "/" + w.pod.name
  }

  /** Facts that can be: nodes have names, and so have pods. */
  predicate Proper(f: Fact) { f != OnNode("") && f != Failing("") }

  // ---- one word ----

  function Hear(t: Table, w: Word): Table {
    match w
    case Declares(image) => if image == "" then t else Ensure(t, IdentityFromImage(image, ""))
    case Reports(pod, cs) => ObserveStatus(t, pod, cs)
  }

  function Heard(t: Table, words: seq<Word>): Table {
    if words == [] then t else Hear(Heard(t, words[..|words| - 1]), words[|words| - 1])
  }

  ghost predicate HasAt(t: Table, k: string, f: Fact) { k in t && Has(t[k], f) }

  ghost predicate TakesFrom(t: Table, w: Word, f: Fact) { exists tag :: Removes(w, tag) && HasAt(t, tag, f) }

  /** Which entries there are after one word. */
  lemma HearKeys(t: Table, w: Word, k: string)
    ensures k in Hear(t, w) <==> (k in t && !Removes(w, k)) || (Names(w) && KeyOf(w) == k)
  {
    hide IdentityFromImage, ObserveStatus, TakesOver;
    if w.Reports? {
      StatusKeys(t, w.pod, w.cs, k);
      TakesOtherKeys(w.cs, k);
    }
  }

  lemma TakesOtherKeys(cs: ContainerStatus, k: string)
    ensures TakesOver(cs, k) ==> k != "" && k != IdentityFromImage(cs.image, cs.imageId).key
  {
    hide IdentityFromImage;
  }

  /** What an entry holds after one word: an entry that is left holds what it held, and the word's own
      entry holds besides what the word tells and what the entry it takes over held. */
  lemma HearFacts(t: Table, w: Word, k: string, f: Fact)
    requires k in Hear(t, w) && Proper(f)
    ensures HasAt(Hear(t, w), k, f)
      <==> HasAt(t, k, f) || (Names(w) && KeyOf(w) == k && (Tells(w, f) || TakesFrom(t, w, f)))
  {
    if w.Declares? {
      DeclareFacts(t, w.image, k, f);
    } else if KeyOf(w) == k && k != "" {
      ReportFacts(t, w.pod, w.cs, f);
    } else {
      hide IdentityFromImage, ObserveStatus, TakesOver, Has;
      StatusKeys(t, w.pod, w.cs, k);
    }
  }

  lemma DeclareFacts(t: Table, image: string, k: string, f: Fact)
    ensures HasAt(Hear(t, Declares(image)), k, f) <==> HasAt(t, k, f)
  {
    hide IdentityFromImage;
  }

  lemma TakenHas(t: Table, pod: Pod, cs: ContainerStatus, f: Fact)
    requires KeyOf(Reports(pod, cs)) != "" && Proper(f)
    ensures Has(Taken(t, cs), f) <==> TakesFrom(t, Reports(pod, cs), f)
  {
    hide IdentityFromImage, TrimSpace;
    var o, w := Taken(t, cs), Reports(pod, cs);
    if Has(o, f) { assert Removes(w, TrimSpace(cs.image)) && HasAt(t, TrimSpace(cs.image), f); }
  }

  lemma BeforeHas(t: Table, id: Identity, f: Fact)
    ensures Has(Before(t, id), f) <==> HasAt(t, id.key, f)
  {
  }

  lemma NodeText(n: string, displayName: string, m: string)
    ensures "node://" + n != "oci://" + displayName
    ensures "node://" + n == "node://" + m <==> n == m
  {
    assert ("node://" + n)[0] == 'n' && ("oci://" + displayName)[0] == 'o';
    assert ("node://" + n)[7..] == n && ("node://" + m)[7..] == m;
  }

  lemma LocatesNode(pod: Pod, cs: ContainerStatus, displayName: string, n: string)
    requires n != ""
    ensures Locates(pod, cs, displayName, "node://" + n) <==> HasRun(cs) && n == pod.nodeName
  {
    NodeText(n, displayName, pod.nodeName);
  }

  lemma ReportFacts(t: Table, pod: Pod, cs: ContainerStatus, f: Fact)
    requires KeyOf(Reports(pod, cs)) != "" && Proper(f)
    ensures var w := Reports(pod, cs);
      HasAt(Hear(t, w), KeyOf(w), f) <==> HasAt(t, KeyOf(w), f) || Tells(w, f) || TakesFrom(t, w, f)
  {
    var d, w := IdentityFromImage(cs.image, cs.imageId), Reports(pod, cs);
    TakenHas(t, pod, cs, f);
    BeforeHas(t, d, f);
    StatusEffect(t, pod, cs, match f case OnNode(n) => "node://" + n case Failing(p) => p case _ => "-");
    if f.OnNode? { LocatesNode(pod, cs, ObserveStatus(t, pod, cs)[d.key].displayName, f.node); }
    hide IdentityFromImage, Taken, Before, Locates, TakesFrom, HasRun, CannotPull, ObserveStatus;
  }

  // ---- all words ----

  /** The entry that holds, after the first n words, what word i told. */
  function Owner(words: seq<Word>, i: nat, n: nat): string
    requires i < n <= |words|
    decreases n
  {
    if n == i + 1 then KeyOf(words[i])
    else
      var k := Owner(words, i, n - 1);
      if Removes(words[n - 1], k) then KeyOf(words[n - 1]) else k
  }

  /** A word registered the entry and no later one took it over. */
  ghost predicate Stands(words: seq<Word>, n: nat, k: string)
    requires n <= |words|
  {
    exists i :: 0 <= i < n && StandsSince(words, i, n, k)
  }

  ghost predicate StandsSince(words: seq<Word>, i: nat, n: nat, k: string)
    requires i < n <= |words|
  {
    Names(words[i]) && KeyOf(words[i]) == k && forall j | i < j < n :: !Removes(words[j], k)
  }

  /** Some word told the fact, and the entry now holds what it told. */
  ghost predicate Told(words: seq<Word>, n: nat, k: string, f: Fact)
    requires n <= |words|
  {
    exists i :: 0 <= i < n && Tells(words[i], f) && Owner(words, i, n) == k
  }

  /** The next word takes over an entry that holds the fact. */
  ghost predicate TakesTold(words: seq<Word>, n: nat, f: Fact)
    requires n < |words|
  {
    exists tag :: Removes(words[n], tag) && Told(words, n, tag, f)
  }

  lemma HeardOneMore(words: seq<Word>, n: nat)
    requires n < |words|
    ensures Heard(map[], words[..n + 1]) == Hear(Heard(map[], words[..n]), words[n])
  {
    assert words[..n + 1][..n] == words[..n];
  }

  lemma StandsOneMore(words: seq<Word>, n: nat, k: string)
    requires n < |words|
    ensures Stands(words, n + 1, k) <==>
      (Stands(words, n, k) && !Removes(words[n], k)) || (Names(words[n]) && KeyOf(words[n]) == k)
  {
    hide Removes, Names, KeyOf;
    if Stands(words, n, k) && !Removes(words[n], k) {
      var i :| 0 <= i < n && StandsSince(words, i, n, k);
      assert StandsSince(words, i, n + 1, k);
    }
    if Names(words[n]) && KeyOf(words[n]) == k { assert StandsSince(words, n, n + 1, k); }
    if Stands(words, n + 1, k) {
      var i :| 0 <= i < n + 1 && StandsSince(words, i, n + 1, k);
      if i < n { assert StandsSince(words, i, n, k); }
    }
  }

  lemma {:induction false} HeardKeys(words: seq<Word>, n: nat, k: string)
    requires n <= |words|
    ensures k in Heard(map[], words[..n]) <==> Stands(words, n, k)
  {
    hide Hear, Names, KeyOf, Removes, Stands;
    if n > 0 {
      HeardKeys(words, n - 1, k);
      HeardOneMore(words, n - 1);
      HearKeys(Heard(map[], words[..n - 1]), words[n - 1], k);
      StandsOneMore(words, n - 1, k);
    } else {
      NothingStands(words, k);
    }
  }

  lemma NothingStands(words: seq<Word>, k: string)
    ensures !Stands(words, 0, k)
  {
  }

  /** What a word told is always held by an entry that is there. */
  lemma {:induction false} OwnerIsThere(words: seq<Word>, i: nat, n: nat)
    requires i < n <= |words| && words[i].Reports? && KeyOf(words[i]) != ""
    ensures Owner(words, i, n) in Heard(map[], words[..n])
    decreases n
  {
    hide Hear, KeyOf, Removes;
    HeardOneMore(words, n - 1);
    HearKeys(Heard(map[], words[..n - 1]), words[n - 1], Owner(words, i, n));
    if n > i + 1 {
      OwnerIsThere(words, i, n - 1);
      RemoversName(words[n - 1], Owner(words, i, n - 1));
    }
  }

  lemma RemoversName(w: Word, k: string)
    ensures Removes(w, k) ==> Names(w) && KeyOf(w) != k
  {
    hide IdentityFromImage;
  }

  lemma TellersName(w: Word, f: Fact)
    ensures Tells(w, f) || (exists k :: Removes(w, k)) ==> Names(w)
  {
    hide IdentityFromImage;
  }

  lemma ToldIsThere(words: seq<Word>, n: nat, k: string, f: Fact)
    requires n <= |words| && Told(words, n, k, f)
    ensures k in Heard(map[], words[..n])
  {
    var i :| 0 <= i < n && Tells(words[i], f) && Owner(words, i, n) == k;
    hide Owner, Heard, KeyOf;
    OwnerIsThere(words, i, n);
  }

  /** How the words tell of an entry that is there after one more. */
  lemma ToldOneMore(words: seq<Word>, n: nat, k: string, f: Fact)
    requires n < |words|
    requires !Removes(words[n], k)
    ensures Told(words, n + 1, k, f)
      <==> Told(words, n, k, f) || (KeyOf(words[n]) == k && (Tells(words[n], f) || TakesTold(words, n, f)))
  {
    hide KeyOf, Removes, Tells;
    if Told(words, n + 1, k, f) {
      var i :| 0 <= i < n + 1 && Tells(words[i], f) && Owner(words, i, n + 1) == k;
      if i < n { assert Told(words, n, Owner(words, i, n), f); }
    }
    if Told(words, n, k, f) {
      var i :| 0 <= i < n && Tells(words[i], f) && Owner(words, i, n) == k;
      assert Owner(words, i, n + 1) == k;
    }
    if KeyOf(words[n]) == k && Tells(words[n], f) { assert Owner(words, n, n + 1) == k; }
    if tag :| KeyOf(words[n]) == k && Removes(words[n], tag) && Told(words, n, tag, f) {
      var i :| 0 <= i < n && Tells(words[i], f) && Owner(words, i, n) == tag;
      assert Owner(words, i, n + 1) == k;
    }
  }

  lemma {:induction false} HeardFacts(words: seq<Word>, n: nat, k: string, f: Fact)
    requires n <= |words| && Proper(f)
    ensures HasAt(Heard(map[], words[..n]), k, f) <==> Told(words, n, k, f)
  {
    hide Hear, Names, KeyOf, Removes, Tells, Has, Owner, Proper;
    if n > 0 {
      var t, t', w := Heard(map[], words[..n - 1]), Heard(map[], words[..n]), words[n - 1];
      HeardOneMore(words, n - 1);
      forall key ensures HasAt(t, key, f) <==> Told(words, n - 1, key, f) { HeardFacts(words, n - 1, key, f); }
      if k in t' {
        HearKeys(t, w, k);
        RemoversName(w, k);
        HearFacts(t, w, k, f);
        ToldOneMore(words, n - 1, k, f);
        TellersName(w, f);
        hide Told, HasAt, Heard;
      } else if Told(words, n, k, f) {
        ToldIsThere(words, n, k, f);
      }
    }
  }

  // ---- the program reads the pods word by word ----

  lemma {:induction false} HeardConcat(t: Table, a: seq<Word>, b: seq<Word>)
    ensures Heard(t, a + b) == Heard(Heard(t, a), b)
  {
    hide Hear;
    if b == [] {
      assert a + b == a;
    } else {
      var n := |b| - 1;
      assert (a + b)[..|a + b| - 1] == a + b[..n];
      HeardConcat(t, a, b[..n]);
    }
  }

  lemma {:induction false} DeclarationsHeard(t: Table, images: seq<string>)
    ensures Declare(t, images) == Heard(t, Declarations(images))
  {
    hide Ensure, IdentityFromImage;
    if images != [] {
      var n := |images| - 1;
      DeclarationsHeard(t, images[..n]);
      assert Declarations(images)[..n] == Declarations(images[..n]);
    }
  }

  lemma {:induction false} StatusesHeard(t: Table, pod: Pod, css: seq<ContainerStatus>)
    ensures ObserveStatuses(t, pod, css) == Heard(t, Reported(pod, css))
  {
    hide ObserveStatus;
    if css != [] {
      var n := |css| - 1;
      StatusesHeard(t, pod, css[..n]);
      assert Reported(pod, css)[..n] == Reported(pod, css[..n]);
    }
  }

  lemma PodHeard(t: Table, pod: Pod)
    ensures ObservePod(t, pod) == Heard(t, WordsOf(pod))
  {
    var images := pod.containers + pod.initContainers + pod.ephemeralContainers;
    var x, y, z := pod.containerStatuses, pod.initContainerStatuses, pod.ephemeralContainerStatuses;
    var t0 := Declare(t, images);
    assert ObservePod(t, pod) == ObserveStatuses(ObserveStatuses(ObserveStatuses(t0, pod, x), pod, y), pod, z);
    var w0, w1, w2, w3 := Declarations(images), Reported(pod, x), Reported(pod, y), Reported(pod, z);
    assert WordsOf(pod) == w0 + w1 + w2 + w3 by { DeclarationsConcat(pod); }
    hide *;
    DeclarationsHeard(t, images);
    StatusesHeard(t0, pod, x);
    StatusesHeard(ObserveStatuses(t0, pod, x), pod, y);
    StatusesHeard(ObserveStatuses(ObserveStatuses(t0, pod, x), pod, y), pod, z);
    HeardConcat(t, w0, w1);
    HeardConcat(t, w0 + w1, w2);
    HeardConcat(t, w0 + w1 + w2, w3);
  }

  lemma DeclarationsConcat(pod: Pod)
    ensures var a, b, c := pod.containers, pod.initContainers, pod.ephemeralContainers;
      Declarations(a + b + c) == Declarations(a) + Declarations(b) + Declarations(c)
  {
  }

  lemma {:induction false} PodsHeard(pods: seq<Pod>)
    ensures ObservePods(pods) == Heard(map[], Words(pods))
  {
    hide ObservePod, Hear, WordsOf;
    if pods != [] {
      var n := |pods| - 1;
      PodsHeard(pods[..n]);
      HeardConcat(map[], Words(pods[..n]), WordsOf(pods[n]));
      PodHeard(ObservePods(pods[..n]), pods[n]);
    }
  }

  /** Which entries the observation of any pods ends with: a key has an entry if and only if a word
      registered it, a declaration or a status, and no later status took it over. */
  lemma CollectedKeys(pods: seq<Pod>, k: string)
    ensures k in Collect(pods) <==> Stands(Words(pods), |Words(pods)|, k)
  {
    hide ObservePods, Settle, Heard, Stands;
    PodsHeard(pods);
    var words := Words(pods);
    assert words[..|words|] == words;
    HeardKeys(words, |words|, k);
  }

  /** No entry stays under the tag of a status with a digest unless something registers it later. */
  lemma TagGoes(pods: seq<Pod>, i: nat, tag: string)
    requires i < |Words(pods)| && Removes(Words(pods)[i], tag)
    requires forall j | i <= j < |Words(pods)| :: Names(Words(pods)[j]) ==> KeyOf(Words(pods)[j]) != tag
    ensures tag !in Collect(pods)
  {
    CollectedKeys(pods, tag);
    hide Words, KeyOf, Names, Removes, Collect;
  }

  lemma {:induction false} WordIsRead(pods: seq<Pod>, pod: Pod, w: Word)
    requires pod in pods && w in WordsOf(pod)
    ensures w in Words(pods)
  {
    hide WordsOf;
    var n := |pods| - 1;
    if pod != pods[n] {
      assert pod in pods[..n];
      WordIsRead(pods[..n], pod, w);
    }
  }

  /** Every image a pod declares, for init and ephemeral containers too, has an entry unless a status
      with a digest takes it over. */
  lemma DeclaredHasEntry(pods: seq<Pod>, pod: Pod, image: string)
    requires pod in pods && image != ""
    requires image in pod.containers || image in pod.initContainers || image in pod.ephemeralContainers
    requires forall w | w in Words(pods) :: !Removes(w, IdentityFromImage(image, "").key)
    ensures IdentityFromImage(image, "").key in Collect(pods)
  {
    hide IdentityFromImage, Removes, Collect, Words, WordsOf;
    var k, words := IdentityFromImage(image, "").key, Words(pods);
    DeclarationIsWord(pod, image);
    WordIsRead(pods, pod, Declares(image));
    CollectedKeys(pods, k);
    var i :| 0 <= i < |words| && words[i] == Declares(image);
    assert StandsSince(words, i, |words|, k);
  }

  lemma DeclarationIsWord(pod: Pod, image: string)
    requires image in pod.containers || image in pod.initContainers || image in pod.ephemeralContainers
    ensures Declares(image) in WordsOf(pod)
  {
    var a, b, c := pod.containers, pod.initContainers, pod.ephemeralContainers;
    var images := a + b + c;
    var declared := Declarations(a) + Declarations(b) + Declarations(c);
    DeclarationsConcat(pod);
    assert image in images;
    var j :| 0 <= j < |images| && images[j] == image;
    assert Declarations(images)[j] == Declares(image);
    hide Declarations, Reported;
    assert Declares(image) in declared;
  }

  /** What the entries hold: every status's evidence is in the entry that its image's entry was merged
      into, step by step, and in no other; nothing else is there; and a pull failure only counts while no
      copy of the image has started. */
  lemma CollectedFacts(pods: seq<Pod>, k: string, node: string, pod: string)
    requires k in Collect(pods) && node != "" && pod != ""
    ensures var o, words, n := Collect(pods)[k], Words(pods), |Words(pods)|;
      && (o.started <==> Told(words, n, k, Started))
      && (o.pullFailed <==> Told(words, n, k, PullFailed) && !Told(words, n, k, Started))
      && ("node://" + node in o.locations <==> Told(words, n, k, OnNode(node)))
      && (pod in o.failingPods <==> Told(words, n, k, Failing(pod)) && !Told(words, n, k, Started))
  {
    hide ObservePods, Heard, Told;
    PodsHeard(pods);
    var words := Words(pods);
    assert words[..|words|] == words;
    HeardFacts(words, |words|, k, Started);
    HeardFacts(words, |words|, k, PullFailed);
    HeardFacts(words, |words|, k, OnNode(node));
    HeardFacts(words, |words|, k, Failing(pod));
  }
}
