/** The observations depend on the order of the pods: two pods that pull one digest under different names,
    in either order. */
module PodOrder {
  import opened Text
  import opened ImageIdentity
  import opened ImageObservations

  /** A container that was pulled but runs no more than it failed. */
  function Pulled(image: string, digest: string): ContainerStatus {
    ContainerStatus(image, digest, false, false, None)
  }

  function PodOf(image: string, digest: string): Pod {
    Pod("ns", image, "", [], [], [], [Pulled(image, digest)], [], [])
  }

  /** A bare name without tag or digest. */
  predicate Bare(image: string) {
    image != "" && '@' !in image && ':' !in image && Trimmed(image)
  }

  lemma IdentityOfPulled(image: string, digest: string)
    requires Bare(image) && IsDigestKey(digest)
    ensures IdentityFromImage(image, digest) == Identity(digest, image + "@" + digest, "SHA256:" + digest[7..])
  {
    DigestKeyParses(digest);
    TrimSpaceTrims(image);
    var hex, hash := digest[7..], "SHA256:" + digest[7..];
    assert hash[..7] == "SHA256:" && hash[7..] == hex;
    assert DisplayNameForDigest(image, hex) == image + "@" + digest;
    hide ParseImageId, TrimSpace, DisplayNameForDigest, IsDigestKey;
  }

  lemma QuietStatus(t: Table, pod: Pod, cs: ContainerStatus)
    requires !ContainerStarted(cs) && !ContainerPullFailed(cs)
    requires IdentityFromImage(cs.image, cs.imageId).key != "" && TrimSpace(cs.image) !in t
    requires TrimSpace(cs.image) != IdentityFromImage(cs.image, cs.imageId).key
    ensures ObserveStatus(t, pod, cs) == Ensure(t, IdentityFromImage(cs.image, cs.imageId))
  {
    hide IdentityFromImage, TrimSpace;
  }

  lemma QuietPod(t: Table, image: string, digest: string)
    requires Bare(image) && IsDigestKey(digest) && image !in t
    ensures ObservePod(t, PodOf(image, digest)) == Ensure(t, IdentityFromImage(image, digest))
  {
    var pod, cs := PodOf(image, digest), Pulled(image, digest);
    IdentityOfPulled(image, digest);
    TrimSpaceTrims(image);
    assert image != digest by { assert digest[6] == digest[..7][6] == ':'; }
    hide IdentityFromImage, TrimSpace, IsDigestKey;
    QuietStatus(t, pod, cs);
    assert ObserveStatuses(t, pod, [cs]) == ObserveStatus(t, pod, cs) by { assert [cs][..0] == []; }
    assert pod.Declared() == [];
  }

  lemma CollectTwo(p: Pod, q: Pod)
    ensures Collect([p, q]) == Settled(ObservePod(ObservePod(map[], p), q))
  {
    hide ObservePod, Settled;
    assert [p, q][..1] == [p] && [p][..0] == [];
    assert ObservePods([p]) == ObservePod(map[], p);
  }

  function OneEntry(digest: string, name: string): Table
    requires IsDigestKey(digest)
  {
    map[digest := New(Identity(digest, name, "SHA256:" + digest[7..]))]
  }

  lemma EnsureTwice(digest: string, name: string, other: string)
    requires IsDigestKey(digest)
    ensures var t, hash := OneEntry(digest, name), "SHA256:" + digest[7..];
      && Ensure(map[], Identity(digest, name, hash)) == t && Ensure(t, Identity(digest, other, hash)) == t
      && Settled(t) == t && t.Keys == {digest}
  {
  }

  /** The pod that comes first gives the artifact its display name. */
  lemma FirstNameWins(first: string, second: string, digest: string)
    requires Bare(first) && Bare(second) && IsDigestKey(digest)
    ensures Collect([PodOf(first, digest), PodOf(second, digest)]) == OneEntry(digest, first + "@" + digest)
  {
    assert second != digest by { assert digest[6] == digest[..7][6] == ':'; }
    hide *;
    var t := OneEntry(digest, first + "@" + digest);
    EnsureTwice(digest, first + "@" + digest, second + "@" + digest);
    IdentityOfPulled(first, digest);
    IdentityOfPulled(second, digest);
    QuietPod(map[], first, digest);
    assert second !in t.Keys;
    QuietPod(t, second, digest);
    CollectTwo(PodOf(first, digest), PodOf(second, digest));
  }

  lemma SameSuffix(first: string, second: string, suffix: string)
    ensures first + suffix == second + suffix <==> first == second
  {
    if first + suffix == second + suffix {
      assert |first| == |second|;
      assert first == (first + suffix)[..|first|] == (second + suffix)[..|second|] == second;
    }
  }

  lemma EntriesDiffer(digest: string, first: string, second: string)
    requires IsDigestKey(digest)
    ensures OneEntry(digest, first) == OneEntry(digest, second) <==> first == second
  {
    assert OneEntry(digest, first)[digest].displayName == first;
    assert OneEntry(digest, second)[digest].displayName == second;
  }

  /** Two pods that pull one digest under bare names: swapping the pods changes the result of the fold
      unless the names are the same. */
  lemma SwapChangesName(first: string, second: string, digest: string)
    requires Bare(first) && Bare(second) && IsDigestKey(digest)
    ensures var p, q := PodOf(first, digest), PodOf(second, digest);
      Collect([p, q]) == Collect([q, p]) <==> first == second
  {
    hide *;
    FirstNameWins(first, second, digest);
    FirstNameWins(second, first, digest);
    EntriesDiffer(digest, first + "@" + digest, second + "@" + digest);
    SameSuffix(first, second, "@" + digest);
    assert first + ("@" + digest) == first + "@" + digest && second + ("@" + digest) == second + "@" + digest;
  }

  /** There are such names and digests. */
  lemma NamesAndDigestsExist()
    ensures Bare("a") && Bare("b") && IsDigestKey("sha256:" + seq(64, _ => '0'))
  {
    assert ("sha256:" + seq(64, _ => '0'))[..7] == "sha256:";
  }
}
