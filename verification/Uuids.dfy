/** Identifiers. `uuid.NewSHA1` (UUIDv5, section 5.5 of RFC 9562) is symbolic here: a free
    constructor, hence injective in its name space and its bytes. What stays to be proved is that
    the byte strings the sensor hashes are themselves injective encodings. */
module Uuids {

  /** The fixed name-space UUIDs of the sensor. */
  datatype Space =
    | FindingSpace | ImageArtifactSpace | HelmSpace | MissingSubjectSpace | MissingRoleSpecSpace | CrdMissingSpace

  /** One byte of a hashed name: a character of a string, or byte `index` of a UUID. */
  datatype Octet = Char(c: char) | Byte(id: Uuid, index: nat)

  /** `Nil` is uuid.Nil, `Given` an identifier assigned outside the sensor (a Kubernetes UID, an
      annotation value, a foreign entity), `V5` a derived one. */
  datatype Uuid = Nil | Given(n: nat) | V5(space: Space, name: seq<Octet>)

  function Octets(s: string): seq<Octet> {
    seq(|s|, i requires 0 <= i < |s| => Char(s[i]))
  }

  function IdBytes(id: Uuid): seq<Octet> {
    seq(16, i requires 0 <= i < 16 => Byte(id, i))
  }

  type FindingKind = string

  const IMAGE_NOT_RETRIEVED: FindingKind := "ImageNotRetrieved"
  const REFERENCED_RESOURCE_NOT_FOUND: FindingKind := "ReferencedResourceNotFound"
  const MISSING_RESOURCE_REFERENCE: FindingKind := "MissingResourceReference"
  const CRD_NOT_AVAILABLE: FindingKind := "CRDNotAvailable"

  /** The finding kind followed by the 16 bytes of the subject. */
  function ReferenceFindingId(subject: Uuid, kind: FindingKind): Uuid {
    V5(FindingSpace, Octets(kind) + IdBytes(subject))
  }

  function SubjectFindingId(binding: Uuid): Uuid {
    V5(MissingSubjectSpace, IdBytes(binding))
  }

  function RoleSpecFindingId(role: Uuid): Uuid {
    V5(MissingRoleSpecSpace, IdBytes(role))
  }

  function ArtifactId(key: string): Uuid {
    V5(ImageArtifactSpace, Octets("artifact:" + key))
  }

  function ArtifactInstanceId(key: string): Uuid {
    V5(ImageArtifactSpace, Octets("instance:" + key))
  }

  function HelmReleaseId(releaseKey: string): Uuid {
    V5(HelmSpace, Octets(releaseKey))
  }

  lemma OctetsInjective(s: string, t: string)
    ensures Octets(s) == Octets(t) <==> s == t
  {
    if Octets(s) == Octets(t) {
      assert |s| == |Octets(s)| == |t|;
      forall i | 0 <= i < |s| ensures s[i] == t[i] {
        assert Octets(s)[i] == Octets(t)[i];
      }
    }
  }

  lemma IdBytesInjective(a: Uuid, b: Uuid)
    ensures IdBytes(a) == IdBytes(b) <==> a == b
  {
    assert IdBytes(a)[0] == Byte(a, 0) && IdBytes(b)[0] == Byte(b, 0);
  }

  /** A variable-length prefix followed by a fixed-length suffix splits in one way only. */
  lemma FixedSuffixSplits<T>(p: seq<T>, s: seq<T>, q: seq<T>, t: seq<T>)
    requires |s| == |t|
    requires p + s == q + t
    ensures p == q && s == t
  {
    assert |p| == |q|;
    assert p == (p + s)[..|p|] == (q + t)[..|q|] == q;
    assert s == (p + s)[|p|..] == (q + t)[|q|..] == t;
  }

  /** Reference findings never collide: equal ids mean equal subject and equal kind. */
  lemma ReferenceFindingIdInjective(a: Uuid, k: FindingKind, b: Uuid, l: FindingKind)
    ensures ReferenceFindingId(a, k) == ReferenceFindingId(b, l) <==> a == b && k == l
  {
    if ReferenceFindingId(a, k) == ReferenceFindingId(b, l) {
      FixedSuffixSplits(Octets(k), IdBytes(a), Octets(l), IdBytes(b));
      OctetsInjective(k, l);
      IdBytesInjective(a, b);
    }
  }

  /** Artifact and instance ids are injective in the image key, and the two families are disjoint. */
  lemma ImageIdsInjective(j: string, k: string)
    ensures ArtifactId(j) == ArtifactId(k) <==> j == k
    ensures ArtifactInstanceId(j) == ArtifactInstanceId(k) <==> j == k
    ensures ArtifactId(j) != ArtifactInstanceId(k)
  {
    OctetsInjective("artifact:" + j, "artifact:" + k);
    OctetsInjective("instance:" + j, "instance:" + k);
    OctetsInjective("artifact:" + j, "instance:" + k);
    assert ("artifact:" + j)[9..] == j && ("artifact:" + k)[9..] == k;
    assert ("instance:" + j)[9..] == j && ("instance:" + k)[9..] == k;
    assert ("artifact:" + j)[0] != ("instance:" + k)[0];
  }

  lemma SubjectFindingIdInjective(a: Uuid, b: Uuid)
    ensures SubjectFindingId(a) == SubjectFindingId(b) <==> a == b
  {
    IdBytesInjective(a, b);
  }

  lemma RoleSpecFindingIdInjective(a: Uuid, b: Uuid)
    ensures RoleSpecFindingId(a) == RoleSpecFindingId(b) <==> a == b
  {
    IdBytesInjective(a, b);
  }

  lemma HelmReleaseIdInjective(j: string, k: string)
    ensures HelmReleaseId(j) == HelmReleaseId(k) <==> j == k
  {
    OctetsInjective(j, k);
  }
}
