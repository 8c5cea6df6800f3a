/** Image identity (internal/controller/image.go): the digest regular expression, the identity of a
    container image, and the facts that make the identity canonical. */
module ImageIdentity {
  import opened Text

  datatype Identity = Identity(key: string, displayName: string, hash: string)

  predicate IsLowerHex(c: char) { '0' <= c <= '9' || 'a' <= c <= 'f' }

  /** [a-f0-9] under the (?i) flag. */
  predicate IsHex(c: char) { IsLowerHex(c) || 'A' <= c <= 'F' }

  function ToLower(s: string): (t: string)
    ensures |t| == |s|
    ensures forall i | 0 <= i < |s| && IsHex(s[i]) :: IsLowerHex(t[i])
    ensures forall i | 0 <= i < |s| && IsLowerHex(s[i]) :: t[i] == s[i]
    ensures forall i | 0 <= i < |s| && 'A' <= s[i] <= 'F' :: t[i] as int - 'a' as int == s[i] as int - 'A' as int
  {
    seq(|s|, i requires 0 <= i < |s| => if 'A' <= s[i] <= 'Z' then ((s[i] as int) + 32) as char else s[i])
  }

  /** 64 hex digits starting at i. */
  predicate WindowAt(s: string, i: nat) {
    i + 64 <= |s| && forall j | i <= j < i + 64 :: IsHex(s[j])
  }

  /** "sha256:" at i under the (?i) flag; the long s (U+017F) folds to s. */
  predicate PrefixAt(s: string, i: nat) {
    i + 7 <= |s| && s[i] in {'s', 'S', '\U{17f}'} && s[i + 1] in {'h', 'H'} && s[i + 2] in {'a', 'A'}
    && s[i + 3] == '2' && s[i + 4] == '5' && s[i + 5] == '6' && s[i + 6] == ':'
  }

  /** Capture group 1 of the leftmost match of `(?i)(?:sha256:)?([a-f0-9]{64})` at or after i; the
      optional group prefers to match. */
  function Capture(s: string, i: nat): (m: Option<string>)
    ensures m.Some? ==> |m.value| == 64 && forall c | c in m.value :: IsHex(c)
    decreases |s| - i
  {
    if i >= |s| then None
    else if PrefixAt(s, i) && WindowAt(s, i + 7) then Some(s[i + 7..i + 71])
    else if WindowAt(s, i) then Some(s[i..i + 64])
    else Capture(s, i + 1)
  }

  function ParseImageId(imageId: string): string {
    if imageId == "" then ""
    else match Capture(imageId, 0)
      case None => ""
      case Some(hex) => "SHA256:" + ToLower(hex)
  }

  function DisplayNameForDigest(ref: string, hex: string): string {
    var at := LastIndex(ref, '@');
    if at >= 0 then ref[..at] + "@sha256:" + hex
    else if ref != "" then
      var i := LastIndex(ref, ':');
      (if i > LastIndex(ref, '/') then ref[..i] else ref) + "@sha256:" + hex
    else "sha256:" + hex
  }

  function TrimPrefix(s: string, p: string): string {
    if HasPrefix(s, p) then s[|p|..] else s
  }

  function IdentityFromImage(imageRef: string, imageId: string): Identity {
    var ref := TrimSpace(imageRef);
    var fromId := ParseImageId(imageId);
    var hash := if fromId == "" then ParseImageId(ref) else fromId;
    if hash != "" then
      var hex := TrimPrefix(hash, "SHA256:");
      Identity("sha256:" + hex, DisplayNameForDigest(ref, hex), hash)
    else Identity(ref, ref, "")
  }

  /** "sha256:" followed by exactly 64 lower-case hex digits. */
  predicate IsDigestKey(key: string) {
    |key| == 71 && key[..7] == "sha256:" && forall i | 7 <= i < 71 :: IsLowerHex(key[i])
  }

  /** The only hash an image with this key can carry. */
  function HashOfKey(key: string): string {
    if IsDigestKey(key) then "SHA256:" + key[7..] else ""
  }

  ghost predicate HasWindow(s: string) { exists i: nat :: WindowAt(s, i) }

  /** A key is a digest key, or a reference in which no digest can be found. */
  ghost predicate ValidKey(key: string) { IsDigestKey(key) || !HasWindow(key) }

  /** The display names a key can have: the reference itself, or anything that ends in the digest. */
  predicate NameFits(key: string, name: string) {
    if IsDigestKey(key) then |name| >= 71 && name[|name| - 71..] == key else name == key
  }

  /** The captured group is the leftmost 64-hex window, whatever the optional prefix does. */
  lemma {:induction false} CaptureIsFirstWindow(s: string, i: nat)
    ensures Capture(s, i).None? <==> forall j: nat | i <= j :: !WindowAt(s, j)
    ensures forall j: nat | i <= j && WindowAt(s, j) && (forall k: nat | i <= k < j :: !WindowAt(s, k)) ::
      Capture(s, i) == Some(s[j..j + 64])
    decreases |s| - i
  {
    if i >= |s| {
    } else if PrefixAt(s, i) && WindowAt(s, i + 7) {
      // every window starting in the prefix would contain its colon
      assert !IsHex(s[i + 6]);
      assert forall k: nat | i <= k < i + 7 :: !WindowAt(s, k);
      assert s[i + 7..i + 7 + 64] == s[i + 7..i + 71];
    } else if !WindowAt(s, i) {
      CaptureIsFirstWindow(s, i + 1);
    }
  }

  /** parseImageID finds a hash exactly when there is a 64-hex window, and the hash is the first
      window in lower case. */
  lemma ParseImageIdIsFirstWindow(s: string)
    ensures ParseImageId(s) == "" <==> !HasWindow(s)
    ensures forall i: nat | WindowAt(s, i) && (forall j: nat | j < i :: !WindowAt(s, j)) ::
      ParseImageId(s) == "SHA256:" + ToLower(s[i..i + 64])
  {
    CaptureIsFirstWindow(s, 0);
    if s == "" { assert forall i: nat :: !WindowAt(s, i); }
    forall i: nat | WindowAt(s, i) && (forall j: nat | j < i :: !WindowAt(s, j))
      ensures ParseImageId(s) == "SHA256:" + ToLower(s[i..i + 64])
    {
      assert forall k: nat | 0 <= k < i :: !WindowAt(s, k);
    }
  }

  lemma DigestOf(s: string)
    requires ParseImageId(s) != ""
    ensures var hash := ParseImageId(s);
      var hex := TrimPrefix(hash, "SHA256:");
      IsDigestKey("sha256:" + hex) && hash == "SHA256:" + hex
  {
    var m := Capture(s, 0).value;
    var hash := ParseImageId(s);
    assert hash[..7] == "SHA256:" && hash[7..] == ToLower(m);
    assert forall i | 0 <= i < 64 :: m[i] in m;
    var key := "sha256:" + hash[7..];
    assert key[..7] == "sha256:";
    assert forall i | 7 <= i < 71 :: key[i] == ToLower(m)[i - 7];
  }

  /** The hash of an identity is a function of its key: equal keys have equal hashes, a hash is
      present exactly for digest keys, and the display name determines the key. */
  lemma IdentityIsCanonical(ref: string, imageId: string)
    ensures var id := IdentityFromImage(ref, imageId);
      ValidKey(id.key) && id.hash == HashOfKey(id.key) && NameFits(id.key, id.displayName)
  {
    var r := TrimSpace(ref);
    var hash := if ParseImageId(imageId) == "" then ParseImageId(r) else ParseImageId(imageId);
    if hash != "" {
      DigestOf(if ParseImageId(imageId) == "" then r else imageId);
      var hex := TrimPrefix(hash, "SHA256:");
      assert ("sha256:" + hex)[7..] == hex;
      NameEndsInDigest(r, hex);
    } else {
      ParseImageIdIsFirstWindow(r);
      DigestNamesHaveWindow(r, r);
    }
  }

  lemma NameEndsInDigest(ref: string, hex: string)
    requires |hex| == 64
    ensures var name := DisplayNameForDigest(ref, hex);
      |name| >= 71 && name[|name| - 71..] == "sha256:" + hex
  {
    var name := DisplayNameForDigest(ref, hex);
    if ref != "" {
      var base := if LastIndex(ref, '@') >= 0 then ref[..LastIndex(ref, '@')]
        else if LastIndex(ref, ':') > LastIndex(ref, '/') then ref[..LastIndex(ref, ':')] else ref;
      assert name == base + "@" + ("sha256:" + hex);
    }
  }

  /** The first 64-hex window of a string. */
  ghost predicate FirstWindow(s: string, i: nat) {
    WindowAt(s, i) && forall j: nat | j < i :: !WindowAt(s, j)
  }

  /** Where an identity comes from: the first digest of the image id or, if that has none, of the trimmed
      reference; without any digest the trimmed reference is key and name. */
  lemma IdentityFromFirstDigest(ref: string, imageId: string, i: nat)
    ensures var r, id := TrimSpace(ref), IdentityFromImage(ref, imageId);
      var from := if HasWindow(imageId) then imageId else r;
      && (!HasWindow(from) ==> id == Identity(r, r, ""))
      && (FirstWindow(from, i) ==>
            var hex := ToLower(from[i..i + 64]);
            id == Identity("sha256:" + hex, DisplayNameForDigest(r, hex), "SHA256:" + hex))
  {
    var r := TrimSpace(ref);
    var from := if HasWindow(imageId) then imageId else r;
    ParseImageIdIsFirstWindow(imageId);
    ParseImageIdIsFirstWindow(r);
    hide TrimSpace, DisplayNameForDigest, ParseImageId;
    if FirstWindow(from, i) {
      var hash := "SHA256:" + ToLower(from[i..i + 64]);
      assert ParseImageId(from) == hash;
      assert hash[..7] == "SHA256:" && hash[7..] == ToLower(from[i..i + 64]);
    }
  }

  lemma LastIndexAt(a: string, c: char, b: string)
    ensures c !in b ==> LastIndex(a + [c] + b, c) == |a|
    ensures c !in b ==> LastIndex(b, c) == -1
  {
    var s := a + [c] + b;
    assert s[|a|] == c;
    assert forall i | |a| < i < |s| :: s[i] == b[i - |a| - 1];
  }

  /** The display name of an image with a digest, by what comes last in the reference: an earlier digest
      and a tag are replaced, a port of the registry host is not taken for a tag. */
  lemma DisplayNames(repo: string, rest: string, hex: string)
    requires '@' !in rest
    ensures DisplayNameForDigest(repo + "@" + rest, hex) == repo + "@sha256:" + hex
    ensures '@' !in repo && ':' !in rest && '/' !in rest ==>
      && DisplayNameForDigest(repo + ":" + rest, hex) == repo + "@sha256:" + hex
      && DisplayNameForDigest(repo + "/" + rest, hex) == repo + "/" + rest + "@sha256:" + hex
      && DisplayNameForDigest(rest, hex) == (if rest == "" then "" else rest + "@") + "sha256:" + hex
  {
    var at, tagged, plain := repo + "@" + rest, repo + ":" + rest, repo + "/" + rest;
    LastIndexAt(repo, '@', rest);
    LastIndexAt(repo, ':', rest);
    LastIndexAt(repo, '/', rest);
    assert at == repo + ['@'] + rest && at[..|repo|] == repo;
    assert tagged == repo + [':'] + rest && tagged[..|repo|] == repo && plain == repo + ['/'] + rest;
    if '@' !in repo && ':' !in rest && '/' !in rest {
      NotLaterThan(repo, ":" + rest, '/');
      NotLaterThan(repo, "/" + rest, ':');
    }
  }

  lemma NotLaterThan(a: string, b: string, c: char)
    requires c !in b
    ensures LastIndex(a + b, c) < |a|
  {
    assert forall i | |a| <= i < |a + b| :: (a + b)[i] == b[i - |a|];
  }

  /** A key fed back as an image reference is its own identity. */
  lemma IdentityOfKey(ref: string, imageId: string)
    ensures var id := IdentityFromImage(ref, imageId);
      IdentityFromImage(id.key, "").key == id.key && IdentityFromImage(id.key, "").hash == id.hash
  {
    IdentityIsCanonical(ref, imageId);
    KeyIsTrimmed(ref, imageId);
    hide *;
    KeyIsItsOwn(IdentityFromImage(ref, imageId).key);
  }

  lemma KeyIsItsOwn(key: string)
    requires ValidKey(key) && TrimSpace(key) == key
    ensures IdentityFromImage(key, "").key == key && IdentityFromImage(key, "").hash == HashOfKey(key)
  {
    assert ParseImageId("") == "";
    if IsDigestKey(key) {
      DigestKeyParses(key);
      var hash := "SHA256:" + key[7..];
      assert hash[..7] == "SHA256:" && hash[7..] == key[7..];
      hide Capture, TrimSpace, IsDigestKey;
    } else {
      ParseImageIdIsFirstWindow(key);
      hide Capture, TrimSpace, IsDigestKey;
    }
  }

  lemma KeyIsTrimmed(ref: string, imageId: string)
    ensures var key := IdentityFromImage(ref, imageId).key; TrimSpace(key) == key
  {
    var key := IdentityFromImage(ref, imageId).key;
    IdentityIsCanonical(ref, imageId);
    hide Capture, ParseImageId, TrimSpace, DisplayNameForDigest;
    if IsDigestKey(key) {
      DigestKeyIsTrimmed(key);
    } else {
      NoDigestNoHash(ref, imageId);
      TrimSpaceTrims(ref);
    }
    TrimSpaceTrims(key);
  }

  lemma DigestKeyIsTrimmed(key: string)
    requires IsDigestKey(key)
    ensures Trimmed(key)
  {
    assert key[0] == key[..7][0] == 's';
  }

  /** A key that is no digest key is the trimmed reference. */
  lemma NoDigestNoHash(ref: string, imageId: string)
    requires !IsDigestKey(IdentityFromImage(ref, imageId).key)
    ensures IdentityFromImage(ref, imageId).key == TrimSpace(ref)
  {
    var r := TrimSpace(ref);
    var from := if ParseImageId(imageId) == "" then r else imageId;
    if ParseImageId(from) != "" { DigestOf(from); }
    hide Capture, ParseImageId, TrimSpace, DisplayNameForDigest;
  }

  lemma DigestKeyParses(key: string)
    requires IsDigestKey(key)
    ensures ParseImageId(key) == "SHA256:" + key[7..]
    ensures key == "sha256:" + key[7..]
  {
    DigestKeyWindow(key);
    ParseImageIdIsFirstWindow(key);
    assert key[..7] == "sha256:" && key == key[..7] + key[7..];
    hide *;
  }

  /** The first window of a digest key is its digest. */
  lemma DigestKeyWindow(key: string)
    requires IsDigestKey(key)
    ensures WindowAt(key, 7) && (forall j: nat | j < 7 :: !WindowAt(key, j))
    ensures ToLower(key[7..7 + 64]) == key[7..]
  {
    assert key[6] == key[..7][6] == ':';
    assert !IsHex(key[6]);
    assert key[7..7 + 64] == key[7..] && ToLower(key[7..]) == key[7..];
  }

  /** A display name fits at most one valid key: the name lookup cannot confuse two images. */
  lemma NameDeterminesKey(j: string, k: string, name: string)
    requires ValidKey(j) && ValidKey(k) && NameFits(j, name) && NameFits(k, name)
    ensures j == k
  {
    DigestNamesHaveWindow(j, name);
    DigestNamesHaveWindow(k, name);
  }

  lemma DigestNamesHaveWindow(key: string, name: string)
    ensures IsDigestKey(key) && NameFits(key, name) ==> HasWindow(name)
  {
    if IsDigestKey(key) && NameFits(key, name) {
      var at := |name| - 64;
      assert forall i | at <= i < at + 64 :: name[i] == key[i - at + 7];
      assert WindowAt(name, at);
    }
  }

  /** A non-empty hash belongs to at most one key. */
  lemma HashDeterminesKey(j: string, k: string)
    requires HashOfKey(j) == HashOfKey(k) != ""
    ensures j == k
  {
    assert j == "sha256:" + j[7..] && k == "sha256:" + k[7..];
    assert ("SHA256:" + j[7..])[7..] == j[7..] && ("SHA256:" + k[7..])[7..] == k[7..];
  }
}
