/** Names of Helm release Secrets (internal/helm/decode.go): "sh.helm.release.v1.<release>.v<revision>". */
module HelmSecretName {
  import opened Text

  datatype Parts = Parts(release: string, revision: int)

  /** A 64-bit signed int after overflow. */
  function Wrap(n: int): int {
    (n + 0x8000_0000_0000_0000) % 0x1_0000_0000_0000_0000 - 0x8000_0000_0000_0000
  }

  predicate IsDigit(c: char) { '0' <= c <= '9' }

  function DigitValue(c: char): int { c as int - '0' as int }

  predicate AllDigits(s: string) { forall c | c in s :: IsDigit(c) }

  /** The number a string of decimal digits denotes. */
  function ValueOf(digits: string): nat
    requires AllDigits(digits)
  {
    if digits == "" then 0
    else
      assert digits[|digits| - 1] in digits;
      10 * ValueOf(digits[..|digits| - 1]) + DigitValue(digits[|digits| - 1])
  }

  /** Decimal notation of a natural number. */
  function Decimal(n: nat): string {
    if n < 10 then [('0' as int + n) as char] else Decimal(n / 10) + [('0' as int + n % 10) as char]
  }

  const PREFIX := ["sh", "helm", "release", "v1"]

  /** A name is parsed exactly when it splits into the fixed prefix, a release name of at least one
      part, and a last part of 'v' and digits. */
  ghost predicate WellFormed(parts: seq<string>) {
    |parts| >= 6 && parts[..4] == PREFIX
    && var last := parts[|parts| - 1];
       last != "" && last[0] == 'v' && AllDigits(last[1..])
  }

  ghost function PartsOf(parts: seq<string>): Parts
    requires WellFormed(parts)
  {
    Parts(Join(parts[4..|parts| - 1], '.'), Wrap(ValueOf(parts[|parts| - 1][1..])))
  }

  ghost function ParseSecretName(name: string): Option<Parts> {
    var parts := Split(name, '.');
    if WellFormed(parts) then Some(PartsOf(parts)) else None
  }

  lemma WrapStep(n: nat, d: int)
    ensures Wrap(Wrap(n) * 10 + d) == Wrap(n * 10 + d)
  {
    var m := 0x1_0000_0000_0000_0000;
    var q := (n + 0x8000_0000_0000_0000) / m;
    assert Wrap(n) == n - q * m;
    ModShift(n * 10 + d + 0x8000_0000_0000_0000, -10 * q, m);
    assert Wrap(n) * 10 + d + 0x8000_0000_0000_0000 == n * 10 + d + 0x8000_0000_0000_0000 + -10 * q * m;
  }

  lemma ModShift(a: int, k: int, m: int)
    requires m > 0
    ensures (a + k * m) % m == a % m
  {
    var q := a / m;
    assert a + k * m == (q + k) * m + a % m;
    ModUnique(a + k * m, q + k, a % m, m);
  }

  lemma ModUnique(a: int, q: int, r: int, m: int)
    requires m > 0 && a == q * m + r && 0 <= r < m
    ensures a % m == r
  {
    var d := a / m - q;
    assert a % m - r == -(d * m);
    assert d >= 1 ==> d * m >= m;
    assert d <= -1 ==> d * m <= -m;
  }

  method SecretNameParts(secretName: string) returns (r: Option<Parts>)
    ensures r == ParseSecretName(secretName)
  {
    var parts := Split(secretName, '.');
    if |parts| < 6 { return None; }
    if parts[0] != "sh" || parts[1] != "helm" || parts[2] != "release" || parts[3] != "v1" { return None; }
    assert parts[..4] == PREFIX;
    var last := parts[|parts| - 1];
    if !HasPrefix(last, "v") {
      assert last != "" ==> last[..1] == [last[0]];
      return None;
    }
    assert last[0] == last[..1][0] == 'v';
    var revStr := last[1..];
    var rev := 0;
    for i := 0 to |revStr|
      invariant AllDigits(revStr[..i]) && rev == Wrap(ValueOf(revStr[..i]))
    {
      var c := revStr[i];
      if c < '0' || c > '9' {
        assert c in revStr && !IsDigit(c);
        return None;
      }
      assert revStr[..i + 1] == revStr[..i] + [c];
      WrapStep(ValueOf(revStr[..i]), DigitValue(c));
      assert revStr[..i + 1][..i] == revStr[..i];
      rev := Wrap(rev * 10 + DigitValue(c));
    }
    assert revStr[..|revStr|] == revStr;
    return Some(Parts(Join(parts[4..|parts| - 1], '.'), rev));
  }

  // ---- the parser inverts the printer ----

  function Print(release: string, revision: nat): string {
    "sh.helm.release.v1." + release + ".v" + Decimal(revision)
  }

  lemma {:induction false} DecimalLaws(n: nat)
    ensures AllDigits(Decimal(n)) && ValueOf(Decimal(n)) == n && '.' !in Decimal(n)
  {
    if n >= 10 {
      DecimalLaws(n / 10);
      var d := ('0' as int + n % 10) as char;
      assert Decimal(n)[..|Decimal(n)| - 1] == Decimal(n / 10);
    } else {
      var d := ('0' as int + n) as char;
      assert Decimal(n) == [d] && [d][..0] == "" && ValueOf("") == 0;
    }
  }

  lemma SplitHead(head: string, rest: string)
    requires '.' !in head
    ensures Split(head + "." + rest, '.') == [head] + Split(rest, '.')
  {
    SplitAtom(head, '.');
    SplitConcat(head, rest, '.');
  }

  lemma PrefixSplits(rest: string)
    ensures Split("sh.helm.release.v1." + rest, '.') == PREFIX + Split(rest, '.')
  {
    hide Split;
    SplitHead("v1", rest);
    var t3 := "v1" + "." + rest;
    SplitHead("release", t3);
    var t2 := "release" + "." + t3;
    SplitHead("helm", t2);
    var t1 := "helm" + "." + t2;
    SplitHead("sh", t1);
    assert "sh.helm.release.v1." + rest == "sh" + "." + t1;
  }

  lemma PrintSplits(release: string, revision: nat)
    ensures Split(Print(release, revision), '.') == PREFIX + Split(release, '.') + ["v" + Decimal(revision)]
  {
    DecimalLaws(revision);
    var last := "v" + Decimal(revision);
    hide Split, Decimal;
    SplitAtom(last, '.');
    SplitConcat(release, last, '.');
    var rest := release + "." + last;
    PrefixSplits(rest);
    assert Print(release, revision) == "sh.helm.release.v1." + rest;
  }

  /** For every release name, dots included, and every revision the parser returns the release name
      and the revision as a 64-bit int. */
  lemma ParseOfPrint(release: string, revision: nat)
    ensures ParseSecretName(Print(release, revision)) == Some(Parts(release, Wrap(revision)))
  {
    PrintSplits(release, revision);
    DecimalLaws(revision);
    JoinSplit(release, '.');
    var last := "v" + Decimal(revision);
    var parts := PREFIX + Split(release, '.') + [last];
    assert parts[..4] == PREFIX;
    assert parts[|parts| - 1] == last && last[1..] == Decimal(revision);
    assert parts[4..|parts| - 1] == Split(release, '.');
  }

  /** The revision comes back unchanged exactly when it fits a 64-bit int. */
  lemma RoundTrip(release: string, revision: nat)
    ensures ParseSecretName(Print(release, revision)) == Some(Parts(release, revision)) <==>
      revision < 0x8000_0000_0000_0000
  {
    ParseOfPrint(release, revision);
  }

  /** Conversely, a name that parses is the fixed prefix, the release name, and 'v' with digits. */
  lemma ParsedIsPrinted(name: string) returns (digits: string)
    requires ParseSecretName(name).Some?
    ensures AllDigits(digits)
    ensures name == "sh.helm.release.v1." + ParseSecretName(name).value.release + ".v" + digits
    ensures ParseSecretName(name).value.revision == Wrap(ValueOf(digits))
  {
    var parts := Split(name, '.');
    digits := parts[|parts| - 1][1..];
    JoinSplit(name, '.');
    WellFormedSplits(parts);
    var n := |parts|;
    var release := Join(parts[4..n - 1], '.');
    assert AllDigits(digits) && ParseSecretName(name).value == Parts(release, Wrap(ValueOf(digits)));
    hide *;
    JoinThree(parts[..4], parts[4..n - 1], parts[n - 1]);
    JoinPrefix();
    Regroup(Join(PREFIX, '.'), "sh.helm.release.v1.", release, parts[n - 1]);
  }

  lemma WellFormedSplits(parts: seq<string>)
    requires WellFormed(parts)
    ensures var n := |parts|;
      && n >= 6 && parts == parts[..4] + (parts[4..n - 1] + [parts[n - 1]]) && parts[..4] == PREFIX
      && parts[n - 1] != "" && parts[n - 1] == "v" + parts[n - 1][1..]
  {
  }

  lemma JoinThree(head: seq<string>, middle: seq<string>, last: string)
    requires head != [] && middle != []
    ensures Join(head + (middle + [last]), '.') == Join(head, '.') + "." + (Join(middle, '.') + "." + last)
  {
    JoinOne(last);
    JoinConcat(head, middle + [last]);
    JoinConcat(middle, [last]);
  }

  lemma Regroup(head: string, dotted: string, release: string, last: string)
    requires head + "." == dotted && last != "" && last == "v" + last[1..]
    ensures head + "." + (release + "." + last) == dotted + release + ".v" + last[1..]
  {
    assert head + "." + (release + "." + ("v" + last[1..])) == (head + ".") + release + ("." + "v") + last[1..];
    assert "." + "v" == ".v";
  }

  lemma JoinOne(part: string)
    ensures Join([part], '.') == part
  {
  }

  lemma JoinCons(part: string, rest: seq<string>)
    requires rest != []
    ensures Join([part] + rest, '.') == part + "." + Join(rest, '.')
  {
    assert ([part] + rest)[1..] == rest;
  }

  lemma JoinFour(a: string, b: string, c: string, d: string)
    ensures Join([a, b, c, d], '.') == a + "." + (b + "." + (c + "." + d))
  {
    JoinOne(d);
    JoinCons(c, [d]);
    JoinCons(b, [c] + [d]);
    JoinCons(a, [b] + ([c] + [d]));
    assert [a, b, c, d] == [a] + ([b] + ([c] + [d]));
  }

  lemma JoinPrefix()
    ensures Join(PREFIX, '.') + "." == "sh.helm.release.v1."
  {
    JoinFour("sh", "helm", "release", "v1");
    hide Join;
    assert "release" + "." + "v1" == "release.v1";
    assert "helm" + "." + "release.v1" == "helm.release.v1";
    assert "sh" + "." + "helm.release.v1" + "." == "sh.helm.release.v1.";
  }

  lemma {:induction false} JoinConcat(a: seq<string>, b: seq<string>)
    requires a != [] && b != []
    ensures Join(a + b, '.') == Join(a, '.') + "." + Join(b, '.')
  {
    if |a| == 1 {
      assert (a + b)[1..] == b;
    } else {
      JoinConcat(a[1..], b);
      assert (a + b)[1..] == a[1..] + b;
    }
  }

  /** Up to 18 digits cannot overflow. */
  lemma {:induction false} ShortRevisionsAreExact(digits: string)
    requires AllDigits(digits) && |digits| <= 18
    ensures ValueOf(digits) < Power10(|digits|) && Wrap(ValueOf(digits)) == ValueOf(digits)
  {
    ValueBound(digits);
    assert Power10(18) == 1_000_000_000_000_000_000 by { PowersOf10(); }
    PowerMonotone(|digits|, 18);
  }

  function Power10(n: nat): nat {
    if n == 0 then 1 else 10 * Power10(n - 1)
  }

  lemma PowersOf10()
    ensures Power10(18) == 1_000_000_000_000_000_000
  {
    assert Power10(6) == 1_000_000;
    assert Power10(12) == 1_000_000_000_000;
  }

  lemma {:induction false} ValueBound(digits: string)
    requires AllDigits(digits)
    ensures ValueOf(digits) < Power10(|digits|)
  {
    if digits != "" {
      ValueBound(digits[..|digits| - 1]);
      assert IsDigit(digits[|digits| - 1]);
    }
  }

  lemma {:induction false} PowerMonotone(m: nat, n: nat)
    requires m <= n
    ensures Power10(m) <= Power10(n)
    decreases n
  {
    if m < n { PowerMonotone(m, n - 1); }
  }
}
