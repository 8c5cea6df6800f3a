/** The registry of compiled finding rules (internal/controller/rule_registry.go), and the event log
    it refines. `T` stands for the compiled program with the finding metadata. */
module RuleRepo {
  import opened Text

  datatype CompiledRule<T> = CompiledRule(name: string, body: T)

  // ---- the registry as a value ----

  type Table<T> = map<string, seq<CompiledRule<T>>>

  function Lookup<T>(t: Table<T>, key: string): seq<CompiledRule<T>> {
    if key in t then t[key] else []
  }

  function NotNamed<T>(rules: seq<CompiledRule<T>>, name: string): seq<CompiledRule<T>> {
    if rules == [] then []
    else
      var n := |rules| - 1;
      NotNamed(rules[..n], name) + if rules[n].name != name then [rules[n]] else []
  }

  function Without<T>(t: Table<T>, name: string): Table<T> {
    map k | k in t && NotNamed(t[k], name) != [] :: NotNamed(t[k], name)
  }

  /** One key loses the rule, and goes when nothing is left. */
  function Forgetting<T>(t: Table<T>, key: string, name: string): Table<T>
    requires key in t
  {
    if NotNamed(t[key], name) == [] then t - {key} else t[key := NotNamed(t[key], name)]
  }

  /** While the keys `todo` still have to lose the rule. */
  function Midway<T>(t: Table<T>, todo: set<string>, name: string): Table<T> {
    map k | k in t && (k in todo || NotNamed(t[k], name) != []) :: if k in todo then t[k] else NotNamed(t[k], name)
  }

  function Added<T>(t: Table<T>, keys: seq<string>, rule: CompiledRule<T>): Table<T> {
    if keys == [] then t
    else
      var n := |keys| - 1;
      var before := Added(t, keys[..n], rule);
      before[keys[n] := Lookup(before, keys[n]) + [rule]]
  }

  function ResourceKey(group: string, resource: string): string { group + "/" + resource }

  function KeysOfGroup(group: string, resources: seq<string>): seq<string> {
    seq(|resources|, i requires 0 <= i < |resources| => ResourceKey(group, resources[i]))
  }

  function TargetKeys(groups: seq<string>, resources: seq<string>): seq<string> {
    if groups == [] then []
    else TargetKeys(groups[..|groups| - 1], resources) + KeysOfGroup(groups[|groups| - 1], resources)
  }

  // ---- the event log ----

  /** A call of Set, with the outcome of compiling the condition, or a call of Remove. */
  datatype Event<T> =
    | SetRule(name: string, compiled: Option<T>, groups: seq<string>, resources: seq<string>)
    | RemoveRule(name: string)
  {
    /** Whether earlier entries of this event's rule are gone afterwards. */
    predicate Replaces() { RemoveRule? || compiled.Some? }
  }

  function Apply<T>(t: Table<T>, e: Event<T>): Table<T> {
    match e
    case RemoveRule(name) => Without(t, name)
    case SetRule(name, None, _, _) => t
    case SetRule(name, Some(body), groups, resources) =>
      Added(Without(t, name), TargetKeys(groups, resources), CompiledRule(name, body))
  }

  function Run<T>(log: seq<Event<T>>): Table<T> {
    if log == [] then map[] else Apply(Run(log[..|log| - 1]), log[|log| - 1])
  }

  /** Event i stored a rule that no later event replaced. */
  predicate Survives<T>(log: seq<Event<T>>, i: nat)
    requires i < |log|
  {
    log[i].SetRule? && log[i].compiled.Some?
    && forall j | i < j < |log| :: log[j].name == log[i].name ==> !log[j].Replaces()
  }

  function Count(keys: seq<string>, key: string): nat {
    if keys == [] then 0 else Count(keys[..|keys| - 1], key) + if keys[|keys| - 1] == key then 1 else 0
  }

  function Repeat<T>(x: T, n: nat): seq<T> {
    seq(n, i => x)
  }

  /** The pairs of a target's group and resource that make up the key. */
  function Pairs(groups: seq<string>, resources: seq<string>, key: string): set<(nat, nat)> {
    set i: nat, j: nat | i < |groups| && j < |resources| && groups[i] + "/" + resources[j] == key :: (i, j)
  }

  /** What event i contributes to the rules of `key`: one copy for every pair that makes up the key. */
  function Contribution<T>(e: Event<T>, key: string): seq<CompiledRule<T>>
    requires e.SetRule? && e.compiled.Some?
  {
    Repeat(CompiledRule(e.name, e.compiled.value), |Pairs(e.groups, e.resources, key)|)
  }

  /** What event i adds to the expected rules of a key. */
  function Part<T>(log: seq<Event<T>>, i: nat, key: string): seq<CompiledRule<T>>
    requires i < |log|
  {
    if Survives(log, i) then Contribution(log[i], key) else []
  }

  /** The surviving rules of `key` among the first n events, in order of their last successful Set. */
  function Expected<T>(log: seq<Event<T>>, n: nat, key: string): seq<CompiledRule<T>>
    requires n <= |log|
  {
    if n == 0 then []
    else Expected(log, n - 1, key) + Part(log, n - 1, key)
  }

  // ---- the registry refines the log ----

  lemma {:induction false} NotNamedConcat<T>(a: seq<CompiledRule<T>>, b: seq<CompiledRule<T>>, name: string)
    ensures NotNamed(a + b, name) == NotNamed(a, name) + NotNamed(b, name)
  {
    if b == [] {
      assert a + b == a;
    } else {
      var n := |b| - 1;
      assert (a + b)[..|a + b| - 1] == a + b[..n];
      NotNamedConcat(a, b[..n], name);
    }
  }

  lemma RepeatStep<T>(x: T, n: nat)
    requires n > 0
    ensures Repeat(x, n) != [] && Repeat(x, n)[..|Repeat(x, n)| - 1] == Repeat(x, n - 1)
      && Repeat(x, n)[|Repeat(x, n)| - 1] == x
    ensures Repeat(x, n) == Repeat(x, n - 1) + [x]
  {
  }

  lemma {:induction false} NotNamedRepeat<T>(rule: CompiledRule<T>, n: nat, name: string)
    ensures NotNamed(Repeat(rule, n), name) == if rule.name == name then [] else Repeat(rule, n)
  {
    if n > 0 {
      NotNamedRepeat(rule, n - 1, name);
      RepeatStep(rule, n);
      hide Repeat;
    }
  }

  lemma {:induction false} AddedLookup<T>(t: Table<T>, keys: seq<string>, rule: CompiledRule<T>, key: string)
    ensures Lookup(Added(t, keys, rule), key) == Lookup(t, key) + Repeat(rule, Count(keys, key))
    ensures (forall k | k in t :: t[k] != []) ==> forall k | k in Added(t, keys, rule) :: Added(t, keys, rule)[k] != []
  {
    if keys == [] {
      assert Repeat(rule, 0) == [];
    } else {
      var n := |keys| - 1;
      AddedLookup(t, keys[..n], rule, key);
      if keys[n] == key {
        var c := Count(keys[..n], key);
        assert Repeat(rule, c + 1) == Repeat(rule, c) + [rule];
        assert Lookup(t, key) + Repeat(rule, c) + [rule] == Lookup(t, key) + (Repeat(rule, c) + [rule]);
      }
    }
  }

  lemma SurvivesAppend<T>(log: seq<Event<T>>, e: Event<T>, i: nat)
    requires i < |log|
    ensures (log + [e])[i] == log[i]
    ensures Survives(log + [e], i) <==> Survives(log, i) && !(e.name == log[i].name && e.Replaces())
  {
    var more := log + [e];
    assert more[|log|] == e && forall j | 0 <= j < |log| :: more[j] == log[j];
  }

  lemma ContributionKept<T>(e: Event<T>, key: string, name: string)
    requires e.SetRule? && e.compiled.Some?
    ensures NotNamed(Contribution(e, key), name) == if e.name == name then [] else Contribution(e, key)
  {
    hide Pairs;
    NotNamedRepeat(CompiledRule(e.name, e.compiled.value), |Pairs(e.groups, e.resources, key)|, name);
  }

  lemma PartAppend<T>(log: seq<Event<T>>, e: Event<T>, i: nat, key: string)
    requires i < |log|
    ensures Part(log + [e], i, key) == if e.Replaces() then NotNamed(Part(log, i, key), e.name) else Part(log, i, key)
  {
    SurvivesAppend(log, e, i);
    assert NotNamed<T>([], e.name) == [];
    if Survives(log, i) { ContributionKept(log[i], key, e.name); }
    hide Contribution, NotNamed;
  }

  /** Appending an event filters what the earlier ones contribute. */
  lemma {:induction false} ExpectedAppend<T>(log: seq<Event<T>>, e: Event<T>, n: nat, key: string)
    requires n <= |log|
    ensures Expected(log + [e], n, key)
      == if e.Replaces() then NotNamed(Expected(log, n, key), e.name) else Expected(log, n, key)
  {
    assert NotNamed<T>([], e.name) == [];
    hide NotNamed, Part, Event.Replaces;
    if n > 0 {
      var i, more := n - 1, log + [e];
      assert Expected(log, n, key) == Expected(log, i, key) + Part(log, i, key);
      assert Expected(more, n, key) == Expected(more, i, key) + Part(more, i, key);
      hide *;
      ExpectedAppend(log, e, i, key);
      PartAppend(log, e, i, key);
      NotNamedConcat(Expected(log, i, key), Part(log, i, key), e.name);
    }
  }

  lemma MidwayStarts<T>(t: Table<T>, name: string)
    ensures Midway(t, t.Keys, name) == t
  {
  }

  lemma MidwayGoesOn<T>(t: Table<T>, todo: set<string>, key: string, name: string)
    requires key in todo && todo <= t.Keys
    ensures key in Midway(t, todo, name)
    ensures Midway(t, todo - {key}, name) == Forgetting(Midway(t, todo, name), key, name)
    ensures todo - {key} <= Midway(t, todo - {key}, name).Keys
  {
    hide NotNamed;
  }

  lemma MidwayEnds<T>(t: Table<T>, name: string)
    ensures Midway(t, {}, name) == Without(t, name)
  {
    hide NotNamed;
  }

  lemma WithoutLookup<T>(t: Table<T>, name: string, key: string)
    ensures Lookup(Without(t, name), key) == NotNamed(Lookup(t, key), name)
  {
  }

  /** After any history of successful Sets, Sets that failed to compile, and Removes, the rules of a
      key are the surviving rules in order of their last successful Set, each as often as pairs of its
      targets make up the key; and no key keeps an empty list. */
  lemma {:induction false} RegistryRefinesLog<T>(log: seq<Event<T>>, key: string)
    ensures Lookup(Run(log), key) == Expected(log, |log|, key)
    ensures forall k | k in Run(log) :: Run(log)[k] != []
  {
    if log != [] {
      var n := |log| - 1;
      var init, e := log[..n], log[n];
      assert log == init + [e];
      RegistryRefinesLog(init, key);
      ExpectedAppend(init, e, n, key);
      if e.SetRule? && e.compiled.Some? {
        AddedLookup(Without(Run(init), e.name), TargetKeys(e.groups, e.resources),
          CompiledRule(e.name, e.compiled.value), key);
        PairsCounted(e.groups, e.resources, key);
      }
    }
  }

  lemma RunMore<T>(log: seq<Event<T>>, e: Event<T>)
    ensures Run(log + [e]) == Apply(Run(log), e)
  {
    assert (log + [e])[..|log|] == log;
  }

  // ---- which keys a rule is stored under ----

  /** Blocks of m: where the first n end, and which block an index lies in. */
  lemma InBlock(i: nat, j: nat, n: nat, m: nat)
    requires i < n && j < m
    ensures i * m + j < n * m
  {
    assert (i + 1) * m <= n * m;
  }

  /** The key at i * |resources| + j is group i, a slash, and resource j, and there are no other keys. */
  ghost predicate KeysAt(keys: seq<string>, groups: seq<string>, resources: seq<string>) {
    && |keys| == |groups| * |resources|
    && forall i: nat, j: nat | i < |groups| && j < |resources| ::
         i * |resources| + j < |keys| && keys[i * |resources| + j] == groups[i] + "/" + resources[j]
  }

  lemma OneMoreBlock(keys: seq<string>, row: seq<string>, groups: seq<string>, resources: seq<string>)
    requires groups != [] && KeysAt(keys, groups[..|groups| - 1], resources) && |row| == |resources|
    requires forall j | 0 <= j < |row| :: row[j] == groups[|groups| - 1] + "/" + resources[j]
    ensures KeysAt(keys + row, groups, resources)
  {
    var n, m := |groups| - 1, |resources|;
    assert (n + 1) * m == n * m + m;
    forall i: nat, j: nat | i < |groups| && j < m
      ensures i * m + j < |keys + row| && (keys + row)[i * m + j] == groups[i] + "/" + resources[j]
    {
      if i < n {
        InBlock(i, j, n, m);
        assert groups[..n][i] == groups[i];
      } else {
        assert i * m == |keys|;
      }
    }
  }

  lemma {:induction false} TargetKeysAt(groups: seq<string>, resources: seq<string>)
    ensures KeysAt(TargetKeys(groups, resources), groups, resources)
  {
    if groups != [] {
      var n := |groups| - 1;
      TargetKeysAt(groups[..n], resources);
      RowAt(groups[n], resources);
      hide KeysAt, KeysOfGroup;
      OneMoreBlock(TargetKeys(groups[..n], resources), KeysOfGroup(groups[n], resources), groups, resources);
    }
  }

  lemma RowAt(group: string, resources: seq<string>)
    ensures var row := KeysOfGroup(group, resources);
      |row| == |resources| && forall j | 0 <= j < |row| :: row[j] == group + "/" + resources[j]
  {
  }

  lemma {:induction false} CountConcat(a: seq<string>, b: seq<string>, key: string)
    ensures Count(a + b, key) == Count(a, key) + Count(b, key)
  {
    if b == [] {
      assert a + b == a;
    } else {
      assert (a + b)[..|a + b| - 1] == a + b[..|b| - 1];
      CountConcat(a, b[..|b| - 1], key);
    }
  }

  /** The pairs of one group. */
  function Row(i: nat, group: string, resources: seq<string>, key: string): set<(nat, nat)> {
    set j: nat | j < |resources| && group + "/" + resources[j] == key :: (i, j)
  }

  lemma {:induction false} RowCounted(i: nat, group: string, resources: seq<string>, key: string)
    ensures Count(KeysOfGroup(group, resources), key) == |Row(i, group, resources, key)|
  {
    if resources == [] {
      assert Row(i, group, resources, key) == {};
    } else {
      var n := |resources| - 1;
      RowCounted(i, group, resources[..n], key);
      assert KeysOfGroup(group, resources)[..n] == KeysOfGroup(group, resources[..n]);
      var before := Row(i, group, resources[..n], key);
      assert (i, n) !in before;
      assert Row(i, group, resources, key) == before + if group + "/" + resources[n] == key then {(i, n)} else {};
    }
  }

  lemma PairsByRow(groups: seq<string>, resources: seq<string>, key: string)
    requires groups != []
    ensures var n := |groups| - 1;
      |Pairs(groups, resources, key)| == |Pairs(groups[..n], resources, key)| + |Row(n, groups[n], resources, key)|
  {
    var n := |groups| - 1;
    var all, before, row := Pairs(groups, resources, key), Pairs(groups[..n], resources, key),
      Row(n, groups[n], resources, key);
    forall p | p in all ensures p in before + row {
      if p.0 < n { assert groups[..n][p.0] == groups[p.0]; }
    }
    forall p | p in before ensures p in all && p !in row {
      assert groups[..n][p.0] == groups[p.0];
    }
    assert all == before + row && before !! row;
  }

  /** A key is among the targets as often as there are pairs that make it up. */
  lemma {:induction false} PairsCounted(groups: seq<string>, resources: seq<string>, key: string)
    ensures Count(TargetKeys(groups, resources), key) == |Pairs(groups, resources, key)|
  {
    if groups == [] {
      assert Pairs(groups, resources, key) == {};
    } else {
      var n := |groups| - 1;
      hide Pairs, Row, KeysOfGroup, Count;
      PairsCounted(groups[..n], resources, key);
      CountConcat(TargetKeys(groups[..n], resources), KeysOfGroup(groups[n], resources), key);
      RowCounted(n, groups[n], resources, key);
      PairsByRow(groups, resources, key);
    }
  }

  lemma {:induction false} NoneNamed<T>(rules: seq<CompiledRule<T>>, name: string)
    ensures forall r | r in NotNamed(rules, name) :: r.name != name
  {
    if rules != [] { NoneNamed(rules[..|rules| - 1], name); }
  }

  lemma {:induction false} RepeatCounted<T>(x: T, n: nat)
    ensures multiset(Repeat(x, n))[x] == n && forall y | y in Repeat(x, n) :: y == x
  {
    if n > 0 {
      RepeatCounted(x, n - 1);
      RepeatStep(x, n);
    }
  }

  /** After a Set that compiles, the list of a key ends with the rule, as often as pairs of its target make
      up the key, and has no other rule of that name. */
  lemma SetExactly<T>(log: seq<Event<T>>, name: string, body: T, groups: seq<string>, resources: seq<string>,
      key: string)
    ensures var more := log + [SetRule(name, Some(body), groups, resources)];
      var rules, rule := Expected(more, |more|, key), CompiledRule(name, body);
      && multiset(rules)[rule] == |Pairs(groups, resources, key)|
      && (forall r | r in rules && r.name == name :: r == rule)
      && (forall r | r in Expected(log, |log|, key) && r.name != name :: r in rules)
  {
    var e := SetRule(name, Some(body), groups, resources);
    var more, rule, n := log + [e], CompiledRule(name, body), |Pairs(groups, resources, key)|;
    ExpectedAppend(log, e, |log|, key);
    assert more[|log|] == e && Survives(more, |log|);
    var kept := NotNamed(Expected(log, |log|, key), name);
    assert Expected(more, |more|, key) == kept + Repeat(rule, n);
    hide *;
    NoneNamed(Expected(log, |log|, key), name);
    OthersKept(Expected(log, |log|, key), name);
    RepeatCounted(rule, n);
    assert rule !in kept && multiset(kept)[rule] == 0;
  }

  lemma {:induction false} OthersKept<T>(rules: seq<CompiledRule<T>>, name: string)
    ensures forall r | r in rules && r.name != name :: r in NotNamed(rules, name)
  {
    if rules != [] { OthersKept(rules[..|rules| - 1], name); }
  }

  // ---- the registry as the program keeps it ----

  /** A Go slice at offset 0 of its backing array; the array's length is the capacity. */
  datatype Slice<T> = Slice(arr: array<CompiledRule<T>>, len: nat)

  class RuleRepo<T(0)> {
    var rules: map<string, Slice<T>>
    /** The rules of each key, in order. */
    ghost var table: Table<T>
    ghost var log: seq<Event<T>>

    ghost function Arrays(): set<array<CompiledRule<T>>>
      reads this
    {
      set k | k in rules :: rules[k].arr
    }

    ghost predicate Shows(key: string)
      requires key in rules
      reads this, Arrays()
    {
      assert rules[key].arr in Arrays();
      var s := rules[key];
      s.len <= s.arr.Length && key in table && s.arr[..s.len] == table[key]
    }

    /** The slices hold the table, key by key, except perhaps for one key; and no two keys share a
        backing array. */
    ghost predicate HoldsBut(key: string)
      reads this, Arrays()
    {
      && table.Keys == rules.Keys && (forall k | k in rules && k != key :: Shows(k))
      && (forall j, k | j in rules && k in rules && j != k :: rules[j].arr != rules[k].arr)
    }

    ghost predicate Holds()
      reads this, Arrays()
    {
      && table.Keys == rules.Keys && (forall k | k in rules :: Shows(k))
      && (forall j, k | j in rules && k in rules && j != k :: rules[j].arr != rules[k].arr)
    }

    /** The registry is what its history makes it. */
    ghost predicate Valid()
      reads this, Arrays()
    {
      Holds() && table == Run(log)
    }

    constructor ()
      ensures Valid() && log == [] && fresh(Arrays())
    {
      rules, table, log := map[], map[], [];
    }

    /** In-place compaction over rules[:0]. */
    static method Compact(s: Slice<T>, name: string) returns (filtered: Slice<T>)
      requires s.len <= s.arr.Length
      modifies s.arr
      ensures filtered.arr == s.arr && filtered.len <= s.len
      ensures s.arr[..filtered.len] == NotNamed(old(s.arr[..s.len]), name)
    {
      var n := 0;
      for i := 0 to s.len
        invariant n <= i
        invariant s.arr[..n] == NotNamed(old(s.arr[..i]), name)
        invariant forall k | i <= k < s.arr.Length :: s.arr[k] == old(s.arr[k])
      {
        var rule := s.arr[i];
        assert rule == old(s.arr[i]);
        assert old(s.arr[..i + 1])[..i] == old(s.arr[..i]);
        if rule.name != name {
          s.arr[n] := rule;
          n := n + 1;
        }
      }
      return Slice(s.arr, n);
    }

    /** Gives a key a slice that no other key uses. */
    method Keep(key: string, s: Slice<T>)
      requires HoldsBut(key) && s.len <= s.arr.Length
      requires forall k | k in rules && k != key :: rules[k].arr != s.arr
      modifies this`rules, this`table
      ensures Holds() && Arrays() <= old(Arrays()) + {s.arr}
      ensures table == old(table)[key := s.arr[..s.len]]
    {
      rules, table := rules[key := s], table[key := s.arr[..s.len]];
      assert Shows(key) by { assert rules[key] == s; }
      forall k | k in rules && k != key ensures Shows(k) {
        assert old(Shows(k)) && rules[k] == old(rules[k]);
      }
    }

    method Forget(key: string)
      requires HoldsBut(key)
      modifies this`rules, this`table
      ensures Holds() && Arrays() <= old(Arrays()) && table == old(table) - {key}
    {
      rules, table := rules - {key}, table - {key};
      assert forall k | k in rules :: old(Shows(k)) ==> Shows(k);
    }

    /** Writing to the array of one key leaves the other keys alone. */
    method CompactKey(key: string, name: string) returns (filtered: Slice<T>)
      requires Holds() && key in rules
      modifies rules[key].arr
      ensures HoldsBut(key) && filtered.arr == rules[key].arr && filtered.len <= filtered.arr.Length
      ensures filtered.arr[..filtered.len] == NotNamed(table[key], name)
    {
      hide NotNamed;
      assert Shows(key);
      filtered := Compact(rules[key], name);
      assert forall k | k in rules && k != key :: old(Shows(k)) ==> Shows(k);
    }

    /** Compacts the list of one key, and forgets the key if nothing is left. */
    method RemoveFrom(key: string, name: string)
      requires Holds() && key in rules
      modifies this`rules, this`table, rules[key].arr
      ensures Holds() && Arrays() <= old(Arrays())
      ensures table == Forgetting(old(table), key, name)
    {
      hide NotNamed, HoldsBut, Holds;
      assert rules[key].arr in Arrays();
      ArraysApart(key);
      var filtered := CompactKey(key, name);
      if filtered.len == 0 {
        Forget(key);
      } else {
        Keep(key, filtered);
      }
    }

    lemma ArraysApart(key: string)
      requires Holds() && key in rules
      ensures key in table && forall k | k in rules && k != key :: rules[k].arr != rules[key].arr
    {
    }

    method RemoveLocked(name: string)
      requires Holds()
      modifies this`rules, this`table, Arrays()
      ensures Holds() && Arrays() <= old(Arrays())
      ensures table == Without(old(table), name)
    {
      hide NotNamed, Forgetting, Without, Midway;
      ghost var was := table;
      var todo := rules.Keys;
      MidwayStarts(was, name);
      while todo != {}
        invariant Holds() && todo <= rules.Keys && Arrays() <= old(Arrays())
        invariant todo <= was.Keys && table == Midway(was, todo, name)
      {
        var key :| key in todo;
        assert rules[key].arr in Arrays();
        MidwayGoesOn(was, todo, key, name);
        RemoveFrom(key, name);
        todo := todo - {key};
      }
      MidwayEnds(was, name);
    }

    /** append(r.rules[key], rule): in place while the capacity lasts, else in a new array. */
    method Append(key: string, rule: CompiledRule<T>)
      requires Holds()
      modifies this`rules, this`table, Arrays()
      ensures Holds() && fresh(Arrays() - old(Arrays()))
      ensures table == old(table)[key := Lookup(old(table), key) + [rule]]
    {
      hide HoldsBut, Holds;
      if key in rules && rules[key].len < rules[key].arr.Length {
        assert rules[key].arr in Arrays();
        ArraysApart(key);
        var s := WriteNext(key, rule);
        Keep(key, s);
      } else {
        var s := Grow(key, rule);
        HoldsIsMore(key);
        assert forall k | k in rules :: rules[k].arr in Arrays();
        Keep(key, s);
      }
    }

    lemma HoldsIsMore(key: string)
      requires Holds()
      ensures HoldsBut(key)
    {
    }

    method WriteNext(key: string, rule: CompiledRule<T>) returns (s: Slice<T>)
      requires Holds() && key in rules && rules[key].len < rules[key].arr.Length
      modifies rules[key].arr
      ensures HoldsBut(key) && s.arr == rules[key].arr && s.len <= s.arr.Length && key in table
      ensures s.arr[..s.len] == table[key] + [rule]
    {
      assert Shows(key);
      s := rules[key];
      s.arr[s.len] := rule;
      s := Slice(s.arr, s.len + 1);
      assert forall k | k in rules && k != key :: old(Shows(k)) ==> Shows(k);
    }

    /** A larger copy with the new element at the end. */
    method Grow(key: string, rule: CompiledRule<T>) returns (s: Slice<T>)
      requires Holds()
      ensures fresh(s.arr) && s.len <= s.arr.Length && s.arr[..s.len] == Lookup(table, key) + [rule]
    {
      var len := 0;
      if key in rules {
        assert Shows(key);
        len := rules[key].len;
      }
      var capacity: nat :| capacity > len;
      var arr := new CompiledRule<T>[capacity](_ => rule);
      for i := 0 to len
        invariant arr[..i] == Lookup(table, key)[..i] && arr[len] == rule
      {
        arr[i] := rules[key].arr[i];
      }
      return Slice(arr, len + 1);
    }

    static method CollectTargetKeys(groups: seq<string>, resources: seq<string>) returns (keys: seq<string>)
      ensures keys == TargetKeys(groups, resources) && KeysAt(keys, groups, resources)
    {
      hide KeysAt;
      keys := [];
      for i := 0 to |groups|
        invariant keys == TargetKeys(groups[..i], resources)
      {
        ghost var before := keys;
        for j := 0 to |resources|
          invariant keys == before + KeysOfGroup(groups[i], resources)[..j]
        {
          keys := keys + [ResourceKey(groups[i], resources[j])];
        }
        assert groups[..i + 1][..i] == groups[..i];
        assert KeysOfGroup(groups[i], resources)[..|resources|] == KeysOfGroup(groups[i], resources);
      }
      assert groups[..|groups|] == groups;
      TargetKeysAt(groups, resources);
    }

    /** `compiled` is the result of compiling the rule's condition. */
    method Set(name: string, compiled: Option<T>, groups: seq<string>, resources: seq<string>) returns (ok: bool)
      requires Valid()
      modifies this, Arrays()
      ensures Valid() && fresh(Arrays() - old(Arrays()))
      ensures ok == compiled.Some? && log == old(log) + [SetRule(name, compiled, groups, resources)]
    {
      RunMore(log, SetRule(name, compiled, groups, resources));
      hide Run, NotNamed, TargetKeys, Added, Without;
      log := log + [SetRule(name, compiled, groups, resources)];
      if compiled.None? { return false; }
      var rule := CompiledRule(name, compiled.value);
      var keys := CollectTargetKeys(groups, resources);
      RemoveLocked(name);
      AddAll(keys, rule);
      return true;
    }

    /** The loop of Set. */
    method AddAll(keys: seq<string>, rule: CompiledRule<T>)
      requires Holds()
      modifies this`rules, this`table, Arrays()
      ensures Holds() && fresh(Arrays() - old(Arrays()))
      ensures table == Added(old(table), keys, rule)
    {
      for i := 0 to |keys|
        invariant Holds() && fresh(Arrays() - old(Arrays()))
        invariant table == Added(old(table), keys[..i], rule)
      {
        assert keys[..i + 1][..i] == keys[..i];
        Append(keys[i], rule);
      }
      assert keys[..|keys|] == keys;
    }

    method Remove(name: string)
      requires Valid()
      modifies this, Arrays()
      ensures Valid() && Arrays() <= old(Arrays())
      ensures log == old(log) + [RemoveRule(name)]
    {
      RunMore(log, RemoveRule(name));
      hide Run, NotNamed, Without;
      log := log + [RemoveRule(name)];
      RemoveLocked(name);
    }

    /** A copy: later changes of the registry cannot reach it. */
    method GetRulesForResource(key: string) returns (out: array<CompiledRule<T>>)
      requires Valid()
      ensures fresh(out) && out !in Arrays()
      ensures out[..] == Expected(log, |log|, key)
    {
      RegistryRefinesLog(log, key);
      assert key in rules ==> Shows(key);
      if key !in rules {
        out := new CompiledRule<T>[0];
        return;
      }
      var s := rules[key];
      var arr := s.arr;
      out := new CompiledRule<T>[s.len](i requires 0 <= i < s.len reads arr => arr[i]);
      assert out[..] == arr[..s.len];
    }
  }

  /** The call that an event of the log stands for. */
  method Handle<T(0)>(repo: RuleRepo<T>, e: Event<T>)
    requires repo.Valid()
    modifies repo, repo.Arrays()
    ensures repo.Valid() && fresh(repo.Arrays() - old(repo.Arrays()))
    ensures repo.log == old(repo.log) + [e]
  {
    match e
    case RemoveRule(name) => repo.Remove(name);
    case SetRule(name, compiled, groups, resources) => var _ := repo.Set(name, compiled, groups, resources);
  }

  /** A slice returned earlier survives every later sequence of calls. */
  method ReturnedSlicesAreStable<T(0)>(repo: RuleRepo<T>, key: string, events: seq<Event<T>>)
    returns (out: array<CompiledRule<T>>)
    requires repo.Valid()
    modifies repo, repo.Arrays()
    ensures repo.Valid() && repo.log == old(repo.log) + events
    ensures fresh(out) && out !in repo.Arrays()
    ensures out[..] == Expected(old(repo.log), |old(repo.log)|, key)
  {
    hide Expected, Run;
    out := repo.GetRulesForResource(key);
    for i := 0 to |events|
      invariant repo.Valid() && repo.log == old(repo.log) + events[..i]
      invariant out !in repo.Arrays() && fresh(repo.Arrays() - old(repo.Arrays()))
      invariant out[..] == Expected(old(repo.log), |old(repo.log)|, key)
    {
      Handle(repo, events[i]);
    }
  }

  /** Setting a rule and asking for a key: the rule is there as often as pairs of its target make up the
      key, and nothing else of its name is. */
  method SetThenGet<T(0)>(repo: RuleRepo<T>, name: string, body: T, groups: seq<string>, resources: seq<string>,
      key: string)
    returns (out: array<CompiledRule<T>>)
    requires repo.Valid()
    modifies repo, repo.Arrays()
    ensures repo.Valid() && fresh(out)
    ensures multiset(out[..])[CompiledRule(name, body)] == |Pairs(groups, resources, key)|
    ensures forall r | r in out[..] && r.name == name :: r == CompiledRule(name, body)
  {
    SetExactly(repo.log, name, body, groups, resources, key);
    hide Expected, Pairs;
    var _ := repo.Set(name, Some(body), groups, resources);
    out := repo.GetRulesForResource(key);
  }
}
