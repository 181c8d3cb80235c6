/** The key/value model given to the checker, which looks at one key at a time, and why that is enough. */
module KvModel {
  import opened Linearizability
  import opened PorcupineOperations
  import opened Locality
  import opened StringOrder

  datatype KvInput = KvInput(op: nat, key: string, value: string)
  datatype KvOutput = KvOutput(value: string)

  type KvOperation = Operation<KvInput, KvOutput>

  /** One key: 0 is get, 1 is put, anything else is append. */
  function Step(st: string, inp: KvInput, out: KvOutput): (bool, string) {
    if inp.op == 0 then (out.value == st, st)
    else if inp.op == 1 then (true, inp.value)
    else (true, st + inp.value)
  }

  function SingleKey(): Model<string, KvInput, KvOutput> { Model("", Step) }

  function Lookup(st: map<string, string>, key: string): string { if key in st then st[key] else "" }

  /** The service as a whole: a map in which missing keys read as empty. */
  function StepMap(st: map<string, string>, inp: KvInput, out: KvOutput): (bool, map<string, string>) {
    if inp.op == 0 then (out.value == Lookup(st, inp.key), st)
    else if inp.op == 1 then (true, st[inp.key := inp.value])
    else (true, st[inp.key := Lookup(st, inp.key) + inp.value])
  }

  function WholeMap(): Model<map<string, string>, KvInput, KvOutput> { Model(map[], StepMap) }

  function KeyOf(inp: KvInput): string { inp.key }

  lemma MapStepAt(w: map<string, string>, i: KvInput, o: KvOutput, k: string)
    ensures StepProjects(WholeMap(), SingleKey(), KeyOf, Lookup, w, i, o, k)
  {
  }

  lemma MapProjects()
    ensures Projects(WholeMap(), SingleKey(), KeyOf, Lookup)
  {
    hide StepMap, Step, StepProjects;
    assert forall k :: Lookup(WholeMap().init, k) == SingleKey().init;
    forall w, i, o, k ensures StepProjects(WholeMap(), SingleKey(), KeyOf, Lookup, w, i, o, k) { MapStepAt(w, i, o, k); }
  }

  // ---------------------------------------------------------------- keys in order

  predicate Ascending(keys: seq<string>) {
    forall i, j :: 0 <= i < j < |keys| ==> Before(keys[i], keys[j])
  }

  method InsertKey(keys: seq<string>, k: string) returns (r: seq<string>)
    requires Ascending(keys) && k !in keys
    ensures Ascending(r) && |r| == |keys| + 1 && forall x :: x in r <==> x in keys || x == k
  {
    var i := |keys|;
    while i > 0 && Before(k, keys[i - 1])
      invariant 0 <= i <= |keys| && forall j :: i <= j < |keys| ==> Before(k, keys[j])
    {
      i := i - 1;
    }
    r := keys[..i] + [k] + keys[i..];
    assert keys == keys[..i] + keys[i..];
    if i > 0 { BeforeTotal(k, keys[i - 1]); }
    InsertedAscending(keys, k, i);
  }

  lemma InsertedAscending(keys: seq<string>, k: string, i: nat)
    requires Ascending(keys) && i <= |keys| && (i > 0 ==> Before(keys[i - 1], k)) && forall j :: i <= j < |keys| ==> Before(k, keys[j])
    ensures Ascending(keys[..i] + [k] + keys[i..])
  {
    hide Before;
    var r := keys[..i] + [k] + keys[i..];
    forall a, b | 0 <= a < b < |r| ensures Before(r[a], r[b]) {
      if b == i {
        assert r[a] == keys[a];
        if a < i - 1 { BeforeTransitive(keys[a], keys[i - 1], k); }
      } else if a == i {
        assert r[b] == keys[b - 1];
      } else {
        assert r[a] == keys[if a < i then a else a - 1] && r[b] == keys[if b < i then b else b - 1];
      }
    }
  }

  // ---------------------------------------------------------------- partition by key

  ghost function Upto(n: nat): (r: seq<nat>)
    ensures |r| == n && forall i :: 0 <= i < n ==> r[i] == i
  {
    if n == 0 then [] else Upto(n - 1) + [n - 1]
  }

  /** The operations on one key, in the order of the history. */
  ghost function Own(ops: seq<KvOperation>, n: nat, k: string): (r: seq<nat>)
    requires n <= |ops|
    ensures Ids(r, |ops|)
  {
    assert Ids(Upto(n), |ops|);
    On(KeyOf, ops, Upto(n), k)
  }

  ghost function OwnPart(ops: seq<KvOperation>, n: nat, k: string): seq<KvOperation>
    requires n <= |ops|
  {
    Part(ops, Own(ops, n, k))
  }

  lemma PartMore(ops: seq<KvOperation>, ids: seq<nat>, x: nat)
    requires Ids(ids, |ops|) && x < |ops|
    ensures Ids(ids + [x], |ops|) && Part(ops, ids + [x]) == Part(ops, ids) + [ops[x]]
  {
  }

  lemma OwnGrows(ops: seq<KvOperation>, n: nat, k: string)
    requires n < |ops|
    ensures OwnPart(ops, n + 1, k) == if ops[n].input.key == k then OwnPart(ops, n, k) + [ops[n]] else OwnPart(ops, n, k)
  {
    hide On, Part;
    assert Upto(n + 1) == Upto(n) + [n];
    OnLast(KeyOf, ops, Upto(n), n, k);
    PartMore(ops, Own(ops, n, k), n);
  }

  lemma OwnNone(ops: seq<KvOperation>, k: string)
    ensures OwnPart(ops, 0, k) == []
  {
  }

  lemma OwnIds(ops: seq<KvOperation>, k: string)
    ensures Distinct(Own(ops, |ops|, k)) && Elements(Own(ops, |ops|, k)) == IdsOn(KeyOf, ops, k)
  {
    var all := Upto(|ops|);
    forall x: nat | x < |ops| ensures x in all { assert all[x] == x; }
    SubDistinct(ops, all, k);
  }

  lemma {:induction false} SubDistinct(ops: seq<KvOperation>, r: seq<nat>, k: string)
    requires Ids(r, |ops|) && Distinct(r)
    ensures Distinct(On(KeyOf, ops, r, k))
  {
    if r != [] { SubDistinct(ops, r[..|r| - 1], k); }
  }

  /** The parts, one for each key in use, by ascending key. */
  ghost predicate IsPartition(ops: seq<KvOperation>, keys: seq<string>, parts: seq<seq<KvOperation>>) {
    && Ascending(keys) && |parts| == |keys|
    && (forall k :: k in keys <==> k in Keys(KeyOf, ops))
    && forall i :: 0 <= i < |keys| ==> parts[i] == OwnPart(ops, |ops|, keys[i])
  }

  function Listed(m: map<string, seq<KvOperation>>, k: string): seq<KvOperation> {
    if k in m then m[k] else []
  }

  method GroupByKey(ops: seq<KvOperation>) returns (m: map<string, seq<KvOperation>>)
    ensures forall k :: k in m <==> k in Keys(KeyOf, ops)
    ensures forall k :: k in m ==> m[k] == OwnPart(ops, |ops|, k)
  {
    hide OwnPart;
    m := map[];
    forall k ensures OwnPart(ops, 0, k) == [] { OwnNone(ops, k); }
    for i := 0 to |ops|
      invariant forall k :: k in m <==> exists j :: 0 <= j < i && ops[j].input.key == k
      invariant forall k {:trigger Listed(m, k)} :: Listed(m, k) == OwnPart(ops, i, k)
    {
      var key := ops[i].input.key;
      ghost var before := m;
      m := m[key := Listed(m, key) + [ops[i]]];
      forall k ensures Listed(m, k) == OwnPart(ops, i + 1, k) {
        assert Listed(before, k) == OwnPart(ops, i, k);
        OwnGrows(ops, i, k);
      }
    }
    forall k | k in m ensures m[k] == OwnPart(ops, |ops|, k) { assert m[k] == Listed(m, k); }
  }

  method Partition(ops: seq<KvOperation>) returns (parts: seq<seq<KvOperation>>, ghost keys: seq<string>)
    ensures IsPartition(ops, keys, parts)
  {
    hide OwnPart, Keys, Before;
    var m := GroupByKey(ops);
    var sorted: seq<string> := [];
    var left := m.Keys;
    while left != {}
      invariant Ascending(sorted) && left <= m.Keys && forall k :: k in sorted <==> k in m.Keys - left
      decreases |left|
    {
      var k :| k in left;
      sorted := InsertKey(sorted, k);
      left := left - {k};
    }
    parts := [];
    for i := 0 to |sorted|
      invariant |parts| == i && forall j :: 0 <= j < i ==> parts[j] == OwnPart(ops, |ops|, sorted[j])
    {
      assert sorted[i] in sorted;
      parts := parts + [m[sorted[i]]];
    }
    keys := sorted;
  }

  /** Checking every part against the single-key model checks the whole against the map. */
  lemma PartitionIsSound(ops: seq<KvOperation>, keys: seq<string>, parts: seq<seq<KvOperation>>)
    requires IsPartition(ops, keys, parts) && Timed(ops)
    ensures LinearizableOps(WholeMap(), ops) <==> forall i :: 0 <= i < |parts| ==> LinearizableOps(SingleKey(), parts[i])
  {
    hide LinearizableOps, LinearizableIn, Keys, Timed, Ascending, IdsOn, Projects, Own;
    MapProjects();
    LinearizabilityIsLocal(WholeMap(), SingleKey(), KeyOf, Lookup, ops);
    forall k ensures LinearizableOps(SingleKey(), OwnPart(ops, |ops|, k)) <==> LinearizableIn(SingleKey(), ops, IdsOn(KeyOf, ops, k)) {
      OwnIds(ops, k);
      PartLinearizable(SingleKey(), ops, Own(ops, |ops|, k));
    }
    if forall k :: k in Keys(KeyOf, ops) ==> LinearizableIn(SingleKey(), ops, IdsOn(KeyOf, ops, k)) {
      forall i | 0 <= i < |parts| ensures LinearizableOps(SingleKey(), parts[i]) {
        assert keys[i] in keys;
      }
    }
    if forall i :: 0 <= i < |parts| ==> LinearizableOps(SingleKey(), parts[i]) {
      forall k | k in Keys(KeyOf, ops) ensures LinearizableIn(SingleKey(), ops, IdsOn(KeyOf, ops, k)) {
        var i :| 0 <= i < |keys| && keys[i] == k;
        assert LinearizableOps(SingleKey(), parts[i]);
      }
    }
  }

  lemma PartsTimed(ops: seq<KvOperation>, keys: seq<string>, parts: seq<seq<KvOperation>>)
    requires IsPartition(ops, keys, parts) && Timed(ops)
    ensures forall i :: 0 <= i < |parts| ==> Timed(parts[i])
    ensures ops != [] ==> parts != []
  {
    if ops != [] {
      assert 0 in Below(|ops|);
      assert KeyOf(ops[0].input) in Keys(KeyOf, ops);
    }
  }

  /**
   * The checker on key/value operations decides linearizability against the whole map; what it keeps
   * on demand is about the operations on each key.
   */
  method CheckKv(ops: seq<KvOperation>, computeInfo: bool)
    returns (result: CheckResult, info: Info<KvInput, KvOutput>, ghost parts: seq<seq<KvOperation>>, ghost keys: seq<string>)
    requires ops != [] && Timed(ops)
    ensures result == Ok <==> LinearizableOps(WholeMap(), ops)
    ensures IsPartition(ops, keys, parts)
    ensures if computeInfo then InfoOk(SingleKey(), parts, info) else info == Info([], [])
  {
    hide LinearizableOps, IsPartition, Timed, InfoOk;
    var own;
    own, keys := Partition(ops);
    parts := own;
    PartsTimed(ops, keys, parts);
    PartitionIsSound(ops, keys, parts);
    result, info := CheckOperations(SingleKey(), own, computeInfo);
  }
}
