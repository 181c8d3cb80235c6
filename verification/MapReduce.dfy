/** MapReduce: many map and reduce tasks give the same lines as the sequential program. */
module MapReduce {
  import opened StringOrder

  datatype KeyValue = KeyValue(key: string, value: string)

  datatype Line = Line(key: string, output: string)

  type Reducer = (string, seq<string>) -> string

  // ---------------------------------------------------------------- what a reduction is

  function Values(kvs: seq<KeyValue>, k: string): seq<string> {
    if kvs == [] then []
    else
      var rest, kv := Values(kvs[..|kvs| - 1], k), kvs[|kvs| - 1];
      if kv.key == k then rest + [kv.value] else rest
  }

  predicate HasKey(kvs: seq<KeyValue>, k: string) { exists i :: 0 <= i < |kvs| && kvs[i].key == k }

  function Count<T(==)>(s: seq<T>, x: T): nat {
    if s == [] then 0 else Count(s[..|s| - 1], x) + if s[|s| - 1] == x then 1 else 0
  }

  /** One line for each key, reduced from all its values, and no other line. */
  ghost predicate IsReduction(kvs: seq<KeyValue>, reducef: Reducer, lines: seq<Line>) {
    forall x :: Count(lines, x) == if HasKey(kvs, x.key) && x.output == reducef(x.key, Values(kvs, x.key)) then 1 else 0
  }

  ghost predicate Unordered(reducef: Reducer) {
    forall k, vs, ws :: multiset(vs) == multiset(ws) ==> reducef(k, vs) == reducef(k, ws)
  }

  lemma {:induction false} CountIs<T>(s: seq<T>, x: T)
    ensures Count(s, x) == multiset(s)[x]
  {
    if s != [] {
      CountIs(s[..|s| - 1], x);
      assert s == s[..|s| - 1] + [s[|s| - 1]];
    }
  }

  lemma SameCounts<T(!new)>(s: seq<T>, t: seq<T>)
    requires forall x :: Count(s, x) == Count(t, x)
    ensures multiset(s) == multiset(t)
  {
    forall x ensures multiset(s)[x] == multiset(t)[x] {
      CountIs(s, x);
      CountIs(t, x);
    }
  }

  /** All reductions of the same pairs have the same lines. */
  lemma OneReduction(kvs: seq<KeyValue>, reducef: Reducer, lines: seq<Line>, lines': seq<Line>)
    requires IsReduction(kvs, reducef, lines) && IsReduction(kvs, reducef, lines')
    ensures multiset(lines) == multiset(lines')
  {
    SameCounts(lines, lines');
  }

  // ---------------------------------------------------------------- the order of the pairs does not matter

  lemma {:induction false} ValuesCount(kvs: seq<KeyValue>, k: string, v: string)
    ensures Count(Values(kvs, k), v) == Count(kvs, KeyValue(k, v))
  {
    if kvs != [] {
      ValuesCount(kvs[..|kvs| - 1], k, v);
      var rest, kv := Values(kvs[..|kvs| - 1], k), kvs[|kvs| - 1];
      assert (rest + [kv.value])[..|rest|] == rest;
    }
  }

  lemma PermutedValues(kvs: seq<KeyValue>, kvs': seq<KeyValue>, k: string)
    requires multiset(kvs) == multiset(kvs')
    ensures multiset(Values(kvs, k)) == multiset(Values(kvs', k)) && (HasKey(kvs, k) <==> HasKey(kvs', k))
  {
    forall v ensures Count(Values(kvs, k), v) == Count(Values(kvs', k), v) {
      ValuesCount(kvs, k, v);
      ValuesCount(kvs', k, v);
      CountIs(kvs, KeyValue(k, v));
      CountIs(kvs', KeyValue(k, v));
    }
    SameCounts(Values(kvs, k), Values(kvs', k));
    KeyMoves(kvs, kvs', k);
    KeyMoves(kvs', kvs, k);
  }

  lemma KeyMoves(kvs: seq<KeyValue>, kvs': seq<KeyValue>, k: string)
    requires multiset(kvs) == multiset(kvs')
    ensures HasKey(kvs, k) ==> HasKey(kvs', k)
  {
    if HasKey(kvs, k) {
      var i :| 0 <= i < |kvs| && kvs[i].key == k;
      assert kvs[i] in multiset(kvs');
      var j :| 0 <= j < |kvs'| && kvs'[j] == kvs[i];
    }
  }

  lemma PermutedReduction(kvs: seq<KeyValue>, kvs': seq<KeyValue>, reducef: Reducer, lines: seq<Line>)
    requires multiset(kvs) == multiset(kvs') && Unordered(reducef) && IsReduction(kvs, reducef, lines)
    ensures IsReduction(kvs', reducef, lines)
  {
    hide Values, HasKey, Count;
    forall x ensures Count(lines, x) == if HasKey(kvs', x.key) && x.output == reducef(x.key, Values(kvs', x.key)) then 1 else 0 {
      PermutedValues(kvs, kvs', x.key);
    }
  }

  // ---------------------------------------------------------------- sorting and grouping

  predicate SortedByKey(kvs: seq<KeyValue>) {
    forall i, j :: 0 <= i < j < |kvs| ==> !Before(kvs[j].key, kvs[i].key)
  }

  method InsertByKey(kvs: seq<KeyValue>, kv: KeyValue) returns (r: seq<KeyValue>)
    requires SortedByKey(kvs)
    ensures SortedByKey(r) && multiset(r) == multiset(kvs) + multiset{kv}
  {
    hide Before;
    var i := |kvs|;
    while i > 0 && Before(kv.key, kvs[i - 1].key)
      invariant 0 <= i <= |kvs| && forall j :: i <= j < |kvs| ==> Before(kv.key, kvs[j].key)
    {
      i := i - 1;
    }
    r := kvs[..i] + [kv] + kvs[i..];
    assert kvs == kvs[..i] + kvs[i..];
    InsertedByKey(kvs, kv, i);
  }

  lemma InsertedByKey(kvs: seq<KeyValue>, kv: KeyValue, i: nat)
    requires SortedByKey(kvs) && i <= |kvs| && (i > 0 ==> !Before(kv.key, kvs[i - 1].key))
    requires forall j :: i <= j < |kvs| ==> Before(kv.key, kvs[j].key)
    ensures SortedByKey(kvs[..i] + [kv] + kvs[i..])
  {
    hide Before;
    var r := kvs[..i] + [kv] + kvs[i..];
    forall a, b | 0 <= a < b < |r| ensures !Before(r[b].key, r[a].key) {
      if b == i {
        assert r[a] == kvs[a];
        if a < i - 1 { NotBeforeAll(kv.key, kvs[i - 1].key, kvs[a].key); }
      } else if a == i {
        assert r[b] == kvs[b - 1];
        BeforeTotal(kv.key, kvs[b - 1].key);
      } else {
        assert r[a] == kvs[if a < i then a else a - 1] && r[b] == kvs[if b < i then b else b - 1];
      }
    }
  }

  lemma NotBeforeAll(a: string, b: string, c: string)
    requires !Before(a, b) && !Before(b, c)
    ensures !Before(a, c)
  {
    hide Before;
    BeforeTotal(a, b);
    BeforeTotal(b, c);
    BeforeTotal(a, c);
    if Before(c, b) && Before(b, a) { BeforeTransitive(c, b, a); }
  }

  method SortByKey(kvs: seq<KeyValue>) returns (r: seq<KeyValue>)
    ensures SortedByKey(r) && multiset(r) == multiset(kvs)
  {
    r := [];
    for i := 0 to |kvs|
      invariant SortedByKey(r) && multiset(r) == multiset(kvs[..i])
    {
      r := InsertByKey(r, kvs[i]);
      assert kvs[..i + 1] == kvs[..i] + [kvs[i]];
    }
    assert kvs[..|kvs|] == kvs;
  }

  predicate OneKey(kvs: seq<KeyValue>, k: string) { forall i :: 0 <= i < |kvs| ==> kvs[i].key == k }

  lemma {:induction false} ValuesSplit(a: seq<KeyValue>, b: seq<KeyValue>, k: string)
    ensures Values(a + b, k) == Values(a, k) + Values(b, k)
  {
    if b == [] {
      assert a + b == a;
    } else {
      ValuesSplit(a, b[..|b| - 1], k);
      assert (a + b)[..|a + b| - 1] == a + b[..|b| - 1];
    }
  }

  lemma {:induction false} NoValues(kvs: seq<KeyValue>, k: string)
    requires !HasKey(kvs, k)
    ensures Values(kvs, k) == []
  {
    if kvs != [] {
      var init := kvs[..|kvs| - 1];
      assert forall i :: 0 <= i < |init| ==> init[i] == kvs[i];
      NoValues(init, k);
    }
  }

  /** A group of one key, met for the first time, adds the line of that key. */
  lemma GroupReduces(done: seq<KeyValue>, group: seq<KeyValue>, k: string, reducef: Reducer, lines: seq<Line>)
    requires group != [] && OneKey(group, k) && !HasKey(done, k) && IsReduction(done, reducef, lines)
    ensures IsReduction(done + group, reducef, lines + [Line(k, reducef(k, Values(group, k)))])
  {
    var line, all := Line(k, reducef(k, Values(group, k))), done + group;
    forall x ensures Count(lines + [line], x) == if HasKey(all, x.key) && x.output == reducef(x.key, Values(all, x.key)) then 1 else 0 {
      assert (lines + [line])[..|lines|] == lines;
      GroupValues(done, group, k, x.key);
    }
  }

  lemma GroupValues(done: seq<KeyValue>, group: seq<KeyValue>, k: string, k': string)
    requires group != [] && OneKey(group, k) && !HasKey(done, k)
    ensures Values(done + group, k') == if k' == k then Values(group, k) else Values(done, k')
    ensures HasKey(done + group, k') <==> k' == k || HasKey(done, k')
  {
    ValuesSplit(done, group, k');
    NoValues(done, k);
    if k' != k { NoValues(group, k'); }
    var all := done + group;
    assert all[|done|].key == k;
    if HasKey(done, k') {
      var i :| 0 <= i < |done| && done[i].key == k';
      assert all[i].key == k';
    }
  }

  predicate KeysAscend(lines: seq<Line>) {
    forall i, j :: 0 <= i < j < |lines| ==> Before(lines[i].key, lines[j].key)
  }

  /** In a sorted list a key that differs from the one before has not been seen. */
  lemma NewKey(kvs: seq<KeyValue>, i: nat)
    requires SortedByKey(kvs) && i < |kvs| && (i > 0 ==> kvs[i].key != kvs[i - 1].key)
    ensures !HasKey(kvs[..i], kvs[i].key)
    ensures forall j :: 0 <= j < i ==> Before(kvs[j].key, kvs[i].key)
  {
    hide Before;
    forall j | 0 <= j < i ensures Before(kvs[j].key, kvs[i].key) && kvs[j].key != kvs[i].key {
      BeforeTotal(kvs[j].key, kvs[i].key);
      BeforeTotal(kvs[i - 1].key, kvs[i].key);
      if j < i - 1 && kvs[j].key == kvs[i].key { NotBeforeAll(kvs[i].key, kvs[j].key, kvs[i].key); }
    }
  }

  /** The values of the stretch of pairs from `i` up to `j`, all of one key. */
  method CollectValues(kvs: seq<KeyValue>, i: nat, j: nat) returns (values: seq<string>)
    requires i < j <= |kvs| && OneKey(kvs[i..j], kvs[i].key)
    ensures values == Values(kvs[i..j], kvs[i].key)
  {
    values := [];
    for k := i to j
      invariant values == Values(kvs[i..k], kvs[i].key)
    {
      assert kvs[i..k + 1][..k - i] == kvs[i..k];
      assert kvs[i..j][k - i] == kvs[k];
      values := values + [kvs[k].value];
    }
  }

  /** Calls the reducer once for each stretch of equal keys. */
  method ReduceSorted(kvs: seq<KeyValue>, reducef: Reducer) returns (lines: seq<Line>)
    requires SortedByKey(kvs)
    ensures IsReduction(kvs, reducef, lines) && KeysAscend(lines)
    ensures forall l :: 0 <= l < |lines| ==> HasKey(kvs, lines[l].key)
  {
    hide IsReduction, Before, HasKey, Values;
    lines := [];
    EmptyReduction(reducef);
    var i := 0;
    while i < |kvs|
      invariant 0 <= i <= |kvs| && IsReduction(kvs[..i], reducef, lines)
      invariant KeysAscend(lines) && forall l :: 0 <= l < |lines| ==> HasKey(kvs[..i], lines[l].key)
      invariant 0 < i < |kvs| ==> kvs[i].key != kvs[i - 1].key
    {
      var j := i + 1;
      while j < |kvs| && kvs[j].key == kvs[i].key
        invariant i < j <= |kvs| && forall n :: i <= n < j ==> kvs[n].key == kvs[i].key
      {
        j := j + 1;
      }
      var values := CollectValues(kvs, i, j);
      var output := reducef(kvs[i].key, values);
      NewKey(kvs, i);
      GroupReduces(kvs[..i], kvs[i..j], kvs[i].key, reducef, lines);
      assert kvs[..j] == kvs[..i] + kvs[i..j];
      KeysSoFar(kvs, i, j, lines, Line(kvs[i].key, output));
      lines := lines + [Line(kvs[i].key, output)];
      i := j;
    }
    assert kvs[..i] == kvs;
  }

  lemma KeysSoFar(kvs: seq<KeyValue>, i: nat, j: nat, lines: seq<Line>, line: Line)
    requires i < j <= |kvs| && KeysAscend(lines) && line.key == kvs[i].key
    requires forall l :: 0 <= l < |lines| ==> HasKey(kvs[..i], lines[l].key)
    requires forall n :: 0 <= n < i ==> Before(kvs[n].key, kvs[i].key)
    ensures KeysAscend(lines + [line])
    ensures forall l :: 0 <= l <= |lines| ==> HasKey(kvs[..j], (lines + [line])[l].key)
  {
    hide Before;
    forall l | 0 <= l < |lines| ensures Before(lines[l].key, line.key) && HasKey(kvs[..j], lines[l].key) {
      var n :| 0 <= n < |kvs[..i]| && kvs[..i][n].key == lines[l].key;
      assert kvs[..j][n].key == lines[l].key;
    }
    assert kvs[..j][i].key == line.key;
  }

  lemma EmptyReduction(reducef: Reducer)
    ensures IsReduction([], reducef, [])
  {
  }

  // ---------------------------------------------------------------- the sequential program

  function Flatten<T>(ss: seq<seq<T>>): seq<T> {
    if ss == [] then [] else Flatten(ss[..|ss| - 1]) + ss[|ss| - 1]
  }

  /** A reduction of the pairs, read in some order that the sort leaves. */
  ghost predicate Reduced(kvs: seq<KeyValue>, reducef: Reducer, lines: seq<Line>) {
    && KeysAscend(lines)
    && (exists sorted :: multiset(sorted) == multiset(kvs) && IsReduction(sorted, reducef, lines))
    && (Unordered(reducef) ==> IsReduction(kvs, reducef, lines))
  }

  /** All input through one list: the specification of the distributed runs. */
  method Sequential(outputs: seq<seq<KeyValue>>, reducef: Reducer) returns (lines: seq<Line>)
    ensures Reduced(Flatten(outputs), reducef, lines)
  {
    hide IsReduction, Unordered;
    var intermediate: seq<KeyValue> := [];
    for i := 0 to |outputs|
      invariant intermediate == Flatten(outputs[..i])
    {
      assert outputs[..i + 1][..i] == outputs[..i];
      intermediate := intermediate + outputs[i];
    }
    assert outputs[..|outputs|] == outputs;
    var sorted := SortByKey(intermediate);
    lines := ReduceSorted(sorted, reducef);
    if Unordered(reducef) { PermutedReduction(sorted, intermediate, reducef, lines); }
  }

  // ---------------------------------------------------------------- map tasks and reduce tasks

  type Hash = string -> nat

  function TaskOf(hash: Hash, nReduce: nat, k: string): nat
    requires nReduce > 0
  {
    hash(k) % nReduce
  }

  /** The pairs for reduce task `r`, in their order. */
  function Bucket(kvs: seq<KeyValue>, hash: Hash, nReduce: nat, r: nat): seq<KeyValue>
    requires nReduce > 0
  {
    if kvs == [] then []
    else
      var rest, kv := Bucket(kvs[..|kvs| - 1], hash, nReduce, r), kvs[|kvs| - 1];
      if TaskOf(hash, nReduce, kv.key) == r then rest + [kv] else rest
  }

  /** A bucket holds exactly the pairs whose key hashes to it, each as often as it was there. */
  lemma {:induction false} BucketExactly(kvs: seq<KeyValue>, hash: Hash, nReduce: nat, r: nat, kv: KeyValue)
    requires nReduce > 0
    ensures Count(Bucket(kvs, hash, nReduce, r), kv) == if hash(kv.key) % nReduce == r then Count(kvs, kv) else 0
  {
    if kvs != [] {
      var rest, last := Bucket(kvs[..|kvs| - 1], hash, nReduce, r), kvs[|kvs| - 1];
      BucketExactly(kvs[..|kvs| - 1], hash, nReduce, r, kv);
      assert (rest + [last])[..|rest|] == rest;
    }
  }

  method DoMapTask(kva: seq<KeyValue>, hash: Hash, nReduce: nat) returns (omap: array<seq<KeyValue>>)
    requires nReduce > 0
    ensures fresh(omap) && omap.Length == nReduce && forall r :: 0 <= r < nReduce ==> omap[r] == Bucket(kva, hash, nReduce, r)
  {
    omap := new seq<KeyValue>[nReduce](_ => []);
    for i := 0 to |kva|
      invariant forall r :: 0 <= r < nReduce ==> omap[r] == Bucket(kva[..i], hash, nReduce, r)
    {
      assert kva[..i + 1][..i] == kva[..i];
      var r := hash(kva[i].key) % nReduce;
      omap[r] := omap[r] + [kva[i]];
    }
    assert kva[..|kva|] == kva;
  }

  /** The files that the map tasks leave for reduce task `r`. */
  function Files(outputs: seq<seq<KeyValue>>, hash: Hash, nReduce: nat, r: nat): (f: seq<seq<KeyValue>>)
    requires nReduce > 0
    ensures |f| == |outputs| && forall m :: 0 <= m < |f| ==> f[m] == Bucket(outputs[m], hash, nReduce, r)
  {
    seq(|outputs|, m requires 0 <= m < |outputs| => Bucket(outputs[m], hash, nReduce, r))
  }

  method DoReduceTask(files: seq<seq<KeyValue>>, reducef: Reducer) returns (lines: seq<Line>)
    ensures Reduced(Flatten(files), reducef, lines)
  {
    hide IsReduction, Unordered;
    var intermediate: seq<KeyValue> := [];
    for m := 0 to |files|
      invariant intermediate == Flatten(files[..m])
    {
      assert files[..m + 1][..m] == files[..m];
      intermediate := intermediate + files[m];
    }
    assert files[..|files|] == files;
    var sorted := SortByKey(intermediate);
    lines := ReduceSorted(sorted, reducef);
    if Unordered(reducef) { PermutedReduction(sorted, intermediate, reducef, lines); }
  }

  lemma {:induction false} BucketSplit(a: seq<KeyValue>, b: seq<KeyValue>, hash: Hash, nReduce: nat, r: nat)
    requires nReduce > 0
    ensures Bucket(a + b, hash, nReduce, r) == Bucket(a, hash, nReduce, r) + Bucket(b, hash, nReduce, r)
  {
    if b == [] {
      assert a + b == a;
    } else {
      BucketSplit(a, b[..|b| - 1], hash, nReduce, r);
      assert (a + b)[..|a + b| - 1] == a + b[..|b| - 1];
    }
  }

  /** What a reduce task collects is its share of everything the map tasks produced. */
  lemma {:induction false} CollectedBucket(outputs: seq<seq<KeyValue>>, hash: Hash, nReduce: nat, r: nat)
    requires nReduce > 0
    ensures Flatten(Files(outputs, hash, nReduce, r)) == Bucket(Flatten(outputs), hash, nReduce, r)
  {
    if outputs != [] {
      var init, last := outputs[..|outputs| - 1], outputs[|outputs| - 1];
      CollectedBucket(init, hash, nReduce, r);
      BucketSplit(Flatten(init), last, hash, nReduce, r);
      var f := Files(outputs, hash, nReduce, r);
      assert f[..|f| - 1] == Files(init, hash, nReduce, r);
    }
  }

  lemma {:induction false} BucketValues(kvs: seq<KeyValue>, hash: Hash, nReduce: nat, r: nat, k: string)
    requires nReduce > 0
    ensures Values(Bucket(kvs, hash, nReduce, r), k) == if TaskOf(hash, nReduce, k) == r then Values(kvs, k) else []
    ensures HasKey(Bucket(kvs, hash, nReduce, r), k) <==> TaskOf(hash, nReduce, k) == r && HasKey(kvs, k)
  {
    if kvs != [] {
      var init, kv := kvs[..|kvs| - 1], kvs[|kvs| - 1];
      BucketValues(init, hash, nReduce, r, k);
      HasKeyLast(init, kv, k);
      HasKeyLast(Bucket(init, hash, nReduce, r), kv, k);
      assert kvs == init + [kv];
      ValuesSplit(Bucket(init, hash, nReduce, r), [kv], k);
      ValuesSplit(init, [kv], k);
      assert [kv][..0] == [];
    }
  }

  lemma HasKeyLast(kvs: seq<KeyValue>, kv: KeyValue, k: string)
    ensures HasKey(kvs + [kv], k) <==> HasKey(kvs, k) || kv.key == k
  {
    var all := kvs + [kv];
    if HasKey(kvs, k) {
      var i :| 0 <= i < |kvs| && kvs[i].key == k;
      assert all[i].key == k;
    }
    assert all[|kvs|] == kv;
  }

  lemma {:induction false} CountSplit<T>(a: seq<T>, b: seq<T>, x: T)
    ensures Count(a + b, x) == Count(a, x) + Count(b, x)
  {
    if b == [] {
      assert a + b == a;
    } else {
      CountSplit(a, b[..|b| - 1], x);
      assert (a + b)[..|a + b| - 1] == a + b[..|b| - 1];
    }
  }

  /** A line that only one task may write is counted there. */
  lemma {:induction false} CountOne<T>(ss: seq<seq<T>>, x: T, r: nat)
    requires forall q :: 0 <= q < |ss| && q != r ==> Count(ss[q], x) == 0
    ensures Count(Flatten(ss), x) == if r < |ss| then Count(ss[r], x) else 0
  {
    if ss != [] {
      CountOne(ss[..|ss| - 1], x, r);
      CountSplit(Flatten(ss[..|ss| - 1]), ss[|ss| - 1], x);
    }
  }

  /** The tasks together write a line for each key and no other: each key is reduced once, from all its values. */
  lemma TasksReduce(outputs: seq<seq<KeyValue>>, hash: Hash, nReduce: nat, reducef: Reducer, lines: seq<seq<Line>>)
    requires nReduce > 0 && |lines| == nReduce
    requires forall r :: 0 <= r < nReduce ==> IsReduction(Flatten(Files(outputs, hash, nReduce, r)), reducef, lines[r])
    ensures IsReduction(Flatten(outputs), reducef, Flatten(lines))
  {
    hide Flatten, Count, Values, HasKey, Bucket, TaskOf;
    var all := Flatten(outputs);
    forall x ensures Count(Flatten(lines), x) == if HasKey(all, x.key) && x.output == reducef(x.key, Values(all, x.key)) then 1 else 0 {
      var r0 := TaskOf(hash, nReduce, x.key);
      assert r0 < nReduce by { TaskInRange(hash, nReduce, x.key); }
      forall r | 0 <= r < nReduce
        ensures Count(lines[r], x) ==
                if r == r0 && HasKey(all, x.key) && x.output == reducef(x.key, Values(all, x.key)) then 1 else 0
      {
        assert IsReduction(Flatten(Files(outputs, hash, nReduce, r)), reducef, lines[r]);
        CollectedBucket(outputs, hash, nReduce, r);
        BucketValues(all, hash, nReduce, r, x.key);
      }
      CountOne(lines, x, r0);
    }
  }

  lemma TaskInRange(hash: Hash, nReduce: nat, k: string)
    requires nReduce > 0
    ensures TaskOf(hash, nReduce, k) < nReduce
  {
  }

  /** For every hash and any number of tasks, the lines are those of the sequential program. */
  lemma SameAsSequential(outputs: seq<seq<KeyValue>>, hash: Hash, nReduce: nat, reducef: Reducer, lines: seq<seq<Line>>, sequential: seq<Line>)
    requires nReduce > 0 && |lines| == nReduce && IsReduction(Flatten(outputs), reducef, sequential)
    requires forall r :: 0 <= r < nReduce ==> IsReduction(Flatten(Files(outputs, hash, nReduce, r)), reducef, lines[r])
    ensures multiset(Flatten(lines)) == multiset(sequential)
  {
    TasksReduce(outputs, hash, nReduce, reducef, lines);
    OneReduction(Flatten(outputs), reducef, Flatten(lines), sequential);
  }

  /** Runs every map task, then every reduce task. */
  method Distributed(outputs: seq<seq<KeyValue>>, hash: Hash, nReduce: nat, reducef: Reducer) returns (lines: seq<seq<Line>>)
    requires nReduce > 0
    ensures |lines| == nReduce
    ensures forall r :: 0 <= r < nReduce ==> Reduced(Bucket(Flatten(outputs), hash, nReduce, r), reducef, lines[r])
    ensures Unordered(reducef) ==> IsReduction(Flatten(outputs), reducef, Flatten(lines))
  {
    hide IsReduction, Unordered, Flatten, Bucket, KeysAscend, Reduced;
    var files: seq<seq<seq<KeyValue>>> := [];
    for m := 0 to |outputs|
      invariant |files| == m && forall i :: 0 <= i < m ==> |files[i]| == nReduce
      invariant forall i, r :: 0 <= i < m && 0 <= r < nReduce ==> files[i][r] == Bucket(outputs[i], hash, nReduce, r)
    {
      var omap := DoMapTask(outputs[m], hash, nReduce);
      files := files + [omap[..]];
    }
    lines := [];
    for r := 0 to nReduce
      invariant |lines| == r
      invariant forall q :: 0 <= q < r ==> Reduced(Flatten(Files(outputs, hash, nReduce, q)), reducef, lines[q])
    {
      var own := seq(|files|, m requires 0 <= m < |files| && r < |files[m]| => files[m][r]);
      assert own == Files(outputs, hash, nReduce, r);
      var out := DoReduceTask(own, reducef);
      lines := lines + [out];
    }
    forall r | 0 <= r < nReduce
      ensures Reduced(Bucket(Flatten(outputs), hash, nReduce, r), reducef, lines[r])
    {
      CollectedBucket(outputs, hash, nReduce, r);
    }
    if Unordered(reducef) {
      forall r | 0 <= r < nReduce ensures IsReduction(Flatten(Files(outputs, hash, nReduce, r)), reducef, lines[r]) {
        ReducedIs(Flatten(Files(outputs, hash, nReduce, r)), reducef, lines[r]);
      }
      TasksReduce(outputs, hash, nReduce, reducef, lines);
    }
  }

  lemma ReducedIs(kvs: seq<KeyValue>, reducef: Reducer, lines: seq<Line>)
    requires Reduced(kvs, reducef, lines) && Unordered(reducef)
    ensures IsReduction(kvs, reducef, lines)
  {
  }
}
