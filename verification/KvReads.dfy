/**
 * What the key/value models accept, said without their steps: an order of operations is accepted if and
 * only if every get returns what was put last on its key, followed by all that was appended since.
 */
module KvReads {
  import opened Linearizability
  import opened PorcupineOperations
  import opened KvModel

  /** The operations that matter to a read: those on its key, or all of them where only one key is in use. */
  datatype Scope = OnKey(key: string) | Everything

  predicate In(scope: Scope, op: KvOperation) { scope.OnKey? ==> op.input.key == scope.key }

  predicate IsGet(op: KvOperation) { op.input.op == 0 }

  predicate IsPut(scope: Scope, op: KvOperation) { op.input.op == 1 && In(scope, op) }

  predicate IsAppend(scope: Scope, op: KvOperation) { op.input.op != 0 && op.input.op != 1 && In(scope, op) }

  /** All values appended from one position of the order up to another. */
  function Appended(scope: Scope, ops: seq<KvOperation>, q: seq<nat>, from: nat, to: nat): string
    requires Ids(q, |ops|) && from <= to <= |q|
  {
    if from == to then ""
    else Appended(scope, ops, q, from, to - 1) + if IsAppend(scope, ops[q[to - 1]]) then ops[q[to - 1]].input.value else ""
  }

  /** `p` is the position of the last put before `i`, or -1 if there is none. */
  predicate LastPut(scope: Scope, ops: seq<KvOperation>, q: seq<nat>, i: nat, p: int)
    requires Ids(q, |ops|) && i <= |q|
  {
    && -1 <= p < i && (p >= 0 ==> IsPut(scope, ops[q[p]]))
    && forall j :: p < j < i ==> !IsPut(scope, ops[q[j]])
  }

  function PutValue(ops: seq<KvOperation>, q: seq<nat>, p: int): string
    requires Ids(q, |ops|) && -1 <= p < |q|
  {
    if p < 0 then "" else ops[q[p]].input.value
  }

  /** A read at position `i` of the order finds `v`. */
  ghost predicate Finds(scope: Scope, ops: seq<KvOperation>, q: seq<nat>, i: nat, v: string)
    requires Ids(q, |ops|) && i <= |q|
  {
    exists p: int :: LastPut(scope, ops, q, i, p) && v == PutValue(ops, q, p) + Appended(scope, ops, q, p + 1, i)
  }

  lemma OneValue(scope: Scope, ops: seq<KvOperation>, q: seq<nat>, i: nat, v: string, w: string)
    requires Ids(q, |ops|) && i <= |q| && Finds(scope, ops, q, i, v) && Finds(scope, ops, q, i, w)
    ensures v == w
  {
    var p: int :| LastPut(scope, ops, q, i, p) && v == PutValue(ops, q, p) + Appended(scope, ops, q, p + 1, i);
    var r: int :| LastPut(scope, ops, q, i, r) && w == PutValue(ops, q, r) + Appended(scope, ops, q, r + 1, i);
    SameLastPut(scope, ops, q, i, p, r);
  }

  lemma SameLastPut(scope: Scope, ops: seq<KvOperation>, q: seq<nat>, i: nat, p: int, r: int)
    requires Ids(q, |ops|) && i <= |q| && LastPut(scope, ops, q, i, p) && LastPut(scope, ops, q, i, r)
    ensures p == r
  {
  }

  /** Reading the next state: a put hides all before it, an append adds to it, anything else leaves it. */
  function AfterOp(scope: Scope, op: KvOperation, v: string): string {
    if IsPut(scope, op) then op.input.value else if IsAppend(scope, op) then v + op.input.value else v
  }

  lemma FindsNext(scope: Scope, ops: seq<KvOperation>, q: seq<nat>, i: nat, v: string)
    requires Ids(q, |ops|) && i < |q| && Finds(scope, ops, q, i, v)
    ensures Finds(scope, ops, q, i + 1, AfterOp(scope, ops[q[i]], v))
  {
    var op := ops[q[i]];
    if IsPut(scope, op) {
      assert LastPut(scope, ops, q, i + 1, i);
      assert op.input.value + "" == op.input.value;
    } else {
      var p: int :| LastPut(scope, ops, q, i, p) && v == PutValue(ops, q, p) + Appended(scope, ops, q, p + 1, i);
      assert LastPut(scope, ops, q, i + 1, p);
      var a, b := PutValue(ops, q, p), Appended(scope, ops, q, p + 1, i);
      var c := if IsAppend(scope, op) then op.input.value else "";
      assert a + (b + c) == v + c;
      assert v + "" == v;
    }
  }

  lemma FindsNothing(scope: Scope, ops: seq<KvOperation>, q: seq<nat>)
    requires Ids(q, |ops|)
    ensures Finds(scope, ops, q, 0, "")
  {
    assert LastPut(scope, ops, q, 0, -1);
    assert PutValue(ops, q, -1) + Appended(scope, ops, q, 0, 0) == "";
  }

  // ---------------------------------------------------------------- the whole map

  lemma {:induction false} MapHolds(ops: seq<KvOperation>, q: seq<nat>, i: nat, k: string)
    requires Ids(q, |ops|) && i <= |q|
    ensures Finds(OnKey(k), ops, q, i, Lookup(StateOf(WholeMap(), ops, q[..i]), k))
  {
    hide Finds;
    if i == 0 {
      FindsNothing(OnKey(k), ops, q);
    } else {
      MapHolds(ops, q, i - 1, k);
      assert q[..i][..i - 1] == q[..i - 1];
      FindsNext(OnKey(k), ops, q, i - 1, Lookup(StateOf(WholeMap(), ops, q[..i - 1]), k));
    }
  }

  /** The get at position `i` of the order is right. */
  ghost predicate MapReads(ops: seq<KvOperation>, q: seq<nat>, i: nat)
    requires Ids(q, |ops|) && i < |q|
  {
    IsGet(ops[q[i]]) ==> Finds(OnKey(ops[q[i]].input.key), ops, q, i, ops[q[i]].output.value)
  }

  lemma MapAccepts(ops: seq<KvOperation>, q: seq<nat>, i: nat)
    requires Ids(q, |ops|) && i < |q|
    ensures var op := ops[q[i]];
            WholeMap().step(StateOf(WholeMap(), ops, q[..i]), op.input, op.output).0 <==> MapReads(ops, q, i)
  {
    hide Finds, StateOf;
    var op := ops[q[i]];
    var v := Lookup(StateOf(WholeMap(), ops, q[..i]), op.input.key);
    MapHolds(ops, q, i, op.input.key);
    if IsGet(op) && MapReads(ops, q, i) { OneValue(OnKey(op.input.key), ops, q, i, v, op.output.value); }
  }

  lemma {:induction false} MapExplains(ops: seq<KvOperation>, q: seq<nat>, n: nat)
    requires Ids(q, |ops|) && n <= |q|
    ensures Explains(WholeMap(), ops, q[..n]) <==> forall i {:trigger MapReads(ops, q, i)} :: 0 <= i < n ==> MapReads(ops, q, i)
  {
    hide MapReads, StepMap;
    if n > 0 {
      MapExplains(ops, q, n - 1);
      assert q[..n][..n - 1] == q[..n - 1];
      MapAccepts(ops, q, n - 1);
    }
  }

  /** The whole map accepts an order if and only if every get in it is right. */
  lemma MapReadsRight(ops: seq<KvOperation>, q: seq<nat>)
    requires Ids(q, |ops|)
    ensures Explains(WholeMap(), ops, q) <==> forall i {:trigger MapReads(ops, q, i)} :: 0 <= i < |q| ==> MapReads(ops, q, i)
  {
    assert q[..|q|] == q;
    MapExplains(ops, q, |q|);
  }

  // ---------------------------------------------------------------- one key

  lemma {:induction false} KeyHolds(ops: seq<KvOperation>, q: seq<nat>, i: nat)
    requires Ids(q, |ops|) && i <= |q|
    ensures Finds(Everything, ops, q, i, StateOf(SingleKey(), ops, q[..i]))
  {
    hide Finds;
    if i == 0 {
      FindsNothing(Everything, ops, q);
    } else {
      KeyHolds(ops, q, i - 1);
      assert q[..i][..i - 1] == q[..i - 1];
      FindsNext(Everything, ops, q, i - 1, StateOf(SingleKey(), ops, q[..i - 1]));
    }
  }

  ghost predicate KeyReads(ops: seq<KvOperation>, q: seq<nat>, i: nat)
    requires Ids(q, |ops|) && i < |q|
  {
    IsGet(ops[q[i]]) ==> Finds(Everything, ops, q, i, ops[q[i]].output.value)
  }

  lemma KeyAccepts(ops: seq<KvOperation>, q: seq<nat>, i: nat)
    requires Ids(q, |ops|) && i < |q|
    ensures var op := ops[q[i]];
            SingleKey().step(StateOf(SingleKey(), ops, q[..i]), op.input, op.output).0 <==> KeyReads(ops, q, i)
  {
    hide Finds, StateOf;
    KeyHolds(ops, q, i);
    if IsGet(ops[q[i]]) && KeyReads(ops, q, i) {
      OneValue(Everything, ops, q, i, StateOf(SingleKey(), ops, q[..i]), ops[q[i]].output.value);
    }
  }

  lemma {:induction false} KeyExplains(ops: seq<KvOperation>, q: seq<nat>, n: nat)
    requires Ids(q, |ops|) && n <= |q|
    ensures Explains(SingleKey(), ops, q[..n]) <==> forall i {:trigger KeyReads(ops, q, i)} :: 0 <= i < n ==> KeyReads(ops, q, i)
  {
    hide KeyReads, Step;
    if n > 0 {
      KeyExplains(ops, q, n - 1);
      assert q[..n][..n - 1] == q[..n - 1];
      KeyAccepts(ops, q, n - 1);
    }
  }

  /** The single-key model accepts an order if and only if every get in it is right. */
  lemma KeyReadsRight(ops: seq<KvOperation>, q: seq<nat>)
    requires Ids(q, |ops|)
    ensures Explains(SingleKey(), ops, q) <==> forall i {:trigger KeyReads(ops, q, i)} :: 0 <= i < |q| ==> KeyReads(ops, q, i)
  {
    assert q[..|q|] == q;
    KeyExplains(ops, q, |q|);
  }

  // ---------------------------------------------------------------- a wrong read

  /** On the key of the put, nothing else is written. */
  predicate OnlyWrite(ops: seq<KvOperation>, a: nat)
    requires a < |ops|
  {
    forall x :: 0 <= x < |ops| && x != a && ops[x].input.key == ops[a].input.key ==> IsGet(ops[x])
  }

  lemma {:induction false} NothingAppended(ops: seq<KvOperation>, q: seq<nat>, a: nat, from: nat, to: nat)
    requires Ids(q, |ops|) && from <= to <= |q| && a < |ops| && OnlyWrite(ops, a) && ops[a].input.op == 1
    ensures Appended(OnKey(ops[a].input.key), ops, q, from, to) == ""
  {
    if from < to { NothingAppended(ops, q, a, from, to - 1); }
  }

  /** A get that begins after the only write of its key is over, and returns something else, is never explained. */
  lemma WrongRead(ops: seq<KvOperation>, a: nat, b: nat)
    requires a < |ops| && b < |ops| && ops[a].input.op == 1 && OnlyWrite(ops, a)
    requires IsGet(ops[b]) && ops[b].input.key == ops[a].input.key && ops[b].output.value != ops[a].input.value
    requires ops[a].ret < ops[b].call
    ensures !LinearizableOps(WholeMap(), ops)
  {
    forall q ensures !IsOrder(WholeMap(), ops, q) { WrongOrder(ops, a, b, q); }
  }

  lemma WrongOrder(ops: seq<KvOperation>, a: nat, b: nat, q: seq<nat>)
    requires a < |ops| && b < |ops| && ops[a].input.op == 1 && OnlyWrite(ops, a)
    requires IsGet(ops[b]) && ops[b].input.key == ops[a].input.key && ops[b].output.value != ops[a].input.value
    requires ops[a].ret < ops[b].call
    ensures !IsOrder(WholeMap(), ops, q)
  {
    hide Explains, Finds, Appended;
    if |q| == |ops| && Distinct(q) && Ids(q, |ops|) && InTime(ops, q) {
      AllIn(q, |ops|, a);
      AllIn(q, |ops|, b);
      var j :| 0 <= j < |q| && q[j] == a;
      var i :| 0 <= i < |q| && q[i] == b;
      assert j < i;
      RightRead(ops, a, q, j, i);
      MapReadsRight(ops, q);
      if MapReads(ops, q, i) {
        OneValue(OnKey(ops[a].input.key), ops, q, i, ops[a].input.value, ops[b].output.value);
      }
    }
  }

  lemma RightRead(ops: seq<KvOperation>, a: nat, q: seq<nat>, j: nat, i: nat)
    requires Ids(q, |ops|) && j < i < |q| && a < |ops| && q[j] == a && Distinct(q) && ops[a].input.op == 1 && OnlyWrite(ops, a)
    ensures Finds(OnKey(ops[a].input.key), ops, q, i, ops[a].input.value)
  {
    NothingAppended(ops, q, a, j + 1, i);
    assert LastPut(OnKey(ops[a].input.key), ops, q, i, j);
    assert ops[a].input.value + "" == ops[a].input.value;
  }
}
