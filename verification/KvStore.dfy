/** A replica of the key/value service as a value: its data, and the last number it applied for each client. */
module KvStore {

  datatype Kind = Get | Put | Append

  datatype Op = Op(kind: Kind, key: string, value: string, seqNum: int, clientId: nat)

  datatype KvState = KvState(data: map<string, string>, seqs: map<nat, int>)

  const EMPTY := KvState(map[], map[])

  /** A client never heard of counts as number 0. */
  function LastSeq(st: KvState, c: nat): int { if c in st.seqs then st.seqs[c] else 0 }

  predicate Done(st: KvState, op: Op) { LastSeq(st, op.clientId) >= op.seqNum }

  function Execute(data: map<string, string>, op: Op): map<string, string> {
    match op.kind
    case Get => data
    case Put => data[op.key := op.value]
    case Append => data[op.key := (if op.key in data then data[op.key] else "") + op.value]
  }

  /** Applies a committed operation unless its number says that it has been applied before. */
  function Apply(st: KvState, op: Op): KvState {
    if Done(st, op) then st else KvState(Execute(st.data, op), st.seqs[op.clientId := op.seqNum])
  }

  lemma ApplyNumbers(st: KvState, op: Op, c: nat)
    ensures LastSeq(Apply(st, op), c) == if !Done(st, op) && c == op.clientId then op.seqNum else LastSeq(st, c)
    ensures Apply(st, op).data == if Done(st, op) then st.data else Execute(st.data, op)
  {
  }

  function Run(log: seq<Op>): KvState {
    if log == [] then EMPTY else Apply(Run(log[..|log| - 1]), log[|log| - 1])
  }

  /** The same data and the same numbers for every client. */
  ghost predicate Same(a: KvState, b: KvState) {
    a.data == b.data && forall c :: LastSeq(a, c) == LastSeq(b, c)
  }

  // ---------------------------------------------------------------- exactly once

  predicate SameOp(a: Op, b: Op) { a.clientId == b.clientId && a.seqNum == b.seqNum }

  predicate Occurs(log: seq<Op>, op: Op) { exists i :: 0 <= i < |log| && SameOp(log[i], op) }

  /** The log without its duplicates. */
  function Firsts(log: seq<Op>): seq<Op> {
    if log == [] then []
    else
      var init, op := log[..|log| - 1], log[|log| - 1];
      if Occurs(init, op) then Firsts(init) else Firsts(init) + [op]
  }

  /** The operations that are executed and not taken for duplicates. */
  function Executed(log: seq<Op>): seq<Op> {
    if log == [] then []
    else
      var init, op := log[..|log| - 1], log[|log| - 1];
      if Done(Run(init), op) then Executed(init) else Executed(init) + [op]
  }

  function ExecuteAll(ops: seq<Op>): map<string, string> {
    if ops == [] then map[] else Execute(ExecuteAll(ops[..|ops| - 1]), ops[|ops| - 1])
  }

  /** An operation that comes up first at `i` has a higher number than all its client had before. */
  predicate InOrderAt(log: seq<Op>, i: nat)
    requires i < |log|
  {
    Occurs(log[..i], log[i]) ||
    (log[i].seqNum > 0 && forall j :: 0 <= j < i && log[j].clientId == log[i].clientId ==> log[j].seqNum < log[i].seqNum)
  }

  predicate InOrder(log: seq<Op>) {
    forall i :: 0 <= i < |log| ==> InOrderAt(log, i)
  }

  predicate Numbered(log: seq<Op>, c: nat, n: int) {
    exists i :: 0 <= i < |log| && log[i].clientId == c && log[i].seqNum == n
  }

  /** The number kept for a client is the highest in the log. */
  lemma {:induction false} LastIsHighest(log: seq<Op>, c: nat)
    ensures LastSeq(Run(log), c) >= 0
    ensures forall i :: 0 <= i < |log| && log[i].clientId == c ==> log[i].seqNum <= LastSeq(Run(log), c)
    ensures LastSeq(Run(log), c) == 0 || Numbered(log, c, LastSeq(Run(log), c))
  {
    if log != [] {
      var init, op := log[..|log| - 1], log[|log| - 1];
      LastIsHighest(init, c);
      var n := LastSeq(Run(log), c);
      if c == op.clientId && !Done(Run(init), op) {
        assert log[|log| - 1].clientId == c && log[|log| - 1].seqNum == n;
      } else if n != 0 {
        var i :| 0 <= i < |init| && init[i].clientId == c && init[i].seqNum == n;
        assert log[i] == init[i];
      }
    }
  }

  /** Being taken for a duplicate is the same as being one, exactly when the number comes up in order. */
  lemma DoneIsOld(log: seq<Op>, op: Op)
    ensures InOrderAt(log + [op], |log|) <==> (Done(Run(log), op) <==> Occurs(log, op))
    ensures Occurs(log, op) ==> Done(Run(log), op)
  {
    var more, n := log + [op], LastSeq(Run(log), op.clientId);
    LastIsHighest(log, op.clientId);
    assert more[..|log|] == log && more[|log|] == op;
    forall j | 0 <= j < |log| ensures more[j] == log[j] {}
    if Numbered(log, op.clientId, n) {
      var i :| 0 <= i < |log| && log[i].clientId == op.clientId && log[i].seqNum == n;
      assert more[i].seqNum == n;
    }
  }

  lemma InOrderInit(log: seq<Op>)
    requires log != []
    ensures InOrder(log) <==> InOrder(log[..|log| - 1]) && InOrderAt(log, |log| - 1)
  {
    var init := log[..|log| - 1];
    forall i | 0 <= i < |init| ensures InOrderAt(init, i) <==> InOrderAt(log, i) {
      assert init[..i] == log[..i];
    }
  }

  lemma {:induction false} ExecutedFewer(log: seq<Op>)
    ensures |Executed(log)| <= |Firsts(log)|
  {
    if log != [] {
      ExecutedFewer(log[..|log| - 1]);
      DoneIsOld(log[..|log| - 1], log[|log| - 1]);
    }
  }

  /** What is executed are the first occurrences, if and only if those come up in the order of their numbers. */
  lemma {:induction false} ExecutedOnce(log: seq<Op>)
    ensures Executed(log) == Firsts(log) <==> InOrder(log)
  {
    hide InOrder, Run, Occurs, Done;
    if log == [] {
      assert InOrder([]) by { NothingOutOfOrder(); }
    } else {
      var init, op := log[..|log| - 1], log[|log| - 1];
      assert log == init + [op];
      ExecutedOnce(init);
      ExecutedFewer(init);
      InOrderInit(log);
      DoneIsOld(init, op);
      SameEnd(Executed(init), Firsts(init), op);
    }
  }

  lemma SameEnd(a: seq<Op>, b: seq<Op>, x: Op)
    ensures a + [x] == b + [x] <==> a == b
  {
    if a + [x] == b + [x] { assert a == (a + [x])[..|a|] && b == (b + [x])[..|b|]; }
  }

  lemma NothingOutOfOrder()
    ensures InOrder([])
  {
  }

  /** The data are those that the executed operations leave, in any log. */
  lemma {:induction false} DataOfExecuted(log: seq<Op>)
    ensures Run(log).data == ExecuteAll(Executed(log))
  {
    if log != [] {
      var init, op := log[..|log| - 1], log[|log| - 1];
      DataOfExecuted(init);
      assert (Executed(init) + [op])[..|Executed(init)|] == Executed(init);
    }
  }

  /** Exactly once: duplicates anywhere in the log leave no trace. */
  lemma ExactlyOnce(log: seq<Op>)
    requires InOrder(log)
    ensures Run(log).data == ExecuteAll(Firsts(log))
  {
    ExecutedOnce(log);
    DataOfExecuted(log);
  }

  /** Out of order, an operation is lost: the second one here is never executed. */
  lemma LostOperation()
    ensures var log := [Op(Put, "a", "x", 2, 7), Op(Put, "b", "y", 1, 7)];
            !InOrder(log) && Run(log).data == map["a" := "x"] && ExecuteAll(Firsts(log)) == map["a" := "x", "b" := "y"]
  {
    var p, q := Op(Put, "a", "x", 2, 7), Op(Put, "b", "y", 1, 7);
    var log := [p, q];
    assert log[..1] == [p] && [p][..0] == [];
    assert Run([p]) == KvState(map["a" := "x"], map[7 := 2]);
    assert !Occurs([p], q) && !Occurs([], p);
    assert Firsts([p]) == [p] && Firsts(log) == [p, q];
    assert !InOrderAt(log, 1);
    assert [p, q][..1] == [p];
    assert ExecuteAll([p]) == map["a" := "x"];
  }

  // ---------------------------------------------------------------- snapshots

  datatype Snapshot = Snapshot(index: nat, data: map<string, string>, seqs: map<nat, int>)

  function Save(st: KvState, index: nat): Snapshot { Snapshot(index, st.data, st.seqs) }

  /** The data are replaced; the numbers are overwritten client by client. */
  function Restore(st: KvState, snap: Snapshot): KvState { KvState(snap.data, st.seqs + snap.seqs) }

  function ApplyAll(st: KvState, ops: seq<Op>): KvState {
    if ops == [] then st else Apply(ApplyAll(st, ops[..|ops| - 1]), ops[|ops| - 1])
  }

  lemma {:induction false} RunSplit(log: seq<Op>, i: nat)
    requires i <= |log|
    ensures ApplyAll(Run(log[..i]), log[i..]) == Run(log)
  {
    if i == |log| {
      assert log[..i] == log;
    } else {
      var init := log[..|log| - 1];
      RunSplit(init, i);
      assert init[..i] == log[..i] && init[i..] == log[i..][..|log| - i - 1];
    }
  }

  lemma {:induction false} NumbersGrow(log: seq<Op>, i: nat, c: nat)
    requires i <= |log|
    ensures 0 <= LastSeq(Run(log[..i]), c) <= LastSeq(Run(log), c)
  {
    if i < |log| {
      NumbersGrow(log[..|log| - 1], i, c);
      assert log[..|log| - 1][..i] == log[..i];
    } else {
      LastIsHighest(log, c);
      assert log[..i] == log;
    }
  }

  /** A snapshot restored on a replica that is not ahead of it brings exactly the state it was taken in. */
  lemma RestoreBehind(log: seq<Op>, j: nat, i: nat, st: KvState, snap: Snapshot)
    requires j <= i <= |log| && Same(st, Run(log[..j])) && Same(KvState(snap.data, snap.seqs), Run(log[..i]))
    ensures Same(Restore(st, snap), Run(log[..i]))
  {
    assert log[..i][..j] == log[..j];
    forall c ensures LastSeq(Restore(st, snap), c) == LastSeq(Run(log[..i]), c) {
      NumbersGrow(log[..i], j, c);
      assert LastSeq(KvState(snap.data, snap.seqs), c) == LastSeq(Run(log[..i]), c);
      assert LastSeq(st, c) == LastSeq(Run(log[..j]), c);
    }
  }

  lemma ApplySame(a: KvState, b: KvState, op: Op)
    requires Same(a, b)
    ensures Same(Apply(a, op), Apply(b, op))
  {
    assert LastSeq(a, op.clientId) == LastSeq(b, op.clientId);
    forall c ensures LastSeq(Apply(a, op), c) == LastSeq(Apply(b, op), c) {
      assert LastSeq(a, c) == LastSeq(b, c);
    }
  }

  lemma {:induction false} ApplyAllSame(a: KvState, b: KvState, ops: seq<Op>)
    requires Same(a, b)
    ensures Same(ApplyAll(a, ops), ApplyAll(b, ops))
  {
    if ops != [] {
      ApplyAllSame(a, b, ops[..|ops| - 1]);
      ApplySame(ApplyAll(a, ops[..|ops| - 1]), ApplyAll(b, ops[..|ops| - 1]), ops[|ops| - 1]);
    }
  }

  /** Snapshot and suffix give the same data and numbers as the whole log, on any replica behind the snapshot. */
  lemma SnapshotAndSuffix(log: seq<Op>, j: nat, i: nat)
    requires j <= i <= |log|
    ensures Same(ApplyAll(Restore(Run(log[..j]), Save(Run(log[..i]), i)), log[i..]), Run(log))
  {
    var st, snap := Run(log[..j]), Save(Run(log[..i]), i);
    RestoreBehind(log, j, i, st, snap);
    ApplyAllSame(Restore(st, snap), Run(log[..i]), log[i..]);
    RunSplit(log, i);
  }
}
