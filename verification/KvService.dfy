/**
 * The key/value service as a whole: clerks with one operation at a time, one committed log that
 * may repeat any request, and replicas that apply prefixes of it, restart, and install snapshots.
 */
module KvService {
  import opened KvStore

  /** `at` is auxiliary: how much of the log had been applied where the answer was given. */
  datatype Outcome = Pending | Completed(ret: int, value: string, at: nat)

  /** `from` is auxiliary: the length of the log at the call. */
  datatype Record = Record(op: Op, call: int, from: nat, outcome: Outcome)

  datatype Replica = Replica(store: KvState, applied: nat)

  datatype Reply = Reply(id: nat, value: string, at: nat)

  /** `source` is auxiliary: for each entry of the log, the operation it is a request of. */
  datatype Service = Service(log: seq<Op>, source: seq<nat>, replicas: seq<Replica>, snaps: set<Snapshot>,
                             ops: seq<Record>, replies: set<Reply>, clock: int)

  datatype Step =
    | Invoke(client: nat, kind: Kind, key: string, value: string)
    | Commit(id: nat)
    | ApplyNext(i: nat)
    | TakeSnapshot(i: nat)
    | Install(i: nat, snap: Snapshot)
    | Restart(i: nat)
    | Answer(i: nat, id: nat)
    | Receive(reply: Reply)

  /** The number a clerk gave out last. */
  function LastNumber(ops: seq<Record>, client: nat): int {
    if ops == [] then 0
    else var r := ops[|ops| - 1]; if r.op.clientId == client then r.op.seqNum else LastNumber(ops[..|ops| - 1], client)
  }

  function Read(data: map<string, string>, key: string): string { if key in data then data[key] else "" }

  function AnswerTo(st: KvState, op: Op): string { if op.kind == Get then Read(st.data, op.key) else "" }

  predicate Enabled(s: Service, step: Step) {
    match step
    case Invoke(client, _, _, _) => forall k :: 0 <= k < |s.ops| && s.ops[k].op.clientId == client ==> s.ops[k].outcome.Completed?
    case Commit(id) => id < |s.ops|
    case ApplyNext(i) => i < |s.replicas| && s.replicas[i].applied < |s.log|
    case TakeSnapshot(i) => i < |s.replicas|
    case Install(i, snap) => i < |s.replicas| && snap in s.snaps && s.replicas[i].applied <= snap.index
    case Restart(i) => i < |s.replicas|
    case Answer(i, id) => i < |s.replicas| && id < |s.ops| && Done(s.replicas[i].store, s.ops[id].op)
    case Receive(r) => r in s.replies && r.id < |s.ops| && s.ops[r.id].outcome.Pending?
  }

  function Effect(s: Service, step: Step): Service
    requires Enabled(s, step)
  {
    match step
    case Invoke(client, kind, key, value) =>
      var op := Op(kind, key, value, LastNumber(s.ops, client) + 1, client);
      s.(ops := s.ops + [Record(op, s.clock, |s.log|, Pending)])
    case Commit(id) => s.(log := s.log + [s.ops[id].op], source := s.source + [id])
    case ApplyNext(i) =>
      var r := s.replicas[i];
      s.(replicas := s.replicas[i := Replica(Apply(r.store, s.log[r.applied]), r.applied + 1)])
    case TakeSnapshot(i) => s.(snaps := s.snaps + {Save(s.replicas[i].store, s.replicas[i].applied)})
    case Install(i, snap) => s.(replicas := s.replicas[i := Replica(Restore(s.replicas[i].store, snap), snap.index)])
    case Restart(i) => s.(replicas := s.replicas[i := Replica(EMPTY, 0)])
    case Answer(i, id) =>
      var r := s.replicas[i];
      s.(replies := s.replies + {Reply(id, AnswerTo(r.store, s.ops[id].op), r.applied)})
    case Receive(r) => s.(ops := s.ops[r.id := s.ops[r.id].(outcome := Completed(s.clock, r.value, r.at))])
  }

  /** Every step takes its own moment. */
  function Next(s: Service, step: Step): Service
    requires Enabled(s, step)
  {
    Effect(s, step).(clock := s.clock + 1)
  }

  predicate IsInit(s: Service) {
    && s.log == [] && s.source == [] && s.snaps == {} && s.ops == [] && s.replies == {}
    && forall i :: 0 <= i < |s.replicas| ==> s.replicas[i] == Replica(EMPTY, 0)
  }

  predicate IsRun(run: seq<Service>, steps: seq<Step>) {
    && |run| == |steps| + 1 && IsInit(run[0])
    && forall k {:trigger StepAt(run, steps, k)} :: 0 <= k < |steps| ==> StepAt(run, steps, k)
  }

  predicate StepAt(run: seq<Service>, steps: seq<Step>, k: nat)
    requires k < |steps| && k + 1 < |run|
  {
    Enabled(run[k], steps[k]) && run[k + 1] == Next(run[k], steps[k])
  }

  // ---------------------------------------------------------------- what every step keeps

  ghost predicate Holds(log: seq<Op>, st: KvState, n: nat) {
    n <= |log| && Same(st, Run(log[..n]))
  }

  /** Of two operations of one clerk, the first is over, and was in the log, when the second begins. */
  predicate SerialAt(ops: seq<Record>, j: nat, k: nat)
    requires j < k < |ops|
  {
    ops[j].op.clientId == ops[k].op.clientId ==>
      ops[j].op.seqNum < ops[k].op.seqNum && ops[j].outcome.Completed? && ops[j].outcome.at <= ops[k].from
  }

  predicate SourceAt(s: Service, i: nat)
    requires i < |s.log| == |s.source|
  {
    s.source[i] < |s.ops| && s.log[i] == s.ops[s.source[i]].op && s.ops[s.source[i]].from <= i
  }

  /** The operation is in the part of the log that was applied, and a get saw what that part leaves. */
  predicate AnswerOk(s: Service, id: nat, value: string, at: nat) {
    && id < |s.ops| && at <= |s.log| == |s.source| && id in s.source[..at]
    && (s.ops[id].op.kind == Get ==> value == Read(Run(s.log[..at]).data, s.ops[id].op.key))
  }

  predicate RecordOk(s: Service, k: nat)
    requires k < |s.ops|
  {
    var r := s.ops[k];
    && r.op.seqNum > 0 && r.from <= |s.log| && r.call < s.clock
    && (r.outcome.Completed? ==> AnswerOk(s, k, r.outcome.value, r.outcome.at) && r.call < r.outcome.ret < s.clock)
  }

  /** What was over before a call had its answer from a part of the log that existed at the call. */
  predicate TimeOk(ops: seq<Record>, j: nat, k: nat)
    requires j < |ops| && k < |ops|
  {
    ops[j].outcome.Completed? && ops[j].outcome.ret < ops[k].call ==> ops[j].outcome.at <= ops[k].from
  }

  ghost predicate Inv(s: Service) {
    && |s.source| == |s.log|
    && (forall i {:trigger SourceAt(s, i)} :: 0 <= i < |s.log| ==> SourceAt(s, i))
    && (forall k {:trigger RecordOk(s, k)} :: 0 <= k < |s.ops| ==> RecordOk(s, k))
    && (forall j, k {:trigger SerialAt(s.ops, j, k)} :: 0 <= j < k < |s.ops| ==> SerialAt(s.ops, j, k))
    && (forall j, k {:trigger TimeOk(s.ops, j, k)} :: 0 <= j < |s.ops| && 0 <= k < |s.ops| ==> TimeOk(s.ops, j, k))
    && (forall r {:trigger r in s.replies} :: r in s.replies ==> AnswerOk(s, r.id, r.value, r.at))
    && (forall i {:trigger s.replicas[i]} :: 0 <= i < |s.replicas| ==> Holds(s.log, s.replicas[i].store, s.replicas[i].applied))
    && (forall snap {:trigger snap in s.snaps} :: snap in s.snaps ==> Holds(s.log, KvState(snap.data, snap.seqs), snap.index))
  }

  lemma InitInv(s: Service)
    requires IsInit(s)
    ensures Inv(s)
  {
  }

  lemma HoldsGrows(log: seq<Op>, op: Op, st: KvState, n: nat)
    requires Holds(log, st, n)
    ensures Holds(log + [op], st, n)
  {
    assert (log + [op])[..n] == log[..n];
  }

  lemma HoldsApply(log: seq<Op>, st: KvState, n: nat)
    requires Holds(log, st, n) && n < |log|
    ensures Holds(log, Apply(st, log[n]), n + 1)
  {
    hide Apply, Same;
    assert log[..n + 1][..n] == log[..n];
    ApplySame(st, Run(log[..n]), log[n]);
  }

  lemma InvSerial(s: Service, j: nat, k: nat)
    requires Inv(s) && j < k < |s.ops|
    ensures SerialAt(s.ops, j, k)
  {
  }

  /** Operations are told apart by client and number. */
  lemma OneId(s: Service, j: nat, k: nat)
    requires Inv(s) && j < |s.ops| && k < |s.ops| && SameOp(s.ops[j].op, s.ops[k].op)
    ensures j == k
  {
    if j < k { InvSerial(s, j, k); } else if k < j { InvSerial(s, k, j); }
  }

  /** A replica that counts an operation as done has applied it. */
  lemma DoneIsApplied(s: Service, n: nat, st: KvState, id: nat)
    requires Inv(s) && Holds(s.log, st, n) && id < |s.ops| && Done(st, s.ops[id].op)
    ensures id in s.source[..n]
  {
    hide Inv, Run;
    var op := s.ops[id].op;
    assert n <= |s.log| == |s.source| && RecordOk(s, id) by { InvAt(s, id); }
    var c, last := op.clientId, LastSeq(Run(s.log[..n]), op.clientId);
    assert LastSeq(st, c) == last;
    LastIsHighest(s.log[..n], c);
    var i :| 0 <= i < n && s.log[..n][i].clientId == c && s.log[..n][i].seqNum == last;
    assert SourceAt(s, i) by { InvSource(s, i); }
    var k := s.source[i];
    assert s.source[..n][i] == k;
    if k != id {
      InvPair(s, id, k);
      assert id in s.source[..s.ops[id].outcome.at];
      var j :| 0 <= j < s.ops[id].outcome.at && s.source[j] == id;
      assert s.source[..n][j] == id;
    }
  }

  lemma InvSize(s: Service)
    requires Inv(s)
    ensures |s.source| == |s.log|
  {
  }

  lemma InvAt(s: Service, k: nat)
    requires Inv(s) && k < |s.ops|
    ensures |s.source| == |s.log| && RecordOk(s, k)
  {
  }

  lemma InvSource(s: Service, i: nat)
    requires Inv(s) && i < |s.log|
    ensures |s.source| == |s.log| && SourceAt(s, i)
  {
  }

  /** Two operations of one clerk, the one with the lower number first. */
  lemma InvPair(s: Service, j: nat, k: nat)
    requires Inv(s) && j < |s.ops| && k < |s.ops| && j != k
    requires s.ops[j].op.clientId == s.ops[k].op.clientId && s.ops[j].op.seqNum <= s.ops[k].op.seqNum
    ensures s.ops[j].outcome.Completed? && s.ops[j].outcome.at <= s.ops[k].from && RecordOk(s, j)
    ensures s.ops[j].op.seqNum < s.ops[k].op.seqNum
  {
    assert RecordOk(s, j);
    if j < k { InvSerial(s, j, k); } else { InvSerial(s, k, j); }
  }

  // ---------------------------------------------------------------- the steps

  /** The log has grown, or not, and no operation has been forgotten or renamed. */
  predicate Later(s: Service, s': Service) {
    && |s.source| == |s.log| && |s'.source| == |s'.log| && s.log <= s'.log && s.source <= s'.source && s.clock < s'.clock
    && |s.ops| <= |s'.ops| && forall k :: 0 <= k < |s.ops| ==> s'.ops[k].op == s.ops[k].op
  }

  lemma AnswerStays(s: Service, s': Service, id: nat, value: string, at: nat)
    requires Later(s, s') && AnswerOk(s, id, value, at)
    ensures AnswerOk(s', id, value, at)
  {
    hide Run;
    assert s'.log[..at] == s.log[..at] && s'.source[..at] == s.source[..at];
  }

  lemma RecordStays(s: Service, s': Service, k: nat)
    requires Later(s, s') && k < |s.ops| && RecordOk(s, k) && s'.ops[k] == s.ops[k]
    ensures RecordOk(s', k)
  {
    hide AnswerOk;
    if s.ops[k].outcome.Completed? { AnswerStays(s, s', k, s.ops[k].outcome.value, s.ops[k].outcome.at); }
  }

  lemma RepliesStay(s: Service, s': Service)
    requires Inv(s) && Later(s, s')
    ensures forall r {:trigger r in s.replies} :: r in s.replies ==> AnswerOk(s', r.id, r.value, r.at)
  {
    hide AnswerOk;
    forall r | r in s.replies ensures AnswerOk(s', r.id, r.value, r.at) { AnswerStays(s, s', r.id, r.value, r.at); }
  }

  /** Steps of replicas alone: the operations and the log are not touched. */
  lemma ReplicaStep(s: Service, s': Service)
    requires Inv(s) && s'.log == s.log && s'.source == s.source && s'.ops == s.ops && s'.clock == s.clock + 1
    requires forall r :: r in s'.replies ==> r in s.replies || AnswerOk(s, r.id, r.value, r.at)
    requires forall i :: 0 <= i < |s'.replicas| ==> Holds(s.log, s'.replicas[i].store, s'.replicas[i].applied)
    requires forall snap :: snap in s'.snaps ==> Holds(s.log, KvState(snap.data, snap.seqs), snap.index)
    ensures Inv(s')
  {
    hide AnswerOk, Holds, RecordOk;
    RepliesStay(s, s');
    forall k | 0 <= k < |s.ops| ensures RecordOk(s', k) { RecordStays(s, s', k); }
    forall i | 0 <= i < |s.log| ensures SourceAt(s', i) { assert SourceAt(s, i); }
    forall r | r in s'.replies ensures AnswerOk(s', r.id, r.value, r.at) {
      if r !in s.replies { AnswerStays(s, s', r.id, r.value, r.at); }
    }
  }

  lemma ApplyKeeps(s: Service, i: nat)
    requires Inv(s) && Enabled(s, ApplyNext(i))
    ensures Inv(Next(s, ApplyNext(i)))
  {
    hide AnswerOk, Holds, Apply;
    HoldsApply(s.log, s.replicas[i].store, s.replicas[i].applied);
    ReplicaStep(s, Next(s, ApplyNext(i)));
  }

  lemma TakeKeeps(s: Service, i: nat)
    requires Inv(s) && Enabled(s, TakeSnapshot(i))
    ensures Inv(Next(s, TakeSnapshot(i)))
  {
    hide AnswerOk, Holds;
    assert Holds(s.log, s.replicas[i].store, s.replicas[i].applied);
    ReplicaStep(s, Next(s, TakeSnapshot(i)));
  }

  lemma InstallKeeps(s: Service, i: nat, snap: Snapshot)
    requires Inv(s) && Enabled(s, Install(i, snap))
    ensures Inv(Next(s, Install(i, snap)))
  {
    hide AnswerOk, Run, Same;
    RestoreBehind(s.log, s.replicas[i].applied, snap.index, s.replicas[i].store, snap);
    ReplicaStep(s, Next(s, Install(i, snap)));
  }

  lemma RestartKeeps(s: Service, i: nat)
    requires Inv(s) && Enabled(s, Restart(i))
    ensures Inv(Next(s, Restart(i)))
  {
    hide AnswerOk;
    assert s.log[..0] == [];
    assert Holds(s.log, EMPTY, 0);
    ReplicaStep(s, Next(s, Restart(i)));
  }

  lemma AnswerKeeps(s: Service, i: nat, id: nat)
    requires Inv(s) && Enabled(s, Answer(i, id))
    ensures Inv(Next(s, Answer(i, id)))
  {
    hide Run, Done;
    var r := s.replicas[i];
    assert Holds(s.log, r.store, r.applied);
    DoneIsApplied(s, r.applied, r.store, id);
    assert AnswerOk(s, id, AnswerTo(r.store, s.ops[id].op), r.applied);
    ReplicaStep(s, Next(s, Answer(i, id)));
  }

  lemma CommitKeeps(s: Service, id: nat)
    requires Inv(s) && Enabled(s, Commit(id))
    ensures Inv(Next(s, Commit(id)))
  {
    hide AnswerOk, Holds, RecordOk;
    var s' := Next(s, Commit(id));
    RepliesStay(s, s');
    forall k | 0 <= k < |s.ops| ensures RecordOk(s', k) { RecordStays(s, s', k); }
    forall i | 0 <= i < |s'.log| ensures SourceAt(s', i) {
      if i < |s.log| { assert SourceAt(s, i); } else { RecordFrom(s, id); }
    }
    forall i | 0 <= i < |s.replicas| ensures Holds(s'.log, s.replicas[i].store, s.replicas[i].applied) {
      HoldsGrows(s.log, s.ops[id].op, s.replicas[i].store, s.replicas[i].applied);
    }
    forall snap | snap in s.snaps ensures Holds(s'.log, KvState(snap.data, snap.seqs), snap.index) {
      HoldsGrows(s.log, s.ops[id].op, KvState(snap.data, snap.seqs), snap.index);
    }
  }

  lemma RecordFrom(s: Service, k: nat)
    requires k < |s.ops| && RecordOk(s, k)
    ensures s.ops[k].from <= |s.log| && s.ops[k].call < s.clock && s.ops[k].op.seqNum > 0
    ensures s.ops[k].outcome.Completed? ==> s.ops[k].outcome.at <= |s.log| && s.ops[k].outcome.ret < s.clock
  {
  }

  lemma {:induction false} NumbersAbove(ops: seq<Record>, client: nat)
    requires forall j, k {:trigger SerialAt(ops, j, k)} :: 0 <= j < k < |ops| ==> SerialAt(ops, j, k)
    requires forall k :: 0 <= k < |ops| ==> ops[k].op.seqNum > 0
    ensures LastNumber(ops, client) >= 0
    ensures forall k :: 0 <= k < |ops| && ops[k].op.clientId == client ==> ops[k].op.seqNum <= LastNumber(ops, client)
  {
    if ops != [] {
      var init := ops[..|ops| - 1];
      forall j, k | 0 <= j < k < |init| ensures SerialAt(init, j, k) { assert SerialAt(ops, j, k); }
      NumbersAbove(init, client);
      forall k | 0 <= k < |ops| && ops[k].op.clientId == client ensures ops[k].op.seqNum <= LastNumber(ops, client) {
        if k < |init| {
          assert init[k] == ops[k];
          if ops[|init|].op.clientId == client { assert SerialAt(ops, k, |init|); }
        }
      }
    }
  }

  lemma InvokeKeeps(s: Service, step: Step)
    requires Inv(s) && step.Invoke? && Enabled(s, step)
    ensures Inv(Next(s, step))
  {
    hide AnswerOk, Holds, RecordOk;
    var s', n := Next(s, step), |s.ops|;
    RepliesStay(s, s');
    forall k | 0 <= k < n ensures s.ops[k].op.seqNum > 0 { RecordFrom(s, k); }
    NumbersAbove(s.ops, step.client);
    forall k | 0 <= k < |s'.ops| ensures RecordOk(s', k) {
      if k < n { RecordStays(s, s', k); } else { NewRecord(s, s', step.client); }
    }
    forall i | 0 <= i < |s'.log| ensures SourceAt(s', i) { assert SourceAt(s, i); }
    forall j, k | 0 <= j < k < |s'.ops| ensures SerialAt(s'.ops, j, k) {
      if k < n { assert SerialAt(s.ops, j, k); } else { RecordFrom(s, j); }
    }
    forall j, k | 0 <= j < |s'.ops| && 0 <= k < |s'.ops| ensures TimeOk(s'.ops, j, k) {
      if j < n && k < n { assert TimeOk(s.ops, j, k); } else if j < n { RecordFrom(s, j); }
    }
  }

  lemma NewRecord(s: Service, s': Service, client: nat)
    requires |s'.ops| == |s.ops| + 1 && s'.log == s.log && s'.clock == s.clock + 1 && LastNumber(s.ops, client) >= 0
    requires s'.ops[|s.ops|].op.seqNum == LastNumber(s.ops, client) + 1
    requires s'.ops[|s.ops|].from == |s.log| && s'.ops[|s.ops|].call == s.clock && s'.ops[|s.ops|].outcome.Pending?
    ensures RecordOk(s', |s.ops|)
  {
  }

  lemma ReceiveKeeps(s: Service, r: Reply)
    requires Inv(s) && Enabled(s, Receive(r))
    ensures Inv(Next(s, Receive(r)))
  {
    hide AnswerOk, Holds, RecordOk;
    var s' := Next(s, Receive(r));
    RepliesStay(s, s');
    forall k | 0 <= k < |s'.ops| ensures RecordOk(s', k) {
      if k != r.id { RecordStays(s, s', k); } else { CompletedRecord(s, s', r); }
    }
    forall i | 0 <= i < |s'.log| ensures SourceAt(s', i) { assert SourceAt(s, i); }
    forall j, k | 0 <= j < k < |s'.ops| ensures SerialAt(s'.ops, j, k) { assert SerialAt(s.ops, j, k); }
    forall j, k | 0 <= j < |s'.ops| && 0 <= k < |s'.ops| ensures TimeOk(s'.ops, j, k) {
      assert TimeOk(s.ops, j, k);
      RecordFrom(s, k);
    }
  }

  lemma CompletedRecord(s: Service, s': Service, r: Reply)
    requires r.id < |s.ops| && Later(s, s') && s'.clock == s.clock + 1 && RecordOk(s, r.id) && AnswerOk(s, r.id, r.value, r.at)
    requires s'.ops[r.id] == s.ops[r.id].(outcome := Completed(s.clock, r.value, r.at))
    ensures RecordOk(s', r.id)
  {
    hide AnswerOk;
    AnswerStays(s, s', r.id, r.value, r.at);
  }

  /** Every step keeps the invariant. */
  lemma StepKeeps(s: Service, step: Step)
    requires Inv(s) && Enabled(s, step)
    ensures Inv(Next(s, step))
  {
    hide Inv, Next;
    match step
    case Invoke(_, _, _, _) => InvokeKeeps(s, step);
    case Commit(id) => CommitKeeps(s, id);
    case ApplyNext(i) => ApplyKeeps(s, i);
    case TakeSnapshot(i) => TakeKeeps(s, i);
    case Install(i, snap) => InstallKeeps(s, i, snap);
    case Restart(i) => RestartKeeps(s, i);
    case Answer(i, id) => AnswerKeeps(s, i, id);
    case Receive(r) => ReceiveKeeps(s, r);
  }

  lemma {:induction false} RunKeeps(run: seq<Service>, steps: seq<Step>, k: nat)
    requires IsRun(run, steps) && k < |run|
    ensures Inv(run[k])
  {
    hide Inv, Next;
    if k == 0 {
      InitInv(run[0]);
    } else {
      RunKeeps(run, steps, k - 1);
      assert StepAt(run, steps, k - 1);
      StepKeeps(run[k - 1], steps[k - 1]);
    }
  }
}
