/**
 * The service as its clients see it: every operation can be answered from every reachable state, and the
 * answers fit one order of all operations in which each get returns what was written before it.
 */
module KvProgress {
  import opened Linearizability
  import opened PorcupineOperations
  import opened KvStore
  import opened KvService
  import R = KvReads
  import KvModel
  import L = KvLinearizable

  // ---------------------------------------------------------------- every operation can be answered

  function Last(run: seq<Service>): Service
    requires run != []
  {
    run[|run| - 1]
  }

  /** A run with at least one replica. */
  predicate Ongoing(run: seq<Service>, steps: seq<Step>) {
    run != [] && IsRun(run, steps) && |Last(run).replicas| > 0
  }

  lemma Goes(run: seq<Service>, steps: seq<Step>, step: Step) returns (more: seq<Service>, moreSteps: seq<Step>)
    requires Ongoing(run, steps) && Enabled(Last(run), step)
    ensures Ongoing(more, moreSteps) && run <= more && steps <= moreSteps && Last(more) == Next(Last(run), step)
  {
    hide Enabled, Next;
    more, moreSteps := run + [Next(Last(run), step)], steps + [step];
    forall k: nat | k < |moreSteps| ensures StepAt(more, moreSteps, k) {
      if k < |steps| { assert StepAt(run, steps, k); }
    }
    ReplicasStay(Last(run), step);
  }

  lemma ReplicasStay(s: Service, step: Step)
    requires Enabled(s, step)
    ensures |Next(s, step).replicas| == |s.replicas|
  {
  }

  /** Replica 0 applies the rest of the log. */
  lemma {:induction false} AppliesAll(run: seq<Service>, steps: seq<Step>) returns (more: seq<Service>, moreSteps: seq<Step>)
    requires Ongoing(run, steps) && Last(run).replicas[0].applied <= |Last(run).log|
    ensures Ongoing(more, moreSteps) && run <= more && steps <= moreSteps
    ensures Last(more).replicas[0].applied == |Last(more).log| && Last(more).log == Last(run).log
    ensures Last(more).ops == Last(run).ops
    decreases |Last(run).log| - Last(run).replicas[0].applied
  {
    hide IsRun, Apply;
    more, moreSteps := run, steps;
    if Last(run).replicas[0].applied < |Last(run).log| {
      more, moreSteps := Goes(run, steps, ApplyNext(0));
      more, moreSteps := AppliesAll(more, moreSteps);
    }
  }

  /** A replica that has applied the whole log counts everything in the log as done. */
  lemma LogIsDone(s: Service, op: Op)
    requires Inv(s) && |s.replicas| > 0 && s.replicas[0].applied == |s.log| && op in s.log
    ensures Done(s.replicas[0].store, op)
  {
    hide Run;
    assert Holds(s.log, s.replicas[0].store, s.replicas[0].applied);
    assert s.log[..|s.log|] == s.log;
    LastIsHighest(s.log, op.clientId);
    var i :| 0 <= i < |s.log| && s.log[i] == op;
  }

  lemma ReplicaBehind(s: Service)
    requires Inv(s) && |s.replicas| > 0
    ensures s.replicas[0].applied <= |s.log|
  {
    assert Holds(s.log, s.replicas[0].store, s.replicas[0].applied);
  }

  lemma InvLast(run: seq<Service>, steps: seq<Step>)
    requires Ongoing(run, steps)
    ensures Inv(Last(run))
  {
    hide Inv;
    RunKeeps(run, steps, |run| - 1);
  }

  /** The operations are the same, and what was answered is answered as before. */
  predicate OpsStay(ops: seq<Record>, ops': seq<Record>) {
    && |ops| <= |ops'|
    && forall k :: 0 <= k < |ops| ==> ops'[k].op == ops[k].op && (ops[k].outcome.Completed? ==> ops'[k] == ops[k])
  }

  /** From every reachable state, every operation that is under way can be answered. */
  lemma CanAnswer(run: seq<Service>, steps: seq<Step>, id: nat) returns (more: seq<Service>, moreSteps: seq<Step>)
    requires Ongoing(run, steps) && id < |Last(run).ops|
    ensures Ongoing(more, moreSteps) && run <= more && steps <= moreSteps
    ensures OpsStay(Last(run).ops, Last(more).ops) && |Last(more).ops| == |Last(run).ops|
    ensures Last(more).ops[id].outcome.Completed?
  {
    hide IsRun, Inv, Done, Run;
    more, moreSteps := run, steps;
    if Last(run).ops[id].outcome.Pending? {
      var op := Last(run).ops[id].op;
      more, moreSteps := Goes(run, steps, Commit(id));
      assert Last(more).log[|Last(run).log|] == op;
      InvLast(more, moreSteps);
      ReplicaBehind(Last(more));
      more, moreSteps := AppliesAll(more, moreSteps);
      InvLast(more, moreSteps);
      LogIsDone(Last(more), op);
      more, moreSteps := Answered(more, moreSteps, id);
    }
  }

  lemma Answered(run: seq<Service>, steps: seq<Step>, id: nat) returns (more: seq<Service>, moreSteps: seq<Step>)
    requires Ongoing(run, steps) && id < |Last(run).ops| && Last(run).ops[id].outcome.Pending?
    requires Done(Last(run).replicas[0].store, Last(run).ops[id].op)
    ensures Ongoing(more, moreSteps) && run <= more && steps <= moreSteps
    ensures OpsStay(Last(run).ops, Last(more).ops) && |Last(more).ops| == |Last(run).ops|
    ensures Last(more).ops[id].outcome.Completed?
  {
    hide IsRun, Done;
    more, moreSteps := Goes(run, steps, Answer(0, id));
    var r := Last(run).replicas[0];
    var reply := Reply(id, AnswerTo(r.store, Last(run).ops[id].op), r.applied);
    assert reply in Last(more).replies;
    more, moreSteps := Goes(more, moreSteps, Receive(reply));
  }

  lemma OpsStayTwice(a: seq<Record>, b: seq<Record>, c: seq<Record>)
    requires OpsStay(a, b) && OpsStay(b, c)
    ensures OpsStay(a, c)
  {
  }

  /** The first `n` operations are answered. */
  lemma {:induction false} AnswersAll(run: seq<Service>, steps: seq<Step>, n: nat) returns (more: seq<Service>, moreSteps: seq<Step>)
    requires Ongoing(run, steps) && n <= |Last(run).ops|
    ensures Ongoing(more, moreSteps) && run <= more && steps <= moreSteps
    ensures OpsStay(Last(run).ops, Last(more).ops) && |Last(more).ops| == |Last(run).ops|
    ensures forall k :: 0 <= k < n ==> Last(more).ops[k].outcome.Completed?
    decreases n
  {
    hide IsRun;
    if n == 0 {
      more, moreSteps := run, steps;
    } else {
      var before, beforeSteps := AnswersAll(run, steps, n - 1);
      more, moreSteps := CanAnswer(before, beforeSteps, n - 1);
      OpsStayTwice(Last(run).ops, Last(before).ops, Last(more).ops);
    }
  }

  /** From every reachable state, any client can make any call and be answered. */
  lemma CanServe(run: seq<Service>, steps: seq<Step>, client: nat, kind: Kind, key: string, value: string)
    returns (more: seq<Service>, moreSteps: seq<Step>, id: nat)
    requires Ongoing(run, steps)
    ensures Ongoing(more, moreSteps) && run <= more && steps <= moreSteps && OpsStay(Last(run).ops, Last(more).ops)
    ensures |Last(run).ops| <= id < |Last(more).ops| && Last(more).ops[id].outcome.Completed?
    ensures var op := Last(more).ops[id].op; op.clientId == client && op.kind == kind && op.key == key && op.value == value
  {
    hide IsRun;
    more, moreSteps := AnswersAll(run, steps, |Last(run).ops|);
    var quiet := Last(more).ops;
    more, moreSteps := Goes(more, moreSteps, Invoke(client, kind, key, value));
    id := |quiet|;
    var called := Last(more).ops;
    more, moreSteps := CanAnswer(more, moreSteps, id);
    OpsStayTwice(Last(run).ops, quiet, called);
    OpsStayTwice(Last(run).ops, called, Last(more).ops);
  }

  // ---------------------------------------------------------------- what clients see

  /** The recorded history says of each operation what it was, when, and what it returned. */
  lemma HistoryIs(s: Service, k: nat)
    requires k < |s.ops|
    ensures var r, op := s.ops[k], L.History(s)[k];
            && |L.History(s)| == |s.ops|
            && (R.IsGet(op) <==> r.op.kind == Get)
            && (R.IsPut(R.OnKey(r.op.key), op) <==> r.op.kind == Put)
            && (R.IsAppend(R.OnKey(r.op.key), op) <==> r.op.kind == Append)
            && op.clientId == r.op.clientId && op.input.key == r.op.key && op.input.value == r.op.value && op.call == r.call
            && (r.outcome.Completed? ==> op.ret == r.outcome.ret && op.output.value == r.outcome.value)
  {
  }

  /**
   * In every run, whenever nothing is under way, there is one order of all operations that never
   * contradicts real time and in which every get returns what was put last on its key before it,
   * followed by all that was appended to it since.
   */
  lemma GetsAreRight(run: seq<Service>, steps: seq<Step>, t: nat) returns (q: seq<nat>)
    requires IsRun(run, steps) && t < |run|
    requires forall k :: 0 <= k < |run[t].ops| ==> run[t].ops[k].outcome.Completed?
    ensures var h := L.History(run[t]);
            && |q| == |h| == |run[t].ops| && Distinct(q) && Ids(q, |h|) && InTime(h, q)
            && forall i {:trigger R.MapReads(h, q, i)} :: 0 <= i < |q| ==> R.MapReads(h, q, i)
  {
    hide IsRun, Explains, R.MapReads, InTime;
    L.QuietLinearizable(run, steps, t);
    var h := L.History(run[t]);
    q :| IsOrder(KvModel.WholeMap(), h, q);
    OrderShape(h, q);
    R.MapReadsRight(h, q);
  }

  lemma OrderShape(h: seq<KvModel.KvOperation>, q: seq<nat>)
    requires IsOrder(KvModel.WholeMap(), h, q)
    ensures |q| == |h| && Distinct(q) && Ids(q, |h|) && InTime(h, q) && Explains(KvModel.WholeMap(), h, q)
  {
  }

  // ---------------------------------------------------------------- what the steps leave behind

  /** A call is recorded as it was made; snapshots, restarts and installations do what they say to one replica. */
  lemma StepsLeave(s: Service, step: Step)
    requires Enabled(s, step)
    ensures var t := Next(s, step);
            && t.clock > s.clock && |t.replicas| == |s.replicas|
            && match step {
                 case Invoke(client, kind, key, value) =>
                   && |t.ops| == |s.ops| + 1 && t.ops[..|s.ops|] == s.ops
                   && var r := t.ops[|s.ops|];
                     && r.outcome.Pending? && r.call == s.clock && r.op.clientId == client
                     && r.op.kind == kind && r.op.key == key && r.op.value == value
                 case Commit(id) => t.log == s.log + [s.ops[id].op]
                 case ApplyNext(i) => t.replicas[i].applied == s.replicas[i].applied + 1
                 case TakeSnapshot(i) =>
                   exists snap :: snap in t.snaps && snap.index == s.replicas[i].applied && snap.data == s.replicas[i].store.data
                 case Install(i, snap) => t.replicas[i].applied == snap.index && t.replicas[i].store.data == snap.data
                 case Restart(i) => t.replicas[i] == Replica(EMPTY, 0)
                 case Answer(i, id) => exists r :: r in t.replies && r.id == id && r.at == s.replicas[i].applied
                 case Receive(r) => t.ops[r.id].outcome == Completed(s.clock, r.value, r.at)
               }
  {
    hide Apply;
    match step
    case TakeSnapshot(i) => assert Save(s.replicas[i].store, s.replicas[i].applied) in Next(s, step).snaps;
    case Answer(i, id) =>
      var r := s.replicas[i];
      assert Reply(id, AnswerTo(r.store, s.ops[id].op), r.applied) in Next(s, step).replies;
    case _ =>
  }
}
