/** The histories of the key/value service are linearizable against one map. */
module KvLinearizable {
  import opened Linearizability
  import opened PorcupineOperations
  import opened Locality
  import opened KvStore
  import KvModel
  import S = KvService

  // ---------------------------------------------------------------- the log of a reachable state

  /** First requests reach the log in the order of their numbers. */
  lemma LogInOrder(s: S.Service)
    requires S.Inv(s)
    ensures InOrder(s.log)
  {
    hide S.Inv;
    forall i | 0 <= i < |s.log| ensures InOrderAt(s.log, i) { EntryInOrder(s, i); }
  }

  lemma EntryInOrder(s: S.Service, i: nat)
    requires S.Inv(s) && i < |s.log|
    ensures InOrderAt(s.log, i)
  {
    hide S.Inv, Run;
    S.InvSource(s, i);
    var k := s.source[i];
    S.InvAt(s, k);
    if !Occurs(s.log[..i], s.log[i]) {
      forall j | 0 <= j < i && s.log[j].clientId == s.log[i].clientId ensures s.log[j].seqNum < s.log[i].seqNum {
        S.InvSource(s, j);
        EarlierIsLower(s, j, i);
      }
    }
  }

  lemma EarlierIsLower(s: S.Service, j: nat, i: nat)
    requires S.Inv(s) && j < i < |s.log| && s.log[j].clientId == s.log[i].clientId
    ensures s.log[j].seqNum < s.log[i].seqNum || Occurs(s.log[..i], s.log[i])
  {
    hide S.Inv, Run;
    S.InvSource(s, i);
    S.InvSource(s, j);
    var k, l := s.source[i], s.source[j];
    if k == l {
      assert SameOp(s.log[..i][j], s.log[i]);
    } else if s.log[j].seqNum >= s.log[i].seqNum {
      S.InvPair(s, k, l);
      var at := s.ops[k].outcome.at;
      assert k in s.source[..at];
      var e :| 0 <= e < at && s.source[..at][e] == k;
      assert s.source[e] == k;
      S.InvSource(s, e);
      assert SameOp(s.log[..i][e], s.log[i]);
    }
  }

  /** Entry `i` is the first request of its operation. */
  predicate First(s: S.Service, i: nat)
    requires i < |s.source|
  {
    s.source[i] !in s.source[..i]
  }

  lemma FirstIsNew(s: S.Service, i: nat)
    requires S.Inv(s) && i < |s.log|
    ensures |s.source| == |s.log| && (First(s, i) <==> !Occurs(s.log[..i], s.log[i]))
  {
    hide S.Inv;
    S.InvSource(s, i);
    if Occurs(s.log[..i], s.log[i]) {
      var j :| 0 <= j < |s.log[..i]| && SameOp(s.log[..i][j], s.log[i]);
      S.InvSource(s, j);
      S.OneId(s, s.source[i], s.source[j]);
      assert s.source[..i][j] == s.source[i];
    }
    if !First(s, i) {
      var j :| 0 <= j < i && s.source[..i][j] == s.source[i];
      S.InvSource(s, j);
      assert SameOp(s.log[..i][j], s.log[i]);
    }
  }

  /** One more entry changes the data exactly when it is the first request of its operation. */
  lemma DataStep(s: S.Service, i: nat)
    requires S.Inv(s) && i < |s.log|
    ensures |s.source| == |s.log|
    ensures Run(s.log[..i + 1]).data == if First(s, i) then Execute(Run(s.log[..i]).data, s.log[i]) else Run(s.log[..i]).data
  {
    hide S.Inv, Execute, Occurs, Done;
    FirstIsNew(s, i);
    EntryInOrder(s, i);
    var init := s.log[..i];
    assert s.log[..i + 1] == init + [s.log[i]];
    assert (init + [s.log[i]])[..|init|] == init;
    assert InOrderAt(init + [s.log[i]], |init|) by { InOrderHere(s.log, i); }
    DoneIsOld(init, s.log[i]);
  }

  lemma InOrderHere(log: seq<Op>, i: nat)
    requires i < |log| && InOrderAt(log, i)
    ensures InOrderAt(log[..i] + [log[i]], i)
  {
    var more := log[..i] + [log[i]];
    assert more[..i] == log[..i];
  }

  // ---------------------------------------------------------------- the history of a run

  function Code(kind: Kind): nat {
    match kind
    case Get => 0
    case Put => 1
    case Append => 2
  }

  function AsOperation(r: S.Record, now: int): KvModel.KvOperation {
    Operation(r.op.clientId, KvModel.KvInput(Code(r.op.kind), r.op.key, r.op.value), r.call,
              KvModel.KvOutput(if r.outcome.Completed? then r.outcome.value else ""),
              if r.outcome.Completed? then r.outcome.ret else now)
  }

  /** All calls and returns so far; what is still under way counts as returning now. */
  function History(s: S.Service): (h: seq<KvModel.KvOperation>)
    ensures |h| == |s.ops| && forall k :: 0 <= k < |h| ==> h[k] == AsOperation(s.ops[k], s.clock)
  {
    seq(|s.ops|, k requires 0 <= k < |s.ops| => AsOperation(s.ops[k], s.clock))
  }

  lemma HistoryTimed(s: S.Service)
    requires S.Inv(s)
    ensures Timed(History(s))
  {
    hide S.Inv, Run;
    forall k | 0 <= k < |s.ops| ensures History(s)[k].call <= History(s)[k].ret { S.InvAt(s, k); }
  }

  predicate IsGet(s: S.Service, k: nat)
    requires k < |s.ops|
  {
    s.ops[k].op.kind == Get
  }

  predicate GetAt(s: S.Service, k: nat, a: nat)
    requires k < |s.ops|
  {
    IsGet(s, k) && s.ops[k].outcome.Completed? && s.ops[k].outcome.at == a
  }

  /**
   * Walks the log: a write takes effect at its first request, a get right after the part of the
   * log its answer was read from. At position `a` the gets below `n` have been placed.
   */
  function Walk(s: S.Service, a: nat, n: nat): seq<nat>
    requires a <= |s.source| && n <= |s.ops| && forall i :: 0 <= i < |s.source| ==> s.source[i] < |s.ops|
    decreases a, n
  {
    if n > 0 then Walk(s, a, n - 1) + (if GetAt(s, n - 1, a) then [n - 1] else [])
    else if a == 0 then []
    else Walk(s, a - 1, |s.ops|) + (if First(s, a - 1) && !IsGet(s, s.source[a - 1]) then [s.source[a - 1]] else [])
  }

  ghost predicate Walkable(s: S.Service, a: nat, n: nat) {
    S.Inv(s) && a <= |s.source| && n <= |s.ops| && forall i :: 0 <= i < |s.source| ==> s.source[i] < |s.ops|
  }

  lemma CanWalk(s: S.Service, a: nat, n: nat)
    requires S.Inv(s) && a <= |s.log| && n <= |s.ops|
    ensures Walkable(s, a, n)
  {
    forall i | 0 <= i < |s.log| ensures |s.source| == |s.log| && s.source[i] < |s.ops| { S.InvSource(s, i); }
  }

  predicate Placed(s: S.Service, k: nat, a: nat, n: nat)
    requires a <= |s.source|
  {
    && k < |s.ops|
    && if IsGet(s, k) then s.ops[k].outcome.Completed? && (s.ops[k].outcome.at < a || (s.ops[k].outcome.at == a && k < n))
       else k in s.source[..a]
  }

  lemma {:induction false} Walked(s: S.Service, a: nat, n: nat, k: nat)
    requires Walkable(s, a, n)
    ensures k in Walk(s, a, n) <==> Placed(s, k, a, n)
    decreases a, n
  {
    hide S.Inv;
    if n > 0 {
      Walked(s, a, n - 1, k);
    } else if a > 0 {
      Walked(s, a - 1, |s.ops|, k);
      assert s.source[..a] == s.source[..a - 1] + [s.source[a - 1]];
    } else {
      NothingPlaced(s, k);
    }
  }

  lemma NothingPlaced(s: S.Service, k: nat)
    requires S.Inv(s)
    ensures !Placed(s, k, 0, 0)
  {
    assert s.source[..0] == [];
    if k < |s.ops| { S.InvAt(s, k); }
  }

  /** What has been placed was called before the log got there. */
  lemma PlacedBegan(s: S.Service, k: nat, a: nat, n: nat)
    requires S.Inv(s) && a <= |s.source| && Placed(s, k, a, n)
    ensures s.ops[k].from < a
  {
    hide S.Inv, Run;
    S.InvAt(s, k);
    var upto := if IsGet(s, k) then s.ops[k].outcome.at else a;
    assert k in s.source[..upto];
    var i :| 0 <= i < upto && s.source[..upto][i] == k;
    S.InvSource(s, i);
  }

  /** Placed next at position `a`: a get answered there, or the write whose first request is the entry before it. */
  predicate PlacedNext(s: S.Service, z: nat, a: nat)
    requires a <= |s.source|
  {
    z < |s.ops| && (GetAt(s, z, a) || (a > 0 && First(s, a - 1) && s.source[a - 1] == z && !IsGet(s, z)))
  }

  lemma AnsweredAfter(s: S.Service, z: nat, a: nat)
    requires S.Inv(s) && a <= |s.source| && PlacedNext(s, z, a) && s.ops[z].outcome.Completed?
    ensures a <= s.ops[z].outcome.at
  {
    hide S.Inv, Run;
    S.InvAt(s, z);
    var at := s.ops[z].outcome.at;
    var i :| 0 <= i < at && s.source[..at][i] == z;
    assert i < a - 1 ==> s.source[..a - 1][i] == z;
  }

  lemma NextInTime(s: S.Service, y: nat, z: nat, b: nat, n: nat, a: nat)
    requires S.Inv(s) && b <= a <= |s.source| && Placed(s, y, b, n) && PlacedNext(s, z, a)
    ensures !(History(s)[z].ret < History(s)[y].call)
  {
    hide S.Inv, Run;
    PlacedBegan(s, y, b, n);
    S.InvAt(s, y);
    InvTime(s, z, y);
    if s.ops[z].outcome.Completed? { AnsweredAfter(s, z, a); }
  }

  lemma InvTime(s: S.Service, j: nat, k: nat)
    requires S.Inv(s) && j < |s.ops| && k < |s.ops|
    ensures S.TimeOk(s.ops, j, k)
  {
  }

  ghost predicate InRealTime(s: S.Service, q: seq<nat>) {
    Ids(q, |s.ops|) && Distinct(q) && InTime(History(s), q)
  }

  ghost predicate AllPlaced(s: S.Service, q: seq<nat>, a: nat, n: nat)
    requires a <= |s.source|
  {
    forall y :: y in q ==> Placed(s, y, a, n)
  }

  lemma WalkPlaced(s: S.Service, a: nat, n: nat)
    requires Walkable(s, a, n)
    ensures AllPlaced(s, Walk(s, a, n), a, n)
  {
    hide S.Inv, Walk, Placed;
    var q := Walk(s, a, n);
    forall y | y in q ensures Placed(s, y, a, n) { Walked(s, a, n, y); }
  }

  /** One more operation, not placed before, keeps the order free of repetition and in real time. */
  lemma PlaceOne(s: S.Service, q: seq<nat>, b: nat, n: nat, z: nat, a: nat)
    requires S.Inv(s) && b <= a <= |s.source| && PlacedNext(s, z, a) && !Placed(s, z, b, n)
    requires AllPlaced(s, q, b, n) && InRealTime(s, q)
    ensures InRealTime(s, q + [z])
  {
    hide S.Inv, InTime, Distinct, Placed, AsOperation;
    forall y | y in q ensures !(History(s)[z].ret < History(s)[y].call) { NextInTime(s, y, z, b, n, a); }
    DistinctLast(q, z);
    InTimeLast(History(s), q, z);
  }

  lemma {:induction false} WalkInTime(s: S.Service, a: nat, n: nat)
    requires Walkable(s, a, n)
    ensures InRealTime(s, Walk(s, a, n))
    decreases a, n
  {
    hide S.Inv, InRealTime, AllPlaced;
    if n > 0 {
      WalkInTime(s, a, n - 1);
      if GetAt(s, n - 1, a) {
        WalkPlaced(s, a, n - 1);
        PlaceOne(s, Walk(s, a, n - 1), a, n - 1, n - 1, a);
      } else {
        assert Walk(s, a, n) == Walk(s, a, n - 1);
      }
    } else if a > 0 {
      WalkInTime(s, a - 1, |s.ops|);
      if First(s, a - 1) && !IsGet(s, s.source[a - 1]) {
        WalkPlaced(s, a - 1, |s.ops|);
        PlaceOne(s, Walk(s, a - 1, |s.ops|), a - 1, |s.ops|, s.source[a - 1], a);
      } else {
        assert Walk(s, a, n) == Walk(s, a - 1, |s.ops|);
      }
    } else {
      NothingYet(s);
    }
  }

  lemma NothingYet(s: S.Service)
    ensures InRealTime(s, []) && Explained(s, [], 0)
  {
    assert s.log[..0] == [];
  }

  // ---------------------------------------------------------------- the map accepts the walk

  lemma WriteStep(data: map<string, string>, r: S.Record, now: int)
    requires r.op.kind != Get
    ensures var o := AsOperation(r, now); KvModel.StepMap(data, o.input, o.output) == (true, Execute(data, r.op))
  {
  }

  lemma GetStep(data: map<string, string>, r: S.Record, now: int)
    requires r.op.kind == Get && r.outcome.Completed? && r.outcome.value == S.Read(data, r.op.key)
    ensures var o := AsOperation(r, now); KvModel.StepMap(data, o.input, o.output) == (true, data)
  {
  }

  lemma AcceptOne(h: seq<KvModel.KvOperation>, q: seq<nat>, z: nat, data: map<string, string>, data': map<string, string>)
    requires Ids(q, |h|) && z < |h| && Explains(KvModel.WholeMap(), h, q) && StateOf(KvModel.WholeMap(), h, q) == data
    requires KvModel.StepMap(data, h[z].input, h[z].output) == (true, data')
    ensures Ids(q + [z], |h|) && Explains(KvModel.WholeMap(), h, q + [z]) && StateOf(KvModel.WholeMap(), h, q + [z]) == data'
  {
    hide KvModel.StepMap;
    assert (q + [z])[..|q|] == q;
  }

  /** The map accepts the order and is left as a replica is that applied that much of the log. */
  ghost predicate Explained(s: S.Service, q: seq<nat>, a: nat) {
    && Ids(q, |s.ops|) && a <= |s.log| && Explains(KvModel.WholeMap(), History(s), q)
    && StateOf(KvModel.WholeMap(), History(s), q) == Run(s.log[..a]).data
  }

  lemma ExplainGet(s: S.Service, q: seq<nat>, k: nat, a: nat)
    requires S.Inv(s) && k < |s.ops| && Explained(s, q, a) && GetAt(s, k, a)
    ensures Explained(s, q + [k], a)
  {
    hide S.Inv, KvModel.StepMap, AsOperation, S.Read, Run, Explains, StateOf;
    S.InvAt(s, k);
    GetStep(Run(s.log[..a]).data, s.ops[k], s.clock);
    AcceptOne(History(s), q, k, Run(s.log[..a]).data, Run(s.log[..a]).data);
  }

  lemma ExplainEntry(s: S.Service, q: seq<nat>, a: nat)
    requires S.Inv(s) && 0 < a <= |s.source| && Explained(s, q, a - 1) && s.source[a - 1] < |s.ops| && a <= |s.log|
    ensures Explained(s, q + (if First(s, a - 1) && !IsGet(s, s.source[a - 1]) then [s.source[a - 1]] else []), a)
  {
    hide S.Inv, KvModel.StepMap, AsOperation, Execute, Run, Explains, StateOf;
    LogGoesOn(s, a);
    if First(s, a - 1) && !IsGet(s, s.source[a - 1]) {
      WriteStep(Run(s.log[..a - 1]).data, s.ops[s.source[a - 1]], s.clock);
      AcceptOne(History(s), q, s.source[a - 1], Run(s.log[..a - 1]).data, Run(s.log[..a]).data);
    } else {
      assert q + [] == q;
    }
  }

  lemma {:induction false} WalkExplains(s: S.Service, a: nat, n: nat)
    requires Walkable(s, a, n)
    ensures Explained(s, Walk(s, a, n), a)
    decreases a, n
  {
    hide S.Inv, Explained;
    if n > 0 {
      WalkExplains(s, a, n - 1);
      if GetAt(s, n - 1, a) {
        ExplainGet(s, Walk(s, a, n - 1), n - 1, a);
      } else {
        assert Walk(s, a, n) == Walk(s, a, n - 1);
      }
    } else if a > 0 {
      WalkExplains(s, a - 1, |s.ops|);
      assert |s.source| == |s.log| by { S.InvSize(s); }
      ExplainEntry(s, Walk(s, a - 1, |s.ops|), a);
    } else {
      NothingYet(s);
    }
  }

  lemma LogGoesOn(s: S.Service, a: nat)
    requires S.Inv(s) && 0 < a <= |s.source| && a - 1 < |s.log|
    ensures a <= |s.log| && s.source[a - 1] < |s.ops|
    ensures Run(s.log[..a]).data == if First(s, a - 1) && !IsGet(s, s.source[a - 1])
                                    then Execute(Run(s.log[..a - 1]).data, s.ops[s.source[a - 1]].op) else Run(s.log[..a - 1]).data
  {
    hide S.Inv;
    S.InvSource(s, a - 1);
    DataStep(s, a - 1);
  }

  // ---------------------------------------------------------------- linearizability

  /** The operations that have taken effect: those that returned, and the writes that are in the log. */
  ghost predicate TookEffect(s: S.Service, k: nat) {
    k < |s.ops| && (s.ops[k].outcome.Completed? || (s.ops[k].op.kind != Get && k in s.source))
  }

  lemma EffectIsPlaced(s: S.Service, k: nat)
    requires S.Inv(s)
    ensures |s.source| == |s.log| && (Placed(s, k, |s.source|, |s.ops|) <==> TookEffect(s, k))
  {
    hide S.Inv, Run;
    S.InvSize(s);
    assert s.source[..|s.source|] == s.source;
    if k < |s.ops| {
      S.InvAt(s, k);
      if s.ops[k].outcome.Completed? {
        var at := s.ops[k].outcome.at;
        assert forall x :: x in s.source[..at] ==> x in s.source;
      }
    }
  }

  ghost predicate IsCompletion(s: S.Service, ids: seq<nat>) {
    Ids(ids, |s.ops|) && Distinct(ids) && forall k: nat :: k in ids <==> TookEffect(s, k)
  }

  /** The operations that took effect, in the order of their calls. */
  ghost function Effective(s: S.Service, n: nat): (ids: seq<nat>)
    requires n <= |s.ops|
    ensures Ids(ids, n) && Distinct(ids) && forall k: nat :: k in ids <==> k < n && TookEffect(s, k)
  {
    if n == 0 then [] else Effective(s, n - 1) + if TookEffect(s, n - 1) then [n - 1] else []
  }

  /** In every reachable state the operations that took effect have one legal order in real time. */
  lemma StateLinearizable(s: S.Service, ids: seq<nat>)
    requires S.Inv(s) && IsCompletion(s, ids)
    ensures LinearizableOps(KvModel.WholeMap(), Part(History(s), ids))
  {
    hide S.Inv, Walk, InTime, Distinct, Explains, LinearizableOps, Part, TookEffect, Placed;
    S.InvSize(s);
    var a, n := |s.log|, |s.ops|;
    CanWalk(s, a, n);
    var q := Walk(s, a, n);
    WalkInTime(s, a, n);
    WalkExplains(s, a, n);
    forall k: nat ensures k in q <==> k in ids {
      Walked(s, a, n, k);
      EffectIsPlaced(s, k);
    }
    assert Elements(q) == Elements(ids);
    assert IsOrderOf(KvModel.WholeMap(), History(s), Elements(ids), q);
    PartLinearizable(KvModel.WholeMap(), History(s), ids);
  }

  /** Linearizability of the service, in every state of every run. */
  lemma ServiceLinearizable(run: seq<S.Service>, steps: seq<S.Step>, t: nat)
    requires S.IsRun(run, steps) && t < |run|
    ensures var ids := Effective(run[t], |run[t].ops|);
            IsCompletion(run[t], ids) && LinearizableOps(KvModel.WholeMap(), Part(History(run[t]), ids))
  {
    hide S.Inv;
    S.RunKeeps(run, steps, t);
    StateLinearizable(run[t], Effective(run[t], |run[t].ops|));
  }

  /** When nothing is under way the recorded history itself is linearizable, so the checker accepts it. */
  lemma QuietLinearizable(run: seq<S.Service>, steps: seq<S.Step>, t: nat)
    requires S.IsRun(run, steps) && t < |run|
    requires forall k :: 0 <= k < |run[t].ops| ==> run[t].ops[k].outcome.Completed?
    ensures LinearizableOps(KvModel.WholeMap(), History(run[t])) && Timed(History(run[t]))
  {
    hide S.Inv, LinearizableOps;
    var s := run[t];
    S.RunKeeps(run, steps, t);
    HistoryTimed(s);
    var ids := KvModel.Upto(|s.ops|);
    forall k: nat ensures k in ids <==> TookEffect(s, k) {
      if k < |s.ops| { assert ids[k] == k; }
    }
    StateLinearizable(s, ids);
    assert Part(History(s), ids) == History(s);
  }
}
