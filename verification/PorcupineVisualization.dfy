/**
 * What the visualization shows of a checked history. It replays every list that the check kept through
 * the model, and gives up if a step is rejected.
 */
module PorcupineVisualization {
  import opened Linearizability
  import opened PorcupineOperations

  datatype HistoryElement = HistoryElement(clientId: int, start: int, end: int)

  datatype LinearizationStep<S> = LinearizationStep(index: nat, state: S)

  datatype PartitionData<S> = PartitionData(
    history: seq<HistoryElement>,
    linearizations: seq<seq<LinearizationStep<S>>>,
    largest: map<nat, nat>)

  // ---------------------------------------------------------------- the operations

  /** The values of the calls and returns, by operation. */
  predicate ValuesOf<I(==), O(==)>(ops: seq<Operation<I, O>>, callValue: map<nat, I>, returnValue: map<nat, O>) {
    forall id :: 0 <= id < |ops| ==>
      id in callValue && callValue[id] == ops[id].input && id in returnValue && returnValue[id] == ops[id].output
  }

  /** What the first entries have filled in. */
  ghost predicate ReadUpTo<I, O>(ops: seq<Operation<I, O>>, es: seq<Entry<I, O>>, k: nat, history: seq<HistoryElement>,
                                 callValue: map<nat, I>, returnValue: map<nat, O>)
    requires k <= |es|
  {
    |history| == |ops| && forall j :: 0 <= j < k ==> EntryRead(ops, es[j], history, callValue, returnValue)
  }

  ghost predicate EntryRead<I, O>(ops: seq<Operation<I, O>>, e: Entry<I, O>, history: seq<HistoryElement>,
                                  callValue: map<nat, I>, returnValue: map<nat, O>)
  {
    var id := e.event.id;
    && id < |ops| && id < |history|
    && if e.event.Call?
       then id in callValue && callValue[id] == ops[id].input
            && history[id].clientId == ops[id].clientId && history[id].start == ops[id].call
       else id in returnValue && returnValue[id] == ops[id].output && history[id].end == ops[id].ret
  }

  /** When a return comes, its call has been read: the description of the operation finds both values. */
  lemma CallRead<I, O>(ops: seq<Operation<I, O>>, es: seq<Entry<I, O>>, k: nat, history: seq<HistoryElement>,
                       callValue: map<nat, I>, returnValue: map<nat, O>)
    requires IsMade(ops, es) && Timed(ops) && k < |es| && es[k].event.Return?
    requires ReadUpTo(ops, es, k, history, callValue, returnValue)
    ensures es[k].event.id in callValue
  {
    hide IsMade;
    Placed(ops, es, k);
    var c, r := SpanOf(ops, es, es[k].event.id);
    UniquePlace(ops, es, r, k);
    assert EntryRead(ops, es[c], history, callValue, returnValue);
  }

  method ReadHistory<I(==), O(==)>(es: seq<Entry<I, O>>, n: nat, ghost ops: seq<Operation<I, O>>)
    returns (history: seq<HistoryElement>, callValue: map<nat, I>, returnValue: map<nat, O>)
    requires IsMade(ops, es) && Timed(ops) && n == |ops|
    ensures ValuesOf(ops, callValue, returnValue)
    ensures |history| == |ops|
    ensures forall id :: 0 <= id < |ops| ==> history[id] == HistoryElement(ops[id].clientId, ops[id].call, ops[id].ret)
  {
    hide IsMade, Timed;
    history := seq(n, _ => HistoryElement(0, 0, 0));
    callValue, returnValue := map[], map[];
    for k := 0 to |es|
      invariant ReadUpTo(ops, es, k, history, callValue, returnValue)
    {
      Placed(ops, es, k);
      var id := es[k].event.id;
      match es[k].event {
        case Call(_, input) =>
          history := history[id := history[id].(clientId := es[k].clientId, start := es[k].time)];
          callValue := callValue[id := input];
        case Return(_, output) =>
          CallRead(ops, es, k, history, callValue, returnValue);
          history := history[id := history[id].(end := es[k].time)];
          returnValue := returnValue[id := output];
      }
    }
    forall id: nat | id < |ops|
      ensures id in callValue && callValue[id] == ops[id].input && id in returnValue && returnValue[id] == ops[id].output
      ensures history[id] == HistoryElement(ops[id].clientId, ops[id].call, ops[id].ret)
    {
      assert ops[id].call <= ops[id].ret by { IsTimed(ops, id); }
      var c, r := SpanOf(ops, es, id);
      assert EntryRead(ops, es[c], history, callValue, returnValue);
      assert EntryRead(ops, es[r], history, callValue, returnValue);
    }
  }

  lemma IsTimed<I, O>(ops: seq<Operation<I, O>>, id: nat)
    requires Timed(ops) && id < |ops|
    ensures ops[id].call <= ops[id].ret
  {
  }

  // ---------------------------------------------------------------- replaying a list

  lemma {:induction false} ExplainsStart<S, I, O>(m: Model<S, I, O>, ops: seq<Operation<I, O>>, p: seq<nat>, k: nat)
    requires Ids(p, |ops|) && Explains(m, ops, p) && k <= |p|
    ensures Explains(m, ops, p[..k])
  {
    if k < |p| {
      ExplainsStart(m, ops, p[..|p| - 1], k);
      assert p[..|p| - 1][..k] == p[..k];
    } else {
      assert p[..k] == p;
    }
  }

  /** The steps show the states that the model goes through. */
  ghost predicate Replays<S, I, O>(m: Model<S, I, O>, ops: seq<Operation<I, O>>, p: seq<nat>, steps: seq<LinearizationStep<S>>)
    requires Ids(p, |ops|)
  {
    |steps| == |p| && forall j :: 0 <= j < |p| ==> steps[j] == LinearizationStep(p[j], StateOf(m, ops, p[..j + 1]))
  }

  /** One step of a replay: the model accepts the operation. */
  lemma NextState<S, I, O>(m: Model<S, I, O>, ops: seq<Operation<I, O>>, p: seq<nat>, j: nat)
    requires Ids(p, |ops|) && Explains(m, ops, p) && j < |p|
    ensures var (ok, state) := m.step(StateOf(m, ops, p[..j]), ops[p[j]].input, ops[p[j]].output);
            ok && state == StateOf(m, ops, p[..j + 1])
  {
    ExplainsStart(m, ops, p, j + 1);
    assert p[..j + 1][..j] == p[..j];
  }

  /** No step of a list that explains its operations is rejected. */
  method Replay<S, I(==), O(==)>(m: Model<S, I, O>, callValue: map<nat, I>, returnValue: map<nat, O>, partial: seq<nat>,
                                 ghost ops: seq<Operation<I, O>>)
    returns (steps: seq<LinearizationStep<S>>)
    requires ValuesOf(ops, callValue, returnValue) && Ids(partial, |ops|) && Explains(m, ops, partial)
    ensures Replays(m, ops, partial, steps)
  {
    hide Explains;
    steps := [];
    var state := m.init;
    for j := 0 to |partial|
      invariant |steps| == j && state == StateOf(m, ops, partial[..j])
      invariant forall k :: 0 <= k < j ==> steps[k] == LinearizationStep(partial[k], StateOf(m, ops, partial[..k + 1]))
    {
      var histId := partial[j];
      var (ok, next) := m.step(state, callValue[histId], returnValue[histId]);
      NextState(m, ops, partial, j);
      assert ok;
      state := next;
      steps := steps + [LinearizationStep(histId, state)];
    }
  }

  // ---------------------------------------------------------------- the largest list of each operation

  predicate Descending(r: seq<seq<nat>>) {
    forall i, j :: 0 <= i < j < |r| ==> |r[i]| >= |r[j]|
  }

  lemma InsertedDescending(r: seq<seq<nat>>, p: seq<nat>, i: nat)
    requires Descending(r) && i <= |r| && (i > 0 ==> |r[i - 1]| >= |p|) && forall j :: i <= j < |r| ==> |r[j]| < |p|
    ensures Descending(r[..i] + [p] + r[i..])
  {
    var s := r[..i] + [p] + r[i..];
    forall a, b | 0 <= a < b < |s| ensures |s[a]| >= |s[b]| {
      assert a < i ==> s[a] == r[a];
      assert a > i ==> s[a] == r[a - 1];
      assert b < i ==> s[b] == r[b];
      assert b > i ==> s[b] == r[b - 1];
      assert a < i ==> |r[a]| >= |r[i - 1]|;
    }
  }

  lemma InsertedOnce(r: seq<seq<nat>>, p: seq<nat>, i: nat)
    requires i <= |r|
    ensures multiset(r[..i] + [p] + r[i..]) == multiset(r) + multiset{p}
  {
    assert r == r[..i] + r[i..];
  }

  method InsertByLength(r: seq<seq<nat>>, p: seq<nat>) returns (s: seq<seq<nat>>)
    requires Descending(r)
    ensures Descending(s) && multiset(s) == multiset(r) + multiset{p}
  {
    hide Descending;
    var i := |r|;
    while i > 0 && |r[i - 1]| < |p|
      invariant 0 <= i <= |r| && forall j :: i <= j < |r| ==> |r[j]| < |p|
    {
      i := i - 1;
    }
    s := r[..i] + [p] + r[i..];
    InsertedOnce(r, p, i);
    InsertedDescending(r, p, i);
  }

  method SortByLength(partials: seq<seq<nat>>) returns (r: seq<seq<nat>>)
    ensures Descending(r) && multiset(r) == multiset(partials)
  {
    r := [];
    for k := 0 to |partials|
      invariant Descending(r) && multiset(r) == multiset(partials[..k])
    {
      r := InsertByLength(r, partials[k]);
      assert partials[..k + 1] == partials[..k] + [partials[k]];
    }
    assert partials[..|partials|] == partials;
  }

  /** The list that `id` is sent to is one of the first `k` and runs through it. */
  ghost predicate Sent(lists: seq<seq<nat>>, k: nat, largest: map<nat, nat>, id: nat) {
    id in largest && largest[id] < k <= |lists| && id in lists[largest[id]]
  }

  /** The list that `id` is sent to has at least `size` operations. */
  ghost predicate AsLong(lists: seq<seq<nat>>, largest: map<nat, nat>, id: nat, size: nat) {
    id in largest && largest[id] < |lists| && size <= |lists[largest[id]]|
  }

  /** Each operation of the first `k` lists is sent to one of them that runs through it and is as long as any. */
  ghost predicate LargestOf(lists: seq<seq<nat>>, k: nat, largest: map<nat, nat>)
    requires k <= |lists|
  {
    && (forall id {:trigger Sent(lists, k, largest, id)} :: id in largest ==> Sent(lists, k, largest, id))
    && (forall i, x {:trigger lists[i][x]} :: 0 <= i < k && 0 <= x < |lists[i]| ==>
          AsLong(lists, largest, lists[i][x], |lists[i]|))
  }

  ghost predicate SizeIs(lists: seq<seq<nat>>, largest: map<nat, nat>, largestSize: map<nat, nat>, id: nat) {
    id in largest && id in largestSize && largest[id] < |lists| && largestSize[id] == |lists[largest[id]]|
  }

  ghost predicate SizesOf(lists: seq<seq<nat>>, largest: map<nat, nat>, largestSize: map<nat, nat>) {
    forall id {:trigger SizeIs(lists, largest, largestSize, id)} :: id in largest || id in largestSize ==>
      SizeIs(lists, largest, largestSize, id)
  }

  /** The lists before `k` are noted, and list `k` up to position `j`. */
  ghost predicate Noted(lists: seq<seq<nat>>, k: nat, j: nat, largest: map<nat, nat>, largestSize: map<nat, nat>)
    requires k < |lists| && j <= |lists[k]|
  {
    && SizesOf(lists, largest, largestSize)
    && (forall id {:trigger Sent(lists, k + 1, largest, id)} :: id in largest ==> Sent(lists, k + 1, largest, id))
    && (forall i, x {:trigger lists[i][x]} :: (0 <= i < k && 0 <= x < |lists[i]|) || (i == k && 0 <= x < j) ==>
          AsLong(lists, largest, lists[i][x], |lists[i]|))
  }

  function SizeSoFar(largestSize: map<nat, nat>, id: nat): nat {
    if id in largestSize then largestSize[id] else 0
  }

  lemma NoteStep(lists: seq<seq<nat>>, k: nat, j: nat, largest: map<nat, nat>, largestSize: map<nat, nat>)
    requires k < |lists| && j < |lists[k]| && Noted(lists, k, j, largest, largestSize)
    ensures var id, size := lists[k][j], |lists[k]|;
            if SizeSoFar(largestSize, id) < size
            then Noted(lists, k, j + 1, largest[id := k], largestSize[id := size])
            else Noted(lists, k, j + 1, largest, largestSize)
  {
    var id, size := lists[k][j], |lists[k]|;
    var more := largest[id := k];
    assert id in largest || id in largestSize ==> SizeIs(lists, largest, largestSize, id);
    if SizeSoFar(largestSize, id) < size {
      forall id' | id' in more || id' in largestSize[id := size]
        ensures SizeIs(lists, more, largestSize[id := size], id')
      {
        assert id' != id ==> SizeIs(lists, largest, largestSize, id');
      }
      forall id' | id' in more ensures Sent(lists, k + 1, more, id') {
        assert id' != id ==> Sent(lists, k + 1, largest, id');
      }
      forall i, x {:trigger lists[i][x]} | (0 <= i < k && 0 <= x < |lists[i]|) || (i == k && 0 <= x < j + 1)
        ensures AsLong(lists, more, lists[i][x], |lists[i]|)
      {
        assert !(i == k && x == j) ==> AsLong(lists, largest, lists[i][x], |lists[i]|);
      }
    }
  }

  method NoteLargest(lists: seq<seq<nat>>, k: nat, was: map<nat, nat>, wasSize: map<nat, nat>)
    returns (largest: map<nat, nat>, largestSize: map<nat, nat>)
    requires k < |lists| && LargestOf(lists, k, was) && SizesOf(lists, was, wasSize)
    ensures LargestOf(lists, k + 1, largest) && SizesOf(lists, largest, largestSize)
  {
    hide SizesOf, AsLong;
    largest, largestSize := was, wasSize;
    NoteStart(lists, k, was, wasSize);
    for j := 0 to |lists[k]|
      invariant Noted(lists, k, j, largest, largestSize)
    {
      var histId := lists[k][j];
      NoteStep(lists, k, j, largest, largestSize);
      if SizeSoFar(largestSize, histId) < |lists[k]| {
        largestSize := largestSize[histId := |lists[k]|];
        largest := largest[histId := k];
      }
    }
  }

  lemma NoteStart(lists: seq<seq<nat>>, k: nat, largest: map<nat, nat>, largestSize: map<nat, nat>)
    requires k < |lists| && LargestOf(lists, k, largest) && SizesOf(lists, largest, largestSize)
    ensures Noted(lists, k, 0, largest, largestSize)
  {
    forall id | id in largest ensures Sent(lists, k + 1, largest, id) { assert Sent(lists, k, largest, id); }
  }

  // ---------------------------------------------------------------- a partition

  /**
   * What is shown of a part: the operations; the states along legal starts of it; and for every
   * operation that any legal start reaches, one that none through it exceeds.
   */
  ghost predicate Shows<S, I, O>(m: Model<S, I, O>, ops: seq<Operation<I, O>>, lists: seq<seq<nat>>, data: PartitionData<S>) {
    && |data.history| == |ops|
    && (forall id :: 0 <= id < |ops| ==> data.history[id] == HistoryElement(ops[id].clientId, ops[id].call, ops[id].ret))
    && |data.linearizations| == |lists| && Descending(lists)
    && (forall i :: 0 <= i < |lists| ==> IsStart(m, ops, lists[i]) && Replays(m, ops, lists[i], data.linearizations[i]))
    && LargestOf(lists, |lists|, data.largest)
    && (forall q: seq<nat>, id: nat :: IsStart(m, ops, q) && id in q ==>
          AsLong(lists, data.largest, id, |q|))
  }

  lemma SomeIndex<T>(s: seq<T>, r: seq<T>, i: nat) returns (j: nat)
    requires multiset(s) == multiset(r) && i < |s|
    ensures j < |r| && r[j] == s[i]
  {
    assert s[i] in multiset(r);
    j :| 0 <= j < |r| && r[j] == s[i];
  }

  lemma SortedStarts<S, I, O>(m: Model<S, I, O>, ops: seq<Operation<I, O>>, partials: seq<seq<nat>>, lists: seq<seq<nat>>)
    requires PartialsOk(m, ops, partials) && multiset(lists) == multiset(partials)
    ensures forall i :: 0 <= i < |lists| ==> IsStart(m, ops, lists[i])
    ensures forall q: seq<nat>, id: nat :: IsStart(m, ops, q) && id in q ==> Covers(lists, id, |q|)
  {
    hide IsStart, LinearizableOps, IsOrder;
    forall i | 0 <= i < |lists| ensures IsStart(m, ops, lists[i]) {
      var j := SomeIndex(lists, partials, i);
    }
    forall q: seq<nat>, id: nat | IsStart(m, ops, q) && id in q ensures Covers(lists, id, |q|) {
      assert Covers(partials, id, |q|);
      var i :| 0 <= i < |partials| && id in partials[i] && |partials[i]| >= |q|;
      var j := SomeIndex(partials, lists, i);
    }
  }

  method ShowPartition<S, I(==), O(==)>(m: Model<S, I, O>, es: seq<Entry<I, O>>, partials: seq<seq<nat>>,
                                        ghost ops: seq<Operation<I, O>>)
    returns (data: PartitionData<S>, ghost lists: seq<seq<nat>>)
    requires Timed(ops) && PartOk(m, ops, es, partials)
    ensures Shows(m, ops, lists, data) && multiset(lists) == multiset(partials)
  {
    hide IsMade, Timed, PartialsOk, Explains, ClosedOps, ValuesOf, Replays, LargestOf, SizesOf, Distinct;
    MadeSize(ops, es);
    var history, callValue, returnValue := ReadHistory(es, |es| / 2, ops);
    var sorted := SortByLength(partials);
    SortedStarts(m, ops, partials, sorted);
    var linearizations: seq<seq<LinearizationStep<S>>> := [];
    var largest: map<nat, nat>, largestSize: map<nat, nat> := map[], map[];
    NothingNoted(sorted);
    for i := 0 to |sorted|
      invariant |linearizations| == i && LargestOf(sorted, i, largest) && SizesOf(sorted, largest, largestSize)
      invariant forall k :: 0 <= k < i ==> Replays(m, ops, sorted[k], linearizations[k])
    {
      var steps := Replay(m, callValue, returnValue, sorted[i], ops);
      linearizations := linearizations + [steps];
      largest, largestSize := NoteLargest(sorted, i, largest, largestSize);
    }
    data, lists := PartitionData(history, linearizations, largest), sorted;
    forall q: seq<nat>, id: nat | IsStart(m, ops, q) && id in q ensures AsLong(lists, largest, id, |q|) {
      assert Covers(lists, id, |q|);
      CoveredAsLong(lists, largest, id, |q|);
    }
  }

  lemma CoveredAsLong(lists: seq<seq<nat>>, largest: map<nat, nat>, id: nat, size: nat)
    requires LargestOf(lists, |lists|, largest) && Covers(lists, id, size)
    ensures AsLong(lists, largest, id, size)
  {
    var i :| 0 <= i < |lists| && id in lists[i] && |lists[i]| >= size;
    var x :| 0 <= x < |lists[i]| && lists[i][x] == id;
    assert AsLong(lists, largest, lists[i][x], |lists[i]|);
  }

  lemma NothingNoted(lists: seq<seq<nat>>)
    ensures LargestOf(lists, 0, map[]) && SizesOf(lists, map[], map[])
  {
  }

  ghost predicate ShowsPart<S, I, O>(m: Model<S, I, O>, ops: seq<Operation<I, O>>, partials: seq<seq<nat>>, data: PartitionData<S>) {
    exists lists: seq<seq<nat>> :: multiset(lists) == multiset(partials) && Shows(m, ops, lists, data)
  }

  /** Showing what a verbose check kept never meets a rejected step, whatever the verdict was. */
  method ComputeVisualizationData<S, I(==), O(==)>(m: Model<S, I, O>, info: Info<I, O>, ghost parts: seq<seq<Operation<I, O>>>)
    returns (data: seq<PartitionData<S>>)
    requires InfoOk(m, parts, info) && forall i :: 0 <= i < |parts| ==> Timed(parts[i])
    ensures |data| == |parts|
    ensures forall i :: 0 <= i < |parts| ==> ShowsPart(m, parts[i], info.partials[i], data[i])
  {
    hide Timed, PartOk, Shows;
    data := [];
    for i := 0 to |info.history|
      invariant |data| == i
      invariant forall k :: 0 <= k < i ==> ShowsPart(m, parts[k], info.partials[k], data[k])
    {
      var one, lists := ShowPartition(m, info.history[i], info.partials[i], parts[i]);
      assert ShowsPart(m, parts[i], info.partials[i], one);
      data := data + [one];
    }
  }
}
