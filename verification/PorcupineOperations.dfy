/** From timed operations to a history of events, and back to what linearizability says about the operations. */
module PorcupineOperations {
  import opened Linearizability
  import opened PorcupineSearch
  import opened PorcupineChecker

  datatype Operation<I, O> = Operation(clientId: int, input: I, call: int, output: O, ret: int)

  datatype Entry<I, O> = Entry(event: Event<I, O>, time: int, clientId: int)

  /** The order of entries: by time, and calls before returns at the same time. */
  predicate Less<I, O>(a: Entry<I, O>, b: Entry<I, O>) {
    if a.time != b.time then a.time < b.time else a.event.Call? && b.event.Return?
  }

  predicate Sorted<I, O>(es: seq<Entry<I, O>>) {
    forall i, j :: 0 <= i < j < |es| ==> !Less(es[j], es[i])
  }

  function CallOf<I, O>(ops: seq<Operation<I, O>>, id: nat): Entry<I, O>
    requires id < |ops|
  {
    Entry(Call(id, ops[id].input), ops[id].call, ops[id].clientId)
  }

  function ReturnOf<I, O>(ops: seq<Operation<I, O>>, id: nat): Entry<I, O>
    requires id < |ops|
  {
    Entry(Return(id, ops[id].output), ops[id].ret, ops[id].clientId)
  }

  /** The entries of the operations, each call followed by its return. */
  ghost function Unsorted<I, O>(ops: seq<Operation<I, O>>, n: nat): (r: seq<Entry<I, O>>)
    requires n <= |ops|
    ensures |r| == 2 * n
  {
    if n == 0 then [] else Unsorted(ops, n - 1) + [CallOf(ops, n - 1)] + [ReturnOf(ops, n - 1)]
  }

  ghost predicate IsMade<I, O>(ops: seq<Operation<I, O>>, es: seq<Entry<I, O>>) {
    multiset(es) == multiset(Unsorted(ops, |ops|)) && Sorted(es)
  }

  function Events<I, O>(es: seq<Entry<I, O>>): (h: seq<Event<I, O>>)
    ensures |h| == |es| && forall k :: 0 <= k < |es| ==> h[k] == es[k].event
  {
    seq(|es|, k requires 0 <= k < |es| => es[k].event)
  }

  // ---------------------------------------------------------------- building and sorting the entries

  method InsertSorted<I, O>(es: seq<Entry<I, O>>, x: Entry<I, O>) returns (r: seq<Entry<I, O>>)
    requires Sorted(es)
    ensures Sorted(r) && multiset(r) == multiset(es) + multiset{x}
  {
    var i := |es|;
    while i > 0 && Less(x, es[i - 1])
      invariant 0 <= i <= |es| && forall j :: i <= j < |es| ==> Less(x, es[j])
    {
      i := i - 1;
    }
    r := es[..i] + [x] + es[i..];
    assert es == es[..i] + es[i..];
    InsertedSorted(es, x, i);
  }

  lemma InsertedSorted<I, O>(es: seq<Entry<I, O>>, x: Entry<I, O>, i: nat)
    requires Sorted(es) && i <= |es| && (i > 0 ==> !Less(x, es[i - 1])) && forall j :: i <= j < |es| ==> Less(x, es[j])
    ensures Sorted(es[..i] + [x] + es[i..])
  {
    var r := es[..i] + [x] + es[i..];
    forall a, b | 0 <= a < b < |r| ensures !Less(r[b], r[a]) {
      if b == i {
        assert r[a] == es[a];
        assert a == i - 1 || !Less(es[i - 1], es[a]);
      } else if a == i {
        assert r[b] == es[b - 1];
      } else {
        assert r[a] == es[if a < i then a else a - 1] && r[b] == es[if b < i then b else b - 1];
      }
    }
  }

  method SortEntries<I, O>(es: seq<Entry<I, O>>) returns (r: seq<Entry<I, O>>)
    ensures Sorted(r) && multiset(r) == multiset(es)
  {
    r := [];
    for i := 0 to |es|
      invariant Sorted(r) && multiset(r) == multiset(es[..i])
    {
      r := InsertSorted(r, es[i]);
      assert es[..i + 1] == es[..i] + [es[i]];
    }
    assert es[..|es|] == es;
  }

  method MakeEntries<I, O>(ops: seq<Operation<I, O>>) returns (es: seq<Entry<I, O>>)
    ensures IsMade(ops, es)
  {
    es := [];
    for id := 0 to |ops|
      invariant es == Unsorted(ops, id)
    {
      es := es + [CallOf(ops, id)];
      es := es + [ReturnOf(ops, id)];
    }
    es := SortEntries(es);
  }

  // ---------------------------------------------------------------- each entry stands at exactly one place

  ghost predicate IsOf<I, O>(ops: seq<Operation<I, O>>, n: nat, x: Entry<I, O>)
    requires n <= |ops|
  {
    x.event.id < n && x == if x.event.Call? then CallOf(ops, x.event.id) else ReturnOf(ops, x.event.id)
  }

  ghost function Count<T>(s: seq<T>, x: T): nat { multiset(s)[x] }

  lemma CountMore<T>(s: seq<T>, y: T, x: T)
    ensures Count([], x) == 0 && Count(s + [y], x) == Count(s, x) + if x == y then 1 else 0
  {
  }

  lemma OneMore<I, O>(ops: seq<Operation<I, O>>, n: nat, x: Entry<I, O>)
    requires n < |ops|
    ensures IsOf(ops, n + 1, x) <==> IsOf(ops, n, x) || x == CallOf(ops, n) || x == ReturnOf(ops, n)
    ensures CallOf(ops, n) != ReturnOf(ops, n) && !IsOf(ops, n, CallOf(ops, n)) && !IsOf(ops, n, ReturnOf(ops, n))
  {
  }

  /** Every entry of an operation occurs once, and nothing else does. */
  lemma {:induction false} Contents<I, O>(ops: seq<Operation<I, O>>, n: nat, x: Entry<I, O>)
    requires n <= |ops|
    ensures Count(Unsorted(ops, n), x) == if IsOf(ops, n, x) then 1 else 0
  {
    hide IsOf, CallOf, ReturnOf, Count;
    if n > 0 {
      Contents(ops, n - 1, x);
      OneMore(ops, n - 1, x);
      CountMore(Unsorted(ops, n - 1), CallOf(ops, n - 1), x);
      CountMore(Unsorted(ops, n - 1) + [CallOf(ops, n - 1)], ReturnOf(ops, n - 1), x);
    } else {
      NoneYet(ops, x);
      CountMore([], x, x);
    }
  }

  lemma NoneYet<I, O>(ops: seq<Operation<I, O>>, x: Entry<I, O>)
    ensures !IsOf(ops, 0, x)
  {
  }

  lemma TwoPlaces<T>(s: seq<T>, i: nat, j: nat)
    requires i < j < |s| && s[i] == s[j]
    ensures Count(s, s[i]) >= 2
  {
    assert s == s[..j] + s[j..] && s[..j][i] == s[i] && s[j..][0] == s[i];
    assert s[i] in multiset(s[..j]) && s[i] in multiset(s[j..]);
  }

  /** What is found at a place of the sorted entries. */
  lemma Placed<I, O>(ops: seq<Operation<I, O>>, es: seq<Entry<I, O>>, k: nat)
    requires IsMade(ops, es) && k < |es|
    ensures IsOf(ops, |ops|, es[k])
  {
    Contents(ops, |ops|, es[k]);
    assert es[k] in multiset(es);
  }

  lemma UniquePlace<I, O>(ops: seq<Operation<I, O>>, es: seq<Entry<I, O>>, j: nat, k: nat)
    requires IsMade(ops, es) && j < |es| && k < |es| && es[j].event.id == es[k].event.id && es[j].event.Call? == es[k].event.Call?
    ensures j == k
  {
    Placed(ops, es, j);
    Placed(ops, es, k);
    Contents(ops, |ops|, es[j]);
    if j < k { TwoPlaces(es, j, k); } else if k < j { TwoPlaces(es, k, j); }
  }

  lemma SpanOf<I, O>(ops: seq<Operation<I, O>>, es: seq<Entry<I, O>>, id: nat) returns (c: nat, r: nat)
    requires IsMade(ops, es) && id < |ops| && ops[id].call <= ops[id].ret
    ensures c < r < |es| && es[c] == CallOf(ops, id) && es[r] == ReturnOf(ops, id)
  {
    Contents(ops, |ops|, CallOf(ops, id));
    Contents(ops, |ops|, ReturnOf(ops, id));
    assert CallOf(ops, id) in multiset(es) && ReturnOf(ops, id) in multiset(es);
    c :| 0 <= c < |es| && es[c] == CallOf(ops, id);
    r :| 0 <= r < |es| && es[r] == ReturnOf(ops, id);
    LessIsEarlier(es, c, r);
  }

  lemma LessIsEarlier<I, O>(es: seq<Entry<I, O>>, i: nat, j: nat)
    requires Sorted(es) && i < |es| && j < |es| && Less(es[i], es[j])
    ensures i < j
  {
  }

  lemma MadeSize<I, O>(ops: seq<Operation<I, O>>, es: seq<Entry<I, O>>)
    requires IsMade(ops, es)
    ensures |es| == 2 * |ops|
  {
    var u := Unsorted(ops, |ops|);
    assert |multiset(es)| == |es| && |multiset(u)| == |u|;
  }

  predicate Timed<I, O>(ops: seq<Operation<I, O>>) {
    forall id :: 0 <= id < |ops| ==> ops[id].call <= ops[id].ret
  }

  /** Sorted entries of operations that do not return before they are called are a history. */
  lemma MadeWellFormed<I, O>(ops: seq<Operation<I, O>>, es: seq<Entry<I, O>>)
    requires IsMade(ops, es) && Timed(ops)
    ensures WellFormed(Events(es), |ops|)
  {
    var h, n := Events(es), |ops|;
    MadeSize(ops, es);
    forall k | 0 <= k < |h| ensures h[k].id < n { Placed(ops, es, k); }
    forall id: nat | id < n ensures HasSpan(h, id) {
      var c, r := SpanOf(ops, es, id);
      assert IsSpan(h, id, c, r);
    }
    forall j, k | 0 <= j < |h| && 0 <= k < |h| && h[j].id == h[k].id && h[j].Call? == h[k].Call? ensures j == k {
      UniquePlace(ops, es, j, k);
    }
  }

  /** In the history, an operation comes before another exactly when it returned strictly earlier than the other was called. */
  lemma MadePrecedes<I, O>(ops: seq<Operation<I, O>>, es: seq<Entry<I, O>>, a: nat, b: nat)
    requires IsMade(ops, es) && Timed(ops) && WellFormed(Events(es), |ops|) && a < |ops| && b < |ops|
    ensures Precedes(Events(es), |ops|, a, b) <==> ops[a].ret < ops[b].call
    ensures Events(es)[CallAt(Events(es), |ops|, a)] == Call(a, ops[a].input)
    ensures Events(es)[ReturnAt(Events(es), |ops|, a)] == Return(a, ops[a].output)
  {
    var h, n := Events(es), |ops|;
    var r, c := ReturnAt(h, n, a), CallAt(h, n, b);
    Placed(ops, es, r);
    Placed(ops, es, c);
    Placed(ops, es, CallAt(h, n, a));
    assert es[r] == ReturnOf(ops, a) && es[c] == CallOf(ops, b);
    if ops[a].ret < ops[b].call { LessIsEarlier(es, r, c); } else { LessIsEarlier(es, c, r); }
  }

  // ---------------------------------------------------------------- linearizability of operations

  ghost function StateOf<S, I, O>(m: Model<S, I, O>, ops: seq<Operation<I, O>>, p: seq<nat>): S
    requires Ids(p, |ops|)
  {
    if p == [] then m.init
    else var op := ops[p[|p| - 1]]; m.step(StateOf(m, ops, p[..|p| - 1]), op.input, op.output).1
  }

  ghost predicate Explains<S, I, O>(m: Model<S, I, O>, ops: seq<Operation<I, O>>, p: seq<nat>)
    requires Ids(p, |ops|)
  {
    p != [] ==>
      var op := ops[p[|p| - 1]];
      Explains(m, ops, p[..|p| - 1]) && m.step(StateOf(m, ops, p[..|p| - 1]), op.input, op.output).0
  }

  ghost predicate InTime<I, O>(ops: seq<Operation<I, O>>, p: seq<nat>)
    requires Ids(p, |ops|)
  {
    forall i, j :: 0 <= i < j < |p| ==> !(ops[p[j]].ret < ops[p[i]].call)
  }

  /** All operations in one order that never contradicts real time and that the model accepts. */
  ghost predicate IsOrder<S, I, O>(m: Model<S, I, O>, ops: seq<Operation<I, O>>, p: seq<nat>) {
    |p| == |ops| && Distinct(p) && Ids(p, |ops|) && InTime(ops, p) && Explains(m, ops, p)
  }

  ghost predicate LinearizableOps<S, I, O>(m: Model<S, I, O>, ops: seq<Operation<I, O>>) {
    exists p :: IsOrder(m, ops, p)
  }

  lemma {:induction false} SameStates<S, I, O>(m: Model<S, I, O>, ops: seq<Operation<I, O>>, es: seq<Entry<I, O>>, p: seq<nat>)
    requires IsMade(ops, es) && Timed(ops) && WellFormed(Events(es), |ops|) && Ids(p, |ops|)
    ensures StateAfter(m, Events(es), |ops|, p) == StateOf(m, ops, p)
    ensures Accepted(m, Events(es), |ops|, p) <==> Explains(m, ops, p)
  {
    hide WellFormed, IsMade, Timed, CallAt, ReturnAt, Precedes;
    if p != [] {
      SameStates(m, ops, es, p[..|p| - 1]);
      MadePrecedes(ops, es, p[|p| - 1], p[|p| - 1]);
    }
  }

  lemma SameOrders<S, I, O>(m: Model<S, I, O>, ops: seq<Operation<I, O>>, es: seq<Entry<I, O>>, p: seq<nat>)
    requires IsMade(ops, es) && Timed(ops)
    ensures IsLinearization(m, Events(es), |ops|, p) <==> IsOrder(m, ops, p)
  {
    hide WellFormed, IsMade, Timed, CallAt, ReturnAt, Precedes, Accepted, Explains;
    MadeWellFormed(ops, es);
    if Ids(p, |ops|) {
      SameStates(m, ops, es, p);
      forall i, j | 0 <= i < j < |p|
        ensures Precedes(Events(es), |ops|, p[j], p[i]) <==> ops[p[j]].ret < ops[p[i]].call
      {
        MadePrecedes(ops, es, p[j], p[i]);
      }
    }
  }

  /** The history made from the operations is linearizable exactly when the operations are. */
  lemma MadeLinearizable<S, I, O>(m: Model<S, I, O>, ops: seq<Operation<I, O>>, es: seq<Entry<I, O>>)
    requires IsMade(ops, es) && Timed(ops)
    ensures Linearizable(m, Events(es), |ops|) <==> LinearizableOps(m, ops)
  {
    hide IsMade, Timed, IsLinearization, IsOrder;
    forall p ensures IsLinearization(m, Events(es), |ops|, p) <==> IsOrder(m, ops, p) {
      SameOrders(m, ops, es, p);
    }
  }

  // ---------------------------------------------------------------- what is kept about a part

  /** A legal start of an order of the operations: what it leaves out did not have to come before. */
  ghost predicate IsStart<S, I, O>(m: Model<S, I, O>, ops: seq<Operation<I, O>>, p: seq<nat>) {
    Distinct(p) && Ids(p, |ops|) && ClosedOps(ops, p) && Explains(m, ops, p)
  }

  ghost predicate ClosedOps<I, O>(ops: seq<Operation<I, O>>, p: seq<nat>)
    requires Ids(p, |ops|)
  {
    forall i, b: nat :: 0 <= i < |p| && b < |ops| && ops[b].ret < ops[p[i]].call ==> b in p[..i]
  }

  /** Some list runs through `id` and is at least as long as `size`. */
  ghost predicate Covers(partials: seq<seq<nat>>, id: nat, size: nat) {
    exists i :: 0 <= i < |partials| && id in partials[i] && |partials[i]| >= size
  }

  /**
   * The lists kept about a part are legal starts; through each operation runs one that no legal start
   * through it exceeds; and if the part is linearizable, all of them are whole orders.
   */
  ghost predicate PartialsOk<S, I, O>(m: Model<S, I, O>, ops: seq<Operation<I, O>>, partials: seq<seq<nat>>) {
    && (forall i :: 0 <= i < |partials| ==> IsStart(m, ops, partials[i]))
    && (forall q: seq<nat>, id: nat :: IsStart(m, ops, q) && id in q ==> Covers(partials, id, |q|))
    && (LinearizableOps(m, ops) ==> forall i :: 0 <= i < |partials| ==> IsOrder(m, ops, partials[i]))
  }

  lemma SameStarts<S, I, O>(m: Model<S, I, O>, ops: seq<Operation<I, O>>, es: seq<Entry<I, O>>, p: seq<nat>)
    requires IsMade(ops, es) && Timed(ops)
    ensures IsPartial(m, Events(es), |ops|, p) <==> IsStart(m, ops, p)
  {
    hide WellFormed, IsMade, Timed, Accepted, Explains, Closed, ClosedOps;
    MadeWellFormed(ops, es);
    if Ids(p, |ops|) {
      SameStates(m, ops, es, p);
      SameClosed(ops, es, p);
    }
  }

  lemma SameClosed<I, O>(ops: seq<Operation<I, O>>, es: seq<Entry<I, O>>, p: seq<nat>)
    requires IsMade(ops, es) && Timed(ops) && WellFormed(Events(es), |ops|) && Ids(p, |ops|)
    ensures Closed(Events(es), |ops|, p) <==> ClosedOps(ops, p)
  {
    hide WellFormed, IsMade, Timed;
    var h, n := Events(es), |ops|;
    if Closed(h, n, p) {
      forall i, b: nat | 0 <= i < |p| && b < |ops| && ops[b].ret < ops[p[i]].call ensures b in p[..i] {
        MadePrecedes(ops, es, b, p[i]);
      }
    }
    if ClosedOps(ops, p) {
      forall i, b: nat | 0 <= i < |p| && Precedes(h, n, b, p[i]) ensures b in p[..i] {
        MadePrecedes(ops, es, b, p[i]);
      }
    }
  }

  /** The distinct lists on record. */
  ghost predicate Collected(longest: seq<Option<seq<nat>>>, partials: seq<seq<nat>>) {
    && (forall i :: 0 <= i < |partials| ==> Some(partials[i]) in longest)
    && (forall id :: 0 <= id < |longest| && longest[id].Some? ==> longest[id].value in partials)
  }

  method Collect(longest: seq<Option<seq<nat>>>) returns (partials: seq<seq<nat>>)
    ensures Collected(longest, partials)
    ensures forall i, j :: 0 <= i < j < |partials| ==> partials[i] != partials[j]
  {
    partials := [];
    for id := 0 to |longest|
      invariant forall i :: 0 <= i < |partials| ==> Some(partials[i]) in longest
      invariant forall k :: 0 <= k < id && longest[k].Some? ==> longest[k].value in partials
      invariant forall i, j :: 0 <= i < j < |partials| ==> partials[i] != partials[j]
    {
      if longest[id].Some? && longest[id].value !in partials {
        assert Some(longest[id].value) == longest[id];
        partials := partials + [longest[id].value];
      }
    }
  }

  /** A record of whole orders covers everything, as no legal start is longer. */
  lemma CompleteCovers<S, I, O>(m: Model<S, I, O>, h: seq<Event<I, O>>, n: nat, longest: seq<Option<seq<nat>>>)
    requires AllComplete(m, h, n, longest)
    ensures AllLongest(m, h, n, longest)
  {
    hide WellFormed, RespectsTime, Accepted, Closed;
    forall id | 0 <= id < n ensures IsPartial(m, h, n, longest[id].value) && id in longest[id].value {
      WholePartial(m, h, n, longest[id].value);
      AllIn(longest[id].value, n, id);
    }
    forall q, id: nat | IsPartial(m, h, n, q) && id in q ensures Reaches(longest, id, |q|) {
      DistinctSize(q);
      SmallerSet(Elements(q), Below(n));
    }
  }

  lemma AllIn(p: seq<nat>, n: nat, id: nat)
    requires Distinct(p) && Ids(p, n) && |p| == n && id < n
    ensures id in p
  {
    DistinctSize(p);
    FullSet(Elements(p), Below(n));
    assert id in Elements(p);
  }

  lemma CollectedOk<S, I, O>(m: Model<S, I, O>, ops: seq<Operation<I, O>>, es: seq<Entry<I, O>>,
                             longest: seq<Option<seq<nat>>>, partials: seq<seq<nat>>)
    requires IsMade(ops, es) && Timed(ops) && AllLongest(m, Events(es), |ops|, longest) && Collected(longest, partials)
    requires LinearizableOps(m, ops) ==> AllComplete(m, Events(es), |ops|, longest)
    ensures PartialsOk(m, ops, partials)
  {
    hide IsMade, Timed, IsPartial, IsStart, IsLinearization, IsOrder, LinearizableOps;
    var h, n := Events(es), |ops|;
    forall i | 0 <= i < |partials| ensures IsStart(m, ops, partials[i]) {
      var id :| 0 <= id < |longest| && longest[id] == Some(partials[i]);
      SameStarts(m, ops, es, partials[i]);
    }
    forall q: seq<nat>, id: nat | IsStart(m, ops, q) && id in q ensures Covers(partials, id, |q|) {
      SameStarts(m, ops, es, q);
      assert Reaches(longest, id, |q|);
      var i :| 0 <= i < |partials| && partials[i] == longest[id].value;
      assert id in partials[i];
    }
    if LinearizableOps(m, ops) {
      forall i | 0 <= i < |partials| ensures IsOrder(m, ops, partials[i]) {
        var id :| 0 <= id < |longest| && longest[id] == Some(partials[i]);
        SameOrders(m, ops, es, partials[i]);
      }
    }
  }

  // ---------------------------------------------------------------- checking the partitions

  datatype CheckResult = Ok | Illegal

  /** What a verbose check keeps: the entries of each part and the legal starts found in it. */
  datatype Info<I, O> = Info(history: seq<seq<Entry<I, O>>>, partials: seq<seq<seq<nat>>>)

  ghost predicate PartOk<S, I, O>(m: Model<S, I, O>, ops: seq<Operation<I, O>>, es: seq<Entry<I, O>>, partials: seq<seq<nat>>) {
    IsMade(ops, es) && PartialsOk(m, ops, partials)
  }

  ghost predicate InfoOk<S, I, O>(m: Model<S, I, O>, parts: seq<seq<Operation<I, O>>>, info: Info<I, O>) {
    && |info.history| == |info.partials| == |parts|
    && forall i :: 0 <= i < |parts| ==> PartOk(m, parts[i], info.history[i], info.partials[i])
  }

  /** The verdict on one part, and with `computeInfo` what is kept about it. */
  method CheckPart<S(==), I, O>(m: Model<S, I, O>, ops: seq<Operation<I, O>>, computeInfo: bool)
    returns (ok: bool, es: seq<Entry<I, O>>, partials: seq<seq<nat>>)
    requires Timed(ops)
    ensures ok <==> LinearizableOps(m, ops)
    ensures computeInfo ==> PartOk(m, ops, es, partials)
  {
    hide WellFormed, Linearizable, LinearizableOps, IsMade, Timed, AllComplete, AllLongest, PartialsOk, Collected;
    es := MakeEntries(ops);
    MadeWellFormed(ops, es);
    MadeLinearizable(m, ops, es);
    var longest;
    ok, longest := CheckSingle(m, Events(es), computeInfo, |ops|);
    partials := Collect(longest);
    if computeInfo {
      if ok { CompleteCovers(m, Events(es), |ops|, longest); }
      CollectedOk(m, ops, es, longest, partials);
    }
  }

  /**
   * The verdict on all parts: they are checked one by one, and without `computeInfo` the first failure
   * settles it. With it, every part is checked and its legal starts are kept.
   */
  method CheckOperations<S(==), I, O>(m: Model<S, I, O>, parts: seq<seq<Operation<I, O>>>, computeInfo: bool)
    returns (result: CheckResult, info: Info<I, O>)
    requires |parts| > 0 && forall i :: 0 <= i < |parts| ==> Timed(parts[i])
    ensures result == Ok <==> forall i :: 0 <= i < |parts| ==> LinearizableOps(m, parts[i])
    ensures if computeInfo then InfoOk(m, parts, info) else info == Info([], [])
  {
    hide LinearizableOps, Timed, PartOk;
    var ok := true;
    info := Info([], []);
    for i := 0 to |parts|
      invariant ok <==> forall j :: 0 <= j < i ==> LinearizableOps(m, parts[j])
      invariant if computeInfo then InfoOk(m, parts[..i], info) else info == Info([], [])
    {
      var single, es, partials := CheckPart(m, parts[i], computeInfo);
      ok := ok && single;
      if computeInfo {
        info := Info(info.history + [es], info.partials + [partials]);
      } else if !ok {
        break;
      }
    }
    assert parts[..|parts|] == parts;
    result := if ok then Ok else Illegal;
  }
}
