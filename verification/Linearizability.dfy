/** What it means for a history of overlapping operations to be linearizable, whole or in part. */
module Linearizability {

  /** A sequential specification: an initial state and a step that accepts or rejects an operation. */
  datatype Model<!S, !I, !O> = Model(init: S, step: (S, I, O) -> (bool, S))

  /** A call or return event, in the order of real time. */
  datatype Event<I, O> = Call(id: nat, input: I) | Return(id: nat, output: O)

  /** Every operation below `n` is called once and later returns once. */
  ghost predicate WellFormed<I, O>(h: seq<Event<I, O>>, n: nat) {
    && |h| == 2 * n
    && (forall k :: 0 <= k < |h| ==> h[k].id < n)
    && (forall id: nat :: id < n ==> HasSpan(h, id))
    && (forall j, k :: 0 <= j < |h| && 0 <= k < |h| && h[j].id == h[k].id && h[j].Call? == h[k].Call? ==> j == k)
  }

  predicate IsSpan<I, O>(h: seq<Event<I, O>>, id: nat, c: int, r: int) {
    0 <= c < r < |h| && h[c].Call? && h[c].id == id && h[r].Return? && h[r].id == id
  }

  ghost predicate HasSpan<I, O>(h: seq<Event<I, O>>, id: nat) {
    exists c, r :: IsSpan(h, id, c, r)
  }

  ghost function CallAt<I, O>(h: seq<Event<I, O>>, n: nat, id: nat): (c: nat)
    requires WellFormed(h, n) && id < n
    ensures c < |h| && h[c].Call? && h[c].id == id && c < ReturnAt(h, n, id)
  {
    assert HasSpan(h, id);
    var c, r :| IsSpan(h, id, c, r);
    assert ReturnAt(h, n, id) == r;
    c
  }

  ghost function ReturnAt<I, O>(h: seq<Event<I, O>>, n: nat, id: nat): (r: nat)
    requires WellFormed(h, n) && id < n
    ensures r < |h| && h[r].Return? && h[r].id == id
  {
    assert HasSpan(h, id);
    var c, r :| IsSpan(h, id, c, r);
    r
  }

  lemma CallBeforeReturn<I, O>(h: seq<Event<I, O>>, n: nat, k: nat)
    requires WellFormed(h, n) && k < |h|
    ensures h[k].id < n
    ensures h[k].Call? ==> CallAt(h, n, h[k].id) == k < ReturnAt(h, n, h[k].id)
    ensures h[k].Return? ==> ReturnAt(h, n, h[k].id) == k
  {
  }

  /** `a` has returned before `b` is called. */
  ghost predicate Precedes<I, O>(h: seq<Event<I, O>>, n: nat, a: nat, b: nat)
    requires WellFormed(h, n)
  {
    a < n && b < n && ReturnAt(h, n, a) < CallAt(h, n, b)
  }

  predicate Distinct(p: seq<nat>) {
    forall i, j :: 0 <= i < j < |p| ==> p[i] != p[j]
  }

  predicate Ids(p: seq<nat>, n: nat) {
    forall i :: 0 <= i < |p| ==> p[i] < n
  }

  /** The step of operation `id` from a state. */
  ghost function StepOf<S, I, O>(m: Model<S, I, O>, h: seq<Event<I, O>>, n: nat, s: S, id: nat): (bool, S)
    requires WellFormed(h, n) && id < n
  {
    m.step(s, h[CallAt(h, n, id)].input, h[ReturnAt(h, n, id)].output)
  }

  ghost function StateAfter<S, I, O>(m: Model<S, I, O>, h: seq<Event<I, O>>, n: nat, p: seq<nat>): S
    requires WellFormed(h, n) && Ids(p, n)
  {
    if p == [] then m.init
    else StepOf(m, h, n, StateAfter(m, h, n, p[..|p| - 1]), p[|p| - 1]).1
  }

  /** The model accepts the operations one after the other. */
  ghost predicate Accepted<S, I, O>(m: Model<S, I, O>, h: seq<Event<I, O>>, n: nat, p: seq<nat>)
    requires WellFormed(h, n) && Ids(p, n)
  {
    p != [] ==>
      && Accepted(m, h, n, p[..|p| - 1])
      && StepOf(m, h, n, StateAfter(m, h, n, p[..|p| - 1]), p[|p| - 1]).0
  }

  /** No operation is put after one that was called only once it had returned. */
  ghost predicate RespectsTime<I, O>(h: seq<Event<I, O>>, n: nat, p: seq<nat>)
    requires WellFormed(h, n)
  {
    forall i, j :: 0 <= i < j < |p| ==> !Precedes(h, n, p[j], p[i])
  }

  /** A permutation of all operations that respects real time and that the model accepts. */
  ghost predicate IsLinearization<S, I, O>(m: Model<S, I, O>, h: seq<Event<I, O>>, n: nat, p: seq<nat>) {
    WellFormed(h, n) && |p| == n && Distinct(p) && Ids(p, n) && RespectsTime(h, n, p) && Accepted(m, h, n, p)
  }

  ghost predicate Linearizable<S, I, O>(m: Model<S, I, O>, h: seq<Event<I, O>>, n: nat) {
    exists p :: IsLinearization(m, h, n, p)
  }

  /** Everything that returned before the call of an operation in `p` stands before it in `p`. */
  ghost predicate Closed<I, O>(h: seq<Event<I, O>>, n: nat, p: seq<nat>)
    requires WellFormed(h, n)
  {
    forall i, b: nat :: 0 <= i < |p| && Precedes(h, n, b, p[i]) ==> b in p[..i]
  }

  /** A legal start of a linearization: it may leave operations out, but none that had to come before. */
  ghost predicate IsPartial<S, I, O>(m: Model<S, I, O>, h: seq<Event<I, O>>, n: nat, p: seq<nat>) {
    WellFormed(h, n) && Distinct(p) && Ids(p, n) && Closed(h, n, p) && Accepted(m, h, n, p)
  }

  function Elements(p: seq<nat>): set<nat> { set x | x in p }

  lemma {:induction false} DistinctSize(p: seq<nat>)
    requires Distinct(p)
    ensures |Elements(p)| == |p|
  {
    if p != [] {
      var q := p[..|p| - 1];
      DistinctSize(q);
      assert Elements(p) == Elements(q) + {p[|p| - 1]};
    } else {
      assert Elements(p) == {};
    }
  }

  function Below(n: nat): (r: set<nat>)
    ensures forall k: nat :: k in r <==> k < n
    ensures |r| == n
  {
    if n == 0 then {} else
      assert n - 1 !in Below(n - 1);
      Below(n - 1) + {n - 1}
  }

  lemma {:induction false} FullSet(a: set<nat>, b: set<nat>)
    requires a <= b && |a| == |b|
    ensures a == b
  {
    if x :| x in b && x !in a {
      SmallerSet(a, b - {x});
    }
  }

  lemma {:induction false} SmallerSet(a: set<nat>, b: set<nat>)
    requires a <= b
    ensures |a| <= |b|
  {
    if x :| x in a { SmallerSet(a - {x}, b - {x}); }
  }

  /** A linearization is a legal start that leaves nothing out. */
  lemma WholePartial<S, I, O>(m: Model<S, I, O>, h: seq<Event<I, O>>, n: nat, p: seq<nat>)
    ensures IsLinearization(m, h, n, p) <==> IsPartial(m, h, n, p) && |p| == n
  {
    if WellFormed(h, n) && |p| == n && Distinct(p) && Ids(p, n) {
      DistinctSize(p);
      FullSet(Elements(p), Below(n));
      if RespectsTime(h, n, p) {
        forall i, b: nat | 0 <= i < |p| && Precedes(h, n, b, p[i]) ensures b in p[..i] {
          assert b in Elements(p);
          var j :| 0 <= j < |p| && p[j] == b;
          assert j < i;
          assert p[..i][j] == b;
        }
      }
      if Closed(h, n, p) {
        forall i, j | 0 <= i < j < |p| ensures !Precedes(h, n, p[j], p[i]) {
          assert p[j] !in p[..i];
        }
      }
    }
  }
}
