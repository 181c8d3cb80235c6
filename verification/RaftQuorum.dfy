/** The commit index a leader reads off its sorted match indices. */
module RaftQuorum {
  import opened RaftServer
  import opened RaftCluster

  /** The servers whose match index is at least `m`. */
  function Holding(xs: seq<nat>, m: nat): (r: set<nat>)
    ensures r <= Servers(|xs|)
    ensures forall i: nat :: i in r <==> i < |xs| && xs[i] >= m
  {
    if xs == [] then {}
    else
      var r := Holding(xs[..|xs| - 1], m);
      if xs[|xs| - 1] >= m then r + {|xs| - 1} else r
  }

  function Count(xs: seq<nat>, m: nat): nat {
    if xs == [] then 0 else (if xs[0] >= m then 1 else 0) + Count(xs[1..], m)
  }

  lemma {:induction false} CountAppend(xs: seq<nat>, x: nat, m: nat)
    ensures Count(xs + [x], m) == Count(xs, m) + (if x >= m then 1 else 0)
  {
    if xs == [] {
    } else {
      assert (xs + [x])[1..] == xs[1..] + [x];
      CountAppend(xs[1..], x, m);
    }
  }

  lemma {:induction false} HoldingSize(xs: seq<nat>, m: nat)
    ensures |Holding(xs, m)| == Count(xs, m)
  {
    hide Servers;
    if xs != [] {
      var ys := xs[..|xs| - 1];
      HoldingSize(ys, m);
      assert xs == ys + [xs[|xs| - 1]];
      CountAppend(ys, xs[|xs| - 1], m);
      assert |xs| - 1 !in Holding(ys, m);
    }
  }

  predicate Ascending(xs: seq<nat>) {
    forall i, j :: 0 <= i <= j < |xs| ==> xs[i] <= xs[j]
  }

  lemma {:induction false} InsertFacts(x: nat, xs: seq<nat>, m: nat)
    requires Ascending(xs)
    ensures Ascending(Insert(x, xs)) && Count(Insert(x, xs), m) == Count(xs, m) + (if x >= m then 1 else 0)
    ensures |Insert(x, xs)| == |xs| + 1 && Insert(x, xs)[0] == if xs == [] || x <= xs[0] then x else xs[0]
  {
    if xs == [] || x <= xs[0] {
      assert ([x] + xs)[1..] == xs;
    } else {
      InsertFacts(x, xs[1..], m);
      var r := Insert(x, xs[1..]);
      assert ([xs[0]] + r)[1..] == r;
    }
  }

  lemma {:induction false} SortFacts(xs: seq<nat>, m: nat)
    ensures Ascending(SortInts(xs)) && Count(SortInts(xs), m) == Count(xs, m)
  {
    if xs != [] {
      SortFacts(xs[1..], m);
      InsertFacts(xs[0], SortInts(xs[1..]), m);
    }
  }

  /** In ascending order, exactly the positions from some point on reach `m`. */
  lemma {:induction false} AscendingCount(xs: seq<nat>, p: nat, m: nat)
    requires Ascending(xs) && p < |xs|
    ensures m <= xs[p] ==> Count(xs, m) >= |xs| - p
    ensures m > xs[p] ==> Count(xs, m) < |xs| - p
  {
    CountBound(xs[1..], m);
    if p > 0 {
      AscendingCount(xs[1..], p - 1, m);
    } else if m <= xs[0] {
      AllCounted(xs, m);
    }
  }

  lemma {:induction false} CountBound(xs: seq<nat>, m: nat)
    ensures Count(xs, m) <= |xs|
  {
    if xs != [] { CountBound(xs[1..], m); }
  }

  lemma {:induction false} AllCounted(xs: seq<nat>, m: nat)
    requires forall i :: 0 <= i < |xs| ==> xs[i] >= m
    ensures Count(xs, m) == |xs|
  {
    if xs != [] { AllCounted(xs[1..], m); }
  }

  /**
   * The value at the quorum position of the sorted match indices is the largest index a majority
   * holds, and the first value is the largest index that everybody holds.
   */
  lemma QuorumIndex(xs: seq<nat>, m: nat)
    requires |xs| > 0
    ensures m <= SortInts(xs)[QuorumPosition(|xs|)] <==> |Holding(xs, m)| >= Majority(|xs|)
    ensures m <= SortInts(xs)[0] <==> Holding(xs, m) == Servers(|xs|)
  {
    HoldingSize(xs, m);
    SortFacts(xs, m);
    AscendingCount(SortInts(xs), QuorumPosition(|xs|), m);
    AscendingCount(SortInts(xs), 0, m);
    ServersSize(|xs|);
    if Holding(xs, m) != Servers(|xs|) { ProperSubset(Holding(xs, m), Servers(|xs|)); }
  }

  // ---------------------------------------------------------------- what a leader commits

  /** The largest index that a majority holds. */
  ghost predicate HeldByMost(xs: seq<nat>, c: nat) {
    |Holding(xs, c)| >= Majority(|xs|) && forall d: nat :: d > c ==> |Holding(xs, d)| < Majority(|xs|)
  }

  lemma SomeHeldByMost(xs: seq<nat>) returns (c: nat)
    requires |xs| > 0
    ensures HeldByMost(xs, c)
  {
    hide Holding, SortInts;
    c := SortInts(xs)[QuorumPosition(|xs|)];
    forall d: nat ensures d <= c <==> |Holding(xs, d)| >= Majority(|xs|) { QuorumIndex(xs, d); }
  }

  /** What each server holds, as far as the leader knows. */
  function Known(s: Server, me: nat): seq<nat>
    requires me < |s.matchIndex| && |s.log.entries| > 0
  {
    s.matchIndex[me := s.log.LastIndex()]
  }

  /**
   * A leader commits the largest index that a majority holds, if that is new and either of its own term
   * or held by everybody; and nothing else changes.
   */
  lemma CommitsExactly(s: Server, me: nat, c: nat)
    requires CommitSafe(s, me) && HeldByMost(Known(s, me), c)
    ensures c > s.snapshotIndex ==> s.log.Holds(c)
    ensures LeaderCommit(s, me)
            == if c > s.commitIndex && c > s.snapshotIndex
                  && (s.log.At(c).term == s.currentTerm || Holding(Known(s, me), c) == Servers(|s.matchIndex|))
               then s.(commitIndex := c) else s
  {
    hide Holding, SortInts, Servers;
    var xs := Known(s, me);
    var sorted := SortInts(xs);
    var top := sorted[QuorumPosition(|xs|)];
    QuorumIndex(xs, c);
    QuorumIndex(xs, top);
    assert top == c;
    SortFacts(xs, 0);
    assert sorted[0] <= top;
  }

  lemma {:induction false} ProperSubset(a: set<nat>, b: set<nat>)
    requires a < b
    ensures |a| < |b|
  {
    if a != {} {
      var x :| x in a;
      ProperSubset(a - {x}, b - {x});
    }
  }
}
