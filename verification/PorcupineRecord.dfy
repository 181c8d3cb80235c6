/** The record of the longest partial linearization through each operation. */
module PorcupineRecord {
  import opened Linearizability
  import opened PorcupineSearch
  import L = PorcupineList

  /** An operation on the path, and the state before it. */
  datatype CallsEntry<I, O, S> = CallsEntry(entry: L.Node<I, O>, state: S)

  /** Every operation on the path now has a record at least this long, and no record got worse. */
  ghost predicate Improved(before: seq<Option<seq<nat>>>, after: seq<Option<seq<nat>>>, p: seq<nat>) {
    && |after| == |before|
    && forall id :: 0 <= id < |before| ==> ImprovedAt(before, after, p, id)
  }

  ghost predicate ImprovedAt(before: seq<Option<seq<nat>>>, after: seq<Option<seq<nat>>>, p: seq<nat>, id: nat)
    requires id < |before| == |after|
  {
    && (after[id] == before[id] || (id in p && after[id] == Some(p)))
    && (id in p ==> Reaches(after, id, |p|))
    && (before[id].Some? ==> Reaches(after, id, |before[id].value|))
  }

  method Record<I, O, S>(longest: seq<Option<seq<nat>>>, calls: seq<CallsEntry<I, O, S>>, ghost p: seq<nat>) returns (better: seq<Option<seq<nat>>>)
    requires |calls| == |p| && forall i :: 0 <= i < |p| ==> calls[i].entry.id == p[i] < |longest|
    ensures Improved(longest, better, p)
  {
    better := longest;
    var path: Option<seq<nat>> := None;
    for i := 0 to |calls|
      invariant |better| == |longest| && (path.Some? ==> path.value == p)
      invariant forall id :: 0 <= id < |longest| && id in p[..i] ==> ImprovedAt(longest, better, p, id)
      invariant forall id :: 0 <= id < |longest| && id !in p[..i] ==> better[id] == longest[id]
    {
      var id := calls[i].entry.id;
      assert p[..i + 1] == p[..i] + [p[i]];
      if better[id].None? || |calls| > |better[id].value| {
        if path.None? {
          var ids := PathIds(calls, p);
          path := Some(ids);
        }
        better := better[id := path];
      }
    }
    assert p[..|calls|] == p;
  }

  method PathIds<I, O, S>(calls: seq<CallsEntry<I, O, S>>, ghost p: seq<nat>) returns (ids: seq<nat>)
    requires |calls| == |p| && forall i :: 0 <= i < |p| ==> calls[i].entry.id == p[i]
    ensures ids == p
  {
    ids := [];
    for i := 0 to |calls|
      invariant ids == p[..i]
    {
      ids := ids + [calls[i].entry.id];
    }
  }

  lemma ImprovedSound<S, I, O>(m: Model<S, I, O>, h: seq<Event<I, O>>, n: nat, p: seq<nat>,
                               before: seq<Option<seq<nat>>>, after: seq<Option<seq<nat>>>)
    requires IsPartial(m, h, n, p) && Sound(m, h, n, before) && Improved(before, after, p)
    ensures Sound(m, h, n, after) && |after| == n
  {
    hide IsPartial;
    forall id | 0 <= id < n && after[id].Some? ensures IsPartial(m, h, n, after[id].value) && id in after[id].value {
      assert ImprovedAt(before, after, p, id);
    }
  }

  /** Leaving the path keeps the record complete: the configuration left is the one just recorded. */
  lemma ImprovedRecorded<S, I, O>(m: Model<S, I, O>, h: seq<Event<I, O>>, n: nat, p: seq<nat>, seen: set<Config<S>>,
                                  before: seq<Option<seq<nat>>>, after: seq<Option<seq<nat>>>)
    requires IsPartial(m, h, n, p) && p != [] && |before| == n && Improved(before, after, p)
    requires Recorded(m, h, n, p, seen, before) && Ids(p[..|p| - 1], n)
    ensures Recorded(m, h, n, p[..|p| - 1], seen, after)
  {
    hide Cfg, IsPartial;
    assert WellFormed(h, n) && Ids(p, n) && Linearizability.Distinct(p) by { PartialShape(m, h, n, p); }
    var q := p[..|p| - 1];
    forall c, id | c in seen && !OnPath(m, h, n, q, c) && id in c.done ensures Reaches(after, id, |c.done|) {
      if OnPath(m, h, n, p, c) {
        LeftConfig(m, h, n, p, c);
        assert ImprovedAt(before, after, p, id);
      } else {
        assert Reaches(before, id, |c.done|);
        assert ImprovedAt(before, after, p, id);
      }
    }
  }

  lemma PartialShape<S, I, O>(m: Model<S, I, O>, h: seq<Event<I, O>>, n: nat, p: seq<nat>)
    requires IsPartial(m, h, n, p)
    ensures WellFormed(h, n) && Ids(p, n) && Linearizability.Distinct(p)
  {
  }

  lemma LeftConfig<S, I, O>(m: Model<S, I, O>, h: seq<Event<I, O>>, n: nat, p: seq<nat>, c: Config<S>)
    requires WellFormed(h, n) && Ids(p, n) && Linearizability.Distinct(p) && p != [] && Ids(p[..|p| - 1], n)
    requires OnPath(m, h, n, p, c)
    ensures OnPath(m, h, n, p[..|p| - 1], c) || (c.done == Elements(p) && |c.done| == |p|)
  {
    hide WellFormed, StateAfter;
    var q := p[..|p| - 1];
    var k :| 0 <= k <= |p| && c == Cfg(m, h, n, p[..k]);
    if k < |p| {
      assert q[..k] == p[..k];
      assert c == Cfg(m, h, n, q[..k]);
    } else {
      assert p[..k] == p;
      DistinctSize(p);
    }
  }
}
