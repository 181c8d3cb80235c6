/** The replicated log of one Raft server: a window of entries that starts at `index0`. */
module RaftLog {

  /** A client command; `Nil` is the empty command of the dummy entry at index 0. */
  datatype Command = Nil | Op(payload: string)

  datatype Entry = Entry(term: nat, command: Command)

  const DUMMY := Entry(0, Nil)

  datatype Log = Log(entries: seq<Entry>, index0: nat) {

    function Length(): nat { index0 + |entries| }

    function LastIndex(): nat
      requires |entries| > 0
    {
      index0 + |entries| - 1
    }

    predicate Holds(index: int) { index0 <= index < Length() }

    function At(index: int): Entry
      requires Holds(index)
    {
      entries[index - index0]
    }

    function LastEntry(): Entry
      requires |entries| > 0
    {
      At(LastIndex())
    }

    function Slice(index: nat): seq<Entry>
      requires index0 <= index <= Length()
    {
      entries[index - index0..]
    }

    /** All entries but the first, which stands at the index of the snapshot. */
    function Behind(): seq<Entry> { if entries == [] then [] else entries[1..] }

    function Append(e: Entry): Log { Log(entries + [e], index0) }

    /** What `place` asserts or indexes without a check: it panics when this is false. */
    predicate CanPlace(index: nat, a: seq<Entry>) {
      index0 <= index <= Length() && (index0 < index || |a| > 0)
    }

    /** Overwrites from `index` on; what lies behind the new entries goes only if its term drops. */
    function Place(index: nat, a: seq<Entry>): Log
      requires CanPlace(index, a)
    {
      var end := index - index0 + |a|;
      var placed := entries[..index - index0] + a;
      if end < |entries| && placed[end - 1].term <= entries[end].term
      then Log(placed + entries[end..], index0)
      else Log(placed, index0)
    }

    function CutOffHead(index: nat): Log
      requires index0 <= index <= Length()
    {
      Log(entries[index - index0..], index)
    }

    function CutOffTail(index: nat): Log
      requires Holds(index)
    {
      Log(if index == index0 then entries[..1] else entries[..index - index0], index0)
    }
  }

  /** Place leaves what lies behind the new entries, because its term does not drop. */
  predicate KeepsRest(e: seq<Entry>, i: nat, a: seq<Entry>)
    requires i <= |e| && (i > 0 || |a| > 0)
  {
    i + |a| < |e| && (e[..i] + a)[i + |a| - 1].term <= e[i + |a|].term
  }

  function WithRest(e: seq<Entry>, i: nat, a: seq<Entry>, keep: bool): (r: seq<Entry>)
    requires i <= |e| && (keep ==> i + |a| < |e|)
    ensures |r| >= i + |a|
  {
    if keep then e[..i] + a + e[i + |a|..] else e[..i] + a
  }

  lemma PlaceIs(log: Log, index: nat, a: seq<Entry>)
    requires log.CanPlace(index, a)
    ensures log.Place(index, a)
            == Log(WithRest(log.entries, index - log.index0, a, KeepsRest(log.entries, index - log.index0, a)), log.index0)
  {
  }

  /** Log matching between two logs. */
  ghost predicate Matching(a: seq<Entry>, b: seq<Entry>) {
    forall k :: 0 <= k < |a| && k < |b| && a[k].term == b[k].term ==> a[..k + 1] == b[..k + 1]
  }
}
