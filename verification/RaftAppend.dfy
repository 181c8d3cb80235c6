/** What AppendEntries does to a follower's log, seen on the whole log rather than its retained window. */
module RaftAppend {
  import opened RaftLog
  import opened RaftServer
  import opened RaftHistory
  import opened RaftInvariant

  /** Figure 2 of the Raft paper, AppendEntries rules 3 and 4: drop a conflicting suffix, then append. */
  function Truncating(log: seq<Entry>, index: nat, a: seq<Entry>): seq<Entry>
    requires index <= |log|
    decreases |a|
  {
    if a == [] then log
    else if index == |log| || log[index].term != a[0].term then log[..index] + a
    else Truncating(log, index + 1, a[1..])
  }

  /** `result` is `log` if that contains the leader's entries already, and otherwise just those entries. */
  predicate Absorbed(log: seq<Entry>, led: seq<Entry>, result: seq<Entry>) {
    result == if led <= log then log else led
  }

  /** Whatever both logs share, up to any index, the third log has too. */
  ghost predicate KeepsCommon(log: seq<Entry>, other: seq<Entry>, result: seq<Entry>) {
    forall k {:trigger log[..k]} :: 0 <= k <= |log| && k <= |other| && log[..k] == other[..k] ==>
                                      k <= |result| && result[..k] == log[..k]
  }

  lemma FullPlace(s: Server, index: nat, a: seq<Entry>)
    requires |s.log.entries| > 0 && |s.snapshot| == s.log.index0 + 1 && s.log.CanPlace(index, a) && (|a| > 0 || index > 0)
    requires s.log.entries[0].term == s.snapshot[s.log.index0].term
    requires index == s.log.index0 ==> a[0] == s.snapshot[index]
    ensures Log(s.Full(), 0).CanPlace(index, a)
    ensures s.snapshot + s.log.Place(index, a).Behind() == Log(s.Full(), 0).Place(index, a).entries
  {
    hide Log.Place;
    var i, b, e := index - s.log.index0, s.snapshot, s.log.entries;
    var keep := KeepsRest(e, i, a);
    assert s.Full() == b + e[1..];
    JoinedKeeps(b, e, i, a);
    PlaceIs(s.log, index, a);
    PlaceIs(Log(b + e[1..], 0), index, a);
    JoinedWhole(b, e, i, a, keep);
  }

  lemma JoinedWhole(b: seq<Entry>, e: seq<Entry>, i: nat, a: seq<Entry>, keep: bool)
    requires |b| > 0 && i <= |e| && |e| > 0 && (i > 0 || |a| > 0) && (i == 0 ==> a[0] == b[|b| - 1])
    requires keep ==> i + |a| < |e|
    ensures b + WithRest(e, i, a, keep)[1..] == WithRest(b + e[1..], |b| - 1 + i, a, keep)
  {
    JoinedPlaced(b, e, i, a);
    if keep {
      JoinedRest(b, e, i + |a|);
      var placed, rest := e[..i] + a, e[i + |a|..];
      assert (placed + rest)[1..] == placed[1..] + rest;
      assert b + (placed[1..] + rest) == b + placed[1..] + rest;
    }
  }

  lemma JoinedKeeps(b: seq<Entry>, e: seq<Entry>, i: nat, a: seq<Entry>)
    requires |b| > 0 && i <= |e| && |e| > 0 && (i > 0 || |a| > 0) && e[0].term == b[|b| - 1].term
    ensures KeepsRest(b + e[1..], |b| - 1 + i, a) <==> KeepsRest(e, i, a)
  {
    PlacedTerm(b, e, i, a);
    JoinedRest(b, e, if i + |a| <= |e| then i + |a| else 1);
  }

  /** A log whose first entry stands where the snapshot `b` ends, seen as a whole. */
  lemma JoinedPlaced(b: seq<Entry>, e: seq<Entry>, i: nat, a: seq<Entry>)
    requires |b| > 0 && i <= |e| && |e| > 0 && (i == 0 ==> |a| > 0 && a[0] == b[|b| - 1])
    ensures b + (e[..i] + a)[1..] == (b + e[1..])[..|b| - 1 + i] + a
  {
    if i == 0 {
      assert e[..0] + a == a && (b + e[1..])[..|b| - 1] == b[..|b| - 1];
      assert b == b[..|b| - 1] + [a[0]] && a == [a[0]] + a[1..];
    } else {
      assert (e[..i] + a)[1..] == e[1..i] + a;
      assert (b + e[1..])[..|b| - 1 + i] == b + e[1..i];
    }
  }

  lemma JoinedRest(b: seq<Entry>, e: seq<Entry>, j: nat)
    requires |b| > 0 && 0 < j <= |e|
    ensures (b + e[1..])[|b| - 1 + j..] == e[j..]
    ensures j < |e| ==> (b + e[1..])[|b| - 1 + j] == e[j]
  {
  }

  /** The last entry placed has the same term either way. */
  lemma PlacedTerm(b: seq<Entry>, e: seq<Entry>, i: nat, a: seq<Entry>)
    requires |b| > 0 && i <= |e| && |e| > 0 && (i > 0 || |a| > 0) && e[0].term == b[|b| - 1].term
    ensures ((b + e[1..])[..|b| - 1 + i] + a)[|b| - 1 + i + |a| - 1].term == (e[..i] + a)[i + |a| - 1].term
  {
    if |a| == 0 && i > 1 { assert (b + e[1..])[|b| - 1 + i - 1] == e[i - 1]; }
  }

  /**
   * A follower whose log agrees with the leader's below `index` and holds no stale entry behind the
   * leader's election-time log (or is given only entries of the leader's term) ends with exactly
   * the leader's entries, or keeps a log that already contained them.
   */
  lemma PlaceOutcome(h: History, n: nat, term: nat, log: seq<Entry>, index: nat, end: nat)
    requires forall t {:trigger ReignOk(h, n, t)} :: t in h.reigns ==> ReignOk(h, n, t)
    requires term in h.reigns && Good(h, log) && AtMost(log, term)
    requires 0 < index <= end <= |h.reigns[term].log| && index <= |log|
    requires |h.reigns[term].base| <= end
    requires log[..index] == h.reigns[term].log[..index]
    requires index < |h.reigns[term].base| ==> Tame(h, log, term)
    ensures var r := Log(log, 0).Place(index, h.reigns[term].log[index..end]).entries;
            Absorbed(log, h.reigns[term].log[..end], r)
  {
    var led := h.reigns[term].log[..end];
    assert ReignOk(h, n, term);
    assert log[..index] + h.reigns[term].log[index..end] == led;
    if end < |log| {
      if led <= log {
        GoodSorted(h, n, log, end - 1, end);
        assert log == led + log[end..];
      } else {
        StaleTail(h, n, term, log, index, end);
      }
    } else if led <= log {
      assert log == led;
    }
  }

  /** A conflicting log longer than what the leader sent has a lower term right behind it. */
  lemma StaleTail(h: History, n: nat, term: nat, log: seq<Entry>, index: nat, end: nat)
    requires forall t {:trigger ReignOk(h, n, t)} :: t in h.reigns ==> ReignOk(h, n, t)
    requires term in h.reigns && Good(h, log) && AtMost(log, term)
    requires 0 < index <= end <= |h.reigns[term].log| && end < |log|
    requires |h.reigns[term].base| <= end
    requires log[..index] == h.reigns[term].log[..index]
    requires index < |h.reigns[term].base| ==> Tame(h, log, term)
    requires !(h.reigns[term].log[..end] <= log)
    ensures log[end].term < h.reigns[term].log[end - 1].term
  {
    assert ReignOk(h, n, term);
    SameTermLeads(h, log, term, end);
  }

  lemma SameTermLeads(h: History, log: seq<Entry>, term: nat, k: nat)
    requires Good(h, log) && 0 < k < |log|
    ensures log[k].term == term ==> term in h.reigns && k < |h.reigns[term].log| && h.reigns[term].log[..k] <= log
  {
    assert Rooted(h, log, k);
    assert log[..k] == log[..k + 1][..k];
  }

  /** Placing and truncating at the first conflict leave the same log. */
  lemma PlaceTruncates(h: History, log: seq<Entry>, led: seq<Entry>, index: nat)
    requires Good(h, log) && Good(h, led)
    requires 0 < index <= |led| && index <= |log|
    requires log[..index] == led[..index]
    ensures Truncating(log, index, led[index..]) == if led <= log then log else led
    decreases |led| - index
  {
    var a := led[index..];
    if index == |led| {
    } else if index == |log| {
      assert log[..index] + a == led;
    } else if log[index].term != led[index].term {
      assert log[..index] + a == led;
    } else {
      GoodMatch(h, log, led, index);
      PlaceTruncates(h, log, led, index + 1);
      assert a[1..] == led[index + 1..];
    }
  }

  lemma GoodPrefix(h: History, log: seq<Entry>, k: nat)
    requires Good(h, log) && 0 < k <= |log|
    ensures Good(h, log[..k])
  {
    forall i | 0 < i < k ensures Rooted(h, log[..k], i) {
      assert Rooted(h, log, i);
      assert log[..k][..i + 1] == log[..i + 1];
    }
  }

  // ---------------------------------------------------------------- the handler

  /** A follower that may act on the request: the leader's log, and what the follower knows of it. */
  ghost predicate Receiving(h: History, n: nat, i: nat, s: Server, args: AppendArgs) {
    HistoryOk(h, n) && ServerOk(h, n, i, s) && AppendOk(h, n, i, args) && args.term >= s.currentTerm
  }

  /** Everything the follower committed, and its snapshot point, is in the sender's log. */
  lemma CommonPast(h: History, n: nat, i: nat, s: Server, args: AppendArgs)
    requires Receiving(h, n, i, s, args)
    ensures s.Full()[..s.commitIndex + 1] <= h.reigns[args.term].log
    ensures s.Full()[..s.snapshotIndex + 1] <= h.reigns[args.term].log
  {
    CommittedInLeader(h, n, s.currentTerm, s.Full(), s.commitIndex, args.term);
    CommittedInLeader(h, n, s.currentTerm, s.Full(), s.snapshotIndex, args.term);
  }

  /** No assertion in AppendEntries fails and no read leaves the retained log. */
  lemma AppendNeverPanics(h: History, n: nat, i: nat, s: Server, args: AppendArgs)
    requires HistoryOk(h, n) && ServerOk(h, n, i, s) && AppendOk(h, n, i, args)
    ensures AppendSafe(s, args)
  {
    hide HistoryOk, HolderOk, VoterOk, LeaderOk, CommitsOk, CommitOk, Good, AtMost, Aimed;
    if args.term >= s.currentTerm && args.prevLogIndex <= s.log.LastIndex() && args.prevLogIndex < s.snapshotIndex {
      var k := s.snapshotIndex - args.prevLogIndex - 1;
      if k < |args.entries| {
        CommonPast(h, n, i, s, args);
        var led := h.reigns[args.term].log;
        assert s.Full()[s.snapshotIndex] == s.Full()[..s.snapshotIndex + 1][s.snapshotIndex] == led[s.snapshotIndex];
        assert args.entries[k] == led[s.snapshotIndex];
      }
    }
  }

  /** If the sender aims below its election-time end, the receiver refused before and is tame. */
  lemma AimedTame(h: History, n: nat, i: nat, s: Server, args: AppendArgs)
    requires Receiving(h, n, i, s, args)
    ensures args.prevLogIndex + 1 < |h.reigns[args.term].base| ==> Tame(h, s.Full(), args.term)
  {
    if args.prevLogIndex + 1 < |h.reigns[args.term].base| {
      assert RefusalHeld(h, s, Refusal(i, args.term));
    }
  }

  /** What was acknowledged to the leader of the current term is still there. */
  lemma AckedHolds(h: History, n: nat, i: nat, s: Server, term: nat, index: nat)
    requires HolderOk(h, n, i, s) && AckedTo(h, i, term, index) && s.currentTerm <= term
    ensures term in h.reigns && index < |h.reigns[term].log| && h.reigns[term].log[..index + 1] <= s.Full()
    ensures s.currentTerm == term
  {
    var a :| a in h.acks && a.server == i && a.term == term && a.index >= index;
    assert AckHeld(h, n, s, a);
    assert Kept(h, term, index, s.Full(), s.currentTerm + 1);
  }

  /** What the handler's two accepting branches rely on. */
  ghost predicate Ready(h: History, n: nat, s: Server, args: AppendArgs) {
    && (forall t {:trigger ReignOk(h, n, t)} :: t in h.reigns ==> ReignOk(h, n, t))
    && LocalOk(h, s) && args.term >= s.currentTerm && args.term in h.reigns
    && var r := h.reigns[args.term];
      var end := args.prevLogIndex + 1 + |args.entries|;
      && |r.base| <= end <= |r.log|
      && r.log[args.prevLogIndex].term == args.prevLogTerm
      && args.entries == r.log[args.prevLogIndex + 1..end]
      && s.Full()[..s.snapshotIndex + 1] <= r.log
      && (args.prevLogIndex + 1 < |r.base| ==> Tame(h, s.Full(), args.term))
  }

  lemma IsReady(h: History, n: nat, i: nat, s: Server, args: AppendArgs)
    requires Receiving(h, n, i, s, args)
    ensures Ready(h, n, s, args)
  {
    CommonPast(h, n, i, s, args);
    AimedTame(h, n, i, s, args);
  }

  lemma TailOfSlice(led: seq<Entry>, lo: nat, mid: nat, end: nat)
    requires lo <= mid <= end <= |led|
    ensures led[lo..end][mid - lo..] == led[mid..end]
  {
  }

  lemma PrefixOfPrefix(log: seq<Entry>, led: seq<Entry>, k: nat)
    requires k < |log| && log[..k + 1] <= led
    ensures log[..k] == led[..k]
  {
    assert log[..k] == log[..k + 1][..k];
  }

  lemma PlacedBehindSnapshot(h: History, n: nat, term: nat, s: Server, prev: nat, end: nat)
    requires forall t {:trigger ReignOk(h, n, t)} :: t in h.reigns ==> ReignOk(h, n, t)
    requires LocalOk(h, s) && term in h.reigns && s.currentTerm <= term
    requires prev < s.snapshotIndex < end <= |h.reigns[term].log| && |h.reigns[term].base| <= end
    requires s.Full()[..s.snapshotIndex + 1] <= h.reigns[term].log
    requires prev + 1 < |h.reigns[term].base| ==> Tame(h, s.Full(), term)
    ensures s.log.CanPlace(s.snapshotIndex, h.reigns[term].log[prev + 1..end][s.snapshotIndex - prev - 1..])
    ensures Absorbed(s.Full(), h.reigns[term].log[..end],
              s.snapshot + s.log.Place(s.snapshotIndex, h.reigns[term].log[prev + 1..end][s.snapshotIndex - prev - 1..]).Behind())
  {
    TailOfSlice(h.reigns[term].log, prev + 1, s.snapshotIndex, end);
    PrefixOfPrefix(s.Full(), h.reigns[term].log, s.snapshotIndex);
    PlacedInWindow(h, n, term, s, s.snapshotIndex, end);
  }

  /** PlaceOutcome for the retained window of a server's log. */
  lemma PlacedInWindow(h: History, n: nat, term: nat, s: Server, index: nat, end: nat)
    requires forall t {:trigger ReignOk(h, n, t)} :: t in h.reigns ==> ReignOk(h, n, t)
    requires LocalOk(h, s) && s.snapshotIndex <= index && s.currentTerm <= term
    requires term in h.reigns
    requires 0 < index <= end <= |h.reigns[term].log| && index <= |s.Full()| && |h.reigns[term].base| <= end
    requires s.snapshotIndex == index ==> index < end && s.Full()[index] == h.reigns[term].log[index]
    requires s.Full()[..index] == h.reigns[term].log[..index]
    requires index < |h.reigns[term].base| ==> Tame(h, s.Full(), term)
    ensures Absorbed(s.Full(), h.reigns[term].log[..end],
              s.snapshot + s.log.Place(index, h.reigns[term].log[index..end]).Behind())
  {
    FullPlace(s, index, h.reigns[term].log[index..end]);
    PlaceOutcome(h, n, term, s.Full(), index, end);
  }

  lemma PlacedAtProbe(h: History, n: nat, term: nat, s: Server, prev: nat, end: nat)
    requires forall t {:trigger ReignOk(h, n, t)} :: t in h.reigns ==> ReignOk(h, n, t)
    requires LocalOk(h, s) && term in h.reigns && s.currentTerm <= term
    requires prev < end <= |h.reigns[term].log| && |h.reigns[term].base| <= end
    requires s.log.Holds(prev) && s.log.At(prev).term == h.reigns[term].log[prev].term
    requires prev + 1 < |h.reigns[term].base| ==> Tame(h, s.Full(), term)
    ensures s.Full()[..prev + 1] == h.reigns[term].log[..prev + 1]
    ensures Absorbed(s.Full(), h.reigns[term].log[..end],
              s.snapshot + s.log.Place(prev + 1, h.reigns[term].log[prev + 1..end]).Behind())
  {
    hide Good, Absorbed, Log.Place, Tame;
    assert ReignOk(h, n, term);
    FullAt(h, s, prev);
    GoodMatch(h, s.Full(), h.reigns[term].log, prev);
    PlacedInWindow(h, n, term, s, prev + 1, end);
  }

  /** Which of its three ways through an accepting handler took. */
  lemma SuccessShape(s: Server, args: AppendArgs)
    requires AppendSafe(s, args) && args.term >= s.currentTerm && AppendEntries(s, args).1.success
    requires s.log.index0 == s.snapshotIndex && |s.snapshot| == s.snapshotIndex + 1
    ensures args.prevLogIndex <= s.log.LastIndex()
    ensures args.prevLogIndex < s.snapshotIndex < args.prevLogIndex + 1 + |args.entries| ==>
              AppendEntries(s, args).0.Full()
              == s.snapshot + s.log.Place(s.snapshotIndex, args.entries[s.snapshotIndex - args.prevLogIndex - 1..]).Behind()
    ensures args.prevLogIndex + 1 + |args.entries| <= s.snapshotIndex ==> AppendEntries(s, args).0.Full() == s.Full()
    ensures s.snapshotIndex <= args.prevLogIndex ==>
              && s.log.At(args.prevLogIndex).term == args.prevLogTerm
              && AppendEntries(s, args).0.Full() == s.snapshot + s.log.Place(args.prevLogIndex + 1, args.entries).Behind()
  {
    hide Log.Place, Log.Behind, Log.CutOffTail;
  }

  lemma NothingNew(log: seq<Entry>, led: seq<Entry>, k: nat, end: nat)
    requires end <= k < |log| && log[..k + 1] <= led
    ensures log[..end] == led[..end] && Absorbed(log, led[..end], log)
  {
    assert log[..end] == log[..k + 1][..end];
  }

  /** The log after an accepted request. */
  lemma Accepted(h: History, n: nat, s: Server, args: AppendArgs)
    requires Ready(h, n, s, args) && AppendSafe(s, args)
    requires AppendEntries(s, args).1.success
    ensures Absorbed(s.Full(), h.reigns[args.term].log[..args.prevLogIndex + 1 + |args.entries|],
                     AppendEntries(s, args).0.Full())
  {
    hide AppendEntries, AppendSafe, Log.Place, Log.Behind, Absorbed, Good, Tame, AtMost, ReignOk;
    var prev, end := args.prevLogIndex, args.prevLogIndex + 1 + |args.entries|;
    SuccessShape(s, args);
    if prev >= s.snapshotIndex {
      PlacedAtProbe(h, n, args.term, s, prev, end);
    } else if s.snapshotIndex < end {
      PlacedBehindSnapshot(h, n, args.term, s, prev, end);
    } else {
      NothingNew(s.Full(), h.reigns[args.term].log, s.snapshotIndex, end);
    }
  }

  /** An accepted probe matched: below it the two logs are the same. */
  lemma AcceptedPrefix(h: History, n: nat, s: Server, args: AppendArgs)
    requires Ready(h, n, s, args) && AppendSafe(s, args)
    requires AppendEntries(s, args).1.success
    ensures args.prevLogIndex < |s.Full()|
    ensures s.Full()[..args.prevLogIndex + 1] == h.reigns[args.term].log[..args.prevLogIndex + 1]
  {
    hide AppendEntries, AppendSafe, Log.Place, Good, AtMost, Tame, Log.Behind;
    var prev := args.prevLogIndex;
    SuccessShape(s, args);
    if prev >= s.snapshotIndex {
      assert ReignOk(h, n, args.term);
      FullAt(h, s, prev);
      GoodMatch(h, s.Full(), h.reigns[args.term].log, prev);
    } else {
      NothingNew(s.Full(), h.reigns[args.term].log, s.snapshotIndex, prev + 1);
    }
  }

  /** A probe the follower already acknowledged in this term is never refused. */
  lemma AckedNotRefused(h: History, n: nat, i: nat, s: Server, args: AppendArgs)
    requires HolderOk(h, n, i, s) && LocalOk(h, s) && AppendSafe(s, args) && args.term >= s.currentTerm
    requires args.term in h.reigns && args.prevLogIndex < |h.reigns[args.term].log|
    requires h.reigns[args.term].log[args.prevLogIndex].term == args.prevLogTerm
    requires AckedTo(h, i, args.term, args.prevLogIndex)
    ensures AppendEntries(s, args).1.success
  {
    var prev := args.prevLogIndex;
    AckedHolds(h, n, i, s, args.term, prev);
    assert s.Full()[prev] == h.reigns[args.term].log[..prev + 1][prev];
    if prev >= s.snapshotIndex { FullAt(h, s, prev); }
  }

  lemma PrefixAt(log: seq<Entry>, other: seq<Entry>, j: nat, k: nat)
    requires j <= |log| && j <= |other|
    ensures log[..j] == other[..j] && k < j ==> log[k] == other[k]
  {
    if log[..j] == other[..j] && k < j { assert log[..j][k] == other[..j][k]; }
  }

  lemma CutKeepsCommon(log: seq<Entry>, other: seq<Entry>, k: nat)
    requires k < |log| && k < |other| && log[k] != other[k]
    ensures KeepsCommon(log, other, log[..k])
  {
    forall j | 0 <= j <= |log| && j <= |other|
      ensures log[..j] == other[..j] ==> j <= k && log[..k][..j] == log[..j]
    {
      PrefixAt(log, other, j, k);
    }
  }

  lemma CutFull(s: Server, prev: nat)
    requires |s.log.entries| > 0 && |s.snapshot| == s.log.index0 + 1 <= prev && s.log.Holds(prev)
    ensures s.(log := s.log.CutOffTail(prev)).Full() == s.Full()[..prev]
  {
  }

  /** The log after a refused request: cut to before the probe. */
  lemma RefusedLog(h: History, n: nat, s: Server, args: AppendArgs)
    requires Ready(h, n, s, args) && AppendSafe(s, args)
    requires !AppendEntries(s, args).1.success
    ensures var log := AppendEntries(s, args).0.Full();
            && log <= s.Full() && KeepsCommon(s.Full(), h.reigns[args.term].log, log)
            && |log| <= args.prevLogIndex && |log| > s.snapshotIndex
    ensures AppendEntries(s, args).1.conflictIndex <= args.prevLogIndex
  {
    var prev, led := args.prevLogIndex, h.reigns[args.term].log;
    if prev <= s.log.LastIndex() {
      assert s.Full()[s.snapshotIndex] == s.Full()[..s.snapshotIndex + 1][s.snapshotIndex] == led[s.snapshotIndex];
      FullAt(h, s, prev);
      CutFull(s, prev);
      CutKeepsCommon(s.Full(), led, prev);
    }
  }

  /** A refusal leaves the follower tame. */
  lemma RefusedTame(h: History, n: nat, i: nat, s: Server, args: AppendArgs)
    requires Receiving(h, n, i, s, args) && AppendSafe(s, args)
    requires !AppendEntries(s, args).1.success
    ensures Tame(h, AppendEntries(s, args).0.Full(), args.term)
  {
    if AckedTo(h, i, args.term, args.prevLogIndex) { AckedNotRefused(h, n, i, s, args); }
    IsReady(h, n, i, s, args);
    RefusedLog(h, n, s, args);
  }
}
