/** The probe-and-back-off exchange between a leader and one follower, with nothing else going on. */
module RaftBackoff {
  import opened RaftLog
  import opened RaftServer

  /** Neither server has compacted its log, and both start at the dummy entry. */
  predicate Whole(s: Server) {
    && s.snapshotIndex == s.log.index0 == 0
    && |s.log.entries| > 0 && s.log.entries[0] == DUMMY
  }

  ghost predicate Probing(l: Server, me: nat, peer: nat, f: Server) {
    && Whole(l) && Whole(f) && Matching(l.log.entries, f.log.entries)
    && l.role == Leader && f.currentTerm <= l.currentTerm
    && me < |l.matchIndex| == |l.nextIndex| && peer < |l.matchIndex| && peer != me
    && (forall p :: 0 <= p < |l.matchIndex| ==> l.matchIndex[p] < |l.log.entries|)
    && l.matchIndex[peer] < l.nextIndex[peer] <= |l.log.entries|
    && l.log.entries[..l.matchIndex[peer] + 1] <= f.log.entries
  }

  lemma ProbeFits(l: Server, me: nat, peer: nat, f: Server)
    requires Probing(l, me, peer, f)
    ensures SendsEntries(l, peer) && AppendSafe(f, AppendArgsFor(l, me, peer))
  {
  }

  /** A refusal moves the probe strictly down, and stays above what is known to match. */
  lemma RefusalLowers(l: Server, me: nat, peer: nat, f: Server)
    requires Probing(l, me, peer, f) && SendsEntries(l, peer) && AppendSafe(f, AppendArgsFor(l, me, peer))
    requires !AppendEntries(f, AppendArgsFor(l, me, peer)).1.success
    ensures var args := AppendArgsFor(l, me, peer);
            var (g, reply) := AppendEntries(f, args);
            && ReplySafe(l, me, peer, args, reply)
            && var m := HandleReply(l, me, peer, args, reply);
              && m.nextIndex[peer] < l.nextIndex[peer]
              && m == l.(nextIndex := m.nextIndex) && |m.nextIndex| == |l.nextIndex|
              && m.matchIndex[peer] < m.nextIndex[peer]
  {
    var args := AppendArgsFor(l, me, peer);
    var prev := args.prevLogIndex;
    var (g, reply) := AppendEntries(f, args);
    MatchedNotRefused(l, me, peer, f);
    if prev < |f.log.entries| {
      assert prev > 0;
      assert RolledBack(l, reply) <= prev;
    }
  }

  /** A probe at the match index is accepted. */
  lemma MatchedNotRefused(l: Server, me: nat, peer: nat, f: Server)
    requires Probing(l, me, peer, f) && SendsEntries(l, peer) && AppendSafe(f, AppendArgsFor(l, me, peer))
    ensures l.nextIndex[peer] == l.matchIndex[peer] + 1 ==> AppendEntries(f, AppendArgsFor(l, me, peer)).1.success
  {
    var m := l.matchIndex[peer];
    assert f.log.entries[m] == l.log.entries[..m + 1][m];
  }

  lemma RefusalKeeps(l: Server, me: nat, peer: nat, f: Server)
    requires Probing(l, me, peer, f) && SendsEntries(l, peer) && AppendSafe(f, AppendArgsFor(l, me, peer))
    requires !AppendEntries(f, AppendArgsFor(l, me, peer)).1.success
    ensures var (g, reply) := AppendEntries(f, AppendArgsFor(l, me, peer));
            && Whole(g) && Matching(l.log.entries, g.log.entries) && g.currentTerm == l.currentTerm
            && l.log.entries[..l.matchIndex[peer] + 1] <= g.log.entries
            && g.log.entries <= f.log.entries
  {
    var prev, m := l.nextIndex[peer] - 1, l.matchIndex[peer];
    var a, b := l.log.entries, f.log.entries;
    MatchedNotRefused(l, me, peer, f);
    if prev < |b| {
      var cut := b[..prev];
      assert AppendEntries(f, AppendArgsFor(l, me, peer)).0.log.entries == cut;
      forall k | 0 <= k < |a| && k < |cut| && a[k].term == cut[k].term ensures a[..k + 1] == cut[..k + 1] {
        assert b[..k + 1] == cut[..k + 1];
      }
    }
  }

  lemma PlaceCovers(log: Log, index: nat, a: seq<Entry>)
    requires log.index0 == 0 && log.CanPlace(index, a)
    ensures log.entries[..index] + a <= log.Place(index, a).entries
  {
  }

  lemma AcceptedAt(l: Server, me: nat, peer: nat, f: Server)
    requires Probing(l, me, peer, f) && SendsEntries(l, peer) && AppendSafe(f, AppendArgsFor(l, me, peer))
    requires AppendEntries(f, AppendArgsFor(l, me, peer)).1.success
    ensures var prev := l.nextIndex[peer] - 1;
            && prev < |f.log.entries| && l.log.entries[prev].term == f.log.entries[prev].term
            && AppendEntries(f, AppendArgsFor(l, me, peer)).0.log == f.log.Place(prev + 1, l.log.entries[prev + 1..])
  {
    hide Log.Place, Matching;
  }

  lemma AcceptanceReplicates(l: Server, me: nat, peer: nat, f: Server)
    requires Probing(l, me, peer, f) && SendsEntries(l, peer) && AppendSafe(f, AppendArgsFor(l, me, peer))
    requires AppendEntries(f, AppendArgsFor(l, me, peer)).1.success
    ensures l.log.entries <= AppendEntries(f, AppendArgsFor(l, me, peer)).0.log.entries
  {
    hide AppendEntries, AppendSafe, Log.Place;
    var prev, a := l.nextIndex[peer] - 1, l.log.entries;
    AcceptedAt(l, me, peer, f);
    PlaceCovers(f.log, prev + 1, a[prev + 1..]);
    assert f.log.entries[..prev + 1] + a[prev + 1..] == a;
  }

  lemma AcceptanceMatches(l: Server, me: nat, peer: nat, reply: AppendReply)
    requires SendsEntries(l, peer) && reply.success && Whole(l) && l.role == Leader
    requires me < |l.matchIndex| == |l.nextIndex| && peer < |l.matchIndex|
    requires forall p :: 0 <= p < |l.matchIndex| ==> l.matchIndex[p] < |l.log.entries|
    ensures ReplySafe(l, me, peer, AppendArgsFor(l, me, peer), reply)
    ensures var m := HandleReply(l, me, peer, AppendArgsFor(l, me, peer), reply);
            m.matchIndex[peer] == l.log.LastIndex() && m.nextIndex[peer] == l.log.LastIndex() + 1
  {
    var t := Matched(l, peer, AppendArgsFor(l, me, peer));
    SortedBound(t.matchIndex[me := t.log.LastIndex()], |l.log.entries|);
    var p := QuorumPosition(|t.matchIndex|);
    assert SortedMatchIndex(t, me)[p] < |l.log.entries|;
  }

  lemma {:induction false} InsertBound(x: nat, xs: seq<nat>, bound: nat)
    requires x < bound && forall i :: 0 <= i < |xs| ==> xs[i] < bound
    ensures forall i :: 0 <= i < |Insert(x, xs)| ==> Insert(x, xs)[i] < bound
  {
    if xs != [] && x > xs[0] { InsertBound(x, xs[1..], bound); }
  }

  lemma {:induction false} SortedBound(xs: seq<nat>, bound: nat)
    requires forall i :: 0 <= i < |xs| ==> xs[i] < bound
    ensures forall i :: 0 <= i < |SortInts(xs)| ==> SortInts(xs)[i] < bound
  {
    if xs != [] {
      SortedBound(xs[1..], bound);
      InsertBound(xs[0], SortInts(xs[1..]), bound);
    }
  }

  /**
   * The exchange ends: every refusal lowers the next index, and when the follower accepts, the
   * leader's whole log is a prefix of the follower's and the leader knows it.
   */
  method Exchange(leader: Server, me: nat, peer: nat, follower: Server) returns (l: Server, f: Server)
    requires Probing(leader, me, peer, follower)
    ensures leader.log.entries <= f.log.entries
    ensures l.log == leader.log && l.role == Leader && l.currentTerm == leader.currentTerm
    ensures peer < |l.matchIndex| == |l.nextIndex|
    ensures l.matchIndex[peer] == leader.log.LastIndex() && l.nextIndex[peer] == leader.log.LastIndex() + 1
  {
    l, f := leader, follower;
    var done := false;
    while !done
      invariant !done ==> Probing(l, me, peer, f)
      invariant l.log == leader.log && l.role == Leader && l.currentTerm == leader.currentTerm
      invariant peer < |l.matchIndex| == |l.nextIndex|
      invariant done ==> leader.log.entries <= f.log.entries
      invariant done ==> l.matchIndex[peer] == leader.log.LastIndex() && l.nextIndex[peer] == leader.log.LastIndex() + 1
      decreases !done, l.nextIndex[peer]
    {
      hide AppendEntries, HandleReply, AppendSafe, ReplySafe;
      ProbeFits(l, me, peer, f);
      var args := AppendArgsFor(l, me, peer);
      var (g, reply) := AppendEntries(f, args);
      if reply.success {
        AcceptanceReplicates(l, me, peer, f);
        AcceptanceMatches(l, me, peer, reply);
        SameLeaderAfter(l, me, peer, args, reply);
        done := true;
      } else {
        RefusalKeeps(l, me, peer, f);
        RefusalLowers(l, me, peer, f);
      }
      l, f := HandleReply(l, me, peer, args, reply), g;
    }
  }

  lemma SameLeaderAfter(l: Server, me: nat, peer: nat, args: AppendArgs, reply: AppendReply)
    requires ReplySafe(l, me, peer, args, reply) && reply.success
    ensures var m := HandleReply(l, me, peer, args, reply);
            && m.log == l.log && m.role == l.role && m.currentTerm == l.currentTerm
            && |m.matchIndex| == |l.matchIndex| && |m.nextIndex| == |l.nextIndex|
  {
  }
}
