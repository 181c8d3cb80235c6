/** The leader's own steps keep the invariant: submitting, sending, and reading replies. */
module RaftLeading {
  import opened RaftLog
  import opened RaftServer
  import opened RaftCluster
  import opened RaftHistory
  import opened RaftInvariant
  import opened RaftSteps
  import opened RaftReplication
  import opened RaftQuorum

  // ---------------------------------------------------------------- submitting a command

  function AfterSubmit(h: History, i: nat, s: Server, e: Entry): History
    requires s.currentTerm in h.reigns
  {
    var r := h.reigns[s.currentTerm];
    h.(reigns := h.reigns[s.currentTerm := r.(log := r.log + [e])],
       acks := h.acks + {Ack(i, s.currentTerm, |r.log|)})
  }

  lemma GrownReign(h: History, n: nat, i: nat, s: Server, e: Entry)
    requires s.currentTerm in h.reigns && ReignOk(h, n, s.currentTerm) && e.term == s.currentTerm
    requires Extends(h, AfterSubmit(h, i, s, e))
    ensures ReignOk(AfterSubmit(h, i, s, e), n, s.currentTerm)
  {
    var g, r := AfterSubmit(h, i, s, e), h.reigns[s.currentTerm];
    GoodExtends(h, g, r.base);
    forall k | 0 < k < |r.log| + 1 ensures Rooted(g, r.log + [e], k) {
      if k < |r.log| {
        assert Rooted(h, r.log, k);
        assert (r.log + [e])[..k + 1] == r.log[..k + 1];
      } else {
        assert (r.log + [e])[..k + 1] == r.log + [e];
      }
    }
  }

  lemma SubmitHistory(h: History, n: nat, i: nat, s: Server, e: Entry)
    requires HistoryOk(h, n) && ServerOk(h, n, i, s) && i < n && s.role == Leader && e.term == s.currentTerm
    ensures HistoryOk(AfterSubmit(h, i, s, e), n) && Extends(h, AfterSubmit(h, i, s, e))
  {
    hide VotesKeepAcks, HolderOk, CommitsOk, ReignOk, ElectionOk, CandidacyOk, BallotOk;
    var g := AfterSubmit(h, i, s, e);
    SubmitReigns(h, n, i, s, e);
    SameRecords(h, g, n);
    forall a | a in g.acks ensures AckOk(g, n, a) {
      if a in h.acks { assert AckOk(h, n, a); }
    }
    SubmitVotes(h, g, n, i, s);
  }

  lemma SubmitReigns(h: History, n: nat, i: nat, s: Server, e: Entry)
    requires HistoryOk(h, n) && s.currentTerm in h.reigns && e.term == s.currentTerm
    ensures Extends(h, AfterSubmit(h, i, s, e))
    ensures forall t {:trigger ReignOk(AfterSubmit(h, i, s, e), n, t)} ::
              t in AfterSubmit(h, i, s, e).reigns ==> ReignOk(AfterSubmit(h, i, s, e), n, t)
    ensures forall t {:trigger ElectionOk(AfterSubmit(h, i, s, e), n, t)} ::
              t in AfterSubmit(h, i, s, e).reigns ==> ElectionOk(AfterSubmit(h, i, s, e), n, t)
  {
    hide VotesKeepAcks, UniqueVotes;
    var g := AfterSubmit(h, i, s, e);
    assert Extends(h, g);
    forall t | t in g.reigns ensures ReignOk(g, n, t) && ElectionOk(g, n, t) {
      assert ReignOk(h, n, t) && ElectionOk(h, n, t);
      if t == s.currentTerm {
        GrownReign(h, n, i, s, e);
      } else {
        GoodExtends(h, g, h.reigns[t].base);
        GoodExtends(h, g, h.reigns[t].log);
      }
    }
  }

  lemma SubmitVotes(h: History, g: History, n: nat, i: nat, s: Server)
    requires VotesKeepAcks(h, n) && VoterOk(h, n, i, s) && Extends(h, g) && g.ballots == h.ballots
    requires forall a :: a in g.acks && a !in h.acks ==> a.server == i && a.term == s.currentTerm
    ensures VotesKeepAcks(g, n)
  {
    forall a, b | a in g.acks && b in g.ballots && a.server == b.voter && a.term < b.term
      ensures AckOk(g, n, a) && AckKept(g, a, g.ballots[b], b.term)
    {
      assert a in h.acks;
      AckKeptExtends(h, g, a, h.ballots[b], b.term, h.ballots[b], b.term);
    }
  }

  lemma SubmitHolder(h: History, n: nat, i: nat, s: Server, t: Server, e: Entry)
    requires HolderOk(h, n, i, s) && s.currentTerm in h.reigns && i < n
    requires t.currentTerm == s.currentTerm && t.Full() == s.Full() + [e] && e.term == s.currentTerm
    requires h.reigns[s.currentTerm].log == s.Full() && Extends(h, AfterSubmit(h, i, s, e))
    ensures HolderOk(AfterSubmit(h, i, s, e), n, i, t)
  {
    var g := AfterSubmit(h, i, s, e);
    forall a | a in g.acks && a.server == i ensures AckHeld(g, n, t, a) {
      if a in h.acks {
        assert AckHeld(h, n, s, a);
        AckKeptExtends(h, g, a, s.Full(), s.currentTerm + 1, t.Full(), t.currentTerm + 1);
      } else {
        assert g.reigns[a.term].log[..a.index + 1] == t.Full();
        FreshAck(g, a, t.Full(), t.currentTerm + 1);
      }
    }
    forall f | f in g.refusals && f.server == i ensures RefusalHeld(g, t, f) {
      assert RefusalHeld(h, s, f);
    }
  }

  lemma SubmitLeader(h: History, n: nat, i: nat, s: Server, t: Server, e: Entry)
    requires LeaderOk(h, n, i, s) && s.role == Leader && Extends(h, AfterSubmit(h, i, s, e))
    requires t == s.(log := t.log) && t.Full() == s.Full() + [e]
    ensures LeaderOk(AfterSubmit(h, i, s, e), n, i, t)
  {
    forall p | 0 <= p < n && p != i ensures PeerOk(AfterSubmit(h, i, s, e), t, p) {
      assert PeerOk(h, s, p);
    }
  }

  lemma SubmitServer(h: History, n: nat, i: nat, s: Server, command: Command)
    requires HistoryOk(h, n) && ServerOk(h, n, i, s) && i < n && s.role == Leader
    ensures ServerOk(AfterSubmit(h, i, s, Entry(s.currentTerm, command)), n, i, RaftServer.Start(s, command))
  {
    hide HistoryOk, HolderOk, ReignOk, Good, Extends, AfterSubmit, VoterOk;
    var e, t := Entry(s.currentTerm, command), RaftServer.Start(s, command);
    SubmitHistory(h, n, i, s, e);
    assert t.Full() == s.Full() + [e];
    SubmitHolder(h, n, i, s, t, e);
    SubmitLeader(h, n, i, s, t, e);
    SubmitVoter(h, n, i, s, t, e);
    SubmitLocal(h, n, i, s, t, e);
    CommitExtends(h, AfterSubmit(h, i, s, e), n, s.currentTerm, s.Full(), s.commitIndex, t.currentTerm, t.Full());
    CommitExtends(h, AfterSubmit(h, i, s, e), n, s.currentTerm, s.Full(), s.snapshotIndex, t.currentTerm, t.Full());
  }

  lemma SubmitVoter(h: History, n: nat, i: nat, s: Server, t: Server, e: Entry)
    requires VoterOk(h, n, i, s) && s.role == Leader && s.currentTerm in h.reigns
    requires t == s.(log := t.log)
    ensures VoterOk(AfterSubmit(h, i, s, e), n, i, t)
  {
  }

  lemma SubmitLocal(h: History, n: nat, i: nat, s: Server, t: Server, e: Entry)
    requires LocalOk(h, s) && s.currentTerm in h.reigns && h.reigns[s.currentTerm].log == s.Full()
    requires HistoryOk(AfterSubmit(h, i, s, e), n) && e.term == s.currentTerm && t == s.(log := s.log.Append(e))
    ensures LocalOk(AfterSubmit(h, i, s, e), t)
  {
    assert t.Full() == s.Full() + [e];
    LeaderLogGood(AfterSubmit(h, i, s, e), n, s.currentTerm);
  }

  lemma LeaderLogGood(g: History, n: nat, term: nat)
    requires HistoryOk(g, n) && term in g.reigns
    ensures Good(g, g.reigns[term].log)
  {
    assert ReignOk(g, n, term);
  }

  /** No other server is the leader of this term, so its records are untouched. */
  lemma SubmitSilent(h: History, n: nat, i: nat, s: Server, e: Entry, j: nat)
    requires HistoryOk(h, n) && s.currentTerm in h.reigns && h.reigns[s.currentTerm].leader == i && j != i
    ensures Silent(h, AfterSubmit(h, i, s, e), j)
  {
  }

  lemma SubmitKeeps(h: History, c: Cluster, step: Step) returns (g: History)
    requires Invariant(h, c) && Enabled(c, step) && step.Submit?
    ensures Extends(h, g) && Invariant(g, Apply(c, step))
  {
    hide HolderOk, CommitsOk, LocalOk, VoterOk, HistoryOk;
    var s, n, i := c.servers[step.i], |c.servers|, step.i;
    assert ServerOk(h, n, i, s);
    var e := Entry(s.currentTerm, step.command);
    g := AfterSubmit(h, i, s, e);
    SubmitHistory(h, n, i, s, e);
    SubmitServer(h, n, i, s, step.command);
    forall j | 0 <= j < n && j != i ensures Silent(h, g, j) { SubmitSilent(h, n, i, s, e, j); }
    OthersKeep(h, g, c, i);
    Assemble(h, g, c, step);
  }

  // ---------------------------------------------------------------- sending entries

  lemma ReplicateAppend(h: History, n: nat, i: nat, s: Server, peer: nat)
    requires HistoryOk(h, n) && ServerOk(h, n, i, s) && s.role == Leader && peer < n && peer != i && SendsEntries(s, peer)
    ensures AppendOk(h, n, peer, AppendArgsFor(s, i, peer))
  {
    assert PeerOk(h, s, peer) && ReignOk(h, n, s.currentTerm);
    var args, prev := AppendArgsFor(s, i, peer), s.nextIndex[peer] - 1;
    FullAt(h, s, prev);
    assert s.Full()[prev + 1..] == s.log.Slice(prev + 1);
  }

  lemma ReplicateKeeps(h: History, c: Cluster, step: Step)
    requires Invariant(h, c) && Enabled(c, step) && step.Replicate?
    ensures Invariant(h, Apply(c, step))
  {
    hide HistoryOk, AppendArgsFor;
    assert ServerOk(h, |c.servers|, step.i, c.servers[step.i]);
    ReplicateAppend(h, |c.servers|, step.i, c.servers[step.i], step.peer);
    AssembleSame(h, c, step);
  }

  // ---------------------------------------------------------------- replies

  /** The servers a leader counts for an index have acknowledged it. */
  lemma HoldersAcked(h: History, n: nat, i: nat, s: Server, m: nat)
    requires LeaderOk(h, n, i, s) && s.role == Leader && i < n && m > 0 && |s.log.entries| > 0
    requires |s.Full()| == s.log.LastIndex() + 1
    ensures forall v :: v in Holding(s.matchIndex[i := s.log.LastIndex()], m) ==> AckedTo(h, v, s.currentTerm, m)
  {
    var xs := s.matchIndex[i := s.log.LastIndex()];
    forall v | v in Holding(xs, m) ensures AckedTo(h, v, s.currentTerm, m) {
      if v == i {
        assert Ack(i, s.currentTerm, |s.Full()| - 1) in h.acks;
      } else {
        assert PeerOk(h, s, v);
      }
    }
  }

  /** What the commit rule picks is certified: by a majority in the leader's term, or by everybody. */
  lemma CommitRule(h: History, n: nat, i: nat, s: Server)
    requires LeaderOk(h, n, i, s) && s.role == Leader && i < n && LocalOk(h, s)
    requires CommitSafe(s, i)
    requires CommitOk(h, n, s.currentTerm, s.Full(), s.commitIndex)
    ensures CommitOk(h, n, s.currentTerm, s.Full(), LeaderCommit(s, i).commitIndex)
  {
    hide Good, AtMost, PeerOk, SortInts, Holding, Servers;
    var xs := s.matchIndex[i := s.log.LastIndex()];
    var sorted := SortInts(xs);
    var c := sorted[QuorumPosition(n)];
    if LeaderCommit(s, i).commitIndex != s.commitIndex {
      QuorumIndex(xs, c);
      HoldersAcked(h, n, i, s, c);
      FullAt(h, s, c);
      assert Certified(h, n, s.currentTerm, c, Holding(xs, c));
      assert Committed(h, n, s.currentTerm, c);
      assert Backed(h, n, s.currentTerm, s.Full(), c);
    }
  }

  /** A reply never sends the leader to an index outside its retained log. */
  lemma ReplyNeverPanics(h: History, n: nat, i: nat, s: Server, peer: nat, args: AppendArgs, reply: AppendReply)
    requires HistoryOk(h, n) && ServerOk(h, n, i, s) && i < n && AnswerOk(h, n, peer, args, reply) && args.leader == i
    ensures ReplySafe(s, i, peer, args, reply)
  {
    if args.term == s.currentTerm && s.role == Leader {
      if reply.success && s.matchIndex[peer] < args.prevLogIndex + |args.entries| {
        MatchedSafe(h, n, i, s, peer, args);
      }
    }
  }

  lemma MatchedSafe(h: History, n: nat, i: nat, s: Server, peer: nat, args: AppendArgs)
    requires HistoryOk(h, n) && ServerOk(h, n, i, s) && i < n && s.role == Leader
    requires peer < n && args.prevLogIndex + |args.entries| < |s.Full()|
    ensures CommitSafe(Matched(s, peer, args), i)
  {
    var t := Matched(s, peer, args);
    var xs := t.matchIndex[i := t.log.LastIndex()];
    var c := SortInts(xs)[QuorumPosition(n)];
    QuorumIndex(xs, c);
    var v := SomeHolder(xs, c);
    if v != i && v != peer { assert PeerOk(h, s, v); }
  }

  lemma SomeHolder(xs: seq<nat>, m: nat) returns (v: nat)
    requires |Holding(xs, m)| >= Majority(|xs|)
    ensures v < |xs| && xs[v] >= m
  {
    assert Holding(xs, m) != {};
    v :| v in Holding(xs, m);
  }

  lemma MatchedLeader(h: History, n: nat, i: nat, s: Server, peer: nat, args: AppendArgs)
    requires LeaderOk(h, n, i, s) && s.role == Leader && peer < n && peer != i
    requires AckedTo(h, peer, s.currentTerm, args.prevLogIndex + |args.entries|)
    requires |h.reigns[s.currentTerm].base| <= args.prevLogIndex + 1 + |args.entries| <= |s.Full()|
    requires s.matchIndex[peer] < args.prevLogIndex + |args.entries|
    ensures var m := args.prevLogIndex + |args.entries|;
            LeaderOk(h, n, i, Matched(s, peer, args).(nextIndex := s.nextIndex[peer := m + 1]))
  {
    var t := Matched(s, peer, args).(nextIndex := s.nextIndex[peer := args.prevLogIndex + |args.entries| + 1]);
    forall p | 0 <= p < n && p != i ensures PeerOk(h, t, p) { assert PeerOk(h, s, p); }
  }

  /** A leader that changed only its view of its peers and its commit index. */
  lemma ViewChanged(h: History, n: nat, i: nat, s: Server, t: Server)
    requires ServerOk(h, n, i, s) && LeaderOk(h, n, i, t)
    requires t == s.(nextIndex := t.nextIndex, matchIndex := t.matchIndex, commitIndex := t.commitIndex)
    requires CommitOk(h, n, s.currentTerm, s.Full(), t.commitIndex)
    ensures ServerOk(h, n, i, t)
  {
    hide CommitOk;
    LaterHolder(h, n, i, s, t);
  }

  lemma SuccessKeeps(h: History, n: nat, i: nat, s: Server, peer: nat, args: AppendArgs, reply: AppendReply)
    requires ServerOk(h, n, i, s) && i < n && AnswerOk(h, n, peer, args, reply) && args.leader == i && reply.success
    requires args.term == s.currentTerm && s.role == Leader && s.matchIndex[peer] < args.prevLogIndex + |args.entries|
    requires ReplySafe(s, i, peer, args, reply)
    ensures ServerOk(h, n, i, HandleReply(s, i, peer, args, reply))
  {
    hide HolderOk, VoterOk, LeaderOk, CommitOk, PeerOk;
    var m := args.prevLogIndex + |args.entries|;
    LeaderFacts(h, n, i, s);
    MatchedLeader(h, n, i, s, peer, args);
    var v := Matched(s, peer, args).(nextIndex := s.nextIndex[peer := m + 1]);
    CommitRule(h, n, i, v);
    var t := HandleReply(s, i, peer, args, reply);
    assert t == v.(commitIndex := LeaderCommit(v, i).commitIndex);
    SameLeader(h, n, i, v, t);
    ViewChanged(h, n, i, s, t);
  }

  lemma LeaderFacts(h: History, n: nat, i: nat, s: Server)
    requires LeaderOk(h, n, i, s) && s.role == Leader
    ensures s.currentTerm in h.reigns && |s.matchIndex| == |s.nextIndex| == n && h.reigns[s.currentTerm].log == s.Full()
  {
  }

  lemma AimLower(h: History, n: nat, i: nat, s: Server, peer: nat, next: nat)
    requires LeaderOk(h, n, i, s) && s.role == Leader && peer < n && peer != i
    requires s.matchIndex[peer] < next <= |s.Full()|
    requires Aimed(h, peer, s.currentTerm, next - 1)
    ensures LeaderOk(h, n, i, s.(nextIndex := s.nextIndex[peer := next]))
  {
    var t := s.(nextIndex := s.nextIndex[peer := next]);
    forall p | 0 <= p < n && p != i ensures PeerOk(h, t, p) { assert PeerOk(h, s, p); }
  }

  lemma OldMatchAims(h: History, n: nat, i: nat, s: Server, peer: nat, args: AppendArgs)
    requires LeaderOk(h, n, i, s) && s.role == Leader && peer < n && peer != i
    requires |h.reigns[s.currentTerm].base| <= args.prevLogIndex + 1 + |args.entries|
    requires s.matchIndex[peer] >= args.prevLogIndex + |args.entries|
    ensures s.matchIndex[peer] + 1 <= |s.Full()| && Aimed(h, peer, s.currentTerm, s.matchIndex[peer])
  {
    assert PeerOk(h, s, peer);
  }

  lemma KeptCommit(h: History, n: nat, i: nat, s: Server)
    requires ServerOk(h, n, i, s)
    ensures CommitOk(h, n, s.currentTerm, s.Full(), s.commitIndex)
  {
  }

  lemma OldSuccessKeeps(h: History, n: nat, i: nat, s: Server, peer: nat, args: AppendArgs, reply: AppendReply)
    requires ServerOk(h, n, i, s) && i < n && AnswerOk(h, n, peer, args, reply) && args.leader == i && reply.success
    requires args.term == s.currentTerm && s.role == Leader && s.matchIndex[peer] >= args.prevLogIndex + |args.entries|
    requires ReplySafe(s, i, peer, args, reply)
    ensures ServerOk(h, n, i, HandleReply(s, i, peer, args, reply))
  {
    hide HolderOk, VoterOk, CommitOk, CommitsOk, LocalOk;
    OldMatchAims(h, n, i, s, peer, args);
    AimLower(h, n, i, s, peer, s.matchIndex[peer] + 1);
    KeptCommit(h, n, i, s);
    ViewChanged(h, n, i, s, HandleReply(s, i, peer, args, reply));
  }

  lemma AckedLower(h: History, server: nat, term: nat, index: nat, lower: nat)
    requires AckedTo(h, server, term, index) && lower <= index
    ensures AckedTo(h, server, term, lower)
  {
  }

  /** Rolling back stays between what is known to match and the refused probe. */
  lemma RollbackAims(h: History, n: nat, i: nat, s: Server, peer: nat, args: AppendArgs, reply: AppendReply)
    requires ServerOk(h, n, i, s) && AnswerOk(h, n, peer, args, reply) && args.leader == i && !reply.success
    requires args.term == s.currentTerm && s.role == Leader && reply.term <= s.currentTerm
    requires reply.conflictIndex >= s.snapshotIndex ==> s.log.Holds(reply.conflictIndex)
    ensures var next := Max(s.matchIndex[peer] + 1, RolledBack(s, reply));
            s.matchIndex[peer] < next <= |s.Full()| && Aimed(h, peer, s.currentTerm, next - 1)
  {
    assert PeerOk(h, s, peer);
    var prev := args.prevLogIndex;
    assert RolledBack(s, reply) - 1 <= prev;
    if prev >= |h.reigns[args.term].base| {
      AckedLower(h, peer, args.term, prev, RolledBack(s, reply) - 1);
    }
  }

  lemma RollbackKeeps(h: History, n: nat, i: nat, s: Server, peer: nat, args: AppendArgs, reply: AppendReply)
    requires ServerOk(h, n, i, s) && AnswerOk(h, n, peer, args, reply) && args.leader == i && !reply.success
    requires args.term == s.currentTerm && s.role == Leader && reply.term <= s.currentTerm
    requires ReplySafe(s, i, peer, args, reply)
    ensures ServerOk(h, n, i, HandleReply(s, i, peer, args, reply))
  {
    hide HolderOk, VoterOk, CommitOk, PeerOk, Aimed;
    RollbackAims(h, n, i, s, peer, args, reply);
    AimLower(h, n, i, s, peer, Max(s.matchIndex[peer] + 1, RolledBack(s, reply)));
    ViewChanged(h, n, i, s, HandleReply(s, i, peer, args, reply));
  }

  lemma AcknowledgeServer(h: History, n: nat, i: nat, s: Server, peer: nat, args: AppendArgs, reply: AppendReply)
    requires HistoryOk(h, n) && ServerOk(h, n, i, s) && i < n && AnswerOk(h, n, peer, args, reply) && args.leader == i
    requires ReplySafe(s, i, peer, args, reply)
    ensures ServerOk(h, n, i, HandleReply(s, i, peer, args, reply))
  {
    hide HistoryOk, ServerOk, AnswerOk, LeaderCommit, RolledBack;
    if args.term == s.currentTerm && s.role == Leader {
      if reply.success {
        if s.matchIndex[peer] < args.prevLogIndex + |args.entries| {
          SuccessKeeps(h, n, i, s, peer, args, reply);
        } else {
          OldSuccessKeeps(h, n, i, s, peer, args, reply);
        }
      } else if reply.term > s.currentTerm {
        StepDownKeeps(h, n, i, s, reply.term);
      } else {
        RollbackKeeps(h, n, i, s, peer, args, reply);
      }
    }
  }

  lemma AcknowledgeKeeps(h: History, c: Cluster, step: Step)
    requires Invariant(h, c) && Enabled(c, step) && step.Acknowledge?
    ensures Invariant(h, Apply(c, step))
  {
    hide HistoryOk, ServerOk, AnswerOk, HandleReply, ReplySafe;
    assert ServerOk(h, |c.servers|, step.i, c.servers[step.i]);
    assert MessageOk(h, |c.servers|, AppendResponse(step.peer, step.append, step.answer));
    AcknowledgeServer(h, |c.servers|, step.i, c.servers[step.i], step.peer, step.append, step.answer);
    AssembleSame(h, c, step);
  }
}
