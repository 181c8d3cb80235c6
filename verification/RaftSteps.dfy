/** Every step of the cluster keeps the invariant, with a history that only grows. */
module RaftSteps {
  import opened RaftLog
  import opened RaftServer
  import opened RaftCluster
  import opened RaftHistory
  import opened RaftInvariant

  lemma ExtendsSelf(h: History)
    ensures Extends(h, h)
  {
  }

  /** Servers the step did not touch, when no term got a new leader. */
  lemma OthersKeep(h: History, g: History, c: Cluster, i: nat)
    requires Invariant(h, c) && Extends(h, g) && g.reigns.Keys == h.reigns.Keys
    requires forall j :: 0 <= j < |c.servers| && j != i ==> Silent(h, g, j)
    ensures forall j {:trigger ServerOk(g, |c.servers|, j, c.servers[j])} ::
              0 <= j < |c.servers| && j != i ==> ServerOk(g, |c.servers|, j, c.servers[j])
  {
    forall j {:trigger ServerOk(g, |c.servers|, j, c.servers[j])} | 0 <= j < |c.servers| && j != i
      ensures ServerOk(g, |c.servers|, j, c.servers[j])
    {
      assert ServerOk(h, |c.servers|, j, c.servers[j]);
      ServerExtends(h, g, |c.servers|, j, c.servers[j]);
    }
  }

  lemma Assemble(h: History, g: History, c: Cluster, step: Step)
    requires Invariant(h, c) && Enabled(c, step) && Extends(h, g) && HistoryOk(g, |c.servers|)
    requires forall j {:trigger ServerOk(g, |c.servers|, j, c.servers[j])} ::
               0 <= j < |c.servers| && j != step.i ==> ServerOk(g, |c.servers|, j, c.servers[j])
    requires ServerOk(g, |c.servers|, step.i, Effect(c, step).0)
    requires forall m :: m in Effect(c, step).1 ==> MessageOk(g, |c.servers|, m)
    ensures Invariant(g, Apply(c, step))
  {
    var d := Apply(c, step);
    forall m | m in d.msgs ensures MessageOk(g, |c.servers|, m) {
      if m in c.msgs {
        assert MessageOk(h, |c.servers|, m);
        MessageExtends(h, g, |c.servers|, m);
      }
    }
    forall j | 0 <= j < |d.servers| ensures ServerOk(g, |d.servers|, j, d.servers[j]) {
      if j != step.i { assert ServerOk(g, |c.servers|, j, c.servers[j]); }
    }
  }

  /** A step that leaves the history alone. */
  lemma AssembleSame(h: History, c: Cluster, step: Step)
    requires Invariant(h, c) && Enabled(c, step)
    requires ServerOk(h, |c.servers|, step.i, Effect(c, step).0)
    requires forall m :: m in Effect(c, step).1 ==> MessageOk(h, |c.servers|, m)
    ensures Invariant(h, Apply(c, step))
  {
    ExtendsSelf(h);
    OthersKeep(h, h, c, step.i);
    Assemble(h, h, c, step);
  }

  // ---------------------------------------------------------------- stepping down

  lemma StepDownVoter(h: History, n: nat, i: nat, s: Server, term: nat)
    requires HistoryOk(h, n) && VoterOk(h, n, i, s)
    requires term > s.currentTerm || (term == s.currentTerm && s.role == Candidate && term in h.reigns)
    ensures VoterOk(h, n, i, StepDown(s, term))
  {
    if term in h.reigns { assert ElectionOk(h, n, term); }
  }

  lemma LaterHolder(h: History, n: nat, i: nat, s: Server, t: Server)
    requires HolderOk(h, n, i, s) && t.Full() == s.Full() && t.currentTerm >= s.currentTerm
    ensures HolderOk(h, n, i, t)
  {
    ExtendsSelf(h);
    forall a | a in h.acks && a.server == i ensures AckHeld(h, n, t, a) {
      assert AckHeld(h, n, s, a);
      AckKeptExtends(h, h, a, s.Full(), s.currentTerm + 1, t.Full(), t.currentTerm + 1);
    }
    forall f | f in h.refusals && f.server == i ensures RefusalHeld(h, t, f) {
      assert RefusalHeld(h, s, f);
    }
  }

  lemma LaterCommits(h: History, n: nat, s: Server, t: Server)
    requires CommitsOk(h, n, s) && t.Full() == s.Full() && t.currentTerm >= s.currentTerm
    requires t.commitIndex == s.commitIndex || t.commitIndex == 0
    requires t.snapshotIndex == s.snapshotIndex
    ensures CommitsOk(h, n, t)
  {
    ExtendsSelf(h);
    CommitExtends(h, h, n, s.currentTerm, s.Full(), s.commitIndex, t.currentTerm, t.Full());
    CommitExtends(h, h, n, s.currentTerm, s.Full(), s.snapshotIndex, t.currentTerm, t.Full());
  }

  lemma StepDownKeeps(h: History, n: nat, i: nat, s: Server, term: nat)
    requires HistoryOk(h, n) && ServerOk(h, n, i, s)
    requires term > s.currentTerm || (term == s.currentTerm && s.role == Candidate && term in h.reigns)
    ensures ServerOk(h, n, i, StepDown(s, term))
  {
    StepDownVoter(h, n, i, s, term);
    LaterHolder(h, n, i, s, StepDown(s, term));
    LaterCommits(h, n, s, StepDown(s, term));
  }

  lemma VoteRefusedKeeps(h: History, c: Cluster, step: Step)
    requires Invariant(h, c) && Enabled(c, step) && step.VoteRefused?
    ensures Invariant(h, Apply(c, step))
  {
    assert ServerOk(h, |c.servers|, step.i, c.servers[step.i]);
    StepDownKeeps(h, |c.servers|, step.i, c.servers[step.i], step.reply.term);
    AssembleSame(h, c, step);
  }

  // ---------------------------------------------------------------- restart and compaction

  lemma RebootKeeps(h: History, c: Cluster, step: Step)
    requires Invariant(h, c) && Enabled(c, step) && step.Reboot?
    ensures Invariant(h, Apply(c, step))
  {
    var s := c.servers[step.i];
    assert ServerOk(h, |c.servers|, step.i, s);
    LaterHolder(h, |c.servers|, step.i, s, Restart(s));
    LaterCommits(h, |c.servers|, s, Restart(s));
    AssembleSame(h, c, step);
  }

  lemma CompactFull(s: Server, index: nat)
    requires s.log.index0 == s.snapshotIndex < index && |s.snapshot| == s.snapshotIndex + 1 && s.log.Holds(index)
    ensures Compact(s, index).Full() == s.Full()
    ensures |Compact(s, index).snapshot| == index + 1 && |Compact(s, index).log.entries| > 0
    ensures Compact(s, index).log.entries[0] == Compact(s, index).snapshot[index]
    ensures Compact(s, index).log.entries[0].term == Compact(s, index).snapshotTerm
  {
    assert s.Full()[index + 1..] == s.log.entries[index - s.log.index0..][1..];
  }

  lemma TruncateKeeps(h: History, c: Cluster, step: Step)
    requires Invariant(h, c) && Enabled(c, step) && step.Truncate?
    ensures Invariant(h, Apply(c, step))
  {
    var s, n := c.servers[step.i], |c.servers|;
    assert ServerOk(h, n, step.i, s);
    var t := Compact(s, step.index);
    CompactFull(s, step.index);
    LaterHolder(h, n, step.i, s, t);
    ExtendsSelf(h);
    ShorterCommit(h, n, s.currentTerm, s.Full(), s.commitIndex, step.index);
    SameLeader(h, n, step.i, s, t);
    AssembleSame(h, c, step);
  }

  /** Raising the commit index to a snapshot, as a restarted server does, keeps the invariant. */
  lemma BookKeeps(h: History, c: Cluster, step: Step)
    requires Invariant(h, c) && Enabled(c, step) && step.Book?
    ensures Invariant(h, Apply(c, step))
  {
    var s, n := c.servers[step.i], |c.servers|;
    assert ServerOk(h, n, step.i, s);
    var t := BookSnapshot(s, step.index);
    ShorterCommit(h, n, s.currentTerm, s.Full(), s.snapshotIndex, step.index);
    LaterHolder(h, n, step.i, s, t);
    SameLeader(h, n, step.i, s, t);
    AssembleSame(h, c, step);
  }

  lemma ShorterCommit(h: History, n: nat, term: nat, log: seq<Entry>, index: nat, lower: nat)
    requires CommitOk(h, n, term, log, index) && lower <= index
    ensures CommitOk(h, n, term, log, lower)
  {
    if lower > 0 {
      var t: nat :| t <= term && Backed(h, n, t, log, index);
      var c, q :| index <= c && Certified(h, n, t, c, q);
      assert h.reigns[t].log[..lower + 1] == h.reigns[t].log[..index + 1][..lower + 1];
      assert Backed(h, n, t, log, lower);
    }
  }

  lemma SameLeader(h: History, n: nat, i: nat, s: Server, t: Server)
    requires LeaderOk(h, n, i, s) && t.Full() == s.Full() && t.currentTerm == s.currentTerm && t.role == s.role
    requires t.matchIndex == s.matchIndex && t.nextIndex == s.nextIndex
    ensures LeaderOk(h, n, i, t)
  {
    if s.role == Leader {
      forall p | 0 <= p < n && p != i ensures PeerOk(h, t, p) { assert PeerOk(h, s, p); }
    }
  }
}
