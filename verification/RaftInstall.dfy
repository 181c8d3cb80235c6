/** Sending, installing and acknowledging snapshots keeps the invariant where the terms agree. */
module RaftInstall {
  import opened RaftLog
  import opened RaftServer
  import opened RaftCluster
  import opened RaftHistory
  import opened RaftInvariant
  import opened RaftAppend
  import opened RaftSteps
  import opened RaftReplication
  import opened RaftLeading

  // ---------------------------------------------------------------- sending

  lemma SnapshotSent(h: History, n: nat, i: nat, s: Server, peer: nat)
    requires ServerOk(h, n, i, s) && s.role == Leader && peer < n && peer != i
    requires s.nextIndex[peer] - 1 < s.snapshotIndex
    ensures InstallOk(h, n, peer, InstallArgsFor(s, i))
  {
    hide HolderOk, VoterOk, Good, AtMost, CommitOk;
    assert PeerOk(h, s, peer);
    assert s.Full()[..s.snapshotIndex + 1] == s.snapshot;
  }

  lemma SendSnapshotKeeps(h: History, c: Cluster, step: Step)
    requires Invariant(h, c) && Enabled(c, step) && step.SendSnapshot?
    ensures Invariant(h, Apply(c, step))
  {
    hide HistoryOk, InstallArgsFor, InstallOk;
    assert ServerOk(h, |c.servers|, step.i, c.servers[step.i]);
    SnapshotSent(h, |c.servers|, step.i, c.servers[step.i], step.peer);
    AssembleSame(h, c, step);
  }

  // ---------------------------------------------------------------- installing

  /** A follower of the sender, in its term. */
  ghost predicate Following(h: History, n: nat, i: nat, t: Server, args: InstallArgs) {
    && HistoryOk(h, n) && ServerOk(h, n, i, t) && InstallOk(h, n, i, args)
    && t.currentTerm == args.term && t.role == Follower
  }

  lemma FollowsSender(h: History, n: nat, i: nat, s: Server, args: InstallArgs)
    requires HistoryOk(h, n) && ServerOk(h, n, i, s) && InstallOk(h, n, i, args) && args.term >= s.currentTerm
    ensures Following(h, n, i, AfterTerm(s, args.term), args)
  {
    hide HistoryOk, HolderOk, CommitsOk, VoterOk;
    if args.term > s.currentTerm || s.role == Candidate {
      StepDownKeeps(h, n, i, s, args.term);
    }
  }

  /** What the follower committed, and its snapshot point, is in the sender's log. */
  lemma CommonWithSender(h: History, n: nat, i: nat, t: Server, args: InstallArgs)
    requires Following(h, n, i, t, args)
    ensures t.Full()[..t.commitIndex + 1] <= h.reigns[args.term].log
    ensures t.Full()[..t.snapshotIndex + 1] <= h.reigns[args.term].log
  {
    CommittedInLeader(h, n, t.currentTerm, t.Full(), t.commitIndex, args.term);
    CommittedInLeader(h, n, t.currentTerm, t.Full(), t.snapshotIndex, args.term);
  }

  lemma PrefixHeld(log: seq<Entry>, led: seq<Entry>, k: nat, index: nat)
    requires index <= k < |log| && log[..k + 1] <= led
    ensures led[..index + 1] <= log
  {
    assert led[..index + 1] == log[..k + 1][..index + 1];
  }

  /** An old snapshot: what it covers is committed on the follower, which holds it. */
  lemma OldSnapshot(h: History, n: nat, i: nat, t: Server, lastApplied: nat, args: InstallArgs)
    requires Following(h, n, i, t, args) && InstallSafe(t) && !IsNews(t, lastApplied, args)
    requires lastApplied <= Max(t.commitIndex, t.snapshotIndex)
    ensures h.reigns[args.term].log[..args.lastIncludedIndex + 1] <= t.Full()
  {
    hide HistoryOk, HolderOk, VoterOk, LeaderOk, Good, AtMost;
    CommonWithSender(h, n, i, t, args);
    var led, index := h.reigns[args.term].log, args.lastIncludedIndex;
    if index <= t.snapshotIndex {
      PrefixHeld(t.Full(), led, t.snapshotIndex, index);
    } else {
      PrefixHeld(t.Full(), led, t.commitIndex, index);
    }
  }

  /** The snapshot point of the sender is committed in any log that has it. */
  lemma SnapshotCommitted(h: History, n: nat, i: nat, args: InstallArgs, log: seq<Entry>)
    requires InstallOk(h, n, i, args) && h.reigns[args.term].log[..args.lastIncludedIndex + 1] <= log
    ensures CommitOk(h, n, args.term, log, args.lastIncludedIndex)
  {
    LeaderCommitReached(h, n, args.term, h.reigns[args.term].log, args.lastIncludedIndex, args.lastIncludedIndex + 1, log);
  }

  /** With the terms agreeing, cutting the log at the snapshot leaves the same log as a whole. */
  lemma CutLog(h: History, n: nat, i: nat, t: Server, lastApplied: nat, args: InstallArgs)
    requires Following(h, n, i, t, args) && InstallSafe(t) && IsNews(t, lastApplied, args) && Agrees(t, args)
    requires t.log.LastIndex() > args.lastIncludedIndex
    ensures Installed(t, lastApplied, args).Full() == t.Full()
    ensures h.reigns[args.term].log[..args.lastIncludedIndex + 1] <= t.Full()
  {
    hide HistoryOk, HolderOk, VoterOk, LeaderOk, CommitsOk, CommitOk, Good;
    var index, led := args.lastIncludedIndex, h.reigns[args.term].log;
    FullAt(h, t, index);
    SenderGood(h, n, args.term);
    GoodMatch(h, t.Full(), led, index);
    CutJoins(t, index);
  }

  lemma SenderGood(h: History, n: nat, term: nat)
    requires HistoryOk(h, n) && term in h.reigns
    ensures Good(h, h.reigns[term].log)
  {
    assert ReignOk(h, n, term);
  }

  lemma CutJoins(t: Server, index: nat)
    requires |t.snapshot| == t.log.index0 + 1 && t.log.index0 < index && t.log.Holds(index)
    ensures t.Full()[..index + 1] + t.log.CutOffHead(index).Behind() == t.Full()
  {
    assert t.Full()[index + 1..] == t.log.entries[index - t.log.index0..][1..];
  }

  lemma CutServer(h: History, n: nat, i: nat, t: Server, lastApplied: nat, args: InstallArgs)
    requires Following(h, n, i, t, args) && InstallSafe(t) && IsNews(t, lastApplied, args) && Agrees(t, args)
    requires t.log.LastIndex() > args.lastIncludedIndex
    ensures ServerOk(h, n, i, Installed(t, lastApplied, args))
  {
    hide HistoryOk, HolderOk, CommitOk, Good, AtMost, Log.Behind;
    CutLog(h, n, i, t, lastApplied, args);
    var u := Installed(t, lastApplied, args);
    LaterHolder(h, n, i, t, u);
    SnapshotCommitted(h, n, i, args, u.Full());
  }

  /** A log that ends at or before the snapshot is replaced by what the snapshot stands for. */
  lemma ReplacedLog(h: History, n: nat, i: nat, t: Server, lastApplied: nat, args: InstallArgs)
    requires Following(h, n, i, t, args) && InstallSafe(t) && IsNews(t, lastApplied, args)
    requires t.log.LastIndex() <= args.lastIncludedIndex
    ensures var led, u := h.reigns[args.term].log, Installed(t, lastApplied, args);
            && u.Full() == led[..args.lastIncludedIndex + 1] && KeepsCommon(t.Full(), led, u.Full())
            && LocalOk(h, u) && Tame(h, u.Full(), args.term)
  {
    hide HistoryOk, HolderOk, VoterOk, LeaderOk, CommitsOk, CommitOk, Good, AtMost, Tame;
    var index, led := args.lastIncludedIndex, h.reigns[args.term].log;
    FullAt(h, t, t.log.LastIndex());
    ReignBounds(h, n, args.term, index + 1);
    LongerKeeps(t.Full(), led, index + 1);
  }

  lemma LongerKeeps(log: seq<Entry>, led: seq<Entry>, end: nat)
    requires |log| <= end <= |led|
    ensures KeepsCommon(log, led, led[..end])
  {
    forall k | 0 <= k <= |log| && log[..k] == led[..k] ensures led[..end][..k] == log[..k] {
      assert led[..end][..k] == led[..k];
    }
  }

  lemma ReplacedServer(h: History, n: nat, i: nat, t: Server, lastApplied: nat, args: InstallArgs)
    requires Following(h, n, i, t, args) && InstallSafe(t) && IsNews(t, lastApplied, args)
    requires t.log.LastIndex() <= args.lastIncludedIndex
    ensures ServerOk(h, n, i, Installed(t, lastApplied, args))
  {
    hide HistoryOk, HolderOk, CommitOk, Good, AtMost, Tame, KeepsCommon, Log.Behind;
    ReplacedLog(h, n, i, t, lastApplied, args);
    CommonWithSender(h, n, i, t, args);
    var u, led := Installed(t, lastApplied, args), h.reigns[args.term].log;
    ReignBounds(h, n, args.term, |led|);
    MovedHolder(h, n, i, t, u);
    MovedCommit(h, n, args.term, t.Full(), t.commitIndex, led, u.Full());
    SnapshotCommitted(h, n, i, args, u.Full());
  }

  /** A follower after a request to install: it holds what the snapshot stands for. */
  lemma InstalledServer(h: History, n: nat, i: nat, t: Server, lastApplied: nat, args: InstallArgs)
    requires Following(h, n, i, t, args) && InstallSafe(t) && lastApplied <= Max(t.commitIndex, t.snapshotIndex)
    requires IsNews(t, lastApplied, args) ==> Agrees(t, args)
    ensures var u := Installed(t, lastApplied, args);
            && ServerOk(h, n, i, u) && u.currentTerm == args.term && u.role == Follower
            && h.reigns[args.term].log[..args.lastIncludedIndex + 1] <= u.Full()
  {
    hide HistoryOk, ServerOk, InstallOk, Agrees;
    if !IsNews(t, lastApplied, args) {
      OldSnapshot(h, n, i, t, lastApplied, args);
    } else if t.log.LastIndex() > args.lastIncludedIndex {
      CutLog(h, n, i, t, lastApplied, args);
      CutServer(h, n, i, t, lastApplied, args);
    } else {
      ReplacedLog(h, n, i, t, lastApplied, args);
      ReplacedServer(h, n, i, t, lastApplied, args);
    }
  }

  lemma SnapshotAck(h: History, n: nat, i: nat, t: Server, args: InstallArgs)
    requires HistoryOk(h, n) && ServerOk(h, n, i, t) && InstallOk(h, n, i, args) && t.currentTerm == args.term && i < n
    ensures AckOk(h, n, Ack(i, args.term, args.lastIncludedIndex))
    ensures forall b :: b in h.ballots && b.voter == i ==> b.term <= args.term
  {
  }

  lemma InstallSucceeds(h: History, c: Cluster, step: Step, t: Server) returns (g: History)
    requires Invariant(h, c) && Enabled(c, step) && step.Install?
    requires Following(h, |c.servers|, step.i, t, step.install) && InstallSafe(t)
    requires step.lastApplied <= Max(t.commitIndex, t.snapshotIndex)
    requires IsNews(t, step.lastApplied, step.install) ==> Agrees(t, step.install)
    requires Effect(c, step).0 == Installed(t, step.lastApplied, step.install)
    requires forall m :: m in Effect(c, step).1 ==> m.InstallResponse? && m.from == step.i && m.install == step.install
    ensures Extends(h, g) && Invariant(g, Apply(c, step))
  {
    hide HistoryOk, HolderOk, LeaderOk, CommitsOk, LocalOk, VoterOk, Installed, InstallSnapshot;
    var n, i, args := |c.servers|, step.i, step.install;
    var a := Ack(i, args.term, args.lastIncludedIndex);
    g := WithAck(h, a);
    SnapshotAck(h, n, i, t, args);
    InstalledServer(h, n, i, t, step.lastApplied, args);
    RecordAck(h, n, a);
    AckedServer(h, n, i, Installed(t, step.lastApplied, args), a);
    OthersKeep(h, g, c, i);
    InstallExtends(h, g, n, i, args);
    Assemble(h, g, c, step);
  }

  lemma InstallKeeps(h: History, c: Cluster, step: Step) returns (g: History)
    requires Invariant(h, c) && Enabled(c, step) && step.Install?
    ensures Extends(h, g) && Invariant(g, Apply(c, step))
  {
    hide HistoryOk, HolderOk, LeaderOk, CommitsOk, LocalOk, VoterOk, Installed;
    var s, n, i, args := c.servers[step.i], |c.servers|, step.i, step.install;
    assert ServerOk(h, n, i, s) && MessageOk(h, n, InstallRequest(i, args));
    g := h;
    if args.term < s.currentTerm {
      ExtendsSelf(h);
      AssembleSame(h, c, step);
    } else {
      FollowsSender(h, n, i, s, args);
      g := InstallSucceeds(h, c, step, AfterTerm(s, args.term));
    }
  }

  lemma InstallNeverPanics(h: History, n: nat, i: nat, s: Server)
    requires ServerOk(h, n, i, s)
    ensures InstallSafe(s)
  {
  }

  // ---------------------------------------------------------------- the reply

  lemma InstallReplyNeverPanics(h: History, n: nat, i: nat, s: Server, peer: nat, args: InstallArgs)
    requires ServerOk(h, n, i, s) && InstallOk(h, n, peer, args)
    ensures s.role == Leader ==> InstallReplySafe(s, peer, args)
  {
  }

  lemma AckedLeader(h: History, n: nat, i: nat, s: Server, peer: nat, args: InstallArgs)
    requires LeaderOk(h, n, i, s) && s.role == Leader && InstallOk(h, n, peer, args) && args.term == s.currentTerm
    requires args.leader == i && AckedTo(h, peer, args.term, args.lastIncludedIndex)
    ensures LeaderOk(h, n, i, s.(matchIndex := s.matchIndex[peer := args.lastIncludedIndex],
                                 nextIndex := s.nextIndex[peer := args.lastIncludedIndex + 1]))
  {
    var t := s.(matchIndex := s.matchIndex[peer := args.lastIncludedIndex],
                nextIndex := s.nextIndex[peer := args.lastIncludedIndex + 1]);
    forall p | 0 <= p < n && p != i ensures PeerOk(h, t, p) { assert PeerOk(h, s, p); }
  }

  lemma InstallReplyKeeps(h: History, n: nat, i: nat, s: Server, peer: nat, args: InstallArgs, term: nat)
    requires HistoryOk(h, n) && ServerOk(h, n, i, s) && MessageOk(h, n, InstallResponse(peer, args, term)) && args.leader == i
    requires args.term == s.currentTerm ==> s.role == Leader
    requires InstallReplySafe(s, peer, args)
    ensures ServerOk(h, n, i, HandleInstallReply(s, peer, args, term))
  {
    hide HistoryOk, HolderOk, VoterOk, LeaderOk, CommitOk, Good, AtMost;
    if args.term == s.currentTerm {
      if term > s.currentTerm {
        StepDownKeeps(h, n, i, s, term);
      } else if s.matchIndex[peer] < args.lastIncludedIndex {
        AckedLeader(h, n, i, s, peer, args);
        ViewChanged(h, n, i, s, HandleInstallReply(s, peer, args, term));
      }
    }
  }

  lemma InstallAckedKeeps(h: History, c: Cluster, step: Step)
    requires Invariant(h, c) && Enabled(c, step) && step.InstallAcked?
    ensures Invariant(h, Apply(c, step))
  {
    hide HistoryOk, ServerOk, MessageOk, HandleInstallReply, InstallReplySafe;
    var s, n, i := c.servers[step.i], |c.servers|, step.i;
    assert ServerOk(h, n, i, s) && MessageOk(h, n, InstallResponse(step.peer, step.install, step.term));
    InstallReplyKeeps(h, n, i, s, step.peer, step.install, step.term);
    AssembleSame(h, c, step);
  }
}
