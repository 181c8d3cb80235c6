/**
 * What each handler decides, on the whole logs of the servers and in both directions: when a vote is
 * granted, when entries are accepted, what a reply changes, and what survives a crash.
 */
module RaftRules {
  import opened RaftLog
  import opened RaftServer
  import opened RaftCluster
  import opened RaftHistory
  import opened RaftInvariant
  import opened RaftAppend
  import opened RaftReplication
  import opened RaftQuorum
  import opened RaftSafety
  import opened RaftNode

  // ---------------------------------------------------------------- votes

  /** A candidate of the term whose log ends as the request says. */
  predicate Asks(s: Server, args: VoteArgs) {
    && s.role == Candidate && s.currentTerm == args.term && s.votedFor == args.candidate
    && |s.Full()| > 0 && args.lastLogIndex == |s.Full()| - 1 && args.lastLogTerm == LastTerm(s.Full())
  }

  lemma AsksWhole(h: History, s: Server, i: nat)
    requires LocalOk(h, s) && s.role == Candidate && s.votedFor == i
    ensures Asks(s, ElectionArgs(s, i))
  {
    hide Good, AtMost;
    FullAt(h, s, s.log.LastIndex());
  }

  /** Every request for votes was sent by a server that stood for election then, with its whole log. */
  lemma {:induction false} RequestSent(run: seq<Cluster>, k: nat, args: VoteArgs) returns (j: nat)
    requires IsRun(run) && k < |run| && VoteRequest(args) in run[k].msgs
    ensures j <= k && args.candidate < |run[j].servers| && Asks(run[j].servers[args.candidate], args)
  {
    hide Asks, Enabled;
    if k == 0 {
      NothingSent(run, args);
    } else if VoteRequest(args) in run[k - 1].msgs {
      j := RequestSent(run, k - 1, args);
    } else {
      assert StepAt(run, k - 1);
      var step :| Enabled(run[k - 1], step) && run[k] == Apply(run[k - 1], step);
      SentByTimeout(run[k - 1], step, args);
      var h, g := RunHistory(run, k, k);
      InOrder(g, run[k], step.i);
      AsksWhole(g, run[k].servers[step.i], step.i);
      j := k;
    }
  }

  lemma NothingSent(run: seq<Cluster>, args: VoteArgs)
    requires IsRun(run)
    ensures VoteRequest(args) !in run[0].msgs
  {
  }

  lemma InOrder(h: History, c: Cluster, i: nat)
    requires Invariant(h, c) && i < |c.servers|
    ensures LocalOk(h, c.servers[i]) && ServerOk(h, |c.servers|, i, c.servers[i]) && HistoryOk(h, |c.servers|)
  {
    assert ServerOk(h, |c.servers|, i, c.servers[i]);
  }

  lemma SentByTimeout(c: Cluster, step: Step, args: VoteArgs)
    requires Enabled(c, step) && VoteRequest(args) !in c.msgs && VoteRequest(args) in Apply(c, step).msgs
    ensures step.i < |Apply(c, step).servers| && args.candidate == step.i
    ensures var t := Apply(c, step).servers[step.i];
            t.role == Candidate && t.votedFor == step.i && |t.log.entries| > 0 && args == ElectionArgs(t, step.i)
  {
    hide AppendEntries, RequestVote, HandleReply, InstallSnapshot, StepDown, BecomeLeader, Compact, Restart;
    assert VoteRequest(args) in Effect(c, step).1;
    OnlyTimeouts(c, step, args);
  }

  lemma OnlyTimeouts(c: Cluster, step: Step, args: VoteArgs)
    requires Enabled(c, step) && VoteRequest(args) in Effect(c, step).1
    ensures step.Timeout? && args == ElectionArgs(StartElection(c.servers[step.i], step.i), step.i)
  {
    hide AppendEntries, RequestVote, HandleReply, InstallSnapshot, StepDown, BecomeLeader, Compact, Restart,
         AppendSafe, ReplySafe, Granted, Servers;
  }

  /** The voter has given its vote of the term to another candidate. */
  predicate VotedForAnother(s: Server, args: VoteArgs) {
    args.term == s.currentTerm && s.votedFor != NOBODY && s.votedFor != args.candidate
  }

  /**
   * A vote is granted if and only if the request is not of an earlier term, the vote of its term is not
   * given to another, and the whole log of the candidate, as it was when it asked, is at least as up to
   * date as the voter's. The reply has the voter's old term; the voter takes the term and forgets the
   * vote of an earlier one.
   */
  lemma VotesExactly(run: seq<Cluster>, k: nat, i: nat, args: VoteArgs) returns (j: nat)
    requires IsRun(run) && k < |run| && i < |run[k].servers| && VoteRequest(args) in run[k].msgs
    ensures j <= k && args.candidate < |run[j].servers| && Asks(run[j].servers[args.candidate], args)
    ensures |run[k].servers[i].log.entries| > 0 && |run[k].servers[i].Full()| > 0
    ensures var s, asking := run[k].servers[i], run[j].servers[args.candidate].Full();
            var (t, reply) := RequestVote(s, args);
            && (reply.granted <==>
                  args.term >= s.currentTerm && !VotedForAnother(s, args) && UpToDate(asking, s.Full()))
            && reply.term == s.currentTerm
            && t == s.(currentTerm := Max(s.currentTerm, args.term),
                       role := if args.term > s.currentTerm then Follower else s.role,
                       votedFor := if reply.granted then args.candidate
                                   else if args.term > s.currentTerm then NOBODY else s.votedFor)
  {
    hide IsRun, Invariant, ServerOk, HistoryOk, Good, AtMost;
    j := RequestSent(run, k, args);
    var h, g := RunHistory(run, k, k);
    InOrder(g, run[k], i);
    var s := run[k].servers[i];
    FullAt(g, s, s.log.LastIndex());
  }

  // ---------------------------------------------------------------- entries

  /** The log holds an entry of the request's term just before the entries it carries. */
  predicate Matches(log: seq<Entry>, args: AppendArgs) {
    args.prevLogIndex < |log| && log[args.prevLogIndex].term == args.prevLogTerm
  }

  /** Behind the snapshot of the follower lies all that the request carries. */
  predicate AllBehind(s: Server, args: AppendArgs) {
    args.prevLogIndex + 1 + |args.entries| <= s.snapshotIndex
  }

  lemma BehindMatches(h: History, n: nat, i: nat, t: Server, args: AppendArgs)
    requires Receiving(h, n, i, t, args) && args.prevLogIndex < t.snapshotIndex
    ensures Matches(t.Full(), args)
  {
    hide HistoryOk, HolderOk, VoterOk, LeaderOk, Good, AtMost, CommitOk;
    CommonPast(h, n, i, t, args);
    var prev, led := args.prevLogIndex, h.reigns[args.term].log;
    assert t.Full()[..t.snapshotIndex + 1][prev] == led[prev];
  }

  lemma SuccessExactly(h: History, n: nat, i: nat, t: Server, args: AppendArgs)
    requires Receiving(h, n, i, t, args) && AppendSafe(t, args)
    ensures AppendEntries(t, args).1.success <==> Matches(t.Full(), args)
  {
    hide HistoryOk, HolderOk, VoterOk, LeaderOk, CommitsOk, Good, AtMost, AppendOk, Log.Place, Log.CutOffTail, FollowerCommit;
    if args.prevLogIndex < t.snapshotIndex {
      BehindMatches(h, n, i, t, args);
    } else if args.prevLogIndex <= t.log.LastIndex() {
      FullAt(h, t, args.prevLogIndex);
    } else {
      FullAt(h, t, t.log.LastIndex());
    }
  }

  /** The commit index after an accepted request, once the term is settled. */
  lemma CommitAfter(h: History, n: nat, i: nat, t: Server, args: AppendArgs)
    requires Receiving(h, n, i, t, args) && AppendSafe(t, args) && t.currentTerm == args.term && t.role == Follower
    requires AppendEntries(t, args).1.success
    ensures AppendEntries(t, args).0.commitIndex
            == if AllBehind(t, args) then t.commitIndex else Max(t.commitIndex, args.leaderCommit)
  {
    hide HistoryOk, HolderOk, VoterOk, LeaderOk, CommitsOk, Good, AtMost, CommitOk, Tame, KeepsCommon;
    AcceptedMoves(h, n, i, t, args);
    var u, end := AppendEntries(t, args).0, args.prevLogIndex + 1 + |args.entries|;
    assert |h.reigns[args.term].log[..end]| <= |u.Full()|;
    CommitShape(t, args);
  }

  lemma CommitShape(t: Server, args: AppendArgs)
    requires AppendSafe(t, args) && t.currentTerm == args.term && t.role == Follower && AppendEntries(t, args).1.success
    requires t.log.index0 == t.snapshotIndex && |t.snapshot| == t.snapshotIndex + 1
    ensures var u := AppendEntries(t, args).0;
            u.commitIndex == if AllBehind(t, args) || args.leaderCommit <= t.commitIndex || |u.Full()| == 0 then t.commitIndex
                             else Min(args.leaderCommit, |u.Full()| - 1)
  {
  }

  /** What a refusal leaves and says, once the term is settled. */
  lemma RefusalExactly(h: History, n: nat, i: nat, t: Server, args: AppendArgs)
    requires Receiving(h, n, i, t, args) && AppendSafe(t, args) && t.currentTerm == args.term && t.role == Follower
    requires !AppendEntries(t, args).1.success
    ensures var (u, reply) := AppendEntries(t, args);
            && |t.Full()| > 0 && u.commitIndex == t.commitIndex
            && u.Full() == (if args.prevLogIndex < |t.Full()| then t.Full()[..args.prevLogIndex] else t.Full())
            && reply.conflictIndex == Min(args.prevLogIndex, |t.Full()| - 1)
            && reply.conflictTerm == t.Full()[reply.conflictIndex].term
  {
    hide HistoryOk, HolderOk, VoterOk, LeaderOk, CommitsOk, CommitOk, Good, AtMost, Log.Place, Log.Behind, Log.CutOffTail;
    var prev := args.prevLogIndex;
    SuccessExactly(h, n, i, t, args);
    FullAt(h, t, t.log.LastIndex());
    if prev < |t.Full()| {
      FullAt(h, t, if prev < t.snapshotIndex then t.snapshotIndex else prev);
      if prev <= t.snapshotIndex { SnapshotMatches(h, n, i, t, args); }
      CutFull(t, prev);
    }
  }

  /** A request is never refused for what stands at the follower's snapshot or before it. */
  lemma SnapshotMatches(h: History, n: nat, i: nat, t: Server, args: AppendArgs)
    requires Receiving(h, n, i, t, args) && args.prevLogIndex <= t.snapshotIndex
    ensures Matches(t.Full(), args)
  {
    hide HistoryOk, HolderOk, VoterOk, LeaderOk, Good, AtMost, CommitOk;
    CommonPast(h, n, i, t, args);
    var prev, led := args.prevLogIndex, h.reigns[args.term].log;
    assert t.Full()[..t.snapshotIndex + 1][prev] == led[prev];
  }

  lemma EntersTerm(s: Server, args: AppendArgs)
    requires AppendSafe(s, args) && args.term >= s.currentTerm
    ensures var t, u := AfterTerm(s, args.term), AppendEntries(s, args).0;
            u == t.(log := u.log, commitIndex := u.commitIndex) && u.log.index0 == s.log.index0
  {
    hide Log.Place, Log.CutOffTail;
    if args.prevLogIndex <= s.log.LastIndex() { HeadsStay(s.log, args); }
  }

  lemma HeadsStay(log: Log, args: AppendArgs)
    ensures forall index: nat, a :: log.CanPlace(index, a) ==> log.Place(index, a).index0 == log.index0
    ensures forall index: nat :: log.Holds(index) ==> log.CutOffTail(index).index0 == log.index0
  {
  }

  /**
   * A request is accepted if and only if it is not of an earlier term and the follower's log has an entry
   * of the given term just before; what is behind the snapshot counts as well. An accepted request
   * brings the commit index up to the leader's, unless all it carries is behind the snapshot; a refused
   * one cuts the log before the conflict and names it. A request of an earlier term changes nothing.
   */
  lemma AcceptsExactly(run: seq<Cluster>, k: nat, i: nat, args: AppendArgs)
    requires IsRun(run) && k < |run| && i < |run[k].servers| && AppendRequest(i, args) in run[k].msgs
    ensures AppendSafe(run[k].servers[i], args) && |run[k].servers[i].Full()| > 0
    ensures var s := run[k].servers[i];
            var (u, reply) := AppendEntries(s, args);
            && (reply.success <==> args.term >= s.currentTerm && Matches(s.Full(), args))
            && reply.term == s.currentTerm
            && (args.term < s.currentTerm ==> u == s)
            && (args.term >= s.currentTerm ==>
                  && u == s.(currentTerm := args.term, role := Follower, log := u.log, commitIndex := u.commitIndex,
                             votedFor := if args.term > s.currentTerm || s.role == Candidate then NOBODY else s.votedFor)
                  && u.commitIndex == (if reply.success && !AllBehind(s, args) then Max(s.commitIndex, args.leaderCommit)
                                       else s.commitIndex)
                  && (!reply.success ==>
                        && u.Full() == (if args.prevLogIndex < |s.Full()| then s.Full()[..args.prevLogIndex] else s.Full())
                        && reply.conflictIndex == Min(args.prevLogIndex, |s.Full()| - 1)
                        && reply.conflictTerm == s.Full()[reply.conflictIndex].term))
  {
    hide IsRun, Invariant, HistoryOk, ServerOk, AppendOk, AppendSafe, AppendEntries, CommitsOk;
    var h, g := RunHistory(run, k, k);
    var s, n := run[k].servers[i], |run[k].servers|;
    InOrder(g, run[k], i);
    UnderWay(g, run[k], AppendRequest(i, args));
    AppendNeverPanics(g, n, i, s, args);
    StaleReply(s, args);
    if args.term >= s.currentTerm {
      EnterTerm(g, n, i, s, args);
      EntersTerm(s, args);
      var t := AfterTerm(s, args.term);
      SuccessExactly(g, n, i, t, args);
      if AppendEntries(t, args).1.success {
        CommitAfter(g, n, i, t, args);
      } else {
        RefusalExactly(g, n, i, t, args);
      }
    }
  }

  lemma UnderWay(h: History, c: Cluster, m: Message)
    requires Invariant(h, c) && m in c.msgs
    ensures MessageOk(h, |c.servers|, m)
  {
  }

  lemma StaleReply(s: Server, args: AppendArgs)
    requires AppendSafe(s, args)
    ensures AppendEntries(s, args).1.term == s.currentTerm
    ensures args.term < s.currentTerm ==> AppendEntries(s, args).0 == s && !AppendEntries(s, args).1.success
  {
  }

  // ---------------------------------------------------------------- replies

  /** Where the leader aims next: at the conflict itself, or at the last entry before it of another term. */
  predicate AimsAt(s: Server, reply: AppendReply, p: nat)
    requires reply.conflictIndex >= s.snapshotIndex ==> s.log.Holds(reply.conflictIndex)
  {
    var c := reply.conflictIndex;
    if c < s.snapshotIndex || s.log.At(c).term == reply.conflictTerm then p == c
    else
      && s.log.index0 <= p <= c && (p == s.log.index0 || s.log.At(p).term != s.log.At(c).term)
      && forall q :: p < q <= c ==> s.log.At(q).term == s.log.At(c).term
  }

  lemma {:induction false} StepsOver(log: Log, index: nat, term: nat)
    requires log.Holds(index)
    ensures var p := StepOver(log, index, term);
            && log.index0 <= p <= index && (p == log.index0 || log.At(p).term != term)
            && forall q :: p < q <= index ==> log.At(q).term == term
    decreases index
  {
    if log.At(index).term == term && index > log.index0 { StepsOver(log, index - 1, term); }
  }

  /**
   * What a reply changes on a leader of the request's term. A success moves the peer's indices past the
   * entries sent, never back, and commits by the commit rule. A refusal lowers the next index to the
   * place it aims at, but not to what is known to match.
   */
  lemma RepliesExactly(s: Server, me: nat, peer: nat, args: AppendArgs, reply: AppendReply, p: nat, c: nat)
    requires ReplySafe(s, me, peer, args, reply) && args.term == s.currentTerm && s.role == Leader && me < |s.matchIndex|
    requires !reply.success && reply.term <= s.currentTerm ==> AimsAt(s, reply, p)
    requires |s.log.entries| > 0
    requires HeldByMost(Known(Matched(s, peer, args), me), c)
    ensures reply.success ==>
              var t, sent := HandleReply(s, me, peer, args, reply), args.prevLogIndex + |args.entries|;
              && t.matchIndex == s.matchIndex[peer := Max(s.matchIndex[peer], sent)]
              && t.nextIndex == s.nextIndex[peer := Max(s.matchIndex[peer], sent) + 1]
              && t == s.(matchIndex := t.matchIndex, nextIndex := t.nextIndex, commitIndex := t.commitIndex)
              && (c > s.snapshotIndex && s.matchIndex[peer] < sent ==> s.log.Holds(c))
              && t.commitIndex
                 == if s.matchIndex[peer] < sent && c > s.commitIndex && c > s.snapshotIndex
                       && (s.log.At(c).term == s.currentTerm
                           || Holding(Known(Matched(s, peer, args), me), c) == Servers(|s.matchIndex|))
                    then c else s.commitIndex
    ensures !reply.success ==>
              HandleReply(s, me, peer, args, reply)
              == if reply.term > s.currentTerm then StepDown(s, reply.term)
                 else s.(nextIndex := s.nextIndex[peer := Max(s.matchIndex[peer], p) + 1])
  {
    hide CommitSafe, LeaderCommit, HeldByMost, Holding, SortInts, Servers;
    if reply.success {
      if s.matchIndex[peer] < args.prevLogIndex + |args.entries| {
        CommitsExactly(Matched(s, peer, args), me, c);
      }
    } else if reply.term <= s.currentTerm && reply.conflictIndex >= s.snapshotIndex {
      StepsOver(s.log, reply.conflictIndex, s.log.At(reply.conflictIndex).term);
      OneAim(s, reply, p);
    }
  }

  lemma OneAim(s: Server, reply: AppendReply, p: nat)
    requires reply.conflictIndex >= s.snapshotIndex ==> s.log.Holds(reply.conflictIndex)
    requires AimsAt(s, reply, p)
    ensures RolledBack(s, reply) == p + 1
  {
    var c := reply.conflictIndex;
    if c >= s.snapshotIndex && s.log.At(c).term != reply.conflictTerm {
      StepsOver(s.log, c, s.log.At(c).term);
    }
  }

  /** A reply to a snapshot moves the peer's indices past it, never back, and touches no other. */
  lemma SnapshotReplyExactly(s: Server, peer: nat, args: InstallArgs, term: nat)
    requires InstallReplySafe(s, peer, args)
    ensures var t, index := HandleInstallReply(s, peer, args, term), args.lastIncludedIndex;
            if args.term != s.currentTerm then t == s
            else if term > s.currentTerm then t.currentTerm == term && t.role == Follower && t.log == s.log
            else
              && t == s.(matchIndex := t.matchIndex, nextIndex := t.nextIndex)
              && |t.matchIndex| == |s.matchIndex| && |t.nextIndex| == |s.nextIndex|
              && t.matchIndex[peer] == Max(s.matchIndex[peer], index)
              && t.nextIndex[peer] == (if s.matchIndex[peer] < index then index + 1 else s.nextIndex[peer])
              && forall q :: 0 <= q < |s.matchIndex| && q != peer ==>
                   t.matchIndex[q] == s.matchIndex[q] && t.nextIndex[q] == s.nextIndex[q]
  {
  }

  // ---------------------------------------------------------------- sending and restarting

  /** In every run a leader's round carries, on whole logs, the suffix from the next index, or the snapshot. */
  lemma RoundInRun(run: seq<Cluster>, k: nat, i: nat, m: nat)
    requires IsRun(run) && k < |run| && i < |run[k].servers| && run[k].servers[i].role == Leader
    ensures RoundSafe(run[k].servers[i], i, |run[k].servers|)
    ensures var s := run[k].servers[i];
            m < |Round(s, i, |run[k].servers|)| && Round(s, i, |run[k].servers|)[m].Entries? ==>
              var args := Round(s, i, |run[k].servers|)[m].args;
              && args.term == s.currentTerm && args.leader == i && args.leaderCommit == s.commitIndex
              && args.prevLogIndex < |s.Full()| && args.prevLogTerm == s.Full()[args.prevLogIndex].term
              && args.entries == s.Full()[args.prevLogIndex + 1..]
  {
    hide IsRun, Invariant, ServerOk, HistoryOk, Good, AtMost, Round, Log.Behind;
    RoundNeverPanics(run, k, i);
    var s, n := run[k].servers[i], |run[k].servers|;
    var h, g := RunHistory(run, k, k);
    InOrder(g, run[k], i);
    RoundIs(s, i, n);
    if m < |Round(s, i, n)| && Round(s, i, n)[m].Entries? {
      var args := Round(s, i, n)[m].args;
      assert RightMessage(s, i, Round(s, i, n)[m]);
      FullAt(g, s, args.prevLogIndex);
      forall x | 0 <= x < |args.entries| ensures args.entries[x] == s.Full()[args.prevLogIndex + 1 + x] {
        FullAt(g, s, args.prevLogIndex + 1 + x);
      }
    }
  }

  /** The fields written to stable storage. */
  predicate SamePersisted(s: Server, t: Server) {
    && s.currentTerm == t.currentTerm && s.votedFor == t.votedFor && s.log.entries == t.log.entries
    && s.snapshot == t.snapshot && s.snapshotIndex == t.snapshotIndex && s.snapshotTerm == t.snapshotTerm
  }

  /** A restart depends on what was persisted and on nothing else, and brings all of it back. */
  lemma RestartPersists(s: Server, t: Server)
    ensures SamePersisted(s, Restart(s)) && (SamePersisted(s, t) ==> Restart(s) == Restart(t))
    ensures Restart(s).role == Follower && Restart(s).commitIndex == 0
    ensures Restart(Initial()) == Initial().(nextIndex := [], matchIndex := [])
  {
  }

  /**
   * A request that is accepted need not bring the commit index up: a restarted follower whose snapshot
   * reaches past all that the request carries accepts it and leaves its commit index at 0.
   */
  lemma AcceptedNotCommitted()
    ensures var e := Entry(1, Op("a"));
            var s := Server(1, NOBODY, Log([e], 2), [DUMMY, e, e], 2, 1, 0, Follower, [], []);
            var args := AppendArgs(1, 0, 0, 0, [e], 1);
            && AppendSafe(s, args) && Matches(s.Full(), args) && AppendEntries(s, args).1.success
            && args.leaderCommit < |s.Full()| && AppendEntries(s, args).0.commitIndex == 0
  {
  }

  /** Every handled request is answered on the network, and every step leaves the other servers alone. */
  lemma StepsAnswer(c: Cluster, step: Step)
    requires Enabled(c, step)
    ensures var d := Apply(c, step);
            && c.msgs <= d.msgs && |d.servers| == |c.servers|
            && (forall j :: 0 <= j < |c.servers| && j != step.i ==> d.servers[j] == c.servers[j])
            && (step.Vote? ==> exists r :: VoteResponse(step.i, step.args, r) in d.msgs && r.term == c.servers[step.i].currentTerm)
            && (step.Accept? ==>
                  exists r :: AppendResponse(step.i, step.append, r) in d.msgs && r.term == c.servers[step.i].currentTerm)
            && (step.Install? ==> InstallResponse(step.i, step.install, c.servers[step.i].currentTerm) in d.msgs)
  {
    hide HandleReply, InstallSnapshot, RequestVote, AppendEntries, HandleInstallReply, Compact, Restart, Granted, Servers;
    if step.Vote? {
      VoteReplyTerm(c.servers[step.i], step.args);
      assert VoteResponse(step.i, step.args, RequestVote(c.servers[step.i], step.args).1) in Apply(c, step).msgs;
    } else if step.Accept? {
      StaleReply(c.servers[step.i], step.append);
      assert AppendResponse(step.i, step.append, AppendEntries(c.servers[step.i], step.append).1) in Apply(c, step).msgs;
    }
  }

  lemma VoteReplyTerm(s: Server, args: VoteArgs)
    requires |s.log.entries| > 0
    ensures RequestVote(s, args).1.term == s.currentTerm
  {
  }

  /** What the steps that only one server notices leave behind. */
  lemma StepsLeave(c: Cluster, step: Step)
    requires Enabled(c, step)
    ensures var s, t := c.servers[step.i], Apply(c, step).servers[step.i];
            match step {
              case Timeout(i) => t == s.(currentTerm := s.currentTerm + 1, role := Candidate, votedFor := i)
              case VoteRefused(_, _, _, reply) =>
                t == s.(currentTerm := reply.term, role := Follower, votedFor := NOBODY) && reply.term > s.currentTerm
              case Elected(_, _) =>
                && t == s.(role := Leader, nextIndex := t.nextIndex, matchIndex := t.matchIndex)
                && |t.nextIndex| == |t.matchIndex| == |c.servers|
                && forall p :: 0 <= p < |c.servers| ==> t.nextIndex[p] == s.log.LastIndex() + 1 && t.matchIndex[p] == 0
              case Submit(_, command) =>
                && t == s.(log := t.log) && t.log.index0 == s.log.index0
                && t.log.entries == s.log.entries + [Entry(s.currentTerm, command)]
              case InstallAcked(_, peer, args, term) =>
                args.term == s.currentTerm && term <= s.currentTerm ==> t.matchIndex[peer] == Max(s.matchIndex[peer], args.lastIncludedIndex)
              case Reboot(_) => SamePersisted(s, t) && t.role == Follower && t.commitIndex == 0
              case Book(_, index) => t == s.(commitIndex := Max(s.commitIndex, index))
              case _ => true
            }
  {
    hide HandleReply, InstallSnapshot, RequestVote, AppendEntries, Compact, Granted, Servers;
  }

  /** In every reachable state every message under way can be handled by whom it is for, and a server may always restart. */
  lemma MessagesHandled(run: seq<Cluster>, k: nat, m: Message, i: nat, lastApplied: nat)
    requires IsRun(run) && k < |run| && m in run[k].msgs && i < |run[k].servers|
    ensures Enabled(run[k], Reboot(i))
    ensures m.VoteRequest? && m.args.candidate != i ==> Enabled(run[k], Vote(i, m.args))
    ensures m.VoteResponse? && m.args.candidate == i && !m.reply.granted && m.reply.term > run[k].servers[i].currentTerm ==>
              Enabled(run[k], VoteRefused(i, m.voter, m.args, m.reply))
    ensures m.AppendRequest? && m.to == i ==> Enabled(run[k], Accept(i, m.append))
    ensures m.AppendResponse? && m.append.leader == i ==> Enabled(run[k], Acknowledge(i, m.from, m.append, m.answer))
    ensures m.InstallRequest? && m.to == i && InstallSafe(run[k].servers[i]) && Agrees(run[k].servers[i], m.install)
            && lastApplied <= Max(run[k].servers[i].commitIndex, run[k].servers[i].snapshotIndex) ==>
              Enabled(run[k], Step.Install(i, m.install, lastApplied))
    ensures m.InstallResponse? && m.install.leader == i && run[k].servers[i].role == Leader ==>
              Enabled(run[k], InstallAcked(i, m.from, m.install, m.term))
  {
    hide IsRun, Invariant, ServerOk, HistoryOk, Good, AtMost, AppendSafe, ReplySafe, Agrees, Granted, Servers;
    var h, g := RunHistory(run, k, k);
    InOrder(g, run[k], i);
    HandlersNeverPanic(run, k, m);
  }
}
