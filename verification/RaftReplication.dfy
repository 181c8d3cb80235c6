/** Replication keeps the invariant: submitting, sending, accepting, refusing and committing. */
module RaftReplication {
  import opened RaftLog
  import opened RaftServer
  import opened RaftCluster
  import opened RaftHistory
  import opened RaftInvariant
  import opened RaftAppend
  import opened RaftSteps
  import opened RaftElections

  // ---------------------------------------------------------------- recording what a server holds

  function WithAck(h: History, a: Ack): History { h.(acks := h.acks + {a}) }

  function WithRefusal(h: History, f: Refusal): History { h.(refusals := h.refusals + {f}) }

  lemma RecordAck(h: History, n: nat, a: Ack)
    requires HistoryOk(h, n) && AckOk(h, n, a)
    requires forall b :: b in h.ballots && b.voter == a.server ==> b.term <= a.term
    ensures HistoryOk(WithAck(h, a), n) && Extends(h, WithAck(h, a))
  {
    var g := WithAck(h, a);
    SameReigns(h, g, n);
    SameRecords(h, g, n);
    forall a' | a' in g.acks ensures AckOk(g, n, a') {
      if a' != a { assert AckOk(h, n, a'); }
    }
    forall a', b | a' in g.acks && b in g.ballots && a'.server == b.voter && a'.term < b.term
      ensures AckOk(g, n, a') && AckKept(g, a', g.ballots[b], b.term)
    {
      assert a' in h.acks;
      AckKeptExtends(h, g, a', h.ballots[b], b.term, h.ballots[b], b.term);
    }
  }

  lemma SameRecords(h: History, g: History, n: nat)
    requires HistoryOk(h, n) && Extends(h, g) && g.runs == h.runs && g.ballots == h.ballots
    ensures forall k {:trigger CandidacyOk(g, k)} :: k in g.runs ==> CandidacyOk(g, k)
    ensures forall b {:trigger BallotOk(g, n, b)} :: b in g.ballots ==> BallotOk(g, n, b)
    ensures UniqueVotes(g)
  {
    forall k | k in g.runs ensures CandidacyOk(g, k) {
      assert CandidacyOk(h, k);
      GoodExtends(h, g, h.runs[k]);
    }
    forall b | b in g.ballots ensures BallotOk(g, n, b) {
      assert BallotOk(h, n, b);
      GoodExtends(h, g, h.ballots[b]);
    }
  }

  lemma RecordRefusal(h: History, n: nat, f: Refusal)
    requires HistoryOk(h, n)
    ensures HistoryOk(WithRefusal(h, f), n) && Extends(h, WithRefusal(h, f))
  {
    var g := WithRefusal(h, f);
    SameReigns(h, g, n);
    SameRecords(h, g, n);
    forall a | a in g.acks ensures AckOk(g, n, a) { assert AckOk(h, n, a); }
    SameVotes(h, g, n);
  }

  // ---------------------------------------------------------------- accepting and refusing entries

  /** The handler first brings the term and role up to date; the rest of it sees only the result. */
  lemma EnterTerm(h: History, n: nat, i: nat, s: Server, args: AppendArgs)
    requires Receiving(h, n, i, s, args) && AppendSafe(s, args)
    ensures var t := AfterTerm(s, args.term);
            && Receiving(h, n, i, t, args) && AppendSafe(t, args)
            && t.currentTerm == args.term && t.role == Follower
            && AppendEntries(t, args).0 == AppendEntries(s, args).0
            && AppendEntries(s, args).1 == AppendEntries(t, args).1.(term := s.currentTerm)
  {
    hide Log.Place, HistoryOk, HolderOk, CommitsOk;
    if args.term > s.currentTerm || s.role == Candidate {
      StepDownKeeps(h, n, i, s, args.term);
    }
  }

  /** The logs start at the same index, with the same term. */
  predicate SameHead(a: Log, b: Log) {
    a.index0 == b.index0 && |a.entries| > 0 && |b.entries| > 0 && a.entries[0].term == b.entries[0].term
  }

  /** What the handler leaves alone once the term is settled. */
  lemma AppendFrame(t: Server, args: AppendArgs)
    requires AppendSafe(t, args) && t.currentTerm == args.term && t.role == Follower
    requires t.log.index0 == t.snapshotIndex && |t.snapshot| == t.snapshotIndex + 1
    requires t.log.entries[0].term == t.snapshotTerm
    ensures var (u, reply) := AppendEntries(t, args);
            && u == t.(log := u.log, commitIndex := u.commitIndex) && SameHead(t.log, u.log)
            && (u.commitIndex == t.commitIndex ||
                (reply.success && args.leaderCommit > t.commitIndex && |u.Full()| > 0
                 && u.commitIndex == Min(args.leaderCommit, |u.Full()| - 1)))
  {
  }

  /** A log that keeps everything it shares with the leader of the current term keeps its promises. */
  lemma MovedHolder(h: History, n: nat, i: nat, t: Server, u: Server)
    requires HolderOk(h, n, i, t) && u.currentTerm == t.currentTerm && t.currentTerm in h.reigns
    requires h.reigns[t.currentTerm].base <= h.reigns[t.currentTerm].log
    requires KeepsCommon(t.Full(), h.reigns[t.currentTerm].log, u.Full())
    requires Refusal(i, t.currentTerm) in h.refusals ==> Tame(h, u.Full(), t.currentTerm)
    ensures HolderOk(h, n, i, u)
  {
    ExtendsSelf(h);
    forall a | a in h.acks && a.server == i ensures AckHeld(h, n, u, a) {
      assert AckHeld(h, n, t, a);
      MovedAck(h, n, t, u, a);
    }
    forall f | f in h.refusals && f.server == i ensures RefusalHeld(h, u, f) {
      assert RefusalHeld(h, t, f);
    }
  }

  lemma MovedAck(h: History, n: nat, t: Server, u: Server, a: Ack)
    requires AckHeld(h, n, t, a) && u.currentTerm == t.currentTerm && t.currentTerm in h.reigns
    requires h.reigns[t.currentTerm].base <= h.reigns[t.currentTerm].log
    requires KeepsCommon(t.Full(), h.reigns[t.currentTerm].log, u.Full())
    ensures AckHeld(h, n, u, a)
  {
    var term, led, hi := t.currentTerm, h.reigns[a.term].log, t.currentTerm + 1;
    forall k | 0 <= k <= a.index ensures Kept(h, a.term, k, u.Full(), hi) {
      assert Kept(h, a.term, k, t.Full(), hi);
      if led[..k + 1] <= t.Full() {
        if a.term == term || led[..k + 1] <= h.reigns[term].base {
          assert t.Full()[..k + 1] == h.reigns[term].log[..k + 1];
        } else {
          assert Missed(h, led[..k + 1], a.term, hi);
        }
      }
    }
  }

  lemma MovedLocal(h: History, t: Server, u: Server)
    requires LocalOk(h, t) && Good(h, u.Full()) && AtMost(u.Full(), t.currentTerm)
    requires u == t.(log := u.log, commitIndex := u.commitIndex) && SameHead(t.log, u.log)
    ensures LocalOk(h, u)
  {
  }

  lemma MovedCommit(h: History, n: nat, term: nat, log: seq<Entry>, index: nat, led: seq<Entry>, log': seq<Entry>)
    requires CommitOk(h, n, term, log, index) && log[..index + 1] <= led && KeepsCommon(log, led, log')
    ensures CommitOk(h, n, term, log', index)
  {
    ExtendsSelf(h);
    assert log[..index + 1] == led[..index + 1];
    assert log'[..index + 1] == log[..index + 1];
    CommitExtends(h, h, n, term, log, index, term, log');
  }

  lemma AbsorbedKeeps(log: seq<Entry>, led: seq<Entry>, end: nat, result: seq<Entry>)
    requires end <= |led| && Absorbed(log, led[..end], result)
    ensures led[..end] <= result && KeepsCommon(log, led, result)
  {
    if !(led[..end] <= log) {
      forall k | 0 <= k <= |log| && k <= |led|
        ensures log[..k] == led[..k] ==> k <= end && led[..end][..k] == log[..k]
      {
        LongerAgreement(log, led, end, k);
      }
    }
  }

  lemma LongerAgreement(log: seq<Entry>, led: seq<Entry>, end: nat, k: nat)
    requires end <= |led| && k <= |log| && k <= |led|
    ensures log[..k] == led[..k] && end <= k ==> led[..end] <= log
  {
    if log[..k] == led[..k] && end <= k { assert log[..end] == log[..k][..end]; }
  }

  lemma ReignBounds(h: History, n: nat, term: nat, end: nat)
    requires HistoryOk(h, n) && term in h.reigns && 0 < end <= |h.reigns[term].log|
    ensures Good(h, h.reigns[term].log[..end]) && AtMost(h.reigns[term].log[..end], term)
    ensures Tame(h, h.reigns[term].log[..end], term)
    ensures h.reigns[term].base <= h.reigns[term].log
  {
    assert ReignOk(h, n, term);
    GoodPrefix(h, h.reigns[term].log, end);
  }

  /** A follower whose log moved to `u` without losing anything it shares with its leader. */
  ghost predicate Moved(h: History, i: nat, t: Server, u: Server) {
    && u == t.(log := u.log, commitIndex := u.commitIndex) && SameHead(t.log, u.log)
    && Good(h, u.Full()) && AtMost(u.Full(), t.currentTerm)
    && t.currentTerm in h.reigns
    && var r := h.reigns[t.currentTerm];
      && r.base <= r.log
      && t.snapshotIndex < |t.Full()| && t.Full()[..t.snapshotIndex + 1] <= r.log
      && KeepsCommon(t.Full(), r.log, u.Full())
      && (Refusal(i, t.currentTerm) in h.refusals ==> Tame(h, u.Full(), t.currentTerm))
  }

  lemma MovedServer(h: History, n: nat, i: nat, t: Server, u: Server)
    requires ServerOk(h, n, i, t) && t.role == Follower && Moved(h, i, t, u)
    requires CommitOk(h, n, u.currentTerm, u.Full(), u.commitIndex)
    ensures ServerOk(h, n, i, u)
  {
    hide AckHeld, RefusalHeld, Good, Tame, KeepsCommon;
    MovedLocal(h, t, u);
    MovedHolder(h, n, i, t, u);
    MovedCommit(h, n, t.currentTerm, t.Full(), t.snapshotIndex, h.reigns[t.currentTerm].log, u.Full());
  }

  /** The request's entries are in the follower's log once it accepts. */
  lemma AcceptedMoves(h: History, n: nat, i: nat, t: Server, args: AppendArgs)
    requires Receiving(h, n, i, t, args) && AppendSafe(t, args) && t.currentTerm == args.term && t.role == Follower
    requires AppendEntries(t, args).1.success
    ensures var u := AppendEntries(t, args).0;
            && Moved(h, i, t, u)
            && h.reigns[args.term].log[..args.prevLogIndex + 1 + |args.entries|] <= u.Full()
  {
    hide AppendEntries, AppendSafe, HistoryOk, HolderOk, VoterOk, CommitsOk, LeaderOk, KeepsCommon, Tame;
    var u, led, end := AppendEntries(t, args).0, h.reigns[args.term].log, args.prevLogIndex + 1 + |args.entries|;
    IsReady(h, n, i, t, args);
    Accepted(h, n, t, args);
    AbsorbedKeeps(t.Full(), led, end, u.Full());
    ReignBounds(h, n, args.term, end);
    CommonPast(h, n, i, t, args);
    AppendFrame(t, args);
    TameAbsorbed(h, n, i, t, args.term, end, u.Full());
  }

  /** A follower after accepting: it may acknowledge everything the request carried. */
  lemma AcceptedServer(h: History, n: nat, i: nat, t: Server, args: AppendArgs)
    requires Receiving(h, n, i, t, args) && AppendSafe(t, args) && t.currentTerm == args.term && t.role == Follower
    requires AppendEntries(t, args).1.success
    ensures var u := AppendEntries(t, args).0;
            && ServerOk(h, n, i, u)
            && h.reigns[args.term].log[..args.prevLogIndex + 1 + |args.entries|] <= u.Full()
  {
    hide AppendEntries, AppendSafe, HistoryOk, HolderOk, VoterOk, LeaderOk, KeepsCommon, Tame, Good, CommitOk;
    var u := AppendEntries(t, args).0;
    AcceptedMoves(h, n, i, t, args);
    CommonPast(h, n, i, t, args);
    AppendFrame(t, args);
    AcceptedCommit(h, n, i, t, u, args);
    MovedServer(h, n, i, t, u);
  }

  lemma TameAbsorbed(h: History, n: nat, i: nat, t: Server, term: nat, end: nat, result: seq<Entry>)
    requires HolderOk(h, n, i, t) && t.currentTerm == term && term in h.reigns && end <= |h.reigns[term].log|
    requires Tame(h, h.reigns[term].log[..end], term) && Absorbed(t.Full(), h.reigns[term].log[..end], result)
    ensures Refusal(i, term) in h.refusals ==> Tame(h, result, term)
  {
    if Refusal(i, term) in h.refusals { assert RefusalHeld(h, t, Refusal(i, term)); }
  }

  lemma AcceptedCommit(h: History, n: nat, i: nat, t: Server, u: Server, args: AppendArgs)
    requires AppendOk(h, n, i, args) && CommitsOk(h, n, t) && t.currentTerm == args.term && u.currentTerm == args.term
    requires t.Full()[..t.commitIndex + 1] <= h.reigns[args.term].log
    requires KeepsCommon(t.Full(), h.reigns[args.term].log, u.Full())
    requires h.reigns[args.term].log[..args.prevLogIndex + 1 + |args.entries|] <= u.Full()
    requires |u.Full()| > 0
    requires u.commitIndex == t.commitIndex || u.commitIndex == Min(args.leaderCommit, |u.Full()| - 1)
    ensures CommitOk(h, n, u.currentTerm, u.Full(), u.commitIndex)
  {
    hide CommitOk, KeepsCommon;
    if u.commitIndex == t.commitIndex {
      MovedCommit(h, n, args.term, t.Full(), t.commitIndex, h.reigns[args.term].log, u.Full());
    } else {
      LeaderCommitReached(h, n, args.term, h.reigns[args.term].log, args.leaderCommit, args.prevLogIndex + 1 + |args.entries|, u.Full());
    }
  }

  lemma LeaderCommitReached(h: History, n: nat, term: nat, led: seq<Entry>, index: nat, end: nat, log: seq<Entry>)
    requires CommitOk(h, n, term, led, index) && index < end <= |led| && led[..end] <= log
    ensures CommitOk(h, n, term, log, index)
  {
    hide CommitOk;
    assert led[..index + 1] == led[..end][..index + 1];
    ExtendsSelf(h);
    CommitExtends(h, h, n, term, led, index, term, log);
  }

  lemma RefusedMoves(h: History, n: nat, i: nat, t: Server, args: AppendArgs)
    requires Receiving(h, n, i, t, args) && AppendSafe(t, args) && t.currentTerm == args.term && t.role == Follower
    requires !AppendEntries(t, args).1.success
    ensures var u := AppendEntries(t, args).0;
            Moved(h, i, t, u) && Tame(h, u.Full(), args.term) && u.commitIndex == t.commitIndex
  {
    hide AppendEntries, AppendSafe, HistoryOk, HolderOk, VoterOk, CommitsOk, LeaderOk, KeepsCommon, Tame;
    var u, led := AppendEntries(t, args).0, h.reigns[args.term].log;
    IsReady(h, n, i, t, args);
    RefusedLog(h, n, t, args);
    RefusedTame(h, n, i, t, args);
    CommonPast(h, n, i, t, args);
    AppendFrame(t, args);
    GoodPrefix(h, t.Full(), |u.Full()|);
    assert u.Full() == t.Full()[..|u.Full()|];
    ReignBounds(h, n, args.term, |led|);
    assert AtMost(u.Full(), t.currentTerm);
    assert u.commitIndex == t.commitIndex;
  }

  /** A follower after refusing: its log was cut, and it stays tame for the rest of the term. */
  lemma RefusedServer(h: History, n: nat, i: nat, t: Server, args: AppendArgs)
    requires Receiving(h, n, i, t, args) && AppendSafe(t, args) && t.currentTerm == args.term && t.role == Follower
    requires !AppendEntries(t, args).1.success
    ensures var u := AppendEntries(t, args).0;
            ServerOk(h, n, i, u) && Tame(h, u.Full(), args.term)
  {
    hide AppendEntries, AppendSafe, HistoryOk, HolderOk, VoterOk, LeaderOk, KeepsCommon, Tame, Good, CommitOk;
    var u := AppendEntries(t, args).0;
    RefusedMoves(h, n, i, t, args);
    CommonPast(h, n, i, t, args);
    MovedCommit(h, n, args.term, t.Full(), t.commitIndex, h.reigns[args.term].log, u.Full());
    MovedServer(h, n, i, t, u);
  }

  lemma AckedServer(h: History, n: nat, i: nat, u: Server, a: Ack)
    requires ServerOk(h, n, i, u) && AckOk(h, n, a) && a.server == i && a.term == u.currentTerm
    requires h.reigns[a.term].log[..a.index + 1] <= u.Full() && Extends(h, WithAck(h, a)) && u.role == Follower
    ensures ServerOk(WithAck(h, a), n, i, u)
  {
    var g := WithAck(h, a);
    GoodExtends(h, g, u.Full());
    SameCommits(h, g, n, u);
    forall a' | a' in g.acks && a'.server == i ensures AckHeld(g, n, u, a') {
      if a' in h.acks {
        assert AckHeld(h, n, u, a');
        AckHeldExtends(h, g, n, u, a');
      } else {
        FreshAck(g, a, u.Full(), u.currentTerm + 1);
      }
    }
    forall f | f in g.refusals && f.server == i ensures RefusalHeld(g, u, f) {
      assert RefusalHeld(h, u, f);
    }
  }

  lemma FreshAck(g: History, a: Ack, log: seq<Entry>, hi: nat)
    requires a.term in g.reigns && a.index < |g.reigns[a.term].log| && g.reigns[a.term].log[..a.index + 1] <= log
    ensures AckKept(g, a, log, hi)
  {
    forall k | 0 <= k <= a.index ensures Kept(g, a.term, k, log, hi) {
      assert g.reigns[a.term].log[..k + 1] == g.reigns[a.term].log[..a.index + 1][..k + 1];
    }
  }

  lemma RefusingServer(h: History, n: nat, i: nat, u: Server)
    requires ServerOk(h, n, i, u) && u.currentTerm in h.reigns && Tame(h, u.Full(), u.currentTerm) && u.role == Follower
    requires Extends(h, WithRefusal(h, Refusal(i, u.currentTerm)))
    ensures ServerOk(WithRefusal(h, Refusal(i, u.currentTerm)), n, i, u)
  {
    var g := WithRefusal(h, Refusal(i, u.currentTerm));
    GoodExtends(h, g, u.Full());
    SameCommits(h, g, n, u);
    forall a | a in g.acks && a.server == i ensures AckHeld(g, n, u, a) {
      assert AckHeld(h, n, u, a);
      AckHeldExtends(h, g, n, u, a);
    }
    forall f | f in g.refusals && f.server == i ensures RefusalHeld(g, u, f) {
      if f in h.refusals { assert RefusalHeld(h, u, f); }
    }
  }

  lemma AcceptSucceeds(h: History, c: Cluster, step: Step, t: Server) returns (g: History)
    requires Invariant(h, c) && Enabled(c, step) && step.Accept?
    requires Receiving(h, |c.servers|, step.i, t, step.append) && AppendSafe(t, step.append)
    requires t.currentTerm == step.append.term && t.role == Follower
    requires AppendEntries(t, step.append).1.success
    requires Effect(c, step).0 == AppendEntries(t, step.append).0
    requires forall m :: m in Effect(c, step).1 ==> m.AppendResponse? && m.from == step.i && m.append == step.append && m.answer.success
    ensures Extends(h, g) && Invariant(g, Apply(c, step))
  {
    hide AppendEntries, AppendSafe, HistoryOk, HolderOk, LeaderOk, CommitsOk, LocalOk;
    var n, i, args := |c.servers|, step.i, step.append;
    var a := Ack(i, args.term, args.prevLogIndex + |args.entries|);
    g := WithAck(h, a);
    StaysFollower(h, t, args);
    AcceptedServer(h, n, i, t, args);
    RecordAck(h, n, a);
    AckedServer(h, n, i, AppendEntries(t, args).0, a);
    OthersKeep(h, g, c, i);
    AppendExtends(h, g, n, i, args);
    Assemble(h, g, c, step);
  }

  lemma AcceptFails(h: History, c: Cluster, step: Step, t: Server) returns (g: History)
    requires Invariant(h, c) && Enabled(c, step) && step.Accept?
    requires Receiving(h, |c.servers|, step.i, t, step.append) && AppendSafe(t, step.append)
    requires t.currentTerm == step.append.term && t.role == Follower
    requires !AppendEntries(t, step.append).1.success
    requires Effect(c, step).0 == AppendEntries(t, step.append).0
    requires forall m :: m in Effect(c, step).1 ==>
               m.AppendResponse? && m.from == step.i && m.append == step.append && !m.answer.success
               && m.answer.conflictIndex <= step.append.prevLogIndex
    ensures Extends(h, g) && Invariant(g, Apply(c, step))
  {
    hide AppendEntries, AppendSafe, HistoryOk, HolderOk, LeaderOk, CommitsOk, LocalOk;
    var n, i, args := |c.servers|, step.i, step.append;
    g := WithRefusal(h, Refusal(i, args.term));
    StaysFollower(h, t, args);
    RefusedServer(h, n, i, t, args);
    RecordRefusal(h, n, Refusal(i, args.term));
    RefusingServer(h, n, i, AppendEntries(t, args).0);
    OthersKeep(h, g, c, i);
    AppendExtends(h, g, n, i, args);
    Assemble(h, g, c, step);
  }

  lemma StaysFollower(h: History, t: Server, args: AppendArgs)
    requires AppendSafe(t, args) && t.currentTerm == args.term && t.role == Follower && LocalOk(h, t)
    ensures AppendEntries(t, args).0.currentTerm == args.term && AppendEntries(t, args).0.role == Follower
  {
    AppendFrame(t, args);
  }

  lemma AcceptKeeps(h: History, c: Cluster, step: Step) returns (g: History)
    requires Invariant(h, c) && Enabled(c, step) && step.Accept?
    ensures Extends(h, g) && Invariant(g, Apply(c, step))
  {
    hide HistoryOk, HolderOk, LeaderOk, CommitsOk, LocalOk, VoterOk, AppendSafe;
    var s, n, i, args := c.servers[step.i], |c.servers|, step.i, step.append;
    assert ServerOk(h, n, i, s) && MessageOk(h, n, AppendRequest(i, args));
    g := h;
    if args.term < s.currentTerm {
      ExtendsSelf(h);
      AssembleSame(h, c, step);
    } else {
      EnterTerm(h, n, i, s, args);
      var t := AfterTerm(s, args.term);
      if AppendEntries(s, args).1.success {
        g := AcceptSucceeds(h, c, step, t);
      } else {
        IsReady(h, n, i, t, args);
        RefusedLog(h, n, t, args);
        g := AcceptFails(h, c, step, t);
      }
    }
  }
}
