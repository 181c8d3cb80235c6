/** Elections keep the invariant: starting one, voting and winning. */
module RaftElections {
  import opened RaftLog
  import opened RaftServer
  import opened RaftCluster
  import opened RaftHistory
  import opened RaftInvariant
  import opened RaftSteps

  // ---------------------------------------------------------------- recording a candidacy or a ballot

  lemma SameReigns(h: History, g: History, n: nat)
    requires HistoryOk(h, n) && Extends(h, g) && g.reigns == h.reigns
    ensures forall t {:trigger ReignOk(g, n, t)} :: t in g.reigns ==> ReignOk(g, n, t)
    ensures forall t {:trigger ElectionOk(g, n, t)} :: t in g.reigns ==> ElectionOk(g, n, t)
  {
    forall t | t in g.reigns ensures ReignOk(g, n, t) && ElectionOk(g, n, t) {
      assert ReignOk(h, n, t) && ElectionOk(h, n, t);
      GoodExtends(h, g, h.reigns[t].base);
      GoodExtends(h, g, h.reigns[t].log);
    }
  }

  function WithRun(h: History, k: Candidacy, log: seq<Entry>): History {
    h.(runs := h.runs[k := log])
  }

  lemma RecordRun(h: History, n: nat, k: Candidacy, log: seq<Entry>)
    requires HistoryOk(h, n) && k !in h.runs
    requires Good(h, log) && Below(log, k.term) && k.term >= 1
    ensures HistoryOk(WithRun(h, k, log), n) && Extends(h, WithRun(h, k, log))
  {
    hide VotesKeepAcks;
    var g := WithRun(h, k, log);
    SameReigns(h, g, n);
    forall j | j in g.runs ensures CandidacyOk(g, j) {
      if j != k { assert CandidacyOk(h, j); }
      GoodExtends(h, g, g.runs[j]);
    }
    forall b | b in g.ballots ensures BallotOk(g, n, b) {
      assert BallotOk(h, n, b);
      GoodExtends(h, g, h.ballots[b]);
    }
    forall a | a in g.acks ensures AckOk(g, n, a) { assert AckOk(h, n, a); }
    SameVotes(h, g, n);
  }

  lemma SameVotes(h: History, g: History, n: nat)
    requires VotesKeepAcks(h, n) && Extends(h, g) && g.ballots == h.ballots && g.acks == h.acks
    ensures VotesKeepAcks(g, n)
  {
    forall a, b | a in g.acks && b in g.ballots && a.server == b.voter && a.term < b.term
      ensures AckOk(g, n, a) && AckKept(g, a, g.ballots[b], b.term)
    {
      AckKeptExtends(h, g, a, h.ballots[b], b.term, h.ballots[b], b.term);
    }
  }

  function WithBallot(h: History, b: Ballot, log: seq<Entry>): History {
    h.(ballots := h.ballots[b := log])
  }

  lemma RecordBallot(h: History, n: nat, b: Ballot, s: Server)
    requires HistoryOk(h, n) && b !in h.ballots && b.term !in h.reigns
    requires LocalOk(h, s) && HolderOk(h, n, b.voter, s) && s.currentTerm <= b.term
    requires b.voter < n && b.candidate < n
    requires Candidacy(b.candidate, b.term) in h.runs && |h.runs[Candidacy(b.candidate, b.term)]| > 0
    requires UpToDate(h.runs[Candidacy(b.candidate, b.term)], s.Full())
    requires b.voter == b.candidate ==> s.Full() == h.runs[Candidacy(b.candidate, b.term)]
    requires forall b' :: b' in h.ballots && b'.voter == b.voter && b'.term == b.term ==> b'.candidate == b.candidate
    ensures HistoryOk(WithBallot(h, b, s.Full()), n) && Extends(h, WithBallot(h, b, s.Full()))
  {
    hide VotesKeepAcks, HolderOk;
    var g := WithBallot(h, b, s.Full());
    SameReigns(h, g, n);
    forall k | k in g.runs ensures CandidacyOk(g, k) {
      assert CandidacyOk(h, k);
      GoodExtends(h, g, h.runs[k]);
    }
    forall b' | b' in g.ballots ensures BallotOk(g, n, b') {
      if b' != b { assert BallotOk(h, n, b'); }
      GoodExtends(h, g, g.ballots[b']);
    }
    forall a | a in g.acks ensures AckOk(g, n, a) { assert AckOk(h, n, a); }
    BallotKeepsAcks(h, n, b, s);
  }

  lemma BallotKeepsAcks(h: History, n: nat, b: Ballot, s: Server)
    requires VotesKeepAcks(h, n) && Extends(h, WithBallot(h, b, s.Full())) && b.term !in h.reigns && b !in h.ballots
    requires HolderOk(h, n, b.voter, s) && s.currentTerm <= b.term
    ensures VotesKeepAcks(WithBallot(h, b, s.Full()), n)
  {
    var g := WithBallot(h, b, s.Full());
    forall a, b' | a in g.acks && b' in g.ballots && a.server == b'.voter && a.term < b'.term
      ensures AckOk(g, n, a) && AckKept(g, a, g.ballots[b'], b'.term)
    {
      if b' == b {
        assert AckHeld(h, n, s, a);
        EarlierMiss(h, a, s.Full(), s.currentTerm + 1, b.term);
        AckKeptExtends(h, g, a, s.Full(), b.term, s.Full(), b.term);
      } else {
        AckKeptExtends(h, g, a, h.ballots[b'], b'.term, h.ballots[b'], b'.term);
      }
    }
  }

  /** With no leader in `term` yet, a miss up to and including it is a miss before it. */
  lemma EarlierMiss(h: History, a: Ack, log: seq<Entry>, hi: nat, term: nat)
    requires a.term in h.reigns && a.index < |h.reigns[a.term].log|
    requires AckKept(h, a, log, hi) && hi <= term + 1 && term !in h.reigns
    ensures AckKept(h, a, log, term)
  {
    forall k | 0 <= k <= a.index ensures Kept(h, a.term, k, log, term) {
      assert Kept(h, a.term, k, log, hi);
    }
  }

  // ---------------------------------------------------------------- starting an election

  function AfterTimeout(h: History, i: nat, s: Server): History {
    var term := s.currentTerm + 1;
    var g := WithRun(h, Candidacy(i, term), s.Full());
    if term in h.reigns then g else WithBallot(g, Ballot(i, i, term), s.Full())
  }

  lemma TimeoutHistory(h: History, n: nat, i: nat, s: Server)
    requires HistoryOk(h, n) && ServerOk(h, n, i, s) && i < n
    ensures HistoryOk(AfterTimeout(h, i, s), n) && Extends(h, AfterTimeout(h, i, s))
  {
    hide Good, AckHeld, CommitsOk, LeaderOk;
    var term := s.currentTerm + 1;
    var k := Candidacy(i, term);
    RecordRun(h, n, k, s.Full());
    var g := WithRun(h, k, s.Full());
    if term !in h.reigns {
      GoodExtends(h, g, s.Full());
      forall a | a in g.acks && a.server == i ensures AckHeld(g, n, s, a) {
        assert AckHeld(h, n, s, a);
        AckHeldExtends(h, g, n, s, a);
      }
      forall f | f in g.refusals && f.server == i ensures RefusalHeld(g, s, f) {
        assert RefusalHeld(h, s, f);
      }
      RecordBallot(g, n, Ballot(i, i, term), s);
    }
  }

  lemma SameHolder(h: History, g: History, n: nat, i: nat, s: Server)
    requires Extends(h, g) && HolderOk(h, n, i, s) && g.acks == h.acks && g.refusals == h.refusals
    ensures HolderOk(g, n, i, s)
  {
    forall a | a in g.acks && a.server == i ensures AckHeld(g, n, s, a) {
      assert AckHeld(h, n, s, a);
      AckHeldExtends(h, g, n, s, a);
    }
    forall f | f in g.refusals && f.server == i ensures RefusalHeld(g, s, f) {
      assert RefusalHeld(h, s, f);
    }
  }

  lemma SameCommits(h: History, g: History, n: nat, s: Server)
    requires Extends(h, g) && CommitsOk(h, n, s)
    ensures CommitsOk(g, n, s)
  {
    CommitExtends(h, g, n, s.currentTerm, s.Full(), s.commitIndex, s.currentTerm, s.Full());
    CommitExtends(h, g, n, s.currentTerm, s.Full(), s.snapshotIndex, s.currentTerm, s.Full());
  }

  lemma TimeoutServer(h: History, n: nat, i: nat, s: Server)
    requires HistoryOk(h, n) && ServerOk(h, n, i, s) && i < n
    ensures ServerOk(AfterTimeout(h, i, s), n, i, StartElection(s, i))
  {
    hide HistoryOk, HolderOk, CommitOk;
    var g, t := AfterTimeout(h, i, s), StartElection(s, i);
    TimeoutHistory(h, n, i, s);
    GoodExtends(h, g, s.Full());
    LaterHolder(h, n, i, s, t);
    SameHolder(h, g, n, i, t);
    LaterCommits(h, n, s, t);
    SameCommits(h, g, n, t);
    TimeoutVoter(h, n, i, s);
  }

  lemma TimeoutVoter(h: History, n: nat, i: nat, s: Server)
    requires HistoryOk(h, n) && VoterOk(h, n, i, s) && i < n
    ensures VoterOk(AfterTimeout(h, i, s), n, i, StartElection(s, i))
  {
    if s.currentTerm + 1 in h.reigns { assert ElectionOk(h, n, s.currentTerm + 1); }
  }

  lemma TimeoutKeeps(h: History, c: Cluster, step: Step) returns (g: History)
    requires Invariant(h, c) && Enabled(c, step) && step.Timeout?
    ensures Extends(h, g) && Invariant(g, Apply(c, step))
  {
    hide HistoryOk, HolderOk, CommitsOk, LeaderOk, VoterOk, Good;
    var s, n, i := c.servers[step.i], |c.servers|, step.i;
    assert ServerOk(h, n, i, s);
    g := AfterTimeout(h, i, s);
    TimeoutHistory(h, n, i, s);
    TimeoutServer(h, n, i, s);
    OthersKeep(h, g, c, i);
    var t := StartElection(s, i);
    FullAt(h, t, t.log.LastIndex());
    assert CandidateOk(g, n, ElectionArgs(t, i));
    Assemble(h, g, c, step);
  }

  // ---------------------------------------------------------------- granting a vote

  /** The server after the term check of RequestVote. */
  function Entered(s: Server, term: nat): Server {
    if term > s.currentTerm then StepDown(s, term) else s
  }

  function AfterVote(h: History, i: nat, s: Server, args: VoteArgs): History {
    var b := Ballot(i, args.candidate, args.term);
    if b in h.ballots || args.term in h.reigns then h else WithBallot(h, b, s.Full())
  }

  lemma EnteredKeeps(h: History, n: nat, i: nat, s: Server, term: nat)
    requires HistoryOk(h, n) && ServerOk(h, n, i, s) && term >= s.currentTerm
    ensures ServerOk(h, n, i, Entered(s, term))
  {
    if term > s.currentTerm { StepDownKeeps(h, n, i, s, term); }
  }

  /** Only a plain follower grants its vote to somebody else. */
  lemma GranterFollows(h: History, n: nat, i: nat, t: Server, candidate: nat)
    requires HistoryOk(h, n) && ServerOk(h, n, i, t) && candidate != i
    requires t.votedFor == NOBODY || t.votedFor == candidate
    ensures t.role == Follower
    ensures t.currentTerm in h.reigns && i in h.reigns[t.currentTerm].quorum ==>
              candidate == h.reigns[t.currentTerm].leader && Ballot(i, candidate, t.currentTerm) in h.ballots
  {
    if t.currentTerm in h.reigns { assert ElectionOk(h, n, t.currentTerm); }
  }

  lemma VoteHistory(h: History, n: nat, i: nat, t: Server, args: VoteArgs)
    requires HistoryOk(h, n) && ServerOk(h, n, i, t) && i < n && CandidateOk(h, n, args)
    requires t.currentTerm == args.term && args.candidate != i
    requires t.votedFor == NOBODY || t.votedFor == args.candidate
    requires UpToDate(h.runs[Candidacy(args.candidate, args.term)], t.Full())
    ensures HistoryOk(AfterVote(h, i, t, args), n) && Extends(h, AfterVote(h, i, t, args))
  {
    var b := Ballot(i, args.candidate, args.term);
    if b in h.ballots || args.term in h.reigns {
      ExtendsSelf(h);
    } else {
      RecordBallot(h, n, b, t);
    }
  }

  lemma VoteServer(h: History, n: nat, i: nat, t: Server, args: VoteArgs)
    requires HistoryOk(h, n) && ServerOk(h, n, i, t) && i < n && CandidateOk(h, n, args)
    requires t.currentTerm == args.term && args.candidate != i
    requires t.votedFor == NOBODY || t.votedFor == args.candidate
    requires UpToDate(h.runs[Candidacy(args.candidate, args.term)], t.Full())
    ensures var g := AfterVote(h, i, t, args);
            ServerOk(g, n, i, t.(votedFor := args.candidate)) && Recorded(g, Ballot(i, args.candidate, args.term))
  {
    var g, u := AfterVote(h, i, t, args), t.(votedFor := args.candidate);
    VoteHistory(h, n, i, t, args);
    GranterFollows(h, n, i, t, args.candidate);
    GoodExtends(h, g, t.Full());
    LaterHolder(h, n, i, t, u);
    SameHolder(h, g, n, i, u);
    LaterCommits(h, n, t, u);
    SameCommits(h, g, n, u);
    VoteVoter(h, n, i, t, args);
  }

  lemma VoteVoter(h: History, n: nat, i: nat, t: Server, args: VoteArgs)
    requires VoterOk(h, n, i, t) && t.currentTerm == args.term && args.candidate < n && t.role == Follower
    requires t.votedFor == NOBODY || t.votedFor == args.candidate
    requires t.currentTerm in h.reigns && i in h.reigns[t.currentTerm].quorum ==>
               args.candidate == h.reigns[t.currentTerm].leader && Ballot(i, args.candidate, t.currentTerm) in h.ballots
    ensures VoterOk(AfterVote(h, i, t, args), n, i, t.(votedFor := args.candidate))
    ensures Recorded(AfterVote(h, i, t, args), Ballot(i, args.candidate, args.term))
  {
  }

  lemma VoteKeeps(h: History, c: Cluster, step: Step) returns (g: History)
    requires Invariant(h, c) && Enabled(c, step) && step.Vote?
    ensures Extends(h, g) && Invariant(g, Apply(c, step))
  {
    hide HistoryOk, HolderOk, CommitsOk, LeaderOk, VoterOk, Good, AtMost, Log.Behind;
    var s, n, i, args := c.servers[step.i], |c.servers|, step.i, step.args;
    assert ServerOk(h, n, i, s) && MessageOk(h, n, VoteRequest(args));
    g := h;
    if args.term < s.currentTerm {
      AssembleSame(h, c, step);
    } else {
      var t := Entered(s, args.term);
      EnteredKeeps(h, n, i, s, args.term);
      FullAt(h, t, t.log.LastIndex());
      if RequestVote(s, args).1.granted {
        g := VoteGranted(h, c, step, t);
      } else {
        AssembleSame(h, c, step);
      }
    }
  }

  lemma VoteGranted(h: History, c: Cluster, step: Step, t: Server) returns (g: History)
    requires Invariant(h, c) && Enabled(c, step) && step.Vote?
    requires ServerOk(h, |c.servers|, step.i, t) && CandidateOk(h, |c.servers|, step.args)
    requires t.currentTerm == step.args.term && (t.votedFor == NOBODY || t.votedFor == step.args.candidate)
    requires UpToDate(h.runs[Candidacy(step.args.candidate, step.args.term)], t.Full())
    requires Effect(c, step).0 == t.(votedFor := step.args.candidate)
    requires Effect(c, step).1 == {VoteResponse(step.i, step.args, RequestVote(c.servers[step.i], step.args).1)}
    ensures Extends(h, g) && Invariant(g, Apply(c, step))
  {
    hide HistoryOk, ServerOk, RequestVote, UpToDate;
    g := AfterVote(h, step.i, t, step.args);
    VoteHistory(h, |c.servers|, step.i, t, step.args);
    VoteServer(h, |c.servers|, step.i, t, step.args);
    OthersKeep(h, g, c, step.i);
    Assemble(h, g, c, step);
  }

  // ---------------------------------------------------------------- winning

  function AfterElected(h: History, i: nat, s: Server, voters: set<nat>): History
    requires |s.Full()| > 0
  {
    h.(reigns := h.reigns[s.currentTerm := Reign(i, voters, s.Full(), s.Full())],
       acks := h.acks + {Ack(i, s.currentTerm, |s.Full()| - 1)})
  }

  /** Election safety, the step: a candidate with a majority stands in a term without a leader. */
  lemma NoLeaderYet(h: History, c: Cluster, step: Step)
    requires Invariant(h, c) && Enabled(c, step) && step.Elected?
    ensures c.servers[step.i].currentTerm !in h.reigns
    ensures forall v :: v in step.voters ==> Ballot(v, step.i, c.servers[step.i].currentTerm) in h.ballots
  {
    var s, n, i := c.servers[step.i], |c.servers|, step.i;
    var term := s.currentTerm;
    assert ServerOk(h, n, i, s);
    forall v | v in step.voters ensures Recorded(h, Ballot(v, i, term)) {
      if v != i {
        assert Granted(c, i, term, v);
        var m :| m in c.msgs && m.VoteResponse? && m.voter == v && m.reply.granted
                 && m.args.term == term && m.args.candidate == i;
        assert MessageOk(h, n, m);
      }
    }
    if term in h.reigns { MajorityElects(h, n, i, term, step.voters); }
  }

  /** In a term with a leader, a majority on record for `i` can only be the leader's. */
  lemma MajorityElects(h: History, n: nat, i: nat, term: nat, voters: set<nat>)
    requires HistoryOk(h, n) && term in h.reigns
    requires voters <= Servers(n) && |voters| >= Majority(n)
    requires forall v :: v in voters ==> Recorded(h, Ballot(v, i, term))
    ensures h.reigns[term].leader == i && i in h.reigns[term].quorum
  {
    assert ElectionOk(h, n, term);
    var v := QuorumsMeet(n, voters, h.reigns[term].quorum);
    assert Recorded(h, Ballot(v, i, term));
    assert Ballot(v, h.reigns[term].leader, term) in h.ballots;
  }

  lemma ElectedHistory(h: History, n: nat, i: nat, s: Server, voters: set<nat>)
    requires HistoryOk(h, n) && ServerOk(h, n, i, s) && i < n && s.role == Candidate && s.currentTerm !in h.reigns
    requires i in voters && voters <= Servers(n) && |voters| >= Majority(n)
    requires forall v :: v in voters ==> Ballot(v, i, s.currentTerm) in h.ballots
    ensures HistoryOk(AfterElected(h, i, s, voters), n) && Extends(h, AfterElected(h, i, s, voters))
  {
    hide VotesKeepAcks, HolderOk, CommitsOk;
    var g, term := AfterElected(h, i, s, voters), s.currentTerm;
    assert Extends(h, g);
    GoodExtends(h, g, s.Full());
    assert CandidacyOk(h, Candidacy(i, term));
    forall t | t in g.reigns ensures ReignOk(g, n, t) && ElectionOk(g, n, t) {
      if t != term {
        assert ReignOk(h, n, t) && ElectionOk(h, n, t);
        GoodExtends(h, g, h.reigns[t].base);
        GoodExtends(h, g, h.reigns[t].log);
      }
    }
    forall k | k in g.runs ensures CandidacyOk(g, k) {
      assert CandidacyOk(h, k);
      GoodExtends(h, g, h.runs[k]);
    }
    forall b | b in g.ballots ensures BallotOk(g, n, b) {
      assert BallotOk(h, n, b);
      GoodExtends(h, g, h.ballots[b]);
    }
    forall a | a in g.acks ensures AckOk(g, n, a) {
      if a in h.acks { assert AckOk(h, n, a); }
    }
    ElectedVotes(h, g, n, i, s);
  }

  /** The winner's own acknowledgement comes after every vote it cast. */
  lemma ElectedVotes(h: History, g: History, n: nat, i: nat, s: Server)
    requires VotesKeepAcks(h, n) && VoterOk(h, n, i, s) && Extends(h, g)
    requires g.ballots == h.ballots && |s.Full()| > 0 && g.acks == h.acks + {Ack(i, s.currentTerm, |s.Full()| - 1)}
    ensures VotesKeepAcks(g, n)
  {
    forall a, b | a in g.acks && b in g.ballots && a.server == b.voter && a.term < b.term
      ensures AckOk(g, n, a) && AckKept(g, a, g.ballots[b], b.term)
    {
      assert a in h.acks;
      AckKeptExtends(h, g, a, h.ballots[b], b.term, h.ballots[b], b.term);
    }
  }

  lemma ElectedHolder(h: History, g: History, n: nat, i: nat, s: Server, t: Server)
    requires Extends(h, g) && HolderOk(h, n, i, s) && t.Full() == s.Full() && t.currentTerm == s.currentTerm
    requires |s.Full()| > 0 && g.acks == h.acks + {Ack(i, s.currentTerm, |s.Full()| - 1)} && g.refusals == h.refusals
    requires i < n && s.currentTerm in g.reigns && g.reigns[s.currentTerm].log == s.Full()
    ensures HolderOk(g, n, i, t)
  {
    forall a | a in g.acks && a.server == i ensures AckHeld(g, n, t, a) {
      if a in h.acks {
        assert AckHeld(h, n, s, a);
        AckKeptExtends(h, g, a, s.Full(), s.currentTerm + 1, t.Full(), t.currentTerm + 1);
      } else {
        assert AckKept(g, a, t.Full(), t.currentTerm + 1);
      }
    }
    forall f | f in g.refusals && f.server == i ensures RefusalHeld(g, t, f) {
      assert RefusalHeld(h, s, f);
    }
  }

  lemma ElectedServer(h: History, n: nat, i: nat, s: Server, voters: set<nat>)
    requires HistoryOk(h, n) && ServerOk(h, n, i, s) && i < n && s.role == Candidate && s.currentTerm !in h.reigns
    requires i in voters && voters <= Servers(n) && |voters| >= Majority(n)
    requires forall v :: v in voters ==> Ballot(v, i, s.currentTerm) in h.ballots
    ensures ServerOk(AfterElected(h, i, s, voters), n, i, BecomeLeader(s, n))
  {
    hide HistoryOk, HolderOk, CommitsOk, Good, Extends, Servers;
    var g, t := AfterElected(h, i, s, voters), BecomeLeader(s, n);
    ElectedHistory(h, n, i, s, voters);
    GoodExtends(h, g, s.Full());
    ElectedHolder(h, g, n, i, s, t);
    LaterCommits(h, n, s, t);
    SameCommits(h, g, n, t);
  }

  /** A voter of the winner is locked in: it follows with its vote on record, or is the winner. */
  lemma VoterLocked(h: History, g: History, n: nat, i: nat, s: Server, j: nat, r: Server, voters: set<nat>)
    requires ServerOk(h, n, j, r) && |s.Full()| > 0 && g == AfterElected(h, i, s, voters) && j != i
    requires s.currentTerm !in h.reigns && Extends(h, g)
    requires forall v :: v in voters ==> Ballot(v, i, s.currentTerm) in h.ballots
    ensures ServerOk(g, n, j, r)
  {
    ServerExtends(h, g, n, j, r);
  }

  lemma ElectedKeeps(h: History, c: Cluster, step: Step) returns (g: History)
    requires Invariant(h, c) && Enabled(c, step) && step.Elected?
    ensures Extends(h, g) && Invariant(g, Apply(c, step))
  {
    var s, n, i := c.servers[step.i], |c.servers|, step.i;
    assert ServerOk(h, n, i, s);
    NoLeaderYet(h, c, step);
    g := AfterElected(h, i, s, step.voters);
    ElectedHistory(h, n, i, s, step.voters);
    ElectedServer(h, n, i, s, step.voters);
    forall j {:trigger ServerOk(g, n, j, c.servers[j])} | 0 <= j < n && j != i
      ensures ServerOk(g, n, j, c.servers[j])
    {
      assert ServerOk(h, n, j, c.servers[j]);
      VoterLocked(h, g, n, i, s, j, c.servers[j], step.voters);
    }
    Assemble(h, g, c, step);
  }
}
