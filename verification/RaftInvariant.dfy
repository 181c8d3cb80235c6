/** What every reachable cluster state satisfies, relative to the history of its run. */
module RaftInvariant {
  import opened RaftLog
  import opened RaftServer
  import opened RaftCluster
  import opened RaftHistory

  // ---------------------------------------------------------------- one server

  predicate LocalOk(h: History, s: Server) {
    && |s.log.entries| > 0
    && s.log.index0 == s.snapshotIndex && |s.snapshot| == s.snapshotIndex + 1
    && s.snapshotTerm == s.log.entries[0].term == s.snapshot[s.snapshotIndex].term
    && Good(h, s.Full()) && AtMost(s.Full(), s.currentTerm)
  }

  /** A retained entry, and the term of the one at the snapshot, are those of the whole log. */
  lemma FullAt(h: History, s: Server, k: nat)
    requires LocalOk(h, s) && s.log.Holds(k)
    ensures |s.Full()| == s.log.Length() && s.Full()[k].term == s.log.At(k).term
    ensures k > s.snapshotIndex ==> s.Full()[k] == s.log.At(k)
  {
    hide Good, AtMost;
  }

  ghost predicate CommitsOk(h: History, n: nat, s: Server) {
    && CommitOk(h, n, s.currentTerm, s.Full(), s.commitIndex)
    && CommitOk(h, n, s.currentTerm, s.Full(), s.snapshotIndex)
  }

  /** A vote is on record, or it was cast in a term that already had its leader, by an outsider. */
  predicate Recorded(h: History, b: Ballot) {
    b in h.ballots || (b.term in h.reigns && b.voter !in h.reigns[b.term].quorum)
  }

  predicate VoterOk(h: History, n: nat, i: nat, s: Server) {
    && (s.votedFor != NOBODY ==> 0 <= s.votedFor < n && Recorded(h, Ballot(i, s.votedFor, s.currentTerm)))
    && (forall b :: b in h.ballots && b.voter == i ==>
          && b.term <= s.currentTerm
          && (b.term == s.currentTerm && b.candidate != s.votedFor ==> b.term in h.reigns))
    && (forall k :: k in h.runs && k.candidate == i ==> k.term <= s.currentTerm)
    && (s.role == Candidate ==>
          s.votedFor == i && Candidacy(i, s.currentTerm) in h.runs && h.runs[Candidacy(i, s.currentTerm)] == s.Full())
    && (s.currentTerm in h.reigns && i in h.reigns[s.currentTerm].quorum ==>
          s.votedFor == h.reigns[s.currentTerm].leader && s.role != Candidate)
  }

  /** Nothing behind the leader's election-time log is left over from an earlier term. */
  predicate Tame(h: History, log: seq<Entry>, term: nat)
    requires term in h.reigns
  {
    forall k :: |h.reigns[term].base| <= k < |log| ==> log[k].term == term
  }

  ghost predicate AckHeld(h: History, n: nat, s: Server, a: Ack) {
    AckOk(h, n, a) && a.term <= s.currentTerm && AckKept(h, a, s.Full(), s.currentTerm + 1)
  }

  predicate RefusalHeld(h: History, s: Server, f: Refusal) {
    f.term in h.reigns && f.term <= s.currentTerm && (f.term == s.currentTerm ==> Tame(h, s.Full(), f.term))
  }

  ghost predicate HolderOk(h: History, n: nat, i: nat, s: Server) {
    && (forall a {:trigger AckHeld(h, n, s, a)} :: a in h.acks && a.server == i ==> AckHeld(h, n, s, a))
    && (forall f {:trigger RefusalHeld(h, s, f)} :: f in h.refusals && f.server == i ==> RefusalHeld(h, s, f))
  }

  /** Where a leader of `term` may aim at a peer: below its election-time end only after a refusal. */
  predicate Aimed(h: History, peer: nat, term: nat, prev: nat)
    requires term in h.reigns
  {
    && (prev < |h.reigns[term].base| || AckedTo(h, peer, term, prev))
    && (prev + 1 < |h.reigns[term].base| ==> Refusal(peer, term) in h.refusals)
  }

  predicate PeerOk(h: History, s: Server, peer: nat)
    requires s.currentTerm in h.reigns && peer < |s.matchIndex| == |s.nextIndex|
  {
    && s.matchIndex[peer] < s.nextIndex[peer] <= |s.Full()|
    && (s.matchIndex[peer] == 0 || AckedTo(h, peer, s.currentTerm, s.matchIndex[peer]))
    && Aimed(h, peer, s.currentTerm, s.nextIndex[peer] - 1)
  }

  predicate LeaderOk(h: History, n: nat, i: nat, s: Server) {
    s.role == Leader ==>
      && s.currentTerm in h.reigns
      && h.reigns[s.currentTerm].leader == i && h.reigns[s.currentTerm].log == s.Full()
      && |s.matchIndex| == |s.nextIndex| == n && |s.Full()| > 0
      && Ack(i, s.currentTerm, |s.Full()| - 1) in h.acks
      && forall p {:trigger PeerOk(h, s, p)} :: 0 <= p < n && p != i ==> PeerOk(h, s, p)
  }

  ghost predicate ServerOk(h: History, n: nat, i: nat, s: Server) {
    LocalOk(h, s) && CommitsOk(h, n, s) && VoterOk(h, n, i, s) && HolderOk(h, n, i, s) && LeaderOk(h, n, i, s)
  }

  // ---------------------------------------------------------------- one message

  predicate CandidateOk(h: History, n: nat, args: VoteArgs) {
    && args.candidate < n
    && Candidacy(args.candidate, args.term) in h.runs
    && var log := h.runs[Candidacy(args.candidate, args.term)];
      |log| > 0 && args.lastLogIndex == |log| - 1 && args.lastLogTerm == LastTerm(log)
  }

  /** An append carries the sender's whole suffix as it was when sent. */
  ghost predicate AppendOk(h: History, n: nat, to: nat, args: AppendArgs) {
    && args.term in h.reigns && h.reigns[args.term].leader == args.leader
    && to < n && to != args.leader
    && var r := h.reigns[args.term];
      var end := args.prevLogIndex + 1 + |args.entries|;
      && |r.base| <= end <= |r.log|
      && r.log[args.prevLogIndex].term == args.prevLogTerm
      && args.entries == r.log[args.prevLogIndex + 1..end]
      && Aimed(h, to, args.term, args.prevLogIndex)
      && args.leaderCommit < end
      && CommitOk(h, n, args.term, r.log, args.leaderCommit)
  }

  ghost predicate AnswerOk(h: History, n: nat, from: nat, args: AppendArgs, reply: AppendReply) {
    && AppendOk(h, n, from, args)
    && (reply.success ==> AckedTo(h, from, args.term, args.prevLogIndex + |args.entries|))
    && (!reply.success && reply.term <= args.term ==>
          Refusal(from, args.term) in h.refusals && reply.conflictIndex <= args.prevLogIndex)
  }

  /** A snapshot of the sender's log, of entries that are committed. */
  ghost predicate InstallOk(h: History, n: nat, to: nat, args: InstallArgs) {
    && args.term in h.reigns && h.reigns[args.term].leader == args.leader
    && to < n && to != args.leader
    && var r, index := h.reigns[args.term], args.lastIncludedIndex;
      && index < |r.log| && args.data == r.log[..index + 1] && args.lastIncludedTerm == r.log[index].term
      && (index + 1 < |r.base| ==> Refusal(to, args.term) in h.refusals)
      && CommitOk(h, n, args.term, r.log, index)
  }

  ghost predicate MessageOk(h: History, n: nat, m: Message) {
    match m
    case VoteRequest(args) => CandidateOk(h, n, args)
    case VoteResponse(voter, args, reply) =>
      voter < n && (reply.granted ==> Recorded(h, Ballot(voter, args.candidate, args.term)))
    case AppendRequest(to, args) => AppendOk(h, n, to, args)
    case AppendResponse(from, args, reply) => AnswerOk(h, n, from, args, reply)
    case InstallRequest(to, args) => InstallOk(h, n, to, args)
    case InstallResponse(from, args, term) =>
      InstallOk(h, n, from, args) && (term <= args.term ==> AckedTo(h, from, args.term, args.lastIncludedIndex))
  }

  ghost predicate Invariant(h: History, c: Cluster) {
    && HistoryOk(h, |c.servers|)
    && (forall i {:trigger ServerOk(h, |c.servers|, i, c.servers[i])} ::
          0 <= i < |c.servers| ==> ServerOk(h, |c.servers|, i, c.servers[i]))
    && (forall m {:trigger MessageOk(h, |c.servers|, m)} :: m in c.msgs ==> MessageOk(h, |c.servers|, m))
  }

  // ---------------------------------------------------------------- facts survive a growing history

  lemma CertifiedExtends(h: History, g: History, n: nat, term: nat, index: nat, q: set<nat>)
    requires Extends(h, g) && Certified(h, n, term, index, q)
    ensures Certified(g, n, term, index, q)
  {
    forall s | s in q ensures AckedTo(g, s, term, index) {
      assert AckedTo(h, s, term, index);
    }
  }

  lemma CommitExtends(h: History, g: History, n: nat, term: nat, log: seq<Entry>, index: nat, term': nat, log': seq<Entry>)
    requires Extends(h, g) && CommitOk(h, n, term, log, index)
    requires term <= term' && log[..index + 1] <= log'
    ensures CommitOk(g, n, term', log', index)
  {
    if index > 0 {
      var t: nat :| t <= term && Backed(h, n, t, log, index);
      var c, q :| index <= c && Certified(h, n, t, c, q);
      CertifiedExtends(h, g, n, t, c, q);
      assert g.reigns[t].log[..index + 1] == h.reigns[t].log[..index + 1] == log[..index + 1];
      assert Backed(g, n, t, log', index);
    }
  }

  lemma AppendExtends(h: History, g: History, n: nat, to: nat, args: AppendArgs)
    requires Extends(h, g) && AppendOk(h, n, to, args)
    ensures AppendOk(g, n, to, args)
  {
    var r := h.reigns[args.term];
    assert r.log[..args.leaderCommit + 1] <= g.reigns[args.term].log;
    CommitExtends(h, g, n, args.term, r.log, args.leaderCommit, args.term, g.reigns[args.term].log);
  }

  lemma InstallExtends(h: History, g: History, n: nat, to: nat, args: InstallArgs)
    requires Extends(h, g) && InstallOk(h, n, to, args)
    ensures InstallOk(g, n, to, args)
  {
    var r, index := h.reigns[args.term], args.lastIncludedIndex;
    assert g.reigns[args.term].log[..index + 1] == r.log[..index + 1];
    CommitExtends(h, g, n, args.term, r.log, index, args.term, g.reigns[args.term].log);
  }

  lemma MessageExtends(h: History, g: History, n: nat, m: Message)
    requires Extends(h, g) && MessageOk(h, n, m)
    ensures MessageOk(g, n, m)
  {
    match m
    case AppendRequest(to, args) => AppendExtends(h, g, n, to, args);
    case AppendResponse(from, args, reply) => AppendExtends(h, g, n, from, args);
    case InstallRequest(to, args) => InstallExtends(h, g, n, to, args);
    case InstallResponse(from, args, _) => InstallExtends(h, g, n, from, args);
    case _ =>
  }

  lemma MissedExtends(h: History, g: History, p: seq<Entry>, lo: nat, hi: nat, hi': nat)
    requires Extends(h, g) && hi <= hi' && Missed(h, p, lo, hi)
    ensures Missed(g, p, lo, hi')
  {
  }

  /** What was kept stays kept in a log that keeps it, or once a leader without it has come. */
  lemma AckKeptExtends(h: History, g: History, a: Ack, log: seq<Entry>, hi: nat, log': seq<Entry>, hi': nat)
    requires Extends(h, g) && hi <= hi'
    requires a.term in h.reigns && a.index < |h.reigns[a.term].log|
    requires AckKept(h, a, log, hi)
    requires forall k {:trigger h.reigns[a.term].log[..k]} :: 0 < k <= a.index + 1 && h.reigns[a.term].log[..k] <= log ==>
               h.reigns[a.term].log[..k] <= log' || Missed(g, h.reigns[a.term].log[..k], a.term, hi')
    ensures AckKept(g, a, log', hi')
  {
    forall k | 0 <= k <= a.index ensures Kept(g, a.term, k, log', hi') {
      assert Kept(h, a.term, k, log, hi);
      var p := h.reigns[a.term].log[..k + 1];
      assert g.reigns[a.term].log[..k + 1] == p;
      if !(p <= log) { MissedExtends(h, g, p, a.term, hi, hi'); }
    }
  }

  lemma AckHeldExtends(h: History, g: History, n: nat, s: Server, a: Ack)
    requires Extends(h, g) && AckHeld(h, n, s, a)
    ensures AckHeld(g, n, s, a)
  {
    AckKeptExtends(h, g, a, s.Full(), s.currentTerm + 1, s.Full(), s.currentTerm + 1);
  }

  /** The new history says nothing new about server `i`. */
  predicate Silent(h: History, g: History, i: nat) {
    && (forall b :: b in g.ballots && b.voter == i ==> b in h.ballots)
    && (forall k :: k in g.runs && k.candidate == i ==> k in h.runs)
    && (forall a :: a in g.acks && a.server == i ==> a in h.acks)
    && (forall f :: f in g.refusals && f.server == i ==> f in h.refusals)
    && (forall t :: t in g.reigns && g.reigns[t].leader == i ==> t in h.reigns && g.reigns[t].log == h.reigns[t].log)
  }

  lemma ServerExtends(h: History, g: History, n: nat, i: nat, s: Server)
    requires Extends(h, g) && Silent(h, g, i) && ServerOk(h, n, i, s)
    requires s.currentTerm in g.reigns && i in g.reigns[s.currentTerm].quorum ==>
               s.votedFor == g.reigns[s.currentTerm].leader && s.role != Candidate
    ensures ServerOk(g, n, i, s)
  {
    GoodExtends(h, g, s.Full());
    CommitExtends(h, g, n, s.currentTerm, s.Full(), s.commitIndex, s.currentTerm, s.Full());
    CommitExtends(h, g, n, s.currentTerm, s.Full(), s.snapshotIndex, s.currentTerm, s.Full());
    forall a | a in g.acks && a.server == i ensures AckHeld(g, n, s, a) {
      assert AckHeld(h, n, s, a);
      AckHeldExtends(h, g, n, s, a);
    }
    forall f | f in g.refusals && f.server == i ensures RefusalHeld(g, s, f) {
      assert RefusalHeld(h, s, f);
    }
    LeaderExtends(h, g, n, i, s);
  }

  lemma LeaderExtends(h: History, g: History, n: nat, i: nat, s: Server)
    requires Extends(h, g) && LeaderOk(h, n, i, s)
    requires s.role == Leader && s.currentTerm in h.reigns ==> g.reigns[s.currentTerm].log == h.reigns[s.currentTerm].log
    ensures LeaderOk(g, n, i, s)
  {
    if s.role == Leader {
      forall p | 0 <= p < n && p != i ensures PeerOk(g, s, p) {
        assert PeerOk(h, s, p);
      }
    }
  }
}
