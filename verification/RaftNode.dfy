/**
 * The Raft server as the object it is: fields changed in place under one lock. Every method is
 * proved to take the object from one server value to the next exactly as the step functions do,
 * so what is proved about runs of the step functions holds for runs of these methods.
 */
module RaftNode {
  import opened RaftLog
  import opened RaftServer

  class MutableLog {
    var entries: seq<Entry>
    var index0: nat

    function Value(): Log
      reads this
    {
      Log(entries, index0)
    }

    constructor (entries: seq<Entry>, index0: nat)
      ensures Value() == Log(entries, index0)
    {
      this.entries, this.index0 := entries, index0;
    }

    method Append(e: Entry)
      modifies this
      ensures Value() == old(Value()).Append(e)
    {
      entries := entries + [e];
    }

    method Place(index: nat, a: seq<Entry>)
      requires Value().CanPlace(index, a)
      modifies this
      ensures Value() == old(Value().Place(index, a)) && |entries| > 0
    {
      hide Log.Place, Overwritten;
      var i, j := index - index0, 0;
      ghost var start, before := i, entries;
      OverwriteStart(before, start, a);
      while i < |entries| && j < |a|
        invariant j <= |a| && i == start + j <= |before| && index0 == old(index0)
        invariant entries == Overwritten(before, start, a, j)
      {
        OverwriteStep(before, start, a, j);
        entries := entries[i := a[j]];
        i, j := i + 1, j + 1;
      }
      OverwriteEnd(old(Value()), index, a, j);
      entries := entries + a[j..];
      i := i + |a[j..]|;
      if i < |entries| && entries[i - 1].term > entries[i].term {
        entries := entries[..i];
      }
    }

    method CutOffHead(index: nat)
      requires index0 <= index <= Value().Length()
      modifies this
      ensures Value() == old(Value().CutOffHead(index))
    {
      entries := entries[index - index0..];
      index0 := index;
    }

    method CutOffTail(index: nat)
      requires Value().Holds(index)
      modifies this
      ensures Value() == old(Value().CutOffTail(index))
    {
      if index == index0 {
        entries := entries[..1];
      } else {
        entries := entries[..index - index0];
      }
    }
  }

  datatype Outgoing = Entries(peer: nat, args: AppendArgs) | Install(peer: nat, install: InstallArgs)

  /** What a leader sends in one round, peer by peer: a snapshot where the entry before the next one is behind it. */
  function Round(s: Server, me: nat, peers: nat): seq<Outgoing>
    requires RoundSafe(s, me, peers)
  {
    if peers == 0 then []
    else
      var peer := peers - 1;
      assert peer != me ==> PeerSafe(s, peer);
      Round(s, me, peer)
      + (if peer == me then []
         else if s.nextIndex[peer] - 1 < s.snapshotIndex then [Install(peer, InstallArgsFor(s, me))]
         else [Entries(peer, AppendArgsFor(s, me, peer))])
  }

  datatype Reply = Lost | Answer(vote: VoteReply)

  /** Counting votes as they come in; a refusal from a later term ends the count. */
  function Count(s: Server, replies: seq<Reply>, n: nat, votes: nat): (Server, nat) {
    if votes >= Majority(n) || replies == [] then (s, votes)
    else if replies[0].Lost? then Count(s, replies[1..], n, votes)
    else if replies[0].vote.granted then Count(s, replies[1..], n, votes + 1)
    else if replies[0].vote.term > s.currentTerm then (StepDown(s, replies[0].vote.term), votes)
    else Count(s, replies[1..], n, votes)
  }

  function Grants(replies: seq<Reply>): nat {
    if replies == [] then 0
    else (if replies[0].Answer? && replies[0].vote.granted then 1 else 0) + Grants(replies[1..])
  }

  /**
   * The count is the candidate's own vote and the grants received, as far as a majority needs them,
   * unless a refusal from a later term ended it; and counting can change nothing but step down.
   */
  lemma {:induction false} CountIsGrants(s: Server, replies: seq<Reply>, n: nat, votes: nat)
    ensures var (t, count) := Count(s, replies, n, votes);
            && votes <= count <= votes + Grants(replies)
            && (t == s || (t.currentTerm > s.currentTerm && t == StepDown(s, t.currentTerm)))
            && (t == s && votes <= Majority(n) ==> count == Min(votes + Grants(replies), Majority(n)))
  {
    if replies != [] {
      CountIsGrants(s, replies[1..], n, votes);
      CountIsGrants(s, replies[1..], n, votes + 1);
    }
  }

  /** Reply `j` is a refusal from a later term, and comes up before there is a majority. */
  predicate EndsCount(s: Server, replies: seq<Reply>, n: nat, votes: nat, j: nat) {
    && j < |replies| && replies[j].Answer? && !replies[j].vote.granted && replies[j].vote.term > s.currentTerm
    && votes + Grants(replies[..j]) < Majority(n)
  }

  predicate EndsFirst(s: Server, replies: seq<Reply>, n: nat, votes: nat, j: nat) {
    EndsCount(s, replies, n, votes, j) && forall i: nat :: i < j ==> !EndsCount(s, replies, n, votes, i)
  }

  function Own(replies: seq<Reply>): nat
    requires replies != []
  {
    if replies[0].Answer? && replies[0].vote.granted then 1 else 0
  }

  lemma EndsLater(s: Server, replies: seq<Reply>, n: nat, votes: nat, j: nat)
    requires replies != [] && j > 0
    ensures EndsCount(s, replies, n, votes, j) <==> EndsCount(s, replies[1..], n, votes + Own(replies), j - 1)
    ensures j <= |replies| ==> Grants(replies[..j]) == Own(replies) + Grants(replies[1..][..j - 1])
  {
    if j <= |replies| { assert replies[..j][1..] == replies[1..][..j - 1]; }
  }

  lemma {:induction false} CountEnds(s: Server, replies: seq<Reply>, n: nat, votes: nat, j: nat)
    requires EndsFirst(s, replies, n, votes, j)
    ensures Count(s, replies, n, votes) == (StepDown(s, replies[j].vote.term), votes + Grants(replies[..j]))
  {
    if j > 0 {
      assert !EndsCount(s, replies, n, votes, 0);
      EndsLater(s, replies, n, votes, j);
      var rest, more := replies[1..], votes + Own(replies);
      forall i: nat | i < j - 1 ensures !EndsCount(s, rest, n, more, i) {
        EndsLater(s, replies, n, votes, i + 1);
      }
      CountEnds(s, rest, n, more, j - 1);
    }
  }

  lemma {:induction false} CountGoesOn(s: Server, replies: seq<Reply>, n: nat, votes: nat)
    requires forall j: nat :: !EndsCount(s, replies, n, votes, j)
    ensures Count(s, replies, n, votes).0 == s
  {
    if replies != [] && votes < Majority(n) {
      assert !EndsCount(s, replies, n, votes, 0);
      var rest, more := replies[1..], votes + Own(replies);
      forall j: nat ensures !EndsCount(s, rest, n, more, j) {
        EndsLater(s, replies, n, votes, j + 1);
      }
      CountGoesOn(s, rest, n, more);
    }
  }

  lemma FirstEnd(s: Server, replies: seq<Reply>, n: nat, votes: nat, j: nat) returns (k: nat)
    requires EndsCount(s, replies, n, votes, j)
    ensures EndsFirst(s, replies, n, votes, k)
  {
    hide EndsCount;
    k := 0;
    while !EndsCount(s, replies, n, votes, k)
      invariant k <= j && forall i: nat :: i < k ==> !EndsCount(s, replies, n, votes, i)
      decreases j - k
    {
      k := k + 1;
    }
  }

  /** Counting steps down exactly for a refusal from a later term that comes up before a majority, and for the first one. */
  lemma CountsExactly(s: Server, replies: seq<Reply>, n: nat, votes: nat)
    ensures Count(s, replies, n, votes).0 != s <==> exists j: nat :: EndsCount(s, replies, n, votes, j)
    ensures forall j: nat :: EndsFirst(s, replies, n, votes, j) ==>
              j < |replies| && replies[j].Answer?
              && Count(s, replies, n, votes) == (StepDown(s, replies[j].vote.term), votes + Grants(replies[..j]))
  {
    hide Count, Grants, EndsFirst;
    forall j: nat | EndsFirst(s, replies, n, votes, j)
      ensures j < |replies| && replies[j].Answer?
              && Count(s, replies, n, votes) == (StepDown(s, replies[j].vote.term), votes + Grants(replies[..j]))
    {
      EndsThere(s, replies, n, votes, j);
      CountEnds(s, replies, n, votes, j);
    }
    if j: nat :| EndsCount(s, replies, n, votes, j) {
      var k := FirstEnd(s, replies, n, votes, j);
      EndsThere(s, replies, n, votes, k);
    } else {
      CountGoesOn(s, replies, n, votes);
    }
  }

  lemma EndsThere(s: Server, replies: seq<Reply>, n: nat, votes: nat, j: nat)
    requires EndsFirst(s, replies, n, votes, j)
    ensures j < |replies| && replies[j].Answer? && replies[j].vote.term > s.currentTerm
  {
  }

  /** The message of a round to its peer: the suffix from the next index on, or the snapshot where that is behind it. */
  predicate RightMessage(s: Server, me: nat, m: Outgoing) {
    && PeerSafe(s, m.peer) && s.log.index0 <= s.snapshotIndex
    && var prev := s.nextIndex[m.peer] - 1;
      match m
      case Install(_, args) =>
        && prev < s.snapshotIndex
        && args.term == s.currentTerm && args.leader == me && args.data == s.snapshot
        && args.lastIncludedIndex == s.snapshotIndex && args.lastIncludedTerm == s.snapshotTerm
      case Entries(_, args) =>
        && prev >= s.snapshotIndex
        && args.term == s.currentTerm && args.leader == me && args.leaderCommit == s.commitIndex
        && args.prevLogIndex == prev && args.prevLogTerm == s.log.At(prev).term
        && |args.entries| == s.log.LastIndex() - prev
        && forall k :: 0 <= k < |args.entries| ==> args.entries[k] == s.log.At(prev + 1 + k)
  }

  predicate SendsTo(ms: seq<Outgoing>, peer: nat) { exists k :: 0 <= k < |ms| && ms[k].peer == peer }

  predicate AllRight(s: Server, me: nat, peers: nat, ms: seq<Outgoing>) {
    forall k :: 0 <= k < |ms| ==> ms[k].peer < peers && ms[k].peer != me && RightMessage(s, me, ms[k])
  }

  predicate PeersAscend(ms: seq<Outgoing>) {
    forall j, k :: 0 <= j < k < |ms| ==> ms[j].peer < ms[k].peer
  }

  lemma SendsMore(ms: seq<Outgoing>, m: Outgoing, peer: nat)
    ensures SendsTo(ms + [m], peer) <==> SendsTo(ms, peer) || m.peer == peer
  {
    assert (ms + [m])[|ms|] == m;
    if SendsTo(ms, peer) {
      var k :| 0 <= k < |ms| && ms[k].peer == peer;
      assert (ms + [m])[k].peer == peer;
    }
  }

  lemma LastMessage(s: Server, me: nat, peer: nat)
    requires RoundSafe(s, me, peer + 1) && peer != me
    ensures PeerSafe(s, peer)
    ensures var m := if s.nextIndex[peer] - 1 < s.snapshotIndex then Install(peer, InstallArgsFor(s, me))
                     else Entries(peer, AppendArgsFor(s, me, peer));
            && m.peer == peer && RightMessage(s, me, m)
            && Round(s, me, peer + 1) == Round(s, me, peer) + [m]
  {
    assert PeerSafe(s, peer);
  }

  /** A round has exactly one message for each other peer, the right one, in the order of the peers. */
  lemma {:induction false} RoundIs(s: Server, me: nat, peers: nat)
    requires RoundSafe(s, me, peers)
    ensures AllRight(s, me, peers, Round(s, me, peers)) && PeersAscend(Round(s, me, peers))
    ensures forall peer: nat :: SendsTo(Round(s, me, peers), peer) <==> peer < peers && peer != me
  {
    hide RightMessage, SendsTo, Round;
    if peers == 0 {
      NoRound(s, me);
    } else {
      var last := peers - 1;
      RoundIs(s, me, last);
      if last == me {
        SkipsMe(s, me);
      } else {
        LastMessage(s, me, last);
        var before := Round(s, me, last);
        var m := Round(s, me, peers)[|before|];
        forall peer: nat ensures SendsTo(before + [m], peer) <==> SendsTo(before, peer) || m.peer == peer {
          SendsMore(before, m, peer);
        }
      }
    }
  }

  lemma NoRound(s: Server, me: nat)
    requires RoundSafe(s, me, 0)
    ensures Round(s, me, 0) == [] && forall peer: nat :: !SendsTo([], peer)
  {
  }

  lemma SkipsMe(s: Server, me: nat)
    requires RoundSafe(s, me, me + 1)
    ensures Round(s, me, me + 1) == Round(s, me, me)
  {
  }

  /** Overwriting entry by entry and then appending the rest. */
  ghost function Overwritten(before: seq<Entry>, start: nat, a: seq<Entry>, j: nat): (r: seq<Entry>)
    requires start + j <= |before| && j <= |a|
    ensures |r| == |before|
  {
    before[..start] + a[..j] + before[start + j..]
  }

  lemma OverwriteStart(before: seq<Entry>, start: nat, a: seq<Entry>)
    requires start <= |before|
    ensures Overwritten(before, start, a, 0) == before
  {
  }

  lemma OverwriteStep(before: seq<Entry>, start: nat, a: seq<Entry>, j: nat)
    requires start + j < |before| && j < |a|
    ensures Overwritten(before, start, a, j)[start + j := a[j]] == Overwritten(before, start, a, j + 1)
  {
  }

  lemma OverwriteEnd(log: Log, index: nat, a: seq<Entry>, j: nat)
    requires log.CanPlace(index, a) && j <= |a| && index - log.index0 + j <= |log.entries|
    requires j == |a| || index - log.index0 + j == |log.entries|
    ensures var start, before := index - log.index0, log.entries;
            var all := Overwritten(before, start, a, j) + a[j..];
            && 0 < start + |a| <= |all|
            && log.Place(index, a) == log.(entries := if start + |a| < |all| && all[start + |a| - 1].term > all[start + |a|].term
                                                      then all[..start + |a|] else all)
  {
    hide Log.Place;
    PlaceIs(log, index, a);
    OverwrittenAll(log.entries, index - log.index0, a, j);
  }

  lemma OverwrittenAll(before: seq<Entry>, start: nat, a: seq<Entry>, j: nat)
    requires start + j <= |before| && j <= |a| && (j == |a| || start + j == |before|) && (start > 0 || |a| > 0)
    ensures var all := Overwritten(before, start, a, j) + a[j..];
            && |all| >= start + |a| && all[..start + |a|] == before[..start] + a
            && all[start + |a|..] == (if start + |a| < |before| then before[start + |a|..] else [])
            && all == all[..start + |a|] + all[start + |a|..]
  {
    assert a[..j] + a[j..] == a;
  }

  class Raft {
    const me: nat
    const peers: nat
    var currentTerm: nat
    var votedFor: int
    var log: MutableLog
    var snapshot: seq<Entry>
    var snapshotIndex: nat
    var snapshotTerm: nat
    var commitIndex: nat
    var role: Role
    var nextIndex: seq<nat>
    var matchIndex: seq<nat>

    function View(): Server
      reads this, log
    {
      Server(currentTerm, votedFor, log.Value(), snapshot, snapshotIndex, snapshotTerm, commitIndex, role,
             nextIndex, matchIndex)
    }

    /** Make on a server that never ran. */
    constructor (me: nat, peers: nat)
      ensures View() == Initial() && this.me == me && this.peers == peers && fresh(log)
    {
      this.me, this.peers := me, peers;
      currentTerm, votedFor := 0, NOBODY;
      log := new MutableLog([DUMMY], 0);
      snapshot, snapshotIndex, snapshotTerm, commitIndex := [DUMMY], 0, 0, 0;
      role, nextIndex, matchIndex := Follower, [], [];
    }

    /** Make after a crash: the persisted fields of the server that went down come back. */
    constructor ReadPersist(me: nat, peers: nat, saved: Server)
      ensures View() == Restart(saved) && this.me == me && this.peers == peers && fresh(log)
    {
      this.me, this.peers := me, peers;
      currentTerm, votedFor := saved.currentTerm, saved.votedFor;
      log := new MutableLog(saved.log.entries, saved.snapshotIndex);
      snapshot, snapshotIndex, snapshotTerm, commitIndex := saved.snapshot, saved.snapshotIndex, saved.snapshotTerm, 0;
      role, nextIndex, matchIndex := Follower, [], [];
    }

    method StepDownTo(term: nat)
      modifies this
      ensures View() == StepDown(old(View()), term) && log == old(log)
    {
      currentTerm := term;
      role := Follower;
      votedFor := NOBODY;
    }

    method HandleRequestVote(args: VoteArgs) returns (reply: VoteReply)
      requires |log.entries| > 0
      modifies this
      ensures (View(), reply) == RequestVote(old(View()), args) && log == old(log)
    {
      var term, granted := currentTerm, false;
      if args.term < currentTerm {
        return VoteReply(term, false);
      }
      if args.term > currentTerm {
        StepDownTo(args.term);
      }
      if votedFor == NOBODY || votedFor == args.candidate {
        var last := log.Value().LastEntry().term;
        var upToDate := args.lastLogTerm > last
                        || (args.lastLogTerm == last && args.lastLogIndex >= log.Value().LastIndex());
        if upToDate {
          votedFor := args.candidate;
          granted := true;
        }
      }
      reply := VoteReply(term, granted);
    }

    /** An election timeout of a server that does not lead. */
    method BeginElection() returns (args: VoteArgs)
      requires role != Leader && |log.entries| > 0
      modifies this
      ensures View() == StartElection(old(View()), me) && log == old(log)
      ensures args == ElectionArgs(View(), me)
    {
      role := Candidate;
      currentTerm := currentTerm + 1;
      votedFor := me;
      args := VoteArgs(currentTerm, me, log.Value().LastIndex(), log.Value().LastEntry().term);
    }

    method CountVotes(replies: seq<Reply>) returns (count: nat)
      modifies this
      ensures (View(), count) == Count(old(View()), replies, peers, 1) && log == old(log)
    {
      count := 1;
      var majority := peers / 2 + 1;
      var i := 0;
      while count < majority && i < |replies|
        invariant 0 <= i <= |replies| && log == old(log) && View() == old(View())
        invariant Count(old(View()), replies, peers, 1) == Count(View(), replies[i..], peers, count)
      {
        var reply := replies[i];
        assert replies[i..][1..] == replies[i + 1..];
        if reply.Answer? {
          if reply.vote.granted {
            count := count + 1;
          } else if reply.vote.term > currentTerm {
            StepDownTo(reply.vote.term);
            return;
          }
        }
        i := i + 1;
      }
    }

    /** The end of an election: lead only if this is still the same candidacy and the votes suffice. */
    method FinishElection(term: nat, votes: nat)
      requires |log.entries| > 0
      modifies this
      ensures log == old(log)
      ensures View() == if old(currentTerm) == term && old(role) == Candidate && votes >= Majority(peers)
                        then BecomeLeader(old(View()), peers) else old(View())
    {
      if currentTerm == term && role == Candidate && votes >= peers / 2 + 1 {
        role := Leader;
        nextIndex := seq(peers, k => 0);
        var i := 0;
        while i < peers
          invariant 0 <= i <= peers == |nextIndex| && log == old(log)
          invariant forall k :: 0 <= k < i ==> nextIndex[k] == log.Value().LastIndex() + 1
          invariant View() == old(View()).(role := Leader, nextIndex := nextIndex)
        {
          nextIndex := nextIndex[i := log.Value().LastIndex() + 1];
          i := i + 1;
        }
        matchIndex := seq(peers, k => 0);
        assert nextIndex == BecomeLeader(old(View()), peers).nextIndex;
      }
    }

    method Submit(command: Command) returns (index: nat, term: nat, isLeader: bool)
      modifies log
      ensures term == currentTerm && isLeader == (role == Leader)
      ensures View() == if isLeader then RaftServer.Start(old(View()), command) else old(View())
      ensures isLeader ==> View().log.Holds(index) && index == View().log.LastIndex()
                           && View().log.At(index) == Entry(term, command)
    {
      index, term, isLeader := 0, currentTerm, role == Leader;
      if isLeader {
        log.Append(Entry(currentTerm, command));
        index := log.Value().LastIndex();
      }
    }

    method CommitAsFollower(leaderCommit: nat)
      requires |log.entries| > 0
      modifies this`commitIndex
      ensures View() == FollowerCommit(old(View()), leaderCommit)
    {
      if leaderCommit > commitIndex {
        commitIndex := Min(leaderCommit, log.Value().LastIndex());
      }
    }

    method HandleAppendEntries(args: AppendArgs) returns (reply: AppendReply)
      requires AppendSafe(View(), args)
      modifies this, log
      ensures (View(), reply) == AppendEntries(old(View()), args) && log == old(log)
    {
      hide Log.Place, Log.CutOffTail, FollowerCommit;
      var term := currentTerm;
      if args.term < currentTerm {
        return AppendReply(term, 0, 0, false);
      }
      if args.term > currentTerm || role == Candidate {
        StepDownTo(args.term);
      }
      var prev := args.prevLogIndex;
      if prev > log.Value().LastIndex() {
        reply := AppendReply(term, log.Value().LastEntry().term, log.Value().LastIndex(), false);
      } else if prev < snapshotIndex {
        var i := snapshotIndex - prev - 1;
        if |args.entries| > i {
          log.Place(snapshotIndex, args.entries[i..]);
          CommitAsFollower(args.leaderCommit);
        }
        reply := AppendReply(term, 0, 0, true);
      } else if log.Value().At(prev).term != args.prevLogTerm {
        reply := AppendReply(term, log.Value().At(prev).term, prev, false);
        log.CutOffTail(prev);
      } else {
        log.Place(prev + 1, args.entries);
        CommitAsFollower(args.leaderCommit);
        reply := AppendReply(term, 0, 0, true);
      }
    }

    /** One round of heartbeats: entries for every peer the log still reaches, a snapshot for the others. */
    method ReplicateRound() returns (out: seq<Outgoing>)
      requires RoundSafe(View(), me, peers)
      ensures out == Round(View(), me, peers)
    {
      out := [];
      var peer := 0;
      while peer < peers
        invariant 0 <= peer <= peers && out == Round(View(), me, peer)
      {
        if peer != me {
          assert PeerSafe(View(), peer);
          var prev := nextIndex[peer] - 1;
          assert matchIndex[peer] <= prev;
          if prev < snapshotIndex {
            var args := InstallArgs(currentTerm, me, snapshotIndex, snapshotTerm, snapshot);
            out := out + [Install(peer, args)];
          } else {
            var args := AppendArgs(currentTerm, me, prev, log.Value().At(prev).term, log.Value().Slice(prev + 1), commitIndex);
            out := out + [Entries(peer, args)];
          }
        }
        peer := peer + 1;
      }
    }

    method CommitAsLeader()
      requires CommitSafe(View(), me)
      modifies this`commitIndex
      ensures View() == LeaderCommit(old(View()), me)
    {
      var sorted := SortInts(matchIndex[me := log.Value().LastIndex()]);
      var c := sorted[(|matchIndex| + 1) / 2 - 1];
      if c <= snapshotIndex {
        return;
      }
      if (log.Value().At(c).term == currentTerm || c == sorted[0]) && c > commitIndex {
        commitIndex := c;
      }
    }

    method RollBack(reply: AppendReply) returns (next: nat)
      requires reply.conflictIndex >= snapshotIndex ==> log.Value().Holds(reply.conflictIndex)
      ensures next == RolledBack(View(), reply)
    {
      if reply.conflictIndex < snapshotIndex {
        next := reply.conflictIndex + 1;
      } else if log.Value().At(reply.conflictIndex).term == reply.conflictTerm {
        next := reply.conflictIndex + 1;
      } else {
        var term := log.Value().At(reply.conflictIndex).term;
        next := reply.conflictIndex;
        while log.Value().At(next).term == term && next > log.index0
          invariant log.Value().Holds(next)
          invariant StepOver(log.Value(), reply.conflictIndex, term) == StepOver(log.Value(), next, term)
        {
          next := next - 1;
        }
        next := next + 1;
      }
    }

    method HandleAppendReply(peer: nat, args: AppendArgs, reply: AppendReply)
      requires ReplySafe(View(), me, peer, args, reply)
      modifies this
      ensures View() == HandleReply(old(View()), me, peer, args, reply) && log == old(log)
    {
      if args.term != currentTerm || role != Leader {
        return;
      }
      if reply.success {
        var matched := args.prevLogIndex + |args.entries|;
        if matchIndex[peer] < matched {
          matchIndex := matchIndex[peer := matched];
          CommitAsLeader();
        }
        nextIndex := nextIndex[peer := matchIndex[peer] + 1];
      } else if reply.term > currentTerm {
        StepDownTo(reply.term);
      } else {
        var next := RollBack(reply);
        nextIndex := nextIndex[peer := Max(matchIndex[peer] + 1, next)];
      }
    }

    /** InstallSnapshot on a follower; `lastApplied` is what its apply loop has booked. */
    method HandleInstallSnapshot(args: InstallArgs, lastApplied: nat) returns (term: nat)
      requires InstallSafe(View())
      modifies this, log
      ensures View() == InstallSnapshot(old(View()), lastApplied, args) && term == old(currentTerm)
      ensures log == old(log) || fresh(log)
    {
      term := currentTerm;
      if args.term < currentTerm {
        return;
      }
      if args.term > currentTerm || role == Candidate {
        StepDownTo(args.term);
      }
      if snapshotIndex >= args.lastIncludedIndex || lastApplied >= args.lastIncludedIndex {
        return;
      }
      if log.Value().LastIndex() > args.lastIncludedIndex {
        log.CutOffHead(args.lastIncludedIndex);
      } else {
        log := new MutableLog([Entry(args.lastIncludedTerm, Nil)], args.lastIncludedIndex);
      }
      snapshotIndex := args.lastIncludedIndex;
      snapshotTerm := args.lastIncludedTerm;
      snapshot := args.data;
    }

    method HandleSnapshotReply(peer: nat, args: InstallArgs, term: nat)
      requires InstallReplySafe(View(), peer, args)
      modifies this
      ensures View() == HandleInstallReply(old(View()), peer, args, term) && log == old(log)
    {
      if args.term != currentTerm {
        return;
      }
      if term > currentTerm {
        StepDownTo(term);
      } else if matchIndex[peer] < args.lastIncludedIndex {
        matchIndex := matchIndex[peer := args.lastIncludedIndex];
        nextIndex := nextIndex[peer := args.lastIncludedIndex + 1];
      }
    }

    /** Snapshot(index): `data` stands for the entries up to and including `index`. */
    method TakeSnapshot(index: nat, data: seq<Entry>)
      requires log.Value().Holds(index) && |snapshot| == log.index0 + 1 && data == View().Full()[..index + 1]
      modifies this, log
      ensures View() == Compact(old(View()), index) && log == old(log)
    {
      if index <= snapshotIndex {
        return;
      }
      snapshot := data;
      snapshotTerm := log.Value().At(index).term;
      snapshotIndex := index;
      log.CutOffHead(index);
    }
  }
}
