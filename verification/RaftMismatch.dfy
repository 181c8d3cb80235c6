/**
 * A run of five servers at whose end the request to install a snapshot is under way, and handling it
 * breaks log matching. Server 0 leads term 1 and leaves two entries on itself and on server 4. Server 1
 * leads term 2, commits one entry with servers 2 and 3, takes a snapshot, and sends it to server 0.
 */
module RaftMismatch {
  import opened RaftLog
  import opened RaftServer
  import opened RaftCluster

  const A := Entry(1, Op("a"))
  const B := Entry(1, Op("b"))
  const C := Entry(2, Op("c"))
  const ASK1 := VoteArgs(1, 0, 0, 0)
  const ASK2 := VoteArgs(2, 1, 0, 0)
  const SEND1 := AppendArgs(1, 0, 0, 0, [A, B], 0)
  const SEND2 := AppendArgs(2, 1, 0, 0, [C], 0)
  const ZEROS := [0, 0, 0, 0, 0]
  const ONES := [1, 1, 1, 1, 1]

  function Follows(term: nat, votedFor: int, log: seq<Entry>): Server {
    Server(term, votedFor, Log(log, 0), [DUMMY], 0, 0, 0, Follower, [], [])
  }

  function Leads(term: nat, me: nat, log: seq<Entry>, next: seq<nat>, matched: seq<nat>): Server {
    Server(term, me, Log(log, 0), [DUMMY], 0, 0, 0, Leader, next, matched)
  }

  function Last(run: seq<Cluster>): Cluster
    requires run != []
  {
    run[|run| - 1]
  }

  lemma Go(run: seq<Cluster>, step: Step) returns (more: seq<Cluster>)
    requires IsRun(run) && Enabled(Last(run), step)
    ensures IsRun(more) && Last(more) == Apply(Last(run), step)
  {
    hide Enabled, Apply;
    more := run + [Apply(Last(run), step)];
    forall k: nat | k < |more| - 1 ensures StepAt(more, k) {
      if k < |run| - 1 {
        assert StepAt(run, k);
      } else {
        assert Next(more[k], more[k + 1]);
      }
    }
  }

  /** A follower that has not voted in the term grants its vote. */
  lemma Votes(run: seq<Cluster>, i: nat, args: VoteArgs, s: Server) returns (more: seq<Cluster>)
    requires IsRun(run) && i < |Last(run).servers| && Last(run).servers[i] == s && VoteRequest(args) in Last(run).msgs
    requires args.candidate != i && s.currentTerm < args.term && s.log.entries == [DUMMY] && s.log.index0 == 0
    ensures IsRun(more) && Last(more).servers == Last(run).servers[i := StepDown(s, args.term).(votedFor := args.candidate)]
    ensures Last(run).msgs <= Last(more).msgs && VoteResponse(i, args, VoteReply(s.currentTerm, true)) in Last(more).msgs
  {
    more := Go(run, Vote(i, args));
  }

  /** With two votes besides its own a candidate leads. */
  lemma Wins(run: seq<Cluster>, i: nat, a: nat, b: nat, args: VoteArgs, r: VoteReply, q: VoteReply) returns (more: seq<Cluster>)
    requires IsRun(run) && |Last(run).servers| == 5 && i < 5 && a < 5 && b < 5 && i != a && i != b && a != b
    requires Last(run).servers[i].role == Candidate && |Last(run).servers[i].log.entries| > 0
    requires args.term == Last(run).servers[i].currentTerm && args.candidate == i && r.granted && q.granted
    requires VoteResponse(a, args, r) in Last(run).msgs && VoteResponse(b, args, q) in Last(run).msgs
    ensures IsRun(more) && Last(more).msgs == Last(run).msgs
    ensures Last(more).servers == Last(run).servers[i := BecomeLeader(Last(run).servers[i], 5)]
  {
    hide Servers, Granted;
    var c, voters := Last(run), {i, a, b};
    assert |voters| == 3;
    assert voters <= Servers(5);
    IsGranted(c, i, a, args, r);
    IsGranted(c, i, b, args, q);
    assert forall v :: v in voters && v != i ==> v == a || v == b;
    more := Go(run, Elected(i, voters));
  }

  lemma IsGranted(c: Cluster, i: nat, voter: nat, args: VoteArgs, r: VoteReply)
    requires VoteResponse(voter, args, r) in c.msgs && args.candidate == i && r.granted
    ensures Granted(c, i, args.term, voter)
  {
  }

  /** A follower with nothing but the first entry takes what the leader sends. */
  lemma Takes(run: seq<Cluster>, i: nat, args: AppendArgs, s: Server) returns (more: seq<Cluster>)
    requires IsRun(run) && i < |Last(run).servers| && Last(run).servers[i] == s && AppendRequest(i, args) in Last(run).msgs
    requires args.term >= s.currentTerm && s.role == Follower && s.log == Log([DUMMY], 0) && s.snapshotIndex == 0
    requires args.prevLogIndex == args.prevLogTerm == args.leaderCommit == 0
    ensures IsRun(more) && Last(run).msgs <= Last(more).msgs
    ensures Last(more).servers
            == Last(run).servers[i := AfterTerm(s, args.term).(log := Log([DUMMY] + args.entries, 0))]
    ensures AppendResponse(i, args, AppendReply(s.currentTerm, 0, 0, true)) in Last(more).msgs
  {
    assert s.log.Place(1, args.entries) == Log([DUMMY] + args.entries, 0);
    more := Go(run, Accept(i, args));
  }

  lemma Submits(run: seq<Cluster>, i: nat, command: Command) returns (more: seq<Cluster>)
    requires IsRun(run) && i < |Last(run).servers|
    requires Last(run).servers[i].role == Leader && |Last(run).servers[i].log.entries| > 0
    ensures IsRun(more) && Last(more).msgs == Last(run).msgs
    ensures Last(more).servers == Last(run).servers[i := RaftServer.Start(Last(run).servers[i], command)]
  {
    more := Go(run, Submit(i, command));
  }

  lemma Replicates(run: seq<Cluster>, i: nat, peer: nat) returns (more: seq<Cluster>)
    requires IsRun(run) && i < |Last(run).servers| && peer < |Last(run).servers| && peer != i
    requires Last(run).servers[i].role == Leader && |Last(run).servers[i].log.entries| > 0
    requires SendsEntries(Last(run).servers[i], peer)
    ensures IsRun(more) && Last(run).msgs <= Last(more).msgs && Last(more).servers == Last(run).servers
    ensures AppendRequest(peer, AppendArgsFor(Last(run).servers[i], i, peer)) in Last(more).msgs
  {
    more := Go(run, Replicate(i, peer));
  }

  lemma Begin() returns (run: seq<Cluster>)
    ensures IsRun(run) && Last(run) == Cluster([Initial(), Initial(), Initial(), Initial(), Initial()], {})
  {
    run := [Cluster([Initial(), Initial(), Initial(), Initial(), Initial()], {})];
  }

  lemma FirstElection(run: seq<Cluster>) returns (more: seq<Cluster>)
    requires IsRun(run) && Last(run) == Cluster([Initial(), Initial(), Initial(), Initial(), Initial()], {})
    ensures IsRun(more)
    ensures Last(more).servers == [Leads(1, 0, [DUMMY], ONES, ZEROS), Follows(1, 0, [DUMMY]), Follows(1, 0, [DUMMY]),
                                   Initial(), Initial()]
  {
    more := Go(run, Timeout(0));
    var cand := Follows(1, 0, [DUMMY]).(role := Candidate);
    assert Last(more).servers == [cand, Initial(), Initial(), Initial(), Initial()];
    assert VoteRequest(ASK1) in Last(more).msgs;
    more := Votes(more, 1, ASK1, Initial());
    more := Votes(more, 2, ASK1, Initial());
    assert Last(more).servers == [cand, Follows(1, 0, [DUMMY]), Follows(1, 0, [DUMMY]), Initial(), Initial()];
    more := Wins(more, 0, 1, 2, ASK1, VoteReply(0, true), VoteReply(0, true));
    assert BecomeLeader(cand, 5) == Leads(1, 0, [DUMMY], ONES, ZEROS);
  }

  lemma FirstReign(run: seq<Cluster>) returns (more: seq<Cluster>)
    requires IsRun(run)
    requires Last(run).servers == [Leads(1, 0, [DUMMY], ONES, ZEROS), Follows(1, 0, [DUMMY]), Follows(1, 0, [DUMMY]),
                                   Initial(), Initial()]
    ensures IsRun(more)
    ensures Last(more).servers == [Leads(1, 0, [DUMMY, A, B], ONES, ZEROS), Follows(1, 0, [DUMMY]), Follows(1, 0, [DUMMY]),
                                   Initial(), Follows(1, NOBODY, [DUMMY, A, B])]
  {
    more := Submits(run, 0, Op("a"));
    assert Last(more).servers[0] == Leads(1, 0, [DUMMY, A], ONES, ZEROS);
    more := Submits(more, 0, Op("b"));
    assert Last(more).servers[0] == Leads(1, 0, [DUMMY, A, B], ONES, ZEROS);
    assert [DUMMY, A, B][1..] == [A, B];
    more := Replicates(more, 0, 4);
    assert AppendRequest(4, SEND1) in Last(more).msgs;
    more := Takes(more, 4, SEND1, Initial());
    assert [DUMMY] + [A, B] == [DUMMY, A, B];
  }

  lemma SecondElection(run: seq<Cluster>) returns (more: seq<Cluster>)
    requires IsRun(run)
    requires Last(run).servers == [Leads(1, 0, [DUMMY, A, B], ONES, ZEROS), Follows(1, 0, [DUMMY]), Follows(1, 0, [DUMMY]),
                                   Initial(), Follows(1, NOBODY, [DUMMY, A, B])]
    ensures IsRun(more)
    ensures Last(more).servers == [Leads(1, 0, [DUMMY, A, B], ONES, ZEROS), Leads(2, 1, [DUMMY], ONES, ZEROS),
                                   Follows(2, 1, [DUMMY]), Follows(2, 1, [DUMMY]), Follows(1, NOBODY, [DUMMY, A, B])]
  {
    more := Go(run, Timeout(1));
    var cand := Follows(2, 1, [DUMMY]).(role := Candidate);
    assert Last(more).servers[1] == cand && VoteRequest(ASK2) in Last(more).msgs;
    more := Votes(more, 2, ASK2, Follows(1, 0, [DUMMY]));
    more := Votes(more, 3, ASK2, Initial());
    more := Wins(more, 1, 2, 3, ASK2, VoteReply(1, true), VoteReply(0, true));
    assert BecomeLeader(cand, 5) == Leads(2, 1, [DUMMY], ONES, ZEROS);
  }

  lemma SecondReign(run: seq<Cluster>) returns (more: seq<Cluster>)
    requires IsRun(run)
    requires Last(run).servers == [Leads(1, 0, [DUMMY, A, B], ONES, ZEROS), Leads(2, 1, [DUMMY], ONES, ZEROS),
                                   Follows(2, 1, [DUMMY]), Follows(2, 1, [DUMMY]), Follows(1, NOBODY, [DUMMY, A, B])]
    ensures IsRun(more)
    ensures Last(more).servers == [Leads(1, 0, [DUMMY, A, B], ONES, ZEROS), Leads(2, 1, [DUMMY, C], ONES, ZEROS),
                                   Follows(2, 1, [DUMMY, C]), Follows(2, 1, [DUMMY, C]), Follows(1, NOBODY, [DUMMY, A, B])]
    ensures AppendResponse(2, SEND2, AppendReply(2, 0, 0, true)) in Last(more).msgs
    ensures AppendResponse(3, SEND2, AppendReply(2, 0, 0, true)) in Last(more).msgs
  {
    more := Submits(run, 1, Op("c"));
    var led := Leads(2, 1, [DUMMY, C], ONES, ZEROS);
    assert Last(more).servers[1] == led;
    assert [DUMMY, C][1..] == [C];
    more := Replicates(more, 1, 2);
    assert AppendRequest(2, SEND2) in Last(more).msgs && Last(more).servers[1] == led;
    more := Replicates(more, 1, 3);
    assert AppendRequest(3, SEND2) in Last(more).msgs;
    more := Takes(more, 2, SEND2, Follows(2, 1, [DUMMY]));
    more := Takes(more, 3, SEND2, Follows(2, 1, [DUMMY]));
    assert [DUMMY] + [C] == [DUMMY, C];
  }

  lemma SortedOnce()
    ensures SortInts([0, 1, 1, 0, 0]) == [0, 0, 0, 1, 1]
  {
    assert [0, 1, 1, 0, 0][1..] == [1, 1, 0, 0] && [1, 1, 0, 0][1..] == [1, 0, 0] && [1, 0, 0][1..] == [0, 0] && [0, 0][1..] == [0];
    assert SortInts([0]) == [0] && SortInts([0, 0]) == [0, 0];
    assert SortInts([1, 0, 0]) == [0, 0, 1];
    assert SortInts([1, 1, 0, 0]) == [0, 0, 1, 1];
  }

  lemma SortedTwice()
    ensures SortInts([0, 1, 1, 1, 0]) == [0, 0, 1, 1, 1]
  {
    assert [0, 1, 1, 1, 0][1..] == [1, 1, 1, 0] && [1, 1, 1, 0][1..] == [1, 1, 0] && [1, 1, 0][1..] == [1, 0] && [1, 0][1..] == [0];
    assert SortInts([0]) == [0] && SortInts([1, 0]) == [0, 1];
    assert SortInts([1, 1, 0]) == [0, 1, 1];
    assert SortInts([1, 1, 1, 0]) == [0, 1, 1, 1];
  }

  /** One follower besides the leader is no majority of five; two are. */
  lemma FirstCount(s: Server)
    requires s == Leads(2, 1, [DUMMY, C], ONES, [0, 0, 1, 0, 0])
    ensures CommitSafe(s, 1) && LeaderCommit(s, 1) == s
  {
    SortedOnce();
    assert [0, 0, 1, 0, 0][1 := 1] == [0, 1, 1, 0, 0];
  }

  lemma SecondCount(s: Server)
    requires s == Leads(2, 1, [DUMMY, C], [1, 1, 2, 1, 1], [0, 0, 1, 1, 0])
    ensures CommitSafe(s, 1) && LeaderCommit(s, 1) == s.(commitIndex := 1)
  {
    SortedTwice();
    assert [0, 0, 1, 1, 0][1 := 1] == [0, 1, 1, 1, 0];
  }

  lemma FirstReply(s: Server)
    requires s == Leads(2, 1, [DUMMY, C], ONES, ZEROS)
    ensures ReplySafe(s, 1, 2, SEND2, AppendReply(2, 0, 0, true))
    ensures HandleReply(s, 1, 2, SEND2, AppendReply(2, 0, 0, true)) == Leads(2, 1, [DUMMY, C], [1, 1, 2, 1, 1], [0, 0, 1, 0, 0])
  {
    hide CommitSafe, LeaderCommit;
    assert ZEROS[2 := 1] == [0, 0, 1, 0, 0] && ONES[2 := 2] == [1, 1, 2, 1, 1];
    FirstCount(Matched(s, 2, SEND2));
  }

  lemma SecondReply(s: Server)
    requires s == Leads(2, 1, [DUMMY, C], [1, 1, 2, 1, 1], [0, 0, 1, 0, 0])
    ensures ReplySafe(s, 1, 3, SEND2, AppendReply(2, 0, 0, true))
    ensures HandleReply(s, 1, 3, SEND2, AppendReply(2, 0, 0, true))
            == Leads(2, 1, [DUMMY, C], [1, 1, 2, 2, 1], [0, 0, 1, 1, 0]).(commitIndex := 1)
  {
    hide CommitSafe, LeaderCommit;
    assert [0, 0, 1, 0, 0][3 := 1] == [0, 0, 1, 1, 0] && [1, 1, 2, 1, 1][3 := 2] == [1, 1, 2, 2, 1];
    SecondCount(Matched(s, 3, SEND2));
  }

  lemma Commits(run: seq<Cluster>) returns (more: seq<Cluster>)
    requires IsRun(run) && |Last(run).servers| == 5 && Last(run).servers[1] == Leads(2, 1, [DUMMY, C], ONES, ZEROS)
    requires AppendResponse(2, SEND2, AppendReply(2, 0, 0, true)) in Last(run).msgs
    requires AppendResponse(3, SEND2, AppendReply(2, 0, 0, true)) in Last(run).msgs
    ensures IsRun(more)
    ensures Last(more).servers
            == Last(run).servers[1 := Leads(2, 1, [DUMMY, C], [1, 1, 2, 2, 1], [0, 0, 1, 1, 0]).(commitIndex := 1)]
  {
    hide HandleReply, ReplySafe;
    FirstReply(Last(run).servers[1]);
    more := Go(run, Acknowledge(1, 2, SEND2, AppendReply(2, 0, 0, true)));
    SecondReply(Last(more).servers[1]);
    more := Go(more, Acknowledge(1, 3, SEND2, AppendReply(2, 0, 0, true)));
  }

  lemma Sends(run: seq<Cluster>) returns (more: seq<Cluster>)
    requires IsRun(run) && |Last(run).servers| == 5
    requires Last(run).servers[1] == Leads(2, 1, [DUMMY, C], [1, 1, 2, 2, 1], [0, 0, 1, 1, 0]).(commitIndex := 1)
    ensures IsRun(more) && |Last(more).servers| == 5 && InstallRequest(0, InstallArgs(2, 1, 1, 2, [DUMMY, C])) in Last(more).msgs
    ensures Last(more).servers[0] == Last(run).servers[0] && Last(more).servers[4] == Last(run).servers[4]
    ensures Last(more).servers[1].Full() == [DUMMY, C]
  {
    var s := Last(run).servers[1];
    assert s.Full() == [DUMMY, C] && [DUMMY, C][..2] == [DUMMY, C] && [DUMMY, C][1..] == [C];
    more := Go(run, Truncate(1, 1));
    assert Last(more).servers[1].snapshot == [DUMMY, C];
    more := Go(more, SendSnapshot(1, 0));
  }

  lemma AfterInstall(s: Server, x: Server, args: InstallArgs)
    requires s == Leads(1, 0, [DUMMY, A, B], ONES, ZEROS) && x == Follows(1, NOBODY, [DUMMY, A, B])
    requires args == InstallArgs(2, 1, 1, 2, [DUMMY, C])
    ensures InstallSafe(s) && InstallSnapshot(s, 0, args).Full() == [DUMMY, C, B] && x.Full() == [DUMMY, A, B]
    ensures !Matching(InstallSnapshot(s, 0, args).Full(), x.Full())
  {
    assert [DUMMY, A, B][1..] == [A, B] && [A, B][1..] == [B];
    var now, held := [DUMMY, C, B], [DUMMY, A, B];
    assert now[2].term == held[2].term && now[..3][1] != held[..3][1];
  }

  /** In a reachable state, handling a request that is under way leaves two servers whose logs do not match. */
  lemma InstallBreaksMatching() returns (run: seq<Cluster>, args: InstallArgs)
    ensures IsRun(run) && InstallRequest(0, args) in Last(run).msgs && |Last(run).servers| == 5
    ensures InstallSafe(Last(run).servers[0])
    ensures InstallSnapshot(Last(run).servers[0], 0, args).Full() == [DUMMY, C, B]
    ensures Last(run).servers[4].Full() == [DUMMY, A, B]
    ensures !Matching(InstallSnapshot(Last(run).servers[0], 0, args).Full(), Last(run).servers[4].Full())
  {
    hide IsRun, InstallSnapshot, Matching;
    args := InstallArgs(2, 1, 1, 2, [DUMMY, C]);
    run := Begin();
    run := FirstElection(run);
    run := FirstReign(run);
    run := SecondElection(run);
    run := SecondReign(run);
    run := Commits(run);
    run := Sends(run);
    AfterInstall(Last(run).servers[0], Last(run).servers[4], args);
  }
}
