/** A cluster of servers over a network that may lose, delay, reorder and replay messages. */
module RaftCluster {
  import opened RaftLog
  import opened RaftServer

  datatype Message =
    | VoteRequest(args: VoteArgs)
    | VoteResponse(voter: nat, args: VoteArgs, reply: VoteReply)
    | AppendRequest(to: nat, append: AppendArgs)
    | AppendResponse(from: nat, append: AppendArgs, answer: AppendReply)
    | InstallRequest(to: nat, install: InstallArgs)
    | InstallResponse(from: nat, install: InstallArgs, term: nat)

  /** `msgs` only grows: a message may be delivered any number of times, or never. */
  datatype Cluster = Cluster(servers: seq<Server>, msgs: set<Message>)

  datatype Step =
    | Timeout(i: nat)
    | Vote(i: nat, args: VoteArgs)
    | VoteRefused(i: nat, voter: nat, args: VoteArgs, reply: VoteReply)
    | Elected(i: nat, voters: set<nat>)
    | Submit(i: nat, command: Command)
    | Replicate(i: nat, peer: nat)
    | Accept(i: nat, append: AppendArgs)
    | Acknowledge(i: nat, peer: nat, append: AppendArgs, answer: AppendReply)
    | SendSnapshot(i: nat, peer: nat)
    | Install(i: nat, install: InstallArgs, lastApplied: nat)
    | InstallAcked(i: nat, peer: nat, install: InstallArgs, term: nat)
    | Reboot(i: nat)
    | Truncate(i: nat, index: nat)
    | Book(i: nat, index: nat)

  function Servers(n: nat): (r: set<nat>)
    ensures forall k: nat :: k in r <==> k < n
  {
    if n == 0 then {} else Servers(n - 1) + {n - 1}
  }

  lemma {:induction false} ServersSize(n: nat)
    ensures |Servers(n)| == n
  {
    if n > 0 {
      ServersSize(n - 1);
      var rest := Servers(n - 1);
      assert n - 1 !in rest && |rest + {n - 1}| == |rest| + 1;
    }
  }

  predicate Granted(c: Cluster, cand: nat, term: nat, voter: nat) {
    exists m :: m in c.msgs && m.VoteResponse? && m.voter == voter && m.reply.granted
                && m.args.term == term && m.args.candidate == cand
  }

  predicate IsInit(c: Cluster) {
    && |c.servers| > 0
    && (forall i :: 0 <= i < |c.servers| ==> c.servers[i] == Initial())
    && c.msgs == {}
  }

  /** When a step may happen: the conditions the code tests before it acts, under the same lock. */
  predicate Enabled(c: Cluster, step: Step) {
    && step.i < |c.servers|
    && var s := c.servers[step.i];
      && |s.log.entries| > 0
      && match step {
           case Timeout(_) => s.role != Leader
           case Vote(i, args) => VoteRequest(args) in c.msgs && args.candidate != i
           case VoteRefused(i, voter, args, reply) =>
             VoteResponse(voter, args, reply) in c.msgs && args.candidate == i
             && !reply.granted && reply.term > s.currentTerm
           case Elected(i, voters) =>
             && s.role == Candidate && i in voters
             && voters <= Servers(|c.servers|) && |voters| >= Majority(|c.servers|)
             && (forall v :: v in voters && v != i ==> Granted(c, i, s.currentTerm, v))
           case Submit(_, _) => s.role == Leader
           case Replicate(i, peer) =>
             s.role == Leader && peer != i && peer < |c.servers| && SendsEntries(s, peer)
           case Accept(i, args) => AppendRequest(i, args) in c.msgs && AppendSafe(s, args)
           case Acknowledge(i, peer, args, reply) =>
             && AppendResponse(peer, args, reply) in c.msgs && args.leader == i
             && ReplySafe(s, i, peer, args, reply)
           case SendSnapshot(i, peer) =>
             && s.role == Leader && peer != i && peer < |c.servers|
             && peer < |s.nextIndex| && s.nextIndex[peer] - 1 < s.snapshotIndex
           // the code does not test for agreement; without it a single step may break log matching
           case Install(i, args, lastApplied) =>
             && InstallRequest(i, args) in c.msgs && InstallSafe(s) && lastApplied <= Max(s.commitIndex, s.snapshotIndex)
             && (args.term >= s.currentTerm && IsNews(s, lastApplied, args) ==> Agrees(s, args))
           // only the leader that sent the request waits for the reply
           case InstallAcked(i, peer, args, term) =>
             && InstallResponse(peer, args, term) in c.msgs && args.leader == i
             && (args.term == s.currentTerm ==> s.role == Leader) && InstallReplySafe(s, peer, args)
           case Reboot(_) => true
           case Truncate(_, index) =>
             s.snapshotIndex < index <= s.commitIndex && s.log.Holds(index) && |s.snapshot| == s.log.index0 + 1
           // the loop may hold an older snapshot than the current one; at index 0 nothing changes
           case Book(_, index) => index <= s.snapshotIndex
         }
  }

  /** The server's new state, and the messages the step puts on the network. */
  function Effect(c: Cluster, step: Step): (Server, set<Message>)
    requires Enabled(c, step)
  {
    var s := c.servers[step.i];
    match step
    case Timeout(i) =>
      var t := StartElection(s, i);
      (t, {VoteRequest(ElectionArgs(t, i))})
    case Vote(i, args) =>
      var (t, reply) := RequestVote(s, args);
      (t, {VoteResponse(i, args, reply)})
    case VoteRefused(i, voter, args, reply) => (StepDown(s, reply.term), {})
    case Elected(i, voters) => (BecomeLeader(s, |c.servers|), {})
    case Submit(i, command) => (RaftServer.Start(s, command), {})
    case Replicate(i, peer) => (s, {AppendRequest(peer, AppendArgsFor(s, i, peer))})
    case Accept(i, args) =>
      var (t, reply) := AppendEntries(s, args);
      (t, {AppendResponse(i, args, reply)})
    case Acknowledge(i, peer, args, reply) => (HandleReply(s, i, peer, args, reply), {})
    case SendSnapshot(i, peer) => (s, {InstallRequest(peer, InstallArgsFor(s, i))})
    case Install(i, args, lastApplied) =>
      (InstallSnapshot(s, lastApplied, args), {InstallResponse(i, args, s.currentTerm)})
    case InstallAcked(i, peer, args, term) => (HandleInstallReply(s, peer, args, term), {})
    case Reboot(i) => (Restart(s), {})
    case Truncate(i, index) => (Compact(s, index), {})
    case Book(i, index) => (BookSnapshot(s, index), {})
  }

  function Apply(c: Cluster, step: Step): Cluster
    requires Enabled(c, step)
  {
    var (t, sent) := Effect(c, step);
    Cluster(c.servers[step.i := t], c.msgs + sent)
  }

  ghost predicate Next(c: Cluster, d: Cluster) {
    exists step :: Enabled(c, step) && d == Apply(c, step)
  }

  /** A run: every state follows from the one before it. */
  ghost predicate IsRun(run: seq<Cluster>) {
    && |run| > 0 && IsInit(run[0])
    && forall k {:trigger StepAt(run, k)} :: 0 <= k < |run| - 1 ==> StepAt(run, k)
  }

  ghost predicate StepAt(run: seq<Cluster>, k: nat)
    requires k + 1 < |run|
  {
    Next(run[k], run[k + 1])
  }
}
