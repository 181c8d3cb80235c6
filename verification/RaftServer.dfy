/** One Raft server as a value, and each lock-held region of the server as a function on it. */
module RaftServer {
  import opened RaftLog

  datatype Role = Leader | Follower | Candidate

  /**
   * `snapshot` stands for the service snapshot: it is the sequence of entries the snapshot
   * replaces, those up to and including `snapshotIndex`. The log keeps an entry at that index too, of
   * which only the term counts.
   */
  datatype Server = Server(
    currentTerm: nat,
    votedFor: int,
    log: Log,
    snapshot: seq<Entry>,
    snapshotIndex: nat,
    snapshotTerm: nat,
    commitIndex: nat,
    role: Role,
    nextIndex: seq<nat>,
    matchIndex: seq<nat>)
  {
    /** The whole log this server stands for: what the snapshot replaces, and what follows in the log. */
    function Full(): seq<Entry> { snapshot + log.Behind() }
  }

  const NOBODY := -1

  function Initial(): Server {
    Server(0, NOBODY, Log([DUMMY], 0), [DUMMY], 0, 0, 0, Follower, [], [])
  }

  function StepDown(s: Server, term: nat): Server {
    s.(currentTerm := term, role := Follower, votedFor := NOBODY)
  }

  // ---------------------------------------------------------------- elections

  datatype VoteArgs = VoteArgs(term: nat, candidate: nat, lastLogIndex: nat, lastLogTerm: nat)
  datatype VoteReply = VoteReply(term: nat, granted: bool)

  function StartElection(s: Server, me: nat): Server {
    s.(role := Candidate, currentTerm := s.currentTerm + 1, votedFor := me)
  }

  function ElectionArgs(s: Server, me: nat): VoteArgs
    requires |s.log.entries| > 0
  {
    VoteArgs(s.currentTerm, me, s.log.LastIndex(), s.log.LastEntry().term)
  }

  function RequestVote(s: Server, args: VoteArgs): (Server, VoteReply)
    requires |s.log.entries| > 0
  {
    if args.term < s.currentTerm then (s, VoteReply(s.currentTerm, false))
    else
      var t := if args.term > s.currentTerm then StepDown(s, args.term) else s;
      var last := t.log.LastEntry().term;
      var upToDate := args.lastLogTerm > last
                      || (args.lastLogTerm == last && args.lastLogIndex >= t.log.LastIndex());
      if (t.votedFor == NOBODY || t.votedFor == args.candidate) && upToDate
      then (t.(votedFor := args.candidate), VoteReply(s.currentTerm, true))
      else (t, VoteReply(s.currentTerm, false))
  }

  function Majority(n: nat): nat { n / 2 + 1 }

  function BecomeLeader(s: Server, n: nat): Server
    requires |s.log.entries| > 0
  {
    s.(role := Leader,
       nextIndex := seq(n, i => s.log.LastIndex() + 1),
       matchIndex := seq(n, i => 0))
  }

  // ---------------------------------------------------------------- replication

  datatype AppendArgs = AppendArgs(
    term: nat, leader: nat, prevLogIndex: nat, prevLogTerm: nat, entries: seq<Entry>, leaderCommit: nat)

  datatype AppendReply = AppendReply(term: nat, conflictTerm: nat, conflictIndex: nat, success: bool)

  function Start(s: Server, command: Command): Server {
    s.(log := s.log.Append(Entry(s.currentTerm, command)))
  }

  function Min(a: nat, b: nat): nat { if a < b then a else b }
  function Max(a: nat, b: nat): nat { if a > b then a else b }

  /** The arguments a leader sends to `peer`; with a lower next index it sends a snapshot instead. */
  predicate SendsEntries(s: Server, peer: nat) {
    && peer < |s.nextIndex|
    && s.nextIndex[peer] - 1 >= s.snapshotIndex
    && s.log.Holds(s.nextIndex[peer] - 1)
  }

  function AppendArgsFor(s: Server, me: nat, peer: nat): AppendArgs
    requires SendsEntries(s, peer)
  {
    var prev := s.nextIndex[peer] - 1;
    AppendArgs(s.currentTerm, me, prev, s.log.At(prev).term, s.log.Slice(prev + 1), s.commitIndex)
  }

  /** What a round asserts of a peer, and the bound its read of the log relies on. */
  predicate PeerSafe(s: Server, peer: nat) {
    && peer < |s.matchIndex| == |s.nextIndex| && |s.log.entries| > 0
    && s.matchIndex[peer] < s.nextIndex[peer] <= s.log.LastIndex() + 1
  }

  predicate RoundSafe(s: Server, me: nat, peers: nat) {
    && s.log.index0 <= s.snapshotIndex
    && forall peer: nat {:trigger PeerSafe(s, peer)} :: peer < peers && peer != me ==> PeerSafe(s, peer)
  }

  function FollowerCommit(s: Server, leaderCommit: nat): Server
    requires |s.log.entries| > 0
  {
    if leaderCommit > s.commitIndex
    then s.(commitIndex := Min(leaderCommit, s.log.LastIndex()))
    else s
  }

  function AfterTerm(s: Server, term: nat): Server {
    if term > s.currentTerm || s.role == Candidate then StepDown(s, term) else s
  }

  /** The assertions and unchecked reads on the way through AppendEntries. */
  predicate AppendSafe(s: Server, args: AppendArgs) {
    && |s.log.entries| > 0
    && (args.term >= s.currentTerm && args.prevLogIndex <= s.log.LastIndex() ==>
          if args.prevLogIndex < s.snapshotIndex then
            var i := s.snapshotIndex - args.prevLogIndex - 1;
            i < |args.entries| ==>
              args.entries[i].term == s.snapshotTerm && s.log.CanPlace(s.snapshotIndex, args.entries[i..])
          else
            s.log.Holds(args.prevLogIndex))
  }

  function AppendEntries(s: Server, args: AppendArgs): (Server, AppendReply)
    requires AppendSafe(s, args)
  {
    if args.term < s.currentTerm then (s, AppendReply(s.currentTerm, 0, 0, false))
    else
      var t := AfterTerm(s, args.term);
      var prev := args.prevLogIndex;
      if prev > t.log.LastIndex() then
        (t, AppendReply(s.currentTerm, t.log.LastEntry().term, t.log.LastIndex(), false))
      else if prev < t.snapshotIndex then
        var i := t.snapshotIndex - prev - 1;
        var u := if |args.entries| > i
                 then FollowerCommit(t.(log := t.log.Place(t.snapshotIndex, args.entries[i..])), args.leaderCommit)
                 else t;
        (u, AppendReply(s.currentTerm, 0, 0, true))
      else if t.log.At(prev).term != args.prevLogTerm then
        (t.(log := t.log.CutOffTail(prev)),
         AppendReply(s.currentTerm, t.log.At(prev).term, prev, false))
      else
        (FollowerCommit(t.(log := t.log.Place(prev + 1, args.entries)), args.leaderCommit),
         AppendReply(s.currentTerm, 0, 0, true))
  }

  // ---------------------------------------------------------------- the leader's side of a reply

  function Insert(x: nat, xs: seq<nat>): (r: seq<nat>) {
    if xs == [] || x <= xs[0] then [x] + xs else [xs[0]] + Insert(x, xs[1..])
  }

  function SortInts(xs: seq<nat>): (r: seq<nat>)
    ensures |r| == |xs|
  {
    if xs == [] then [] else InsertLength(xs[0], SortInts(xs[1..])); Insert(xs[0], SortInts(xs[1..]))
  }

  lemma InsertLength(x: nat, xs: seq<nat>)
    ensures |Insert(x, xs)| == |xs| + 1
  {
  }

  function SortedMatchIndex(s: Server, me: nat): (r: seq<nat>)
    requires me < |s.matchIndex| && |s.log.entries| > 0
    ensures |r| == |s.matchIndex|
  {
    SortInts(s.matchIndex[me := s.log.LastIndex()])
  }

  function QuorumPosition(n: nat): int { (n + 1) / 2 - 1 }

  predicate CommitSafe(s: Server, me: nat) {
    && me < |s.matchIndex| && |s.log.entries| > 0
    && var c := SortedMatchIndex(s, me)[QuorumPosition(|s.matchIndex|)];
      c > s.snapshotIndex ==> s.log.Holds(c)
  }

  function LeaderCommit(s: Server, me: nat): Server
    requires CommitSafe(s, me)
  {
    var sorted := SortedMatchIndex(s, me);
    var c := sorted[QuorumPosition(|s.matchIndex|)];
    if c <= s.snapshotIndex then s
    else if (s.log.At(c).term == s.currentTerm || c == sorted[0]) && c > s.commitIndex
    then s.(commitIndex := c)
    else s
  }

  /** Walks back over the run of entries that share `term`, not past the first retained index. */
  function StepOver(log: Log, index: nat, term: nat): (r: nat)
    requires log.Holds(index)
    ensures log.index0 <= r <= index
    ensures index > log.index0 && log.At(index).term == term ==> r < index
    decreases index
  {
    if log.At(index).term == term && index > log.index0 then StepOver(log, index - 1, term) else index
  }

  function RolledBack(s: Server, reply: AppendReply): nat
    requires reply.conflictIndex >= s.snapshotIndex ==> s.log.Holds(reply.conflictIndex)
  {
    if reply.conflictIndex < s.snapshotIndex then reply.conflictIndex + 1
    else if s.log.At(reply.conflictIndex).term == reply.conflictTerm then reply.conflictIndex + 1
    else StepOver(s.log, reply.conflictIndex, s.log.At(reply.conflictIndex).term) + 1
  }

  /** A success seen by the leader, before and after it looks for a new commit index. */
  function Matched(s: Server, peer: nat, args: AppendArgs): Server
    requires peer < |s.matchIndex|
  {
    s.(matchIndex := s.matchIndex[peer := args.prevLogIndex + |args.entries|])
  }

  /** The unchecked reads on the way through a reply. */
  predicate ReplySafe(s: Server, me: nat, peer: nat, args: AppendArgs, reply: AppendReply) {
    args.term == s.currentTerm && s.role == Leader ==>
      && peer < |s.matchIndex| == |s.nextIndex|
      && (reply.success && s.matchIndex[peer] < args.prevLogIndex + |args.entries| ==>
            CommitSafe(Matched(s, peer, args), me))
      && (!reply.success && reply.term <= s.currentTerm && reply.conflictIndex >= s.snapshotIndex ==>
            s.log.Holds(reply.conflictIndex))
  }

  function HandleReply(s: Server, me: nat, peer: nat, args: AppendArgs, reply: AppendReply): Server
    requires ReplySafe(s, me, peer, args, reply)
  {
    if args.term != s.currentTerm || s.role != Leader then s
    else if reply.success then
      var t := if s.matchIndex[peer] < args.prevLogIndex + |args.entries|
               then LeaderCommit(Matched(s, peer, args), me)
               else s;
      t.(nextIndex := t.nextIndex[peer := t.matchIndex[peer] + 1])
    else if reply.term > s.currentTerm then StepDown(s, reply.term)
    else
      s.(nextIndex := s.nextIndex[peer := Max(s.matchIndex[peer] + 1, RolledBack(s, reply))])
  }

  // ---------------------------------------------------------------- sending and installing a snapshot

  /** `data` stands for what the snapshot replaces: the entries up to and including its index. */
  datatype InstallArgs = InstallArgs(term: nat, leader: nat, lastIncludedIndex: nat, lastIncludedTerm: nat, data: seq<Entry>)

  function InstallArgsFor(s: Server, me: nat): InstallArgs {
    InstallArgs(s.currentTerm, me, s.snapshotIndex, s.snapshotTerm, s.snapshot)
  }

  predicate InstallSafe(s: Server) { |s.log.entries| > 0 && s.log.index0 <= s.snapshotIndex }

  /** The snapshot is new to the follower: neither its own snapshot nor what it applied goes that far. */
  predicate IsNews(s: Server, lastApplied: nat, args: InstallArgs) {
    s.snapshotIndex < args.lastIncludedIndex && lastApplied < args.lastIncludedIndex
  }

  /** What lies behind the snapshot is kept; the term of the entry at its index is not compared. */
  function Installed(s: Server, lastApplied: nat, args: InstallArgs): Server
    requires InstallSafe(s)
  {
    var index := args.lastIncludedIndex;
    if !IsNews(s, lastApplied, args) then s
    else
      var log := if s.log.LastIndex() > index then s.log.CutOffHead(index)
                 else Log([Entry(args.lastIncludedTerm, Nil)], index);
      s.(log := log, snapshot := args.data, snapshotIndex := index, snapshotTerm := args.lastIncludedTerm)
  }

  /** The handler replies with the term it had before. */
  function InstallSnapshot(s: Server, lastApplied: nat, args: InstallArgs): Server
    requires InstallSafe(s)
  {
    if args.term < s.currentTerm then s else Installed(AfterTerm(s, args.term), lastApplied, args)
  }

  /** What the handler would have to test: nothing lies behind the index, or the entry there has the term. */
  predicate Agrees(s: Server, args: InstallArgs)
    requires InstallSafe(s)
  {
    s.snapshotIndex < args.lastIncludedIndex < s.log.LastIndex() ==>
      s.log.At(args.lastIncludedIndex).term == args.lastIncludedTerm
  }

  predicate InstallReplySafe(s: Server, peer: nat, args: InstallArgs) {
    args.term == s.currentTerm ==> peer < |s.matchIndex| == |s.nextIndex|
  }

  /** Any reply that is not from a later term counts as holding the snapshot. */
  function HandleInstallReply(s: Server, peer: nat, args: InstallArgs, term: nat): Server
    requires InstallReplySafe(s, peer, args)
  {
    if args.term != s.currentTerm then s
    else if term > s.currentTerm then StepDown(s, term)
    else if s.matchIndex[peer] < args.lastIncludedIndex then
      s.(matchIndex := s.matchIndex[peer := args.lastIncludedIndex],
         nextIndex := s.nextIndex[peer := args.lastIncludedIndex + 1])
    else s
  }

  // ---------------------------------------------------------------- restart and compaction

  /** Make after a crash: the persisted fields survive, the rest starts over. */
  function Restart(s: Server): Server {
    Server(s.currentTerm, s.votedFor, Log(s.log.entries, s.snapshotIndex), s.snapshot,
           s.snapshotIndex, s.snapshotTerm, 0, Follower, [], [])
  }

  /** Snapshot(index, data), where the data stands for the entries up to and including `index`. */
  function Compact(s: Server, index: nat): Server
    requires s.log.Holds(index)
    requires |s.snapshot| == s.log.index0 + 1
  {
    if index <= s.snapshotIndex then s
    else s.(snapshot := s.Full()[..index + 1],
            snapshotTerm := s.log.At(index).term,
            snapshotIndex := index,
            log := s.log.CutOffHead(index))
  }

  /** The apply loop after it has handed over the snapshot at `index`: what a snapshot holds is committed. */
  function BookSnapshot(s: Server, index: nat): Server { s.(commitIndex := Max(s.commitIndex, index)) }
}
