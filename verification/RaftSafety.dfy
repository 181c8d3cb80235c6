/** The safety theorems of Raft, over every run of the cluster. */
module RaftSafety {
  import opened RaftLog
  import opened RaftServer
  import opened RaftCluster
  import opened RaftHistory
  import opened RaftInvariant
  import opened RaftAppend
  import opened RaftSteps
  import opened RaftElections
  import opened RaftReplication
  import opened RaftLeading
  import opened RaftInstall

  const NOTHING := History(map[], map[], map[], {}, {})

  lemma InitOk(c: Cluster)
    requires IsInit(c)
    ensures Invariant(NOTHING, c)
  {
  }

  lemma StepKeeps(h: History, c: Cluster, step: Step) returns (g: History)
    requires Invariant(h, c) && Enabled(c, step)
    ensures Extends(h, g) && Invariant(g, Apply(c, step))
  {
    hide Invariant, Enabled, Apply;
    ExtendsSelf(h);
    g := h;
    match step
    case Timeout(_) => g := TimeoutKeeps(h, c, step);
    case Vote(_, _) => g := VoteKeeps(h, c, step);
    case VoteRefused(_, _, _, _) => VoteRefusedKeeps(h, c, step);
    case Elected(_, _) => g := ElectedKeeps(h, c, step);
    case Submit(_, _) => g := SubmitKeeps(h, c, step);
    case Replicate(_, _) => ReplicateKeeps(h, c, step);
    case Accept(_, _) => g := AcceptKeeps(h, c, step);
    case Acknowledge(_, _, _, _) => AcknowledgeKeeps(h, c, step);
    case SendSnapshot(_, _) => SendSnapshotKeeps(h, c, step);
    case Install(_, _, _) => g := InstallKeeps(h, c, step);
    case InstallAcked(_, _, _, _) => InstallAckedKeeps(h, c, step);
    case Reboot(_) => RebootKeeps(h, c, step);
    case Truncate(_, _) => TruncateKeeps(h, c, step);
    case Book(_, _) => BookKeeps(h, c, step);
  }

  lemma ExtendsTrans(h: History, g: History, f: History)
    requires Extends(h, g) && Extends(g, f)
    ensures Extends(h, f)
  {
  }

  lemma ApplySize(c: Cluster, step: Step)
    requires Enabled(c, step)
    ensures |Apply(c, step).servers| == |c.servers|
  {
  }

  lemma NextKeeps(h: History, c: Cluster, d: Cluster) returns (g: History)
    requires Invariant(h, c) && Next(c, d)
    ensures Extends(h, g) && Invariant(g, d) && |c.servers| == |d.servers|
  {
    hide Invariant, Extends, Enabled, Apply;
    var step :| Enabled(c, step) && d == Apply(c, step);
    ApplySize(c, step);
    g := StepKeeps(h, c, step);
  }

  /** A history for a state of a run that also covers any earlier state of the run. */
  lemma {:induction false} RunHistory(run: seq<Cluster>, i: nat, j: nat) returns (h: History, g: History)
    requires IsRun(run) && i <= j < |run|
    ensures Invariant(h, run[i]) && Invariant(g, run[j]) && Extends(h, g) && |run[i].servers| == |run[j].servers|
    decreases j
  {
    hide Invariant, Extends, Next, IsInit;
    if j == 0 {
      InitOk(run[0]);
      h, g := NOTHING, NOTHING;
      ExtendsSelf(h);
    } else {
      var before;
      h, before := RunHistory(run, if i == j then j - 1 else i, j - 1);
      assert StepAt(run, j - 1);
      g := NextKeeps(before, run[j - 1], run[j]);
      if i == j {
        h := g;
        ExtendsSelf(g);
      } else {
        ExtendsTrans(h, before, g);
      }
    }
  }

  // ---------------------------------------------------------------- election safety

  lemma LeaderOnRecord(h: History, g: History, c: Cluster, i: nat)
    requires Invariant(h, c) && Extends(h, g) && i < |c.servers| && c.servers[i].role == Leader
    ensures c.servers[i].currentTerm in g.reigns && g.reigns[c.servers[i].currentTerm].leader == i
  {
    assert ServerOk(h, |c.servers|, i, c.servers[i]);
  }

  /** At most one server ever leads a term, whenever in the run it does so. */
  lemma ElectionSafety(run: seq<Cluster>, i: nat, j: nat, a: nat, b: nat)
    requires IsRun(run) && i < |run| && j < |run| && a < |run[i].servers| && b < |run[j].servers|
    requires run[i].servers[a].role == Leader && run[j].servers[b].role == Leader
    requires run[i].servers[a].currentTerm == run[j].servers[b].currentTerm
    ensures a == b
  {
    hide Invariant, Extends;
    if i <= j {
      var h, g := RunHistory(run, i, j);
      LeaderOnRecord(h, g, run[i], a);
      ExtendsSelf(g);
      LeaderOnRecord(g, g, run[j], b);
    } else {
      var h, g := RunHistory(run, j, i);
      LeaderOnRecord(h, g, run[j], b);
      ExtendsSelf(g);
      LeaderOnRecord(g, g, run[i], a);
    }
  }

  // ---------------------------------------------------------------- log matching

  /** Two logs with an entry of the same index and term are the same up to that entry. */
  lemma LogMatching(run: seq<Cluster>, k: nat, a: nat, b: nat, index: nat)
    requires IsRun(run) && k < |run| && a < |run[k].servers| && b < |run[k].servers|
    requires index < |run[k].servers[a].Full()| && index < |run[k].servers[b].Full()|
    requires run[k].servers[a].Full()[index].term == run[k].servers[b].Full()[index].term
    ensures run[k].servers[a].Full()[..index + 1] == run[k].servers[b].Full()[..index + 1]
  {
    var c := run[k];
    var h, g := RunHistory(run, k, k);
    assert ServerOk(g, |c.servers|, a, c.servers[a]) && ServerOk(g, |c.servers|, b, c.servers[b]);
    GoodMatch(g, c.servers[a].Full(), c.servers[b].Full(), index);
  }

  /** Accepting entries leaves the log that truncating at the first conflict would leave. */
  lemma PlaceIsTruncation(run: seq<Cluster>, k: nat, i: nat, args: AppendArgs)
    requires IsRun(run) && k < |run| && i < |run[k].servers| && AppendRequest(i, args) in run[k].msgs
    requires args.term >= run[k].servers[i].currentTerm
    ensures AppendSafe(run[k].servers[i], args)
    ensures AppendEntries(run[k].servers[i], args).1.success ==>
              && args.prevLogIndex < |run[k].servers[i].Full()|
              && AppendEntries(run[k].servers[i], args).0.Full()
                 == Truncating(run[k].servers[i].Full(), args.prevLogIndex + 1, args.entries)
  {
    var h, g := RunHistory(run, k, k);
    TruncationStep(g, run[k], i, args);
  }

  lemma TruncationStep(h: History, c: Cluster, i: nat, args: AppendArgs)
    requires Invariant(h, c) && i < |c.servers| && AppendRequest(i, args) in c.msgs
    requires args.term >= c.servers[i].currentTerm
    ensures AppendSafe(c.servers[i], args)
    ensures AppendEntries(c.servers[i], args).1.success ==>
              && args.prevLogIndex < |c.servers[i].Full()|
              && AppendEntries(c.servers[i], args).0.Full()
                 == Truncating(c.servers[i].Full(), args.prevLogIndex + 1, args.entries)
  {
    hide AppendEntries, AppendSafe, HistoryOk, HolderOk, VoterOk, LeaderOk, CommitsOk, Absorbed, Truncating, Good, AtMost,
         Log.Behind;
    var n, s := |c.servers|, c.servers[i];
    assert ServerOk(h, n, i, s) && MessageOk(h, n, AppendRequest(i, args));
    AppendNeverPanics(h, n, i, s, args);
    if AppendEntries(s, args).1.success {
      IsReady(h, n, i, s, args);
      Accepted(h, n, s, args);
      AcceptedPrefix(h, n, s, args);
      ReignBounds(h, n, args.term, args.prevLogIndex + 1 + |args.entries|);
      AbsorbedTruncates(h, s.Full(), h.reigns[args.term].log, args.prevLogIndex + 1, args.prevLogIndex + 1 + |args.entries|,
                        AppendEntries(s, args).0.Full());
    }
  }

  lemma AbsorbedTruncates(h: History, log: seq<Entry>, led: seq<Entry>, index: nat, end: nat, result: seq<Entry>)
    requires 0 < index <= end <= |led| && index <= |log| && log[..index] == led[..index]
    requires Good(h, log) && Good(h, led[..end]) && Absorbed(log, led[..end], result)
    ensures result == Truncating(log, index, led[index..end])
  {
    hide Good;
    assert led[..end][index..] == led[index..end];
    assert led[..end][..index] == led[..index];
    PlaceTruncates(h, log, led[..end], index);
  }

  // ---------------------------------------------------------------- state machine safety

  lemma CommitCarries(h: History, g: History, c: Cluster, i: nat)
    requires Invariant(h, c) && Extends(h, g) && i < |c.servers|
    ensures var s := c.servers[i];
            Good(g, s.Full()) && CommitOk(g, |c.servers|, s.currentTerm, s.Full(), s.commitIndex)
  {
    var s := c.servers[i];
    assert ServerOk(h, |c.servers|, i, s);
    GoodExtends(h, g, s.Full());
    CommitExtends(h, g, |c.servers|, s.currentTerm, s.Full(), s.commitIndex, s.currentTerm, s.Full());
  }

  lemma SafetyBetween(run: seq<Cluster>, i: nat, j: nat, a: nat, b: nat, index: nat)
    requires IsRun(run) && i <= j < |run| && a < |run[i].servers| && b < |run[j].servers|
    requires index <= run[i].servers[a].commitIndex && index <= run[j].servers[b].commitIndex
    ensures index < |run[i].servers[a].Full()| && index < |run[j].servers[b].Full()|
    ensures run[i].servers[a].Full()[index] == run[j].servers[b].Full()[index]
  {
    hide Extends, HistoryOk, Good;
    var h, g := RunHistory(run, i, j);
    CommitCarries(h, g, run[i], a);
    ExtendsSelf(g);
    CommitCarries(g, g, run[j], b);
    var s, t := run[i].servers[a], run[j].servers[b];
    CommittedAgree(g, |run[j].servers|, s.currentTerm, s.Full(), s.commitIndex, t.currentTerm, t.Full(), t.commitIndex, index);
  }

  /**
   * State machine safety: an index that two servers count as committed, whenever in the run each of
   * them does so, holds the same entry on both.
   */
  lemma StateMachineSafety(run: seq<Cluster>, i: nat, j: nat, a: nat, b: nat, index: nat)
    requires IsRun(run) && i < |run| && j < |run| && a < |run[i].servers| && b < |run[j].servers|
    requires index <= run[i].servers[a].commitIndex && index <= run[j].servers[b].commitIndex
    ensures index < |run[i].servers[a].Full()| && index < |run[j].servers[b].Full()|
    ensures run[i].servers[a].Full()[index] == run[j].servers[b].Full()[index]
  {
    hide IsRun;
    if i <= j { SafetyBetween(run, i, j, a, b, index); } else { SafetyBetween(run, j, i, b, a, index); }
  }

  ghost predicate CommittedAt(run: seq<Cluster>, k: nat, a: nat, index: nat) {
    k < |run| && a < |run[k].servers| && index <= run[k].servers[a].commitIndex < |run[k].servers[a].Full()|
  }

  /** The entry that some server commits at an index at some time of the run. */
  ghost function CommittedEntry(run: seq<Cluster>, index: nat): Entry {
    if exists k: nat, a: nat :: CommittedAt(run, k, a, index)
    then var k: nat, a: nat :| CommittedAt(run, k, a, index); run[k].servers[a].Full()[index]
    else DUMMY
  }

  /** One committed log: all that any server ever counts as committed are prefixes of it. */
  lemma OneCommittedLog(run: seq<Cluster>, k: nat, a: nat, index: nat)
    requires IsRun(run) && k < |run| && a < |run[k].servers| && index <= run[k].servers[a].commitIndex
    ensures index < |run[k].servers[a].Full()| && run[k].servers[a].Full()[index] == CommittedEntry(run, index)
  {
    hide IsRun;
    StateMachineSafety(run, k, k, a, a, run[k].servers[a].commitIndex);
    assert CommittedAt(run, k, a, index);
    var i, b := Committer(run, k, a, index);
    StateMachineSafety(run, k, i, a, b, index);
  }

  lemma Committer(run: seq<Cluster>, k: nat, a: nat, index: nat) returns (i: nat, b: nat)
    requires CommittedAt(run, k, a, index)
    ensures i < |run| && b < |run[i].servers| && index <= run[i].servers[b].commitIndex
    ensures index < |run[i].servers[b].Full()| && run[i].servers[b].Full()[index] == CommittedEntry(run, index)
  {
    i, b :| CommittedAt(run, i, b, index) && CommittedEntry(run, index) == run[i].servers[b].Full()[index];
    CommittedShape(run, i, b, index);
  }

  lemma CommittedShape(run: seq<Cluster>, k: nat, a: nat, index: nat)
    requires CommittedAt(run, k, a, index)
    ensures k < |run| && a < |run[k].servers| && index <= run[k].servers[a].commitIndex < |run[k].servers[a].Full()|
  {
  }

  /** Leader completeness: what a server committed, every leader of a later term has in its log. */
  lemma LeadersHoldCommitted(run: seq<Cluster>, i: nat, j: nat, a: nat, b: nat)
    requires IsRun(run) && i < |run| && j < |run| && a < |run[i].servers| && b < |run[j].servers|
    requires run[j].servers[b].role == Leader && run[j].servers[b].currentTerm > run[i].servers[a].currentTerm
    ensures run[i].servers[a].commitIndex < |run[i].servers[a].Full()|
    ensures run[i].servers[a].Full()[..run[i].servers[a].commitIndex + 1] <= run[j].servers[b].Full()
  {
    hide IsRun, Extends, Invariant, Good, CommitOk;
    if i <= j {
      var h, g := RunHistory(run, i, j);
      ExtendsSelf(g);
      Consistent(g, run[j]);
      HoldsCommitted(h, run[i], a, g, run[j], b, g);
    } else {
      var h, g := RunHistory(run, j, i);
      ExtendsSelf(g);
      Consistent(g, run[i]);
      HoldsCommitted(g, run[i], a, h, run[j], b, g);
    }
  }

  lemma Consistent(h: History, c: Cluster)
    requires Invariant(h, c)
    ensures HistoryOk(h, |c.servers|)
  {
  }

  lemma HoldsCommitted(h: History, c: Cluster, a: nat, h': History, d: Cluster, b: nat, g: History)
    requires Invariant(h, c) && Extends(h, g) && Invariant(h', d) && Extends(h', g)
    requires |c.servers| == |d.servers| && HistoryOk(g, |c.servers|)
    requires a < |c.servers| && b < |d.servers|
    requires d.servers[b].role == Leader && d.servers[b].currentTerm > c.servers[a].currentTerm
    ensures c.servers[a].commitIndex < |c.servers[a].Full()|
    ensures c.servers[a].Full()[..c.servers[a].commitIndex + 1] <= d.servers[b].Full()
  {
    CommitCarries(h, g, c, a);
    var s, t, n := c.servers[a], d.servers[b], |c.servers|;
    assert ServerOk(h', n, b, t);
    CommittedInBase(g, n, s.currentTerm, s.Full(), s.commitIndex, t.currentTerm);
    assert ReignOk(h', n, t.currentTerm);
  }

  // ---------------------------------------------------------------- no panic

  /** In every reachable state no assertion of the message handlers can fail. */
  lemma HandlersNeverPanic(run: seq<Cluster>, k: nat, m: Message)
    requires IsRun(run) && k < |run| && m in run[k].msgs
    ensures m.AppendRequest? && m.to < |run[k].servers| ==> AppendSafe(run[k].servers[m.to], m.append)
    ensures m.AppendResponse? && m.append.leader < |run[k].servers| ==>
              ReplySafe(run[k].servers[m.append.leader], m.append.leader, m.from, m.append, m.answer)
    ensures m.InstallRequest? && m.to < |run[k].servers| ==> InstallSafe(run[k].servers[m.to])
    ensures m.InstallResponse? && m.install.leader < |run[k].servers| && run[k].servers[m.install.leader].role == Leader ==>
              InstallReplySafe(run[k].servers[m.install.leader], m.from, m.install)
  {
    hide IsRun, AppendSafe, ReplySafe, HistoryOk, ServerOk, AppendOk, CommitOk;
    var h, g := RunHistory(run, k, k);
    var c, n := run[k], |run[k].servers|;
    assert MessageOk(g, n, m);
    if m.AppendRequest? && m.to < n {
      assert ServerOk(g, n, m.to, c.servers[m.to]);
      AppendNeverPanics(g, n, m.to, c.servers[m.to], m.append);
    } else if m.AppendResponse? && m.append.leader < n {
      var i := m.append.leader;
      assert ServerOk(g, n, i, c.servers[i]);
      ReplyNeverPanics(g, n, i, c.servers[i], m.from, m.append, m.answer);
    } else if m.InstallRequest? && m.to < n {
      assert ServerOk(g, n, m.to, c.servers[m.to]);
      InstallNeverPanics(g, n, m.to, c.servers[m.to]);
    } else if m.InstallResponse? && m.install.leader < n {
      var i := m.install.leader;
      assert ServerOk(g, n, i, c.servers[i]);
      InstallReplyNeverPanics(g, n, i, c.servers[i], m.from, m.install);
    }
  }

  /**
   * A leader's view of every peer is in order: what matches lies below what it sends next, its
   * assertion before sending holds, and the entry before the next one is in its log unless it sits
   * behind the snapshot. What a server committed is in its log too.
   */
  lemma ViewsInOrder(run: seq<Cluster>, k: nat, i: nat, peer: nat)
    requires IsRun(run) && k < |run| && i < |run[k].servers| && peer < |run[k].servers| && peer != i
    ensures var s := run[k].servers[i];
            && |s.log.entries| > 0 && s.commitIndex <= s.log.LastIndex()
            && (s.role == Leader ==>
                  && PeerSafe(s, peer)
                  && (s.nextIndex[peer] - 1 >= s.snapshotIndex ==> SendsEntries(s, peer)))
  {
    hide IsRun, HistoryOk, HolderOk, VoterOk;
    var h, g := RunHistory(run, k, k);
    var s, n := run[k].servers[i], |run[k].servers|;
    assert ServerOk(g, n, i, s);
    if s.role == Leader { assert PeerOk(g, s, peer); }
  }

  /** A leader can always send its round: the assertion holds, and it reads inside its log. */
  lemma RoundNeverPanics(run: seq<Cluster>, k: nat, i: nat)
    requires IsRun(run) && k < |run| && i < |run[k].servers| && run[k].servers[i].role == Leader
    ensures RoundSafe(run[k].servers[i], i, |run[k].servers|)
  {
    hide IsRun, PeerSafe, HistoryOk, HolderOk, VoterOk;
    var s, n := run[k].servers[i], |run[k].servers|;
    forall peer: nat | peer < n && peer != i ensures PeerSafe(s, peer) {
      ViewsInOrder(run, k, i, peer);
    }
    var h, g := RunHistory(run, k, k);
    assert ServerOk(g, n, i, s);
  }
}
