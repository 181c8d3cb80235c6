/**
 * What the services of a cluster are given. Every server runs its apply loop beside the protocol: the
 * loop works on the server's log, commit index and snapshot as the other steps leave them, and a
 * restart begins it anew.
 */
module RaftDelivery {
  import opened RaftLog
  import opened RaftServer
  import opened RaftHistory
  import opened RaftInvariant
  import opened RaftAppend
  import opened RaftReplication
  import C = RaftCluster
  import S = RaftSafety
  import A = RaftApplier

  /** The part of the loop's state that is its own. */
  datatype Loop = Loop(lastApplied: nat, phase: A.Phase, delivered: seq<A.Delivery>)

  datatype System = System(cluster: C.Cluster, loops: seq<Loop>)

  datatype Step = Raft(step: C.Step) | Pick(i: nat) | Hand(i: nat) | Book(i: nat)

  const STARTED := Loop(0, A.Idle, [])

  function View(s: Server, l: Loop): A.State {
    A.State(s.log, s.snapshotIndex, s.commitIndex, l.lastApplied, l.phase, l.delivered)
  }

  function Own(s: A.State): Loop { Loop(s.lastApplied, s.phase, s.delivered) }

  /** Booking a snapshot may raise the commit index; nothing else the loop does touches the server. */
  function Booked(l: Loop): nat {
    if l.phase.Handed? && l.phase.msg.Snap? && l.phase.msg.index > l.lastApplied then l.phase.msg.index else 0
  }

  function LoopStep(step: Step): A.Step
    requires !step.Raft?
  {
    match step case Pick(_) => A.Pick case Hand(_) => A.Hand case Book(_) => A.Book
  }

  /** What the step is for the cluster. */
  function Under(x: System, step: Step): C.Step
    requires step.Raft? || step.i < |x.loops|
  {
    match step
    case Raft(step) => step
    case Pick(i) => C.Book(i, 0)
    case Hand(i) => C.Book(i, 0)
    case Book(i) => C.Book(i, Booked(x.loops[i]))
  }

  predicate Enabled(x: System, step: Step) {
    && |x.loops| == |x.cluster.servers|
    && (step.Raft? || step.i < |x.loops|)
    && C.Enabled(x.cluster, Under(x, step))
    && match step {
         case Raft(step) =>
           // the service snapshots what it has been given
           && (step.Truncate? ==> step.index <= A.Seen(x.loops[step.i].delivered))
           && (step.Install? ==> step.lastApplied == x.loops[step.i].lastApplied)
           && !step.Book?
         case _ => A.Enabled(View(x.cluster.servers[step.i], x.loops[step.i]), LoopStep(step))
       }
  }

  function Apply(x: System, step: Step): System
    requires Enabled(x, step)
  {
    System(
      C.Apply(x.cluster, Under(x, step)),
      match step
      case Raft(step) => if step.Reboot? then x.loops[step.i := STARTED] else x.loops
      case _ => x.loops[step.i := Own(A.Apply(View(x.cluster.servers[step.i], x.loops[step.i]), LoopStep(step)))])
  }

  predicate IsInit(x: System) {
    C.IsInit(x.cluster) && x.loops == seq(|x.cluster.servers|, _ => STARTED)
  }

  ghost predicate IsRun(run: seq<System>) {
    && |run| > 0 && IsInit(run[0])
    && forall k {:trigger StepAt(run, k)} :: 0 <= k < |run| - 1 ==> StepAt(run, k)
  }

  ghost predicate StepAt(run: seq<System>, k: nat)
    requires k + 1 < |run|
  {
    exists step :: Enabled(run[k], step) && run[k + 1] == Apply(run[k], step)
  }

  function Clusters(run: seq<System>): (r: seq<C.Cluster>)
    ensures |r| == |run| && forall k :: 0 <= k < |run| ==> r[k] == run[k].cluster
  {
    seq(|run|, k requires 0 <= k < |run| => run[k].cluster)
  }

  lemma StepOf(run: seq<System>, k: nat) returns (step: Step)
    requires IsRun(run) && k + 1 < |run|
    ensures Enabled(run[k], step) && run[k + 1] == Apply(run[k], step)
  {
    assert StepAt(run, k);
    step :| Enabled(run[k], step) && run[k + 1] == Apply(run[k], step);
  }

  /** Seen from the protocol, the loops do nothing but book snapshots. */
  lemma ClustersRun(run: seq<System>)
    requires IsRun(run)
    ensures C.IsRun(Clusters(run))
  {
    hide Enabled, Apply;
    var cs := Clusters(run);
    forall k: nat | k < |cs| - 1 ensures C.StepAt(cs, k) {
      var step := StepOf(run, k);
      ClusterStep(run[k], step);
      assert C.Next(cs[k], cs[k + 1]);
    }
  }

  lemma ClusterStep(x: System, step: Step)
    requires Enabled(x, step)
    ensures C.Next(x.cluster, Apply(x, step).cluster)
  {
    assert C.Enabled(x.cluster, Under(x, step));
  }

  // ---------------------------------------------------------------- indices only move forward

  predicate Forward(s: Server, t: Server) {
    s.commitIndex <= t.commitIndex && s.snapshotIndex <= t.snapshotIndex
  }

  lemma AcceptForward(h: History, n: nat, i: nat, s: Server, args: AppendArgs)
    requires HistoryOk(h, n) && ServerOk(h, n, i, s) && AppendOk(h, n, i, args) && AppendSafe(s, args)
    ensures Forward(s, AppendEntries(s, args).0)
  {
    hide HistoryOk, ServerOk, AppendOk, AppendEntries, AppendSafe;
    if args.term < s.currentTerm {
      StaleForward(s, args);
    } else {
      EnterTerm(h, n, i, s, args);
      var t := AfterTerm(s, args.term);
      SettledForward(h, n, i, t, args);
    }
  }

  lemma StaleForward(s: Server, args: AppendArgs)
    requires AppendSafe(s, args) && args.term < s.currentTerm
    ensures AppendEntries(s, args).0 == s
  {
  }

  /** A follower that accepts has all the entries of the request, and so reaches the leader's commit index. */
  lemma SettledForward(h: History, n: nat, i: nat, t: Server, args: AppendArgs)
    requires Receiving(h, n, i, t, args) && AppendSafe(t, args) && t.currentTerm == args.term && t.role == Follower
    ensures Forward(t, AppendEntries(t, args).0)
  {
    hide HistoryOk, AppendEntries, AppendSafe, HolderOk, VoterOk, LeaderOk, CommitsOk, Good, CommitOk;
    AppendFrame(t, args);
    if AppendEntries(t, args).1.success {
      AcceptedMoves(h, n, i, t, args);
      assert |h.reigns[args.term].log[..args.prevLogIndex + 1 + |args.entries|]| <= |AppendEntries(t, args).0.Full()|;
    }
  }

  /** Until it restarts, a server's commit index and snapshot index never move back. */
  lemma StepForward(h: History, c: C.Cluster, step: C.Step)
    requires Invariant(h, c) && C.Enabled(c, step) && !step.Reboot?
    ensures Forward(c.servers[step.i], C.Effect(c, step).0)
  {
    hide HistoryOk, HolderOk, VoterOk, LeaderOk, CommitsOk, Good, AppendSafe, AppendEntries;
    if step.Accept? {
      var s, n := c.servers[step.i], |c.servers|;
      assert ServerOk(h, n, step.i, s) && MessageOk(h, n, C.AppendRequest(step.i, step.append));
      AcceptForward(h, n, step.i, s, step.append);
    }
  }

  // ---------------------------------------------------------------- every loop keeps its order

  predicate LoopsOk(x: System) {
    && |x.loops| == |x.cluster.servers|
    && forall i: nat {:trigger LoopOk(x, i)} :: i < |x.loops| ==> LoopOk(x, i)
  }

  predicate LoopOk(x: System, i: nat) {
    i < |x.loops| && i < |x.cluster.servers| && A.InvariantOk(View(x.cluster.servers[i], x.loops[i]))
  }

  /** The log is there, starts at the snapshot, and holds what is committed. */
  predicate Sound(s: Server) {
    |s.log.entries| > 0 && s.snapshotIndex == s.log.index0 && s.commitIndex < s.log.Length()
  }

  lemma ServerSound(h: History, c: C.Cluster, i: nat)
    requires Invariant(h, c) && i < |c.servers|
    ensures Sound(c.servers[i])
  {
    hide HistoryOk, HolderOk, VoterOk, LeaderOk, Good;
    assert ServerOk(h, |c.servers|, i, c.servers[i]);
  }

  /** The loop stays in order while its server moves forward. */
  lemma LoopCarries(s: Server, t: Server, l: Loop)
    requires A.InvariantOk(View(s, l)) && Forward(s, t) && Sound(t)
    ensures A.InvariantOk(View(t, l))
  {
    hide A.InOrder;
  }

  lemma LoopStarts(t: Server)
    requires Sound(t)
    ensures A.InvariantOk(View(t, STARTED))
  {
  }

  /** A step of the loop: the server moves as the loop's own state machine says. */
  lemma LoopMoves(x: System, step: Step)
    requires Enabled(x, step) && !step.Raft? && A.InvariantOk(View(x.cluster.servers[step.i], x.loops[step.i]))
    ensures View(Apply(x, step).cluster.servers[step.i], Apply(x, step).loops[step.i])
            == A.Apply(View(x.cluster.servers[step.i], x.loops[step.i]), LoopStep(step))
  {
    hide A.InOrder;
  }

  lemma OthersStay(x: System, step: Step, i: nat)
    requires Enabled(x, step) && i < |x.loops| && i != Under(x, step).i
    ensures |Apply(x, step).loops| == |x.loops| && |Apply(x, step).cluster.servers| == |x.cluster.servers|
    ensures Apply(x, step).loops[i] == x.loops[i] && Apply(x, step).cluster.servers[i] == x.cluster.servers[i]
  {
    hide A.Apply, C.Effect;
  }

  lemma RaftMoves(h: History, x: System, step: Step)
    requires Invariant(h, x.cluster) && Enabled(x, step) && step.Raft? && LoopOk(x, step.step.i)
    requires Sound(C.Effect(x.cluster, step.step).0)
    ensures LoopOk(Apply(x, step), step.step.i)
  {
    hide Invariant, C.Enabled, C.Effect, A.InvariantOk, Sound;
    var i, t := step.step.i, C.Effect(x.cluster, step.step).0;
    EffectAt(x.cluster, step.step);
    if step.step.Reboot? {
      LoopStarts(t);
    } else {
      StepForward(h, x.cluster, step.step);
      LoopCarries(x.cluster.servers[i], t, x.loops[i]);
    }
  }

  lemma EffectAt(c: C.Cluster, step: C.Step)
    requires C.Enabled(c, step)
    ensures step.i < |c.servers| && |C.Apply(c, step).servers| == |c.servers|
    ensures C.Apply(c, step).servers[step.i] == C.Effect(c, step).0
  {
  }

  lemma Sizes(x: System, step: Step)
    requires Enabled(x, step)
    ensures |Apply(x, step).loops| == |x.loops| == |x.cluster.servers| == |Apply(x, step).cluster.servers|
    ensures Under(x, step).i < |x.loops|
  {
  }

  lemma MoverOk(h: History, g: History, x: System, step: Step)
    requires Invariant(h, x.cluster) && Enabled(x, step) && LoopsOk(x) && Invariant(g, Apply(x, step).cluster)
    ensures LoopOk(Apply(x, step), Under(x, step).i)
  {
    hide Invariant, C.Enabled, C.Effect, C.Apply, A.InvariantOk, A.Enabled, A.Apply, Sound;
    Sizes(x, step);
    var i := Under(x, step).i;
    assert LoopOk(x, i);
    if step.Raft? {
      ServerSound(g, Apply(x, step).cluster, i);
      EffectAt(x.cluster, step.step);
      RaftMoves(h, x, step);
    } else {
      LoopMoves(x, step);
      A.StepKeeps(View(x.cluster.servers[i], x.loops[i]), LoopStep(step));
    }
  }

  lemma StepOk(h: History, g: History, x: System, step: Step)
    requires Invariant(h, x.cluster) && Enabled(x, step) && LoopsOk(x) && Invariant(g, Apply(x, step).cluster)
    ensures LoopsOk(Apply(x, step))
  {
    hide Invariant, Enabled, Apply, A.InvariantOk;
    Sizes(x, step);
    MoverOk(h, g, x, step);
    var y := Apply(x, step);
    forall i: nat | i < |y.loops| ensures LoopOk(y, i) {
      if i != Under(x, step).i {
        assert LoopOk(x, i);
        OthersStay(x, step, i);
      }
    }
  }

  lemma InitOk(x: System)
    requires IsInit(x)
    ensures LoopsOk(x)
  {
    forall i: nat | i < |x.loops| ensures LoopOk(x, i) {
      assert x.cluster.servers[i] == Initial() && x.loops[i] == STARTED;
    }
  }

  lemma {:induction false} RunOk(run: seq<System>, k: nat)
    requires IsRun(run) && k < |run|
    ensures LoopsOk(run[k])
  {
    hide IsRun, Enabled, Apply, LoopsOk, Invariant, Extends, C.IsRun;
    if k == 0 {
      FirstOk(run);
    } else {
      RunOk(run, k - 1);
      ClustersRun(run);
      var step := StepOf(run, k - 1);
      var h, g := S.RunHistory(Clusters(run), k - 1, k);
      StepOk(h, g, run[k - 1], step);
    }
  }

  lemma FirstOk(run: seq<System>)
    requires IsRun(run)
    ensures LoopsOk(run[0])
  {
    InitOk(run[0]);
  }

  /**
   * Whatever the servers do, every service sees commands one index at a time and snapshots that jump
   * strictly forward; the loop never reads outside the retained log, and can always book what it
   * handed over; and a snapshot of anything the service has seen is one the protocol allows, as is the
   * installation of a snapshot sent to the server.
   */
  lemma DeliveryOrder(run: seq<System>, k: nat, i: nat)
    requires IsRun(run) && k < |run| && i < |run[k].loops|
    ensures i < |run[k].cluster.servers| && A.InOrder(run[k].loops[i].delivered)
    ensures run[k].loops[i].phase.Idle? ==> Enabled(run[k], Pick(i))
    ensures run[k].loops[i].phase.Picked? ==> Enabled(run[k], Hand(i))
    ensures run[k].loops[i].phase.Handed? ==> Enabled(run[k], Book(i))
    ensures forall index :: run[k].cluster.servers[i].snapshotIndex < index <= A.Seen(run[k].loops[i].delivered) ==>
              Enabled(run[k], Raft(C.Truncate(i, index)))
    ensures forall args :: C.InstallRequest(i, args) in run[k].cluster.msgs && InstallSafe(run[k].cluster.servers[i])
                           && Agrees(run[k].cluster.servers[i], args) ==>
              Enabled(run[k], Raft(C.Install(i, args, run[k].loops[i].lastApplied)))
  {
    hide IsRun, A.InOrder, Invariant, Extends, C.IsRun;
    RunOk(run, k);
    assert LoopOk(run[k], i);
    ClustersRun(run);
    var h, g := S.RunHistory(Clusters(run), k, k);
    SnapshotFits(g, run[k].cluster, i);
  }

  lemma SnapshotFits(h: History, c: C.Cluster, i: nat)
    requires Invariant(h, c) && i < |c.servers|
    ensures Sound(c.servers[i]) && LocalOk(h, c.servers[i])
  {
    hide HistoryOk, HolderOk, VoterOk, LeaderOk, Good;
    assert ServerOk(h, |c.servers|, i, c.servers[i]);
  }

  /** Taking and installing a snapshot are for the loop what its own state machine says they are. */
  lemma SnapshotsSeen(c: C.Cluster, step: C.Step, l: Loop)
    requires C.Enabled(c, step) && A.InvariantOk(View(c.servers[step.i], l))
    ensures step.Truncate? && step.index <= A.Seen(l.delivered) ==>
              && A.Enabled(View(c.servers[step.i], l), A.TakeSnapshot(step.index))
              && View(C.Effect(c, step).0, l) == A.Apply(View(c.servers[step.i], l), A.TakeSnapshot(step.index))
    ensures step.Install? && step.install.term >= c.servers[step.i].currentTerm && step.lastApplied == l.lastApplied ==>
              View(C.Effect(c, step).0, l)
              == A.Apply(View(c.servers[step.i], l), A.InstallSnapshot(step.install.lastIncludedIndex, step.install.lastIncludedTerm))
  {
    hide A.InOrder, HandleReply, AppendEntries, RequestVote, HandleInstallReply;
  }

  // ---------------------------------------------------------------- every service is given the committed log

  /** The retained log agrees with `truth` up to the commit index. */
  lemma HoldsTruth(h: History, cs: seq<C.Cluster>, k: nat, i: nat, l: Loop, truth: nat -> Command)
    requires C.IsRun(cs) && k < |cs| && i < |cs[k].servers| && LocalOk(h, cs[k].servers[i])
    requires forall index :: truth(index) == S.CommittedEntry(cs, index).command
    ensures A.Holds(View(cs[k].servers[i], l), truth)
  {
    hide C.IsRun, S.CommittedEntry;
    var s := cs[k].servers[i];
    forall index: nat | s.log.index0 < index <= s.commitIndex && s.log.Holds(index)
      ensures s.log.At(index).command == truth(index)
    {
      S.OneCommittedLog(cs, k, i, index);
      FullAt(h, s, index);
    }
  }

  predicate LoopTrue(l: Loop, truth: nat -> Command) {
    A.AllTrue(l.delivered, truth) && A.PhaseTrue(l.phase, truth)
  }

  lemma StartTrue(truth: nat -> Command)
    ensures LoopTrue(STARTED, truth)
  {
  }

  lemma TruthMoves(x: System, step: Step, i: nat, truth: nat -> Command)
    requires Enabled(x, step) && LoopsOk(x) && i < |x.loops| && LoopTrue(x.loops[i], truth)
    requires A.Holds(View(x.cluster.servers[i], x.loops[i]), truth)
    ensures i < |Apply(x, step).loops| && LoopTrue(Apply(x, step).loops[i], truth)
  {
    hide A.InvariantOk, A.Apply, A.Holds, A.AllTrue, A.PhaseTrue, C.Apply;
    StartTrue(truth);
    assert LoopOk(x, i);
    if !step.Raft? && step.i == i {
      A.TruthStep(View(x.cluster.servers[i], x.loops[i]), LoopStep(step), truth);
    }
  }

  lemma {:induction false} RunTrue(run: seq<System>, k: nat, i: nat, truth: nat -> Command)
    requires IsRun(run) && k < |run| && i < |run[k].loops|
    requires forall index :: truth(index) == S.CommittedEntry(Clusters(run), index).command
    ensures LoopTrue(run[k].loops[i], truth)
  {
    hide IsRun, Enabled, Apply, LoopsOk, Invariant, Extends, C.IsRun, S.CommittedEntry, LoopTrue, A.Holds;
    if k == 0 {
      StartsTrue(run, i, truth);
    } else {
      var step := StepOf(run, k - 1);
      Sizes(run[k - 1], step);
      RunTrue(run, k - 1, i, truth);
      RunOk(run, k - 1);
      ClustersRun(run);
      var h, g := S.RunHistory(Clusters(run), k - 1, k - 1);
      SnapshotFits(g, run[k - 1].cluster, i);
      HoldsTruth(g, Clusters(run), k - 1, i, run[k - 1].loops[i], truth);
      TruthMoves(run[k - 1], step, i, truth);
    }
  }

  lemma StartsTrue(run: seq<System>, i: nat, truth: nat -> Command)
    requires IsRun(run) && i < |run[0].loops|
    ensures LoopTrue(run[0].loops[i], truth)
  {
  }

  /** Every command a service is ever given is the one the cluster committed at its index. */
  lemma DeliveredCommitted(run: seq<System>, k: nat, i: nat, x: nat)
    requires IsRun(run) && k < |run| && i < |run[k].loops| && x < |run[k].loops[i].delivered|
    requires run[k].loops[i].delivered[x].Cmd?
    ensures var m := run[k].loops[i].delivered[x]; m.command == S.CommittedEntry(Clusters(run), m.index).command
  {
    hide IsRun, S.CommittedEntry;
    var cs := Clusters(run);
    var truth := (index: nat) => S.CommittedEntry(cs, index).command;
    RunTrue(run, k, i, truth);
  }

  /**
   * Two services are never given different commands at the same index: on any two servers, at any two
   * times, across restarts.
   */
  lemma SameCommands(run: seq<System>, j: nat, k: nat, a: nat, b: nat, x: nat, y: nat)
    requires IsRun(run) && j < |run| && k < |run| && a < |run[j].loops| && b < |run[k].loops|
    requires x < |run[j].loops[a].delivered| && y < |run[k].loops[b].delivered|
    requires run[j].loops[a].delivered[x].Cmd? && run[k].loops[b].delivered[y].Cmd?
    requires run[j].loops[a].delivered[x].index == run[k].loops[b].delivered[y].index
    ensures run[j].loops[a].delivered[x] == run[k].loops[b].delivered[y]
  {
    hide IsRun, S.CommittedEntry;
    DeliveredCommitted(run, j, a, x);
    DeliveredCommitted(run, k, b, y);
  }

  // ---------------------------------------------------------------- a loop catches up

  function Last(run: seq<System>): System
    requires run != []
  {
    run[|run| - 1]
  }

  lemma Goes(run: seq<System>, step: Step) returns (more: seq<System>)
    requires run != [] && IsRun(run) && Enabled(Last(run), step)
    ensures more != [] && IsRun(more) && run <= more && Last(more) == Apply(Last(run), step)
  {
    hide Enabled, Apply;
    more := run + [Apply(Last(run), step)];
    forall k: nat | k < |more| - 1 ensures StepAt(more, k) {
      if k < |run| - 1 {
        var was := StepOf(run, k);
        assert Enabled(more[k], was) && more[k + 1] == Apply(more[k], was);
      } else {
        assert Enabled(more[k], step) && more[k + 1] == Apply(more[k], step);
      }
    }
  }

  /** The part of a state that the loop of server `i` may touch is as given; everything else is as before. */
  predicate OnlyLoop(x: System, y: System, i: nat) {
    && |y.loops| == |x.loops| == |y.cluster.servers| == |x.cluster.servers| && i < |x.loops|
    && y.cluster.msgs == x.cluster.msgs
    && (forall k :: 0 <= k < |x.loops| && k != i ==> y.loops[k] == x.loops[k] && y.cluster.servers[k] == x.cluster.servers[k])
    && y.cluster.servers[i] == x.cluster.servers[i].(commitIndex := y.cluster.servers[i].commitIndex)
  }

  lemma LoopOnly(x: System, step: Step)
    requires Enabled(x, step) && !step.Raft?
    ensures OnlyLoop(x, Apply(x, step), step.i)
  {
    hide A.Enabled, A.Apply;
  }

  lemma LoopGoes(run: seq<System>, step: Step) returns (more: seq<System>)
    requires run != [] && IsRun(run) && Enabled(Last(run), step) && !step.Raft?
    ensures more != [] && IsRun(more) && run <= more && OnlyLoop(Last(run), Last(more), step.i)
    ensures View(Last(more).cluster.servers[step.i], Last(more).loops[step.i])
            == A.Apply(View(Last(run).cluster.servers[step.i], Last(run).loops[step.i]), LoopStep(step))
  {
    hide IsRun, Apply, A.Apply, LoopsOk;
    more := Goes(run, step);
    LoopOnly(Last(run), step);
    RunOk(run, |run| - 1);
    LoopMovesIn(Last(run), step);
  }

  lemma LoopMovesIn(x: System, step: Step)
    requires Enabled(x, step) && !step.Raft? && LoopsOk(x)
    ensures OnlyLoop(x, Apply(x, step), step.i)
    ensures View(Apply(x, step).cluster.servers[step.i], Apply(x, step).loops[step.i])
            == A.Apply(View(x.cluster.servers[step.i], x.loops[step.i]), LoopStep(step))
  {
    hide Enabled, Apply, A.Apply, A.InvariantOk;
    LoopOnly(x, step);
    assert LoopOk(x, step.i);
    LoopMoves(x, step);
  }

  function Here(x: System, i: nat): A.State
    requires i < |x.loops| && i < |x.cluster.servers|
  {
    View(x.cluster.servers[i], x.loops[i])
  }

  lemma LoopReady(run: seq<System>, i: nat)
    requires run != [] && IsRun(run) && i < |Last(run).loops|
    ensures i < |Last(run).cluster.servers| && A.InvariantOk(Here(Last(run), i))
    ensures Last(run).loops[i].phase.Idle? ==> Enabled(Last(run), Pick(i))
    ensures Last(run).loops[i].phase.Picked? ==> Enabled(Last(run), Hand(i))
    ensures Last(run).loops[i].phase.Handed? ==> Enabled(Last(run), Book(i))
  {
    hide IsRun, A.InvariantOk;
    DeliveryOrder(run, |run| - 1, i);
    RunOk(run, |run| - 1);
    assert LoopOk(Last(run), i);
  }

  lemma OnlyLoopTwice(x: System, y: System, z: System, i: nat)
    requires OnlyLoop(x, y, i) && OnlyLoop(y, z, i)
    ensures OnlyLoop(x, z, i)
  {
  }

  /** A snapshot or a committed command is waiting to be handed over. */
  predicate Behind(s: A.State) { s.snapshotIndex > s.lastApplied || s.commitIndex > s.lastApplied }

  /** One round of a loop that is behind, with nothing else going on. */
  lemma RoundGoes(run: seq<System>, i: nat) returns (more: seq<System>)
    requires run != [] && IsRun(run) && i < |Last(run).loops| && i < |Last(run).cluster.servers|
    requires Last(run).loops[i].phase.Idle? && Behind(Here(Last(run), i))
    ensures more != [] && IsRun(more) && run <= more && OnlyLoop(Last(run), Last(more), i) && A.PickSafe(Here(Last(run), i))
    ensures var s, m := Here(Last(run), i), A.Waiting(Here(Last(run), i));
            && m.index > s.lastApplied
            && Here(Last(more), i) == s.(lastApplied := m.index, delivered := s.delivered + [m],
                                         commitIndex := if m.Snap? then Max(s.commitIndex, m.index) else s.commitIndex)
  {
    hide IsRun, Enabled, OnlyLoop, A.InvariantOk;
    var s := Here(Last(run), i);
    LoopReady(run, i);
    A.RoundDelivers(s);
    var picked := LoopGoes(run, Pick(i));
    OnlySizes(Last(run), Last(picked), i);
    LoopReady(picked, i);
    var handed := LoopGoes(picked, Hand(i));
    OnlySizes(Last(picked), Last(handed), i);
    LoopReady(handed, i);
    more := LoopGoes(handed, Book(i));
    OnlyLoopTwice(Last(run), Last(picked), Last(handed), i);
    OnlyLoopTwice(Last(run), Last(handed), Last(more), i);
    OnlySizes(Last(run), Last(more), i);
  }

  lemma OnlySizes(x: System, y: System, i: nat)
    requires OnlyLoop(x, y, i)
    ensures |y.loops| == |x.loops| == |y.cluster.servers| == |x.cluster.servers| && i < |x.loops|
  {
  }

  /** The command at `index` has been handed over. */
  predicate Given(delivered: seq<A.Delivery>, index: nat) {
    exists x :: 0 <= x < |delivered| && delivered[x].Cmd? && delivered[x].index == index
  }

  lemma GivenMore(d: seq<A.Delivery>, e: seq<A.Delivery>, index: nat)
    requires d <= e
    ensures Given(d, index) ==> Given(e, index)
  {
    if Given(d, index) {
      var x :| 0 <= x < |d| && d[x].Cmd? && d[x].index == index;
      assert e[x] == d[x];
    }
  }

  /**
   * From any reachable state with the loop of a server idle, finitely many rounds of that loop alone
   * bring its service up to what the server has: the last index handed over is the higher of its
   * commit index and its snapshot index, and every command between is handed over on the way.
   */
  lemma {:induction false} CatchesUp(run: seq<System>, i: nat) returns (more: seq<System>)
    requires run != [] && IsRun(run) && i < |Last(run).loops| && i < |Last(run).cluster.servers| && Last(run).loops[i].phase.Idle?
    ensures more != [] && IsRun(more) && run <= more && OnlyLoop(Last(run), Last(more), i)
    ensures var s, l, l' := Last(run).cluster.servers[i], Last(run).loops[i], Last(more).loops[i];
            && l'.phase.Idle? && l.delivered <= l'.delivered
            && A.Seen(l'.delivered) == l'.lastApplied == Max(l.lastApplied, Max(s.commitIndex, s.snapshotIndex))
            && forall index :: Max(l.lastApplied, s.snapshotIndex) < index <= s.commitIndex ==> Given(l'.delivered, index)
    decreases Max(Last(run).cluster.servers[i].commitIndex, Last(run).cluster.servers[i].snapshotIndex)
              - Last(run).loops[i].lastApplied
  {
    hide IsRun, OnlyLoop;
    var s := Here(Last(run), i);
    LoopReady(run, i);
    if !Behind(s) {
      more := run;
      OnlyLoopSelf(Last(run), i);
    } else {
      var next := RoundGoes(run, i);
      OnlySizes(Last(run), Last(next), i);
      var m := A.Waiting(s);
      more := CatchesUp(next, i);
      OnlyLoopTwice(Last(run), Last(next), Last(more), i);
      var d, e := Last(next).loops[i].delivered, Last(more).loops[i].delivered;
      assert d[|s.delivered|] == m;
      if m.Cmd? { GivenMore(d, e, m.index); }
    }
  }

  lemma OnlyLoopSelf(x: System, i: nat)
    requires i < |x.loops| == |x.cluster.servers|
    ensures OnlyLoop(x, x, i)
  {
  }
}
