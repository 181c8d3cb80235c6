/**
 * The apply loop of one server: it picks what to deliver under the lock, hands it to the service
 * with the lock released, and books it under the lock again. In between, the service may take
 * snapshots, the leader may install one, and the log and the commit index may move.
 */
module RaftApplier {
  import opened RaftLog

  datatype Delivery = Cmd(index: nat, command: Command) | Snap(index: nat)

  /** Where the loop is: about to pick, holding a picked message, or with its message handed over. */
  datatype Phase = Idle | Picked(msg: Delivery) | Handed(msg: Delivery)

  datatype State = State(
    log: Log,
    snapshotIndex: nat,
    commitIndex: nat,
    lastApplied: nat,
    phase: Phase,
    delivered: seq<Delivery>)

  datatype Step =
    | Pick
    | Hand
    | Book
    | TakeSnapshot(index: nat)
    | InstallSnapshot(index: nat, term: nat)
    | Commit(index: nat)
    | Append(e: Entry)
    | Replace(log: Log)

  /** The last index the service has seen. */
  function Seen(delivered: seq<Delivery>): nat {
    if delivered == [] then 0 else delivered[|delivered| - 1].index
  }

  predicate WantsSnapshot(s: State) { s.snapshotIndex > s.lastApplied }
  predicate WantsCommand(s: State) { !WantsSnapshot(s) && s.lastApplied < s.commitIndex }

  /** The read of the next command stays inside the retained log. */
  predicate PickSafe(s: State) { WantsCommand(s) ==> s.log.Holds(s.lastApplied + 1) }

  predicate Enabled(s: State, step: Step) {
    match step
    case Pick => s.phase.Idle? && PickSafe(s)
    case Hand => s.phase.Picked?
    case Book => s.phase.Handed?
    // the service snapshots what it has been given
    case TakeSnapshot(index) => index <= Seen(s.delivered) && (index > s.snapshotIndex ==> s.log.Holds(index))
    case InstallSnapshot(_, _) => |s.log.entries| > 0 && s.log.index0 <= s.snapshotIndex
    case Commit(index) => s.commitIndex < index < s.log.Length()
    case Append(_) => true
    // entries come and go behind the commit index only
    case Replace(log) =>
      && log.index0 == s.log.index0 && |log.entries| > 0 && s.commitIndex < log.Length()
      && forall i :: log.index0 <= i <= s.commitIndex && s.log.Holds(i) ==> log.At(i) == s.log.At(i)
  }

  function Apply(s: State, step: Step): State
    requires Enabled(s, step)
  {
    match step
    case Pick =>
      if WantsSnapshot(s) then s.(phase := Picked(Snap(s.snapshotIndex)))
      else if WantsCommand(s) then
        s.(phase := Picked(Cmd(s.lastApplied + 1, s.log.At(s.lastApplied + 1).command)))
      else s
    case Hand => s.(phase := Handed(s.phase.msg), delivered := s.delivered + [s.phase.msg])
    case Book =>
      var m := s.phase.msg;
      var t := s.(phase := Idle);
      if m.Snap? then
        if m.index > s.lastApplied
        then t.(lastApplied := m.index, commitIndex := if m.index > s.commitIndex then m.index else s.commitIndex)
        else t
      else if m.index >= s.lastApplied + 1 then t.(lastApplied := m.index) else t
    case TakeSnapshot(index) =>
      if index <= s.snapshotIndex then s else s.(snapshotIndex := index, log := s.log.CutOffHead(index))
    case InstallSnapshot(index, term) =>
      if s.snapshotIndex >= index || s.lastApplied >= index then s
      else if s.log.LastIndex() > index then s.(snapshotIndex := index, log := s.log.CutOffHead(index))
      else s.(snapshotIndex := index, log := Log([Entry(term, Nil)], index))
    case Commit(index) => s.(commitIndex := index)
    case Append(e) => s.(log := s.log.Append(e))
    case Replace(log) => s.(log := log)
  }

  /**
   * Picking leaves the loop idle if and only if neither a snapshot nor a committed command is waiting;
   * a snapshot goes first, and otherwise the next command is picked.
   */
  lemma PicksExactly(s: State)
    requires Enabled(s, Pick)
    ensures var t := Apply(s, Pick);
            && t == s.(phase := t.phase)
            && (t.phase.Idle? <==> s.snapshotIndex <= s.lastApplied && s.commitIndex <= s.lastApplied)
            && (s.snapshotIndex > s.lastApplied ==> t.phase == Picked(Snap(s.snapshotIndex)))
            && (s.snapshotIndex <= s.lastApplied < s.commitIndex ==>
                  s.log.Holds(s.lastApplied + 1)
                  && t.phase == Picked(Cmd(s.lastApplied + 1, s.log.At(s.lastApplied + 1).command)))
  {
  }

  /** What one round of the loop hands over when something is waiting. */
  function Waiting(s: State): Delivery
    requires PickSafe(s) && (s.snapshotIndex > s.lastApplied || s.commitIndex > s.lastApplied)
  {
    if s.snapshotIndex > s.lastApplied then Snap(s.snapshotIndex)
    else Cmd(s.lastApplied + 1, s.log.At(s.lastApplied + 1).command)
  }

  function Most(a: nat, b: nat): nat { if a > b then a else b }

  /** One round hands over what is waiting and books it; the commit index moves to a snapshot at most. */
  lemma RoundDelivers(s: State)
    requires InvariantOk(s) && s.phase.Idle? && (s.snapshotIndex > s.lastApplied || s.commitIndex > s.lastApplied)
    ensures PickSafe(s)
    ensures var m := Waiting(s);
            var p := Apply(s, Pick);
            && Enabled(p, Hand) && Enabled(Apply(p, Hand), Book)
            && m.index > s.lastApplied
            && Apply(Apply(p, Hand), Book)
               == s.(lastApplied := m.index, delivered := s.delivered + [m],
                     commitIndex := if m.Snap? then Most(s.commitIndex, m.index) else s.commitIndex)
  {
    hide InOrder;
  }

  /** A server that starts, or starts again with what it had persisted. */
  predicate IsInit(s: State) {
    && |s.log.entries| > 0 && s.snapshotIndex == s.log.index0
    && s.commitIndex == 0 && s.lastApplied == 0 && s.phase == Idle && s.delivered == []
  }

  ghost predicate IsRun(run: seq<State>) {
    && |run| > 0 && IsInit(run[0])
    && forall k {:trigger StepAt(run, k)} :: 0 <= k < |run| - 1 ==> StepAt(run, k)
  }

  ghost predicate StepAt(run: seq<State>, k: nat)
    requires k + 1 < |run|
  {
    exists step :: Enabled(run[k], step) && run[k + 1] == Apply(run[k], step)
  }

  /** Commands come one by one; a snapshot only ever jumps forward. */
  predicate InOrder(delivered: seq<Delivery>) {
    forall k :: 0 <= k < |delivered| ==>
      if delivered[k].Snap? then delivered[k].index > Seen(delivered[..k])
      else delivered[k].index == Seen(delivered[..k]) + 1
  }

  predicate InvariantOk(s: State) {
    && |s.log.entries| > 0 && s.snapshotIndex == s.log.index0 && s.commitIndex < s.log.Length()
    && InOrder(s.delivered)
    && (s.lastApplied <= s.commitIndex || s.lastApplied <= s.snapshotIndex)
    && match s.phase {
         case Idle => Seen(s.delivered) == s.lastApplied
         case Picked(m) => Seen(s.delivered) == s.lastApplied && Fits(s, m)
         case Handed(m) => Seen(s.delivered) == m.index && Fits(s, m)
       }
  }

  predicate Fits(s: State, m: Delivery) {
    if m.Snap? then s.lastApplied < m.index <= s.snapshotIndex
    else m.index == s.lastApplied + 1 && m.index <= s.commitIndex
  }

  lemma HandKeepsOrder(d: seq<Delivery>, m: Delivery)
    requires InOrder(d) && (if m.Snap? then m.index > Seen(d) else m.index == Seen(d) + 1)
    ensures InOrder(d + [m])
  {
    forall k | 0 <= k < |d| + 1
      ensures if (d + [m])[k].Snap? then (d + [m])[k].index > Seen((d + [m])[..k])
              else (d + [m])[k].index == Seen((d + [m])[..k]) + 1
    {
      assert (d + [m])[..k] == d[..k];
      if k == |d| { assert d[..k] == d; }
    }
  }

  lemma StepKeeps(s: State, step: Step)
    requires InvariantOk(s) && Enabled(s, step)
    ensures InvariantOk(Apply(s, step)) && s.delivered <= Apply(s, step).delivered
  {
    hide InOrder;
    if step.Hand? { HandKeepsOrder(s.delivered, s.phase.msg); }
  }

  lemma {:induction false} RunOk(run: seq<State>, k: nat)
    requires IsRun(run) && k < |run|
    ensures InvariantOk(run[k])
  {
    if k > 0 {
      RunOk(run, k - 1);
      assert StepAt(run, k - 1);
      var step :| Enabled(run[k - 1], step) && run[k - 1 + 1] == Apply(run[k - 1], step);
      StepKeeps(run[k - 1], step);
    }
  }

  /**
   * In every interleaving the service sees commands one index at a time and snapshots that jump
   * strictly forward, and the loop never reads outside the retained log.
   */
  lemma DeliveryOrder(run: seq<State>, k: nat)
    requires IsRun(run) && k < |run|
    ensures InOrder(run[k].delivered)
    ensures run[k].phase.Idle? ==> PickSafe(run[k])
    ensures forall index :: run[k].snapshotIndex < index <= Seen(run[k].delivered) ==> run[k].log.Holds(index)
  {
    RunOk(run, k);
  }

  // ---------------------------------------------------------------- what is delivered

  /** Inside the retained log, up to the commit index, stand the commands of `truth`. */
  predicate Holds(s: State, truth: nat -> Command) {
    forall i: nat :: s.log.index0 < i <= s.commitIndex && s.log.Holds(i) ==> s.log.At(i).command == truth(i)
  }

  predicate AllTrue(delivered: seq<Delivery>, truth: nat -> Command) {
    forall k :: 0 <= k < |delivered| && delivered[k].Cmd? ==> delivered[k].command == truth(delivered[k].index)
  }

  predicate PhaseTrue(phase: Phase, truth: nat -> Command) {
    !phase.Idle? && phase.msg.Cmd? ==> phase.msg.command == truth(phase.msg.index)
  }

  lemma TruthStep(s: State, step: Step, truth: nat -> Command)
    requires InvariantOk(s) && Enabled(s, step) && Holds(s, truth)
    requires AllTrue(s.delivered, truth) && PhaseTrue(s.phase, truth)
    ensures AllTrue(Apply(s, step).delivered, truth) && PhaseTrue(Apply(s, step).phase, truth)
  {
    hide InOrder;
  }

  lemma {:induction false} DeliveredTruth(run: seq<State>, k: nat, truth: nat -> Command)
    requires IsRun(run) && k < |run|
    requires forall j :: 0 <= j < |run| ==> Holds(run[j], truth)
    ensures AllTrue(run[k].delivered, truth) && PhaseTrue(run[k].phase, truth)
  {
    hide Enabled, Apply, Holds, InvariantOk;
    if k > 0 {
      DeliveredTruth(run, k - 1, truth);
      RunOk(run, k - 1);
      assert StepAt(run, k - 1);
      var step :| Enabled(run[k - 1], step) && run[k - 1 + 1] == Apply(run[k - 1], step);
      TruthStep(run[k - 1], step, truth);
    } else {
      assert run[0].delivered == [] && run[0].phase == Idle;
    }
  }

  /**
   * Two servers whose committed entries agree, as state machine safety provides, hand their
   * services the same command wherever both hand over the same index.
   */
  lemma SameCommands(a: seq<State>, b: seq<State>, j: nat, k: nat, truth: nat -> Command, x: nat, y: nat)
    requires IsRun(a) && IsRun(b) && j < |a| && k < |b|
    requires (forall i :: 0 <= i < |a| ==> Holds(a[i], truth)) && (forall i :: 0 <= i < |b| ==> Holds(b[i], truth))
    requires x < |a[j].delivered| && y < |b[k].delivered|
    requires a[j].delivered[x].Cmd? && b[k].delivered[y].Cmd?
    requires a[j].delivered[x].index == b[k].delivered[y].index
    ensures a[j].delivered[x].command == b[k].delivered[y].command
  {
    DeliveredTruth(a, j, truth);
    DeliveredTruth(b, k, truth);
  }

  // ---------------------------------------------------------------- the loop in place

  /** The fields the apply loop works on; each method is one stretch under the lock. */
  class ApplyLoop {
    var log: Log
    var snapshotIndex: nat
    var commitIndex: nat
    var lastApplied: nat

    constructor (log: Log, snapshotIndex: nat)
      ensures View(Idle, []) == State(log, snapshotIndex, 0, 0, Idle, [])
    {
      this.log, this.snapshotIndex, commitIndex, lastApplied := log, snapshotIndex, 0, 0;
    }

    ghost function View(phase: Phase, delivered: seq<Delivery>): State
      reads this
    {
      State(log, snapshotIndex, commitIndex, lastApplied, phase, delivered)
    }

    /** Chooses the next message: a snapshot before any command; Idle means there is nothing to hand over. */
    method PickNext(ghost delivered: seq<Delivery>) returns (phase: Phase)
      requires PickSafe(View(Idle, delivered))
      ensures View(phase, delivered) == Apply(View(Idle, delivered), Pick)
    {
      if snapshotIndex > lastApplied {
        return Picked(Snap(snapshotIndex));
      }
      if lastApplied < commitIndex {
        var commandIndex := lastApplied + 1;
        return Picked(Cmd(commandIndex, log.At(commandIndex).command));
      }
      return Idle;
    }

    /** Books what the service has been given. */
    method BookHanded(msg: Delivery, ghost delivered: seq<Delivery>)
      modifies this
      ensures View(Idle, delivered) == Apply(old(View(Handed(msg), delivered)), Book)
    {
      if msg.Snap? {
        if msg.index > lastApplied {
          lastApplied := msg.index;
          if msg.index > commitIndex {
            commitIndex := msg.index;
          }
        }
      } else if msg.index >= lastApplied + 1 {
        lastApplied := msg.index;
      }
    }
  }
}
