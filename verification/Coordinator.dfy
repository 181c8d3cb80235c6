/** The MapReduce coordinator: task states, workers that wait for tasks, and timeouts. */
module Coordinator {

  datatype TaskState = Waiting | Started | Finished

  datatype Phase = MapPhase | ReducePhase

  /** The state under the mutex. */
  datatype Tasks = Tasks(maps: seq<TaskState>, reduces: seq<TaskState>, mapTasksDone: bool, done: bool)

  /** What one attempt to fetch a task comes to. */
  datatype Fetched = GotMap(id: nat) | GotReduce(id: nat) | GotDone | MustWait(phase: Phase)

  predicate AllFinished(ts: seq<TaskState>) { forall i :: 0 <= i < |ts| ==> ts[i] == Finished }

  predicate NoneWaiting(ts: seq<TaskState>) { forall i :: 0 <= i < |ts| ==> ts[i] != Waiting }

  /** The first task that waits to be handed out, or the number of tasks. */
  function FirstWaiting(ts: seq<TaskState>): (i: nat)
    ensures i <= |ts| && NoneWaiting(ts[..i]) && (i < |ts| ==> ts[i] == Waiting)
  {
    if ts == [] then 0
    else if ts[0] == Waiting then 0
    else
      var i := FirstWaiting(ts[1..]) + 1;
      assert forall j :: 0 < j < i ==> ts[j] == ts[1..][..i - 1][j - 1];
      i
  }

  function MapsDone(t: Tasks): bool { t.mapTasksDone || AllFinished(t.maps) }

  function ReducesDone(t: Tasks): bool { t.done || AllFinished(t.reduces) }

  function FetchReduce(t: Tasks): (Tasks, Fetched) {
    if ReducesDone(t) then (t.(done := true), GotDone)
    else
      var i := FirstWaiting(t.reduces);
      if i < |t.reduces| then (t.(reduces := t.reduces[i := Started]), GotReduce(i)) else (t, MustWait(ReducePhase))
  }

  /** One pass of the fetch loops, from the phase the worker is in. */
  function Fetch(t: Tasks, phase: Phase): (Tasks, Fetched) {
    if phase == ReducePhase then FetchReduce(t)
    else if MapsDone(t) then FetchReduce(t.(mapTasksDone := true))
    else
      var i := FirstWaiting(t.maps);
      if i < |t.maps| then (t.(maps := t.maps[i := Started]), GotMap(i)) else (t, MustWait(MapPhase))
  }

  function Report(ts: seq<TaskState>, id: nat): seq<TaskState>
    requires id < |ts|
  {
    ts[id := Finished]
  }

  function TimeOut(ts: seq<TaskState>, id: nat): seq<TaskState>
    requires id < |ts|
  {
    if ts[id] == Finished then ts else ts[id := Waiting]
  }

  // ---------------------------------------------------------------- the coordinator with its workers

  datatype Worker = Idle | Asleep(phase: Phase) | Awake(phase: Phase) | OnMap(id: nat) | OnReduce(id: nat) | Stopped

  datatype System = System(tasks: Tasks, workers: seq<Worker>)

  datatype Step =
    | Ask(w: nat)
    | MapReport(id: nat)
    | ReduceReport(id: nat)
    | MapTimeout(id: nat)
    | ReduceTimeout(id: nat)
    | Poll
    | Free(w: nat)

  function Woken(ws: seq<Worker>): (r: seq<Worker>)
    ensures |r| == |ws| && forall i :: 0 <= i < |ws| ==> r[i] == if ws[i].Asleep? then Awake(ws[i].phase) else ws[i]
  {
    seq(|ws|, i requires 0 <= i < |ws| => if ws[i].Asleep? then Awake(ws[i].phase) else ws[i])
  }

  function After(f: Fetched): Worker {
    match f
    case GotMap(id) => OnMap(id)
    case GotReduce(id) => OnReduce(id)
    case GotDone => Stopped
    case MustWait(phase) => Asleep(phase)
  }

  predicate Enabled(s: System, step: Step) {
    match step
    case Ask(w) => w < |s.workers| && (s.workers[w].Idle? || s.workers[w].Awake?)
    case MapReport(id) => id < |s.tasks.maps|
    case ReduceReport(id) => id < |s.tasks.reduces|
    case MapTimeout(id) => id < |s.tasks.maps|
    case ReduceTimeout(id) => id < |s.tasks.reduces|
    case Poll => true
    case Free(w) => w < |s.workers| && (s.workers[w].OnMap? || s.workers[w].OnReduce?)
  }

  /** Each step is one stretch under the mutex; a report wakes the waiting workers only if it completes the phase. */
  function Next(s: System, step: Step): System
    requires Enabled(s, step)
  {
    var t := s.tasks;
    match step
    case Ask(w) =>
      var (t', f) := Fetch(t, if s.workers[w].Awake? then s.workers[w].phase else MapPhase);
      System(t', s.workers[w := After(f)])
    case MapReport(id) =>
      var t' := t.(maps := Report(t.maps, id));
      if MapsDone(t') then System(t'.(mapTasksDone := true), Woken(s.workers)) else System(t', s.workers)
    case ReduceReport(id) =>
      var t' := t.(reduces := Report(t.reduces, id));
      if ReducesDone(t') then System(t'.(done := true), Woken(s.workers)) else System(t', s.workers)
    case MapTimeout(id) =>
      if t.maps[id] == Finished then s else System(t.(maps := TimeOut(t.maps, id)), Woken(s.workers))
    case ReduceTimeout(id) =>
      if t.reduces[id] == Finished then s else System(t.(reduces := TimeOut(t.reduces, id)), Woken(s.workers))
    case Poll => s.(tasks := t.(done := ReducesDone(t)))
    case Free(w) => s.(workers := s.workers[w := Idle])
  }

  function InitialTasks(nMap: nat, nReduce: nat): Tasks {
    Tasks(seq(nMap, _ => Waiting), seq(nReduce, _ => Waiting), false, false)
  }

  predicate IsRun(run: seq<System>, steps: seq<Step>, nMap: nat, nReduce: nat) {
    && |run| == |steps| + 1 && run[0].tasks == InitialTasks(nMap, nReduce)
    && (forall w :: 0 <= w < |run[0].workers| ==> run[0].workers[w] == Idle)
    && forall k {:trigger StepAt(run, steps, k)} :: 0 <= k < |steps| ==> StepAt(run, steps, k)
  }

  predicate StepAt(run: seq<System>, steps: seq<Step>, k: nat)
    requires k < |steps| && k + 1 < |run|
  {
    Enabled(run[k], steps[k]) && run[k + 1] == Next(run[k], steps[k])
  }

  // ---------------------------------------------------------------- what every step keeps

  predicate WorkerOk(t: Tasks, w: Worker) {
    match w
    case Asleep(MapPhase) => NoneWaiting(t.maps) && !AllFinished(t.maps)
    case Asleep(ReducePhase) => AllFinished(t.maps) && NoneWaiting(t.reduces) && !AllFinished(t.reduces)
    case Awake(ReducePhase) => AllFinished(t.maps)
    case OnReduce(_) => AllFinished(t.maps)
    case Stopped => AllFinished(t.maps) && AllFinished(t.reduces)
    case _ => true
  }

  predicate Inv(s: System) {
    && (s.tasks.mapTasksDone ==> AllFinished(s.tasks.maps))
    && (s.tasks.done ==> AllFinished(s.tasks.reduces))
    && forall w :: 0 <= w < |s.workers| ==> WorkerOk(s.tasks, s.workers[w])
  }

  lemma FirstOrNone(ts: seq<TaskState>)
    ensures FirstWaiting(ts) == |ts| ==> NoneWaiting(ts)
  {
    assert ts[..|ts|] == ts;
  }

  lemma FetchKeeps(t: Tasks, phase: Phase)
    requires (t.mapTasksDone ==> AllFinished(t.maps)) && (t.done ==> AllFinished(t.reduces))
    requires phase == ReducePhase ==> AllFinished(t.maps)
    ensures var (t', f) := Fetch(t, phase);
            && (t'.mapTasksDone ==> AllFinished(t'.maps)) && (t'.done ==> AllFinished(t'.reduces))
            && WorkerOk(t', After(f)) && forall w :: WorkerOk(t, w) ==> WorkerOk(t', w)
  {
    FirstOrNone(t.maps);
    FirstOrNone(t.reduces);
  }

  lemma WakingKeeps(t: Tasks, ws: seq<Worker>, w: nat)
    requires w < |ws| && WorkerOk(t, ws[w])
    ensures WorkerOk(t, Woken(ws)[w]) && !Woken(ws)[w].Asleep?
  {
  }

  /** Tasks that only move on keep everybody who is not asleep in order. */
  lemma MovedOn(t: Tasks, t': Tasks, w: Worker)
    requires WorkerOk(t, w) && !w.Asleep?
    requires AllFinished(t.maps) ==> AllFinished(t'.maps)
    requires AllFinished(t.reduces) ==> AllFinished(t'.reduces)
    ensures WorkerOk(t', w)
  {
  }

  lemma ReportKeeps(ts: seq<TaskState>, id: nat)
    requires id < |ts|
    ensures (AllFinished(ts) ==> AllFinished(Report(ts, id))) && (NoneWaiting(ts) ==> NoneWaiting(Report(ts, id)))
    ensures AllFinished(ts) ==> AllFinished(TimeOut(ts, id))
  {
  }

  lemma AskKeeps(s: System, w: nat)
    requires Inv(s) && Enabled(s, Ask(w))
    ensures Inv(Next(s, Ask(w)))
  {
    hide Fetch, WorkerOk;
    var phase := if s.workers[w].Awake? then s.workers[w].phase else MapPhase;
    assert phase == ReducePhase ==> AllFinished(s.tasks.maps) by { AwakeOk(s.tasks, s.workers[w]); }
    FetchKeeps(s.tasks, phase);
  }

  lemma AwakeOk(t: Tasks, w: Worker)
    ensures WorkerOk(t, w) && w == Awake(ReducePhase) ==> AllFinished(t.maps)
  {
  }

  lemma MapReportKeeps(s: System, id: nat)
    requires Inv(s) && Enabled(s, MapReport(id))
    ensures Inv(Next(s, MapReport(id)))
  {
    var s', t := Next(s, MapReport(id)), s.tasks;
    ReportKeeps(t.maps, id);
    forall w | 0 <= w < |s.workers| ensures WorkerOk(s'.tasks, s'.workers[w]) {
      if MapsDone(t.(maps := Report(t.maps, id))) {
        WakingKeeps(t, s.workers, w);
        MovedOn(t, s'.tasks, s'.workers[w]);
      }
    }
  }

  lemma ReduceReportKeeps(s: System, id: nat)
    requires Inv(s) && Enabled(s, ReduceReport(id))
    ensures Inv(Next(s, ReduceReport(id)))
  {
    var s', t := Next(s, ReduceReport(id)), s.tasks;
    ReportKeeps(t.reduces, id);
    forall w | 0 <= w < |s.workers| ensures WorkerOk(s'.tasks, s'.workers[w]) {
      if ReducesDone(t.(reduces := Report(t.reduces, id))) {
        WakingKeeps(t, s.workers, w);
        MovedOn(t, s'.tasks, s'.workers[w]);
      }
    }
  }

  lemma TimeoutKeeps(s: System, step: Step)
    requires Inv(s) && (step.MapTimeout? || step.ReduceTimeout?) && Enabled(s, step)
    ensures Inv(Next(s, step))
  {
    var s', t := Next(s, step), s.tasks;
    if step.MapTimeout? { ReportKeeps(t.maps, step.id); } else { ReportKeeps(t.reduces, step.id); }
    forall w | 0 <= w < |s.workers| ensures WorkerOk(s'.tasks, s'.workers[w]) {
      if s' != s {
        WakingKeeps(t, s.workers, w);
        MovedOn(t, s'.tasks, s'.workers[w]);
      }
    }
  }

  lemma StepKeeps(s: System, step: Step)
    requires Inv(s) && Enabled(s, step)
    ensures Inv(Next(s, step))
  {
    match step
    case Ask(w) => AskKeeps(s, w);
    case MapReport(id) => MapReportKeeps(s, id);
    case ReduceReport(id) => ReduceReportKeeps(s, id);
    case MapTimeout(_) => TimeoutKeeps(s, step);
    case ReduceTimeout(_) => TimeoutKeeps(s, step);
    case Poll =>
    case Free(_) =>
  }

  lemma {:induction false} RunKeeps(run: seq<System>, steps: seq<Step>, nMap: nat, nReduce: nat, k: nat)
    requires IsRun(run, steps, nMap, nReduce) && k < |run|
    ensures Inv(run[k])
  {
    hide Inv, Next, Enabled;
    if k == 0 {
      StartsOk(run[0], nMap, nReduce);
    } else {
      RunKeeps(run, steps, nMap, nReduce, k - 1);
      assert StepAt(run, steps, k - 1);
      StepKeeps(run[k - 1], steps[k - 1]);
    }
  }

  lemma StartsOk(s: System, nMap: nat, nReduce: nat)
    requires s.tasks == InitialTasks(nMap, nReduce) && forall w :: 0 <= w < |s.workers| ==> s.workers[w] == Idle
    ensures Inv(s)
  {
  }

  // ---------------------------------------------------------------- the promises

  /** What is finished stays finished. */
  predicate StayFinished(ts: seq<TaskState>, ts': seq<TaskState>) {
    |ts'| == |ts| && forall i :: 0 <= i < |ts| && ts[i] == Finished ==> ts'[i] == Finished
  }

  lemma StepFinishes(s: System, step: Step)
    requires Enabled(s, step)
    ensures StayFinished(s.tasks.maps, Next(s, step).tasks.maps) && StayFinished(s.tasks.reduces, Next(s, step).tasks.reduces)
  {
  }

  lemma {:induction false} NeverUndone(run: seq<System>, steps: seq<Step>, nMap: nat, nReduce: nat, j: nat, k: nat)
    requires IsRun(run, steps, nMap, nReduce) && j <= k < |run|
    ensures StayFinished(run[j].tasks.maps, run[k].tasks.maps) && StayFinished(run[j].tasks.reduces, run[k].tasks.reduces)
  {
    hide Next, Enabled;
    if j < k {
      NeverUndone(run, steps, nMap, nReduce, j, k - 1);
      assert StepAt(run, steps, k - 1);
      StepFinishes(run[k - 1], steps[k - 1]);
    }
  }

  /** A reduce task is handed out only when all map tasks are finished, and a worker stopped only when everything is. */
  lemma ReducesComeLast(run: seq<System>, steps: seq<Step>, nMap: nat, nReduce: nat, k: nat, w: nat)
    requires IsRun(run, steps, nMap, nReduce) && k < |run| && w < |run[k].workers|
    ensures run[k].workers[w].OnReduce? ==> AllFinished(run[k].tasks.maps)
    ensures run[k].workers[w].Stopped? ==> AllFinished(run[k].tasks.maps) && AllFinished(run[k].tasks.reduces)
    ensures run[k].tasks.done ==> AllFinished(run[k].tasks.reduces)
  {
    RunKeeps(run, steps, nMap, nReduce, k);
    assert WorkerOk(run[k].tasks, run[k].workers[w]);
  }

  /** Nobody sleeps while the phase they wait in has a task to hand out, or is over. */
  lemma NobodyForgotten(run: seq<System>, steps: seq<Step>, nMap: nat, nReduce: nat, k: nat, w: nat)
    requires IsRun(run, steps, nMap, nReduce) && k < |run| && w < |run[k].workers| && run[k].workers[w].Asleep?
    ensures var t := run[k].tasks;
            if run[k].workers[w].phase == MapPhase
            then NoneWaiting(t.maps) && !AllFinished(t.maps)
            else AllFinished(t.maps) && NoneWaiting(t.reduces) && !AllFinished(t.reduces)
  {
    RunKeeps(run, steps, nMap, nReduce, k);
    assert WorkerOk(run[k].tasks, run[k].workers[w]);
  }

  // ---------------------------------------------------------------- what asking and timing out come to

  /** The phase a worker asks in. */
  function PhaseOf(w: Worker): Phase { if w.Awake? then w.phase else MapPhase }

  predicate IsFirstWaiting(ts: seq<TaskState>, i: nat) {
    i < |ts| && ts[i] == Waiting && forall j :: 0 <= j < i ==> ts[j] != Waiting
  }

  lemma FirstWaitingIs(ts: seq<TaskState>)
    ensures FirstWaiting(ts) < |ts| ==> IsFirstWaiting(ts, FirstWaiting(ts))
    ensures FirstWaiting(ts) == |ts| ==> NoneWaiting(ts)
    ensures FirstWaiting(ts) <= |ts|
  {
    var i := FirstWaiting(ts);
    assert forall j :: 0 <= j < i ==> ts[j] == ts[..i][j];
    FirstOrNone(ts);
  }

  /** What a worker that asks for a reduce task is given. */
  ghost predicate GivenReduce(t: Tasks, t': Tasks, w: Worker) {
    match w
    case OnReduce(i) => IsFirstWaiting(t.reduces, i) && t'.reduces == t.reduces[i := Started]
    case Stopped => AllFinished(t.reduces) && t'.reduces == t.reduces
    case Asleep(phase) =>
      phase == ReducePhase && NoneWaiting(t.reduces) && !AllFinished(t.reduces) && t'.reduces == t.reduces
    case _ => false
  }

  /** What a worker that asks is given: the first waiting task, the end, or nothing for now. */
  ghost predicate GivenTask(t: Tasks, phase: Phase, t': Tasks, w: Worker) {
    if phase == MapPhase && !AllFinished(t.maps) then
      && t'.reduces == t.reduces
      && match w {
           case OnMap(i) => IsFirstWaiting(t.maps, i) && t'.maps == t.maps[i := Started]
           case Asleep(p) => p == MapPhase && NoneWaiting(t.maps) && t'.maps == t.maps
           case _ => false
         }
    else t'.maps == t.maps && GivenReduce(t, t', w)
  }

  lemma FetchGives(t: Tasks, phase: Phase)
    requires (t.mapTasksDone ==> AllFinished(t.maps)) && (t.done ==> AllFinished(t.reduces))
    ensures var (t', f) := Fetch(t, phase); GivenTask(t, phase, t', After(f))
  {
    FirstWaitingIs(t.maps);
    FirstWaitingIs(t.reduces);
  }

  /** In every reachable state, asking hands out the first waiting task of the phase, if there is one. */
  lemma AskGives(run: seq<System>, steps: seq<Step>, nMap: nat, nReduce: nat, k: nat, w: nat)
    requires IsRun(run, steps, nMap, nReduce) && k < |run| && Enabled(run[k], Ask(w))
    ensures GivenTask(run[k].tasks, PhaseOf(run[k].workers[w]), Next(run[k], Ask(w)).tasks, Next(run[k], Ask(w)).workers[w])
  {
    hide IsRun, GivenTask, Fetch;
    RunKeeps(run, steps, nMap, nReduce, k);
    FetchGives(run[k].tasks, PhaseOf(run[k].workers[w]));
  }

  predicate NobodyAsleep(ws: seq<Worker>) { forall w :: 0 <= w < |ws| ==> !ws[w].Asleep? }

  /** Workers that slept are awake in their phase; the others are as they were. */
  predicate AllWoken(ws: seq<Worker>, ws': seq<Worker>) {
    && |ws'| == |ws|
    && forall w :: 0 <= w < |ws| ==> ws'[w] == if ws[w].Asleep? then Awake(ws[w].phase) else ws[w]
  }

  /** A timeout puts an unfinished task back, and no other, and wakes everybody; of a finished one it does nothing. */
  lemma TimeoutReturns(s: System, step: Step)
    requires Enabled(s, step) && (step.MapTimeout? || step.ReduceTimeout?)
    ensures var ts, ts' := if step.MapTimeout? then s.tasks.maps else s.tasks.reduces,
                           if step.MapTimeout? then Next(s, step).tasks.maps else Next(s, step).tasks.reduces;
            if ts[step.id] == Finished then Next(s, step) == s
            else
              && |ts'| == |ts| && ts'[step.id] == Waiting
              && (forall i :: 0 <= i < |ts| && i != step.id ==> ts'[i] == ts[i])
              && Next(s, step).tasks == (if step.MapTimeout? then s.tasks.(maps := ts') else s.tasks.(reduces := ts'))
              && AllWoken(s.workers, Next(s, step).workers) && NobodyAsleep(Next(s, step).workers)
  {
  }

  /** After the timeout of an unfinished task, whoever asks next in its phase is given a task. */
  lemma TimeoutHandsOut(run: seq<System>, steps: seq<Step>, nMap: nat, nReduce: nat, k: nat, step: Step, w: nat)
    requires IsRun(run, steps, nMap, nReduce) && k < |run| && Enabled(run[k], step) && Enabled(Next(run[k], step), Ask(w))
    ensures var s, t := run[k], Next(run[k], step);
            && (step.MapTimeout? && s.tasks.maps[step.id] != Finished && PhaseOf(t.workers[w]) == MapPhase ==>
                  Next(t, Ask(w)).workers[w].OnMap?)
            && (step.ReduceTimeout? && s.tasks.reduces[step.id] != Finished
                && (PhaseOf(t.workers[w]) == ReducePhase || AllFinished(t.tasks.maps)) ==>
                  Next(t, Ask(w)).workers[w].OnReduce?)
  {
    hide IsRun, Fetch, Inv;
    RunKeeps(run, steps, nMap, nReduce, k);
    StepKeeps(run[k], step);
    var t := Next(run[k], step);
    TasksInOrder(t);
    if step.MapTimeout? || step.ReduceTimeout? { TimeoutReturns(run[k], step); }
    FetchGives(t.tasks, PhaseOf(t.workers[w]));
  }

  lemma TasksInOrder(s: System)
    requires Inv(s)
    ensures (s.tasks.mapTasksDone ==> AllFinished(s.tasks.maps)) && (s.tasks.done ==> AllFinished(s.tasks.reduces))
  {
  }

  /** The main program is told that the job is over exactly when all reduce tasks are finished. */
  lemma PollTells(run: seq<System>, steps: seq<Step>, nMap: nat, nReduce: nat, k: nat)
    requires IsRun(run, steps, nMap, nReduce) && k < |run|
    ensures Next(run[k], Poll).tasks.done <==> AllFinished(run[k].tasks.reduces)
    ensures Next(run[k], Poll) == run[k].(tasks := run[k].tasks.(done := Next(run[k], Poll).tasks.done))
  {
    hide IsRun, Inv;
    RunKeeps(run, steps, nMap, nReduce, k);
    TasksInOrder(run[k]);
  }

  // ---------------------------------------------------------------- the coordinator in place

  class Coordinator {
    const maps: array<TaskState>
    const reduces: array<TaskState>
    var mapTasksDone: bool
    var done: bool

    constructor (nMap: nat, nReduce: nat)
      ensures fresh(maps) && fresh(reduces) && maps != reduces && View() == InitialTasks(nMap, nReduce)
    {
      maps := new TaskState[nMap](_ => Waiting);
      reduces := new TaskState[nReduce](_ => Waiting);
      mapTasksDone, done := false, false;
    }

    ghost function View(): Tasks
      reads this, maps, reduces
    {
      Tasks(maps[..], reduces[..], mapTasksDone, done)
    }

    method MapTasksDone() returns (r: bool)
      modifies this`mapTasksDone
      ensures r == MapsDone(old(View())) && View() == old(View()).(mapTasksDone := r)
    {
      if mapTasksDone {
        return true;
      }
      for i := 0 to maps.Length
        invariant !mapTasksDone && forall j :: 0 <= j < i ==> maps[j] == Finished
      {
        if maps[i] != Finished {
          assert maps[..][i] != Finished;
          return false;
        }
      }
      mapTasksDone := true;
      return true;
    }

    method Done() returns (r: bool)
      modifies this`done
      ensures r == ReducesDone(old(View())) && View() == old(View()).(done := r)
    {
      if done {
        return true;
      }
      for i := 0 to reduces.Length
        invariant !done && forall j :: 0 <= j < i ==> reduces[j] == Finished
      {
        if reduces[i] != Finished {
          assert reduces[..][i] != Finished;
          return false;
        }
      }
      done := true;
      return true;
    }

    method FindWaiting(ts: array<TaskState>) returns (i: nat)
      ensures i == FirstWaiting(ts[..])
    {
      i := 0;
      while i < ts.Length
        invariant i <= ts.Length && forall j :: 0 <= j < i ==> ts[j] != Waiting
      {
        if ts[i] == Waiting {
          break;
        }
        i := i + 1;
      }
      FirstIs(ts[..], i);
    }

    /** One pass of the loops of a fetch: either a reply, or the worker has to wait. */
    method FetchTask(phase: Phase) returns (f: Fetched)
      requires maps != reduces
      modifies this, maps, reduces
      ensures (View(), f) == Fetch(old(View()), phase)
    {
      if phase == MapPhase {
        var over := MapTasksDone();
        if !over {
          var i := FindWaiting(maps);
          if i < maps.Length {
            maps[i] := Started;
            return GotMap(i);
          }
          return MustWait(MapPhase);
        }
      }
      var finished := Done();
      if finished {
        return GotDone;
      }
      var i := FindWaiting(reduces);
      if i < reduces.Length {
        reduces[i] := Started;
        return GotReduce(i);
      }
      return MustWait(ReducePhase);
    }

    /** Notes a finished map task; `wake` says whether the waiting workers are woken. */
    method MapTaskFinished(id: nat) returns (wake: bool)
      requires id < maps.Length && maps != reduces
      modifies this, maps
      ensures var t := old(View()).(maps := Report(old(View()).maps, id));
              wake == MapsDone(t) && View() == t.(mapTasksDone := wake)
    {
      ghost var before := maps[..];
      maps[id] := Finished;
      assert maps[..] == before[id := Finished];
      wake := MapTasksDone();
    }

    method ReduceTaskFinished(id: nat) returns (wake: bool)
      requires id < reduces.Length && maps != reduces
      modifies this, reduces
      ensures var t := old(View()).(reduces := Report(old(View()).reduces, id));
              wake == ReducesDone(t) && View() == t.(done := wake)
    {
      ghost var before := reduces[..];
      reduces[id] := Finished;
      assert reduces[..] == before[id := Finished];
      wake := Done();
    }

    /** A task that is not finished in time is up for another worker. */
    method RecoverMap(id: nat) returns (wake: bool)
      requires id < maps.Length && maps != reduces
      modifies maps
      ensures wake == (old(maps[id]) != Finished) && View() == old(View()).(maps := TimeOut(old(View()).maps, id))
    {
      wake := maps[id] != Finished;
      if wake {
        maps[id] := Waiting;
      }
    }

    method RecoverReduce(id: nat) returns (wake: bool)
      requires id < reduces.Length && maps != reduces
      modifies reduces
      ensures wake == (old(reduces[id]) != Finished) && View() == old(View()).(reduces := TimeOut(old(View()).reduces, id))
    {
      wake := reduces[id] != Finished;
      if wake {
        reduces[id] := Waiting;
      }
    }
  }

  lemma {:induction false} FirstIs(ts: seq<TaskState>, i: nat)
    requires i <= |ts| && NoneWaiting(ts[..i]) && (i < |ts| ==> ts[i] == Waiting)
    ensures FirstWaiting(ts) == i
  {
    if i > 0 {
      assert ts[..i][0] == ts[0] && ts[1..][..i - 1] == ts[..i][1..];
      FirstIs(ts[1..], i - 1);
    }
  }
}
