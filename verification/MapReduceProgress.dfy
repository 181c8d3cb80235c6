/**
 * A job never gets into a dead end: from every reachable state, whatever the other workers do, one
 * worker can bring the job to its end.
 */
module MapReduceProgress {
  import opened StringOrder
  import opened MapReduce
  import opened MapReduceJob
  import C = Coordinator

  // ---------------------------------------------------------------- every share has an output

  lemma {:induction false} SomeSorted(kvs: seq<KeyValue>) returns (r: seq<KeyValue>)
    ensures SortedByKey(r) && multiset(r) == multiset(kvs)
  {
    hide Before;
    if kvs == [] {
      r := [];
    } else {
      var kv := kvs[|kvs| - 1];
      var rest := SomeSorted(kvs[..|kvs| - 1]);
      var i := |rest|;
      while i > 0 && Before(kv.key, rest[i - 1].key)
        invariant 0 <= i <= |rest| && forall j :: i <= j < |rest| ==> Before(kv.key, rest[j].key)
      {
        i := i - 1;
      }
      r := rest[..i] + [kv] + rest[i..];
      assert rest == rest[..i] + rest[i..] && kvs == kvs[..|kvs| - 1] + [kv];
      InsertedByKey(rest, kv, i);
    }
  }

  /** The stretch of equal keys that starts at `i`. */
  lemma StretchEnd(kvs: seq<KeyValue>, i: nat) returns (j: nat)
    requires i < |kvs|
    ensures i < j <= |kvs| && OneKey(kvs[i..j], kvs[i].key) && (j < |kvs| ==> kvs[j].key != kvs[i].key)
    ensures kvs[j - 1].key == kvs[i].key
  {
    j := i + 1;
    while j < |kvs| && kvs[j].key == kvs[i].key
      invariant i < j <= |kvs| && forall n :: i <= n < j ==> kvs[n].key == kvs[i].key
    {
      j := j + 1;
    }
  }

  lemma SomeReduction(kvs: seq<KeyValue>, reducef: Reducer) returns (lines: seq<Line>)
    requires SortedByKey(kvs)
    ensures IsReduction(kvs, reducef, lines) && KeysAscend(lines)
  {
    hide IsReduction, Before, HasKey, Values;
    lines := [];
    EmptyReduction(reducef);
    var i := 0;
    while i < |kvs|
      invariant 0 <= i <= |kvs| && IsReduction(kvs[..i], reducef, lines)
      invariant KeysAscend(lines) && forall l :: 0 <= l < |lines| ==> HasKey(kvs[..i], lines[l].key)
      invariant 0 < i < |kvs| ==> kvs[i].key != kvs[i - 1].key
    {
      var j := StretchEnd(kvs, i);
      var line := Line(kvs[i].key, reducef(kvs[i].key, Values(kvs[i..j], kvs[i].key)));
      NewKey(kvs, i);
      GroupReduces(kvs[..i], kvs[i..j], kvs[i].key, reducef, lines);
      assert kvs[..j] == kvs[..i] + kvs[i..j];
      KeysSoFar(kvs, i, j, lines, line);
      lines := lines + [line];
      i := j;
    }
    assert kvs[..i] == kvs;
  }

  lemma SomeReduced(kvs: seq<KeyValue>, reducef: Reducer) returns (lines: seq<Line>)
    ensures Reduced(kvs, reducef, lines)
  {
    hide IsReduction, Unordered, SortedByKey;
    var sorted := SomeSorted(kvs);
    lines := SomeReduction(sorted, reducef);
    if Unordered(reducef) { PermutedReduction(sorted, kvs, reducef, lines); }
  }

  // ---------------------------------------------------------------- what is left to do

  function Left(ts: seq<C.TaskState>): nat {
    if ts == [] then 0 else Left(ts[..|ts| - 1]) + if ts[|ts| - 1] == C.Finished then 0 else 1
  }

  predicate SameFinished(ts: seq<C.TaskState>, ts': seq<C.TaskState>) {
    |ts'| == |ts| && forall i :: 0 <= i < |ts| ==> (ts'[i] == C.Finished <==> ts[i] == C.Finished)
  }

  lemma {:induction false} LeftSame(ts: seq<C.TaskState>, ts': seq<C.TaskState>)
    requires SameFinished(ts, ts')
    ensures Left(ts') == Left(ts)
  {
    if ts != [] { LeftSame(ts[..|ts| - 1], ts'[..|ts| - 1]); }
  }

  lemma {:induction false} LeftLess(ts: seq<C.TaskState>, i: nat)
    requires i < |ts| && ts[i] != C.Finished
    ensures Left(ts[i := C.Finished]) == Left(ts) - 1
  {
    var init := ts[..|ts| - 1];
    if i < |ts| - 1 {
      LeftLess(init, i);
      assert ts[i := C.Finished][..|ts| - 1] == init[i := C.Finished];
    } else {
      assert ts[i := C.Finished][..|ts| - 1] == init;
    }
  }

  lemma {:induction false} LeftNone(ts: seq<C.TaskState>)
    ensures Left(ts) == 0 ==> C.AllFinished(ts)
  {
    if ts != [] {
      LeftNone(ts[..|ts| - 1]);
      assert forall i :: 0 <= i < |ts| - 1 ==> ts[i] == ts[..|ts| - 1][i];
    }
  }

  lemma Unfinished(ts: seq<C.TaskState>) returns (i: nat)
    requires !C.AllFinished(ts)
    ensures i < |ts| && ts[i] != C.Finished
  {
    i :| 0 <= i < |ts| && ts[i] != C.Finished;
  }

  function Todo(t: C.Tasks): nat { Left(t.maps) + Left(t.reduces) }

  predicate SameProgress(t: C.Tasks, t': C.Tasks) { SameFinished(t.maps, t'.maps) && SameFinished(t.reduces, t'.reduces) }

  lemma TodoSame(t: C.Tasks, t': C.Tasks)
    requires SameProgress(t, t')
    ensures Todo(t') == Todo(t)
  {
    LeftSame(t.maps, t'.maps);
    LeftSame(t.reduces, t'.reduces);
  }

  // ---------------------------------------------------------------- going on with a run

  function Last(run: seq<Job>): Job
    requires run != []
  {
    run[|run| - 1]
  }

  /** A run that can be gone on with by worker `w`. */
  ghost predicate Ongoing(x: Input, run: seq<Job>, w: nat) {
    run != [] && IsRun(x, run) && w < |Last(run).system.workers| && x.nReduce > 0
  }

  lemma Goes(x: Input, run: seq<Job>, w: nat, step: Step) returns (more: seq<Job>)
    requires Ongoing(x, run, w) && Enabled(x, Last(run), step)
    ensures Ongoing(x, more, w) && run <= more && Last(more) == Next(x, Last(run), step)
  {
    hide Enabled;
    more := run + [Next(x, Last(run), step)];
    forall k: nat | k < |more| - 1 ensures StepAt(x, more, k) {
      if k < |run| - 1 {
        assert StepAt(x, run, k);
        var was :| Enabled(x, run[k], was) && run[k + 1] == Next(x, run[k], was);
        assert Enabled(x, more[k], was) && more[k + 1] == Next(x, more[k], was);
      } else {
        assert Enabled(x, more[k], step) && more[k + 1] == Next(x, more[k], step);
      }
    }
    WorkersStay(x, Last(run), step);
  }

  lemma WorkersStay(x: Input, j: Job, step: Step)
    requires x.nReduce > 0 && Enabled(x, j, step)
    ensures |Next(x, j, step).system.workers| == |j.system.workers|
  {
    hide C.Fetch;
  }

  lemma InOrder(x: Input, run: seq<Job>, w: nat)
    requires Ongoing(x, run, w)
    ensures JobOk(x, Last(run)) && w < |Last(run).progress| && WorkOk(x, Last(run), w)
    ensures C.WorkerOk(Last(run).system.tasks, Last(run).system.workers[w]) && C.Inv(Last(run).system)
  {
    hide IsRun, WorkOk, C.WorkerOk;
    RunOk(x, run, |run| - 1);
    assert WorkOk(x, Last(run), w);
  }

  // ---------------------------------------------------------------- freeing and waking a worker

  predicate Ready(w: C.Worker) { w.Idle? || w.Awake? }

  /** Whatever the worker was doing is given up: it stops, or is asleep and will be woken. */
  lemma GivesUp(x: Input, run: seq<Job>, w: nat) returns (more: seq<Job>)
    requires Ongoing(x, run, w)
    ensures Ongoing(x, more, w) && run <= more && Last(more).system.tasks == Last(run).system.tasks
    ensures !Last(more).system.workers[w].OnMap? && !Last(more).system.workers[w].OnReduce?
    ensures Last(run).system.workers[w].Stopped? <==> Last(more).system.workers[w].Stopped?
  {
    hide IsRun, C.Fetch;
    more := run;
    if Last(run).system.workers[w].OnMap? || Last(run).system.workers[w].OnReduce? {
      InOrder(x, run, w);
      more := Goes(x, run, w, Coordinate(C.Free(w)));
    }
  }

  /** The timeout of an unfinished task makes it available and wakes the worker. */
  lemma Wakes(x: Input, run: seq<Job>, w: nat, step: C.Step) returns (more: seq<Job>)
    requires Ongoing(x, run, w) && (step.MapTimeout? || step.ReduceTimeout?) && C.Enabled(Last(run).system, step)
    requires step.MapTimeout? ==> Last(run).system.tasks.maps[step.id] != C.Finished
    requires step.ReduceTimeout? ==> Last(run).system.tasks.reduces[step.id] != C.Finished
    requires !Last(run).system.workers[w].Stopped?
    ensures Ongoing(x, more, w) && run <= more && Ready(Last(more).system.workers[w])
    ensures SameProgress(Last(run).system.tasks, Last(more).system.tasks)
    ensures step.MapTimeout? ==>
              step.id < |Last(more).system.tasks.maps| && Last(more).system.tasks.maps[step.id] == C.Waiting
    ensures step.ReduceTimeout? ==>
              step.id < |Last(more).system.tasks.reduces| && Last(more).system.tasks.reduces[step.id] == C.Waiting
  {
    hide IsRun, Enabled, JobOk;
    var free := GivesUp(x, run, w);
    InOrder(x, free, w);
    TimesOut(x, Last(free), step);
    more := Goes(x, free, w, Coordinate(step));
    C.TimeoutReturns(Last(free).system, step);
  }

  lemma TimesOut(x: Input, j: Job, step: C.Step)
    requires JobOk(x, j) && (step.MapTimeout? || step.ReduceTimeout?) && C.Enabled(j.system, step)
    ensures Enabled(x, j, Coordinate(step)) && Next(x, j, Coordinate(step)).system == C.Next(j.system, step)
  {
  }

  // ---------------------------------------------------------------- one map task

  lemma AsksForMap(x: Input, run: seq<Job>, w: nat) returns (more: seq<Job>)
    requires Ongoing(x, run, w) && Ready(Last(run).system.workers[w])
    requires exists m :: 0 <= m < |Last(run).system.tasks.maps| && Last(run).system.tasks.maps[m] == C.Waiting
    ensures Ongoing(x, more, w) && run <= more && SameProgress(Last(run).system.tasks, Last(more).system.tasks)
    ensures w < |Last(more).progress| && Last(more).system.workers[w].OnMap? && Last(more).progress[w] == Mapping(0)
    ensures var m := Last(more).system.workers[w].id;
            m < |Last(more).system.tasks.maps| && Last(more).system.tasks.maps[m] != C.Finished
  {
    hide IsRun, JobOk, C.Fetch, C.Inv;
    var s := Last(run).system;
    InOrder(x, run, w);
    C.TasksInOrder(s);
    C.FetchGives(s.tasks, C.PhaseOf(s.workers[w]));
    AskEnabled(x, Last(run), w);
    more := Goes(x, run, w, Coordinate(C.Ask(w)));
  }

  lemma AskEnabled(x: Input, j: Job, w: nat)
    requires JobOk(x, j) && w < |j.system.workers| && Ready(j.system.workers[w])
    ensures Enabled(x, j, Coordinate(C.Ask(w))) && w < |j.progress|
    ensures var s := C.Next(j.system, C.Ask(w));
            Next(x, j, Coordinate(C.Ask(w))) == j.(system := s, progress := j.progress[w := Begun(s.workers[w])])
  {
    hide C.Fetch;
  }

  lemma {:induction false} WritesFiles(x: Input, run: seq<Job>, w: nat) returns (more: seq<Job>)
    requires Ongoing(x, run, w) && w < |Last(run).progress| && Last(run).system.workers[w].OnMap?
    requires Last(run).progress[w].Mapping? && Last(run).progress[w].next <= x.nReduce
    ensures Ongoing(x, more, w) && run <= more && Last(more).system == Last(run).system
    ensures w < |Last(more).progress| && Last(more).progress[w] == Mapping(x.nReduce)
    decreases x.nReduce - Last(run).progress[w].next
  {
    hide IsRun, C.Inv, FilesOk, OutsOk, TasksOk, MapFiles;
    more := run;
    if Last(run).progress[w].next < x.nReduce {
      InOrder(x, run, w);
      more := Goes(x, run, w, WriteFile(w));
      more := WritesFiles(x, more, w);
    }
  }

  lemma ReportsMap(x: Input, run: seq<Job>, w: nat) returns (more: seq<Job>)
    requires Ongoing(x, run, w) && w < |Last(run).progress| && Last(run).system.workers[w].OnMap?
    requires Last(run).progress[w] == Mapping(x.nReduce)
    requires var m := Last(run).system.workers[w].id;
             m < |Last(run).system.tasks.maps| && Last(run).system.tasks.maps[m] != C.Finished
    ensures Ongoing(x, more, w) && run <= more && Todo(Last(more).system.tasks) < Todo(Last(run).system.tasks)
  {
    hide IsRun, C.Inv, FilesOk, OutsOk, TasksOk, MapFiles, C.Next, WorkOk;
    var s, m := Last(run).system, Last(run).system.workers[w].id;
    InOrder(x, run, w);
    more := Goes(x, run, w, Report(w));
    ReportMoves(s, C.MapReport(m));
    LeftLess(s.tasks.maps, m);
  }

  /** One map task more is finished. */
  lemma FinishesMap(x: Input, run: seq<Job>, w: nat) returns (more: seq<Job>)
    requires Ongoing(x, run, w) && !Last(run).system.workers[w].Stopped? && !C.AllFinished(Last(run).system.tasks.maps)
    ensures Ongoing(x, more, w) && run <= more && Todo(Last(more).system.tasks) < Todo(Last(run).system.tasks)
  {
    hide Ongoing, Todo, C.AllFinished;
    OngoingShape(x, run, w);
    var m := Unfinished(Last(run).system.tasks.maps);
    var awake := Wakes(x, run, w, C.MapTimeout(m));
    TodoSame(Last(run).system.tasks, LastOf(x, awake, w).system.tasks);
    var asked := AsksForMap(x, awake, w);
    TodoSame(Last(awake).system.tasks, LastOf(x, asked, w).system.tasks);
    var written := WritesFiles(x, asked, w);
    OngoingShape(x, written, w);
    more := ReportsMap(x, written, w);
    OngoingShape(x, more, w);
  }

  lemma OngoingShape(x: Input, run: seq<Job>, w: nat)
    requires Ongoing(x, run, w)
    ensures run != [] && w < |Last(run).system.workers|
  {
  }

  ghost function LastOf(x: Input, run: seq<Job>, w: nat): Job
    requires Ongoing(x, run, w)
    ensures run != [] && LastOf(x, run, w) == Last(run)
  {
    Last(run)
  }

  // ---------------------------------------------------------------- one reduce task

  lemma AsksForReduce(x: Input, run: seq<Job>, w: nat) returns (more: seq<Job>)
    requires Ongoing(x, run, w) && Ready(Last(run).system.workers[w]) && C.AllFinished(Last(run).system.tasks.maps)
    requires exists r :: 0 <= r < |Last(run).system.tasks.reduces| && Last(run).system.tasks.reduces[r] == C.Waiting
    ensures Ongoing(x, more, w) && run <= more && SameProgress(Last(run).system.tasks, Last(more).system.tasks)
    ensures w < |Last(more).progress| && Last(more).system.workers[w].OnReduce? && Last(more).progress[w] == Reading([])
    ensures var r := Last(more).system.workers[w].id;
            r < |Last(more).system.tasks.reduces| && Last(more).system.tasks.reduces[r] != C.Finished
  {
    hide IsRun, JobOk, C.Fetch, C.Inv;
    var s := Last(run).system;
    InOrder(x, run, w);
    C.TasksInOrder(s);
    C.FetchGives(s.tasks, C.PhaseOf(s.workers[w]));
    AskEnabled(x, Last(run), w);
    more := Goes(x, run, w, Coordinate(C.Ask(w)));
  }

  lemma {:induction false} ReadsFiles(x: Input, run: seq<Job>, w: nat) returns (more: seq<Job>)
    requires Ongoing(x, run, w) && w < |Last(run).progress| && Last(run).system.workers[w].OnReduce?
    requires Last(run).progress[w].Reading? && |Last(run).progress[w].files| <= |x.outputs|
    ensures Ongoing(x, more, w) && run <= more && Last(more).system == Last(run).system
    ensures w < |Last(more).progress| && Last(more).progress[w].Reading? && |Last(more).progress[w].files| == |x.outputs|
    decreases |x.outputs| - |Last(run).progress[w].files|
  {
    hide IsRun;
    more := run;
    if |Last(run).progress[w].files| < |x.outputs| {
      FilesThere(x, run, |run| - 1, w);
      more := Goes(x, run, w, ReadFile(w));
      more := ReadsFiles(x, more, w);
    }
  }

  lemma WritesOut(x: Input, run: seq<Job>, w: nat) returns (more: seq<Job>)
    requires Ongoing(x, run, w) && w < |Last(run).progress| && Last(run).system.workers[w].OnReduce?
    requires Last(run).progress[w].Reading? && |Last(run).progress[w].files| == |x.outputs|
    ensures Ongoing(x, more, w) && run <= more && Last(more).system == Last(run).system
    ensures w < |Last(more).progress| && Last(more).progress[w].Written?
  {
    hide IsRun, Reduced, C.Inv, FilesOk, OutsOk, TasksOk, WorkOk;
    InOrder(x, run, w);
    var lines := SomeReduced(Flatten(Last(run).progress[w].files), x.reducef);
    more := Goes(x, run, w, WriteOut(w, lines));
  }

  lemma ReportsReduce(x: Input, run: seq<Job>, w: nat) returns (more: seq<Job>)
    requires Ongoing(x, run, w) && w < |Last(run).progress| && Last(run).system.workers[w].OnReduce?
    requires Last(run).progress[w].Written?
    requires var r := Last(run).system.workers[w].id;
             r < |Last(run).system.tasks.reduces| && Last(run).system.tasks.reduces[r] != C.Finished
    ensures Ongoing(x, more, w) && run <= more && Todo(Last(more).system.tasks) < Todo(Last(run).system.tasks)
  {
    hide IsRun, C.Inv, FilesOk, OutsOk, TasksOk, C.Next, WorkOk;
    var s, r := Last(run).system, Last(run).system.workers[w].id;
    InOrder(x, run, w);
    more := Goes(x, run, w, Report(w));
    ReportMoves(s, C.ReduceReport(r));
    LeftLess(s.tasks.reduces, r);
  }

  /** With all map tasks finished, one reduce task more is finished. */
  lemma FinishesReduce(x: Input, run: seq<Job>, w: nat) returns (more: seq<Job>)
    requires Ongoing(x, run, w) && !Last(run).system.workers[w].Stopped?
    requires C.AllFinished(Last(run).system.tasks.maps) && !C.AllFinished(Last(run).system.tasks.reduces)
    ensures Ongoing(x, more, w) && run <= more && Todo(Last(more).system.tasks) < Todo(Last(run).system.tasks)
  {
    hide Ongoing, Todo;
    OngoingShape(x, run, w);
    var r := Unfinished(Last(run).system.tasks.reduces);
    var awake := Wakes(x, run, w, C.ReduceTimeout(r));
    TodoSame(Last(run).system.tasks, LastOf(x, awake, w).system.tasks);
    var asked := AsksForReduce(x, awake, w);
    TodoSame(Last(awake).system.tasks, LastOf(x, asked, w).system.tasks);
    var read := ReadsFiles(x, asked, w);
    OngoingShape(x, read, w);
    var written := WritesOut(x, read, w);
    OngoingShape(x, written, w);
    more := ReportsReduce(x, written, w);
    OngoingShape(x, more, w);
  }

  // ---------------------------------------------------------------- the end

  lemma Ends(x: Input, run: seq<Job>, w: nat) returns (more: seq<Job>)
    requires Ongoing(x, run, w) && C.AllFinished(Last(run).system.tasks.reduces)
    ensures Ongoing(x, more, w) && run <= more && Over(Last(more))
  {
    hide IsRun, JobOk;
    InOrder(x, run, w);
    PollEnabled(x, Last(run));
    more := Goes(x, run, w, Coordinate(C.Poll));
  }

  lemma PollEnabled(x: Input, j: Job)
    requires JobOk(x, j)
    ensures Enabled(x, j, Coordinate(C.Poll)) && Next(x, j, Coordinate(C.Poll)).system == C.Next(j.system, C.Poll)
  {
  }

  /**
   * From every reachable state of a job, with whatever tasks lost, late or half done, and for any one of
   * its workers, the run can go on to one in which the job is over.
   */
  lemma {:induction false} CanFinish(x: Input, run: seq<Job>, w: nat) returns (more: seq<Job>)
    requires Ongoing(x, run, w)
    ensures Ongoing(x, more, w) && run <= more && Over(Last(more))
    decreases Todo(Last(run).system.tasks)
  {
    hide IsRun, C.AllFinished, Todo;
    var t := Last(run).system.tasks;
    if Last(run).system.workers[w].Stopped? {
      more := run;
    } else if C.AllFinished(t.reduces) {
      more := Ends(x, run, w);
    } else {
      if C.AllFinished(t.maps) {
        more := FinishesReduce(x, run, w);
      } else {
        more := FinishesMap(x, run, w);
      }
      more := CanFinish(x, more, w);
    }
  }
}
