/**
 * A whole MapReduce job: workers ask the coordinator for tasks, write and read files, and report. Any
 * of them may stop on the way, and a task that is late is handed out again, so a file may be written
 * more than once and while others read.
 */
module MapReduceJob {
  import opened MapReduce
  import C = Coordinator

  /** `outputs` is what the map function returns for each input file. */
  datatype Input = Input(outputs: seq<seq<KeyValue>>, hash: Hash, nReduce: nat, reducef: Reducer)

  /** The intermediate file of a map task for a reduce task. */
  datatype Name = Name(m: nat, r: nat)

  /** How far a worker is with its task: files written, files read, or the output in place. */
  datatype Progress = Mapping(next: nat) | Reading(files: seq<seq<KeyValue>>) | Written

  datatype Job = Job(
    system: C.System,
    progress: seq<Progress>,
    files: map<Name, seq<KeyValue>>,
    outs: map<nat, seq<Line>>)

  datatype Step =
    | Coordinate(step: C.Step)
    | WriteFile(w: nat)
    | ReadFile(w: nat)
    | WriteOut(w: nat, lines: seq<Line>)
    | Report(w: nat)

  function Begun(w: C.Worker): Progress { if w.OnReduce? then Reading([]) else Mapping(0) }

  /** The report of a worker that has everything in place. */
  function ReportOf(w: C.Worker): C.Step
    requires w.OnMap? || w.OnReduce?
  {
    if w.OnMap? then C.MapReport(w.id) else C.ReduceReport(w.id)
  }

  ghost predicate Enabled(x: Input, j: Job, step: Step) {
    && |j.progress| == |j.system.workers|
    && match step {
         // workers report with the step of their own
         case Coordinate(step) => C.Enabled(j.system, step) && !step.MapReport? && !step.ReduceReport?
         case WriteFile(w) =>
           && w < |j.progress| && j.system.workers[w].OnMap? && j.system.workers[w].id < |x.outputs|
           && j.progress[w].Mapping? && j.progress[w].next < x.nReduce
         case ReadFile(w) =>
           && w < |j.progress| && j.system.workers[w].OnReduce? && j.progress[w].Reading?
           && |j.progress[w].files| < |x.outputs|
           && Name(|j.progress[w].files|, j.system.workers[w].id) in j.files
         case WriteOut(w, lines) =>
           && w < |j.progress| && j.system.workers[w].OnReduce? && j.progress[w].Reading?
           && |j.progress[w].files| == |x.outputs| && Reduced(Flatten(j.progress[w].files), x.reducef, lines)
         case Report(w) =>
           && w < |j.progress|
           && ((j.system.workers[w].OnMap? && j.progress[w] == Mapping(x.nReduce))
               || (j.system.workers[w].OnReduce? && j.progress[w].Written?))
           && C.Enabled(j.system, ReportOf(j.system.workers[w]))
       }
  }

  ghost function Next(x: Input, j: Job, step: Step): Job
    requires x.nReduce > 0 && Enabled(x, j, step)
  {
    match step
    case Coordinate(step) =>
      var system := C.Next(j.system, step);
      j.(system := system,
         progress := if step.Ask? then j.progress[step.w := Begun(system.workers[step.w])] else j.progress)
    case WriteFile(w) =>
      var m, r := j.system.workers[w].id, j.progress[w].next;
      j.(files := j.files[Name(m, r) := Bucket(x.outputs[m], x.hash, x.nReduce, r)],
         progress := j.progress[w := Mapping(r + 1)])
    case ReadFile(w) =>
      var fs := j.progress[w].files;
      j.(progress := j.progress[w := Reading(fs + [j.files[Name(|fs|, j.system.workers[w].id)]])])
    case WriteOut(w, lines) =>
      j.(outs := j.outs[j.system.workers[w].id := lines], progress := j.progress[w := Written])
    case Report(w) => j.(system := C.Next(j.system, ReportOf(j.system.workers[w])))
  }

  ghost predicate IsInit(x: Input, j: Job) {
    && j.system.tasks == C.InitialTasks(|x.outputs|, x.nReduce)
    && (forall w :: 0 <= w < |j.system.workers| ==> j.system.workers[w] == C.Idle)
    && |j.progress| == |j.system.workers| && j.files == map[] && j.outs == map[]
  }

  ghost predicate IsRun(x: Input, run: seq<Job>) {
    && x.nReduce > 0 && |run| > 0 && IsInit(x, run[0])
    && forall k {:trigger StepAt(x, run, k)} :: 0 <= k < |run| - 1 ==> StepAt(x, run, k)
  }

  ghost predicate StepAt(x: Input, run: seq<Job>, k: nat)
    requires k + 1 < |run| && x.nReduce > 0
  {
    exists step :: Enabled(x, run[k], step) && run[k + 1] == Next(x, run[k], step)
  }

  // ---------------------------------------------------------------- what every step keeps

  predicate FileOk(x: Input, files: map<Name, seq<KeyValue>>, name: Name)
    requires x.nReduce > 0
  {
    name in files && name.m < |x.outputs| && files[name] == Bucket(x.outputs[name.m], x.hash, x.nReduce, name.r)
  }

  ghost predicate FilesOk(x: Input, files: map<Name, seq<KeyValue>>)
    requires x.nReduce > 0
  {
    forall name {:trigger FileOk(x, files, name)} :: name in files ==> FileOk(x, files, name)
  }

  /** The first `n` files of a map task are there. */
  predicate MapFiles(files: map<Name, seq<KeyValue>>, m: nat, n: nat) {
    forall r: nat :: r < n ==> Name(m, r) in files
  }

  ghost predicate OutOk(x: Input, outs: map<nat, seq<Line>>, r: nat)
    requires x.nReduce > 0
  {
    r in outs && Reduced(Flatten(Files(x.outputs, x.hash, x.nReduce, r)), x.reducef, outs[r])
  }

  ghost predicate OutsOk(x: Input, outs: map<nat, seq<Line>>)
    requires x.nReduce > 0
  {
    forall r {:trigger OutOk(x, outs, r)} :: r in outs ==> OutOk(x, outs, r)
  }

  predicate WorkOk(x: Input, j: Job, w: nat)
    requires x.nReduce > 0 && w < |j.system.workers| == |j.progress|
  {
    match j.system.workers[w]
    case OnMap(m) => m < |x.outputs| && j.progress[w].Mapping? && MapFiles(j.files, m, j.progress[w].next)
    case OnReduce(r) =>
      && r < x.nReduce && !j.progress[w].Mapping?
      && (j.progress[w].Reading? ==> j.progress[w].files <= Files(x.outputs, x.hash, x.nReduce, r))
      && (j.progress[w].Written? ==> r in j.outs)
    case _ => true
  }

  /** Everything that is reported finished is in place. */
  predicate TasksOk(x: Input, t: C.Tasks, files: map<Name, seq<KeyValue>>, outs: map<nat, seq<Line>>) {
    && |t.maps| == |x.outputs| && |t.reduces| == x.nReduce
    && (forall m: nat {:trigger MapFiles(files, m, x.nReduce)} :: m < |t.maps| && t.maps[m] == C.Finished ==>
          MapFiles(files, m, x.nReduce))
    && (forall r: nat :: r < |t.reduces| && t.reduces[r] == C.Finished ==> r in outs)
  }

  ghost predicate JobOk(x: Input, j: Job) {
    && x.nReduce > 0 && |j.progress| == |j.system.workers|
    && C.Inv(j.system) && FilesOk(x, j.files) && OutsOk(x, j.outs) && TasksOk(x, j.system.tasks, j.files, j.outs)
    && forall w: nat {:trigger WorkOk(x, j, w)} :: w < |j.progress| ==> WorkOk(x, j, w)
  }

  /** More files and outputs only. */
  predicate Grows(j: Job, j': Job) { j.files.Keys <= j'.files.Keys && j.outs.Keys <= j'.outs.Keys }

  lemma TasksGrow(x: Input, t: C.Tasks, j: Job, j': Job)
    requires TasksOk(x, t, j.files, j.outs) && Grows(j, j')
    ensures TasksOk(x, t, j'.files, j'.outs)
  {
    forall m: nat | m < |t.maps| && t.maps[m] == C.Finished ensures MapFiles(j'.files, m, x.nReduce) {
      assert MapFiles(j.files, m, x.nReduce);
      MoreFiles(j, j', m, x.nReduce);
    }
  }

  lemma MoreFiles(j: Job, j': Job, m: nat, n: nat)
    requires MapFiles(j.files, m, n) && Grows(j, j')
    ensures MapFiles(j'.files, m, n)
  {
    forall r: nat | r < n ensures Name(m, r) in j'.files { assert Name(m, r) in j.files.Keys; }
  }

  /** A worker that keeps its task and its progress stays in order. */
  lemma WorkStays(x: Input, j: Job, j': Job, w: nat)
    requires x.nReduce > 0 && w < |j.system.workers| == |j.progress| && w < |j'.system.workers| == |j'.progress|
    requires WorkOk(x, j, w) && Grows(j, j') && j'.progress[w] == j.progress[w]
    requires j'.system.workers[w] == j.system.workers[w] || !(j'.system.workers[w].OnMap? || j'.system.workers[w].OnReduce?)
    ensures WorkOk(x, j', w)
  {
    if j'.system.workers[w].OnMap? { MoreFiles(j, j', j.system.workers[w].id, j.progress[w].next); }
  }

  // ---------------------------------------------------------------- the coordinator's steps

  /** What a task list may turn into without a report: no task gets finished. */
  predicate NoneFinished(ts: seq<C.TaskState>, ts': seq<C.TaskState>) {
    |ts'| == |ts| && forall i :: 0 <= i < |ts| && ts'[i] == C.Finished ==> ts[i] == C.Finished
  }

  lemma AskMoves(t: C.Tasks, phase: C.Phase)
    ensures var (t', f) := C.Fetch(t, phase);
            && NoneFinished(t.maps, t'.maps) && NoneFinished(t.reduces, t'.reduces)
            && (f.GotMap? ==> f.id < |t.maps|) && (f.GotReduce? ==> f.id < |t.reduces|)
  {
  }

  lemma CoordinatorMoves(s: C.System, step: C.Step)
    requires C.Enabled(s, step) && !step.MapReport? && !step.ReduceReport?
    ensures var s' := C.Next(s, step);
            && NoneFinished(s.tasks.maps, s'.tasks.maps) && NoneFinished(s.tasks.reduces, s'.tasks.reduces)
            && |s'.workers| == |s.workers|
            && (forall w :: 0 <= w < |s.workers| && !(step.Ask? && step.w == w) ==>
                  s'.workers[w] == s.workers[w] || !(s'.workers[w].OnMap? || s'.workers[w].OnReduce?))
            && (step.Ask? && s'.workers[step.w].OnMap? ==> s'.workers[step.w].id < |s.tasks.maps|)
            && (step.Ask? && s'.workers[step.w].OnReduce? ==> s'.workers[step.w].id < |s.tasks.reduces|)
  {
    hide C.Fetch;
    if step.Ask? {
      AskMoves(s.tasks, if s.workers[step.w].Awake? then s.workers[step.w].phase else C.MapPhase);
    }
  }

  lemma CoordinateKeeps(x: Input, j: Job, step: C.Step)
    requires JobOk(x, j) && Enabled(x, j, Coordinate(step))
    ensures JobOk(x, Next(x, j, Coordinate(step)))
  {
    hide C.Inv, C.Next, FilesOk, OutsOk, MapFiles;
    var j' := Next(x, j, Coordinate(step));
    C.StepKeeps(j.system, step);
    CoordinatorMoves(j.system, step);
    forall w: nat | w < |j'.progress| ensures WorkOk(x, j', w) {
      assert WorkOk(x, j, w);
      if step.Ask? && step.w == w {
        BeginsOk(x, j', w);
      } else {
        WorkStays(x, j, j', w);
      }
    }
    forall m: nat | m < |j'.system.tasks.maps| && j'.system.tasks.maps[m] == C.Finished ensures MapFiles(j.files, m, x.nReduce) {
      assert j.system.tasks.maps[m] == C.Finished;
    }
  }

  lemma BeginsOk(x: Input, j: Job, w: nat)
    requires x.nReduce > 0 && w < |j.system.workers| == |j.progress| && j.progress[w] == Begun(j.system.workers[w])
    requires j.system.workers[w].OnMap? ==> j.system.workers[w].id < |x.outputs|
    requires j.system.workers[w].OnReduce? ==> j.system.workers[w].id < x.nReduce
    ensures WorkOk(x, j, w)
  {
  }

  // ---------------------------------------------------------------- the workers' steps

  lemma OthersStay(x: Input, j: Job, j': Job, w: nat)
    requires JobOk(x, j) && Grows(j, j') && j'.system == j.system && |j'.progress| == |j.progress|
    requires forall v :: 0 <= v < |j.progress| && v != w ==> j'.progress[v] == j.progress[v]
    ensures forall v: nat {:trigger WorkOk(x, j', v)} :: v < |j'.progress| && v != w ==> WorkOk(x, j', v)
    ensures TasksOk(x, j'.system.tasks, j'.files, j'.outs)
  {
    hide C.Inv, FilesOk, OutsOk, WorkOk, TasksOk;
    forall v: nat | v < |j'.progress| && v != w ensures WorkOk(x, j', v) {
      assert WorkOk(x, j, v);
      WorkStays(x, j, j', v);
    }
    TasksGrow(x, j.system.tasks, j, j');
  }

  lemma WriteFileKeeps(x: Input, j: Job, w: nat)
    requires JobOk(x, j) && Enabled(x, j, WriteFile(w))
    ensures JobOk(x, Next(x, j, WriteFile(w)))
  {
    hide C.Inv, OutsOk, TasksOk, Bucket;
    var j', m, r := Next(x, j, WriteFile(w)), j.system.workers[w].id, j.progress[w].next;
    OthersStay(x, j, j', w);
    forall name | name in j'.files ensures FileOk(x, j'.files, name) {
      if name != Name(m, r) { assert FileOk(x, j.files, name); }
    }
    assert WorkOk(x, j, w);
    forall q: nat | q < r + 1 ensures Name(m, q) in j'.files {
      if q < r { assert Name(m, q) in j.files; }
    }
  }

  lemma ReadFileKeeps(x: Input, j: Job, w: nat)
    requires JobOk(x, j) && Enabled(x, j, ReadFile(w))
    ensures JobOk(x, Next(x, j, ReadFile(w)))
  {
    hide C.Inv, OutsOk, TasksOk, Bucket, MapFiles;
    var j', r, fs := Next(x, j, ReadFile(w)), j.system.workers[w].id, j.progress[w].files;
    OthersStay(x, j, j', w);
    assert WorkOk(x, j, w) && FileOk(x, j.files, Name(|fs|, r));
    var all := Files(x.outputs, x.hash, x.nReduce, r);
    assert all[|fs|] == j.files[Name(|fs|, r)];
    assert all[..|fs| + 1] == fs + [all[|fs|]];
  }

  lemma WriteOutKeeps(x: Input, j: Job, w: nat, lines: seq<Line>)
    requires JobOk(x, j) && Enabled(x, j, WriteOut(w, lines))
    ensures JobOk(x, Next(x, j, WriteOut(w, lines)))
  {
    hide C.Inv, FilesOk, TasksOk, MapFiles, Reduced, Flatten;
    var j', r := Next(x, j, WriteOut(w, lines)), j.system.workers[w].id;
    OthersStay(x, j, j', w);
    assert WorkOk(x, j, w);
    assert j.progress[w].files == Files(x.outputs, x.hash, x.nReduce, r);
    forall q | q in j'.outs ensures OutOk(x, j'.outs, q) {
      if q != r { assert OutOk(x, j.outs, q); }
    }
  }

  lemma ReportMoves(s: C.System, step: C.Step)
    requires C.Enabled(s, step) && (step.MapReport? || step.ReduceReport?)
    ensures var s' := C.Next(s, step);
            && |s'.workers| == |s.workers|
            && (forall w :: 0 <= w < |s.workers| ==>
                  s'.workers[w] == s.workers[w] || !(s'.workers[w].OnMap? || s'.workers[w].OnReduce?))
            && s'.tasks.maps == (if step.MapReport? then s.tasks.maps[step.id := C.Finished] else s.tasks.maps)
            && s'.tasks.reduces == (if step.ReduceReport? then s.tasks.reduces[step.id := C.Finished] else s.tasks.reduces)
  {
  }

  lemma ReportKeeps(x: Input, j: Job, w: nat)
    requires JobOk(x, j) && Enabled(x, j, Report(w))
    ensures JobOk(x, Next(x, j, Report(w)))
  {
    hide C.Inv, C.Next, C.Enabled, FilesOk, OutsOk;
    var j', step := Next(x, j, Report(w)), ReportOf(j.system.workers[w]);
    C.StepKeeps(j.system, step);
    ReportMoves(j.system, step);
    assert WorkOk(x, j, w);
    forall v: nat | v < |j'.progress| ensures WorkOk(x, j', v) {
      assert WorkOk(x, j, v);
      WorkStays(x, j, j', v);
    }
    forall m: nat | m < |j'.system.tasks.maps| && j'.system.tasks.maps[m] == C.Finished ensures MapFiles(j.files, m, x.nReduce) {
      if !(step.MapReport? && step.id == m) { assert j.system.tasks.maps[m] == C.Finished; }
    }
  }

  lemma StepKeeps(x: Input, j: Job, step: Step)
    requires JobOk(x, j) && Enabled(x, j, step)
    ensures JobOk(x, Next(x, j, step))
  {
    hide JobOk, Enabled, Next;
    match step
    case Coordinate(s) => CoordinateKeeps(x, j, s);
    case WriteFile(w) => WriteFileKeeps(x, j, w);
    case ReadFile(w) => ReadFileKeeps(x, j, w);
    case WriteOut(w, lines) => WriteOutKeeps(x, j, w, lines);
    case Report(w) => ReportKeeps(x, j, w);
  }

  lemma InitOk(x: Input, j: Job)
    requires x.nReduce > 0 && IsInit(x, j)
    ensures JobOk(x, j)
  {
    C.StartsOk(j.system, |x.outputs|, x.nReduce);
  }

  lemma {:induction false} RunOk(x: Input, run: seq<Job>, k: nat)
    requires IsRun(x, run) && k < |run|
    ensures JobOk(x, run[k])
  {
    hide JobOk, Enabled, Next;
    if k == 0 {
      InitOk(x, run[0]);
    } else {
      RunOk(x, run, k - 1);
      assert StepAt(x, run, k - 1);
      var step :| Enabled(x, run[k - 1], step) && run[k - 1 + 1] == Next(x, run[k - 1], step);
      StepKeeps(x, run[k - 1], step);
    }
  }

  // ---------------------------------------------------------------- the promises

  /** A reduce task never misses a file: a worker that has to read the next one finds it. */
  lemma FilesThere(x: Input, run: seq<Job>, k: nat, w: nat)
    requires IsRun(x, run) && k < |run| && w < |run[k].system.workers| && run[k].system.workers[w].OnReduce?
    ensures w < |run[k].progress|
    ensures run[k].progress[w].Reading? && |run[k].progress[w].files| < |x.outputs| ==> Enabled(x, run[k], ReadFile(w))
  {
    hide IsRun, FilesOk, OutsOk;
    RunOk(x, run, k);
    var j := run[k];
    assert WorkOk(x, j, w) && C.WorkerOk(j.system.tasks, j.system.workers[w]);
    if j.progress[w].Reading? && |j.progress[w].files| < |x.outputs| {
      assert MapFiles(j.files, |j.progress[w].files|, x.nReduce);
    }
  }

  /** The output files of the reduce tasks, in order. */
  function Outputs(outs: map<nat, seq<Line>>, nReduce: nat): (r: seq<seq<Line>>)
    requires forall r: nat :: r < nReduce ==> r in outs
    ensures |r| == nReduce && forall i: nat :: i < nReduce ==> r[i] == outs[i]
  {
    seq(nReduce, i requires 0 <= i < nReduce => outs[i])
  }

  /** The job is over for the main program, or for a worker that was told so. */
  predicate Over(j: Job) { j.system.tasks.done || exists w :: 0 <= w < |j.system.workers| && j.system.workers[w].Stopped? }

  lemma OverFinished(x: Input, j: Job)
    requires JobOk(x, j) && Over(j)
    ensures forall r: nat :: r < x.nReduce ==> r in j.outs
  {
    if !j.system.tasks.done {
      var w :| 0 <= w < |j.system.workers| && j.system.workers[w].Stopped?;
      assert C.WorkerOk(j.system.tasks, j.system.workers[w]);
    }
  }

  /** When the job is over, every output file is there and reduces its share of everything mapped. */
  lemma OutputsThere(x: Input, run: seq<Job>, k: nat)
    requires IsRun(x, run) && k < |run| && Over(run[k])
    ensures forall r: nat :: r < x.nReduce ==> r in run[k].outs
    ensures forall r: nat {:trigger run[k].outs[r]} :: r < x.nReduce ==>
              Reduced(Bucket(Flatten(x.outputs), x.hash, x.nReduce, r), x.reducef, run[k].outs[r])
  {
    hide IsRun, Over, Reduced, Flatten, Bucket;
    RunOk(x, run, k);
    OverFinished(x, run[k]);
    forall r: nat | r < x.nReduce
      ensures Reduced(Bucket(Flatten(x.outputs), x.hash, x.nReduce, r), x.reducef, run[k].outs[r])
    {
      assert OutOk(x, run[k].outs, r);
      CollectedBucket(x.outputs, x.hash, x.nReduce, r);
    }
  }

  /**
   * However the workers interleave, crash and repeat each other's tasks: when the job is over, the
   * output files hold the lines of the sequential program, for reducers that ignore the order of values.
   */
  lemma JobIsSequential(x: Input, run: seq<Job>, k: nat, sequential: seq<Line>)
    requires IsRun(x, run) && k < |run| && Over(run[k]) && Unordered(x.reducef)
    requires Reduced(Flatten(x.outputs), x.reducef, sequential)
    ensures forall r: nat :: r < x.nReduce ==> r in run[k].outs
    ensures multiset(Flatten(Outputs(run[k].outs, x.nReduce))) == multiset(sequential)
  {
    hide IsRun, Over, Reduced, Flatten, Bucket, IsReduction, Unordered;
    RunOk(x, run, k);
    OverFinished(x, run[k]);
    var lines := Outputs(run[k].outs, x.nReduce);
    forall r: nat | r < x.nReduce ensures IsReduction(Flatten(Files(x.outputs, x.hash, x.nReduce, r)), x.reducef, lines[r]) {
      assert OutOk(x, run[k].outs, r);
      ReducedIs(Flatten(Files(x.outputs, x.hash, x.nReduce, r)), x.reducef, lines[r]);
    }
    ReducedIs(Flatten(x.outputs), x.reducef, sequential);
    SameAsSequential(x.outputs, x.hash, x.nReduce, x.reducef, lines, sequential);
  }
}
