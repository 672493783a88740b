/** The per-project job scheduler (core/job.go): jobs are accepted, queued, dispatched one
    at a time per project, run, cancelled and finished; every accepted job has a record on
    disk from which a later process life picks up what never started.

    The functions on Core say what one critical section of the manager does to its maps. The
    step system adds what runs outside the lock (runJob goroutines, snapshots on their way to
    disk), crashes and reloads. The class at the end is the manager itself, proved against
    the functions. What every run keeps is in JobRuns, what follows from it in JobGuarantees. */
module JobManager {
  import opened Text

  type Id = string
  type Project = string

  datatype Status = Queued | Running | Completed | Failed | Cancelled | TimedOut | Orphaned

  predicate Terminal(st: Status) { !st.Queued? && !st.Running? }

  /** A job record: what is kept in memory and what a file holds. `started` is StartedAt != nil. */
  datatype Job = Job(project: Project, status: Status, started: bool)

  /** managedJob: the record, and whether a runner is attached. */
  datatype Managed = Managed(job: Job, runner: bool)

  /** The manager's maps. */
  datatype Core = Core(jobs: map<Id, Managed>, runners: set<Project>, running: map<Project, Id>,
                       queues: map<Project, seq<Id>>)

  const EMPTY_CORE := Core(map[], {}, map[], map[])

  // ---------------------------------------------------------------- critical sections

  function Queue(c: Core, p: Project): seq<Id> {
    if p in c.queues then c.queues[p] else []
  }

  predicate Eligible(c: Core, id: Id) {
    id in c.jobs && c.jobs[id].job.status == Queued && c.jobs[id].runner
  }

  /** The queue from its first job that can be dispatched. */
  function Skip(c: Core, q: seq<Id>): seq<Id> {
    if q == [] || Eligible(c, q[0]) then q else Skip(c, q[1..])
  }

  /** prepareNextJobLocked: take the next job of an idle project. */
  function PrepareNext(c: Core, p: Project): (Core, Option<Id>) {
    if p == "" || p in c.running then (c, None) else
      var q := Skip(c, Queue(c, p));
      if q == [] then (c.(queues := c.queues[p := []]), None)
      else (c.(queues := c.queues[p := q[1..]], running := c.running[p := q[0]]), Some(q[0]))
  }

  function Without(q: seq<Id>, id: Id): seq<Id> {
    if q == [] then [] else (if q[0] == id then [] else [q[0]]) + Without(q[1..], id)
  }

  /** removeQueuedJobLocked. */
  function RemoveQueued(c: Core, p: Project, id: Id): Core {
    if Queue(c, p) == [] then c else
      var q := Without(Queue(c, p), id);
      c.(queues := if q == [] then c.queues - {p} else c.queues[p := q])
  }

  function SetJob(c: Core, id: Id, job: Job): Core
    requires id in c.jobs
  {
    c.(jobs := c.jobs[id := c.jobs[id].(job := job)])
  }

  /** RegisterProject: attach the runner to the project's jobs. */
  function Attach(c: Core, p: Project): Core {
    c.(runners := c.runners + {p},
       jobs := map id | id in c.jobs ::
         if c.jobs[id].job.project == p then c.jobs[id].(runner := true) else c.jobs[id])
  }

  /** Start, once its checks have passed and the record is on disk. */
  function Accept(c: Core, p: Project, id: Id): Core {
    c.(jobs := c.jobs[id := Managed(Job(p, Queued, false), true)], queues := c.queues[p := Queue(c, p) + [id]])
  }

  /** Cancel of a job that has not ended. A cancellation that cannot be saved is a failure in memory. */
  function CancelJob(c: Core, id: Id, saved: bool): Core
    requires id in c.jobs
  {
    var job := c.jobs[id].job;
    SetJob(RemoveQueued(c, job.project, id), id, job.(status := if saved then Cancelled else Failed))
  }

  function Release(c: Core, p: Project, id: Id): Core {
    if p in c.running && c.running[p] == id then c.(running := c.running - {p}) else c
  }

  /** The first critical section of runJob. */
  function BeginRun(c: Core, id: Id): Core
    requires id in c.jobs
  {
    var job := c.jobs[id].job;
    if Terminal(job.status) then Release(c, job.project, id)
    else SetJob(c, id, job.(status := Running, started := true))
  }

  /** The first part of finishJob: the final status and the freed slot. */
  function EndJob(c: Core, id: Id, status: Status): Core
    requires id in c.jobs
  {
    var job := c.jobs[id].job;
    Release(SetJob(c, id, job.(status := status)), job.project, id)
  }

  /** finishJob: a job that had its project's slot makes way for the next one. */
  function EndAndDispatch(c: Core, id: Id, outcome: Status, saved: bool): (Core, Option<Id>)
    requires id in c.jobs
  {
    var p := c.jobs[id].job.project;
    var c1 := EndJob(c, id, if saved then outcome else Failed);
    if p in c.running && c.running[p] == id then PrepareNext(c1, p) else (c1, None)
  }

  /** createUniqueJobIDLocked: the first of at most sixteen generated IDs that is free;
      None in the list is a generator or file-system error. */
  function PickID(taken: set<Id>, tries: seq<Option<Id>>, left: nat): (r: Option<Id>)
    ensures r.Some? ==> r.value !in taken
    decreases left
  {
    if left == 0 || tries == [] || tries[0].None? then None
    else if tries[0].value in taken then PickID(taken, tries[1..], left - 1)
    else tries[0]
  }

  /** The k-th attempt gives the ID: it is free, and every attempt before it gave a taken one. */
  predicate PicksAt(taken: set<Id>, tries: seq<Option<Id>>, k: nat) {
    && k < |tries| && tries[k].Some? && tries[k].value !in taken
    && forall j | 0 <= j < k :: tries[j].Some? && tries[j].value in taken
  }

  lemma {:induction false} FirstFreeIsPicked(taken: set<Id>, tries: seq<Option<Id>>, left: nat, k: nat)
    requires PicksAt(taken, tries, k) && k < left
    ensures PickID(taken, tries, left) == tries[k]
    decreases left
  {
    if k > 0 {
      assert tries[0].Some? && tries[0].value in taken;
      FirstFreeIsPicked(taken, tries[1..], left - 1, k - 1);
    }
  }

  lemma {:induction false} PickedIsFirstFree(taken: set<Id>, tries: seq<Option<Id>>, left: nat) returns (k: nat)
    requires PickID(taken, tries, left).Some?
    ensures PicksAt(taken, tries, k) && k < left
    decreases left
  {
    if tries[0].value in taken {
      k := PickedIsFirstFree(taken, tries[1..], left - 1);
      forall j | 0 <= j < k + 1 ensures tries[j].Some? && tries[j].value in taken {
        if j > 0 { assert tries[j] == tries[1..][j - 1]; }
      }
      k := k + 1;
    } else {
      k := 0;
    }
  }

  /** createUniqueJobIDLocked gives the first free one of sixteen generated IDs, and gives up
      exactly when there is none before the first error. */
  lemma PicksOfSixteen(taken: set<Id>, tries: seq<Option<Id>>)
    ensures forall k: nat | PicksAt(taken, tries, k) && k < 16 :: PickID(taken, tries, 16) == tries[k]
    ensures PickID(taken, tries, 16).Some? <==> exists k: nat :: PicksAt(taken, tries, k) && k < 16
  {
    forall k: nat | PicksAt(taken, tries, k) && k < 16 ensures PickID(taken, tries, 16) == tries[k] {
      FirstFreeIsPicked(taken, tries, 16, k);
    }
    if PickID(taken, tries, 16).Some? { var k := PickedIsFirstFree(taken, tries, 16); }
  }

  // ---------------------------------------------------------------- the running program

  /** Where a runJob goroutine is. */
  datatype Phase =
    | Dispatched              // about to enter its first critical section
    | Persisting(copy: Job)   // about to save the running record
    | Saved                   // the running record is on disk, Run is next
    | Refused                 // the save failed, finishJob is next
    | Executing               // inside runner.Run

  datatype Worker = Worker(id: Id, phase: Phase)

  /** One process life. The last four fields are history: acceptance order, the jobs
      dispatched so far per project, and the projects whose slot was freed by a job that
      was cancelled before it began, with no dispatch since. */
  datatype Life = Life(core: Core, workers: map<nat, Worker>, nextWorker: nat,
                       copies: set<(Id, Job)>,
                       order: map<Id, nat>, clock: nat, dispatched: map<Project, seq<Id>>,
                       stalled: set<Project>)

  /** The files, how often each job's runner was invoked since the first life, and the
      current process life, if the process is up. */
  datatype State = State(disk: map<Id, Job>, invoked: map<Id, nat>, life: Option<Life>)

  const INIT := State(map[], map[], None)

  function Log(l: Life, p: Project): seq<Id> {
    if p in l.dispatched then l.dispatched[p] else []
  }

  /** Every dispatch starts a runJob goroutine; looking for one ends a stall. */
  function Launch(l: Life, p: Project): Life {
    var (c, next) := PrepareNext(l.core, p);
    var l1 := l.(core := c, stalled := l.stalled - {p});
    if next.None? then l1 else
      l1.(workers := l.workers[l.nextWorker := Worker(next.value, Dispatched)], nextWorker := l.nextWorker + 1,
          dispatched := l.dispatched[p := Log(l, p) + [next.value]])
  }

  datatype Step =
    | Register(project: Project)
    | Start(project: Project, hasPrompt: bool, tries: seq<Option<Id>>, saved: bool)
    | Cancel(id: Id, saved: bool)
    | Begin(worker: nat)
    | Persist(worker: nat, saved: bool)
    | Invoke(worker: nat)
    | Finish(worker: nat, outcome: Status, saved: bool)
    | Record(id: Id)                       // recordJobEvent copies the record
    | Flush(id: Id, copy: Job)             // and saves the copy outside the lock
    | Crash
    | Boot(files: seq<Id>, failAt: nat)    // load, in directory order, up to a failing save

  /** The life after Start accepted a job, before it looks for a dispatch. */
  function Accepted(l: Life, p: Project, id: Id): Life {
    l.(core := Accept(l.core, p, id), order := l.order[id := l.clock], clock := l.clock + 1)
  }

  function AfterStart(s: State, l: Life, p: Project, id: Id): State {
    s.(disk := s.disk[id := Job(p, Queued, false)], life := Some(Launch(Accepted(l, p, id), p)))
  }

  function AfterCancel(s: State, l: Life, id: Id, saved: bool): State
    requires id in l.core.jobs
  {
    s.(disk := if saved then s.disk[id := l.core.jobs[id].job.(status := Cancelled)] else s.disk,
       life := Some(l.(core := CancelJob(l.core, id, saved))))
  }

  function AfterBegin(s: State, l: Life, w: nat): State
    requires w in l.workers && l.workers[w].id in l.core.jobs
  {
    var id := l.workers[w].id;
    var job := l.core.jobs[id].job;
    var l1 := l.(core := BeginRun(l.core, id));
    s.(life := Some(
      if Terminal(job.status) then l1.(workers := l.workers - {w}, stalled := l.stalled + {job.project})
      else l1.(workers := l.workers[w := Worker(id, Persisting(l1.core.jobs[id].job))])))
  }

  function AfterPersist(s: State, l: Life, w: nat, saved: bool): State
    requires w in l.workers && l.workers[w].phase.Persisting?
  {
    var Worker(id, phase) := l.workers[w];
    s.(disk := if saved then s.disk[id := phase.copy] else s.disk,
       life := Some(l.(workers := l.workers[w := Worker(id, if saved then Saved else Refused)])))
  }

  function Count(invoked: map<Id, nat>, id: Id): nat {
    if id in invoked then invoked[id] else 0
  }

  function AfterInvoke(s: State, l: Life, w: nat): State
    requires w in l.workers
  {
    var id := l.workers[w].id;
    s.(invoked := s.invoked[id := Count(s.invoked, id) + 1],
       life := Some(l.(workers := l.workers[w := Worker(id, Executing)])))
  }

  /** The life after a job ended, before the next one is dispatched. */
  function Ended(l: Life, w: nat, status: Status): Life
    requires w in l.workers && l.workers[w].id in l.core.jobs
  {
    l.(core := EndJob(l.core, l.workers[w].id, status), workers := l.workers - {w})
  }

  function AfterFinish(s: State, l: Life, w: nat, outcome: Status, saved: bool): State
    requires w in l.workers && l.workers[w].id in l.core.jobs
  {
    var id := l.workers[w].id;
    var job := l.core.jobs[id].job;
    var l1 := Ended(l, w, if saved then outcome else Failed);
    var slot := job.project in l.core.running && l.core.running[job.project] == id;
    s.(disk := if saved then s.disk[id := job.(status := outcome)] else s.disk,
       life := Some(if slot then Launch(l1, job.project) else l1))
  }

  /** What load makes of a record: a job that may have run is orphaned. */
  function Reloaded(job: Job): Job {
    if Terminal(job.status) || (job.status == Queued && !job.started) then job else job.(status := Orphaned)
  }

  /** The files after load went through the first n of them. */
  function LoadDisk(disk: map<Id, Job>, files: seq<Id>, n: nat): map<Id, Job>
    requires n <= |files| && forall id | id in files :: id in disk
  {
    map id | id in disk :: if id in files[..n] then Reloaded(disk[id]) else disk[id]
  }

  /** The queued jobs of a project among the files, in directory order. */
  function LoadQueue(disk: map<Id, Job>, files: seq<Id>, p: Project): seq<Id>
    requires forall id | id in files :: id in disk
  {
    if files == [] then [] else
      (if disk[files[0]].project == p && disk[files[0]].status == Queued then [files[0]] else [])
      + LoadQueue(disk, files[1..], p)
  }

  predicate Lists(files: seq<Id>, disk: map<Id, Job>) {
    && (forall id | id in files :: id in disk)
    && (forall id | id in disk :: id in files)
    && (forall i, j | 0 <= i < j < |files| :: files[i] != files[j])
  }

  function Position(files: seq<Id>, id: Id): (i: nat)
    requires id in files
    ensures i < |files| && files[i] == id
  {
    if files[0] == id then 0 else 1 + Position(files[1..], id)
  }

  /** What load does with one record. */
  function AddLoaded(c: Core, id: Id, job: Job): Core {
    c.(jobs := c.jobs[id := Managed(job, false)],
       queues := if job.status == Queued then c.queues[job.project := Queue(c, job.project) + [id]] else c.queues)
  }

  /** The maps after load went through the first n files. */
  function LoadedCore(disk: map<Id, Job>, files: seq<Id>, n: nat): Core
    requires n <= |files| && forall id | id in files :: id in disk
  {
    if n == 0 then EMPTY_CORE else AddLoaded(LoadedCore(disk, files, n - 1), files[n - 1], disk[files[n - 1]])
  }

  /** The process life load starts with. */
  function LoadedLife(disk: map<Id, Job>, files: seq<Id>): Life
    requires Lists(files, disk)
  {
    Life(LoadedCore(disk, files, |files|), map[], 0, {}, map id | id in disk :: Position(files, id), |files|, map[], {})
  }

  function AfterBoot(s: State, files: seq<Id>, failAt: nat): State
    requires Lists(files, s.disk)
  {
    if failAt < |files| && Reloaded(s.disk[files[failAt]]) != s.disk[files[failAt]] then
      s.(disk := LoadDisk(s.disk, files, failAt))
    else
      var disk := LoadDisk(s.disk, files, |files|);
      s.(disk := disk, life := Some(LoadedLife(disk, files)))
  }

  /** A step that cannot happen now, or is refused, leaves the state as it is. */
  function Apply(s: State, step: Step): State {
    if step.Boot? then
      if s.life.None? && Lists(step.files, s.disk) then AfterBoot(s, step.files, step.failAt) else s
    else if s.life.None? then s
    else if step.Crash? then s.(life := None)
    else LifeStep(s, s.life.value, step)
  }

  predicate AtPhase(l: Life, w: nat, dispatched: bool) {
    w in l.workers && l.workers[w].id in l.core.jobs && l.workers[w].phase.Dispatched? == dispatched
  }

  function LifeStep(s: State, l: Life, step: Step): State
    requires s.life == Some(l) && !step.Boot? && !step.Crash?
  {
    match step
    case Register(p) => s.(life := Some(Launch(l.(core := Attach(l.core, p)), p)))
    case Start(p, hasPrompt, tries, saved) =>
      var id := PickID(l.core.jobs.Keys + s.disk.Keys, tries, 16);
      if p != "" && hasPrompt && p in l.core.runners && id.Some? && saved then AfterStart(s, l, p, id.value) else s
    case Cancel(id, saved) =>
      if id in l.core.jobs && !Terminal(l.core.jobs[id].job.status) then AfterCancel(s, l, id, saved) else s
    case Begin(w) => if AtPhase(l, w, true) then AfterBegin(s, l, w) else s
    case Persist(w, saved) =>
      if AtPhase(l, w, false) && l.workers[w].phase.Persisting? then AfterPersist(s, l, w, saved) else s
    case Invoke(w) => if AtPhase(l, w, false) && l.workers[w].phase.Saved? then AfterInvoke(s, l, w) else s
    case Finish(w, outcome, saved) =>
      if AtPhase(l, w, false) && l.workers[w].phase.Executing? && Terminal(outcome) && !outcome.Orphaned?
      then AfterFinish(s, l, w, outcome, saved)
      else if AtPhase(l, w, false) && l.workers[w].phase.Refused? then AfterFinish(s, l, w, Failed, saved)
      else s
    case Record(id) =>
      if id in l.core.jobs && l.core.jobs[id].job.started
      then s.(life := Some(l.(copies := l.copies + {(id, l.core.jobs[id].job)}))) else s
    case Flush(id, copy) => if (id, copy) in l.copies then s.(disk := s.disk[id := copy]) else s
  }

  function Run(s: State, steps: seq<Step>): State {
    if steps == [] then s else Apply(Run(s, steps[..|steps| - 1]), steps[|steps| - 1])
  }

  // ---------------------------------------------------------------- the manager

  /** The goroutines with the one for a dispatched job, if there is one. */
  function WithDispatch(l: Life, workers: map<nat, Worker>, next: Option<Id>): map<nat, Worker> {
    if next.None? then workers else workers[l.nextWorker := Worker(next.value, Dispatched)]
  }

  // The steps are the methods of Manager below, with the go statement for what they dispatch:
  // each lemma says of a step what the contract of its method says.

  lemma RegisterStepIsRegisterProject(s: State, l: Life, p: Project)
    requires s.life == Some(l)
    ensures var s' := Apply(s, Register(p));
      var (core, next) := PrepareNext(Attach(l.core, p), p);
      s'.disk == s.disk && s'.life.Some? && s'.life.value.core == core
      && s'.life.value.workers == WithDispatch(l, l.workers, next)
  {}

  lemma StartStepIsStart(s: State, l: Life, p: Project, hasPrompt: bool, tries: seq<Option<Id>>, saved: bool)
    requires s.life == Some(l)
    ensures var s' := Apply(s, Start(p, hasPrompt, tries, saved));
      var id := if p != "" && hasPrompt && p in l.core.runners && saved
                then PickID(l.core.jobs.Keys + s.disk.Keys, tries, 16) else None;
      if id.None? then s' == s
      else
        var (core, next) := PrepareNext(Accept(l.core, p, id.value), p);
        s'.disk == s.disk[id.value := Job(p, Queued, false)] && s'.life.Some? && s'.life.value.core == core
        && s'.life.value.workers == WithDispatch(l, l.workers, next)
  {}

  lemma CancelStepIsCancel(s: State, l: Life, id: Id, saved: bool)
    requires s.life == Some(l)
    ensures var s' := Apply(s, Cancel(id, saved));
      if id !in l.core.jobs || Terminal(l.core.jobs[id].job.status) then s' == s
      else
        s'.disk == (if saved then s.disk[id := l.core.jobs[id].job.(status := Cancelled)] else s.disk)
        && s'.life == Some(l.(core := CancelJob(l.core, id, saved)))
  {}

  lemma BeginStepIsBeginRunJob(s: State, l: Life, w: nat)
    requires s.life == Some(l) && AtPhase(l, w, true)
    ensures var id := l.workers[w].id;
      var s', core := Apply(s, Begin(w)), BeginRun(l.core, id);
      s'.disk == s.disk && s'.life.Some? && s'.life.value.core == core
      && s'.life.value.workers ==
        if Terminal(l.core.jobs[id].job.status) then l.workers - {w}
        else l.workers[w := Worker(id, Persisting(core.jobs[id].job))]
  {}

  lemma FinishStepIsFinishJob(s: State, l: Life, w: nat, outcome: Status, saved: bool)
    requires s.life == Some(l) && AtPhase(l, w, false) && l.workers[w].phase.Executing?
    requires Terminal(outcome) && !outcome.Orphaned?
    ensures var id := l.workers[w].id;
      var s' := Apply(s, Finish(w, outcome, saved));
      var (core, next) := EndAndDispatch(l.core, id, outcome, saved);
      s'.disk == (if saved then s.disk[id := l.core.jobs[id].job.(status := outcome)] else s.disk)
      && s'.life.Some? && s'.life.value.core == core
      && s'.life.value.workers == WithDispatch(l, l.workers - {w}, next)
  {}

  lemma BootStepIsLoad(s: State, files: seq<Id>, failAt: nat)
    requires s.life.None? && Lists(files, s.disk)
    ensures var s' := Apply(s, Boot(files, failAt));
      var ok := !NeedsSave(s.disk, files, failAt);
      s'.disk == LoadDisk(s.disk, files, if ok then |files| else failAt)
      && s'.life == if ok then Some(LoadedLife(s'.disk, files)) else None
  {}

  lemma {:induction false} WithoutSnoc(q: seq<Id>, x: Id, id: Id)
    ensures Without(q + [x], id) == Without(q, id) + if x == id then [] else [x]
  {
    if q == [] {
      assert q + [x] == [x];
    } else {
      WithoutSnoc(q[1..], x, id);
      assert (q + [x])[1..] == q[1..] + [x];
    }
  }

  /** Where load is after i files. */
  ghost predicate Progress(d0: map<Id, Job>, files: seq<Id>, i: nat, d: map<Id, Job>, c: Core) {
    && i <= |files| && Lists(files, d0) && Lists(files, d)
    && d == LoadDisk(d0, files, i) && c == LoadedCore(d, files, i)
  }

  /** The i-th file is that of a job that may have run and did not end: load must save it as orphaned. */
  predicate NeedsSave(disk: map<Id, Job>, files: seq<Id>, i: nat) {
    i < |files| && files[i] in disk && Reloaded(disk[files[i]]) != disk[files[i]]
  }

  lemma LoadStarts(files: seq<Id>, d0: map<Id, Job>)
    requires Lists(files, d0)
    ensures Progress(d0, files, 0, d0, EMPTY_CORE)
  {
    assert LoadDisk(d0, files, 0) == d0;
  }

  lemma LoadOne(d0: map<Id, Job>, files: seq<Id>, i: nat, d: map<Id, Job>, c: Core)
    requires i < |files| && Progress(d0, files, i, d, c)
    ensures files[i] in d && d[files[i]] == d0[files[i]]
    ensures var job := Reloaded(d0[files[i]]);
      Progress(d0, files, i + 1, d[files[i] := job], AddLoaded(c, files[i], job))
  {
    var id := files[i];
    var d' := d[id := Reloaded(d0[id])];
    assert files[..i] + [id] == files[..i + 1];
    assert id !in files[..i];
    assert LoadDisk(d0, files, i + 1) == d';
    LoadedCoreAgrees(d, d', files, i);
  }

  lemma {:induction false} LoadedCoreAgrees(d: map<Id, Job>, d': map<Id, Job>, files: seq<Id>, n: nat)
    requires n <= |files| && (forall id | id in files :: id in d && id in d')
    requires forall i | 0 <= i < n :: d[files[i]] == d'[files[i]]
    ensures LoadedCore(d, files, n) == LoadedCore(d', files, n)
  {
    if n > 0 { LoadedCoreAgrees(d, d', files, n - 1); }
  }

  /** JobManager's fields under its mutex, and the files of its directory. `saved` tells
      how the write inside a critical section went; a failed write leaves the file as it was. */
  class Manager {
    var jobs: map<Id, Managed>
    var runners: set<Project>
    var running: map<Project, Id>
    var queues: map<Project, seq<Id>>
    var disk: map<Id, Job>

    ghost function View(): Core
      reads this
    {
      Core(jobs, runners, running, queues)
    }

    /** A manager over a directory, before load. */
    constructor (disk: map<Id, Job>)
      ensures View() == EMPTY_CORE && this.disk == disk
    {
      jobs, runners, running, queues := map[], {}, map[], map[];
      this.disk := disk;
    }

    method SaveJob(id: Id, job: Job, saved: bool)
      modifies this`disk
      ensures disk == if saved then old(disk)[id := job] else old(disk)
    {
      if saved { disk := disk[id := job]; }
    }

    method PrepareNextLocked(project: Project) returns (next: Option<Id>)
      modifies this`queues, this`running
      ensures (View(), next) == PrepareNext(old(View()), project)
    {
      if project == "" || project in running { return None; }
      var queue := if project in queues then queues[project] else [];
      while queue != []
        invariant View() == old(View())
        invariant Skip(View(), queue) == Skip(View(), Queue(View(), project))
      {
        var id := queue[0];
        queue := queue[1..];
        if id !in jobs || jobs[id].job.status != Queued || !jobs[id].runner { continue; }
        running := running[project := id];
        queues := queues[project := queue];
        return Some(id);
      }
      queues := queues[project := queue];
      return None;
    }

    method RemoveQueuedLocked(project: Project, id: Id)
      modifies this`queues
      ensures View() == RemoveQueued(old(View()), project, id)
    {
      var queue := if project in queues then queues[project] else [];
      if queue == [] { return; }
      var filtered: seq<Id> := [];
      for i := 0 to |queue|
        invariant View() == old(View()) && filtered == Without(queue[..i], id)
      {
        WithoutSnoc(queue[..i], queue[i], id);
        assert queue[..i] + [queue[i]] == queue[..i + 1];
        if queue[i] != id { filtered := filtered + [queue[i]]; }
      }
      assert queue[..|queue|] == queue && filtered == Without(Queue(old(View()), project), id);
      queues := if filtered == [] then queues - {project} else queues[project := filtered];
    }

    method RegisterProject(project: Project) returns (dispatch: Option<Id>)
      modifies this`jobs, this`runners, this`running, this`queues
      ensures (View(), dispatch) == PrepareNext(Attach(old(View()), project), project)
    {
      runners := runners + {project};
      var todo := jobs.Keys;
      while todo != {}
        invariant todo <= jobs.Keys == old(jobs).Keys
        invariant runners == old(runners) + {project} && running == old(running) && queues == old(queues)
        invariant forall id | id in jobs && id in todo :: jobs[id] == old(jobs)[id]
        invariant forall id | id in jobs && id !in todo :: jobs[id] == Attach(old(View()), project).jobs[id]
        decreases |todo|
      {
        var id :| id in todo;
        if jobs[id].job.project == project { jobs := jobs[id := jobs[id].(runner := true)]; }
        todo := todo - {id};
      }
      assert jobs == Attach(old(View()), project).jobs;
      dispatch := PrepareNextLocked(project);
    }

    method CreateUniqueJobIDLocked(tries: seq<Option<Id>>) returns (id: Option<Id>)
      ensures id == PickID(jobs.Keys + disk.Keys, tries, 16)
    {
      var rest, left := tries, 16;
      while left > 0 && rest != []
        invariant left >= 0
        invariant PickID(jobs.Keys + disk.Keys, tries, 16) == PickID(jobs.Keys + disk.Keys, rest, left)
        decreases left
      {
        if rest[0].None? { return None; }
        if rest[0].value !in jobs && rest[0].value !in disk { return rest[0]; }
        rest, left := rest[1..], left - 1;
      }
      return None;
    }

    /** Start: refused, it changes nothing; accepted, the job is on disk and queued or dispatched. */
    method Start(project: Project, hasPrompt: bool, tries: seq<Option<Id>>, saved: bool)
      returns (id: Option<Id>, dispatch: Option<Id>)
      modifies this
      ensures id == if project != "" && hasPrompt && project in old(runners) && saved
                    then PickID(old(jobs).Keys + old(disk).Keys, tries, 16) else None
      ensures id.None? ==> View() == old(View()) && disk == old(disk) && dispatch.None?
      ensures id.Some? ==>
        && (View(), dispatch) == PrepareNext(Accept(old(View()), project, id.value), project)
        && disk == old(disk)[id.value := Job(project, Queued, false)]
    {
      if project == "" || !hasPrompt || project !in runners { return None, None; }
      id := CreateUniqueJobIDLocked(tries);
      if id.None? { return None, None; }
      var job := Job(project, Queued, false);
      SaveJob(id.value, job, saved);
      if !saved { return None, None; }
      jobs := jobs[id.value := Managed(job, true)];
      queues := queues[project := (if project in queues then queues[project] else []) + [id.value]];
      dispatch := PrepareNextLocked(project);
    }

    method Cancel(id: Id, saved: bool) returns (found: bool)
      modifies this`jobs, this`queues, this`disk
      ensures found == (id in old(jobs))
      ensures !found || Terminal(old(jobs)[id].job.status) ==> View() == old(View()) && disk == old(disk)
      ensures found && !Terminal(old(jobs)[id].job.status) ==>
        && View() == CancelJob(old(View()), id, saved)
        && disk == if saved then old(disk)[id := old(jobs)[id].job.(status := Cancelled)] else old(disk)
    {
      if id !in jobs { return false; }
      var job := jobs[id].job;
      if Terminal(job.status) { return true; }
      job := job.(status := Cancelled);
      RemoveQueuedLocked(job.project, id);
      SaveJob(id, job, saved);
      if !saved { job := job.(status := Failed); }
      jobs := jobs[id := jobs[id].(job := job)];
      found := true;
    }

    /** The first critical section of runJob; the copy is what it saves next. */
    method BeginRunJob(id: Id) returns (copy: Option<Job>)
      requires id in jobs
      modifies this`jobs, this`running
      ensures View() == BeginRun(old(View()), id)
      ensures copy == if Terminal(old(jobs)[id].job.status) then None else Some(jobs[id].job)
    {
      var job := jobs[id].job;
      if Terminal(job.status) {
        if job.project in running && running[job.project] == id { running := running - {job.project}; }
        return None;
      }
      job := job.(status := Running, started := true);
      jobs := jobs[id := jobs[id].(job := job)];
      copy := Some(job);
    }

    method FinishJob(id: Id, outcome: Status, saved: bool) returns (dispatch: Option<Id>)
      requires id in jobs
      modifies this`jobs, this`running, this`queues, this`disk
      ensures (View(), dispatch) == EndAndDispatch(old(View()), id, outcome, saved)
      ensures disk == if saved then old(disk)[id := old(jobs)[id].job.(status := outcome)] else old(disk)
    {
      var job := jobs[id].job.(status := outcome);
      SaveJob(id, job, saved);
      if !saved { job := job.(status := Failed); }
      jobs := jobs[id := jobs[id].(job := job)];
      dispatch := None;
      if job.project in running && running[job.project] == id {
        running := running - {job.project};
        dispatch := PrepareNextLocked(job.project);
      }
    }

    /** One file of load. */
    method LoadFile(id: Id, saved: bool) returns (ok: bool)
      requires id in disk
      modifies this`jobs, this`queues, this`disk
      ensures var job := old(disk)[id];
        && ok == (saved || Reloaded(job) == job)
        && disk == (if ok then old(disk)[id := Reloaded(job)] else old(disk))
        && View() == if ok then AddLoaded(old(View()), id, Reloaded(job)) else old(View())
    {
      var job := Reloaded(disk[id]);
      if job != disk[id] {
        if !saved { return false; }
        SaveJob(id, job, true);
      }
      jobs := jobs[id := Managed(job, false)];
      if job.status == Queued {
        queues := queues[job.project := (if job.project in queues then queues[job.project] else []) + [id]];
      }
      ok := true;
      assert disk == old(disk)[id := job];
    }

    /** One round of the loop of load. */
    method LoadNext(files: seq<Id>, n: nat, failAt: nat, ghost d0: map<Id, Job>) returns (ok: bool)
      requires n < |files| && Progress(d0, files, n, disk, View())
      modifies this`jobs, this`queues, this`disk
      ensures ok == (n != failAt || !NeedsSave(d0, files, n))
      ensures Progress(d0, files, if ok then n + 1 else n, disk, View())
    {
      LoadOne(d0, files, n, disk, View());
      ok := LoadFile(files[n], n != failAt);
    }

    /** The loop of load. */
    method LoadFiles(files: seq<Id>, failAt: nat) returns (n: nat)
      requires Lists(files, disk) && View() == EMPTY_CORE
      modifies this
      ensures Progress(old(disk), files, n, disk, View())
      ensures n < |files| ==> n == failAt && NeedsSave(old(disk), files, n)
      ensures failAt < n ==> !NeedsSave(old(disk), files, failAt)
    {
      n := 0;
      ghost var d0 := disk;
      LoadStarts(files, d0);
      while n < |files|
        invariant Progress(d0, files, n, disk, View())
        invariant failAt < n ==> !NeedsSave(d0, files, failAt)
      {
        var loaded := LoadNext(files, n, failAt, d0);
        if !loaded { return; }
        n := n + 1;
      }
    }

    /** load: reads the files in directory order; the process starts if no save fails. */
    method Load(files: seq<Id>, failAt: nat) returns (ok: bool)
      requires Lists(files, disk) && View() == EMPTY_CORE
      modifies this
      ensures ok == !NeedsSave(old(disk), files, failAt)
      ensures disk == LoadDisk(old(disk), files, if ok then |files| else failAt)
      ensures ok ==> Lists(files, disk) && View() == LoadedLife(disk, files).core
    {
      var n := LoadFiles(files, failAt);
      return n == |files|;
    }
  }
}
