/** What the invariants of JobRuns mean for a job: it runs at most once, alone in its project
    and in its turn; when a project can be idle with jobs waiting; and what becomes of a job
    that is cancelled before it starts. */
module JobGuarantees {
  import opened Text
  import opened JobManager
  import opened JobRuns

  // ---------------------------------------------------------------- what holds in every run

  /** Over all interleavings, crashes and reloads, a job's runner is invoked at most once,
      and once it was invoked the job's file says that it started. */
  lemma InvokedAtMostOnce(s: State, id: Id)
    requires Reachable(s)
    ensures Count(s.invoked, id) <= 1
    ensures Count(s.invoked, id) == 1 ==> id in s.disk && s.disk[id].started
  {
    ReachableInv(s);
    assert id in s.invoked ==> InvokedOk(s, id);
  }

  /** A project never has two runJob goroutines, so it never has two runners executing. */
  lemma OneGoroutinePerProject(s: State, l: Life, w: nat, x: nat)
    requires Reachable(s) && s.life == Some(l) && w in l.workers && x in l.workers
    requires l.workers[w].id in l.core.jobs && l.workers[x].id in l.core.jobs
    requires JobOf(l, w).project == JobOf(l, x).project
    ensures w == x
  {
    ReachableInv(s);
    assert HasSlot(l, w) && HasSlot(l, x);
  }

  lemma {:induction false} IncreasingOnce(order: map<Id, nat>, q: seq<Id>, i: nat)
    requires Increasing(order, q) && i < |q|
    ensures multiset(q)[q[i]] == 1
  {
    var a, b := q[..i], q[i + 1..];
    assert q == a + [q[i]] + b;
    assert q[i] !in a && q[i] !in b;
  }

  lemma QueuedOnce(l: Life, p: Project, id: Id)
    requires QueueOk(l, p) && id in Queue(l.core, p)
    ensures multiset(Queue(l.core, p))[id] == 1
  {
    var log, q := Log(l, p), Queue(l.core, p);
    var i :| 0 <= i < |q| && q[i] == id;
    assert forall k | 0 <= k < |q| :: q[k] == (log + q)[|log| + k];
    IncreasingOnce(l.order, q, i);
  }

  /** A queued job is its project's dispatched job, or it stands exactly once in the
      project's queue, never both. */
  lemma QueuedIsTracked(s: State, l: Life, id: Id)
    requires Reachable(s) && s.life == Some(l) && id in l.core.jobs && l.core.jobs[id].job.status == Queued
    ensures var q := Queue(l.core, l.core.jobs[id].job.project);
      multiset(q)[id] == if InSlot(l, id) then 0 else 1
  {
    ReachableInv(s);
    var p := l.core.jobs[id].job.project;
    assert JobOk(l, id) && QueueOk(l, p);
    if InSlot(l, id) {
      assert SlotUsed(l, p);
      LoggedNotQueued(l, p, id);
    } else {
      QueuedOnce(l, p, id);
    }
  }

  /** A queue holds queued jobs of its project only. */
  lemma QueueHoldsQueued(s: State, l: Life, p: Project, id: Id)
    requires Reachable(s) && s.life == Some(l) && id in Queue(l.core, p)
    ensures id in l.core.jobs && l.core.jobs[id].job == Job(p, Queued, false)
  {
    ReachableInv(s);
    assert QueueOk(l, p);
    assert JobOk(l, id);
  }

  /** Within one process life a project's jobs are dispatched in the order in which they were
      accepted: that order strictly increases along the dispatched jobs and on along the queue. */
  lemma DispatchInOrder(s: State, l: Life, p: Project, i: nat, j: nat)
    requires Reachable(s) && s.life == Some(l)
    requires var all := Log(l, p) + Queue(l.core, p); i < j < |all|
    ensures var all := Log(l, p) + Queue(l.core, p);
      all[i] in l.order && all[j] in l.order && l.order[all[i]] < l.order[all[j]]
  {
    ReachableInv(s);
    assert QueueOk(l, p);
  }

  // ---------------------------------------------------------------- idle projects

  /** This step cancels a job whose goroutine was started but has not begun. */
  predicate HitsUnbegun(s: State, step: Step) {
    step.Cancel? && s.life.Some?
    && exists w | w in s.life.value.workers :: s.life.value.workers[w] == Worker(step.id, Dispatched)
  }

  /** No step of the run does that. */
  ghost predicate Calm(steps: seq<Step>) {
    forall k | 0 <= k < |steps| :: !HitsUnbegun(Run(INIT, steps[..k]), steps[k])
  }

  /** No slot was freed without a dispatch, and none will be. */
  predicate NoStall(l: Life) {
    l.stalled == {} && forall w | w in l.workers && l.workers[w].phase.Dispatched? ::
      l.workers[w].id in l.core.jobs && !Terminal(l.core.jobs[l.workers[w].id].job.status)
  }

  lemma LaunchNoStall(l: Life, p: Project)
    requires NoStall(l) && HeadOk(l, p)
    ensures NoStall(Launch(l, p))
  {
    SkipNothing(l.core, Queue(l.core, p));
  }

  lemma StepNoStall(s: State, step: Step)
    requires Inv(s) && (s.life.Some? ==> NoStall(s.life.value)) && !HitsUnbegun(s, step)
    ensures var s' := Apply(s, step); s'.life.Some? ==> NoStall(s'.life.value)
  {
    if s.life.Some? && !step.Boot? && !step.Crash? { LifeNoStall(s, s.life.value, step); }
  }

  lemma LifeNoStall(s: State, l: Life, step: Step)
    requires Inv(s) && s.life == Some(l) && NoStall(l) && !HitsUnbegun(s, step) && !step.Boot? && !step.Crash?
    ensures NoStall(LifeStep(s, l, step).life.value)
  {
    match step
    case Register(p) => RegisterNoStall(s, l, p);
    case Start(_, _, _, _) => StartNoStall(s, l, step);
    case Finish(_, _, _) => EndNoStall(s, l, step);
    case Begin(w) => BeginNoStall(s, l, w);
    case Cancel(id, saved) => CancelNoStall(s, l, id, saved);
    case _ => QuietNoStall(s, l, step);
  }

  lemma QuietNoStall(s: State, l: Life, step: Step)
    requires s.life == Some(l) && NoStall(l) && (step.Persist? || step.Invoke? || step.Record? || step.Flush?)
    ensures NoStall(LifeStep(s, l, step).life.value)
  {
    assert LifeStep(s, l, step).life.value.core == l.core;
  }

  lemma RegisterNoStall(s: State, l: Life, p: Project)
    requires Inv(s) && s.life == Some(l) && NoStall(l)
    ensures NoStall(LifeStep(s, l, Register(p)).life.value)
  {
    RegisterLife(l, p);
    LaunchNoStall(l.(core := Attach(l.core, p)), p);
  }

  lemma AcceptedNoStall(l: Life, p: Project, id: Id)
    requires LifeInv(l) && NoStall(l) && p != "" && p in l.core.runners && id !in l.core.jobs
    ensures NoStall(Launch(Accepted(l, p, id), p))
  {
    StartLife(l, p, id);
    assert NoStall(Accepted(l, p, id));
    LaunchNoStall(Accepted(l, p, id), p);
  }

  lemma StartNoStall(s: State, l: Life, step: Step)
    requires Inv(s) && s.life == Some(l) && NoStall(l) && step.Start?
    ensures NoStall(LifeStep(s, l, step).life.value)
  {
    var id := PickID(l.core.jobs.Keys + s.disk.Keys, step.tries, 16);
    if step.project != "" && step.hasPrompt && step.project in l.core.runners && id.Some? && step.saved {
      AcceptedNoStall(l, step.project, id.value);
    }
  }

  lemma EndNoStall(s: State, l: Life, step: Step)
    requires Inv(s) && s.life == Some(l) && NoStall(l) && step.Finish?
    ensures NoStall(LifeStep(s, l, step).life.value)
  {
    var w := step.worker;
    if AtPhase(l, w, false) {
      assert HasSlot(l, w);
      var st := if l.workers[w].phase.Refused? then Failed else step.outcome;
      if Terminal(st) { FinishNoStall(l, w, if step.saved then st else Failed); }
    }
  }

  lemma BeginNoStall(s: State, l: Life, w: nat)
    requires SlotsOk(l) && s.life == Some(l) && NoStall(l)
    ensures NoStall(LifeStep(s, l, Begin(w)).life.value)
  {
    var l' := LifeStep(s, l, Begin(w)).life.value;
    forall x | x in l'.workers && l'.workers[x].phase.Dispatched?
      ensures l'.workers[x].id in l'.core.jobs && !Terminal(l'.core.jobs[l'.workers[x].id].job.status)
    {
      assert x in l.workers && l.workers[x] == l'.workers[x];
    }
  }

  lemma CancelNoStall(s: State, l: Life, id: Id, saved: bool)
    requires s.life == Some(l) && NoStall(l) && !HitsUnbegun(s, Cancel(id, saved))
    ensures NoStall(LifeStep(s, l, Cancel(id, saved)).life.value)
  {
    var l' := LifeStep(s, l, Cancel(id, saved)).life.value;
    assert l'.workers == l.workers && l'.stalled == l.stalled;
    forall x | x in l'.workers && l'.workers[x].phase.Dispatched?
      ensures l'.workers[x].id in l'.core.jobs && !Terminal(l'.core.jobs[l'.workers[x].id].job.status)
    {
      assert l.workers[x] == Worker(l.workers[x].id, Dispatched);
    }
  }

  lemma FinishNoStall(l: Life, w: nat, st: Status)
    requires LifeInv(l) && NoStall(l) && w in l.workers && HasSlot(l, w) && Terminal(st)
    requires !l.workers[w].phase.Dispatched?
    ensures NoStall(Ended(l, w, st)) && NoStall(Launch(Ended(l, w, st), JobOf(l, w).project))
  {
    FreeSlot(l, w, st);
    QueuesHead(Ended(l, w, st), JobOf(l, w).project);
    LaunchNoStall(Ended(l, w, st), JobOf(l, w).project);
  }

  lemma {:induction false} CalmNoStall(steps: seq<Step>)
    requires Calm(steps)
    ensures var s := Run(INIT, steps); Inv(s) && (s.life.Some? ==> NoStall(s.life.value))
  {
    if steps != [] {
      var n := |steps| - 1;
      forall k | 0 <= k < n
        ensures !HitsUnbegun(Run(INIT, steps[..n][..k]), steps[..n][k])
      {
        assert steps[..n][..k] == steps[..k];
      }
      CalmNoStall(steps[..n]);
      StepInv(Run(INIT, steps[..n]), steps[n]);
      StepNoStall(Run(INIT, steps[..n]), steps[n]);
    }
  }

  /** If no cancellation hits a dispatched job before it begins, a registered project
      without a running job has an empty queue. */
  lemma {:induction false} IdleMeansEmpty(steps: seq<Step>, p: Project)
    requires Calm(steps)
    ensures var s := Run(INIT, steps);
      s.life.Some? && p in s.life.value.core.runners && p !in s.life.value.core.running
      ==> Queue(s.life.value.core, p) == []
  {
    CalmNoStall(steps);
    var s := Run(INIT, steps);
    if s.life.Some? {
      assert NoIdleQueue(s.life.value, p);
    }
  }

  /** A dispatched job that has ended by the time its goroutine begins gives its slot back
      without a dispatch: the queue stays as it is. */
  lemma EndedBeforeBeginLeavesQueue(s: State, l: Life, w: nat)
    requires Reachable(s) && s.life == Some(l) && AtPhase(l, w, true) && Terminal(JobOf(l, w).status)
    ensures var p := JobOf(l, w).project; var l' := Apply(s, Begin(w)).life.value;
      p in l'.core.runners && p !in l'.core.running && Queue(l'.core, p) == Queue(l.core, p)
  {
    ReachableInv(s);
    assert HasSlot(l, w) && SlotUsed(l, JobOf(l, w).project);
  }

  /** No registered project without a running job has a queued one. */
  ghost predicate NothingIdle(c: Core) {
    forall p: Project :: p in c.runners && p !in c.running ==> Queue(c, p) == []
  }

  /** This step lets a goroutine begin whose job has ended, while others of its project wait. */
  predicate Strands(l: Life, step: Step) {
    step.Begin? && AtPhase(l, step.worker, true) && Terminal(JobOf(l, step.worker).status)
    && Queue(l.core, JobOf(l, step.worker).project) != []
  }

  /** The same life without its record of stalls. */
  function Unstalled(l: Life): Life { l.(stalled := {}) }

  lemma UnstalledInv(s: State, l: Life)
    requires Inv(s) && s.life == Some(l) && NothingIdle(l.core)
    ensures Inv(s.(life := Some(Unstalled(l))))
  {
    var s0, l0 := s.(life := Some(Unstalled(l))), Unstalled(l);
    ShapeKeepsSlots(l, l0);
    ShapeKeepsQueues(l, l0);
    BeginEndedRecords(s, l, l0, l.nextWorker);
    SameDisk(s, s0, l0);
    SameFiles(s, s0);
  }

  /** The record of stalls does not influence what happens. */
  lemma UnstalledStep(s: State, l: Life, step: Step)
    requires s.life == Some(l) && !step.Boot? && !step.Crash?
    ensures var s0, l0 := s.(life := Some(Unstalled(l))), Unstalled(l);
      LifeStep(s0, l0, step).life.Some? && LifeStep(s, l, step).life.Some?
      && LifeStep(s0, l0, step).life.value.core == LifeStep(s, l, step).life.value.core
  {
    if step.Start? {
      UnstalledStart(s, l, step);
    } else if step.Finish? {
      UnstalledFinish(s, l, step);
    }
  }

  lemma UnstalledStart(s: State, l: Life, step: Step)
    requires s.life == Some(l) && step.Start?
    ensures var s0, l0 := s.(life := Some(Unstalled(l))), Unstalled(l);
      LifeStep(s0, l0, step).life.Some? && LifeStep(s, l, step).life.Some?
      && LifeStep(s0, l0, step).life.value.core == LifeStep(s, l, step).life.value.core
  {
    var s0, l0 := s.(life := Some(Unstalled(l))), Unstalled(l);
    assert l0.core == l.core && s0.disk == s.disk;
  }

  lemma UnstalledFinish(s: State, l: Life, step: Step)
    requires s.life == Some(l) && step.Finish?
    ensures var s0, l0 := s.(life := Some(Unstalled(l))), Unstalled(l);
      LifeStep(s0, l0, step).life.Some? && LifeStep(s, l, step).life.Some?
      && LifeStep(s0, l0, step).life.value.core == LifeStep(s, l, step).life.value.core
  {
    var w, l0 := step.worker, Unstalled(l);
    if AtPhase(l, w, false) {
      UnstalledEnd(s, l, w, step.outcome, step.saved);
      UnstalledEnd(s, l, w, Failed, step.saved);
    }
  }

  lemma UnstalledEnd(s: State, l: Life, w: nat, outcome: Status, saved: bool)
    requires AtPhase(l, w, false)
    ensures AfterFinish(s.(life := Some(Unstalled(l))), Unstalled(l), w, outcome, saved).life.value.core
      == AfterFinish(s, l, w, outcome, saved).life.value.core
  {}

  lemma NoNewStall(s: State, l: Life, step: Step)
    requires s.life == Some(l) && l.stalled == {} && !step.Boot? && !step.Crash?
    requires !(step.Begin? && AtPhase(l, step.worker, true) && Terminal(JobOf(l, step.worker).status))
    ensures LifeStep(s, l, step).life.value.stalled == {}
  {}

  /** Where no project was idle with a queue, a step makes one idle with a queue exactly when
      it lets a goroutine begin whose job has ended while others of its project wait. */
  lemma StallsExactly(s: State, l: Life, step: Step)
    requires Reachable(s) && s.life == Some(l) && NothingIdle(l.core) && !step.Boot? && !step.Crash?
    ensures NothingIdle(LifeStep(s, l, step).life.value.core) <==> !Strands(l, step)
  {
    ReachableInv(s);
    var s0, l0 := s.(life := Some(Unstalled(l))), Unstalled(l);
    var c := LifeStep(s, l, step).life.value.core;
    UnstalledStep(s, l, step);
    UnstalledInv(s, l);
    if step.Begin? && AtPhase(l, step.worker, true) && Terminal(JobOf(l, step.worker).status) {
      EndedBeforeBegin(s, l, step.worker);
    } else {
      NoNewStall(s0, l0, step);
      LifeStepInv(s0, l0, step);
      UnstalledIdle(LifeStep(s0, l0, step).life.value);
    }
  }

  lemma UnstalledIdle(l: Life)
    requires StallsOk(l) && l.stalled == {}
    ensures NothingIdle(l.core)
  {
    forall p: Project | p in l.core.runners && p !in l.core.running ensures Queue(l.core, p) == [] { assert NoIdleQueue(l, p); }
  }

  lemma EndedBeforeBegin(s: State, l: Life, w: nat)
    requires Inv(s) && s.life == Some(l) && AtPhase(l, w, true) && Terminal(JobOf(l, w).status) && NothingIdle(l.core)
    ensures NothingIdle(LifeStep(s, l, Begin(w)).life.value.core) <==> Queue(l.core, JobOf(l, w).project) == []
  {
    var p, c := JobOf(l, w).project, LifeStep(s, l, Begin(w)).life.value.core;
    assert HasSlot(l, w) && SlotUsed(l, p);
    assert forall q: Project :: Queue(c, q) == Queue(l.core, q);
    assert p in c.runners && p !in c.running;
  }

  /** Two jobs, and the first is cancelled between its dispatch and its start. */
  const STALL_STEPS: seq<Step> :=
    [Boot([], 0), Register("p"), Start("p", true, [Some("a")], true), Start("p", true, [Some("b")], true),
     Cancel("a", true), Begin(0)]

  /** The state after the first n of them. */
  function StallPoint(n: nat): State
    requires n <= |STALL_STEPS|
  {
    Run(INIT, STALL_STEPS[..n])
  }

  lemma StallPointNext(n: nat)
    requires n < |STALL_STEPS|
    ensures StallPoint(n + 1) == Apply(StallPoint(n), STALL_STEPS[n])
  {
    var steps := STALL_STEPS[..n + 1];
    assert |steps| == n + 1 && steps[n] == STALL_STEPS[n];
    assert steps[..n] == STALL_STEPS[..n];
  }

  /** What STALL_STEPS need to know of a state. */
  predicate StallState(s: State, disk: map<Id, Job>, core: Core, workers: map<nat, Worker>, next: nat) {
    s.disk == disk && s.life.Some? && s.life.value.core == core
    && s.life.value.workers == workers && s.life.value.nextWorker == next
  }

  const STALL_JOB := Job("p", Queued, false)

  lemma StallBoot()
    ensures StallState(Apply(INIT, Boot([], 0)), map[], EMPTY_CORE, map[], 0)
  {}

  lemma StallRegister(s: State)
    requires StallState(s, map[], EMPTY_CORE, map[], 0)
    ensures StallState(Apply(s, Register("p")), map[], Core(map[], {"p"}, map[], map["p" := []]), map[], 0)
  {
    assert Attach(EMPTY_CORE, "p").jobs == map[];
  }

  lemma StallFirst(s: State)
    requires StallState(s, map[], Core(map[], {"p"}, map[], map["p" := []]), map[], 0)
    ensures StallState(Apply(s, Start("p", true, [Some("a")], true)), map["a" := STALL_JOB],
      Core(map["a" := Managed(STALL_JOB, true)], {"p"}, map["p" := "a"], map["p" := []]), map[0 := Worker("a", Dispatched)], 1)
  {
    var l := s.life.value;
    assert l.core.jobs.Keys + s.disk.Keys == {} && PickID({}, [Some("a")], 16) == Some("a");
    var c := Accept(l.core, "p", "a");
    assert [] + ["a"] == ["a"] && Queue(c, "p") == ["a"];
    SkipNothing(c, ["a"]);
    assert ["a"][1..] == [];
  }

  lemma StallSecond(s: State)
    requires StallState(s, map["a" := STALL_JOB],
      Core(map["a" := Managed(STALL_JOB, true)], {"p"}, map["p" := "a"], map["p" := []]), map[0 := Worker("a", Dispatched)], 1)
    ensures StallState(Apply(s, Start("p", true, [Some("b")], true)), map["a" := STALL_JOB, "b" := STALL_JOB],
      Core(map["a" := Managed(STALL_JOB, true), "b" := Managed(STALL_JOB, true)], {"p"}, map["p" := "a"], map["p" := ["b"]]),
      map[0 := Worker("a", Dispatched)], 1)
  {
    assert s.life.value.core.jobs.Keys + s.disk.Keys == {"a"};
    assert PickID({"a"}, [Some("b")], 16) == Some("b");
    assert [] + ["b"] == ["b"];
  }

  lemma StallCancel(s: State)
    requires StallState(s, map["a" := STALL_JOB, "b" := STALL_JOB],
      Core(map["a" := Managed(STALL_JOB, true), "b" := Managed(STALL_JOB, true)], {"p"}, map["p" := "a"], map["p" := ["b"]]),
      map[0 := Worker("a", Dispatched)], 1)
    ensures var s' := Apply(s, Cancel("a", true));
      s'.life.Some? && s'.life.value.workers == map[0 := Worker("a", Dispatched)]
      && "a" in s'.life.value.core.jobs && s'.life.value.core.jobs["a"].job == Job("p", Cancelled, false)
      && s'.life.value.core.runners == {"p"} && s'.life.value.core.running == map["p" := "a"]
      && Queue(s'.life.value.core, "p") == ["b"]
  {
    assert ["b"][1..] == [] && Without(["b"], "a") == ["b"];
  }

  lemma StallBegin(s: State)
    requires s.life.Some? && s.life.value.workers == map[0 := Worker("a", Dispatched)]
    requires var c := s.life.value.core;
      && "a" in c.jobs && c.jobs["a"].job == Job("p", Cancelled, false)
      && c.runners == {"p"} && c.running == map["p" := "a"] && Queue(c, "p") == ["b"]
    ensures var s' := Apply(s, Begin(0));
      s'.life.Some? && "p" in s'.life.value.core.runners && "p" !in s'.life.value.core.running
      && Queue(s'.life.value.core, "p") == ["b"]
  {}

  /** After four steps the first job is dispatched and the second one waits. */
  lemma StallHalfway()
    ensures StallState(StallPoint(4), map["a" := STALL_JOB, "b" := STALL_JOB],
      Core(map["a" := Managed(STALL_JOB, true), "b" := Managed(STALL_JOB, true)], {"p"}, map["p" := "a"], map["p" := ["b"]]),
      map[0 := Worker("a", Dispatched)], 1)
  {
    StallPointNext(0);
    StallBoot();
    StallPointNext(1);
    StallRegister(StallPoint(1));
    StallPointNext(2);
    StallFirst(StallPoint(2));
    StallPointNext(3);
    StallSecond(StallPoint(3));
  }

  /** So "an idle registered project has an empty queue" is not true of every run. */
  lemma StallHappens()
    ensures var l := Run(INIT, STALL_STEPS).life;
      l.Some? && "p" in l.value.core.runners && "p" !in l.value.core.running && Queue(l.value.core, "p") == ["b"]
  {
    StallHalfway();
    StallPointNext(4);
    StallCancel(StallPoint(4));
    StallPointNext(5);
    StallBegin(StallPoint(5));
    assert STALL_STEPS[..6] == STALL_STEPS;
  }

  // ---------------------------------------------------------------- cancelled before the start

  /** The job has ended without starting, on disk and in memory. */
  predicate Dead(s: State, id: Id) {
    && id in s.disk && Terminal(s.disk[id].status) && !s.disk[id].started
    && (s.life.Some? ==> var c := s.life.value.core;
          id in c.jobs && Terminal(c.jobs[id].job.status) && !c.jobs[id].job.started)
  }

  lemma StepKeepsDead(s: State, step: Step, id: Id)
    requires Inv(s) && Dead(s, id)
    ensures Dead(Apply(s, step), id)
  {
    if step.Boot? {
      if s.life.None? && Lists(step.files, s.disk) { BootKeepsDead(s, step.files, step.failAt, id); }
    } else if s.life.Some? && !step.Crash? {
      LifeKeepsDead(s, s.life.value, step, id);
    }
  }

  lemma BootKeepsDead(s: State, files: seq<Id>, failAt: nat, id: Id)
    requires Dead(s, id) && s.life.None? && Lists(files, s.disk)
    ensures Dead(AfterBoot(s, files, failAt), id)
  {
    var s' := AfterBoot(s, files, failAt);
    if s'.life.Some? {
      assert Lists(files, s'.disk);
      LoadedHolds(s'.disk, files);
    }
  }

  lemma LifeKeepsDead(s: State, l: Life, step: Step, id: Id)
    requires RecordsOk(s, l) && Dead(s, id) && s.life == Some(l) && !step.Boot? && !step.Crash?
    ensures Dead(LifeStep(s, l, step), id)
  {
    match step
    case Register(p) => LaunchJobs(l.(core := Attach(l.core, p)), p);
    case Start(_, _, _, _) => StartKeepsDead(s, l, step, id);
    case Cancel(j, saved) => CancelKeepsDead(s, l, step, id);
    case Record(_) =>
    case Flush(j, copy) => if (j, copy) in l.copies { assert CopyOk(l, (j, copy)); }
    case Begin(w) => if w in l.workers { BeginKeepsDead(s, l, w, id); }
    case Persist(w, _) => if w in l.workers { assert WorkerOk(s, l, w); }
    case Invoke(_) =>
    case Finish(w, _, _) => if w in l.workers { EndKeepsDead(s, l, step, id); }
  }

  lemma StartKeepsDead(s: State, l: Life, step: Step, id: Id)
    requires Dead(s, id) && s.life == Some(l) && step.Start?
    ensures Dead(LifeStep(s, l, step), id)
  {
    var picked := PickID(l.core.jobs.Keys + s.disk.Keys, step.tries, 16);
    if picked.Some? { LaunchJobs(Accepted(l, step.project, picked.value), step.project); }
  }

  lemma CancelKeepsDead(s: State, l: Life, step: Step, id: Id)
    requires Dead(s, id) && s.life == Some(l) && step.Cancel?
    ensures Dead(LifeStep(s, l, step), id)
  {
    if step.id in l.core.jobs && !Terminal(l.core.jobs[step.id].job.status) {
      assert RemoveQueued(l.core, l.core.jobs[step.id].job.project, step.id).jobs == l.core.jobs;
    }
  }

  lemma BeginKeepsDead(s: State, l: Life, w: nat, id: Id)
    requires Dead(s, id) && s.life == Some(l) && w in l.workers
    ensures Dead(LifeStep(s, l, Begin(w)), id)
  {}

  lemma EndKeepsDead(s: State, l: Life, step: Step, id: Id)
    requires RecordsOk(s, l) && Dead(s, id) && s.life == Some(l) && step.Finish? && step.worker in l.workers
    ensures Dead(LifeStep(s, l, step), id)
  {
    var w := step.worker;
    assert WorkerOk(s, l, w);
    if !l.workers[w].phase.Dispatched? {
      var st := if l.workers[w].phase.Refused? then Failed else step.outcome;
      LaunchJobs(Ended(l, w, if step.saved then st else Failed), JobOf(l, w).project);
      EndedOthers(l, w, if step.saved then st else Failed, id);
    }
  }

  lemma EndedOthers(l: Life, w: nat, st: Status, id: Id)
    requires w in l.workers && l.workers[w].id in l.core.jobs && id in l.core.jobs && l.workers[w].id != id
    ensures id in Ended(l, w, st).core.jobs && Ended(l, w, st).core.jobs[id] == l.core.jobs[id]
  {}

  lemma {:induction false} RunKeepsDead(s: State, steps: seq<Step>, id: Id)
    requires Inv(s) && Dead(s, id)
    ensures Inv(Run(s, steps)) && Dead(Run(s, steps), id)
  {
    if steps != [] {
      var n := |steps| - 1;
      RunKeepsDead(s, steps[..n], id);
      StepKeepsDead(Run(s, steps[..n]), steps[n], id);
      StepInv(Run(s, steps[..n]), steps[n]);
    }
  }

  lemma SavedCancelIsDead(s: State, l: Life, id: Id)
    requires Inv(s) && s.life == Some(l) && id in l.core.jobs && l.core.jobs[id].job.status == Queued
    ensures Dead(AfterCancel(s, l, id, true), id)
  {
    assert JobOk(l, id) && RecordOk(s, l, id);
  }

  /** A queued job whose cancellation was saved never runs, whatever happens later:
      further steps, crashes, reloads. */
  lemma SavedCancelNeverRuns(s: State, l: Life, id: Id, more: seq<Step>)
    requires Reachable(s) && s.life == Some(l) && id in l.core.jobs && l.core.jobs[id].job.status == Queued
    ensures Count(Run(Apply(s, Cancel(id, true)), more).invoked, id) == 0
  {
    ReachableInv(s);
    SavedCancelIsDead(s, l, id);
    StepInv(s, Cancel(id, true));
    RunKeepsDead(AfterCancel(s, l, id, true), more, id);
    DeadNeverRan(Run(AfterCancel(s, l, id, true), more), id);
  }

  lemma DeadNeverRan(s: State, id: Id)
    requires FilesOk(s) && Dead(s, id)
    ensures Count(s.invoked, id) == 0
  {
    assert id in s.invoked ==> InvokedOk(s, id);
  }

  /** A reload queues an unstarted job exactly when its file says it is queued. */
  lemma BootQueuesUnstarted(s: State, files: seq<Id>, id: Id)
    requires s.life.None? && Lists(files, s.disk) && id in s.disk && !s.disk[id].started
    requires Terminal(s.disk[id].status) || s.disk[id].status == Queued
    ensures var s' := Apply(s, Boot(files, |files|));
      s'.life.Some? && (id in Queue(s'.life.value.core, s.disk[id].project) <==> s.disk[id].status == Queued)
  {
    assert files[..|files|] == files;
    var disk := LoadDisk(s.disk, files, |files|);
    LoadQueueHas(disk, files, s.disk[id].project);
    LoadedQueue(disk, files, s.disk[id].project);
  }

  /** A restart right after the cancellation of a queued job puts the job back in its
      queue exactly when the cancellation could not be saved. */
  lemma RestartRequeuesExactlyUnsaved(s: State, l: Life, id: Id, saved: bool, files: seq<Id>)
    requires Reachable(s) && s.life == Some(l) && id in l.core.jobs && l.core.jobs[id].job.status == Queued
    requires Lists(files, Apply(s, Cancel(id, saved)).disk)
    ensures var s' := Apply(Apply(Apply(s, Cancel(id, saved)), Crash), Boot(files, |files|));
      s'.life.Some? && (id in Queue(s'.life.value.core, l.core.jobs[id].job.project) <==> !saved)
  {
    CancelledFile(s, l, id, saved);
    BootQueuesUnstarted(Apply(Apply(s, Cancel(id, saved)), Crash), files, id);
  }

  lemma CancelledFile(s: State, l: Life, id: Id, saved: bool)
    requires Reachable(s) && s.life == Some(l) && id in l.core.jobs && l.core.jobs[id].job.status == Queued
    ensures var s' := Apply(Apply(s, Cancel(id, saved)), Crash);
      s'.life.None? && id in s'.disk
      && s'.disk[id] == Job(l.core.jobs[id].job.project, if saved then Cancelled else Queued, false)
  {
    ReachableInv(s);
    assert JobOk(l, id) && RecordOk(s, l, id);
  }

  // ---------------------------------------------------------------- what becomes of the records

  /** A process that crashed left this job between its start and its end. */
  predicate Interrupted(job: Job) {
    job.status == Running || (job.status == Queued && job.started)
  }

  lemma LoadedFile(disk: map<Id, Job>, files: seq<Id>, n: nat, id: Id)
    requires Lists(files, disk) && n <= |files| && id in disk
    ensures var d := LoadDisk(disk, files, n);
      && Lists(files, d) && d.Keys == disk.Keys
      && d[id] == if Interrupted(disk[id]) && Position(files, id) < n
                  then Job(disk[id].project, Orphaned, disk[id].started) else disk[id]
  {
    var at := Position(files, id);
    if at < n {
      assert files[..n][at] == id;
    } else {
      forall k | 0 <= k < n ensures files[..n][k] != id { assert files[k] != files[at]; }
    }
  }

  lemma LoadedMemory(disk: map<Id, Job>, files: seq<Id>, id: Id)
    requires Lists(files, disk) && id in disk
    ensures var c := LoadedLife(disk, files).core; c.jobs.Keys == disk.Keys && c.jobs[id] == Managed(disk[id], false)
  {
    LoadedHolds(disk, files);
    var c := LoadedLife(disk, files).core;
    assert forall k :: k in c.jobs <==> k in disk;
  }

  /** A reload marks every interrupted job as orphaned, on disk, and leaves every other file as
      it is. It stops at the first save that fails, and then starts no process; otherwise the
      memory of the process holds exactly what the disk says. */
  lemma BootOrphansInterrupted(s: State, files: seq<Id>, failAt: nat, id: Id)
    requires s.life.None? && Lists(files, s.disk) && id in s.disk
    ensures var s' := Apply(s, Boot(files, failAt));
      var up := !(failAt < |files| && Interrupted(s.disk[files[failAt]]));
      && s'.life.Some? == up && s'.disk.Keys == s.disk.Keys
      && s'.disk[id] == (if Interrupted(s.disk[id]) && (up || Position(files, id) < failAt)
                         then Job(s.disk[id].project, Orphaned, s.disk[id].started) else s.disk[id])
      && (up ==> s'.life.value.core.jobs.Keys == s'.disk.Keys
                 && s'.life.value.core.jobs[id] == Managed(s'.disk[id], false))
  {
    var up := !(failAt < |files| && Interrupted(s.disk[files[failAt]]));
    BootStepIsLoad(s, files, failAt);
    LoadedFile(s.disk, files, if up then |files| else failAt, id);
    if up { LoadedMemory(LoadDisk(s.disk, files, |files|), files, id); }
  }

  /** Cancelling an unfinished job marks it as cancelled on disk and in memory, or, when that
      cannot be saved, as failed in memory only; nothing else changes in any record. */
  lemma CancelOutcome(s: State, l: Life, id: Id, saved: bool)
    requires s.life == Some(l) && id in l.core.jobs
    requires l.core.jobs[id].job.status == Queued || l.core.jobs[id].job.status == Running
    ensures var s' := Apply(s, Cancel(id, saved)); var was := l.core.jobs[id];
      && s'.life.Some?
      && s'.life.value.core.jobs == l.core.jobs[id := Managed(Job(was.job.project, if saved then Cancelled else Failed, was.job.started), was.runner)]
      && s'.disk == if saved then s.disk[id := Job(was.job.project, Cancelled, was.job.started)] else s.disk
  {}

  /** A job that begins is running and started in memory; its goroutine then writes just that
      record, and goes on to its run only if that could be saved. */
  lemma BeginOutcome(s: State, l: Life, w: nat)
    requires Inv(s) && s.life == Some(l) && AtPhase(l, w, true) && JobOf(l, w).status == Queued
    ensures var id := l.workers[w].id;
      var record := Job(JobOf(l, w).project, Running, true);
      var s' := Apply(s, Begin(w));
      && s'.life.Some? && s'.disk == s.disk
      && s'.life.value.core.jobs == l.core.jobs[id := Managed(record, l.core.jobs[id].runner)]
      && s'.life.value.workers == l.workers[w := Worker(id, Persisting(record))]
  {}

  lemma PersistOutcome(s: State, l: Life, w: nat, saved: bool)
    requires s.life == Some(l) && AtPhase(l, w, false) && l.workers[w].phase.Persisting?
    ensures var Worker(id, phase) := l.workers[w];
      var s' := Apply(s, Persist(w, saved));
      && s'.life == Some(l.(workers := l.workers[w := Worker(id, if saved then Saved else Refused)]))
      && s'.disk == if saved then s.disk[id := phase.copy] else s.disk
  {}

  /** A job whose run ends has its outcome in memory and on disk, which agree; if that cannot
      be saved it has failed in memory and its file is as before. A job whose start could not be
      saved has failed. */
  lemma FinishOutcome(s: State, l: Life, w: nat, outcome: Status, saved: bool)
    requires s.life == Some(l) && AtPhase(l, w, false)
    requires (l.workers[w].phase.Executing? && Terminal(outcome) && outcome != Orphaned) || (l.workers[w].phase.Refused? && outcome == Failed)
    ensures var id := l.workers[w].id; var was := l.core.jobs[id];
      var record := Job(was.job.project, if saved then outcome else Failed, was.job.started);
      var s' := Apply(s, Finish(w, outcome, saved));
      && s'.life.Some? && s'.life.value.core.jobs == l.core.jobs[id := Managed(record, was.runner)]
      && s'.disk == if saved then s.disk[id := record] else s.disk
  {
    LaunchJobs(Ended(l, w, if saved then outcome else Failed), JobOf(l, w).project);
  }

  /** An accepted job is queued and unstarted, in memory and on disk; no other record changes. */
  lemma StartOutcome(s: State, l: Life, p: Project, hasPrompt: bool, tries: seq<Option<Id>>, saved: bool)
    requires s.life == Some(l)
    ensures var s' := Apply(s, Start(p, hasPrompt, tries, saved));
      s' == s || exists id ::
        && id !in l.core.jobs && id !in s.disk && s'.life.Some?
        && s'.life.value.core.jobs == l.core.jobs[id := Managed(Job(p, Queued, false), true)]
        && s'.disk == s.disk[id := Job(p, Queued, false)]
  {
    var id := PickID(l.core.jobs.Keys + s.disk.Keys, tries, 16);
    if id.Some? { LaunchJobs(Accepted(l, p, id.value), p); }
  }

  /** An event of a job that started copies its record; the save of that copy leaves the file
      as memory was then. */
  lemma RecordThenFlush(s: State, l: Life, id: Id)
    requires s.life == Some(l) && id in l.core.jobs && l.core.jobs[id].job.started
    ensures var job := l.core.jobs[id].job;
      var s' := Apply(Apply(s, Record(id)), Flush(id, job));
      s'.disk == s.disk[id := job] && s'.life.Some? && s'.life.value.core == l.core
  {}
}
