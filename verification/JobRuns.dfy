/** What every run of the job scheduler keeps.

    Within a process life (LifeInv): every runJob goroutine has its project's slot, and every
    taken slot has its goroutine; a project's queue holds queued jobs of that project, and the
    order of acceptance rises along its dispatched jobs and on along the queue; a queued job
    stands in its queue or is in its project's slot; a registered project that is idle with
    jobs waiting is recorded as stalled.

    Across lives (FilesOk, RecordsOk): no runner was invoked twice; a job whose runner was
    invoked is marked as started in its file, in memory and in every copy on its way to disk,
    so that no later save takes the mark away; a goroutine that has yet to invoke its runner
    belongs to a job whose runner was never invoked. */
module JobRuns {
  import opened Text
  import opened JobManager

  // ---------------------------------------------------------------- the invariant of a process life

  function JobOf(l: Life, w: nat): Job
    requires w in l.workers && l.workers[w].id in l.core.jobs
  {
    l.core.jobs[l.workers[w].id].job
  }

  /** Each goroutine has its project's slot, and each taken slot has its goroutine. */
  predicate SlotsOk(l: Life) { WorkersHaveSlots(l) && WorkersDiffer(l) && SlotsHaveWorkers(l) }

  predicate WorkersHaveSlots(l: Life) { forall w | w in l.workers :: HasSlot(l, w) }

  predicate WorkersDiffer(l: Life) {
    forall w, x | w in l.workers && x in l.workers && w != x :: l.workers[w].id != l.workers[x].id
  }

  predicate SlotsHaveWorkers(l: Life) { forall p | p in l.core.running :: SlotUsed(l, p) }

  predicate HasSlot(l: Life, w: nat)
    requires w in l.workers
  {
    && w < l.nextWorker
    && l.workers[w].id in l.core.jobs
    && var p := JobOf(l, w).project;
      p in l.core.running && l.core.running[p] == l.workers[w].id
  }

  predicate SlotUsed(l: Life, p: Project)
    requires p in l.core.running
  {
    var id := l.core.running[p];
    && id in l.core.jobs && l.core.jobs[id].job.project == p && p in l.core.runners && id in Log(l, p)
    && exists w :: w in l.workers && l.workers[w].id == id
  }

  /** Orders are known and strictly increase along the list. */
  predicate Increasing(order: map<Id, nat>, q: seq<Id>) {
    && (forall i | 0 <= i < |q| :: q[i] in order)
    && (forall i, j | 0 <= i < j < |q| :: order[q[i]] < order[q[j]])
  }

  predicate QueueOk(l: Life, p: Project) {
    && Increasing(l.order, Log(l, p) + Queue(l.core, p))
    && (forall id | id in Queue(l.core, p) ::
          id in l.core.jobs && l.core.jobs[id].job.project == p && l.core.jobs[id].job.status == Queued)
    && (forall id | id in Log(l, p) :: id in l.core.jobs && l.core.jobs[id].job.project == p)
  }

  predicate JobOk(l: Life, id: Id)
    requires id in l.core.jobs
  {
    var Managed(job, runner) := l.core.jobs[id];
    && job.project != "" && (runner <==> job.project in l.core.runners)
    && id in l.order && l.order[id] < l.clock
    && (job.status == Queued ==> !job.started && (id in Queue(l.core, job.project) || InSlot(l, id)))
  }

  predicate InSlot(l: Life, id: Id)
    requires id in l.core.jobs
  {
    var p := l.core.jobs[id].job.project;
    p in l.core.running && l.core.running[p] == id
  }

  ghost predicate QueuesOk(l: Life) {
    && (forall p: Project :: QueueOk(l, p))
    && (forall id | id in l.core.jobs :: JobOk(l, id))
  }

  /** A registered project with a free slot and a non-empty queue is stalled. */
  predicate NoIdleQueue(l: Life, p: Project) {
    p in l.core.runners && p !in l.core.running && Queue(l.core, p) != [] ==> p in l.stalled
  }

  ghost predicate StallsOk(l: Life) {
    forall p: Project :: NoIdleQueue(l, p)
  }

  ghost predicate LifeInv(l: Life) {
    SlotsOk(l) && QueuesOk(l) && StallsOk(l)
  }

  // ---------------------------------------------------------------- dispatch

  lemma {:induction false} SkipNothing(c: Core, q: seq<Id>)
    requires q != [] ==> Eligible(c, q[0])
    ensures Skip(c, q) == q
  {}

  /** Looking for the next job of a project keeps the invariant, and ends its stall. */
  lemma DispatchKeeps(l: Life, p: Project)
    requires SlotsOk(l) && QueuesOk(l) && p in l.core.runners
    requires forall q: Project :: q != p ==> NoIdleQueue(l, q)
    ensures LifeInv(Launch(l, p))
  {
    var q := Queue(l.core, p);
    assert QueueOk(l, p);
    if q != [] {
      assert q[0] in q;
      assert JobOk(l, q[0]);
    }
    SkipNothing(l.core, q);
    if p in l.core.running || q == [] || p == "" {
      DispatchNone(l, p);
    } else {
      LaunchTakesHead(l, p);
      DispatchSlots(l, Launch(l, p), p);
      DispatchQueues(l, Launch(l, p), p);
    }
  }

  /** Two lives that differ only in the phases of goroutines, in queue entries that hold
      nothing, in stalls and in copies. */
  ghost predicate SameShape(l: Life, l': Life) {
    && l'.core.jobs == l.core.jobs && l'.core.running == l.core.running && l'.core.runners == l.core.runners
    && l'.workers == l.workers && l'.nextWorker == l.nextWorker && l'.dispatched == l.dispatched
    && l'.order == l.order && l'.clock == l.clock
    && forall q: Project :: Queue(l'.core, q) == Queue(l.core, q)
  }

  lemma ShapeKeepsSlots(l: Life, l': Life)
    requires SameShape(l, l') && SlotsOk(l)
    ensures SlotsOk(l')
  {
    forall w | w in l'.workers ensures HasSlot(l', w) { assert HasSlot(l, w); }
    forall q | q in l'.core.running ensures SlotUsed(l', q) { assert SlotUsed(l, q); }
  }

  lemma ShapeKeepsQueues(l: Life, l': Life)
    requires SameShape(l, l') && QueuesOk(l)
    ensures QueuesOk(l')
  {
    forall q: Project ensures QueueOk(l', q) { assert QueueOk(l, q) && Log(l', q) == Log(l, q); }
    forall id | id in l'.core.jobs
      ensures JobOk(l', id)
    {
      assert JobOk(l, id);
      assert Queue(l'.core, l.core.jobs[id].job.project) == Queue(l.core, l.core.jobs[id].job.project);
    }
  }

  /** Only a project with a name has queued jobs. */
  lemma QueueHasName(l: Life, p: Project)
    requires QueuesOk(l) && Queue(l.core, p) != []
    ensures p != ""
  {
    var id := Queue(l.core, p)[0];
    assert QueueOk(l, p) && id in Queue(l.core, p);
    assert JobOk(l, id);
  }

  lemma LaunchNothing(l: Life, p: Project)
    requires p in l.core.running || Queue(l.core, p) == [] || p == ""
    ensures var l' := Launch(l, p); SameShape(l, l') && l'.stalled == l.stalled - {p}
  {}

  lemma LaunchJobs(l: Life, p: Project)
    ensures Launch(l, p).core.jobs == l.core.jobs
  {}

  lemma DispatchNone(l: Life, p: Project)
    requires SlotsOk(l) && QueuesOk(l)
    requires p in l.core.running || Queue(l.core, p) == [] || p == ""
    requires forall q: Project :: q != p ==> NoIdleQueue(l, q)
    ensures LifeInv(Launch(l, p))
  {
    var l' := Launch(l, p);
    LaunchNothing(l, p);
    ShapeKeepsSlots(l, l');
    ShapeKeepsQueues(l, l');
    if Queue(l.core, p) != [] { QueueHasName(l, p); }
    forall q: Project ensures NoIdleQueue(l', q) {
      assert q != p ==> NoIdleQueue(l, q);
      assert Queue(l'.core, q) == Queue(l.core, q);
    }
  }

  /** Launch moves the head of the queue into the slot and starts its goroutine. */
  ghost predicate TakesHead(l: Life, l': Life, p: Project) {
    var q := Queue(l.core, p);
    && q != [] && p !in l.core.running
    && l'.core.jobs == l.core.jobs && l'.core.runners == l.core.runners
    && l'.core.running == l.core.running[p := q[0]] && l'.core.queues == l.core.queues[p := q[1..]]
    && l'.workers == l.workers[l.nextWorker := Worker(q[0], Dispatched)] && l'.nextWorker == l.nextWorker + 1
    && l'.dispatched == l.dispatched[p := Log(l, p) + [q[0]]]
    && l'.order == l.order && l'.clock == l.clock && l'.stalled == l.stalled - {p}
  }

  lemma LaunchTakesHead(l: Life, p: Project)
    requires p != "" && p !in l.core.running
    requires var q := Queue(l.core, p); q != [] && Skip(l.core, q) == q
    ensures TakesHead(l, Launch(l, p), p)
  {}

  lemma DispatchSlots(l: Life, l': Life, p: Project)
    requires SlotsOk(l) && QueueOk(l, p) && p in l.core.runners && TakesHead(l, l', p)
    ensures SlotsOk(l')
  {
    var id := Queue(l.core, p)[0];
    assert id in Queue(l.core, p);
    forall w | w in l'.workers
      ensures HasSlot(l', w)
    {
      assert w != l.nextWorker ==> HasSlot(l, w);
    }
    DispatchDiffers(l, l', p);
    forall q | q in l'.core.running
      ensures SlotUsed(l', q)
    {
      if q == p {
        assert l'.workers[l.nextWorker].id == id;
        assert Log(l', p)[|Log(l, p)|] == id;
      } else {
        DispatchKeepsSlot(l, l', p, q);
      }
    }
  }

  lemma DispatchDiffers(l: Life, l': Life, p: Project)
    requires SlotsOk(l) && QueueOk(l, p) && TakesHead(l, l', p)
    ensures WorkersDiffer(l')
  {
    assert Queue(l.core, p)[0] in Queue(l.core, p);
    forall w, x | w in l'.workers && x in l'.workers && w != x
      ensures l'.workers[w].id != l'.workers[x].id
    {
      assert w in l.workers ==> HasSlot(l, w);
      assert x in l.workers ==> HasSlot(l, x);
    }
  }

  lemma DispatchKeepsSlot(l: Life, l': Life, p: Project, q: Project)
    requires SlotsOk(l) && TakesHead(l, l', p) && q != p && q in l.core.running
    ensures SlotUsed(l', q)
  {
    assert SlotUsed(l, q);
    var w :| w in l.workers && l.workers[w].id == l.core.running[q];
    assert HasSlot(l, w);
    assert l'.workers[w] == l.workers[w];
  }

  lemma DispatchQueues(l: Life, l': Life, p: Project)
    requires QueuesOk(l) && TakesHead(l, l', p)
    requires forall q: Project :: q != p ==> NoIdleQueue(l, q)
    ensures QueuesOk(l') && StallsOk(l')
  {
    var q := Queue(l.core, p);
    forall r: Project
      ensures QueueOk(l', r)
    {
      assert QueueOk(l, r);
      if r == p {
        assert q[0] in q;
        assert Log(l', p) + Queue(l'.core, p) == Log(l, p) + q;
      } else {
        assert Queue(l'.core, r) == Queue(l.core, r) && Log(l', r) == Log(l, r);
      }
    }
    forall id | id in l'.core.jobs
      ensures JobOk(l', id)
    {
      assert JobOk(l, id);
      if id in q && id != q[0] {
        var i :| 0 <= i < |q| && q[i] == id;
        assert q[1..][i - 1] == id;
      }
    }
    forall r: Project
      ensures NoIdleQueue(l', r)
    {
      assert r != p ==> NoIdleQueue(l, r);
    }
  }

  // ---------------------------------------------------------------- the other critical sections

  lemma LoggedNotQueued(l: Life, p: Project, id: Id)
    requires QueueOk(l, p) && id in Log(l, p)
    ensures id !in Queue(l.core, p)
  {
    var log, q := Log(l, p), Queue(l.core, p);
    var i :| 0 <= i < |log| && log[i] == id;
    forall j | 0 <= j < |q|
      ensures q[j] != id
    {
      assert (log + q)[i] == id && (log + q)[|log| + j] == q[j];
    }
  }

  /** The jobs of the two lives have the same projects. */
  ghost predicate SameProjects(l: Life, l': Life) {
    && l'.core.runners == l.core.runners && l'.dispatched == l.dispatched && l'.nextWorker == l.nextWorker
    && (forall i :: i in l'.core.jobs <==> i in l.core.jobs)
    && (forall i | i in l.core.jobs :: l'.core.jobs[i].job.project == l.core.jobs[i].job.project)
  }

  /** What the slots depend on is the same, but for the phase of one goroutine. */
  lemma SameSlots(l: Life, l': Life, w: nat, phase: Phase)
    requires SlotsOk(l) && w in l.workers && SameProjects(l, l')
    requires l'.workers == l.workers[w := Worker(l.workers[w].id, phase)]
    requires l'.core.running == l.core.running
    ensures SlotsOk(l')
  {
    assert forall x :: x in l'.workers <==> x in l.workers;
    assert forall x | x in l.workers :: l'.workers[x].id == l.workers[x].id;
    forall x | x in l'.workers ensures HasSlot(l', x) { assert HasSlot(l, x); }
    forall q | q in l'.core.running
      ensures SlotUsed(l', q)
    {
      assert SlotUsed(l, q);
      var x :| x in l.workers && l.workers[x].id == l.core.running[q];
      assert x in l'.workers && l'.workers[x].id == l.workers[x].id;
    }
  }

  /** A goroutine ends and its job has ended: the slot is free. */
  lemma FreeSlot(l: Life, w: nat, st: Status)
    requires LifeInv(l) && w in l.workers && HasSlot(l, w) && Terminal(st)
    ensures var l', p := Ended(l, w, st), JobOf(l, w).project;
      && SlotsOk(l') && QueuesOk(l') && p in l'.core.runners
      && forall q: Project :: q != p ==> NoIdleQueue(l', q)
  {
    var id, job := l.workers[w].id, JobOf(l, w);
    var p, l' := job.project, Ended(l, w, st);
    assert SlotUsed(l, p);
    FreedSlots(l, l', w);
    SlotJobQueues(l, l', id, job.(status := st));
  }

  /** The job in a slot gets a status other than queued, and the slot may become free. */
  predicate SlotJobEnds(l: Life, l': Life, id: Id, job: Job)
    requires id in l.core.jobs
  {
    && InSlot(l, id) && job.project == l.core.jobs[id].job.project && job.status != Queued
    && l'.core.jobs == l.core.jobs[id := l.core.jobs[id].(job := job)]
    && (l'.core.running == l.core.running || l'.core.running == l.core.running - {job.project})
    && l'.core.queues == l.core.queues && l'.core.runners == l.core.runners
    && l'.order == l.order && l'.clock == l.clock && l'.dispatched == l.dispatched && l'.stalled == l.stalled
  }

  lemma SlotJobQueues(l: Life, l': Life, id: Id, job: Job)
    requires LifeInv(l) && id in l.core.jobs && SlotJobEnds(l, l', id, job)
    ensures QueuesOk(l') && forall q: Project :: q != job.project ==> NoIdleQueue(l', q)
    ensures l'.core.running == l.core.running ==> StallsOk(l')
  {
    assert SlotUsed(l, job.project) && QueueOk(l, job.project);
    LoggedNotQueued(l, job.project, id);
    forall q: Project
      ensures QueueOk(l', q)
    {
      assert QueueOk(l, q);
    }
    SlotJobJobs(l, l', id, job);
    forall q: Project
      ensures (q != job.project || l'.core.running == l.core.running) ==> NoIdleQueue(l', q)
    {
      assert NoIdleQueue(l, q);
    }
  }

  lemma SlotJobJobs(l: Life, l': Life, id: Id, job: Job)
    requires LifeInv(l) && id in l.core.jobs && SlotJobEnds(l, l', id, job)
    ensures forall i | i in l'.core.jobs :: JobOk(l', i)
  {
    forall i | i in l'.core.jobs
      ensures JobOk(l', i)
    {
      assert JobOk(l, i);
    }
  }

  lemma FreedSlots(l: Life, l': Life, w: nat)
    requires SlotsOk(l) && w in l.workers && HasSlot(l, w) && SameProjects(l, l')
    requires l'.workers == l.workers - {w}
    requires l'.core.running == l.core.running - {JobOf(l, w).project}
    ensures SlotsOk(l')
  {
    forall x | x in l'.workers
      ensures HasSlot(l', x)
    {
      assert HasSlot(l, x) && l.workers[x].id != l.workers[w].id;
    }
    forall q | q in l'.core.running
      ensures SlotUsed(l', q)
    {
      FreedOtherSlot(l, l', w, q);
    }
  }

  lemma FreedOtherSlot(l: Life, l': Life, w: nat, q: Project)
    requires SlotsOk(l) && w in l.workers && HasSlot(l, w) && SameProjects(l, l')
    requires l'.workers == l.workers - {w} && q in l'.core.running
    requires l'.core.running == l.core.running - {JobOf(l, w).project}
    ensures SlotUsed(l', q)
  {
    assert SlotUsed(l, q);
    var x :| x in l.workers && l.workers[x].id == l.core.running[q];
    assert x in l'.workers;
  }

  /** A job whose record changes while it is in its slot. */
  lemma SlotJobChanges(l: Life, w: nat, phase: Phase, job: Job)
    requires LifeInv(l) && w in l.workers && HasSlot(l, w)
    requires job.project == JobOf(l, w).project && job.status != Queued
    ensures LifeInv(l.(core := SetJob(l.core, l.workers[w].id, job), workers := l.workers[w := Worker(l.workers[w].id, phase)]))
  {
    var id := l.workers[w].id;
    var l' := l.(core := SetJob(l.core, id, job), workers := l.workers[w := Worker(id, phase)]);
    SameSlots(l, l', w, phase);
    SlotJobQueues(l, l', id, job);
  }

  /** A goroutine that only moves on. */
  lemma WorkerMoves(l: Life, w: nat, phase: Phase)
    requires LifeInv(l) && w in l.workers
    ensures LifeInv(l.(workers := l.workers[w := Worker(l.workers[w].id, phase)]))
  {
    var l' := l.(workers := l.workers[w := Worker(l.workers[w].id, phase)]);
    SameSlots(l, l', w, phase);
    SameQueues(l, l');
  }

  /** Queues, jobs and history are untouched. */
  lemma SameQueues(l: Life, l': Life)
    requires QueuesOk(l) && StallsOk(l)
    requires l'.core == l.core && l'.order == l.order && l'.clock == l.clock && l'.dispatched == l.dispatched
    requires l'.stalled == l.stalled
    ensures QueuesOk(l') && StallsOk(l')
  {
    forall q: Project ensures QueueOk(l', q) { assert QueueOk(l, q); }
    forall i | i in l'.core.jobs ensures JobOk(l', i) { assert JobOk(l, i); }
    forall q: Project ensures NoIdleQueue(l', q) { assert NoIdleQueue(l, q); }
  }

  lemma {:induction false} WithoutKeeps(q: seq<Id>, id: Id)
    ensures forall x :: x in Without(q, id) <==> x in q && x != id
  {
    if q != [] {
      WithoutKeeps(q[1..], id);
      assert q == [q[0]] + q[1..];
    }
  }

  lemma {:induction false} IncreasingWithout(order: map<Id, nat>, a: seq<Id>, q: seq<Id>, id: Id)
    requires Increasing(order, a + q)
    ensures Increasing(order, a + Without(q, id))
    decreases |q|
  {
    if q != [] {
      var x, rest := q[0], q[1..];
      if x == id {
        IncreasingDrop(order, a, q);
        IncreasingWithout(order, a, rest, id);
        assert Without(q, id) == [] + Without(rest, id) == Without(rest, id);
      } else {
        var ax := a + [x];
        assert a + q == ax + rest;
        IncreasingWithout(order, ax, rest, id);
        assert Without(q, id) == [x] + Without(rest, id);
        assert a + ([x] + Without(rest, id)) == ax + Without(rest, id);
      }
    }
  }

  lemma IncreasingDrop(order: map<Id, nat>, a: seq<Id>, q: seq<Id>)
    requires q != [] && Increasing(order, a + q)
    ensures Increasing(order, a + q[1..])
  {
    var s, t := a + q, a + q[1..];
    forall i | 0 <= i < |t|
      ensures t[i] == s[if i < |a| then i else i + 1] && t[i] in order
    {}
    forall i, j | 0 <= i < j < |t|
      ensures order[t[i]] < order[t[j]]
    {
      assert t[i] == s[if i < |a| then i else i + 1] && t[j] == s[if j < |a| then j else j + 1];
    }
  }

  /** From l to l', the job has ended and left its queue. */
  ghost predicate Withdrawn(l: Life, l': Life, id: Id)
    requires id in l.core.jobs
  {
    var job := l.core.jobs[id].job;
    && SameProjects(l, l') && l'.core.running == l.core.running
    && l'.order == l.order && l'.clock == l.clock && l'.stalled == l.stalled
    && l'.core.jobs[id].job.status != Queued && l'.core.jobs[id].runner == l.core.jobs[id].runner
    && (forall i | i in l.core.jobs && i != id :: l'.core.jobs[i] == l.core.jobs[i])
    && (forall r: Project ::
          Queue(l'.core, r) == if r == job.project then Without(Queue(l.core, r), id) else Queue(l.core, r))
  }

  lemma CancelWithdraws(l: Life, id: Id, saved: bool)
    requires id in l.core.jobs
    ensures Withdrawn(l, l.(core := CancelJob(l.core, id, saved)), id)
  {
    var l' := l.(core := CancelJob(l.core, id, saved));
    var p := l.core.jobs[id].job.project;
    assert Queue(l.core, p) == [] ==> Without(Queue(l.core, p), id) == [];
  }

  lemma CancelQueues(l: Life, l': Life, id: Id)
    requires LifeInv(l) && id in l.core.jobs && Withdrawn(l, l', id)
    ensures forall r: Project :: QueueOk(l', r) && NoIdleQueue(l', r)
  {
    var p := l.core.jobs[id].job.project;
    forall r: Project
      ensures QueueOk(l', r) && NoIdleQueue(l', r)
    {
      assert QueueOk(l, r) && NoIdleQueue(l, r) && Log(l', r) == Log(l, r);
      WithoutKeeps(Queue(l.core, r), id);
      if r == p { IncreasingWithout(l.order, Log(l, r), Queue(l.core, r), id); }
    }
  }

  lemma CancelJobs(l: Life, l': Life, id: Id)
    requires LifeInv(l) && id in l.core.jobs && Withdrawn(l, l', id)
    ensures forall i | i in l'.core.jobs :: JobOk(l', i)
  {
    forall i | i in l'.core.jobs
      ensures JobOk(l', i)
    {
      assert JobOk(l, i);
      WithoutKeeps(Queue(l.core, l.core.jobs[i].job.project), id);
    }
  }

  /** A job that ends while it waits, or whose cancellation is noted while it runs. */
  lemma CancelKeeps(l: Life, id: Id, saved: bool)
    requires LifeInv(l) && id in l.core.jobs
    ensures LifeInv(l.(core := CancelJob(l.core, id, saved)))
  {
    var l' := l.(core := CancelJob(l.core, id, saved));
    CancelWithdraws(l, id, saved);
    forall x | x in l'.workers ensures HasSlot(l', x) { assert HasSlot(l, x); }
    forall r | r in l'.core.running ensures SlotUsed(l', r) { assert SlotUsed(l, r); }
    CancelQueues(l, l', id);
    CancelJobs(l, l', id);
  }

  /** A registered project gets a new queued job, to be followed by a dispatch. */
  lemma AcceptKeeps(l: Life, p: Project, id: Id)
    requires LifeInv(l) && id !in l.core.jobs && p != "" && p in l.core.runners
    ensures var l' := Accepted(l, p, id);
      && SlotsOk(l') && QueuesOk(l') && forall q: Project :: q != p ==> NoIdleQueue(l', q)
  {
    var l' := Accepted(l, p, id);
    forall x | x in l'.workers ensures HasSlot(l', x) { assert HasSlot(l, x); }
    forall r | r in l'.core.running ensures SlotUsed(l', r) { assert SlotUsed(l, r); }
    forall r: Project
      ensures QueueOk(l', r) && (r != p ==> NoIdleQueue(l', r))
    {
      AcceptQueue(l, l', p, id, r);
    }
    forall i | i in l'.core.jobs
      ensures JobOk(l', i)
    {
      if i == id {
        assert Queue(l'.core, p)[|Queue(l.core, p)|] == id;
      } else {
        assert JobOk(l, i);
        var r := l.core.jobs[i].job.project;
        assert Queue(l'.core, r) == if r == p then Queue(l.core, p) + [id] else Queue(l.core, r);
      }
    }
  }

  lemma IncreasingSnoc(order: map<Id, nat>, q: seq<Id>, id: Id, clock: nat)
    requires Increasing(order, q) && forall i | 0 <= i < |q| :: q[i] != id && order[q[i]] < clock
    ensures Increasing(order[id := clock], q) && Increasing(order[id := clock], q + [id])
  {}

  /** All accepted jobs of a project are older than the clock. */
  lemma KnownIsOlder(l: Life, r: Project, id: Id)
    requires LifeInv(l) && id !in l.core.jobs
    ensures var all := Log(l, r) + Queue(l.core, r);
      Increasing(l.order, all) && forall i | 0 <= i < |all| :: all[i] != id && l.order[all[i]] < l.clock
  {
    assert QueueOk(l, r);
    var all := Log(l, r) + Queue(l.core, r);
    forall i | 0 <= i < |all|
      ensures all[i] in l.order && all[i] != id && l.order[all[i]] < l.clock
    {
      assert all[i] in Log(l, r) || all[i] in Queue(l.core, r);
      assert JobOk(l, all[i]);
    }
  }

  lemma AcceptQueue(l: Life, l': Life, p: Project, id: Id, r: Project)
    requires LifeInv(l) && id !in l.core.jobs && p != "" && p in l.core.runners
    requires l' == Accepted(l, p, id)
    ensures QueueOk(l', r) && (r != p ==> NoIdleQueue(l', r))
  {
    assert QueueOk(l, r) && NoIdleQueue(l, r);
    KnownIsOlder(l, r, id);
    IncreasingSnoc(l.order, Log(l, r) + Queue(l.core, r), id, l.clock);
    assert Log(l', r) == Log(l, r);
    if r == p {
      assert Queue(l'.core, r) == Queue(l.core, r) + [id];
      assert Log(l, r) + (Queue(l.core, r) + [id]) == (Log(l, r) + Queue(l.core, r)) + [id];
    } else {
      assert Queue(l'.core, r) == Queue(l.core, r);
    }
  }

  /** A project gets its runner, to be followed by a dispatch. */
  lemma AttachKeeps(l: Life, p: Project)
    requires LifeInv(l)
    ensures var l' := l.(core := Attach(l.core, p));
      && SlotsOk(l') && QueuesOk(l') && forall q: Project :: q != p ==> NoIdleQueue(l', q)
  {
    var l' := l.(core := Attach(l.core, p));
    assert forall i | i in l.core.jobs :: i in l'.core.jobs && l'.core.jobs[i].job == l.core.jobs[i].job;
    forall x | x in l'.workers ensures HasSlot(l', x) { assert HasSlot(l, x); }
    forall r | r in l'.core.running ensures SlotUsed(l', r) { assert SlotUsed(l, r); }
    forall r: Project
      ensures QueueOk(l', r) && (r != p ==> NoIdleQueue(l', r))
    {
      assert QueueOk(l, r) && NoIdleQueue(l, r);
      assert Queue(l'.core, r) == Queue(l.core, r);
    }
    forall i | i in l'.core.jobs
      ensures JobOk(l', i)
    {
      assert JobOk(l, i);
      assert Queue(l'.core, l.core.jobs[i].job.project) == Queue(l.core, l.core.jobs[i].job.project);
    }
  }

  // ---------------------------------------------------------------- files and the invocation ledger

  /** No runner was invoked twice, and a job whose runner was invoked is marked started on disk. */
  predicate FilesOk(s: State) {
    && (forall id | id in s.disk :: s.disk[id].project != "")
    && (forall id | id in s.invoked :: InvokedOk(s, id))
  }

  predicate InvokedOk(s: State, id: Id) {
    Count(s.invoked, id) <= 1 && (Count(s.invoked, id) == 1 ==> id in s.disk && s.disk[id].started)
  }

  /** A record in memory has its file, and a job that may have run is marked started in memory;
      a queued job's file says the same as memory. */
  predicate RecordOk(s: State, l: Life, id: Id)
    requires id in l.core.jobs
  {
    var job := l.core.jobs[id].job;
    && id in s.disk
    && (Count(s.invoked, id) > 0 ==> job.started)
    && (job.status == Queued ==> s.disk[id] == job)
  }

  /** A goroutine before Invoke belongs to a job whose runner was never invoked. */
  predicate WorkerOk(s: State, l: Life, w: nat)
    requires w in l.workers && l.workers[w].id in l.core.jobs
  {
    var Worker(id, phase) := l.workers[w];
    var job := l.core.jobs[id].job;
    match phase
    case Dispatched => !job.started && Count(s.invoked, id) == 0
    case Persisting(copy) => job.started && copy.started && copy.project == job.project && Count(s.invoked, id) == 0
    case Saved => job.started && Count(s.invoked, id) == 0 && id in s.disk && s.disk[id].started
    case Refused => job.started && Count(s.invoked, id) == 0
    case Executing => job.started
  }

  /** Copies on their way to disk are of started jobs. */
  predicate CopyOk(l: Life, c: (Id, Job)) {
    c.0 in l.core.jobs && l.core.jobs[c.0].job.started && c.1.started && c.1.project == l.core.jobs[c.0].job.project
  }

  predicate RecordsOk(s: State, l: Life) {
    && (forall id | id in l.core.jobs :: RecordOk(s, l, id))
    && (forall w | w in l.workers :: l.workers[w].id in l.core.jobs && WorkerOk(s, l, w))
    && (forall c | c in l.copies :: CopyOk(l, c))
  }

  ghost predicate Inv(s: State) {
    FilesOk(s) && (s.life.Some? ==> LifeInv(s.life.value) && RecordsOk(s, s.life.value))
  }

  // ---------------------------------------------------------------- steps keep the invariant

  /** The first queued job can be dispatched and was never started. */
  predicate HeadOk(l: Life, p: Project) {
    var q := Queue(l.core, p);
    q != [] ==> Eligible(l.core, q[0]) && !l.core.jobs[q[0]].job.started
  }

  lemma QueuesHead(l: Life, p: Project)
    requires QueuesOk(l) && p in l.core.runners
    ensures HeadOk(l, p)
  {
    var q := Queue(l.core, p);
    assert QueueOk(l, p);
    if q != [] {
      assert q[0] in q;
      assert JobOk(l, q[0]);
    }
  }

  /** Launch adds one goroutine, for a job that was queued. */
  lemma LaunchRecords(s: State, l: Life, p: Project)
    requires HeadOk(l, p) && RecordsOk(s, l)
    ensures RecordsOk(s, Launch(l, p))
  {
    var q := Queue(l.core, p);
    assert q != [] ==> RecordOk(s, l, q[0]);
    SkipNothing(l.core, q);
    var l' := Launch(l, p);
    assert l'.core.jobs == l.core.jobs;
    forall id | id in l'.core.jobs ensures RecordOk(s, l', id) { assert RecordOk(s, l, id); }
    forall w | w in l'.workers
      ensures l'.workers[w].id in l'.core.jobs && WorkerOk(s, l', w)
    {
      if w in l.workers && w != l.nextWorker {
        assert WorkerOk(s, l, w);
      }
    }
    forall c | c in l'.copies ensures CopyOk(l', c) { assert CopyOk(l, c); }
  }

  lemma RegisterLife(l: Life, p: Project)
    requires LifeInv(l)
    ensures var l1 := l.(core := Attach(l.core, p)); LifeInv(Launch(l1, p)) && HeadOk(l1, p)
  {
    AttachKeeps(l, p);
    DispatchKeeps(l.(core := Attach(l.core, p)), p);
    QueuesHead(l.(core := Attach(l.core, p)), p);
  }

  lemma RegisterInv(s: State, l: Life, p: Project)
    requires Inv(s) && s.life == Some(l)
    ensures Inv(LifeStep(s, l, Register(p)))
  {
    var l1 := l.(core := Attach(l.core, p));
    var s' := s.(life := Some(Launch(l1, p)));
    RegisterLife(l, p);
    AttachRecords(s, s', l, p);
    LaunchRecords(s', l1, p);
    SameFiles(s, s');
  }

  lemma SameFiles(s: State, s': State)
    requires FilesOk(s) && s'.disk == s.disk && s'.invoked == s.invoked
    ensures FilesOk(s')
  {
    forall i | i in s'.invoked ensures InvokedOk(s', i) { assert InvokedOk(s, i); }
  }

  lemma AttachRecords(s: State, s': State, l: Life, p: Project)
    requires RecordsOk(s, l) && s'.disk == s.disk && s'.invoked == s.invoked
    ensures RecordsOk(s', l.(core := Attach(l.core, p)))
  {
    var l1 := l.(core := Attach(l.core, p));
    forall id | id in l1.core.jobs ensures RecordOk(s', l1, id) { assert RecordOk(s, l, id); }
    forall w | w in l1.workers ensures WorkerOk(s', l1, w) { assert WorkerOk(s, l, w); }
    forall c | c in l1.copies ensures CopyOk(l1, c) { assert CopyOk(l, c); }
  }

  lemma StartLife(l: Life, p: Project, id: Id)
    requires LifeInv(l) && p != "" && p in l.core.runners && id !in l.core.jobs
    ensures LifeInv(Launch(Accepted(l, p, id), p)) && HeadOk(Accepted(l, p, id), p)
  {
    AcceptKeeps(l, p, id);
    DispatchKeeps(Accepted(l, p, id), p);
    QueuesHead(Accepted(l, p, id), p);
  }

  lemma StartInv(s: State, l: Life, p: Project, id: Id)
    requires Inv(s) && s.life == Some(l)
    requires p != "" && p in l.core.runners && id !in l.core.jobs && id !in s.disk
    ensures Inv(AfterStart(s, l, p, id))
  {
    StartLife(l, p, id);
    AcceptRecords(s, l, p, id);
    LaunchRecords(AfterStart(s, l, p, id), Accepted(l, p, id), p);
    AcceptFiles(s, l, p, id);
  }

  lemma AcceptRecords(s: State, l: Life, p: Project, id: Id)
    requires FilesOk(s) && RecordsOk(s, l) && id !in l.core.jobs && id !in s.disk
    ensures RecordsOk(AfterStart(s, l, p, id), Accepted(l, p, id))
  {
    var l1 := Accepted(l, p, id);
    var s1 := AfterStart(s, l, p, id);
    assert id in s.invoked ==> InvokedOk(s, id);
    forall i | i in l1.core.jobs
      ensures RecordOk(s1, l1, i)
    {
      assert i != id ==> RecordOk(s, l, i);
    }
    forall w | w in l1.workers ensures WorkerOk(s1, l1, w) { assert WorkerOk(s, l, w); }
    forall c | c in l1.copies ensures CopyOk(l1, c) { assert CopyOk(l, c); }
  }

  lemma AcceptFiles(s: State, l: Life, p: Project, id: Id)
    requires FilesOk(s) && p != "" && id !in s.disk
    ensures FilesOk(AfterStart(s, l, p, id))
  {
    var s' := AfterStart(s, l, p, id);
    forall i | i in s'.invoked ensures InvokedOk(s', i) { assert InvokedOk(s, i); }
  }

  /** A save of a job's record that keeps the started mark keeps the files right. */
  lemma SaveFiles(s: State, s': State, id: Id, job: Job)
    requires FilesOk(s) && s'.invoked == s.invoked
    requires s'.disk == s.disk || s'.disk == s.disk[id := job]
    requires job.project != "" && (Count(s.invoked, id) > 0 ==> job.started)
    ensures FilesOk(s')
  {
    forall i | i in s'.invoked ensures InvokedOk(s', i) { assert InvokedOk(s, i); }
  }

  lemma CancelInv(s: State, l: Life, id: Id, saved: bool)
    requires Inv(s) && s.life == Some(l) && id in l.core.jobs && !Terminal(l.core.jobs[id].job.status)
    ensures Inv(AfterCancel(s, l, id, saved))
  {
    CancelKeeps(l, id, saved);
    assert RecordOk(s, l, id) && JobOk(l, id);
    CancelRecords(s, l, id, saved);
    SaveFiles(s, AfterCancel(s, l, id, saved), id, l.core.jobs[id].job.(status := Cancelled));
  }

  lemma CancelRecords(s: State, l: Life, id: Id, saved: bool)
    requires RecordsOk(s, l) && id in l.core.jobs
    ensures var s' := AfterCancel(s, l, id, saved); RecordsOk(s', s'.life.value)
  {
    var s' := AfterCancel(s, l, id, saved);
    var l' := s'.life.value;
    forall i | i in l'.core.jobs ensures RecordOk(s', l', i) { assert RecordOk(s, l, i); }
    forall w | w in l'.workers ensures WorkerOk(s', l', w) { assert WorkerOk(s, l, w); }
    forall c | c in l'.copies ensures CopyOk(l', c) { assert CopyOk(l, c); }
  }

  lemma BeginInv(s: State, l: Life, w: nat)
    requires Inv(s) && s.life == Some(l) && AtPhase(l, w, true)
    ensures Inv(AfterBegin(s, l, w))
  {
    var id, job := l.workers[w].id, JobOf(l, w);
    assert HasSlot(l, w) && WorkerOk(s, l, w);
    BeginRecords(s, l, w);
    if Terminal(job.status) {
      BeginEnded(l, w);
    } else {
      var job' := job.(status := Running, started := true);
      SlotJobChanges(l, w, Persisting(job'), job');
    }
  }

  lemma BeginEnded(l: Life, w: nat)
    requires LifeInv(l) && w in l.workers && HasSlot(l, w) && Terminal(JobOf(l, w).status)
    ensures var id, p := l.workers[w].id, JobOf(l, w).project;
      LifeInv(l.(core := Release(l.core, p, id), workers := l.workers - {w}, stalled := l.stalled + {p}))
  {
    var id, job := l.workers[w].id, JobOf(l, w);
    FreeSlot(l, w, job.status);
    assert SetJob(l.core, id, job.(status := job.status)) == l.core by {
      assert l.core.jobs[id := l.core.jobs[id]] == l.core.jobs;
    }
    StalledKeeps(l.(core := Release(l.core, job.project, id), workers := l.workers - {w}), job.project);
  }

  /** The goroutine of a job that has ended is gone, and its slot is free. */
  lemma BeginEndedRecords(s: State, l: Life, l': Life, w: nat)
    requires RecordsOk(s, l) && l'.core.jobs == l.core.jobs && l'.workers == l.workers - {w} && l'.copies == l.copies
    ensures RecordsOk(s, l')
  {
    forall i | i in l'.core.jobs ensures RecordOk(s, l', i) { assert RecordOk(s, l, i); }
    forall x | x in l'.workers ensures WorkerOk(s, l', x) { assert WorkerOk(s, l, x); }
    forall c | c in l'.copies ensures CopyOk(l', c) { assert CopyOk(l, c); }
  }

  /** The job is marked as started in memory, and its goroutine will save that. */
  lemma BeginStartedRecords(s: State, l: Life, l': Life, w: nat)
    requires RecordsOk(s, l) && WorkersDiffer(l) && w in l.workers && l.workers[w].phase.Dispatched?
    requires var id, job := l.workers[w].id, JobOf(l, w).(status := Running, started := true);
      && l'.core.jobs == l.core.jobs[id := l.core.jobs[id].(job := job)] && l'.copies == l.copies
      && l'.workers == l.workers[w := Worker(id, Persisting(job))]
    ensures RecordsOk(s, l')
  {
    var id := l.workers[w].id;
    assert WorkerOk(s, l, w) && RecordOk(s, l, id);
    forall i | i in l'.core.jobs ensures RecordOk(s, l', i) { assert RecordOk(s, l, i); }
    forall x | x in l'.workers
      ensures l'.workers[x].id in l'.core.jobs && WorkerOk(s, l', x)
    {
      assert WorkerOk(s, l, x);
      assert x != w ==> l.workers[x].id != id;
    }
    forall c | c in l'.copies ensures CopyOk(l', c) { assert CopyOk(l, c); }
  }

  lemma BeginRecords(s: State, l: Life, w: nat)
    requires RecordsOk(s, l) && SlotsOk(l) && AtPhase(l, w, true)
    ensures var s' := AfterBegin(s, l, w); RecordsOk(s', s'.life.value)
  {
    var s' := AfterBegin(s, l, w);
    if Terminal(JobOf(l, w).status) {
      BeginEndedRecords(s, l, s'.life.value, w);
      SameDisk(s, s', s'.life.value);
    } else {
      BeginStartedRecords(s, l, s'.life.value, w);
      SameDisk(s, s', s'.life.value);
    }
  }

  /** The records depend on the files and the ledger only. */
  lemma SameDisk(s: State, s': State, l: Life)
    requires RecordsOk(s, l) && s'.disk == s.disk && s'.invoked == s.invoked
    ensures RecordsOk(s', l)
  {
    forall i | i in l.core.jobs ensures RecordOk(s', l, i) { assert RecordOk(s, l, i); }
    forall x | x in l.workers ensures WorkerOk(s', l, x) { assert WorkerOk(s, l, x); }
  }

  lemma StalledKeeps(l: Life, p: Project)
    requires SlotsOk(l) && QueuesOk(l) && forall q: Project :: q != p ==> NoIdleQueue(l, q)
    ensures LifeInv(l.(stalled := l.stalled + {p}))
  {
    var l' := l.(stalled := l.stalled + {p});
    ShapeKeepsSlots(l, l');
    ShapeKeepsQueues(l, l');
    forall q: Project ensures NoIdleQueue(l', q) { assert q != p ==> NoIdleQueue(l, q); }
  }

  /** A goroutine that saves its copy, or invokes the runner. */
  lemma MoveInv(s: State, l: Life, w: nat, step: Step)
    requires Inv(s) && s.life == Some(l) && AtPhase(l, w, false)
    requires (step.Persist? && l.workers[w].phase.Persisting?) || (step.Invoke? && l.workers[w].phase.Saved?)
    requires step.worker == w
    ensures Inv(LifeStep(s, l, step))
  {
    WorkerMoves(l, w, LifeStep(s, l, step).life.value.workers[w].phase);
    MoveRecords(s, l, w, step);
    MoveFiles(s, l, w, step);
  }

  lemma MoveFiles(s: State, l: Life, w: nat, step: Step)
    requires FilesOk(s) && RecordsOk(s, l) && QueuesOk(l) && s.life == Some(l) && AtPhase(l, w, false)
    requires (step.Persist? && l.workers[w].phase.Persisting?) || (step.Invoke? && l.workers[w].phase.Saved?)
    requires step.worker == w
    ensures FilesOk(LifeStep(s, l, step))
  {
    var s', id := LifeStep(s, l, step), l.workers[w].id;
    assert WorkerOk(s, l, w) && RecordOk(s, l, id) && JobOk(l, id);
    forall i | i in s'.invoked
      ensures InvokedOk(s', i)
    {
      assert i in s.invoked ==> InvokedOk(s, i);
    }
  }

  lemma MoveRecords(s: State, l: Life, w: nat, step: Step)
    requires RecordsOk(s, l) && SlotsOk(l) && s.life == Some(l) && AtPhase(l, w, false)
    requires (forall i | i in l.core.jobs :: JobOk(l, i))
    requires (step.Persist? && l.workers[w].phase.Persisting?) || (step.Invoke? && l.workers[w].phase.Saved?)
    requires step.worker == w
    ensures var s' := LifeStep(s, l, step); RecordsOk(s', s'.life.value)
  {
    if step.Persist? { PersistRecords(s, l, w, step.saved); } else { InvokeRecords(s, l, w); }
  }

  lemma PersistRecords(s: State, l: Life, w: nat, saved: bool)
    requires RecordsOk(s, l) && WorkersDiffer(l) && AtPhase(l, w, false) && l.workers[w].phase.Persisting?
    requires l.workers[w].id in l.core.jobs && JobOk(l, l.workers[w].id)
    ensures var s' := AfterPersist(s, l, w, saved); RecordsOk(s', s'.life.value)
  {
    var id := l.workers[w].id;
    var s' := AfterPersist(s, l, w, saved);
    var l' := s'.life.value;
    assert WorkerOk(s, l, w) && RecordOk(s, l, id);
    forall i | i in l'.core.jobs ensures RecordOk(s', l', i) { assert RecordOk(s, l, i); }
    forall x | x in l'.workers
      ensures l'.workers[x].id in l'.core.jobs && WorkerOk(s', l', x)
    {
      assert WorkerOk(s, l, x);
      assert x != w ==> l.workers[x].id != id;
    }
    forall c | c in l'.copies ensures CopyOk(l', c) { assert CopyOk(l, c); }
  }

  lemma InvokeRecords(s: State, l: Life, w: nat)
    requires RecordsOk(s, l) && WorkersDiffer(l) && AtPhase(l, w, false) && l.workers[w].phase.Saved?
    ensures var s' := AfterInvoke(s, l, w); RecordsOk(s', s'.life.value)
  {
    var id := l.workers[w].id;
    var s' := AfterInvoke(s, l, w);
    var l' := s'.life.value;
    assert WorkerOk(s, l, w) && RecordOk(s, l, id);
    forall i | i in l'.core.jobs ensures RecordOk(s', l', i) { assert RecordOk(s, l, i); }
    forall x | x in l'.workers
      ensures l'.workers[x].id in l'.core.jobs && WorkerOk(s', l', x)
    {
      assert WorkerOk(s, l, x);
      assert x != w ==> l.workers[x].id != id;
    }
    forall c | c in l'.copies ensures CopyOk(l', c) { assert CopyOk(l, c); }
  }

  lemma FinishInv(s: State, l: Life, w: nat, outcome: Status, saved: bool)
    requires Inv(s) && s.life == Some(l) && AtPhase(l, w, false) && Terminal(outcome)
    ensures Inv(AfterFinish(s, l, w, outcome, saved))
  {
    var job := JobOf(l, w);
    var st := if saved then outcome else Failed;
    assert HasSlot(l, w) && WorkerOk(s, l, w) && RecordOk(s, l, l.workers[w].id) && JobOk(l, l.workers[w].id);
    FreeSlot(l, w, st);
    var l1 := Ended(l, w, st);
    DispatchKeeps(l1, job.project);
    QueuesHead(l1, job.project);
    var s' := AfterFinish(s, l, w, outcome, saved);
    EndedRecords(s, l, w, outcome, saved);
    LaunchRecords(s', l1, job.project);
    SaveFiles(s, s', l.workers[w].id, job.(status := outcome));
  }

  lemma EndedRecords(s: State, l: Life, w: nat, outcome: Status, saved: bool)
    requires RecordsOk(s, l) && SlotsOk(l) && AtPhase(l, w, false) && Terminal(outcome)
    ensures RecordsOk(AfterFinish(s, l, w, outcome, saved), Ended(l, w, if saved then outcome else Failed))
  {
    var id := l.workers[w].id;
    var s' := AfterFinish(s, l, w, outcome, saved);
    var l' := Ended(l, w, if saved then outcome else Failed);
    assert WorkerOk(s, l, w) && RecordOk(s, l, id);
    forall i | i in l'.core.jobs ensures RecordOk(s', l', i) { assert RecordOk(s, l, i); }
    forall x | x in l'.workers
      ensures l'.workers[x].id in l'.core.jobs && WorkerOk(s', l', x)
    {
      assert WorkerOk(s, l, x) && l.workers[x].id != id;
    }
    forall c | c in l'.copies ensures CopyOk(l', c) { assert CopyOk(l, c); }
  }

  /** Only the copies on their way to disk differ. */
  lemma SameLife(l: Life, l': Life)
    requires LifeInv(l) && l' == l.(copies := l'.copies)
    ensures LifeInv(l')
  {
    forall x | x in l'.workers ensures HasSlot(l', x) { assert HasSlot(l, x); }
    forall q | q in l'.core.running ensures SlotUsed(l', q) { assert SlotUsed(l, q); }
    SameQueues(l, l');
  }

  lemma RecordInv(s: State, l: Life, id: Id)
    requires Inv(s) && s.life == Some(l)
    ensures Inv(LifeStep(s, l, Record(id)))
  {
    var s' := LifeStep(s, l, Record(id));
    SameLife(l, s'.life.value);
    CopyRecords(s, s', l, id);
    SameFiles(s, s');
  }

  lemma CopyRecords(s: State, s': State, l: Life, id: Id)
    requires RecordsOk(s, l) && s.life == Some(l) && s' == LifeStep(s, l, Record(id))
    ensures RecordsOk(s', s'.life.value)
  {
    var l' := s'.life.value;
    forall i | i in l'.core.jobs ensures RecordOk(s', l', i) { assert RecordOk(s, l, i); }
    forall w | w in l'.workers ensures WorkerOk(s', l', w) { assert WorkerOk(s, l, w); }
    forall c | c in l'.copies ensures CopyOk(l', c) { assert c in l.copies ==> CopyOk(l, c); }
  }

  lemma FlushInv(s: State, l: Life, id: Id, copy: Job)
    requires Inv(s) && s.life == Some(l) && (id, copy) in l.copies
    ensures Inv(s.(disk := s.disk[id := copy]))
  {
    var s' := s.(disk := s.disk[id := copy]);
    assert CopyOk(l, (id, copy)) && JobOk(l, id) && RecordOk(s, l, id);
    forall i | i in l.core.jobs ensures RecordOk(s', l, i) { assert RecordOk(s, l, i); }
    forall w | w in l.workers ensures WorkerOk(s', l, w) { assert WorkerOk(s, l, w); }
    forall i | i in s'.invoked ensures InvokedOk(s', i) { assert InvokedOk(s, i); }
  }

  // ---------------------------------------------------------------- reload

  lemma {:induction false} LoadQueueHas(disk: map<Id, Job>, files: seq<Id>, p: Project)
    requires forall id | id in files :: id in disk
    ensures forall id :: id in LoadQueue(disk, files, p) <==> id in files && disk[id].project == p && disk[id].status == Queued
  {
    if files != [] {
      LoadQueueHas(disk, files[1..], p);
      assert files == [files[0]] + files[1..];
    }
  }

  lemma {:induction false} LoadQueueSnoc(disk: map<Id, Job>, files: seq<Id>, x: Id, p: Project)
    requires forall id | id in files + [x] :: id in disk
    ensures forall id | id in files :: id in disk
    ensures LoadQueue(disk, files + [x], p)
      == LoadQueue(disk, files, p) + if disk[x].project == p && disk[x].status == Queued then [x] else []
  {
    assert forall id | id in files :: id in files + [x];
    if files == [] {
      assert files + [x] == [x];
    } else {
      assert (files + [x])[1..] == files[1..] + [x];
      assert forall id | id in files[1..] + [x] :: id in files + [x];
      LoadQueueSnoc(disk, files[1..], x, p);
    }
  }

  /** The jobs of the list stand at rising positions below n. */
  predicate InFileOrder(files: seq<Id>, q: seq<Id>, n: nat) {
    && (forall i | 0 <= i < |q| :: q[i] in files && Position(files, q[i]) < n)
    && (forall i, j | 0 <= i < j < |q| :: Position(files, q[i]) < Position(files, q[j]))
  }

  lemma InFileOrderSnoc(files: seq<Id>, q: seq<Id>, n: nat)
    requires n < |files| && InFileOrder(files, q, n) && Position(files, files[n]) == n
    ensures InFileOrder(files, q, n + 1) && InFileOrder(files, q + [files[n]], n + 1)
  {}

  lemma {:induction false} LoadQueueRises(disk: map<Id, Job>, files: seq<Id>, p: Project, n: nat)
    requires Lists(files, disk) && n <= |files|
    ensures InFileOrder(files, LoadQueue(disk, files[..n], p), n)
  {
    if n > 0 {
      var front, x := files[..n - 1], files[n - 1];
      LoadQueueRises(disk, files, p, n - 1);
      assert files[..n] == front + [x];
      LoadQueueSnoc(disk, front, x, p);
      InFileOrderSnoc(files, LoadQueue(disk, front, p), n - 1);
    }
  }

  lemma LoadQueueIncreasing(disk: map<Id, Job>, files: seq<Id>, p: Project)
    requires Lists(files, disk)
    ensures Increasing(map id | id in disk :: Position(files, id), LoadQueue(disk, files, p))
  {
    LoadQueueRises(disk, files, p, |files|);
    assert files[..|files|] == files;
  }

  /** What load has put into memory after n files. */
  ghost predicate HoldsLoaded(c: Core, disk: map<Id, Job>, files: seq<Id>)
    requires forall id | id in files :: id in disk
  {
    && c.runners == {} && c.running == map[]
    && (forall id :: id in c.jobs <==> id in files)
    && (forall id | id in c.jobs :: c.jobs[id] == Managed(disk[id], false))
    && (forall p :: Queue(c, p) == LoadQueue(disk, files, p) && (p in c.queues <==> LoadQueue(disk, files, p) != []))
  }

  lemma AddKeepsLoaded(c: Core, disk: map<Id, Job>, files: seq<Id>, x: Id)
    requires (forall id | id in files + [x] :: id in disk) && (forall id | id in files :: id in disk)
    requires HoldsLoaded(c, disk, files)
    ensures HoldsLoaded(AddLoaded(c, x, disk[x]), disk, files + [x])
  {
    var c' := AddLoaded(c, x, disk[x]);
    forall p
      ensures Queue(c', p) == LoadQueue(disk, files + [x], p) && (p in c'.queues <==> LoadQueue(disk, files + [x], p) != [])
    {
      LoadQueueSnoc(disk, files, x, p);
      assert Queue(c, p) == LoadQueue(disk, files, p);
    }
  }

  lemma {:induction false} LoadedCoreHolds(disk: map<Id, Job>, files: seq<Id>, n: nat)
    requires n <= |files| && forall id | id in files :: id in disk
    ensures forall id | id in files[..n] :: id in disk
    ensures HoldsLoaded(LoadedCore(disk, files, n), disk, files[..n])
  {
    if n > 0 {
      var front, x := files[..n - 1], files[n - 1];
      LoadedCoreHolds(disk, files, n - 1);
      assert files[..n] == front + [x];
      AddKeepsLoaded(LoadedCore(disk, files, n - 1), disk, front, x);
    } else {
      assert files[..0] == [];
    }
  }

  /** What load has put into memory at its end. */
  lemma LoadedHolds(disk: map<Id, Job>, files: seq<Id>)
    requires Lists(files, disk)
    ensures HoldsLoaded(LoadedLife(disk, files).core, disk, files)
  {
    LoadedCoreHolds(disk, files, |files|);
    assert files[..|files|] == files;
  }

  lemma LoadedQueue(disk: map<Id, Job>, files: seq<Id>, p: Project)
    requires Lists(files, disk)
    ensures var l := LoadedLife(disk, files);
      Queue(l.core, p) == LoadQueue(disk, files, p) && QueueOk(l, p) && NoIdleQueue(l, p)
  {
    var l := LoadedLife(disk, files);
    LoadQueueHas(disk, files, p);
    var q := LoadQueue(disk, files, p);
    if q != [] {
      assert q[0] in q;
      assert disk[q[0]].project == p;
    }
    LoadedHolds(disk, files);
    LoadQueueIncreasing(disk, files, p);
    assert Queue(l.core, p) == q && Log(l, p) + q == q;
  }

  lemma LoadedLifeInv(disk: map<Id, Job>, files: seq<Id>)
    requires Lists(files, disk) && (forall id | id in disk :: disk[id].project != "")
    requires forall id | id in disk :: disk[id].status == Queued ==> !disk[id].started
    ensures LifeInv(LoadedLife(disk, files))
  {
    var l := LoadedLife(disk, files);
    LoadedHolds(disk, files);
    forall p: Project
      ensures QueueOk(l, p) && NoIdleQueue(l, p)
    {
      LoadedQueue(disk, files, p);
    }
    forall id | id in l.core.jobs
      ensures JobOk(l, id)
    {
      LoadedQueue(disk, files, disk[id].project);
      LoadQueueHas(disk, files, disk[id].project);
    }
  }

  lemma BootInv(s: State, files: seq<Id>, failAt: nat)
    requires Inv(s) && s.life.None? && Lists(files, s.disk)
    ensures Inv(AfterBoot(s, files, failAt))
  {
    var s' := AfterBoot(s, files, failAt);
    forall i | i in s'.invoked ensures InvokedOk(s', i) { assert InvokedOk(s, i); }
    if s'.life.Some? {
      assert files[..|files|] == files;
      assert Lists(files, s'.disk);
      LoadedLifeInv(s'.disk, files);
      LoadedHolds(s'.disk, files);
      forall id | id in s'.life.value.core.jobs
        ensures RecordOk(s', s'.life.value, id)
      {
        assert id in s'.invoked ==> InvokedOk(s', id);
      }
    }
  }

  // ---------------------------------------------------------------- every run

  lemma LifeStepInv(s: State, l: Life, step: Step)
    requires Inv(s) && s.life == Some(l) && !step.Boot? && !step.Crash?
    ensures Inv(LifeStep(s, l, step))
  {
    match step
    case Register(p) => RegisterInv(s, l, p);
    case Start(p, hasPrompt, tries, saved) =>
      var id := PickID(l.core.jobs.Keys + s.disk.Keys, tries, 16);
      if p != "" && hasPrompt && p in l.core.runners && id.Some? && saved { StartInv(s, l, p, id.value); }
    case Cancel(id, saved) =>
      if id in l.core.jobs && !Terminal(l.core.jobs[id].job.status) { CancelInv(s, l, id, saved); }
    case Begin(w) => if AtPhase(l, w, true) { BeginInv(s, l, w); }
    case Persist(w, saved) => if AtPhase(l, w, false) && l.workers[w].phase.Persisting? { MoveInv(s, l, w, step); }
    case Invoke(w) => if AtPhase(l, w, false) && l.workers[w].phase.Saved? { MoveInv(s, l, w, step); }
    case Finish(w, outcome, saved) =>
      if AtPhase(l, w, false) && l.workers[w].phase.Executing? && Terminal(outcome) && !outcome.Orphaned? {
        FinishInv(s, l, w, outcome, saved);
      } else if AtPhase(l, w, false) && l.workers[w].phase.Refused? {
        FinishInv(s, l, w, Failed, saved);
      }
    case Record(id) => RecordInv(s, l, id);
    case Flush(id, copy) => if (id, copy) in l.copies { FlushInv(s, l, id, copy); }
  }

  lemma StepInv(s: State, step: Step)
    requires Inv(s)
    ensures Inv(Apply(s, step))
  {
    if step.Boot? {
      if s.life.None? && Lists(step.files, s.disk) { BootInv(s, step.files, step.failAt); }
    } else if s.life.Some? && !step.Crash? {
      LifeStepInv(s, s.life.value, step);
    }
  }

  lemma {:induction false} RunInv(s: State, steps: seq<Step>)
    requires Inv(s)
    ensures Inv(Run(s, steps))
  {
    if steps != [] {
      RunInv(s, steps[..|steps| - 1]);
      StepInv(Run(s, steps[..|steps| - 1]), steps[|steps| - 1]);
    }
  }

  /** States the program can be in, over any number of process lives. */
  ghost predicate Reachable(s: State) {
    exists steps: seq<Step> :: s == Run(INIT, steps)
  }

  lemma ReachableInv(s: State)
    requires Reachable(s)
    ensures Inv(s)
  {
    var steps: seq<Step> :| s == Run(INIT, steps);
    RunInv(INIT, steps);
  }
}
