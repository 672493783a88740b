/** The cron scheduler (core/cron.go): the job store and the table of live cron entries that
    indexes it. The cron library is an abstract table of entries with fresh IDs; which cron
    expressions it parses is the parameter `parses`. */
module CronScheduler {
  import opened Text
  import LoopInterval

  type Id = string

  /** CronJob; `rest` stands for the fields that nothing here looks at. */
  datatype Job = Job(id: Id, kind: string, cronExpr: string, loopInterval: string, enabled: bool,
                     prompt: string, exec: string, sessionMode: string, timeoutMins: Option<int>, rest: string)

  /** What the cron library is given to schedule. */
  datatype Spec = Cron(expr: string) | Every(nanos: int)

  /** NormalizeCronJobKind. */
  function NormalKind(kind: string): string {
    var k := LoopInterval.Lower(Trim(kind));
    if k == "" then "cron" else k
  }

  /** NormalizeCronSessionMode. */
  function NormalMode(mode: string): string {
    var m := LoopInterval.Lower(Trim(mode));
    if m == "" || m == "reuse" then "" else if m == "new_per_run" || m == "new-per-run" then "new_per_run" else m
  }

  predicate IsLoop(j: Job) { NormalKind(j.kind) == "loop" }

  /** ScheduleSpec, and whether the library takes it: the spec that AddFunc schedules, or None. */
  function SpecOf(j: Job, parses: string -> bool): Option<Spec> {
    if IsLoop(j) then
      match LoopInterval.Parse(j.loopInterval)
      case None => None
      case Some(i) => Some(Every(i.nanos))
    else if parses(j.cronExpr) then Some(Cron(j.cronExpr))
    else None
  }

  /** validateCronJob: the job with its kind and interval normalized, or None for its errors. */
  function Validate(j: Job): Option<Job> {
    var kind, mode := NormalKind(j.kind), NormalMode(j.sessionMode);
    if kind != "cron" && kind != "loop" then None
    else if mode != "" && mode != "new_per_run" then None
    else if j.timeoutMins.Some? && j.timeoutMins.value < 0 then None
    else if kind == "loop" then
      (if Trim(j.exec) != "" || Trim(j.prompt) == "" then None
       else match LoopInterval.Parse(j.loopInterval)
         case None => None
         case Some(i) => Some(j.(kind := kind, loopInterval := LoopInterval.Normal(i))))
    else Some(j.(kind := kind))
  }

  /** What AddJob stores for a job, or None when it refuses it. */
  function Accepted(j: Job, parses: string -> bool): Option<Job> {
    match Validate(j)
    case None => None
    case Some(v) =>
      if !IsLoop(v) && !parses(v.cronExpr) then None else Some(v.(sessionMode := NormalMode(v.sessionMode)))
  }

  // ---------------------------------------------------------------- the store

  /** Get. */
  function Find(jobs: seq<Job>, id: Id): Option<Job> {
    if jobs == [] then None else if jobs[0].id == id then Some(jobs[0]) else Find(jobs[1..], id)
  }

  /** The jobs with the first one of this ID changed. */
  function Put(jobs: seq<Job>, id: Id, j: Job): seq<Job> {
    if jobs == [] then [] else if jobs[0].id == id then [j] + jobs[1..] else [jobs[0]] + Put(jobs[1..], id, j)
  }

  /** The jobs without the first one of this ID. */
  function Drop(jobs: seq<Job>, id: Id): seq<Job> {
    if jobs == [] then [] else if jobs[0].id == id then jobs[1..] else [jobs[0]] + Drop(jobs[1..], id)
  }

  ghost predicate UniqueIds(jobs: seq<Job>) {
    forall i, j | 0 <= i < j < |jobs| :: jobs[i].id != jobs[j].id
  }

  /** The field a job update names, with its value; Wrong for an unknown field or a value of the wrong type. */
  datatype Field =
    | CronExpr(expr: string) | Interval(interval: string) | Enabled(on: bool)
    | Prompt(prompt: string) | Exec(exec: string) | SessionMode(mode: string) | Timeout(mins: int)
    | Rest(rest: string) | Wrong

  /** updateCronJobField. */
  function SetField(j: Job, f: Field): Option<Job> {
    match f
    case CronExpr(v) => Some(j.(cronExpr := v))
    case Interval(v) => Some(j.(loopInterval := v))
    case Enabled(v) => Some(j.(enabled := v))
    case Prompt(v) => Some(j.(prompt := v))
    case Exec(v) => Some(j.(exec := v))
    case SessionMode(v) => Some(j.(sessionMode := NormalMode(v)))
    case Timeout(v) => Some(j.(timeoutMins := Some(v)))
    case Rest(v) => Some(j.(rest := v))
    case Wrong => None
  }

  // ---------------------------------------------------------------- the scheduler

  /** A live entry of the cron library: the job it runs and when. */
  datatype Live = Live(job: Id, spec: Spec)

  /** The store's jobs, the scheduler's entries, the library's live entries and its next ID. */
  datatype State = State(jobs: seq<Job>, entries: map<Id, nat>, cron: map<nat, Live>, next: nat)

  /** The entry of a job is taken out of both tables. */
  function Unschedule(s: State, id: Id): State {
    if id in s.entries then s.(entries := s.entries - {id}, cron := s.cron - {s.entries[id]}) else s
  }

  /** scheduleJob. When the library refuses the spec the old entry is gone but still listed. */
  function Schedule(s: State, j: Job, parses: string -> bool): State {
    var cron := if j.id in s.entries then s.cron - {s.entries[j.id]} else s.cron;
    match SpecOf(j, parses)
    case None => s.(cron := cron)
    case Some(spec) => s.(entries := s.entries[j.id := s.next], cron := cron[s.next := Live(j.id, spec)], next := s.next + 1)
  }

  /** Start on the jobs that were loaded. */
  function ScheduleAll(s: State, jobs: seq<Job>, parses: string -> bool): State {
    if jobs == [] then s
    else
      var before := ScheduleAll(s, jobs[..|jobs| - 1], parses);
      if jobs[|jobs| - 1].enabled then Schedule(before, jobs[|jobs| - 1], parses) else before
  }

  function Started(jobs: seq<Job>, parses: string -> bool): State {
    ScheduleAll(State(jobs, map[], map[], 1), jobs, parses)
  }

  datatype Step =
    | Add(job: Job, saved: bool)
    | Remove(id: Id)
    | Enable(id: Id)
    | Disable(id: Id)
    | Update(id: Id, field: Field)

  /** UpdateJob refuses a schedule it cannot parse, even one the job does not use. */
  predicate Refuses(j: Job, f: Field, parses: string -> bool) {
    || (f.CronExpr? && !IsLoop(j) && !parses(f.expr))
    || (f.Interval? && LoopInterval.Parse(f.interval).None?)
  }

  predicate Reschedules(f: Field) { f.CronExpr? || f.Interval? || f.Enabled? }

  /** The job UpdateJob stores, or None when it refuses. */
  function Updated(j: Job, f: Field, parses: string -> bool): Option<Job> {
    if Refuses(j, f, parses) || SetField(j, f).None? || Validate(SetField(j, f).value).None? then None else SetField(j, f)
  }

  function AfterUpdate(s: State, id: Id, f: Field, parses: string -> bool): State {
    if Find(s.jobs, id).None? || Updated(Find(s.jobs, id).value, f, parses).None? then s
    else
      var j := Updated(Find(s.jobs, id).value, f, parses).value;
      var s1 := if Reschedules(f) then Unschedule(s, id) else s;
      var s2 := s1.(jobs := Put(s.jobs, id, j));
      if Reschedules(f) && j.enabled then Schedule(s2, j, parses) else s2
  }

  function Apply(s: State, step: Step, parses: string -> bool): State {
    match step
    case Add(job, saved) =>
      (match Accepted(job, parses)
       case None => s
       case Some(j) =>
         var s1 := s.(jobs := s.jobs + [j]);
         if saved && j.enabled then Schedule(s1, j, parses) else s1)
    case Remove(id) => Unschedule(s, id).(jobs := Drop(s.jobs, id))
    case Enable(id) =>
      (match Find(s.jobs, id)
       case None => s
       case Some(j) => Schedule(s.(jobs := Put(s.jobs, id, j.(enabled := true))), j.(enabled := true), parses))
    case Disable(id) =>
      (match Find(s.jobs, id)
       case None => s
       case Some(j) => Unschedule(s.(jobs := Put(s.jobs, id, j.(enabled := false))), id))
    case Update(id, f) => AfterUpdate(s, id, f, parses)
  }

  function Run(jobs: seq<Job>, steps: seq<Step>, parses: string -> bool): State {
    if steps == [] then Started(jobs, parses)
    else Apply(Run(jobs, steps[..|steps| - 1], parses), steps[|steps| - 1], parses)
  }

  // ---------------------------------------------------------------- the index

  /** What the entry of an ID should be: an enabled job's spec, or nothing. */
  function Wanted(jobs: seq<Job>, id: Id, parses: string -> bool): Option<Spec> {
    match Find(jobs, id)
    case None => None
    case Some(j) => if j.enabled then SpecOf(j, parses) else None
  }

  /** The spec of the live entry that the scheduler lists for an ID. */
  function Listed(s: State, id: Id): Option<Spec> {
    if id in s.entries && s.entries[id] in s.cron then Some(s.cron[s.entries[id]].spec) else None
  }

  /** The live entries are those listed, one for each listed ID. */
  ghost predicate TablesOk(s: State) {
    && (forall id | id in s.entries :: s.entries[id] in s.cron && s.cron[s.entries[id]].job == id)
    && (forall e | e in s.cron :: e < s.next && s.cron[e].job in s.entries && s.entries[s.cron[e].job] == e)
  }

  /** The entry table is an exact index of the store. */
  ghost predicate Indexed(s: State, parses: string -> bool) {
    TablesOk(s) && forall id :: Listed(s, id) == Wanted(s.jobs, id, parses)
  }

  // ---------------------------------------------------------------- the store's jobs

  lemma {:induction false} FindAppend(jobs: seq<Job>, j: Job, id: Id)
    ensures Find(jobs + [j], id) == if Find(jobs, id).Some? then Find(jobs, id) else if j.id == id then Some(j) else None
  {
    if jobs == [] {
      assert [j][1..] == [];
    } else {
      FindAppend(jobs[1..], j, id);
      assert (jobs + [j])[1..] == jobs[1..] + [j];
    }
  }

  lemma {:induction false} FindPut(jobs: seq<Job>, id: Id, j: Job, k: Id)
    requires j.id == id
    ensures Find(Put(jobs, id, j), k) == if k == id && Find(jobs, id).Some? then Some(j) else Find(jobs, k)
  {
    if jobs != [] { FindPut(jobs[1..], id, j, k); }
  }

  lemma {:induction false} FindNone(jobs: seq<Job>, id: Id)
    ensures Find(jobs, id).None? <==> forall i | 0 <= i < |jobs| :: jobs[i].id != id
  {
    if jobs != [] {
      FindNone(jobs[1..], id);
      assert forall i | 0 < i < |jobs| :: jobs[i] == jobs[1..][i - 1];
    }
  }

  lemma {:induction false} FindDrop(jobs: seq<Job>, id: Id, k: Id)
    requires UniqueIds(jobs)
    ensures Find(Drop(jobs, id), k) == if k == id then None else Find(jobs, k)
  {
    if jobs != [] {
      if jobs[0].id == id { FindNone(jobs[1..], id); } else { FindDrop(jobs[1..], id, k); }
    }
  }

  lemma {:induction false} FoundId(jobs: seq<Job>, id: Id)
    ensures Find(jobs, id).Some? ==> Find(jobs, id).value.id == id
  {
    if jobs != [] { FoundId(jobs[1..], id); }
  }

  lemma {:induction false} PutIds(jobs: seq<Job>, id: Id, j: Job)
    requires j.id == id
    ensures |Put(jobs, id, j)| == |jobs| && forall i | 0 <= i < |jobs| :: Put(jobs, id, j)[i].id == jobs[i].id
  {
    if jobs != [] { PutIds(jobs[1..], id, j); }
  }

  lemma {:induction false} DropMembers(jobs: seq<Job>, id: Id)
    ensures forall j | j in Drop(jobs, id) :: j in jobs
  {
    if jobs != [] && jobs[0].id != id { DropMembers(jobs[1..], id); }
  }

  lemma {:induction false} DropIds(jobs: seq<Job>, id: Id)
    requires UniqueIds(jobs)
    ensures UniqueIds(Drop(jobs, id))
  {
    if jobs != [] {
      var rest, d := jobs[1..], Drop(jobs[1..], id);
      assert forall i | 0 <= i < |rest| :: rest[i] == jobs[i + 1];
      if jobs[0].id != id {
        DropIds(rest, id);
        DropMembers(rest, id);
        forall i | 0 <= i < |d| ensures d[i].id != jobs[0].id { assert d[i] in rest; }
      }
    }
  }

  // ---------------------------------------------------------------- the two tables

  lemma UnscheduleTables(s: State, id: Id)
    requires TablesOk(s)
    ensures TablesOk(Unschedule(s, id))
    ensures forall k :: Listed(Unschedule(s, id), k) == if k == id then None else Listed(s, k)
  {}

  /** Scheduling lists exactly the job's spec; a spec the library refuses does no harm when
      nothing was listed. */
  lemma ScheduleTables(s: State, j: Job, parses: string -> bool)
    requires TablesOk(s) && (SpecOf(j, parses).Some? || j.id !in s.entries)
    ensures TablesOk(Schedule(s, j, parses))
    ensures forall k :: Listed(Schedule(s, j, parses), k) == if k == j.id then SpecOf(j, parses) else Listed(s, k)
  {}

  /** Other fields than the schedule and the switch do not change what is wanted. */
  lemma SameSpec(j: Job, f: Field, parses: string -> bool)
    requires SetField(j, f).Some?
    ensures var j' := SetField(j, f).value;
      j'.id == j.id && (!Reschedules(f) ==> j'.enabled == j.enabled && SpecOf(j', parses) == SpecOf(j, parses))
  {}

  // ---------------------------------------------------------------- the steps keep the index

  ghost predicate Inv(s: State, parses: string -> bool) { UniqueIds(s.jobs) && Indexed(s, parses) }

  /** A job that the library would refuse is not listed. */
  lemma RefusedNotListed(s: State, id: Id, parses: string -> bool)
    requires Indexed(s, parses) && Wanted(s.jobs, id, parses).None?
    ensures id !in s.entries
  {
    assert Listed(s, id) == None;
  }

  lemma WantedAppend(jobs: seq<Job>, j: Job, k: Id, parses: string -> bool)
    requires Find(jobs, j.id).None?
    ensures Wanted(jobs + [j], k, parses) ==
      if k == j.id then (if j.enabled then SpecOf(j, parses) else None) else Wanted(jobs, k, parses)
  {
    FindAppend(jobs, j, k);
    FoundId(jobs, k);
  }

  lemma AppendUnique(jobs: seq<Job>, j: Job)
    requires UniqueIds(jobs) && Find(jobs, j.id).None?
    ensures UniqueIds(jobs + [j])
  {
    FindNone(jobs, j.id);
  }

  /** After a job with a new ID was stored, the index is kept exactly when the job is
      scheduled if it is enabled. */
  lemma StoredKeepsIndex(s: State, j: Job, scheduled: bool, parses: string -> bool)
    requires Indexed(s, parses) && Find(s.jobs, j.id).None? && SpecOf(j, parses).Some?
    ensures var s1 := s.(jobs := s.jobs + [j]);
      Indexed(if scheduled then Schedule(s1, j, parses) else s1, parses) <==> scheduled == j.enabled
  {
    var s1 := s.(jobs := s.jobs + [j]);
    var s' := if scheduled then Schedule(s1, j, parses) else s1;
    RefusedNotListed(s, j.id, parses);
    if scheduled { ScheduleTables(s1, j, parses); }
    forall k ensures Wanted(s'.jobs, k, parses) ==
      if k == j.id then (if j.enabled then SpecOf(j, parses) else None) else Wanted(s.jobs, k, parses)
    {
      WantedAppend(s.jobs, j, k, parses);
    }
    assert forall k :: Listed(s1, k) == Listed(s, k);
    assert Listed(s', j.id) == if scheduled then SpecOf(j, parses) else None;
  }

  lemma AddKeepsInv(s: State, job: Job, saved: bool, parses: string -> bool)
    requires Inv(s, parses) && Accepted(job, parses).Some? && Find(s.jobs, job.id).None?
    ensures var s' := Apply(s, Add(job, saved), parses);
      UniqueIds(s'.jobs) && (Indexed(s', parses) <==> saved || !job.enabled)
  {
    AcceptedHasSpec(job, parses);
    AppendUnique(s.jobs, Accepted(job, parses).value);
    StoredKeepsIndex(s, Accepted(job, parses).value, saved && job.enabled, parses);
  }

  /** A job that AddJob accepts has the ID and switch it came with, and a spec the library takes. */
  lemma AcceptedHasSpec(job: Job, parses: string -> bool)
    ensures Accepted(job, parses).Some? ==>
      var j := Accepted(job, parses).value;
      j.id == job.id && j.enabled == job.enabled && SpecOf(j, parses).Some?
  {
    if Accepted(job, parses).Some? {
      KindIsStable(job.kind);
      if NormalKind(job.kind) == "loop" { LoopInterval.NormalIsStable(job.loopInterval); }
    }
  }

  lemma KindIsStable(kind: string)
    requires NormalKind(kind) == "cron" || NormalKind(kind) == "loop"
    ensures NormalKind(NormalKind(kind)) == NormalKind(kind)
  {
    var k := NormalKind(kind);
    TrimOfTrimmed(k);
    assert LoopInterval.Lower(k) == k;
  }

  lemma RemoveKeepsInv(s: State, id: Id, parses: string -> bool)
    requires Inv(s, parses)
    ensures Inv(Apply(s, Remove(id), parses), parses)
  {
    var s1, s' := Unschedule(s, id), Apply(s, Remove(id), parses);
    UnscheduleTables(s, id);
    DropIds(s.jobs, id);
    forall k ensures Listed(s', k) == Wanted(s'.jobs, k, parses) {
      FindDrop(s.jobs, id, k);
      assert Listed(s', k) == Listed(s1, k);
    }
  }

  /** Changing a job's entry to what it now wants, and only that, keeps the index. */
  lemma PutKeepsInv(s: State, s': State, id: Id, j: Job, parses: string -> bool)
    requires Inv(s, parses) && Find(s.jobs, id).Some? && j.id == id
    requires TablesOk(s') && s'.jobs == Put(s.jobs, id, j)
    requires forall k | k != id :: Listed(s', k) == Listed(s, k)
    requires Listed(s', id) == if j.enabled then SpecOf(j, parses) else None
    ensures Inv(s', parses)
  {
    PutIds(s.jobs, id, j);
    forall k ensures Listed(s', k) == Wanted(s'.jobs, k, parses) {
      FindPut(s.jobs, id, j, k);
      assert k != id ==> Listed(s, k) == Wanted(s.jobs, k, parses);
    }
  }

  lemma ToggleKeepsInv(s: State, id: Id, on: bool, parses: string -> bool)
    requires Inv(s, parses)
    ensures Inv(Apply(s, if on then Enable(id) else Disable(id), parses), parses)
  {
    if Find(s.jobs, id).Some? {
      var j := Find(s.jobs, id).value.(enabled := on);
      FoundId(s.jobs, id);
      var s1 := s.(jobs := Put(s.jobs, id, j));
      assert forall k :: Listed(s1, k) == Listed(s, k);
      if on {
        if SpecOf(j, parses).None? { RefusedNotListed(s, id, parses); }
        ScheduleTables(s1, j, parses);
        PutKeepsInv(s, Schedule(s1, j, parses), id, j, parses);
      } else {
        UnscheduleTables(s1, id);
        PutKeepsInv(s, Unschedule(s1, id), id, j, parses);
      }
    }
  }

  lemma UpdateKeepsInv(s: State, id: Id, f: Field, parses: string -> bool)
    requires Inv(s, parses)
    ensures Inv(AfterUpdate(s, id, f, parses), parses)
  {
    if Find(s.jobs, id).Some? && Updated(Find(s.jobs, id).value, f, parses).Some? {
      var was := Find(s.jobs, id).value;
      FoundId(s.jobs, id);
      SameSpec(was, f, parses);
      if Reschedules(f) {
        RescheduleKeepsInv(s, id, SetField(was, f).value, parses);
      } else {
        StoreKeepsInv(s, id, SetField(was, f).value, parses);
      }
    }
  }

  /** Taking out the entry, storing the changed job and scheduling it if it is enabled. */
  lemma RescheduleKeepsInv(s: State, id: Id, j: Job, parses: string -> bool)
    requires Inv(s, parses) && Find(s.jobs, id).Some? && j.id == id
    ensures var s2 := Unschedule(s, id).(jobs := Put(s.jobs, id, j));
      Inv(if j.enabled then Schedule(s2, j, parses) else s2, parses)
  {
    var s1, s2 := Unschedule(s, id), Unschedule(s, id).(jobs := Put(s.jobs, id, j));
    UnscheduleTables(s, id);
    assert forall k :: Listed(s2, k) == Listed(s1, k);
    if j.enabled { ScheduleTables(s2, j, parses); }
    PutKeepsInv(s, if j.enabled then Schedule(s2, j, parses) else s2, id, j, parses);
  }

  /** Storing a job that wants what it wanted before. */
  lemma StoreKeepsInv(s: State, id: Id, j: Job, parses: string -> bool)
    requires Inv(s, parses) && Find(s.jobs, id).Some? && j.id == id
    requires j.enabled == Find(s.jobs, id).value.enabled && SpecOf(j, parses) == SpecOf(Find(s.jobs, id).value, parses)
    ensures Inv(s.(jobs := Put(s.jobs, id, j)), parses)
  {
    var s2 := s.(jobs := Put(s.jobs, id, j));
    assert forall k :: Listed(s2, k) == Listed(s, k);
    assert Listed(s, id) == Wanted(s.jobs, id, parses);
    PutKeepsInv(s, s2, id, j, parses);
  }

  /** An added job has a new ID, and it is disabled or the store could be saved. */
  predicate GoodStep(s: State, step: Step) {
    step.Add? ==> Find(s.jobs, step.job.id).None? && (step.saved || !step.job.enabled)
  }

  ghost predicate GoodSteps(jobs: seq<Job>, steps: seq<Step>, parses: string -> bool) {
    forall i | 0 <= i < |steps| :: GoodStep(Run(jobs, steps[..i], parses), steps[i])
  }

  lemma StepKeepsInv(s: State, step: Step, parses: string -> bool)
    requires Inv(s, parses) && GoodStep(s, step)
    ensures Inv(Apply(s, step, parses), parses)
  {
    match step
    case Add(job, saved) => if Accepted(job, parses).Some? { AddKeepsInv(s, job, saved, parses); }
    case Remove(id) => RemoveKeepsInv(s, id, parses);
    case Enable(id) => ToggleKeepsInv(s, id, true, parses);
    case Disable(id) => ToggleKeepsInv(s, id, false, parses);
    case Update(id, f) => UpdateKeepsInv(s, id, f, parses);
  }

  lemma {:induction false} ScheduleAllIndexes(all: seq<Job>, n: nat, parses: string -> bool)
    requires n <= |all| && UniqueIds(all)
    ensures var s := ScheduleAll(State(all, map[], map[], 1), all[..n], parses);
      && s.jobs == all && TablesOk(s)
      && (forall k :: Listed(s, k) == Wanted(all[..n], k, parses))
  {
    if n > 0 {
      var s0, j := State(all, map[], map[], 1), all[n - 1];
      var s := ScheduleAll(s0, all[..n - 1], parses);
      ScheduleAllIndexes(all, n - 1, parses);
      assert all[..n][..n - 1] == all[..n - 1] && all[..n] == all[..n - 1] + [j];
      FindNone(all[..n - 1], j.id);
      forall k ensures Wanted(all[..n], k, parses) ==
        if k == j.id then (if j.enabled then SpecOf(j, parses) else None) else Wanted(all[..n - 1], k, parses)
      {
        FindAppend(all[..n - 1], j, k);
        FoundId(all[..n - 1], k);
      }
      assert Listed(s, j.id) == None;
      if j.enabled { ScheduleTables(s, j, parses); }
    }
  }

  lemma {:induction false} RunInv(jobs: seq<Job>, steps: seq<Step>, parses: string -> bool)
    requires UniqueIds(jobs) && GoodSteps(jobs, steps, parses)
    ensures Inv(Run(jobs, steps, parses), parses)
  {
    if steps == [] {
      ScheduleAllIndexes(jobs, |jobs|, parses);
      assert jobs[..|jobs|] == jobs;
    } else {
      var front := steps[..|steps| - 1];
      assert forall i | 0 <= i < |front| :: front[..i] == steps[..i] && front[i] == steps[i];
      RunInv(jobs, front, parses);
      StepKeepsInv(Run(jobs, front, parses), steps[|steps| - 1], parses);
    }
  }

  /** After Start and any such steps, on any loaded jobs with distinct IDs: a job is listed
      exactly when it exists, is enabled and has a schedule the library takes; its one live
      entry has the job's current schedule; and there are no other live entries. */
  lemma {:induction false} EntriesIndexTheStore(jobs: seq<Job>, steps: seq<Step>, parses: string -> bool, id: Id)
    requires UniqueIds(jobs) && GoodSteps(jobs, steps, parses)
    ensures var s := Run(jobs, steps, parses);
      var j := Find(s.jobs, id);
      && (id in s.entries <==> j.Some? && j.value.enabled && SpecOf(j.value, parses).Some?)
      && (id in s.entries ==> s.entries[id] in s.cron && Some(s.cron[s.entries[id]].spec) == SpecOf(j.value, parses))
      && (forall e | e in s.cron && s.cron[e].job == id :: id in s.entries && s.entries[id] == e)
  {
    RunInv(jobs, steps, parses);
    var s := Run(jobs, steps, parses);
    assert Listed(s, id) == Wanted(s.jobs, id, parses);
  }

  /** Every job of the store has a schedule the library takes. */
  ghost predicate Runnable(jobs: seq<Job>, parses: string -> bool) {
    forall id :: Find(jobs, id).Some? ==> SpecOf(Find(jobs, id).value, parses).Some?
  }

  lemma PutKeepsRunnable(jobs: seq<Job>, id: Id, j: Job, parses: string -> bool)
    requires Runnable(jobs, parses) && j.id == id && SpecOf(j, parses).Some?
    ensures Runnable(Put(jobs, id, j), parses)
  {
    forall k | Find(Put(jobs, id, j), k).Some? ensures SpecOf(Find(Put(jobs, id, j), k).value, parses).Some? {
      FindPut(jobs, id, j, k);
    }
  }

  lemma ChangeKeepsRunnable(jobs: seq<Job>, id: Id, f: Field, parses: string -> bool)
    requires Runnable(jobs, parses) && Find(jobs, id).Some?
    requires SetField(Find(jobs, id).value, f).Some? && !Refuses(Find(jobs, id).value, f, parses)
    ensures Runnable(Put(jobs, id, SetField(Find(jobs, id).value, f).value), parses)
  {
    FoundId(jobs, id);
    PutKeepsRunnable(jobs, id, SetField(Find(jobs, id).value, f).value, parses);
  }

  lemma AddKeepsRunnable(s: State, job: Job, saved: bool, parses: string -> bool)
    requires Runnable(s.jobs, parses)
    ensures Runnable(Apply(s, Add(job, saved), parses).jobs, parses)
  {
    if Accepted(job, parses).Some? {
      AcceptedHasSpec(job, parses);
      forall id { FindAppend(s.jobs, Accepted(job, parses).value, id); }
    }
  }

  lemma ToggleKeepsRunnable(s: State, id: Id, on: bool, parses: string -> bool)
    requires Runnable(s.jobs, parses)
    ensures Runnable(Apply(s, if on then Enable(id) else Disable(id), parses).jobs, parses)
  {
    if Find(s.jobs, id).Some? { ChangeKeepsRunnable(s.jobs, id, Enabled(on), parses); }
  }

  /** No step lets an unusable schedule into the store: AddJob and UpdateJob check it, and
      UpdateJob cannot turn a cron job into a loop job or back. */
  lemma StepKeepsRunnable(s: State, step: Step, parses: string -> bool)
    requires UniqueIds(s.jobs) && Runnable(s.jobs, parses)
    ensures Runnable(Apply(s, step, parses).jobs, parses)
  {
    match step
    case Add(job, saved) => AddKeepsRunnable(s, job, saved, parses);
    case Remove(id) => forall k { FindDrop(s.jobs, id, k); }
    case Enable(id) => ToggleKeepsRunnable(s, id, true, parses);
    case Disable(id) => ToggleKeepsRunnable(s, id, false, parses);
    case Update(id, f) =>
      if Find(s.jobs, id).Some? && Updated(Find(s.jobs, id).value, f, parses).Some? {
        ChangeKeepsRunnable(s.jobs, id, f, parses);
      }
  }

  lemma {:induction false} RunRunnable(jobs: seq<Job>, steps: seq<Step>, parses: string -> bool)
    requires UniqueIds(jobs) && GoodSteps(jobs, steps, parses) && Runnable(jobs, parses)
    ensures Runnable(Run(jobs, steps, parses).jobs, parses)
  {
    if steps == [] {
      ScheduleAllIndexes(jobs, |jobs|, parses);
      assert jobs[..|jobs|] == jobs;
    } else {
      var front := steps[..|steps| - 1];
      assert forall i | 0 <= i < |front| :: front[..i] == steps[..i] && front[i] == steps[i];
      RunInv(jobs, front, parses);
      RunRunnable(jobs, front, parses);
      StepKeepsRunnable(Run(jobs, front, parses), steps[|steps| - 1], parses);
    }
  }

  /** When every loaded job has a usable schedule, a job has a live entry exactly when it
      exists and is enabled, whatever was added, removed, toggled and updated since Start. */
  lemma EnabledIsScheduled(jobs: seq<Job>, steps: seq<Step>, parses: string -> bool, id: Id)
    requires UniqueIds(jobs) && GoodSteps(jobs, steps, parses) && Runnable(jobs, parses)
    ensures var s := Run(jobs, steps, parses);
      id in s.entries <==> Find(s.jobs, id).Some? && Find(s.jobs, id).value.enabled
  {
    EntriesIndexTheStore(jobs, steps, parses, id);
    RunRunnable(jobs, steps, parses);
  }

  /** Adding a job with a new ID breaks the index exactly when the job is accepted and enabled
      and the store cannot be saved: it then stays in the store without an entry. */
  lemma AddKeepsIndexExactly(jobs: seq<Job>, steps: seq<Step>, parses: string -> bool, job: Job, saved: bool)
    requires UniqueIds(jobs) && GoodSteps(jobs, steps, parses)
    requires Find(Run(jobs, steps, parses).jobs, job.id).None?
    ensures Indexed(Apply(Run(jobs, steps, parses), Add(job, saved), parses), parses)
      <==> saved || !job.enabled || Accepted(job, parses).None?
  {
    RunInv(jobs, steps, parses);
    if Accepted(job, parses).Some? { AddKeepsInv(Run(jobs, steps, parses), job, saved, parses); }
  }

  // ---------------------------------------------------------------- what each operation does to the jobs

  /** A kind, lower-cased and trimmed; a session mode likewise. */
  function Plain(text: string): string { LoopInterval.Lower(Trim(text)) }

  /** What AddJob and UpdateJob ask of any job: a known kind and session mode, no negative
      timeout, and of a loop job a prompt, no command, and an interval that parses. */
  predicate Sensible(j: Job) {
    && Plain(j.kind) in ["", "cron", "loop"]
    && Plain(j.sessionMode) in ["", "reuse", "new_per_run", "new-per-run"]
    && (j.timeoutMins.Some? ==> j.timeoutMins.value >= 0)
    && (Plain(j.kind) == "loop" ==> Trim(j.exec) == "" && Trim(j.prompt) != "" && LoopInterval.Parse(j.loopInterval).Some?)
  }

  lemma ValidatesSensible(j: Job)
    ensures Validate(j).Some? <==> Sensible(j)
    ensures Sensible(j) ==> (Validate(j).value ==
      if Plain(j.kind) == "loop"
      then j.(kind := "loop", loopInterval := LoopInterval.Normal(LoopInterval.Parse(j.loopInterval).value))
      else j.(kind := "cron"))
  {}

  /** The mode that is stored for a sensible session mode. */
  function StoredMode(mode: string): string { if Plain(mode) in ["", "reuse"] then "" else "new_per_run" }

  /** A sensible job as AddJob stores it: kind, mode and interval in normal form. */
  function InNormalForm(job: Job): Job
    requires Sensible(job)
  {
    if Plain(job.kind) == "loop" then
      job.(kind := "loop", sessionMode := StoredMode(job.sessionMode),
           loopInterval := LoopInterval.Normal(LoopInterval.Parse(job.loopInterval).value))
    else job.(kind := "cron", sessionMode := StoredMode(job.sessionMode))
  }

  lemma KindsArePlain()
    ensures NormalKind("loop") == "loop" && NormalKind("cron") == "cron"
  {
    TrimOfTrimmed("loop");
    TrimOfTrimmed("cron");
    assert LoopInterval.Lower("loop") == "loop" && LoopInterval.Lower("cron") == "cron";
  }

  /** A job is accepted exactly when it is sensible and, unless it is a loop job, its cron
      expression parses. */
  lemma AcceptedExactly(job: Job, parses: string -> bool)
    ensures Accepted(job, parses) ==
      if Sensible(job) && (Plain(job.kind) == "loop" || parses(job.cronExpr)) then Some(InNormalForm(job)) else None
  {
    ValidatesSensible(job);
    KindsArePlain();
    if Sensible(job) { NormalOfPlain(job.sessionMode); }
  }

  /** An accepted job is stored last, with its kind, mode and interval in normal form and all
      else as given; a refused one changes nothing. */
  lemma AddStores(s: State, job: Job, saved: bool, parses: string -> bool)
    ensures var s' := Apply(s, Add(job, saved), parses);
      if Sensible(job) && (Plain(job.kind) == "loop" || parses(job.cronExpr)) then s'.jobs == s.jobs + [InNormalForm(job)]
      else s' == s
  {
    AcceptedExactly(job, parses);
  }

  /** The job with the named field set to the value, and all other fields as before. */
  predicate FieldSet(was: Job, now: Job, f: Field) {
    match f
    case CronExpr(v) => now.cronExpr == v && now == was.(cronExpr := now.cronExpr)
    case Interval(v) => now.loopInterval == v && now == was.(loopInterval := now.loopInterval)
    case Enabled(v) => now.enabled == v && now == was.(enabled := now.enabled)
    case Prompt(v) => now.prompt == v && now == was.(prompt := now.prompt)
    case Exec(v) => now.exec == v && now == was.(exec := now.exec)
    case SessionMode(v) => now.sessionMode == StoredMode(v) && now == was.(sessionMode := now.sessionMode)
    case Timeout(v) => now.timeoutMins == Some(v) && now == was.(timeoutMins := now.timeoutMins)
    case Rest(v) => now.rest == v && now == was.(rest := now.rest)
    case Wrong => false
  }

  /** The schedule given is one that the library, or the interval parser, takes; a loop job's cron
      expression is not looked at. */
  predicate ScheduleOk(j: Job, f: Field, parses: string -> bool) {
    && (f.CronExpr? && Plain(j.kind) != "loop" ==> parses(f.expr))
    && (f.Interval? ==> LoopInterval.Parse(f.interval).Some?)
  }

  lemma NormalOfPlain(mode: string)
    requires Plain(mode) in ["", "reuse", "new_per_run", "new-per-run"]
    ensures NormalMode(mode) == StoredMode(mode) && Plain(NormalMode(mode)) in ["", "new_per_run"]
  {
    TrimOfTrimmed("new_per_run");
    assert Plain("new_per_run") == "new_per_run";
    assert Plain("") == "";
  }

  lemma UpdatedExactly(was: Job, now: Job, f: Field, parses: string -> bool)
    requires FieldSet(was, now, f)
    requires f.SessionMode? ==> Plain(f.mode) in ["", "reuse", "new_per_run", "new-per-run"]
    ensures SetField(was, f) == Some(now)
    ensures Updated(was, f, parses) == if Sensible(now) && ScheduleOk(was, f, parses) then Some(now) else None
  {
    if f.SessionMode? { NormalOfPlain(f.mode); }
    ValidatesSensible(now);
  }

  lemma PutFinds(jobs: seq<Job>, id: Id, j: Job)
    requires Find(jobs, id).Some? && j.id == id
    ensures forall k :: Find(Put(jobs, id, j), k) == if k == id then Some(j) else Find(jobs, k)
  {
    forall k { FindPut(jobs, id, j, k); }
  }

  /** An update that names a field is accepted exactly when it leaves a sensible job and its
      schedule is taken; a refused one changes nothing. */
  lemma UpdatePuts(s: State, id: Id, f: Field, now: Job, parses: string -> bool)
    requires Find(s.jobs, id).Some? && FieldSet(Find(s.jobs, id).value, now, f)
    requires f.SessionMode? ==> Plain(f.mode) in ["", "reuse", "new_per_run", "new-per-run"]
    ensures var s' := Apply(s, Update(id, f), parses);
      if Sensible(now) && ScheduleOk(Find(s.jobs, id).value, f, parses) then s'.jobs == Put(s.jobs, id, now) else s' == s
  {
    UpdatedExactly(Find(s.jobs, id).value, now, f, parses);
    UpdateStores(s, id, f, parses);
  }

  /** An accepted update sets that field of the job to the value given, and changes nothing else
      in the store. */
  lemma UpdateSets(s: State, id: Id, f: Field, now: Job, parses: string -> bool)
    requires Find(s.jobs, id).Some? && FieldSet(Find(s.jobs, id).value, now, f)
    requires f.SessionMode? ==> Plain(f.mode) in ["", "reuse", "new_per_run", "new-per-run"]
    requires Sensible(now) && ScheduleOk(Find(s.jobs, id).value, f, parses)
    ensures var jobs := Apply(s, Update(id, f), parses).jobs;
      Find(jobs, id) == Some(now) && forall k :: k != id ==> Find(jobs, k) == Find(s.jobs, k)
  {
    var jobs := Apply(s, Update(id, f), parses).jobs;
    UpdatePuts(s, id, f, now, parses);
    FoundId(s.jobs, id);
    FoundAgain(s.jobs, jobs, id, now);
  }

  lemma FoundAgain(jobs: seq<Job>, jobs': seq<Job>, id: Id, now: Job)
    requires Find(jobs, id).Some? && now.id == id && jobs' == Put(jobs, id, now)
    ensures Find(jobs', id) == Some(now) && forall k :: k != id ==> Find(jobs', k) == Find(jobs, k)
  {
    PutFinds(jobs, id, now);
  }

  lemma UpdateStores(s: State, id: Id, f: Field, parses: string -> bool)
    requires Find(s.jobs, id).Some?
    ensures var u := Updated(Find(s.jobs, id).value, f, parses);
      if u.Some? then AfterUpdate(s, id, f, parses).jobs == Put(s.jobs, id, u.value) else AfterUpdate(s, id, f, parses) == s
  {}

  /** An accepted update of the schedule or the switch gives the job a new entry if it is then
      enabled and usable, and otherwise none; an update of any other field leaves all entries,
      and in no case does another job's entry change. */
  lemma UpdateEntries(s: State, id: Id, f: Field, now: Job, parses: string -> bool)
    requires Find(s.jobs, id).Some? && FieldSet(Find(s.jobs, id).value, now, f)
    requires f.SessionMode? ==> Plain(f.mode) in ["", "reuse", "new_per_run", "new-per-run"]
    requires Sensible(now) && ScheduleOk(Find(s.jobs, id).value, f, parses)
    ensures var s' := Apply(s, Update(id, f), parses);
      && s'.entries - {id} == s.entries - {id}
      && (f.CronExpr? || f.Interval? || f.Enabled? ==>
            if now.enabled && SpecOf(now, parses).Some?
            then id in s'.entries && s'.entries[id] == s.next && s'.next == s.next + 1
            else id !in s'.entries && s'.next == s.next)
      && (!f.CronExpr? && !f.Interval? && !f.Enabled? ==>
            s'.entries == s.entries && s'.cron == s.cron && s'.next == s.next)
  {
    UpdatedExactly(Find(s.jobs, id).value, now, f, parses);
    FoundId(s.jobs, id);
    UpdateSchedules(s, id, f, parses);
    EntryReplaced(s, Put(s.jobs, id, now), now, parses);
  }

  lemma UpdateSchedules(s: State, id: Id, f: Field, parses: string -> bool)
    requires Find(s.jobs, id).Some? && Updated(Find(s.jobs, id).value, f, parses).Some?
    ensures var j, s' := Updated(Find(s.jobs, id).value, f, parses).value, AfterUpdate(s, id, f, parses);
      && (!Reschedules(f) ==> s'.entries == s.entries && s'.cron == s.cron && s'.next == s.next)
      && (Reschedules(f) && j.enabled ==> s' == Schedule(Unschedule(s, id).(jobs := Put(s.jobs, id, j)), j, parses))
      && (Reschedules(f) && !j.enabled ==> s' == Unschedule(s, id).(jobs := Put(s.jobs, id, j)))
  {}

  lemma EntryReplaced(s: State, jobs: seq<Job>, j: Job, parses: string -> bool)
    ensures var off := Unschedule(s, j.id).(jobs := jobs);
      off.entries == s.entries - {j.id} && off.next == s.next
    ensures var on := Schedule(Unschedule(s, j.id).(jobs := jobs), j, parses);
      && on.entries - {j.id} == s.entries - {j.id}
      && if SpecOf(j, parses).Some? then j.id in on.entries && on.entries[j.id] == s.next && on.next == s.next + 1
         else j.id !in on.entries && on.next == s.next
  {
    assert (s.entries - {j.id})[j.id := s.next] - {j.id} == s.entries - {j.id};
  }

  /** An unknown field, a value of a wrong type or an unknown session mode changes nothing. */
  lemma WrongUpdateRefused(s: State, id: Id, f: Field, parses: string -> bool)
    requires f.Wrong? || (f.SessionMode? && Plain(f.mode) !in ["", "reuse", "new_per_run", "new-per-run"])
    ensures Apply(s, Update(id, f), parses) == s
  {
    if Find(s.jobs, id).Some? {
      UpdateStores(s, id, f, parses);
      if f.SessionMode? { UnknownModeRefused(Find(s.jobs, id).value, f.mode); }
    }
  }

  lemma UnknownModeRefused(j: Job, mode: string)
    requires Plain(mode) !in ["", "reuse", "new_per_run", "new-per-run"]
    ensures Validate(j.(sessionMode := NormalMode(mode))).None?
  {
    PlainTwice(mode);
    assert NormalMode(mode) == Plain(mode);
    ValidatesSensible(j.(sessionMode := Plain(mode)));
  }

  lemma PlainTwice(text: string)
    ensures Plain(Plain(text)) == Plain(text)
  {
    var t := Trim(text);
    TrimTwice(text);
    LowerKeepsTrimmed(t);
    assert LoopInterval.Lower(LoopInterval.Lower(t)) == LoopInterval.Lower(t);
  }

  lemma LowerKeepsTrimmed(t: string)
    requires Trim(t) == t
    ensures Trim(LoopInterval.Lower(t)) == LoopInterval.Lower(t)
  {
    TrimOfTrimmed(LoopInterval.Lower(t));
  }

  /** Enabling and disabling set the switch of that job, and change nothing else in the store. */
  lemma ToggleSets(s: State, id: Id, on: bool, parses: string -> bool)
    ensures var s' := Apply(s, if on then Enable(id) else Disable(id), parses);
      && (Find(s.jobs, id).None? ==> s' == s)
      && (Find(s.jobs, id).Some? ==> Find(s'.jobs, id) == Some(Find(s.jobs, id).value.(enabled := on)))
      && forall k :: k != id ==> Find(s'.jobs, k) == Find(s.jobs, k)
  {
    if Find(s.jobs, id).Some? {
      FoundId(s.jobs, id);
      var j := Find(s.jobs, id).value.(enabled := on);
      forall k ensures Find(Put(s.jobs, id, j), k) == if k == id then Some(j) else Find(s.jobs, k) {
        FindPut(s.jobs, id, j, k);
      }
    }
  }

  /** Removing takes that job out of the store, and no other. */
  lemma RemoveDrops(s: State, id: Id, parses: string -> bool)
    requires UniqueIds(s.jobs)
    ensures var s' := Apply(s, Remove(id), parses);
      forall k :: Find(s'.jobs, k) == if k == id then None else Find(s.jobs, k)
  {
    forall k { FindDrop(s.jobs, id, k); }
  }

  /** The live entry of a job is scheduled by its cron expression or, for a loop job, every so
      many nanoseconds as its interval says. */
  lemma EntrySaysSchedule(jobs: seq<Job>, steps: seq<Step>, parses: string -> bool, id: Id)
    requires UniqueIds(jobs) && GoodSteps(jobs, steps, parses)
    requires id in Run(jobs, steps, parses).entries
    ensures var s := Run(jobs, steps, parses);
      var j := Find(s.jobs, id);
      && j.Some? && s.entries[id] in s.cron && s.cron[s.entries[id]].job == id
      && s.cron[s.entries[id]].spec ==
        if Plain(j.value.kind) == "loop" then Every(LoopInterval.Parse(j.value.loopInterval).GetOr(LoopInterval.Interval(0, 's', 0)).nanos)
        else Cron(j.value.cronExpr)
  {
    EntriesIndexTheStore(jobs, steps, parses, id);
    RunInv(jobs, steps, parses);
  }

  const TEN_MINUTES := Job("j", "loop", "", "10m", true, "p", "", "", None, "")

  lemma TenMinutesAccepted(parses: string -> bool)
    ensures Accepted(TEN_MINUTES, parses) == Some(TEN_MINUTES)
  {
    KindsArePlain();
    TrimOfTrimmed("p");
    assert Plain("loop") == NormalKind("loop") == "loop" && Plain("") == "" && Trim("p") == "p";
    LoopInterval.TenMinutesParse();
    AcceptedExactly(TEN_MINUTES, parses);
  }

  /** It does break: a loop job every ten minutes, added to an empty store that cannot be
      saved, is in the store, enabled and usable, and has no entry. */
  lemma AddCanBreakIndex(parses: string -> bool)
    ensures var s := Apply(Run([], [], parses), Add(TEN_MINUTES, false), parses);
      Find(s.jobs, "j") == Some(TEN_MINUTES) && SpecOf(TEN_MINUTES, parses).Some? && "j" !in s.entries && !Indexed(s, parses)
  {
    TenMinutesAccepted(parses);
    AcceptedHasSpec(TEN_MINUTES, parses);
    var s := Apply(Run([], [], parses), Add(TEN_MINUTES, false), parses);
    assert Wanted(s.jobs, "j", parses).Some? && Listed(s, "j").None?;
  }

  // ---------------------------------------------------------------- the program's objects

  class Store {
    var jobs: seq<Job>

    constructor (loaded: seq<Job>)
      ensures jobs == loaded
    {
      jobs := loaded;
    }

    /** The position of the first job with this ID, or the number of jobs. */
    method Index(id: Id) returns (i: nat)
      ensures FirstAt(jobs, id, i) && Find(jobs, id) == if i < |jobs| then Some(jobs[i]) else None
    {
      i := 0;
      while i < |jobs| && jobs[i].id != id
        invariant i <= |jobs|
        invariant forall k | 0 <= k < i :: jobs[k].id != id
      {
        i := i + 1;
      }
      FindAt(jobs, id, i);
    }

    method Get(id: Id) returns (j: Option<Job>)
      ensures j == Find(jobs, id)
    {
      var i := Index(id);
      j := if i < |jobs| then Some(jobs[i]) else None;
    }

    method Remove(id: Id) returns (ok: bool)
      modifies this
      ensures jobs == Drop(old(jobs), id) && ok == Find(old(jobs), id).Some?
    {
      var i := Index(id);
      DropAt(jobs, id, i);
      if i == |jobs| { return false; }
      jobs := jobs[..i] + jobs[i + 1..];
      return true;
    }

    method SetEnabled(id: Id, on: bool) returns (ok: bool)
      modifies this
      ensures ok == Find(old(jobs), id).Some?
      ensures jobs == if ok then Put(old(jobs), id, Find(old(jobs), id).value.(enabled := on)) else old(jobs)
    {
      var i := Index(id);
      if i == |jobs| { return false; }
      PutAt(jobs, id, i, jobs[i].(enabled := on));
      jobs := jobs[i := jobs[i].(enabled := on)];
      return true;
    }

    method Update(id: Id, f: Field) returns (ok: bool)
      modifies this
      ensures ok == (Find(old(jobs), id).Some? && SetField(Find(old(jobs), id).value, f).Some?)
      ensures jobs == if ok then Put(old(jobs), id, SetField(Find(old(jobs), id).value, f).value) else old(jobs)
    {
      var i := Index(id);
      if i == |jobs| { return false; }
      var j := SetField(jobs[i], f);
      if j.None? { return false; }
      PutAt(jobs, id, i, j.value);
      jobs := jobs[i := j.value];
      return true;
    }
  }

  /** No job before position i has this ID, and the one there has. */
  ghost predicate FirstAt(jobs: seq<Job>, id: Id, i: nat) {
    i <= |jobs| && (forall k | 0 <= k < i :: jobs[k].id != id) && (i < |jobs| ==> jobs[i].id == id)
  }

  lemma {:induction false} FindAt(jobs: seq<Job>, id: Id, i: nat)
    requires FirstAt(jobs, id, i)
    ensures Find(jobs, id) == if i < |jobs| then Some(jobs[i]) else None
  {
    if i > 0 { FindAt(jobs[1..], id, i - 1); }
  }

  lemma {:induction false} PutAt(jobs: seq<Job>, id: Id, i: nat, j: Job)
    requires FirstAt(jobs, id, i) && i < |jobs|
    ensures Put(jobs, id, j) == jobs[i := j]
  {
    if i > 0 { PutAt(jobs[1..], id, i - 1, j); }
  }

  lemma {:induction false} DropAt(jobs: seq<Job>, id: Id, i: nat)
    requires FirstAt(jobs, id, i)
    ensures Drop(jobs, id) == if i < |jobs| then jobs[..i] + jobs[i + 1..] else jobs
  {
    if i > 0 {
      DropAt(jobs[1..], id, i - 1);
      if i < |jobs| {
        assert jobs[..i] == [jobs[0]] + jobs[1..][..i - 1];
        assert jobs[1..][i..] == jobs[i + 1..];
      }
    }
  }

  class Scheduler {
    const store: Store
    const parses: string -> bool
    var entries: map<Id, nat>
    var cron: map<nat, Live>
    var next: nat

    function Contents(): State reads this, store { State(store.jobs, entries, cron, next) }

    constructor (store: Store, parses: string -> bool)
      ensures this.store == store && this.parses == parses
      ensures Contents() == State(store.jobs, map[], map[], 1)
    {
      this.store, this.parses := store, parses;
      entries, cron, next := map[], map[], 1;
    }

    method ScheduleJob(j: Job) returns (ok: bool)
      modifies this
      ensures Contents() == Schedule(old(Contents()), j, parses) && ok == SpecOf(j, parses).Some?
    {
      if j.id in entries { cron := cron - {entries[j.id]}; }
      var spec := SpecOf(j, parses);
      if spec.None? { return false; }
      cron, entries, next := cron[next := Live(j.id, spec.value)], entries[j.id := next], next + 1;
      return true;
    }

    /** The removal of an entry that RemoveJob, DisableJob and UpdateJob share. */
    method DropEntry(id: Id)
      modifies this
      ensures Contents() == Unschedule(old(Contents()), id)
    {
      if id in entries {
        cron := cron - {entries[id]};
        entries := entries - {id};
      }
    }

    method Start()
      requires Contents() == State(store.jobs, map[], map[], 1)
      modifies this
      ensures Contents() == Started(store.jobs, parses)
    {
      var jobs := store.jobs;
      for i := 0 to |jobs|
        invariant store.jobs == jobs
        invariant Contents() == ScheduleAll(State(jobs, map[], map[], 1), jobs[..i], parses)
      {
        assert jobs[..i + 1][..i] == jobs[..i];
        if jobs[i].enabled { var _ := ScheduleJob(jobs[i]); }
      }
      assert jobs[..|jobs|] == jobs;
    }

    /** `saved` is whether the store's file could be written. */
    method AddJob(job: Job, saved: bool) returns (ok: bool)
      modifies this, store
      ensures Contents() == Apply(old(Contents()), Add(job, saved), parses)
      ensures ok == (Accepted(job, parses).Some? && saved)
    {
      var v := Validate(job);
      if v.None? { return false; }
      var j := v.value.(sessionMode := NormalMode(v.value.sessionMode));
      if !IsLoop(j) && !parses(j.cronExpr) { return false; }
      store.jobs := store.jobs + [j];
      if !saved { return false; }
      AcceptedHasSpec(job, parses);
      if j.enabled { ok := ScheduleJob(j); return ok; }
      return true;
    }

    method RemoveJob(id: Id) returns (ok: bool)
      modifies this, store
      ensures Contents() == Apply(old(Contents()), Remove(id), parses) && ok == Find(old(store.jobs), id).Some?
    {
      DropEntry(id);
      ok := store.Remove(id);
    }

    method EnableJob(id: Id) returns (ok: bool)
      modifies this, store
      ensures Contents() == Apply(old(Contents()), Enable(id), parses)
      ensures ok == (Find(old(store.jobs), id).Some? && SpecOf(Find(old(store.jobs), id).value, parses).Some?)
    {
      var found := store.SetEnabled(id, true);
      if !found { return false; }
      FoundId(old(store.jobs), id);
      FindPut(old(store.jobs), id, Find(old(store.jobs), id).value.(enabled := true), id);
      var j := store.Get(id);
      ok := ScheduleJob(j.value);
    }

    method DisableJob(id: Id) returns (ok: bool)
      modifies this, store
      ensures Contents() == Apply(old(Contents()), Disable(id), parses) && ok == Find(old(store.jobs), id).Some?
    {
      var found := store.SetEnabled(id, false);
      if !found { return false; }
      DropEntry(id);
      return true;
    }

    /** The part of UpdateJob after its checks. */
    method StoreUpdate(id: Id, f: Field, j: Job) returns (ok: bool)
      requires Find(store.jobs, id).Some? && j.id == id && SetField(Find(store.jobs, id).value, f) == Some(j)
      modifies this, store
      ensures var s := old(Contents());
        var s1 := if Reschedules(f) then Unschedule(s, id) else s;
        var s2 := s1.(jobs := Put(s.jobs, id, j));
        Contents() == if Reschedules(f) && j.enabled then Schedule(s2, j, parses) else s2
      ensures ok == (Reschedules(f) && j.enabled ==> SpecOf(j, parses).Some?)
    {
      if Reschedules(f) { DropEntry(id); }
      FindPut(store.jobs, id, j, id);
      var updated := store.Update(id, f);
      var now := store.Get(id);
      if Reschedules(f) && now.value.enabled { ok := ScheduleJob(now.value); return ok; }
      return true;
    }

    method UpdateJob(id: Id, f: Field) returns (ok: bool)
      modifies this, store
      ensures Contents() == AfterUpdate(old(Contents()), id, f, parses)
      ensures ok == (Find(old(store.jobs), id).Some?
        && var j := Updated(Find(old(store.jobs), id).value, f, parses);
          j.Some? && (Reschedules(f) && j.value.enabled ==> SpecOf(j.value, parses).Some?))
    {
      var job := store.Get(id);
      if job.None? || Refuses(job.value, f, parses) { return false; }
      var proposed := SetField(job.value, f);
      if proposed.None? || Validate(proposed.value).None? { return false; }
      FoundId(store.jobs, id);
      SameSpec(job.value, f, parses);
      ok := StoreUpdate(id, f, proposed.value);
    }
  }
}
