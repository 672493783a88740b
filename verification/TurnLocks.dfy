/** Agent-session turn locks (core/engine.go:414-567, 941-948). */
module TurnLocks {
  import opened Text

  // A turn of the agent owns one agent session ID at a time. Per-ID semaphores live in
  // a map and are reference counted; one reader/writer "bind" lock keeps turns whose ID
  // is known out while some turn does not know its ID yet. The module models the
  // protocol as a step system over any number of turns, one step for each atomic
  // action of the program, and proves what holds in every reachable state.

  // ---------------------------------------------------------------- the shared table

  type LockId = nat

  /** One agentSessionTurnLock: the reference count and whether its one-slot channel is full. */
  datatype Lock = Lock(refs: int, full: bool)

  /** The engine's lock fields: the map of locks by key, every lock object ever made
      (the map only holds the live ones), and the state of agentSessionBindMu. */
  datatype Table = Table(turns: map<string, LockId>, locks: seq<Lock>, writer: bool, readers: int)

  const EMPTY_TABLE := Table(map[], [], false, 0)

  predicate CanLockBind(t: Table, exclusive: bool) {
    !t.writer && (exclusive ==> t.readers == 0)
  }

  function LockBind(t: Table, exclusive: bool): Table {
    if exclusive then t.(writer := true) else t.(readers := t.readers + 1)
  }

  function UnlockBind(t: Table, exclusive: bool): Table {
    if exclusive then t.(writer := false) else t.(readers := t.readers - 1)
  }

  /** retainAgentSessionTurnLock: find or make the lock of a key and count one more user. */
  function Retain(t: Table, key: string): (Table, LockId)
    requires key in t.turns ==> t.turns[key] < |t.locks|
  {
    if key in t.turns then
      var l := t.turns[key];
      (t.(locks := t.locks[l := t.locks[l].(refs := t.locks[l].refs + 1)]), l)
    else
      (t.(turns := t.turns[key := |t.locks|], locks := t.locks + [Lock(1, false)]), |t.locks|)
  }

  /** releaseAgentSessionTurnRef: the entry leaves the map with its last user. */
  function ReleaseRef(t: Table, key: string, l: LockId): Table
    requires l < |t.locks|
  {
    var lock := t.locks[l].(refs := t.locks[l].refs - 1);
    t.(locks := t.locks[l := lock], turns := if lock.refs == 0 then t.turns - {key} else t.turns)
  }

  function SetFull(t: Table, l: LockId, full: bool): Table
    requires l < |t.locks|
  {
    t.(locks := t.locks[l := t.locks[l].(full := full)])
  }

  // ---------------------------------------------------------------- turns

  /** Where one turn is, between two atomic actions. */
  datatype Phase =
    | WantWriter                             // in lockAgentSessionBind, exclusive
    | WantReader(key: string)                // in lockAgentSessionBind, shared
    | CronStart(key: string)                 // a cron turn about to retain its lock
    | HasReader(key: string)                 // holds the bind lock shared, nothing retained
    | Retained(key: string, lock: LockId)    // retained under the shared bind lock
    | HasWriter                              // guard returned with bindExclusive set
    | Binding(key: string, lock: LockId)     // in Bind: retained, bindExclusive still set
    | Waiting(key: string, lock: LockId)     // in waitAgentSessionTurnLock
    | Cancelled(key: string, lock: LockId)   // context done while waiting, reference not yet returned
    | Holding(key: string, lock: LockId)     // the turn owns the session ID
    | Draining(key: string, lock: LockId)    // semaphore given back, reference not yet returned
    | Idle                                   // a guard that owns nothing; Bind may still be called
    | Gone                                   // no guard: the attempt failed, or the cron turn ended

  /** A turn. `guard` says that a guard object exists, so that Bind and Unlock can be called.
      `asked` is history: the session ID the turn was started for, or last given to Bind. */
  datatype Turn = Turn(cron: bool, guard: bool, phase: Phase, asked: string)

  datatype State = State(agent: string, table: Table, turns: seq<Turn>)

  function Init(agent: string): State { State(agent, EMPTY_TABLE, []) }

  /** The lock key of interactive and relay turns (agentSessionTurnIdentity). */
  function InteractiveKey(agent: string, id: string): string {
    (if Trim(agent) == "" then "agent" else Trim(agent)) + ":" + Trim(id)
  }

  /** The lock key of cron turns, which use the agent's name as it is. */
  function CronKey(agent: string, id: string): string {
    agent + ":" + Trim(id)
  }

  /** What a turn does next. Proceed is the next action of code already running;
      Cancel is a context that ends while the turn waits; BindTo and Unlock are the
      calls the owner of a guard can make (no key: Bind was given a blank ID). */
  datatype Action = Proceed | Cancel | BindTo(key: Option<string>) | Unlock

  datatype Step =
    | SpawnInteractive(id: string)
    | SpawnCron(resumeID: string)
    | Act(turn: nat, action: Action)   // Proceed, Cancel or Unlock
    | Bind(turn: nat, id: string)      // the owner of a guard calls Bind

  function Put(s: State, table: Table, g: nat, phase: Phase): State
    requires g < |s.turns|
  {
    var guard := s.turns[g].guard || phase.HasWriter? || (phase.Holding? && !s.turns[g].cron);
    s.(table := table, turns := s.turns[g := s.turns[g].(guard := guard, phase := phase)])
  }

  function Finished(t: Turn): Phase { if t.guard then Idle else Gone }

  /** The lock references a state needs to be read without leaving the table. */
  predicate Sound(s: State) {
    && (forall k | k in s.table.turns :: s.table.turns[k] < |s.table.locks|)
    && (forall g | 0 <= g < |s.turns| && Refers(s.turns[g]) :: s.turns[g].phase.lock < |s.table.locks|)
  }

  predicate Refers(t: Turn) {
    var p := t.phase;
    p.Retained? || p.Binding? || p.Waiting? || p.Cancelled? || p.Holding? || p.Draining?
  }

  /** The key Bind retains; a blank ID makes Bind return at once. */
  function BindKey(agent: string, id: string): Option<string> {
    if Trim(id) == "" then None else Some(InteractiveKey(agent, id))
  }

  /** Bind retains the lock of the real ID before it gives up an exclusive bind lock. */
  function StartBind(s: State, g: nat, key: Option<string>): State
    requires g < |s.turns| && Sound(s)
  {
    if key.None? then s else
      var (t, l) := Retain(s.table, key.value);
      Put(s, t, g, if s.turns[g].phase.HasWriter? then Binding(key.value, l) else Waiting(key.value, l))
  }

  /** One action of turn g, when it can happen now. */
  function Next(s: State, g: nat, a: Action): Option<State>
    requires g < |s.turns| && Sound(s)
  {
    var t := s.table;
    match (s.turns[g].phase, a)
    case (WantWriter, Proceed) =>
      if CanLockBind(t, true) then Some(Put(s, LockBind(t, true), g, HasWriter)) else None
    case (WantWriter, Cancel) => Some(Put(s, t, g, Gone))
    case (WantReader(key), Proceed) =>
      if CanLockBind(t, false) then Some(Put(s, LockBind(t, false), g, HasReader(key))) else None
    case (WantReader(_), Cancel) => Some(Put(s, t, g, Gone))
    case (CronStart(key), Proceed) =>
      var (t', l) := Retain(t, key);
      Some(Put(s, t', g, Waiting(key, l)))
    case (HasReader(key), Proceed) =>
      var (t', l) := Retain(t, key);
      Some(Put(s, t', g, Retained(key, l)))
    case (Retained(key, l), Proceed) => Some(Put(s, UnlockBind(t, false), g, Waiting(key, l)))
    case (HasWriter, BindTo(key)) => Some(StartBind(s, g, key))
    case (HasWriter, Unlock) => Some(Put(s, UnlockBind(t, true), g, Idle))
    case (Binding(key, l), Proceed) => Some(Put(s, UnlockBind(t, true), g, Waiting(key, l)))
    case (Waiting(key, l), Proceed) =>
      if t.locks[l].full then None else Some(Put(s, SetFull(t, l, true), g, Holding(key, l)))
    case (Waiting(key, l), Cancel) => Some(Put(s, t, g, Cancelled(key, l)))
    case (Cancelled(key, l), Proceed) => Some(Put(s, ReleaseRef(t, key, l), g, Finished(s.turns[g])))
    case (Holding(_, _), BindTo(_)) => Some(s)
    case (Holding(key, l), Unlock) => Some(Put(s, SetFull(t, l, false), g, Draining(key, l)))
    case (Draining(key, l), Proceed) => Some(Put(s, ReleaseRef(t, key, l), g, Finished(s.turns[g])))
    case (Idle, BindTo(key)) => Some(StartBind(s, g, key))
    case (Idle, Unlock) => Some(s)
    case _ => None
  }

  /** The history of a Bind that is neither blank nor a second one. */
  function Noted(s: State, g: nat, id: string): State
    requires g < |s.turns|
  {
    if Trim(id) != "" && (s.turns[g].phase.HasWriter? || s.turns[g].phase.Idle?)
    then s.(turns := s.turns[g := s.turns[g].(asked := id)]) else s
  }

  function Arrived(s: State, t: Turn): State {
    s.(turns := s.turns + [t])
  }

  function Spawned(s: State, step: Step): State
    requires step.SpawnInteractive? || step.SpawnCron?
  {
    match step
    case SpawnInteractive(id) =>
      Arrived(s, Turn(false, false, if Trim(id) == "" then WantWriter else WantReader(InteractiveKey(s.agent, id)), id))
    case SpawnCron(id) =>
      if Trim(id) == "" then s else Arrived(s, Turn(true, false, CronStart(CronKey(s.agent, id)), id))
  }

  /** A step that cannot happen now leaves the state as it is. (A state whose references
      leave the table never comes up: Inv holds in every run.) */
  ghost function Apply(s: State, step: Step): State {
    match step
    case Act(g, a) => if g < |s.turns| && !a.BindTo? && Sound(s) then Next(s, g, a).GetOr(s) else s
    case Bind(g, id) =>
      if g < |s.turns| && Sound(s) then Next(Noted(s, g, id), g, BindTo(BindKey(s.agent, id))).GetOr(s) else s
    case _ => Spawned(s, step)
  }

  // ---------------------------------------------------------------- the invariant

  /** The things a turn can have of the shared state. */
  datatype Role = Ref(l: LockId) | Hold(l: LockId) | Writer | Reader

  predicate Has(t: Turn, r: Role) {
    match r
    case Ref(l) => Refers(t) && t.phase.lock == l
    case Hold(l) => t.phase.Holding? && t.phase.lock == l
    case Writer => t.phase.HasWriter? || t.phase.Binding?
    case Reader => t.phase.HasReader? || t.phase.Retained?
  }

  function One(b: bool): nat { if b then 1 else 0 }

  /** How many turns have a thing. */
  function Count(turns: seq<Turn>, r: Role): nat {
    if turns == [] then 0 else One(Has(turns[0], r)) + Count(turns[1..], r)
  }

  lemma {:induction false} CountUpdate(turns: seq<Turn>, g: nat, t: Turn, r: Role)
    requires g < |turns|
    ensures Count(turns[g := t], r) + One(Has(turns[g], r)) == Count(turns, r) + One(Has(t, r))
  {
    if g == 0 {
      assert turns[0 := t][1..] == turns[1..];
    } else {
      CountUpdate(turns[1..], g - 1, t, r);
      assert turns[g := t][1..] == turns[1..][g - 1 := t];
    }
  }

  lemma {:induction false} CountAppend(turns: seq<Turn>, t: Turn, r: Role)
    ensures Count(turns + [t], r) == Count(turns, r) + One(Has(t, r))
  {
    if turns != [] {
      CountAppend(turns[1..], t, r);
      assert (turns + [t])[1..] == turns[1..] + [t];
    } else {
      assert turns + [t] == [t];
    }
  }

  lemma {:induction false} CountPositive(turns: seq<Turn>, r: Role)
    ensures Count(turns, r) > 0 <==> exists g :: 0 <= g < |turns| && Has(turns[g], r)
  {
    if turns != [] {
      CountPositive(turns[1..], r);
      forall g | 0 <= g < |turns| && Has(turns[g], r)
        ensures Count(turns, r) > 0
      {
        if g > 0 { assert turns[1..][g - 1] == turns[g]; }
      }
    }
  }

  /** With a count of one, the turn that has the thing is the only one. */
  lemma {:induction false} CountOne(turns: seq<Turn>, r: Role, g: nat, h: nat)
    requires Count(turns, r) <= 1
    requires g < |turns| && h < |turns| && Has(turns[g], r) && Has(turns[h], r)
    ensures g == h
  {
    if g != 0 && h != 0 {
      CountOne(turns[1..], r, g - 1, h - 1);
    } else if g != h {
      var k := if g == 0 then h else g;
      assert turns[1..][k - 1] == turns[k];
      CountPositive(turns[1..], r);
      assert false;
    }
  }

  /** What every reachable state satisfies. */
  predicate Inv(s: State) {
    Sound(s) && EntriesOk(s) && CountsOk(s)
  }

  /** The map holds one used lock per key. */
  predicate EntriesOk(s: State)
    requires Sound(s)
  {
    && KeysOfTurns(s)
    && (forall k | k in s.table.turns :: s.table.locks[s.table.turns[k]].refs > 0)
    && (forall k, m | k in s.table.turns && m in s.table.turns && k != m :: s.table.turns[k] != s.table.turns[m])
  }

  /** Every lock, and the bind lock, is accounted for by the turns. */
  predicate CountsOk(s: State) {
    && (forall l | 0 <= l < |s.table.locks| :: Accounted(s, l))
    && Count(s.turns, Writer) == One(s.table.writer)
    && Count(s.turns, Reader) == s.table.readers
    && !(s.table.writer && s.table.readers > 0)
  }

  /** Every turn that refers to a lock refers to the one now in the map under its key. */
  predicate KeysOfTurns(s: State) {
    forall g | 0 <= g < |s.turns| && Refers(s.turns[g]) ::
      var p := s.turns[g].phase;
      p.key in s.table.turns && s.table.turns[p.key] == p.lock
  }

  /** The count of a lock is the number of turns waiting on or holding it,
      and its channel is full exactly while one turn holds it. */
  predicate Accounted(s: State, l: LockId)
    requires l < |s.table.locks|
  {
    && s.table.locks[l].refs == Count(s.turns, Ref(l))
    && One(s.table.locks[l].full) == Count(s.turns, Hold(l))
  }

  /** A turn that has a thing is counted; a lock never made has no users. */
  lemma UsersCounted(s: State, g: nat, r: Role)
    requires g < |s.turns| && Has(s.turns[g], r)
    ensures Count(s.turns, r) > 0
  {
    CountPositive(s.turns, r);
  }

  lemma FreshLockUnused(s: State, r: Role)
    requires Sound(s) && (r.Ref? || r.Hold?) && r.l >= |s.table.locks|
    ensures Count(s.turns, r) == 0
  {
    CountPositive(s.turns, r);
  }

  lemma InitInv(agent: string)
    ensures Inv(Init(agent))
  {}

  /** The counts of one lock, when one turn changes. */
  lemma LockMoves(s: State, g: nat, u: Turn, l: LockId)
    requires g < |s.turns|
    ensures Count(s.turns[g := u], Ref(l)) == Count(s.turns, Ref(l)) + One(Has(u, Ref(l))) - One(Has(s.turns[g], Ref(l)))
    ensures Count(s.turns[g := u], Hold(l)) == Count(s.turns, Hold(l)) + One(Has(u, Hold(l))) - One(Has(s.turns[g], Hold(l)))
  {
    CountUpdate(s.turns, g, u, Ref(l));
    CountUpdate(s.turns, g, u, Hold(l));
  }

  /** The counts of the bind lock, when one turn changes. */
  lemma BindMoves(s: State, g: nat, u: Turn)
    requires g < |s.turns|
    ensures Count(s.turns[g := u], Writer) == Count(s.turns, Writer) + One(Has(u, Writer)) - One(Has(s.turns[g], Writer))
    ensures Count(s.turns[g := u], Reader) == Count(s.turns, Reader) + One(Has(u, Reader)) - One(Has(s.turns[g], Reader))
  {
    CountUpdate(s.turns, g, u, Writer);
    CountUpdate(s.turns, g, u, Reader);
  }

  /** Both phases have the same lock, if any. */
  predicate SameLock(p: Turn, q: Turn) {
    && Refers(p) == Refers(q)
    && (Refers(p) ==> p.phase.key == q.phase.key && p.phase.lock == q.phase.lock)
  }

  /** Steps on the bind lock, and steps that touch nothing shared. */
  lemma BindKeepsInv(s: State, t: Table, g: nat, phase: Phase)
    requires Inv(s) && g < |s.turns|
    requires t.turns == s.table.turns && t.locks == s.table.locks
    requires var u := Put(s, t, g, phase).turns[g];
      && SameLock(s.turns[g], u) && !u.phase.Holding? && !s.turns[g].phase.Holding?
      && One(t.writer) - One(s.table.writer) == One(Has(u, Writer)) - One(Has(s.turns[g], Writer))
      && t.readers - s.table.readers == One(Has(u, Reader)) - One(Has(s.turns[g], Reader))
    requires !(t.writer && t.readers > 0)
    ensures Inv(Put(s, t, g, phase))
  {
    var s' := Put(s, t, g, phase);
    var u := s'.turns[g];
    BindMoves(s, g, u);
    forall l | 0 <= l < |t.locks|
      ensures Accounted(s', l)
    {
      assert Accounted(s, l);
      LockMoves(s, g, u, l);
    }
    assert KeysOfTurns(s');
  }

  /** Retaining the lock of a key, known or new. */
  lemma RetainKeepsInv(s: State, g: nat, key: string, phase: Phase)
    requires Inv(s) && g < |s.turns| && !Refers(s.turns[g])
    requires var u := Put(s, s.table, g, phase).turns[g];
      && Refers(u) && !u.phase.Holding? && u.phase.key == key && u.phase.lock == Retain(s.table, key).1
      && Has(u, Writer) == Has(s.turns[g], Writer) && Has(u, Reader) == Has(s.turns[g], Reader)
    ensures Inv(Put(s, Retain(s.table, key).0, g, phase))
  {
    var (t, l) := Retain(s.table, key);
    var s' := Put(s, t, g, phase);
    var u := s'.turns[g];
    BindMoves(s, g, u);
    forall m | 0 <= m < |t.locks|
      ensures Accounted(s', m)
    {
      LockMoves(s, g, u, m);
      if m < |s.table.locks| {
        assert Accounted(s, m);
      } else {
        FreshLockUnused(s, Ref(m));
        FreshLockUnused(s, Hold(m));
      }
    }
    RetainedEntries(s, g, key, phase);
  }

  lemma RetainedEntries(s: State, g: nat, key: string, phase: Phase)
    requires Inv(s) && g < |s.turns|
    requires var u := Put(s, s.table, g, phase).turns[g];
      Refers(u) && u.phase.key == key && u.phase.lock == Retain(s.table, key).1
    ensures var s' := Put(s, Retain(s.table, key).0, g, phase); var t := s'.table;
      && Sound(s') && KeysOfTurns(s')
      && (forall k | k in t.turns :: t.locks[t.turns[k]].refs > 0)
      && (forall k, m | k in t.turns && m in t.turns && k != m :: t.turns[k] != t.turns[m])
  {
    var s' := Put(s, Retain(s.table, key).0, g, phase);
    forall h | 0 <= h < |s'.turns| && Refers(s'.turns[h])
      ensures var p := s'.turns[h].phase; p.key in s'.table.turns && s'.table.turns[p.key] == p.lock
    {
      assert h != g ==> s'.turns[h] == s.turns[h];
    }
  }

  /** Filling or emptying the channel of a lock. */
  lemma FullKeepsInv(s: State, g: nat, full: bool, phase: Phase)
    requires Inv(s) && g < |s.turns| && Refers(s.turns[g])
    requires var u := Put(s, s.table, g, phase).turns[g]; var p := s.turns[g].phase;
      && SameLock(s.turns[g], u)
      && p.Holding? == !full && u.phase.Holding? == full
      && (full ==> !s.table.locks[p.lock].full)
      && Has(u, Writer) == Has(s.turns[g], Writer) && Has(u, Reader) == Has(s.turns[g], Reader)
    ensures Inv(Put(s, SetFull(s.table, s.turns[g].phase.lock, full), g, phase))
  {
    var l := s.turns[g].phase.lock;
    var s' := Put(s, SetFull(s.table, l, full), g, phase);
    var u := s'.turns[g];
    BindMoves(s, g, u);
    if !full { UsersCounted(s, g, Hold(l)); }
    forall m | 0 <= m < |s'.table.locks|
      ensures Accounted(s', m)
    {
      assert Accounted(s, m);
      LockMoves(s, g, u, m);
    }
    assert KeysOfTurns(s');
  }

  /** Returning a reference; with the last one the entry leaves the map. */
  lemma ReleaseKeepsInv(s: State, g: nat, phase: Phase)
    requires Inv(s) && g < |s.turns|
    requires s.turns[g].phase.Cancelled? || s.turns[g].phase.Draining?
    requires phase.Idle? || phase.Gone?
    ensures var p := s.turns[g].phase;
      Inv(Put(s, ReleaseRef(s.table, p.key, p.lock), g, phase))
  {
    var p := s.turns[g].phase;
    var s' := Put(s, ReleaseRef(s.table, p.key, p.lock), g, phase);
    var u := s'.turns[g];
    BindMoves(s, g, u);
    forall m | 0 <= m < |s.table.locks|
      ensures Accounted(s', m)
    {
      assert Accounted(s, m);
      LockMoves(s, g, u, m);
    }
    ReleasedEntries(s, g, phase);
  }

  lemma ReleasedEntries(s: State, g: nat, phase: Phase)
    requires Inv(s) && g < |s.turns|
    requires s.turns[g].phase.Cancelled? || s.turns[g].phase.Draining?
    requires phase.Idle? || phase.Gone?
    requires var p := s.turns[g].phase;
      CountsOk(Put(s, ReleaseRef(s.table, p.key, p.lock), g, phase))
    ensures var p := s.turns[g].phase; var s' := Put(s, ReleaseRef(s.table, p.key, p.lock), g, phase);
      Sound(s') && EntriesOk(s')
  {
    var p := s.turns[g].phase;
    var t := ReleaseRef(s.table, p.key, p.lock);
    var s' := Put(s, t, g, phase);
    UsersCounted(s, g, Ref(p.lock));
    assert Accounted(s, p.lock);
    forall h | 0 <= h < |s'.turns| && Refers(s'.turns[h])
      ensures s'.turns[h].phase.key in t.turns && t.turns[s'.turns[h].phase.key] == s'.turns[h].phase.lock
    {
      assert h != g && s'.turns[h] == s.turns[h];
      UsersCounted(s', h, Ref(s'.turns[h].phase.lock));
      assert Accounted(s', s.turns[h].phase.lock);
    }
  }

  /** The actions of lockAgentSessionTurn and of a cron turn before it waits. */
  lemma EntryKeepsInv(s: State, g: nat)
    requires Inv(s) && g < |s.turns|
    requires var p := s.turns[g].phase;
      p.WantWriter? || p.WantReader? || p.CronStart? || p.HasReader? || p.Retained?
    ensures Next(s, g, Proceed).Some? ==> Inv(Next(s, g, Proceed).value)
  {
    var t, p := s.table, s.turns[g].phase;
    if p.WantWriter? && CanLockBind(t, true) {
      BindKeepsInv(s, LockBind(t, true), g, HasWriter);
    } else if p.WantReader? && CanLockBind(t, false) {
      BindKeepsInv(s, LockBind(t, false), g, HasReader(p.key));
    } else if p.CronStart? {
      RetainKeepsInv(s, g, p.key, Waiting(p.key, Retain(t, p.key).1));
    } else if p.HasReader? {
      RetainKeepsInv(s, g, p.key, Retained(p.key, Retain(t, p.key).1));
    } else if p.Retained? {
      BindKeepsInv(s, UnlockBind(t, false), g, Waiting(p.key, p.lock));
    }
  }

  /** The actions of waitAgentSessionTurnLock and of giving the lock back. */
  lemma WaitKeepsInv(s: State, g: nat)
    requires Inv(s) && g < |s.turns|
    requires var p := s.turns[g].phase; p.Binding? || p.Waiting? || p.Cancelled? || p.Draining?
    ensures Next(s, g, Proceed).Some? ==> Inv(Next(s, g, Proceed).value)
  {
    var t, p := s.table, s.turns[g].phase;
    if p.Binding? {
      UsersCounted(s, g, Writer);
      BindKeepsInv(s, UnlockBind(t, true), g, Waiting(p.key, p.lock));
    } else if p.Waiting? {
      if !t.locks[p.lock].full { FullKeepsInv(s, g, true, Holding(p.key, p.lock)); }
    } else {
      ReleaseKeepsInv(s, g, Finished(s.turns[g]));
    }
  }

  lemma CancelKeepsInv(s: State, g: nat)
    requires Inv(s) && g < |s.turns|
    ensures Next(s, g, Cancel).Some? ==> Inv(Next(s, g, Cancel).value)
  {
    var p := s.turns[g].phase;
    if p.WantWriter? || p.WantReader? {
      BindKeepsInv(s, s.table, g, Gone);
    } else if p.Waiting? {
      BindKeepsInv(s, s.table, g, Cancelled(p.key, p.lock));
    }
  }

  lemma StartBindKeepsInv(s: State, g: nat, key: Option<string>)
    requires Inv(s) && g < |s.turns|
    requires s.turns[g].phase.HasWriter? || s.turns[g].phase.Idle?
    ensures Inv(StartBind(s, g, key))
  {
    if key.Some? {
      var k, l := key.value, Retain(s.table, key.value).1;
      RetainKeepsInv(s, g, k, if s.turns[g].phase.HasWriter? then Binding(k, l) else Waiting(k, l));
    }
  }

  lemma BindToKeepsInv(s: State, g: nat, key: Option<string>)
    requires Inv(s) && g < |s.turns|
    ensures Next(s, g, BindTo(key)).Some? ==> Inv(Next(s, g, BindTo(key)).value)
  {
    if s.turns[g].phase.HasWriter? || s.turns[g].phase.Idle? {
      StartBindKeepsInv(s, g, key);
    }
  }

  lemma UnlockKeepsInv(s: State, g: nat)
    requires Inv(s) && g < |s.turns|
    ensures Next(s, g, Unlock).Some? ==> Inv(Next(s, g, Unlock).value)
  {
    var p := s.turns[g].phase;
    if p.HasWriter? {
      UsersCounted(s, g, Writer);
      BindKeepsInv(s, UnlockBind(s.table, true), g, Idle);
    } else if p.Holding? {
      FullKeepsInv(s, g, false, Draining(p.key, p.lock));
    }
  }

  /** Every action that can happen keeps the invariant. */
  lemma NextKeepsInv(s: State, g: nat, a: Action)
    requires Inv(s) && g < |s.turns|
    ensures Next(s, g, a).Some? ==> Inv(Next(s, g, a).value)
  {
    var p := s.turns[g].phase;
    match a
    case Cancel => CancelKeepsInv(s, g);
    case BindTo(key) => BindToKeepsInv(s, g, key);
    case Unlock => UnlockKeepsInv(s, g);
    case Proceed =>
      if p.Binding? || p.Waiting? || p.Cancelled? || p.Draining? {
        WaitKeepsInv(s, g);
      } else if p.WantWriter? || p.WantReader? || p.CronStart? || p.HasReader? || p.Retained? {
        EntryKeepsInv(s, g);
      }
  }

  lemma NotedKeepsInv(s: State, g: nat, id: string)
    requires Inv(s) && g < |s.turns|
    ensures Inv(Noted(s, g, id))
  {
    var s' := Noted(s, g, id);
    BindMoves(s, g, s'.turns[g]);
    forall l | 0 <= l < |s.table.locks|
      ensures Accounted(s', l)
    {
      assert Accounted(s, l);
      LockMoves(s, g, s'.turns[g], l);
    }
    assert s'.turns == s.turns[g := s'.turns[g]] && KeysOfTurns(s');
  }

  /** A new turn starts with nothing. */
  lemma SpawnKeepsInv(s: State, u: Turn)
    requires Inv(s) && !Refers(u) && !Has(u, Writer) && !Has(u, Reader)
    ensures Inv(Arrived(s, u))
  {
    var s' := Arrived(s, u);
    CountAppend(s.turns, u, Writer);
    CountAppend(s.turns, u, Reader);
    forall l | 0 <= l < |s.table.locks|
      ensures Accounted(s', l)
    {
      assert Accounted(s, l);
      CountAppend(s.turns, u, Ref(l));
      CountAppend(s.turns, u, Hold(l));
    }
    forall g | 0 <= g < |s'.turns| && Refers(s'.turns[g])
      ensures var p := s'.turns[g].phase; p.key in s'.table.turns && s'.table.turns[p.key] == p.lock
    {
      assert s'.turns[g] == s.turns[g];
    }
  }

  lemma StepKeepsInv(s: State, step: Step)
    requires Inv(s)
    ensures Inv(Apply(s, step))
  {
    if step.Act? {
      if step.turn < |s.turns| { NextKeepsInv(s, step.turn, step.action); }
    } else if step.Bind? {
      if step.turn < |s.turns| {
        NotedKeepsInv(s, step.turn, step.id);
        NextKeepsInv(Noted(s, step.turn, step.id), step.turn, BindTo(BindKey(s.agent, step.id)));
      }
    } else if Spawned(s, step) != s {
      SpawnKeepsInv(s, Spawned(s, step).turns[|s.turns|]);
    }
  }

  // ---------------------------------------------------------------- runs

  /** The state after a list of steps, each taken when it can happen. */
  ghost function Run(s: State, steps: seq<Step>): State {
    if steps == [] then s else Apply(Run(s, steps[..|steps| - 1]), steps[|steps| - 1])
  }

  lemma RunOneMore(s: State, steps: seq<Step>, step: Step)
    ensures Run(s, steps + [step]) == Apply(Run(s, steps), step)
  {
    assert (steps + [step])[..|steps|] == steps;
  }

  lemma {:induction false} RunAppend(s: State, steps: seq<Step>, more: seq<Step>)
    ensures Run(s, steps + more) == Run(Run(s, steps), more)
  {
    if more == [] {
      assert steps + more == steps;
    } else {
      var n := |more| - 1;
      RunAppend(s, steps, more[..n]);
      assert (steps + more)[..|steps + more| - 1] == steps + more[..n];
    }
  }

  lemma {:induction false} RunKeepsInv(s: State, steps: seq<Step>)
    requires Inv(s)
    ensures Inv(Run(s, steps))
  {
    if steps != [] {
      RunKeepsInv(s, steps[..|steps| - 1]);
      StepKeepsInv(Run(s, steps[..|steps| - 1]), steps[|steps| - 1]);
    }
  }

  /** States the program can be in, for an agent of a given name. */
  ghost predicate Reachable(s: State) {
    exists steps: seq<Step> :: s == Run(Init(s.agent), steps)
  }

  lemma ReachableInv(s: State)
    requires Reachable(s)
    ensures Inv(s)
  {
    var steps: seq<Step> :| s == Run(Init(s.agent), steps);
    InitInv(s.agent);
    RunKeepsInv(Init(s.agent), steps);
  }

  // ---------------------------------------------------------------- what holds in every run

  /** In every reachable state the reference count of a lock is the number of turns that
      wait on it, hold it or still have to return it; its entry is in the map exactly
      while that number is positive; and those turns all refer to that entry. */
  lemma LockAccounting(s: State, l: LockId)
    requires Reachable(s) && l < |s.table.locks|
    ensures s.table.locks[l].refs == Count(s.turns, Ref(l))
    ensures s.table.locks[l].refs > 0 <==> exists k :: k in s.table.turns && s.table.turns[k] == l
    ensures forall g | 0 <= g < |s.turns| && Has(s.turns[g], Ref(l)) ::
      s.turns[g].phase.key in s.table.turns && s.table.turns[s.turns[g].phase.key] == l
    ensures s.table.locks[l].full <==> exists g :: 0 <= g < |s.turns| && Has(s.turns[g], Hold(l))
  {
    ReachableInv(s);
    assert Accounted(s, l);
    CountPositive(s.turns, Ref(l));
    CountPositive(s.turns, Hold(l));
    if s.table.locks[l].refs > 0 {
      var g :| 0 <= g < |s.turns| && Has(s.turns[g], Ref(l));
      assert s.table.turns[s.turns[g].phase.key] == l;
    }
  }

  /** At most one turn, of any kind, holds the lock of a key. */
  lemma OneHolderPerKey(s: State, g: nat, h: nat)
    requires Reachable(s) && g < |s.turns| && h < |s.turns|
    requires s.turns[g].phase.Holding? && s.turns[h].phase.Holding?
    requires s.turns[g].phase.key == s.turns[h].phase.key
    ensures g == h
  {
    ReachableInv(s);
    var l := s.turns[g].phase.lock;
    assert s.table.turns[s.turns[g].phase.key] == l && s.turns[h].phase.lock == l;
    assert Accounted(s, l);
    CountOne(s.turns, Hold(l), g, h);
  }

  /** While one turn has the bind lock exclusively because its ID is unknown, no other turn
      does, and no turn with a known ID is between its bind lock and its retained lock. */
  lemma UnknownIDExcludesEntry(s: State, g: nat, h: nat)
    requires Reachable(s) && g < |s.turns| && h < |s.turns|
    requires Has(s.turns[g], Writer)
    ensures !Has(s.turns[h], Reader)
    ensures Has(s.turns[h], Writer) ==> g == h
  {
    ReachableInv(s);
    CountPositive(s.turns, Writer);
    CountPositive(s.turns, Reader);
    if Has(s.turns[h], Writer) {
      CountOne(s.turns, Writer, g, h);
    }
  }

  // ---------------------------------------------------------------- one turn per session ID

  /** The turn has or wants the lock of a key. */
  predicate HasKey(p: Phase) {
    p.WantReader? || p.CronStart? || p.HasReader? || p.Retained? || p.Binding? || p.Waiting? || p.Cancelled?
    || p.Holding? || p.Draining?
  }

  /** A turn's key is that of the ID it asked for; a turn that wants or has the bind lock
      exclusively was started without an ID; cron turns have no guard. */
  predicate AskOk(agent: string, t: Turn) {
    && (t.cron ==> !t.guard && !t.phase.Idle?)
    && (HasKey(t.phase) ==>
          Trim(t.asked) != "" && t.phase.key == if t.cron then CronKey(agent, t.asked) else InteractiveKey(agent, t.asked))
    && (t.phase.WantWriter? || t.phase.HasWriter? ==> !t.cron && Trim(t.asked) == "")
    && GuardOk(t)
  }

  /** An interactive turn that has had the bind lock exclusively or an ID has a guard, and a
      turn with a guard is never gone. */
  predicate GuardOk(t: Turn) {
    var p := t.phase;
    && (!t.cron && (p.HasWriter? || p.Binding? || p.Holding? || p.Draining? || p.Idle?) ==> t.guard)
    && (t.guard ==> !p.WantWriter? && !p.WantReader? && !p.Gone?)
  }

  predicate AsksOk(s: State) { forall g | 0 <= g < |s.turns| :: AskOk(s.agent, s.turns[g]) }

  /** From t to u, a turn keeps its history, its key if it still has one, and gains no guard
      as a cron turn. */
  predicate KeepsAsk(t: Turn, u: Turn) {
    && u.cron == t.cron && u.asked == t.asked
    && (HasKey(u.phase) ==> HasKey(t.phase) && u.phase.key == t.phase.key)
    && (u.phase.WantWriter? || u.phase.HasWriter? ==> t.phase.WantWriter? || t.phase.HasWriter?)
    && (t.cron && !t.guard && !t.phase.Idle? && !t.phase.WantWriter? ==> !u.guard && !u.phase.Idle?)
    && (t.guard ==> u.guard) && (GuardOk(t) ==> GuardOk(u))
  }

  lemma NextKeepsAsk(s: State, g: nat, a: Action)
    requires Sound(s) && g < |s.turns| && !a.BindTo? && Next(s, g, a).Some?
    requires s.turns[g].cron ==> !s.turns[g].phase.HasWriter?
    ensures var s' := Next(s, g, a).value;
      s'.agent == s.agent && g < |s'.turns| && s'.turns == s.turns[g := s'.turns[g]] && KeepsAsk(s.turns[g], s'.turns[g])
  {}

  lemma StartBindAsks(s: State, g: nat, id: string)
    requires Sound(s) && g < |s.turns| && !s.turns[g].cron && Trim(id) != ""
    requires s.turns[g].phase.HasWriter? || s.turns[g].phase.Idle?
    ensures var s' := StartBind(Noted(s, g, id), g, BindKey(s.agent, id));
      && s'.agent == s.agent && g < |s'.turns| && s'.turns == s.turns[g := s'.turns[g]]
      && s'.turns[g].asked == id && !s'.turns[g].cron
      && (if s.turns[g].phase.HasWriter? then s'.turns[g].phase.Binding? else s'.turns[g].phase.Waiting?)
      && s'.turns[g].phase.key == InteractiveKey(s.agent, id)
  {}

  lemma BindIsStartBind(s: State, g: nat, id: string)
    requires Inv(s) && g < |s.turns|
    ensures var was := s.turns[g].phase;
      Apply(s, Bind(g, id)) == if Trim(id) != "" && (was.HasWriter? || was.Idle?)
                               then StartBind(Noted(s, g, id), g, BindKey(s.agent, id)) else s
  {
    NotedKeepsInv(s, g, id);
  }

  lemma OneTurnAsks(s: State, s': State, g: nat)
    requires AsksOk(s) && s'.agent == s.agent && g < |s.turns| && |s'.turns| == |s.turns|
    requires s'.turns == s.turns[g := s'.turns[g]] && AskOk(s.agent, s'.turns[g])
    ensures AsksOk(s')
  {
    forall h | 0 <= h < |s'.turns| ensures AskOk(s'.agent, s'.turns[h]) {
      assert AskOk(s.agent, s.turns[h]);
    }
  }

  lemma StepKeepsAsks(s: State, step: Step)
    requires Inv(s) && AsksOk(s)
    ensures AsksOk(Apply(s, step)) && Apply(s, step).agent == s.agent
  {
    if step.Act? {
      if step.turn < |s.turns| && !step.action.BindTo? && Next(s, step.turn, step.action).Some? {
        NextKeepsAsk(s, step.turn, step.action);
        assert AskOk(s.agent, s.turns[step.turn]);
        OneTurnAsks(s, Next(s, step.turn, step.action).value, step.turn);
      }
    } else if step.Bind? {
      if step.turn < |s.turns| {
        BindIsStartBind(s, step.turn, step.id);
        assert AskOk(s.agent, s.turns[step.turn]);
        if Apply(s, step) != s {
          StartBindAsks(s, step.turn, step.id);
          OneTurnAsks(s, Apply(s, step), step.turn);
        }
      }
    }
  }

  lemma {:induction false} RunKeepsAsks(agent: string, steps: seq<Step>)
    ensures var s := Run(Init(agent), steps); s.agent == agent && Inv(s) && AsksOk(s)
  {
    InitInv(agent);
    if steps != [] {
      var front := steps[..|steps| - 1];
      RunKeepsAsks(agent, front);
      StepKeepsInv(Run(Init(agent), front), steps[|steps| - 1]);
      StepKeepsAsks(Run(Init(agent), front), steps[|steps| - 1]);
    }
  }

  /** In every reachable state a turn that has or wants the lock of a key was given an ID, and
      the key is made of the agent's name, a colon and that ID: trimmed, except that cron
      turns use the name as it is. A turn that has or wants the bind lock exclusively is an
      interactive one without an ID. */
  lemma KeyIsOfAskedID(s: State, g: nat)
    requires Reachable(s) && g < |s.turns|
    ensures var t := s.turns[g];
      && (HasKey(t.phase) ==>
            && Trim(t.asked) != ""
            && t.phase.key == (if t.cron then s.agent else if Trim(s.agent) == "" then "agent" else Trim(s.agent))
                 + ":" + Trim(t.asked))
      && (t.phase.WantWriter? || t.phase.HasWriter? ==> !t.cron && Trim(t.asked) == "")
      && (t.phase.Idle? ==> !t.cron)
  {
    var steps: seq<Step> :| s == Run(Init(s.agent), steps);
    RunKeepsAsks(s.agent, steps);
    assert AskOk(s.agent, s.turns[g]);
  }

  /** In every reachable state the owner of a session ID gives it up with Unlock: a cron turn is
      then gone, the guard of an interactive one can be bound again. */
  lemma OwnerEndsAs(s: State, g: nat)
    requires Reachable(s) && g < |s.turns| && s.turns[g].phase.Holding?
    ensures var t := s.turns[g];
      Run(s, [Act(g, Unlock), Act(g, Proceed)]).turns == s.turns[g := t.(phase := if t.cron then Gone else Idle)]
  {
    ReachableInv(s);
    HasGuard(s, g);
    HeldIsDrained(s, g);
  }

  /** In every reachable state a turn whose context ends while it waits gives back what it has
      retained and changes nothing else; only one that has a guard can ask again. */
  lemma CancelledEndsAs(s: State, g: nat)
    requires Reachable(s) && g < |s.turns|
    ensures var t := s.turns[g];
      && (t.phase.Waiting? ==>
            (t.phase.lock < |s.table.locks| &&
             Run(s, [Act(g, Action.Cancel), Act(g, Proceed)]) ==
               State(s.agent, ReleaseRef(s.table, t.phase.key, t.phase.lock),
                     s.turns[g := t.(phase := if t.guard then Idle else Gone)])))
      && (t.phase.WantWriter? || t.phase.WantReader? ==>
            Apply(s, Act(g, Action.Cancel)) == s.(turns := s.turns[g := t.(phase := Gone)]))
  {
    ReachableInv(s);
    if s.turns[g].phase.Waiting? { WaitEnds(s, g); } else { ActIsNext(s, g, Action.Cancel); }
  }

  lemma HasGuard(s: State, g: nat)
    requires Reachable(s) && g < |s.turns|
    ensures GuardOk(s.turns[g]) && (s.turns[g].cron ==> !s.turns[g].guard)
  {
    var steps: seq<Step> :| s == Run(Init(s.agent), steps);
    RunKeepsAsks(s.agent, steps);
    assert AskOk(s.agent, s.turns[g]);
  }

  /** A turn asks for the ID it is started with: without one it wants the bind lock exclusively,
      with one the shared bind lock or, a cron turn, its own lock; a cron turn without an ID
      takes no lock. */
  lemma SpawnAsks(s: State, id: string)
    ensures var turns := Apply(s, SpawnInteractive(id)).turns;
      && |turns| == |s.turns| + 1 && turns[..|s.turns|] == s.turns
      && var t := turns[|s.turns|]; !t.cron && t.asked == id && (if Trim(id) == "" then t.phase.WantWriter? else t.phase.WantReader?)
    ensures var turns := Apply(s, SpawnCron(id)).turns;
      if Trim(id) == "" then turns == s.turns
      else
        && |turns| == |s.turns| + 1 && turns[..|s.turns|] == s.turns
        && var t := turns[|s.turns|]; t.cron && t.asked == id && t.phase.CronStart?
  {}

  /** A guard that owns no ID comes to ask for the ID it is given and retains its lock, keeping
      an exclusive bind lock until then; a blank ID, and a second Bind, change nothing. */
  lemma BindAsks(s: State, g: nat, id: string)
    requires Reachable(s) && g < |s.turns|
    ensures var s', was := Apply(s, Bind(g, id)), s.turns[g].phase;
      if Trim(id) == "" || !(was.HasWriter? || was.Idle?) then s' == s
      else
        && |s'.turns| == |s.turns| && s'.turns[g].asked == id
        && (if was.HasWriter? then s'.turns[g].phase.Binding? else s'.turns[g].phase.Waiting?)
        && s'.turns[g].phase.key == (if Trim(s.agent) == "" then "agent" else Trim(s.agent)) + ":" + Trim(id)
        && (forall h | 0 <= h < |s.turns| && h != g :: s'.turns[h] == s.turns[h])
  {
    ReachableInv(s);
    BindIsStartBind(s, g, id);
    var was := s.turns[g].phase;
    if Trim(id) != "" && (was.HasWriter? || was.Idle?) {
      KeyIsOfAskedID(s, g);
      StartBindAsks(s, g, id);
    }
  }

  /** Turn g owns an agent session ID: the one it asked for. */
  predicate HoldsID(s: State, g: nat, id: string) {
    g < |s.turns| && s.turns[g].phase.Holding? && Trim(s.turns[g].asked) == Trim(id)
  }

  /** The agent's name is what the interactive path makes of it. */
  predicate PlainName(agent: string) {
    agent != "" && Trim(agent) == agent
  }

  /** In every run at most one turn owns a session ID. */
  ghost predicate OneTurnPerID(agent: string) {
    forall s, id, g: nat, h: nat ::
      Reachable(s) && s.agent == agent && HoldsID(s, g, id) && HoldsID(s, h, id) ==> g == h
  }

  lemma KeysAgree(agent: string, id: string)
    ensures InteractiveKey(agent, id) == CronKey(agent, id) <==> PlainName(agent)
  {
    var name := if Trim(agent) == "" then "agent" else Trim(agent);
    if name + ":" + Trim(id) == agent + ":" + Trim(id) {
      var tail := ":" + Trim(id);
      assert name + tail == agent + tail by {
        assert name + ":" + Trim(id) == name + tail && agent + ":" + Trim(id) == agent + tail;
      }
      assert |name| == |agent|;
      assert name == (name + tail)[..|name|] == (agent + tail)[..|agent|] == agent;
      if Trim(agent) == "" { TrimOfTrimmed(agent); }
    }
  }

  /** Going on with turn g n times. */
  function Proceeds(g: nat, n: nat): (steps: seq<Step>)
    ensures |steps| == n
  {
    if n == 0 then [] else Proceeds(g, n - 1) + [Act(g, Proceed)]
  }

  /** The state after the next action of code already running. */
  function Moved(s: State, g: nat): State
    requires Sound(s) && g < |s.turns|
  {
    Next(s, g, Proceed).GetOr(s)
  }

  lemma OneMoreProceed(s: State, g: nat, n: nat)
    requires Sound(Run(s, Proceeds(g, n))) && g < |Run(s, Proceeds(g, n)).turns|
    ensures Run(s, Proceeds(g, n + 1)) == Moved(Run(s, Proceeds(g, n)), g)
  {
    RunOneMore(s, Proceeds(g, n), Act(g, Proceed));
  }

  /** A new key gets a new lock. */
  lemma RetainsNew(s: State, g: nat, key: string)
    requires Sound(s) && g < |s.turns| && key !in s.table.turns
    requires s.turns[g].phase == CronStart(key) || s.turns[g].phase == HasReader(key)
    ensures var s', l := Moved(s, g), |s.table.locks|;
      && Sound(s') && s'.agent == s.agent
      && s'.table == s.table.(turns := s.table.turns[key := l], locks := s.table.locks + [Lock(1, false)])
      && s'.turns == s.turns[g := s.turns[g].(phase := if s.turns[g].phase.CronStart? then Waiting(key, l) else Retained(key, l))]
  {}

  /** A free lock is taken. */
  lemma TakesFree(s: State, g: nat, key: string, l: LockId)
    requires Sound(s) && g < |s.turns| && s.turns[g].phase == Waiting(key, l) && !s.table.locks[l].full
    ensures var s' := Moved(s, g); var t := s.turns[g];
      && s'.agent == s.agent && s'.table == SetFull(s.table, l, true)
      && s'.turns == s.turns[g := Turn(t.cron, t.guard || !t.cron, Holding(key, l), t.asked)]
  {}

  /** A cron turn that starts while nobody uses its key comes to own the session ID. */
  lemma CronAcquires(s: State, g: nat, key: string, id: string)
    requires Sound(s) && g < |s.turns| && s.turns[g] == Turn(true, false, CronStart(key), id)
    requires key !in s.table.turns
    ensures var s' := Run(s, Proceeds(g, 2)); var l := |s.table.locks|;
      && s'.table == s.table.(turns := s.table.turns[key := l], locks := s.table.locks + [Lock(1, true)])
      && s' == s.(table := s'.table, turns := s.turns[g := Turn(true, false, Holding(key, l), id)])
  {
    var l := |s.table.locks|;
    OneMoreProceed(s, g, 0);
    RetainsNew(s, g, key);
    OneMoreProceed(s, g, 1);
    TakesFree(Moved(s, g), g, key, l);
    assert (s.table.locks + [Lock(1, false)])[l := Lock(1, true)] == s.table.locks + [Lock(1, true)];
  }

  /** A turn with a known ID that starts while nobody uses its key, and no turn binds,
      comes to own the session ID. */
  lemma KnownAcquires(s: State, g: nat, key: string, id: string)
    requires Sound(s) && g < |s.turns| && s.turns[g] == Turn(false, false, WantReader(key), id)
    requires key !in s.table.turns && !s.table.writer
    ensures var s' := Run(s, Proceeds(g, 4)); var l := |s.table.locks|;
      s'.agent == s.agent && s'.turns == s.turns[g := Turn(false, true, Holding(key, l), id)]
  {
    KnownRetains(s, g, key, id);
    var s2 := Run(s, Proceeds(g, 2));
    OneMoreProceed(s, g, 2);
    LeavesReader(s2, g, key, |s.table.locks|);
    OneMoreProceed(s, g, 3);
    TakesFree(Moved(s2, g), g, key, |s.table.locks|);
  }

  lemma EntersReader(s: State, g: nat, key: string)
    requires Sound(s) && g < |s.turns| && s.turns[g].phase == WantReader(key) && !s.table.writer
    ensures Moved(s, g) == Put(s, LockBind(s.table, false), g, HasReader(key)) && Sound(Moved(s, g))
  {}

  lemma LeavesReader(s: State, g: nat, key: string, l: LockId)
    requires Sound(s) && g < |s.turns| && s.turns[g].phase == Retained(key, l)
    ensures Moved(s, g) == Put(s, UnlockBind(s.table, false), g, Waiting(key, l)) && Sound(Moved(s, g))
  {}

  lemma KnownRetains(s: State, g: nat, key: string, id: string)
    requires Sound(s) && g < |s.turns| && s.turns[g] == Turn(false, false, WantReader(key), id)
    requires key !in s.table.turns && !s.table.writer
    ensures var s' := Run(s, Proceeds(g, 2)); var l := |s.table.locks|;
      && Sound(s') && s'.agent == s.agent
      && |s'.table.locks| == l + 1 && !s'.table.locks[l].full
      && s'.turns == s.turns[g := Turn(false, false, Retained(key, l), id)]
  {
    OneMoreProceed(s, g, 0);
    EntersReader(s, g, key);
    OneMoreProceed(s, g, 1);
    RetainsNew(Moved(s, g), g, key);
  }

  /** A cron turn and an interactive turn whose keys differ can both own their lock. */
  lemma BothOwn(s0: State, cronKey: string, key: string, id: string)
    requires cronKey != key && s0.table == EMPTY_TABLE && s0.turns == [Turn(true, false, CronStart(cronKey), id)]
    ensures var s1 := Arrived(Run(s0, Proceeds(0, 2)), Turn(false, false, WantReader(key), id));
      && s1.agent == s0.agent && Run(s1, Proceeds(1, 4)).agent == s0.agent
      && Run(s1, Proceeds(1, 4)).turns == [Turn(true, false, Holding(cronKey, 0), id), Turn(false, true, Holding(key, 1), id)]
  {
    CronAcquires(s0, 0, cronKey, id);
    KnownAcquires(Arrived(Run(s0, Proceeds(0, 2)), Turn(false, false, WantReader(key), id)), 1, key, id);
  }

  /** Eight steps after which a cron turn and an interactive turn both own session ID "x". */
  function ClashSteps(): seq<Step> {
    [SpawnCron("x")] + Proceeds(0, 2) + [SpawnInteractive("x")] + Proceeds(1, 4)
  }

  lemma SpawnedForX(s: State)
    ensures Spawned(s, SpawnCron("x")) == Arrived(s, Turn(true, false, CronStart(CronKey(s.agent, "x")), "x"))
    ensures Spawned(s, SpawnInteractive("x")) == Arrived(s, Turn(false, false, WantReader(InteractiveKey(s.agent, "x")), "x"))
  {
    assert Trim("x") == "x";
  }

  lemma ClashRun(s: State)
    ensures var s0 := Spawned(s, SpawnCron("x"));
      Run(s, ClashSteps()) == Run(Spawned(Run(s0, Proceeds(0, 2)), SpawnInteractive("x")), Proceeds(1, 4))
  {
    var a, b := [SpawnCron("x")], Proceeds(0, 2);
    RunOneMore(s, [], SpawnCron("x"));
    assert [] + a == a;
    RunAppend(s, a, b);
    RunOneMore(s, a + b, SpawnInteractive("x"));
    RunAppend(s, a + b + [SpawnInteractive("x")], Proceeds(1, 4));
  }

  /** With a name that is blank or that trimming changes, both kinds of turn own session ID "x" at once. */
  lemma ClashReachable(agent: string)
    requires !PlainName(agent)
    ensures var s := Run(Init(agent), ClashSteps());
      s.agent == agent && HoldsID(s, 0, "x") && HoldsID(s, 1, "x")
  {
    KeysAgree(agent, "x");
    var cronKey, key := CronKey(agent, "x"), InteractiveKey(agent, "x");
    ClashRun(Init(agent));
    var s0 := Spawned(Init(agent), SpawnCron("x"));
    SpawnedForX(Init(agent));
    BothOwn(s0, cronKey, key, "x");
    SpawnedForX(Run(s0, Proceeds(0, 2)));
  }

  /** Turns of all kinds exclude each other on a session ID exactly when the agent's name is
      not blank and needs no trimming: the cron path makes its keys from the name as it is. */
  lemma OneTurnPerIDExactly(agent: string)
    ensures OneTurnPerID(agent) <==> PlainName(agent)
  {
    if PlainName(agent) {
      forall s, id, g: nat, h: nat | Reachable(s) && s.agent == agent && HoldsID(s, g, id) && HoldsID(s, h, id)
        ensures g == h
      {
        KeysAgree(agent, id);
        KeyIsOfAskedID(s, g);
        KeyIsOfAskedID(s, h);
        OneHolderPerKey(s, g, h);
      }
    } else {
      ClashReachable(agent);
      var s := Run(Init(agent), ClashSteps());
      assert Reachable(s) && s.agent == agent && HoldsID(s, 0, "x") && HoldsID(s, 1, "x");
    }
  }

  // ---------------------------------------------------------------- no deadlock, no leak

  predicate Unfinished(t: Turn) {
    !t.phase.Idle? && !t.phase.Gone?
  }

  /** What a turn does next without its context ending: code that runs goes on, and the
      owner of a guard calls Unlock. */
  function Forward(t: Turn): Action {
    if t.phase.HasWriter? || t.phase.Holding? then Unlock else Proceed
  }

  predicate CanStep(s: State, g: nat)
    requires g < |s.turns| && Sound(s)
  {
    Next(s, g, Forward(s.turns[g])).Some?
  }

  /** A turn that cannot step owns nothing another turn could wait for: neither the bind
      lock in either mode nor a session ID. What it waits for, another turn has, and that
      turn can step. */
  lemma BlockedTurn(s: State, g: nat) returns (h: nat)
    requires Inv(s) && g < |s.turns| && Unfinished(s.turns[g]) && !CanStep(s, g)
    ensures forall r: Role :: Has(s.turns[g], r) ==> r.Ref? && s.turns[g].phase.Waiting?
    ensures h < |s.turns| && h != g && Unfinished(s.turns[h]) && CanStep(s, h)
    ensures if s.turns[g].phase.Waiting? then Has(s.turns[h], Hold(s.turns[g].phase.lock))
            else Has(s.turns[h], Writer) || Has(s.turns[h], Reader)
  {
    if s.turns[g].phase.Waiting? {
      h := HolderOf(s, s.turns[g].phase.lock);
    } else {
      h := BindOwner(s);
    }
  }

  lemma HolderOf(s: State, l: LockId) returns (h: nat)
    requires Inv(s) && l < |s.table.locks| && s.table.locks[l].full
    ensures h < |s.turns| && Has(s.turns[h], Hold(l))
  {
    assert Accounted(s, l);
    CountPositive(s.turns, Hold(l));
    h :| 0 <= h < |s.turns| && Has(s.turns[h], Hold(l));
  }

  lemma BindOwner(s: State) returns (h: nat)
    requires Inv(s) && !CanLockBind(s.table, true)
    ensures h < |s.turns| && if s.table.writer then Has(s.turns[h], Writer) else Has(s.turns[h], Reader)
  {
    var r := if s.table.writer then Writer else Reader;
    CountPositive(s.turns, r);
    h :| 0 <= h < |s.turns| && Has(s.turns[h], r);
  }

  /** Whatever a turn gives back, it has: no count drops below zero, no channel is drained
      while empty, and the bind lock is never unlocked while free. */
  lemma ReleasesAreOwned(s: State, g: nat)
    requires Inv(s) && g < |s.turns|
    ensures Refers(s.turns[g]) ==> s.table.locks[s.turns[g].phase.lock].refs >= 1
    ensures s.turns[g].phase.Holding? ==> s.table.locks[s.turns[g].phase.lock].full
    ensures Has(s.turns[g], Writer) ==> s.table.writer
    ensures Has(s.turns[g], Reader) ==> s.table.readers >= 1
  {
    if Refers(s.turns[g]) {
      var l := s.turns[g].phase.lock;
      assert Accounted(s, l);
      UsersCounted(s, g, Ref(l));
      CountPositive(s.turns, Hold(l));
    }
    CountPositive(s.turns, Writer);
    CountPositive(s.turns, Reader);
  }

  /** Nothing is held: no map entry, no reference, no full channel, a free bind lock. */
  predicate Clean(t: Table) {
    && t.turns == map[] && !t.writer && t.readers == 0
    && forall l | 0 <= l < |t.locks| :: t.locks[l] == Lock(0, false)
  }

  predicate AllFinished(s: State) {
    forall g | 0 <= g < |s.turns| :: !Unfinished(s.turns[g])
  }

  /** Everything acquired has been released, each thing once, when every turn has ended. */
  lemma FinishedIsClean(s: State)
    requires Inv(s) && AllFinished(s)
    ensures Clean(s.table)
  {
    CountPositive(s.turns, Writer);
    CountPositive(s.turns, Reader);
    forall l | 0 <= l < |s.table.locks|
      ensures s.table.locks[l] == Lock(0, false)
    {
      assert Accounted(s, l);
      CountPositive(s.turns, Ref(l));
      CountPositive(s.turns, Hold(l));
    }
    assert s.table.turns.Keys == {};
  }

  /** How many actions a turn still has to take. */
  function Left(t: Turn): nat {
    match t.phase
    case WantWriter => 2
    case WantReader(_) => 6
    case HasReader(_) => 5
    case Retained(_, _) | CronStart(_) | Binding(_, _) => 4
    case Waiting(_, _) => 3
    case Holding(_, _) => 2
    case HasWriter | Cancelled(_, _) | Draining(_, _) => 1
    case Idle | Gone => 0
  }

  function TotalLeft(turns: seq<Turn>): nat {
    if turns == [] then 0 else Left(turns[0]) + TotalLeft(turns[1..])
  }

  lemma {:induction false} TotalLeftUpdate(turns: seq<Turn>, g: nat, t: Turn)
    requires g < |turns|
    ensures TotalLeft(turns[g := t]) + Left(turns[g]) == TotalLeft(turns) + Left(t)
  {
    if g == 0 {
      assert turns[0 := t][1..] == turns[1..];
    } else {
      TotalLeftUpdate(turns[1..], g - 1, t);
      assert turns[g := t][1..] == turns[1..][g - 1 := t];
    }
  }

  lemma DrainStep(s: State) returns (step: Step)
    requires Inv(s) && !AllFinished(s)
    ensures step.Act? && !step.action.Cancel?
    ensures Inv(Apply(s, step)) && TotalLeft(Apply(s, step).turns) < TotalLeft(s.turns)
  {
    var g: nat :| g < |s.turns| && Unfinished(s.turns[g]);
    if !CanStep(s, g) { g := BlockedTurn(s, g); }
    step := Act(g, Forward(s.turns[g]));
    StepKeepsInv(s, step);
    ForwardLowers(s, g);
  }

  lemma ForwardLowers(s: State, g: nat)
    requires Sound(s) && g < |s.turns| && Unfinished(s.turns[g]) && CanStep(s, g)
    ensures TotalLeft(Next(s, g, Forward(s.turns[g])).value.turns) < TotalLeft(s.turns)
  {
    var s' := Next(s, g, Forward(s.turns[g])).value;
    TotalLeftUpdate(s.turns, g, s'.turns[g]);
    assert s'.turns == s.turns[g := s'.turns[g]];
  }

  /** From every reachable state the turns now present can all be driven to their end, with
      no context ending and no new turn arriving, and the locks are then as in the beginning. */
  lemma {:induction false} DrainsClean(s: State) returns (steps: seq<Step>)
    requires Inv(s)
    ensures AllFinished(Run(s, steps)) && Clean(Run(s, steps).table)
    ensures forall i | 0 <= i < |steps| :: steps[i].Act? && !steps[i].action.Cancel?
    ensures |steps| <= TotalLeft(s.turns)
  {
    steps := [];
    var now := s;
    while !AllFinished(now)
      invariant Inv(now) && now == Run(s, steps)
      invariant forall i | 0 <= i < |steps| :: steps[i].Act? && !steps[i].action.Cancel?
      invariant |steps| + TotalLeft(now.turns) <= TotalLeft(s.turns)
      decreases TotalLeft(now.turns)
    {
      var step := DrainStep(now);
      RunOneMore(s, steps, step);
      steps, now := steps + [step], Apply(now, step);
    }
    FinishedIsClean(now);
  }

  // ---------------------------------------------------------------- the program's objects

  /** How a call that waits stands: it returned nil, or the context's error, or not yet. */
  datatype Wait = Ok | Ended | Blocked

  /** The table after a wait for a retained lock. */
  function AfterWait(t: Table, key: string, l: LockId, w: Wait): Table
    requires l < |t.locks|
  {
    match w
    case Ok => SetFull(t, l, true)
    case Ended => ReleaseRef(t, key, l)
    case Blocked => t
  }

  /** agentSessionTurnLock. */
  class TurnLock {
    var refs: int
    var full: bool
    ghost const id: LockId

    constructor (ghost id: LockId)
      ensures this.id == id && refs == 1 && !full
    {
      this.id := id;
      refs, full := 1, false;
    }
  }

  /** The engine's agentSessionTurns and agentSessionBindMu. Each method is one critical
      section of the program. */
  class LockTable {
    var turns: map<string, TurnLock>
    var writer: bool
    var readers: int
    ghost var made: seq<TurnLock>

    ghost predicate Valid()
      reads this, made
    {
      && (forall i | 0 <= i < |made| :: made[i].id == i)
      && (forall k | k in turns :: Known(turns[k]))
    }

    ghost predicate Known(lock: TurnLock)
      reads this
    {
      lock.id < |made| && made[lock.id] == lock
    }

    ghost function View(): Table
      reads this, made
    {
      Table(map k | k in turns :: turns[k].id,
            seq(|made|, i requires 0 <= i < |made| reads this, made => Lock(made[i].refs, made[i].full)),
            writer, readers)
    }

    constructor ()
      ensures Valid() && View() == EMPTY_TABLE
    {
      turns, writer, readers, made := map[], false, 0, [];
    }

    method TryLockBindMu(exclusive: bool) returns (ok: bool)
      requires Valid()
      modifies this`writer, this`readers
      ensures Valid() && made == old(made)
      ensures ok == CanLockBind(old(View()), exclusive)
      ensures View() == if ok then LockBind(old(View()), exclusive) else old(View())
    {
      ok := !writer && (!exclusive || readers == 0);
      if ok {
        if exclusive { writer := true; } else { readers := readers + 1; }
      }
    }

    method UnlockBindMu(exclusive: bool)
      requires Valid()
      modifies this`writer, this`readers
      ensures Valid() && made == old(made)
      ensures View() == UnlockBind(old(View()), exclusive)
    {
      if exclusive { writer := false; } else { readers := readers - 1; }
    }

    method RetainTurn(key: string) returns (lock: TurnLock)
      requires Valid()
      modifies this`turns, this`made, made`refs
      ensures Valid() && Known(lock) && old(made) <= made && fresh(set x | x in made[|old(made)|..])
      ensures (View(), lock.id) == Retain(old(View()), key)
      ensures lock.full == (key in old(turns) && old(turns)[key].full) && unchanged(this`writer) && unchanged(this`readers)
    {
      if key in turns {
        lock := turns[key];
        lock.refs := lock.refs + 1;
        assert View().locks == Retain(old(View()), key).0.locks;
      } else {
        lock := new TurnLock(|made|);
        turns, made := turns[key := lock], made + [lock];
        assert View().locks == old(View()).locks + [Lock(1, false)];
        assert View().turns == old(View()).turns[key := lock.id];
      }
    }

    /** The send side of the select in waitAgentSessionTurnLock. */
    method TryEnter(lock: TurnLock) returns (ok: bool)
      requires Valid() && Known(lock)
      modifies lock`full
      ensures Valid()
      ensures ok == !old(lock.full)
      ensures View() == if ok then SetFull(old(View()), lock.id, true) else old(View())
    {
      ok := !lock.full;
      if ok { lock.full := true; }
    }

    /** One look at the select in waitAgentSessionTurnLock; `done` is whether it takes the
        branch of the ended context. */
    method WaitTurn(key: string, lock: TurnLock, done: bool) returns (w: Wait)
      requires Valid() && Known(lock)
      modifies this`turns, lock
      ensures Valid() && made == old(made)
      ensures w == if done then Ended else if old(lock.full) then Blocked else Ok
      ensures View() == AfterWait(old(View()), key, lock.id, w) && (w.Ok? ==> lock.full)
    {
      if done {
        ReleaseTurnRef(key, lock);
        return Ended;
      }
      var ok := TryEnter(lock);
      w := if ok then Ok else Blocked;
    }

    method Leave(lock: TurnLock)
      requires Valid() && Known(lock) && lock.full
      modifies lock`full
      ensures Valid()
      ensures View() == SetFull(old(View()), lock.id, false)
    {
      lock.full := false;
    }

    method ReleaseTurnRef(key: string, lock: TurnLock)
      requires Valid() && Known(lock)
      modifies this`turns, lock`refs
      ensures Valid() && made == old(made)
      ensures View() == ReleaseRef(old(View()), key, lock.id)
    {
      lock.refs := lock.refs - 1;
      if lock.refs == 0 {
        turns := turns - {key};
      }
    }
  }

  /** What a guard's turnUnlock closure captures. */
  datatype Owned = Owned(key: string, lock: TurnLock)

  /** The table after Bind, run without another turn in between, when its wait stands at w. */
  function BoundTable(t: Table, key: string, exclusive: bool, w: Wait): Table
    requires key in t.turns ==> t.turns[key] < |t.locks|
  {
    var (t1, l) := Retain(t, key);
    AfterWait(if exclusive then UnlockBind(t1, true) else t1, key, l, w)
  }

  /** The steps of a Bind that no other turn comes between: it retains its lock, gives up the
      bind lock if it has it, and its wait stands at w. */
  function BindSteps(g: nat, id: string, exclusive: bool, w: Wait): seq<Step> {
    [Bind(g, id)] + (if exclusive then [Act(g, Proceed)] else [])
    + WaitSteps(g, w)
  }

  lemma RunOne(s: State, step: Step)
    ensures Run(s, [step]) == Apply(s, step)
  {
    RunOneMore(s, [], step);
    assert [] + [step] == [step];
  }

  lemma RunTwo(s: State, a: Step, b: Step)
    ensures Run(s, [a, b]) == Apply(Apply(s, a), b)
  {
    RunOne(s, a);
    RunOneMore(s, [a], b);
    assert [a] + [b] == [a, b];
  }

  lemma ActIsNext(s: State, g: nat, a: Action)
    requires Sound(s) && g < |s.turns| && !a.BindTo?
    ensures Apply(s, Act(g, a)) == Next(s, g, a).GetOr(s)
  {}

  /** An action, and the Proceed that follows it. */
  lemma ActsThenProceeds(s: State, s1: State, g: nat, a: Action)
    requires Sound(s) && Sound(s1) && g < |s.turns| && g < |s1.turns| && !a.BindTo? && Next(s, g, a) == Some(s1)
    ensures Run(s, [Act(g, a), Act(g, Proceed)]) == Next(s1, g, Proceed).GetOr(s1)
  {
    RunTwo(s, Act(g, a), Act(g, Proceed));
    ActIsNext(s, g, a);
    ActIsNext(s1, g, Proceed);
  }

  lemma BindingGoesOn(s: State, g: nat)
    requires Sound(s) && g < |s.turns| && s.turns[g].phase.Binding?
    ensures var p := s.turns[g].phase;
      Apply(s, Act(g, Proceed)) == Put(s, UnlockBind(s.table, true), g, Waiting(p.key, p.lock))
  {
    ActIsNext(s, g, Proceed);
  }

  lemma RetainsForBind(s: State, g: nat, id: string)
    requires Inv(s) && g < |s.turns| && Trim(id) != "" && (s.turns[g].phase.HasWriter? || s.turns[g].phase.Idle?)
    ensures var (t, l) := Retain(s.table, InteractiveKey(s.agent, id));
      var exclusive := s.turns[g].phase.HasWriter?;
      var s' := Run(s, [Bind(g, id)] + if exclusive then [Act(g, Proceed)] else []);
      && Sound(s') && s'.table == (if exclusive then UnlockBind(t, true) else t)
      && |s'.turns| == |s.turns| && s'.turns[g].phase == Waiting(InteractiveKey(s.agent, id), l)
  {
    var s1 := StartBind(Noted(s, g, id), g, BindKey(s.agent, id));
    BindIsStartBind(s, g, id);
    StepKeepsInv(s, Bind(g, id));
    if s.turns[g].phase.HasWriter? {
      RunTwo(s, Bind(g, id), Act(g, Proceed));
      BindingGoesOn(s1, g);
      assert [Bind(g, id)] + [Act(g, Proceed)] == [Bind(g, id), Act(g, Proceed)];
    } else {
      RunOne(s, Bind(g, id));
      assert [Bind(g, id)] + [] == [Bind(g, id)];
    }
  }

  function WaitSteps(g: nat, w: Wait): seq<Step> {
    match w
    case Ok => [Act(g, Proceed)]
    case Ended => [Act(g, Cancel), Act(g, Proceed)]
    case Blocked => []
  }

  lemma WaitEnds(s: State, g: nat)
    requires Sound(s) && g < |s.turns| && s.turns[g].phase.Waiting?
    ensures var p := s.turns[g].phase;
      Run(s, WaitSteps(g, Ended)) == Put(s, ReleaseRef(s.table, p.key, p.lock), g, Finished(s.turns[g]))
  {
    WaitIsCancelled(s, g);
    ActsThenProceeds(s, Next(s, g, Cancel).value, g, Cancel);
  }

  lemma WaitIsCancelled(s: State, g: nat)
    requires Sound(s) && g < |s.turns| && s.turns[g].phase.Waiting?
    ensures var p := s.turns[g].phase;
      var s1 := Put(s, s.table, g, Cancelled(p.key, p.lock));
      && Next(s, g, Cancel) == Some(s1) && Sound(s1)
      && Next(s1, g, Proceed) == Some(Put(s, ReleaseRef(s.table, p.key, p.lock), g, Finished(s.turns[g])))
  {
    var p := s.turns[g].phase;
    var s1, s2 := Put(s, s.table, g, Cancelled(p.key, p.lock)), Put(s, ReleaseRef(s.table, p.key, p.lock), g, Finished(s.turns[g]));
    assert s1.turns[g := s2.turns[g]] == s2.turns;
  }

  lemma WaitSucceeds(s: State, g: nat)
    requires Sound(s) && g < |s.turns| && s.turns[g].phase.Waiting? && !s.table.locks[s.turns[g].phase.lock].full
    ensures var p := s.turns[g].phase;
      Run(s, WaitSteps(g, Ok)) == Put(s, SetFull(s.table, p.lock, true), g, Holding(p.key, p.lock))
  {
    FreeIsTaken(s, g);
    ActIsNext(s, g, Proceed);
    RunOne(s, Act(g, Proceed));
  }

  lemma FreeIsTaken(s: State, g: nat)
    requires Sound(s) && g < |s.turns| && s.turns[g].phase.Waiting? && !s.table.locks[s.turns[g].phase.lock].full
    ensures var p := s.turns[g].phase;
      Next(s, g, Proceed) == Some(Put(s, SetFull(s.table, p.lock, true), g, Holding(p.key, p.lock)))
  {}

  lemma WaitsForBind(s: State, g: nat, w: Wait)
    requires Sound(s) && g < |s.turns| && s.turns[g].phase.Waiting?
    requires w.Ok? ==> !s.table.locks[s.turns[g].phase.lock].full
    ensures var p := s.turns[g].phase;
      Run(s, WaitSteps(g, w)) ==
        if w.Blocked? then s
        else Put(s, AfterWait(s.table, p.key, p.lock, w), g, if w.Ok? then Holding(p.key, p.lock) else Finished(s.turns[g]))
  {
    match w
    case Ok => WaitSucceeds(s, g);
    case Ended => WaitEnds(s, g);
    case Blocked =>
  }

  /** The steps of a Bind do to the locks what the contract of TurnGuard.Bind says, for the key
      of the trimmed agent name, and leave the turn owning the ID, finished, or waiting. */
  lemma BindStepsAreBind(s: State, g: nat, id: string, w: Wait)
    requires Inv(s) && g < |s.turns| && Trim(id) != "" && (s.turns[g].phase.HasWriter? || s.turns[g].phase.Idle?)
    requires var key := (if Trim(s.agent) == "" then "agent" else Trim(s.agent)) + ":" + Trim(id);
      w.Ok? && key in s.table.turns ==> !s.table.locks[s.table.turns[key]].full
    ensures var key := (if Trim(s.agent) == "" then "agent" else Trim(s.agent)) + ":" + Trim(id);
      var exclusive := s.turns[g].phase.HasWriter?;
      var s' := Run(s, BindSteps(g, id, exclusive, w));
      && s'.table == BoundTable(s.table, key, exclusive, w) && |s'.turns| == |s.turns|
      && var p := s'.turns[g].phase;
        match w
          case Ok => p.Holding? && p.key == key
          case Ended => p.Idle? || p.Gone?
          case Blocked => p.Waiting? && p.key == key
  {
    var exclusive := s.turns[g].phase.HasWriter?;
    var first := [Bind(g, id)] + if exclusive then [Act(g, Proceed)] else [];
    RetainsForBind(s, g, id);
    WaitsForBind(Run(s, first), g, w);
    RunAppend(s, first, WaitSteps(g, w));
  }

  lemma HeldIsDrained(s: State, g: nat)
    requires Sound(s) && g < |s.turns| && s.turns[g].phase.Holding?
    ensures var p := s.turns[g].phase;
      Run(s, [Act(g, Unlock), Act(g, Proceed)]) ==
        Put(s, ReleaseRef(SetFull(s.table, p.lock, false), p.key, p.lock), g, Finished(s.turns[g]))
  {
    var p := s.turns[g].phase;
    ActsThenProceeds(s, Put(s, SetFull(s.table, p.lock, false), g, Draining(p.key, p.lock)), g, Unlock);
  }

  /** The steps of an Unlock do to the locks what the contract of TurnGuard.Unlock says. */
  lemma UnlockStepsAreUnlock(s: State, g: nat)
    requires Inv(s) && g < |s.turns|
    ensures var p := s.turns[g].phase;
      && (p.Holding? ==> Run(s, [Act(g, Unlock), Act(g, Proceed)]).table == ReleaseRef(SetFull(s.table, p.lock, false), p.key, p.lock))
      && (p.HasWriter? ==> Apply(s, Act(g, Unlock)).table == UnlockBind(s.table, true))
      && (p.Idle? ==> Apply(s, Act(g, Unlock)) == s)
  {
    if s.turns[g].phase.Holding? { HeldIsDrained(s, g); } else { ActIsNext(s, g, Unlock); }
  }

  /** agentSessionTurnGuard. */
  class TurnGuard {
    const table: LockTable
    const agentName: string
    var bindExclusive: bool
    var owned: Option<Owned>

    /** A guard owns the bind lock or a session ID or nothing, and what it owns is there. */
    ghost predicate Valid()
      reads this, table, table.made
    {
      && table.Valid()
      && !(bindExclusive && owned.Some?)
      && (owned.Some? ==> table.Known(owned.value.lock) && owned.value.lock.full)
    }

    /** The guard of a fresh turn, which has the bind lock, or of a turn that owns its ID. */
    constructor (table: LockTable, agentName: string, bindExclusive: bool, owned: Option<Owned>)
      requires table.Valid() && !(bindExclusive && owned.Some?)
      requires owned.Some? ==> table.Known(owned.value.lock) && owned.value.lock.full
      ensures Valid() && this.table == table && this.agentName == agentName
      ensures this.bindExclusive == bindExclusive && this.owned == owned
    {
      this.table, this.agentName := table, agentName;
      this.bindExclusive, this.owned := bindExclusive, owned;
    }

    /** Bind, up to and including its wait. A second call, or a blank ID, does nothing. A
        blocked call has given up the bind lock and retained the lock it waits for. */
    method Bind(agentSessionID: string, done: bool) returns (w: Wait, waits: Option<Owned>)
      requires Valid()
      modifies this`owned, this`bindExclusive, table, table.made
      ensures Valid()
      ensures old(owned.Some?) || Trim(agentSessionID) == "" ==>
        w == Ok && waits.None? && owned == old(owned) && bindExclusive == old(bindExclusive) && table.View() == old(table.View())
      ensures old(owned.None?) && Trim(agentSessionID) != "" ==>
        var key := agentName + ":" + Trim(agentSessionID);
        && !bindExclusive && Took(w, waits, key)
        && w == (if done then Ended else if key in old(table.turns) && old(table.turns[key].full) then Blocked else Ok)
        && table.View() == BoundTable(old(table.View()), key, old(bindExclusive), w)
    {
      var id := Trim(agentSessionID);
      if id == "" || owned.Some? { return Ok, None; }
      w, waits := BindToKey(agentName + ":" + id, done);
    }

    /** What a call of Bind that stands at w leaves: the guard owns the key exactly when it
        returned nil, and waits for it exactly while the call is blocked. */
    ghost predicate Took(w: Wait, waits: Option<Owned>, key: string)
      reads this, table
    {
      && owned.Some? == w.Ok? && (owned.Some? ==> owned.value.key == key)
      && waits.Some? == w.Blocked? && (waits.Some? ==> waits.value.key == key && table.Known(waits.value.lock))
    }

    /** The lock of the ID is retained before an exclusive bind lock is given up. */
    method RetainForBind(key: string) returns (lock: TurnLock)
      requires Valid() && owned.None?
      modifies this`bindExclusive, table, table.made
      ensures Valid() && !bindExclusive && table.Known(lock) && lock.full == (key in old(table.turns) && old(table.turns[key].full))
      ensures old(table.made) <= table.made && fresh(set x | x in table.made[|old(table.made)|..])
      ensures var (t, l) := Retain(old(table.View()), key);
        lock.id == l && table.View() == if old(bindExclusive) then UnlockBind(t, true) else t
    {
      lock := table.RetainTurn(key);
      if bindExclusive {
        table.UnlockBindMu(true);
        bindExclusive := false;
      }
    }

    method BindToKey(key: string, done: bool) returns (w: Wait, waits: Option<Owned>)
      requires Valid() && owned.None?
      modifies this`owned, this`bindExclusive, table, table.made
      ensures Valid() && !bindExclusive && Took(w, waits, key)
      ensures w == if done then Ended else if key in old(table.turns) && old(table.turns[key].full) then Blocked else Ok
      ensures table.View() == BoundTable(old(table.View()), key, old(bindExclusive), w)
    {
      ghost var t0 := table.View();
      var lock := RetainForBind(key);
      w := table.WaitTurn(key, lock, done);
      assert table.View() == BoundTable(t0, key, old(bindExclusive), w);
      if w.Ok? { owned := Some(Owned(key, lock)); }
      waits := if w.Blocked? then Some(Owned(key, lock)) else None;
    }

    /** A blocked Bind looks again. */
    method Resume(waited: Owned, done: bool) returns (w: Wait)
      requires Valid() && owned.None? && !bindExclusive && table.Known(waited.lock)
      modifies this`owned, table, waited.lock
      ensures Valid()
      ensures w == if done then Ended else if old(waited.lock.full) then Blocked else Ok
      ensures owned == if w.Ok? then Some(waited) else None
      ensures table.View() == AfterWait(old(table.View()), waited.key, waited.lock.id, w)
    {
      w := table.WaitTurn(waited.key, waited.lock, done);
      if w.Ok? { owned := Some(waited); }
    }

    /** Unlock gives back what the guard owns, once; a second call does nothing. */
    method Unlock()
      requires Valid()
      modifies this`owned, this`bindExclusive, table, table.made
      ensures Valid() && owned.None? && !bindExclusive
      ensures var t := old(table.View());
        table.View() ==
          if old(owned).Some? then ReleaseRef(SetFull(t, old(owned).value.lock.id, false), old(owned).value.key, old(owned).value.lock.id)
          else if old(bindExclusive) then UnlockBind(t, true)
          else t
    {
      if owned.Some? {
        var Owned(key, lock) := owned.value;
        table.Leave(lock);
        table.ReleaseTurnRef(key, lock);
        owned := None;
      }
      if bindExclusive {
        table.UnlockBindMu(true);
        bindExclusive := false;
      }
    }
  }
}
