/** The running program around the prompt queue: any number of handlers, drains, cron turns
    and session switches, each a chain of atomic steps over the queue table, the session busy
    bits, the transition locks and the active-session table (core/engine.go, core/session.go).

    The model is the gated fragment: the callers of markPromptQueueRunning and the forced
    unlock of /stop set or bypass the gate without owning it and are not part of it.

    Every run keeps Inv: each closed gate, transition lock and busy bit has exactly one owner;
    each item in flight is held by one goroutine; each queue keeps its bounds. It also keeps
    SessionsOk, about the session a prompt is sent under. What this means for a chat is in
    QueueGuarantees. */
module QueueRuns {
  import opened Text
  import opened PromptQueue

  /** Where a goroutine is. */
  datatype At =
    | Arrived      // handleMessage, before TryLock
    | Enqueueing   // TryLock failed
    | Locked       // session busy is ours
    | Unlocking    // queued or refused; about to unlock
    | CronClaim    // a cron run that started inline
    | CronGot      // and read the active session
    | CronBusy     // whose TryLock failed
    | Turn         // the turn runs
    | Completing   // session unlocked, gate not yet open
    | Popped       // drainPromptQueue took an item
    | Checking     // startQueuedPrompt, with the transition lock
    | Ready        // checks passed, before TryLock
    | Bound        // session busy is ours
    | Unbinding    // no platform for the item
    | Sending      // the turn of a queued user prompt, up to its send
    | Failing      // failQueuedPrompt
    | Requeueing   // requeuePromptFront
    | Releasing    // about to release the transition lock
    | Switching    // /new or /switch, with the transition lock
    | Cancelling   // the active session is switched
    | Other        // another command that holds session busy

  /** A goroutine and its variables: chat, local session, whether it holds the chat's
      transition lock, the item it took from the queue, and what it wants queued (for a
      switch: the agent session it switches to). */
  datatype Goroutine = Goroutine(at: At, chat: Chat, sid: Sid, trans: bool, item: Item, req: Request)

  const NO_ITEM := Item(0, "", None, "", true, 0)

  /** A prompt taken from the queue that was sent, and the chat's active session at that moment. */
  datatype SentItem = SentItem(item: Item, active: Option<Sid>)

  /** What the goroutines share: the queue table, the active session of each chat, the agent
      session of each local session, the busy sessions and the chats in transition.
      `flight`, `started` and `sent` are history. */
  datatype Shared = Shared(table: Table,
                           active: map<Chat, Sid>, agents: map<Sid, Agent>, sids: nat,
                           busy: set<Sid>, trans: set<Chat>,
                           flight: map<Chat, Item>, started: map<Chat, seq<Item>>, sent: seq<SentItem>)

  datatype State = State(sh: Shared, workers: map<nat, Goroutine>, next: nat)

  const INIT := State(Shared(Table(map[], 0), map[], map[], 0, {}, {}, map[], map[], []), map[], 0)

  datatype Step =
    | Message(chat: Chat, bytes: nat)      // a message that may be queued
    | CronFires(chat: Chat)
    | Drain(chat: Chat)                    // from a finished turn or a retry timer
    | Transition(chat: Chat)               // /new or /switch takes the transition lock
    | Occupy(sid: Sid)                     // another command takes session busy
    | Relabel(sid: Sid, agent: Agent)      // an agent session ID is bound, or reset
    | Clear(chat: Chat)
    | Delete(chat: Chat, i: nat)
    | Move(chat: Chat, i: nat, up: bool)
    | SwitchTo(worker: nat, target: Option<Sid>, agent: Agent)   // /switch, or /new when None
    | ReleaseTransition(worker: nat)       // startQueuedPrompt returns once its turn has sent or ended
    | Go(worker: nat, ok: bool)            // a goroutine's next action; `ok` is its outcome where it has one

  /** What an action leaves: the shared state, and where its goroutine is, or None when it ended. */
  datatype Outcome = Outcome(sh: Shared, g: Option<Goroutine>)

  function Goes(sh: Shared, g: Goroutine, at: At): Outcome { Outcome(sh, Some(g.(at := at))) }

  function Ends(sh: Shared): Outcome { Outcome(sh, None) }

  /** A goroutine that is done but for the transition lock. */
  function Leaves(sh: Shared, g: Goroutine): Outcome {
    if g.trans then Goes(sh, g, Releasing) else Ends(sh)
  }

  // ---------------------------------------------------------------- the actions

  /** GetOrCreateActive. */
  function WithActive(sh: Shared, c: Chat): Shared {
    if c in sh.active then sh else
      sh.(active := sh.active[c := sh.sids + 1], agents := sh.agents[sh.sids + 1 := ""], sids := sh.sids + 1)
  }

  function ActiveOf(sh: Shared, c: Chat): Sid { if c in sh.active then sh.active[c] else sh.sids + 1 }

  function AgentOf(sh: Shared, sid: Sid): Agent { if sid in sh.agents then sh.agents[sid] else "" }

  function StartedOf(sh: Shared, c: Chat): seq<Item> { if c in sh.started then sh.started[c] else [] }

  /** The turn of the item in flight starts. */
  function Starts(sh: Shared, c: Chat, item: Item): Shared {
    sh.(flight := sh.flight - {c}, started := sh.started[c := StartedOf(sh, c) + [item]])
  }

  /** What a cron run asks for: its message has no attachments. */
  function CronEntry(sh: Shared, c: Chat): Request {
    Request(None, AgentOf(WithActive(sh, c), ActiveOf(sh, c)), true, 0)
  }

  /** Steps that are not a goroutine's own; the outcome's goroutine is the one they start. */
  ghost function Begin(sh: Shared, step: Step): Outcome {
    match step
    case Message(c, bytes) =>
      var sid := ActiveOf(sh, c);
      Outcome(WithActive(sh, c),
              Some(Goroutine(Arrived, c, sid, false, NO_ITEM, Request(Some(sid), AgentOf(WithActive(sh, c), sid), false, bytes))))
    case CronFires(c) =>
      var (t, r) := BeginOrEnqueue(sh.table, c, CronEntry(sh, c));
      Outcome(WithActive(sh, c).(table := t),
              if r.Started? then Some(Goroutine(CronClaim, c, 0, false, NO_ITEM, CRON_REQUEST)) else None)
    case Drain(c) =>
      var (t, item) := PopNext(sh.table, c);
      if item.None? then Ends(sh)
      else Outcome(sh.(table := t, flight := sh.flight[c := item.value]),
                   Some(Goroutine(Popped, c, 0, false, item.value, CRON_REQUEST)))
    case Transition(c) =>
      if c in sh.trans then Ends(sh)
      else Outcome(sh.(trans := sh.trans + {c}), Some(Goroutine(Switching, c, 0, true, NO_ITEM, CRON_REQUEST)))
    case Occupy(sid) =>
      if sid in sh.busy then Ends(sh)
      else Outcome(sh.(busy := sh.busy + {sid}), Some(Goroutine(Other, "", sid, false, NO_ITEM, CRON_REQUEST)))
    case Relabel(sid, agent) => Ends(sh.(agents := sh.agents[sid := agent]))
    case Clear(c) => Ends(sh.(table := ClearQueue(sh.table, c)))
    case Delete(c, i) => Ends(sh.(table := DeleteAt(sh.table, c, i)))
    case Move(c, i, up) => Ends(sh.(table := MoveAt(sh.table, c, i, up)))
    case _ => Ends(sh)
  }

  /** The next action of a goroutine that has no item in flight. */
  ghost function ActOther(sh: Shared, g: Goroutine): Outcome {
    var c, sid := g.chat, g.sid;
    match g.at
    case Arrived => if sid in sh.busy then Goes(sh, g, Enqueueing) else Goes(sh.(busy := sh.busy + {sid}), g, Locked)
    case Enqueueing => Ends(sh.(table := EnqueuePrompt(sh.table, c, g.req).0))
    case Locked =>
      var (t, r) := BeginOrEnqueue(sh.table, c, g.req);
      Goes(sh.(table := t), g, if r.Started? then Turn else Unlocking)
    case Unlocking => Ends(sh.(busy := sh.busy - {sid}))
    case CronClaim => Goes(WithActive(sh, c), g.(sid := ActiveOf(sh, c)), CronGot)
    case CronGot => if sid in sh.busy then Goes(sh, g, CronBusy) else Goes(sh.(busy := sh.busy + {sid}), g, Turn)
    case CronBusy => Ends(sh.(table := CronFallback(sh.table, c)))
    case Turn => Goes(sh.(busy := sh.busy - {sid}), g, Completing)
    case Completing => Leaves(sh.(table := OpenGate(sh.table, c)), g)
    case Releasing => Ends(sh.(trans := sh.trans - {c}))
    case Switching => Goes(sh, g, Releasing)
    case Cancelling => Goes(sh.(table := CancelOnSwitch(sh.table, c, sid, g.req.agent)), g, Releasing)
    case Other => Ends(sh.(busy := sh.busy - {sid}))
    case _ => Goes(sh, g, g.at)
  }

  /** startQueuedPrompt and startQueuedCronRun. `ok` is an outcome: the cron job still runs,
      the platform is there, the prompt was sent. */
  function ActQueued(sh: Shared, g: Goroutine, ok: bool): Outcome {
    var c, sid, item := g.chat, g.sid, g.item;
    match g.at
    case Popped =>
      if item.cron then
        (if ok then Goes(WithActive(sh, c), g.(sid := ActiveOf(sh, c)), Ready) else Goes(sh, g, Failing))
      else if c in sh.trans then Goes(sh, g, Popped)
      else Goes(sh.(trans := sh.trans + {c}), g.(trans := true), Checking)
    case Checking =>
      var now := ActiveOf(sh, c);
      var changed := (item.local.Some? && item.local != Some(now)) || (item.agent != "" && item.agent != AgentOf(WithActive(sh, c), now));
      Goes(WithActive(sh, c), g.(sid := now), if changed then Failing else Ready)
    case Ready => if sid in sh.busy then Goes(sh, g, Requeueing) else Goes(sh.(busy := sh.busy + {sid}), g, Bound)
    case Bound => if ok then Goes(Starts(sh, c, item), g, if item.cron then Turn else Sending) else Goes(sh, g, Unbinding)
    case Unbinding => Goes(sh.(busy := sh.busy - {sid}), g, Failing)
    case Sending =>
      if ok then Goes(sh.(sent := sh.sent + [SentItem(item, if c in sh.active then Some(sh.active[c]) else None)]), g, Sending)
      else Goes(sh, g, Turn)
    case Failing => Leaves(sh.(table := OpenGate(sh.table, c), flight := sh.flight - {c}), g)
    case Requeueing => Leaves(sh.(table := RequeueFront(sh.table, item), flight := sh.flight - {c}), g)
    case _ => Goes(sh, g, g.at)
  }

  /** SwitchSession to an existing session, or NewSession. */
  function Switched(sh: Shared, g: Goroutine, target: Option<Sid>, agent: Agent): Outcome {
    if target.Some? then
      Outcome(sh.(active := sh.active[g.chat := target.value]),
              Some(g.(at := Cancelling, sid := target.value, req := Request(target, agent, false, 0))))
    else
      var sid := sh.sids + 1;
      Outcome(sh.(active := sh.active[g.chat := sid], agents := sh.agents[sid := ""], sids := sid),
              Some(g.(at := Cancelling, sid := sid, req := Request(Some(sid), "", false, 0))))
  }

  predicate HasFlight(at: At) {
    at.Popped? || at.Checking? || at.Ready? || at.Bound? || at.Unbinding? || at.Failing? || at.Requeueing?
  }

  /** A step of the goroutine g. One that cannot happen now changes nothing. */
  ghost function Continue(sh: Shared, g: Goroutine, step: Step): Outcome {
    match step
    case SwitchTo(_, target, agent) => if g.at.Switching? then Switched(sh, g, target, agent) else Outcome(sh, Some(g))
    case ReleaseTransition(_) =>
      if (g.at.Turn? || g.at.Completing?) && g.trans then
        Outcome(sh.(trans := sh.trans - {g.chat}), Some(g.(trans := false)))
      else Outcome(sh, Some(g))
    case Go(_, ok) => if HasFlight(g.at) || g.at.Sending? then ActQueued(sh, g, ok) else ActOther(sh, g)
    case _ => Outcome(sh, Some(g))
  }

  predicate Continues(step: Step) { step.SwitchTo? || step.ReleaseTransition? || step.Go? }

  function Settle(s: State, w: nat, o: Outcome): State {
    State(o.sh, if o.g.Some? then s.workers[w := o.g.value] else s.workers - {w}, if w < s.next then s.next else w + 1)
  }

  ghost function Apply(s: State, step: Step): State {
    if Continues(step) then
      (if step.worker in s.workers then Settle(s, step.worker, Continue(s.sh, s.workers[step.worker], step)) else s)
    else Settle(s, s.next, Begin(s.sh, step))
  }

  ghost function Run(s: State, steps: seq<Step>): State {
    if steps == [] then s else Apply(Run(s, steps[..|steps| - 1]), steps[|steps| - 1])
  }

  // ---------------------------------------------------------------- who owns what

  /** The exclusive things: a chat's gate, its transition lock, a session's busy bit. */
  datatype Thing = Gate(c: Chat) | Trans(c: Chat) | Busy(x: Sid)

  predicate Owns(g: Goroutine, r: Thing) {
    match r
    case Gate(c) => HasGate(g.at) && g.chat == c
    case Trans(c) => g.trans && g.chat == c
    case Busy(x) => HasBusy(g.at) && g.sid == x
  }

  predicate HasGate(at: At) {
    at.CronClaim? || at.CronGot? || at.CronBusy? || at.Turn? || at.Completing? || at.Sending? || HasFlight(at)
  }

  predicate HasBusy(at: At) {
    at.Locked? || at.Unlocking? || at.Turn? || at.Bound? || at.Unbinding? || at.Sending? || at.Other?
  }

  predicate Taken(sh: Shared, r: Thing) {
    match r
    case Gate(c) => QueueOf(sh.table, c).running
    case Trans(c) => c in sh.trans
    case Busy(x) => x in sh.busy
  }

  predicate OwnsIn(p: Option<Goroutine>, r: Thing) { p.Some? && Owns(p.value, r) }

  /** Each thing that is taken has exactly one owner. */
  ghost predicate OwnersOk(s: State) {
    && (forall w | w in s.workers :: w < s.next)
    && (forall r: Thing :: OwnerOk(s, r))
  }

  ghost predicate OwnerOk(s: State, r: Thing) {
    && (Taken(s.sh, r) <==> exists w :: w in s.workers && Owns(s.workers[w], r))
    && (forall w, x | w in s.workers && x in s.workers && Owns(s.workers[w], r) && Owns(s.workers[x], r) :: w == x)
  }

  /** An action of p takes only what is free and gives back only what p owns. */
  ghost predicate Fair(sh: Shared, p: Option<Goroutine>, o: Outcome) {
    forall r: Thing :: FairTo(sh, p, o, r)
  }

  predicate FairTo(sh: Shared, p: Option<Goroutine>, o: Outcome, r: Thing) {
    && (Taken(o.sh, r) <==> OwnsIn(o.g, r) || (Taken(sh, r) && !OwnsIn(p, r)))
    && (OwnsIn(o.g, r) && !OwnsIn(p, r) ==> !Taken(sh, r))
  }

  function Here(s: State, w: nat): Option<Goroutine> {
    if w in s.workers then Some(s.workers[w]) else None
  }

  lemma FairKeepsOwners(s: State, w: nat, o: Outcome)
    requires OwnersOk(s) && (w in s.workers || w == s.next) && Fair(s.sh, Here(s, w), o)
    ensures OwnersOk(Settle(s, w, o))
  {
    var s' := Settle(s, w, o);
    forall r: Thing
      ensures OwnerOk(s', r)
    {
      assert OwnerOk(s, r) && FairTo(s.sh, Here(s, w), o, r);
      if Taken(s'.sh, r) {
        if OwnsIn(o.g, r) {
          assert s'.workers[w] == o.g.value;
        } else {
          var x :| x in s.workers && Owns(s.workers[x], r);
          assert x in s'.workers && s'.workers[x] == s.workers[x];
        }
      }
      forall x | x in s'.workers && Owns(s'.workers[x], r)
        ensures Taken(s'.sh, r)
      {
        assert x != w ==> x in s.workers && s'.workers[x] == s.workers[x];
      }
    }
  }

  /** A goroutine holds the transition lock only where it says so, and the item it took
      belongs to its chat. */
  predicate WorkerOk(g: Goroutine) {
    && (g.trans ==> MayTrans(g.at))
    && (MustTrans(g) ==> g.trans)
    && (HasFlight(g.at) || g.at.Sending? ==> g.item.chat == g.chat)
    && (g.at.Sending? || g.at.Checking? ==> !g.item.cron)
    && (g.at.Arrived? || g.at.Enqueueing? || g.at.Locked? ==> g.req.cron || g.req.local.Some?)
  }

  predicate MayTrans(at: At) {
    at.Turn? || at.Completing? || at.Sending? || at.Releasing? || at.Switching? || at.Cancelling? || HasChecked(at)
  }

  predicate HasChecked(at: At) {
    at.Checking? || at.Ready? || at.Bound? || at.Unbinding? || at.Failing? || at.Requeueing?
  }

  predicate MustTrans(g: Goroutine) {
    || g.at.Releasing? || g.at.Switching? || g.at.Cancelling?
    || ((g.at.Checking? || g.at.Ready? || g.at.Bound? || g.at.Sending?) && !g.item.cron)
  }

  ghost predicate Holds(sh: Shared, g: Goroutine) { forall r: Thing :: Owns(g, r) ==> Taken(sh, r) }

  lemma EditFair(sh: Shared, step: Step)
    requires step.Clear? || step.Delete? || step.Move?
    ensures Fair(sh, None, Begin(sh, step))
  {
    match step
    case Clear(c) => TableGates(sh.table, c, CRON_REQUEST);
    case Delete(c, i) => EditGates(sh.table, c, i, true);
    case Move(c, i, up) => EditGates(sh.table, c, i, up);
  }

  lemma SpawnFair(sh: Shared, step: Step)
    requires step.Message? || step.Transition? || step.Occupy? || step.Relabel?
    ensures Fair(sh, None, Begin(sh, step))
  {
    assert Begin(sh, step).sh.table == sh.table;
  }

  lemma CronFair(sh: Shared, c: Chat)
    ensures Fair(sh, None, Begin(sh, CronFires(c)))
  {
    TableGates(sh.table, c, CronEntry(sh, c));
  }

  lemma DrainFair(sh: Shared, c: Chat)
    ensures Fair(sh, None, Begin(sh, Drain(c)))
  {
    PopGates(sh.table, c);
  }

  lemma BeginFair(sh: Shared, step: Step)
    ensures Fair(sh, None, Begin(sh, step))
  {
    match step
    case CronFires(c) => CronFair(sh, c);
    case Drain(c) => DrainFair(sh, c);
    case Message(_, _) => SpawnFair(sh, step);
    case Transition(_) => SpawnFair(sh, step);
    case Occupy(_) => SpawnFair(sh, step);
    case Relabel(_, _) => SpawnFair(sh, step);
    case Clear(_) => EditFair(sh, step);
    case Delete(_, _) => EditFair(sh, step);
    case Move(_, _, _) => EditFair(sh, step);
    case _ => NothingFair(sh);
  }

  lemma NothingFair(sh: Shared)
    ensures Fair(sh, None, Ends(sh))
  {}

  lemma HandlerFair(sh: Shared, g: Goroutine)
    requires WorkerOk(g) && Holds(sh, g) && (g.at.Enqueueing? || g.at.Locked?)
    ensures Fair(sh, Some(g), ActOther(sh, g))
  {
    TableGates(sh.table, g.chat, g.req);
    forall r: Thing ensures FairTo(sh, Some(g), ActOther(sh, g), r) { assert Owns(g, r) ==> Taken(sh, r); }
  }

  lemma OpenFair(sh: Shared, g: Goroutine)
    requires WorkerOk(g) && Holds(sh, g) && (g.at.CronBusy? || g.at.Completing?)
    ensures Fair(sh, Some(g), ActOther(sh, g))
  {
    OpenGateGates(sh.table, g.chat, NO_ITEM);
    forall r: Thing ensures FairTo(sh, Some(g), ActOther(sh, g), r) { assert Owns(g, r) ==> Taken(sh, r); }
  }

  lemma TransFair(sh: Shared, g: Goroutine)
    requires WorkerOk(g) && Holds(sh, g) && (g.at.Releasing? || g.at.Switching? || g.at.Cancelling?)
    ensures Fair(sh, Some(g), ActOther(sh, g))
  {
    CancelGates(sh.table, g.chat, g.sid, g.req.agent);
    forall r: Thing ensures FairTo(sh, Some(g), ActOther(sh, g), r) { assert Owns(g, r) ==> Taken(sh, r); }
  }

  lemma BusyFair(sh: Shared, g: Goroutine)
    requires WorkerOk(g) && Holds(sh, g)
    requires var at := g.at; at.Arrived? || at.Unlocking? || at.CronClaim? || at.CronGot? || at.Turn? || at.Other?
    ensures Fair(sh, Some(g), ActOther(sh, g))
  {
    var o := ActOther(sh, g);
    assert o.sh.table == sh.table && o.sh.trans == sh.trans;
    forall r: Thing ensures FairTo(sh, Some(g), o, r) { assert Owns(g, r) ==> Taken(sh, r); }
  }

  lemma OtherFair(sh: Shared, g: Goroutine)
    requires WorkerOk(g) && Holds(sh, g) && !HasFlight(g.at) && !g.at.Sending?
    ensures Fair(sh, Some(g), ActOther(sh, g))
  {
    match g.at
    case Enqueueing => HandlerFair(sh, g);
    case Locked => HandlerFair(sh, g);
    case CronBusy => OpenFair(sh, g);
    case Completing => OpenFair(sh, g);
    case Releasing => TransFair(sh, g);
    case Switching => TransFair(sh, g);
    case Cancelling => TransFair(sh, g);
    case _ => BusyFair(sh, g);
  }

  lemma ReturnFair(sh: Shared, g: Goroutine, ok: bool)
    requires WorkerOk(g) && Holds(sh, g) && (g.at.Failing? || g.at.Requeueing?)
    ensures Fair(sh, Some(g), ActQueued(sh, g, ok))
  {
    OpenGateGates(sh.table, g.chat, g.item);
    forall r: Thing ensures FairTo(sh, Some(g), ActQueued(sh, g, ok), r) { assert Owns(g, r) ==> Taken(sh, r); }
  }

  lemma CheckFair(sh: Shared, g: Goroutine, ok: bool)
    requires WorkerOk(g) && Holds(sh, g) && (g.at.Popped? || g.at.Checking?)
    ensures Fair(sh, Some(g), ActQueued(sh, g, ok))
  {
    forall r: Thing ensures FairTo(sh, Some(g), ActQueued(sh, g, ok), r) { assert Owns(g, r) ==> Taken(sh, r); }
  }

  lemma LockFair(sh: Shared, g: Goroutine, ok: bool)
    requires WorkerOk(g) && Holds(sh, g) && (g.at.Ready? || g.at.Bound? || g.at.Unbinding? || g.at.Sending?)
    ensures Fair(sh, Some(g), ActQueued(sh, g, ok))
  {
    var o := ActQueued(sh, g, ok);
    assert o.sh.table == sh.table && o.sh.trans == sh.trans;
    forall r: Thing ensures FairTo(sh, Some(g), o, r) { assert Owns(g, r) ==> Taken(sh, r); }
  }

  lemma QueuedFair(sh: Shared, g: Goroutine, ok: bool)
    requires WorkerOk(g) && Holds(sh, g) && (HasFlight(g.at) || g.at.Sending?)
    ensures Fair(sh, Some(g), ActQueued(sh, g, ok))
  {
    if g.at.Failing? || g.at.Requeueing? {
      ReturnFair(sh, g, ok);
    } else if g.at.Popped? || g.at.Checking? {
      CheckFair(sh, g, ok);
    } else {
      LockFair(sh, g, ok);
    }
  }

  lemma ContinueFair(sh: Shared, g: Goroutine, step: Step)
    requires WorkerOk(g) && Holds(sh, g)
    ensures Fair(sh, Some(g), Continue(sh, g, step))
  {
    if step.Go? {
      if HasFlight(g.at) || g.at.Sending? { QueuedFair(sh, g, step.ok); } else { OtherFair(sh, g); }
    } else {
      forall r: Thing ensures FairTo(sh, Some(g), Continue(sh, g, step), r) { assert Owns(g, r) ==> Taken(sh, r); }
    }
  }

  ghost predicate WorkersOk(s: State) { forall w | w in s.workers :: WorkerOk(s.workers[w]) }

  lemma StepKeepsOwners(s: State, step: Step)
    requires OwnersOk(s) && WorkersOk(s)
    ensures OwnersOk(Apply(s, step))
  {
    if Continues(step) {
      if step.worker in s.workers {
        var g := s.workers[step.worker];
        assert Holds(s.sh, g) by {
          forall r: Thing | Owns(g, r) ensures Taken(s.sh, r) { assert OwnerOk(s, r); }
        }
        ContinueFair(s.sh, g, step);
        FairKeepsOwners(s, step.worker, Continue(s.sh, g, step));
      }
    } else {
      BeginFair(s.sh, step);
      FairKeepsOwners(s, s.next, Begin(s.sh, step));
    }
  }

  // ---------------------------------------------------------------- what a step does to the queue of a chat

  function FlightOf(sh: Shared, c: Chat): Option<Item> { if c in sh.flight then Some(sh.flight[c]) else None }

  /** The queue of a chat with its history. */
  function ViewOf(sh: Shared, c: Chat): View {
    View(QueueOf(sh.table, c).items, FlightOf(sh, c), StartedOf(sh, c))
  }

  /** The chat whose queue a step may touch. */
  function ChatOf(s: State, step: Step): Option<Chat> {
    if Continues(step) then (if step.worker in s.workers then Some(s.workers[step.worker].chat) else None)
    else if step.Occupy? || step.Relabel? then None
    else Some(step.chat)
  }

  /** What a step that is not a goroutine's own does to the queue of its chat. */
  ghost function BeginOpOf(sh: Shared, step: Step): Op {
    match step
    case CronFires(c) => BeginOp(sh.table, c, CronEntry(sh, c))
    case Drain(c) => if PopNext(sh.table, c).1.Some? then Pop else Same
    case Clear(c) => Keep(KeepNone(QueueOf(sh.table, c).items))
    case Delete(c, i) =>
      if i < |QueueOf(sh.table, c).items| then Keep(KeepBut(QueueOf(sh.table, c).items, i)) else Same
    case Move(c, i, up) =>
      var n := |QueueOf(sh.table, c).items|;
      if i < n && (if up then i > 0 else i + 1 < n) then Swap(if up then i - 1 else i) else Same
    case _ => Same
  }

  /** What the next action of a goroutine does to the queue of its chat. */
  ghost function GoOp(sh: Shared, g: Goroutine, ok: bool): Op {
    match g.at
    case Enqueueing => EnqueueOp(sh.table, g.chat, g.req)
    case Locked => BeginOp(sh.table, g.chat, g.req)
    case CronBusy =>
      if g.chat in sh.table.queues then EnqueueOp(Reopened(sh.table, g.chat), g.chat, CRON_REQUEST) else Same
    case Cancelling => Keep(KeepSurvivors(QueueOf(sh.table, g.chat).items, g.chat, g.sid, g.req.agent))
    case Bound => if ok then StartFlight else Same
    case Failing => Drop
    case Requeueing => Requeue
    case _ => Same
  }

  ghost function ContinueOpOf(sh: Shared, g: Goroutine, step: Step): Op {
    if step.Go? then GoOp(sh, g, step.ok) else Same
  }

  /** Which queue operation a step is for chat c. */
  ghost function OpOf(s: State, step: Step, c: Chat): Op {
    if ChatOf(s, step) != Some(c) then Same
    else if !Continues(step) then BeginOpOf(s.sh, step)
    else ContinueOpOf(s.sh, s.workers[step.worker], step)
  }

  predicate FlightIn(p: Option<Goroutine>) { p.Some? && HasFlight(p.value.at) }

  ghost predicate FlightOwner(s: State, w: nat, c: Chat) {
    w in s.workers && HasFlight(s.workers[w].at) && s.workers[w].chat == c
  }

  /** The flights in a state are those of the goroutines that hold one. */
  ghost predicate FlightsOk(s: State) {
    && (forall w | w in s.workers && HasFlight(s.workers[w].at) ::
          FlightOf(s.sh, s.workers[w].chat) == Some(s.workers[w].item))
    && (forall c | c in s.sh.flight :: exists w :: FlightOwner(s, w, c))
  }

  ghost predicate ViewsOk(sh: Shared) { forall c :: ViewOk(ViewOf(sh, c), c, sh.table.seqNo) }

  ghost predicate Inv(s: State) { OwnersOk(s) && WorkersOk(s) && FlightsOk(s) && ViewsOk(s.sh) }

  // ---------------------------------------------------------------- actions and views

  /** From sh to sh', the queue of chat c does op. */
  ghost predicate ViewMoves(sh: Shared, sh': Shared, op: Op, c: Chat) {
    && CanDo(ViewOf(sh, c), op)
    && ViewOf(sh', c) == Do(ViewOf(sh, c), op)
    && EnqueueOk(ViewOf(sh, c).items, op, c, sh.table.seqNo, EngineBytes(sh.table.queues))
    && sh'.table.seqNo >= SeqAfter(op, sh.table.seqNo)
  }

  function SameBut(op: Op, c: Chat, k: Chat): Op { if k == c then op else Same }

  /** The queue of chat c does op, and those of the other chats do nothing. */
  ghost predicate OnlyMoves(sh: Shared, sh': Shared, op: Op, c: Chat) {
    forall k :: ViewMoves(sh, sh', SameBut(op, c, k), k)
  }

  ghost predicate QueuesKept(sh: Shared, sh': Shared) {
    sh'.table == sh.table && sh'.flight == sh.flight && sh'.started == sh.started
  }

  lemma TableMoves(sh: Shared, sh': Shared, t: Table, op: Op, c: Chat)
    requires op.Same? || op.Enqueue? || op.Keep?
    requires ActsOn(t, sh'.table, c, op) && OpOk(t, op, c)
    requires t.seqNo == sh.table.seqNo && forall k :: QueueOf(t, k).items == QueueOf(sh.table, k).items
    requires sh'.flight == sh.flight && sh'.started == sh.started
    ensures OnlyMoves(sh, sh', op, c)
  {
    EngineBytesMove(sh.table, t, c);
  }

  lemma FlightMoves(sh: Shared, sh': Shared, op: Op, c: Chat)
    requires !op.Enqueue? && CanDo(ViewOf(sh, c), op) && ViewOf(sh', c) == Do(ViewOf(sh, c), op)
    requires sh'.table.seqNo == sh.table.seqNo
    requires forall k :: k != c ==> ViewOf(sh', k) == ViewOf(sh, k)
    ensures OnlyMoves(sh, sh', op, c)
  {}

  lemma StillMoves(sh: Shared, sh': Shared, c: Chat)
    requires QueuesKept(sh, sh')
    ensures OnlyMoves(sh, sh', Same, c)
  {}

  /** Every queue holds items of its own chat only. */
  lemma OwnChats(sh: Shared)
    requires ViewsOk(sh)
    ensures forall k, it | it in QueueOf(sh.table, k).items :: it.chat == k
  {
    forall k, it | it in QueueOf(sh.table, k).items
      ensures it.chat == k
    {
      assert ViewOk(ViewOf(sh, k), k, sh.table.seqNo);
      assert it in Waiting(ViewOf(sh, k));
    }
  }

  lemma HandlerMoves(sh: Shared, g: Goroutine, ok: bool)
    requires WorkerOk(g) && (g.at.Enqueueing? || g.at.Locked?)
    ensures OnlyMoves(sh, ActOther(sh, g).sh, GoOp(sh, g, ok), g.chat)
  {
    EnqueueActs(sh.table, g.chat, g.req);
    TableMoves(sh, ActOther(sh, g).sh, sh.table, GoOp(sh, g, ok), g.chat);
  }

  lemma CronBusyMoves(sh: Shared, g: Goroutine, ok: bool)
    requires g.at.CronBusy?
    ensures OnlyMoves(sh, ActOther(sh, g).sh, GoOp(sh, g, ok), g.chat)
  {
    if g.chat in sh.table.queues {
      FallbackActs(sh.table, g.chat);
      TableMoves(sh, ActOther(sh, g).sh, Reopened(sh.table, g.chat), GoOp(sh, g, ok), g.chat);
    } else {
      StillMoves(sh, ActOther(sh, g).sh, g.chat);
    }
  }

  lemma CompletingMoves(sh: Shared, g: Goroutine, ok: bool)
    requires g.at.Completing?
    ensures OnlyMoves(sh, ActOther(sh, g).sh, GoOp(sh, g, ok), g.chat)
  {
    OpenGateActs(sh.table, g.chat);
    TableMoves(sh, ActOther(sh, g).sh, sh.table, GoOp(sh, g, ok), g.chat);
  }

  lemma CancellingMoves(sh: Shared, g: Goroutine, ok: bool)
    requires ViewsOk(sh) && g.at.Cancelling?
    ensures OnlyMoves(sh, ActOther(sh, g).sh, GoOp(sh, g, ok), g.chat)
  {
    OwnChats(sh);
    CancelActs(sh.table, g.chat, g.sid, g.req.agent);
    TableMoves(sh, ActOther(sh, g).sh, sh.table, GoOp(sh, g, ok), g.chat);
  }

  predicate TouchesQueue(at: At) {
    at.Enqueueing? || at.Locked? || at.CronBusy? || at.Completing? || at.Cancelling?
  }

  lemma QuietKeepsQueues(sh: Shared, g: Goroutine)
    requires !TouchesQueue(g.at)
    ensures QueuesKept(sh, ActOther(sh, g).sh)
  {}

  lemma OtherMoves(sh: Shared, g: Goroutine, ok: bool)
    requires WorkerOk(g) && ViewsOk(sh) && !HasFlight(g.at) && !g.at.Sending?
    ensures OnlyMoves(sh, ActOther(sh, g).sh, GoOp(sh, g, ok), g.chat)
  {
    match g.at
    case Enqueueing => HandlerMoves(sh, g, ok);
    case Locked => HandlerMoves(sh, g, ok);
    case CronBusy => CronBusyMoves(sh, g, ok);
    case Completing => CompletingMoves(sh, g, ok);
    case Cancelling => CancellingMoves(sh, g, ok);
    case _ =>
      QuietKeepsQueues(sh, g);
      StillMoves(sh, ActOther(sh, g).sh, g.chat);
  }

  lemma StartMoves(sh: Shared, g: Goroutine)
    requires g.at.Bound? && FlightOf(sh, g.chat) == Some(g.item)
    ensures OnlyMoves(sh, ActQueued(sh, g, true).sh, StartFlight, g.chat)
  {
    FlightMoves(sh, ActQueued(sh, g, true).sh, StartFlight, g.chat);
  }

  lemma ReturnMoves(sh: Shared, g: Goroutine, ok: bool)
    requires WorkerOk(g) && FlightOf(sh, g.chat) == Some(g.item) && (g.at.Failing? || g.at.Requeueing?)
    ensures OnlyMoves(sh, ActQueued(sh, g, ok).sh, GoOp(sh, g, ok), g.chat)
  {
    OpenGateActs(sh.table, g.chat);
    FlightMoves(sh, ActQueued(sh, g, ok).sh, GoOp(sh, g, ok), g.chat);
  }

  lemma QueuedMoves(sh: Shared, g: Goroutine, ok: bool)
    requires WorkerOk(g) && (HasFlight(g.at) || g.at.Sending?)
    requires HasFlight(g.at) ==> FlightOf(sh, g.chat) == Some(g.item)
    ensures OnlyMoves(sh, ActQueued(sh, g, ok).sh, GoOp(sh, g, ok), g.chat)
  {
    if g.at.Bound? && ok {
      StartMoves(sh, g);
    } else if g.at.Failing? || g.at.Requeueing? {
      ReturnMoves(sh, g, ok);
    } else {
      assert GoOp(sh, g, ok) == Same;
      StillMoves(sh, ActQueued(sh, g, ok).sh, g.chat);
    }
  }

  lemma MoveMoves(sh: Shared, c: Chat, i: nat, up: bool)
    ensures OnlyMoves(sh, Begin(sh, Move(c, i, up)).sh, BeginOpOf(sh, Move(c, i, up)), c)
  {
    var sh', items := Begin(sh, Move(c, i, up)).sh, QueueOf(sh.table, c).items;
    if i < |items| && (if up then i > 0 else i + 1 < |items|) {
      var k := if up then i - 1 else i;
      assert QueueOf(sh'.table, c).items == items[k := items[k + 1]][k + 1 := items[k]];
      FlightMoves(sh, sh', Swap(k), c);
    } else {
      StillMoves(sh, sh', c);
    }
  }

  lemma BeginMoves(sh: Shared, step: Step)
    requires !Continues(step) && !step.Occupy? && !step.Relabel?
    requires step.Drain? && !QueueOf(sh.table, step.chat).running ==> step.chat !in sh.flight
    ensures OnlyMoves(sh, Begin(sh, step).sh, BeginOpOf(sh, step), step.chat)
  {
    var sh', op, c := Begin(sh, step).sh, BeginOpOf(sh, step), step.chat;
    match step
    case CronFires(_) =>
      EnqueueActs(sh.table, c, CronEntry(sh, c));
      TableMoves(sh, sh', sh.table, op, c);
    case Drain(_) => if op.Pop? { FlightMoves(sh, sh', Pop, c); } else { StillMoves(sh, sh', c); }
    case Clear(_) =>
      ClearActs(sh.table, c);
      TableMoves(sh, sh', sh.table, op, c);
    case Delete(_, i) =>
      if op.Keep? {
        DeleteActs(sh.table, c, i);
        TableMoves(sh, sh', sh.table, op, c);
      } else {
        StillMoves(sh, sh', c);
      }
    case Move(_, i, up) => MoveMoves(sh, c, i, up);
    case _ => StillMoves(sh, sh', c);
  }

  // ---------------------------------------------------------------- the invariant is kept

  /** While an item of a chat is in flight its gate is closed. */
  lemma FlightClosesGate(s: State, c: Chat)
    requires OwnersOk(s) && FlightsOk(s) && c in s.sh.flight
    ensures QueueOf(s.sh.table, c).running
  {
    var w :| FlightOwner(s, w, c);
    assert OwnerOk(s, Gate(c)) && Owns(s.workers[w], Gate(c));
    assert Taken(s.sh, Gate(c));
  }

  lemma ContinueMoves(sh: Shared, g: Goroutine, step: Step)
    requires WorkerOk(g) && ViewsOk(sh) && Continues(step)
    requires HasFlight(g.at) ==> FlightOf(sh, g.chat) == Some(g.item)
    ensures OnlyMoves(sh, Continue(sh, g, step).sh, ContinueOpOf(sh, g, step), g.chat)
  {
    if !step.Go? {
      StillMoves(sh, Continue(sh, g, step).sh, g.chat);
    } else if HasFlight(g.at) || g.at.Sending? {
      QueuedMoves(sh, g, step.ok);
    } else {
      OtherMoves(sh, g, step.ok);
    }
  }

  lemma OwnStepMovesViews(s: State, step: Step, c: Chat)
    requires Inv(s) && Continues(step) && step.worker in s.workers
    ensures ViewMoves(s.sh, Apply(s, step).sh, OpOf(s, step, c), c)
  {
    var g := s.workers[step.worker];
    ContinueMoves(s.sh, g, step);
    assert ViewMoves(s.sh, Apply(s, step).sh, SameBut(ContinueOpOf(s.sh, g, step), g.chat, c), c);
  }

  lemma NewStepMovesViews(s: State, step: Step, c: Chat)
    requires Inv(s) && !Continues(step)
    ensures ViewMoves(s.sh, Apply(s, step).sh, OpOf(s, step, c), c)
  {
    var sh' := Begin(s.sh, step).sh;
    if step.Occupy? || step.Relabel? {
      StillMoves(s.sh, sh', c);
      assert ViewMoves(s.sh, sh', SameBut(Same, c, c), c);
    } else {
      if step.chat in s.sh.flight { FlightClosesGate(s, step.chat); }
      BeginMoves(s.sh, step);
      assert ViewMoves(s.sh, sh', SameBut(BeginOpOf(s.sh, step), step.chat, c), c);
    }
  }

  /** Every step does to the queue of each chat exactly the operation OpOf names. */
  lemma StepMovesViews(s: State, step: Step, c: Chat)
    requires Inv(s)
    ensures ViewMoves(s.sh, Apply(s, step).sh, OpOf(s, step, c), c)
  {
    if !Continues(step) {
      NewStepMovesViews(s, step, c);
    } else if step.worker in s.workers {
      OwnStepMovesViews(s, step, c);
    }
  }

  lemma StepKeepsViews(s: State, step: Step)
    requires Inv(s)
    ensures ViewsOk(Apply(s, step).sh)
  {
    var s' := Apply(s, step);
    forall c
      ensures ViewOk(ViewOf(s'.sh, c), c, s'.sh.table.seqNo)
    {
      StepMovesViews(s, step, c);
      assert ViewOk(ViewOf(s.sh, c), c, s.sh.table.seqNo);
      DoKeepsViewOk(ViewOf(s.sh, c), OpOf(s, step, c), c, s.sh.table.seqNo, EngineBytes(s.sh.table.queues));
    }
  }

  lemma BeginWorkerOk(sh: Shared, step: Step)
    requires ViewsOk(sh)
    ensures var g := Begin(sh, step).g; g.Some? ==> WorkerOk(g.value)
  {
    if step.Drain? && PopNext(sh.table, step.chat).1.Some? {
      OwnChats(sh);
      assert QueueOf(sh.table, step.chat).items[0] in QueueOf(sh.table, step.chat).items;
    }
  }

  lemma ContinueWorkerOk(sh: Shared, g: Goroutine, step: Step)
    requires WorkerOk(g)
    ensures var g' := Continue(sh, g, step).g; g'.Some? ==> WorkerOk(g'.value)
  {}

  lemma StepKeepsWorkers(s: State, step: Step)
    requires WorkersOk(s) && ViewsOk(s.sh)
    ensures WorkersOk(Apply(s, step))
  {
    if Continues(step) {
      if step.worker in s.workers { ContinueWorkerOk(s.sh, s.workers[step.worker], step); }
    } else {
      BeginWorkerOk(s.sh, step);
    }
  }

  /** What an action of p does to the items in flight. */
  ghost predicate FlightFair(sh: Shared, p: Option<Goroutine>, o: Outcome) {
    || (o.sh.flight == sh.flight && FlightIn(p) == FlightIn(o.g)
        && (FlightIn(p) ==> o.g.value.chat == p.value.chat && o.g.value.item == p.value.item))
    || (FlightIn(p) && !FlightIn(o.g) && o.sh.flight == sh.flight - {p.value.chat})
    || (p.None? && FlightIn(o.g) && o.sh.flight == sh.flight[o.g.value.chat := o.g.value.item]
        && !Taken(sh, Gate(o.g.value.chat)))
  }

  lemma BeginFlight(sh: Shared, step: Step)
    ensures FlightFair(sh, None, Begin(sh, step))
  {}

  lemma ContinueFlight(sh: Shared, g: Goroutine, step: Step)
    requires WorkerOk(g)
    ensures FlightFair(sh, Some(g), Continue(sh, g, step))
  {
    if step.Go? {
      if HasFlight(g.at) || g.at.Sending? { QueuedFlight(sh, g, step.ok); } else { OtherFlight(sh, g); }
    }
  }

  lemma ReturnFlight(sh: Shared, g: Goroutine, ok: bool)
    requires g.at.Failing? || g.at.Requeueing? || (g.at.Bound? && ok)
    ensures var o := ActQueued(sh, g, ok); !FlightIn(o.g) && o.sh.flight == sh.flight - {g.chat}
  {}

  lemma HoldFlight(sh: Shared, g: Goroutine, ok: bool)
    requires HasFlight(g.at) && !g.at.Failing? && !g.at.Requeueing? && !(g.at.Bound? && ok)
    ensures var o := ActQueued(sh, g, ok);
      o.sh.flight == sh.flight && FlightIn(o.g) && o.g.value.chat == g.chat && o.g.value.item == g.item
  {}

  lemma QueuedFlight(sh: Shared, g: Goroutine, ok: bool)
    requires HasFlight(g.at) || g.at.Sending?
    ensures FlightFair(sh, Some(g), ActQueued(sh, g, ok))
  {
    if g.at.Failing? || g.at.Requeueing? || (g.at.Bound? && ok) {
      ReturnFlight(sh, g, ok);
    } else if HasFlight(g.at) {
      HoldFlight(sh, g, ok);
    }
  }

  lemma TableFlight(sh: Shared, g: Goroutine)
    requires TouchesQueue(g.at)
    ensures var o := ActOther(sh, g); o.sh.flight == sh.flight && !FlightIn(o.g)
  {}

  lemma QuietFlight(sh: Shared, g: Goroutine)
    requires !HasFlight(g.at) && !g.at.Sending? && !TouchesQueue(g.at)
    ensures var o := ActOther(sh, g); o.sh.flight == sh.flight && !FlightIn(o.g)
  {
    QuietKeepsQueues(sh, g);
  }

  lemma OtherFlight(sh: Shared, g: Goroutine)
    requires !HasFlight(g.at) && !g.at.Sending?
    ensures FlightFair(sh, Some(g), ActOther(sh, g))
  {
    if TouchesQueue(g.at) { TableFlight(sh, g); } else { QuietFlight(sh, g); }
  }

  lemma FlightFairKeeps(s: State, w: nat, o: Outcome)
    requires OwnersOk(s) && FlightsOk(s) && (w in s.workers || w == s.next) && FlightFair(s.sh, Here(s, w), o)
    ensures FlightsOk(Settle(s, w, o))
  {
    var s', p := Settle(s, w, o), Here(s, w);
    var c := if FlightIn(p) then p.value.chat else if FlightIn(o.g) then o.g.value.chat else "";
    assert OwnerOk(s, Gate(c));
    forall x | x in s'.workers && HasFlight(s'.workers[x].at)
      ensures FlightOf(s'.sh, s'.workers[x].chat) == Some(s'.workers[x].item)
    {
      if x != w && s'.workers[x].chat == c { assert Owns(s.workers[x], Gate(c)); }
    }
    forall k | k in s'.sh.flight
      ensures exists x :: FlightOwner(s', x, k)
    {
      if k in s.sh.flight {
        var x :| FlightOwner(s, x, k);
        assert x != w ==> FlightOwner(s', x, k);
        assert x == w && FlightIn(o.g) ==> FlightOwner(s', w, k);
      } else {
        assert FlightOwner(s', w, k);
      }
    }
  }

  lemma StepKeepsFlights(s: State, step: Step)
    requires OwnersOk(s) && WorkersOk(s) && FlightsOk(s)
    ensures FlightsOk(Apply(s, step))
  {
    if Continues(step) {
      if step.worker in s.workers {
        ContinueFlight(s.sh, s.workers[step.worker], step);
        FlightFairKeeps(s, step.worker, Continue(s.sh, s.workers[step.worker], step));
      }
    } else {
      BeginFlight(s.sh, step);
      FlightFairKeeps(s, s.next, Begin(s.sh, step));
    }
  }

  lemma StepKeepsInv(s: State, step: Step)
    requires Inv(s)
    ensures Inv(Apply(s, step))
  {
    StepKeepsOwners(s, step);
    StepKeepsWorkers(s, step);
    StepKeepsFlights(s, step);
    StepKeepsViews(s, step);
  }

  lemma InitInv()
    ensures Inv(INIT)
  {
    forall r: Thing ensures OwnerOk(INIT, r) {}
  }

  lemma {:induction false} RunInv(steps: seq<Step>)
    ensures Inv(Run(INIT, steps))
  {
    if steps == [] {
      InitInv();
    } else {
      RunInv(steps[..|steps| - 1]);
      StepKeepsInv(Run(INIT, steps[..|steps| - 1]), steps[|steps| - 1]);
    }
  }

  // ---------------------------------------------------------------- under which session a prompt is sent

  /** The check of startQueuedPrompt still holds: the chat's active session is the one the
      prompt was queued under. */
  predicate Confirmed(sh: Shared, g: Goroutine) {
    !g.item.cron && (g.at.Ready? || g.at.Bound? || g.at.Sending?) ==>
      g.chat in sh.active && sh.active[g.chat] == g.sid && g.item.local == Some(g.sid)
  }

  predicate SentOk(e: SentItem) { !e.item.cron && e.active.Some? && e.active == e.item.local }

  ghost predicate SessionsOk(s: State) {
    && (forall w | w in s.workers :: Confirmed(s.sh, s.workers[w]))
    && (forall e | e in s.sh.sent :: SentOk(e))
  }

  /** Only the active session of `but` may change. */
  ghost predicate ActiveKept(sh: Shared, sh': Shared, but: Option<Chat>) {
    forall k | k in sh.active && Some(k) != but :: k in sh'.active && sh'.active[k] == sh.active[k]
  }

  lemma ActiveStaysBegin(sh: Shared, step: Step)
    ensures ActiveKept(sh, Begin(sh, step).sh, None) && Begin(sh, step).sh.sent == sh.sent
  {}

  lemma ActiveStaysOther(sh: Shared, g: Goroutine)
    ensures ActiveKept(sh, ActOther(sh, g).sh, None) && ActOther(sh, g).sh.sent == sh.sent
  {}

  lemma ActiveStaysQueued(sh: Shared, g: Goroutine, ok: bool)
    ensures ActiveKept(sh, ActQueued(sh, g, ok).sh, None)
    ensures var sent := ActQueued(sh, g, ok).sh.sent;
      sent == sh.sent || (g.at.Sending? && ok && sent == sh.sent + [SentItem(g.item, if g.chat in sh.active then Some(sh.active[g.chat]) else None)])
  {}

  /** The item of a goroutine that holds a flight was queued with its local session. */
  lemma FlightHasSession(s: State, w: nat)
    requires FlightsOk(s) && ViewsOk(s.sh) && w in s.workers && HasFlight(s.workers[w].at)
    ensures s.workers[w].item.cron || s.workers[w].item.local.Some?
  {
    var c := s.workers[w].chat;
    assert ViewOk(ViewOf(s.sh, c), c, s.sh.table.seqNo);
    assert Waiting(ViewOf(s.sh, c))[0] == s.workers[w].item;
    assert s.workers[w].item in Waiting(ViewOf(s.sh, c));
  }

  lemma QueuedConfirmed(sh: Shared, g: Goroutine, ok: bool)
    requires WorkerOk(g) && Confirmed(sh, g) && (HasFlight(g.at) ==> g.item.cron || g.item.local.Some?)
    ensures var o := ActQueued(sh, g, ok); o.g.Some? ==> Confirmed(o.sh, o.g.value)
  {}

  lemma OtherConfirmed(sh: Shared, g: Goroutine)
    requires !HasFlight(g.at) && !g.at.Sending?
    ensures var o := ActOther(sh, g); o.g.Some? ==> Confirmed(o.sh, o.g.value)
  {}

  /** Nobody else owns the transition lock of a goroutine that must hold it. */
  lemma OneTransOwner(s: State, w: nat, x: nat)
    requires OwnersOk(s) && WorkersOk(s) && w in s.workers && x in s.workers && w != x && MustTrans(s.workers[w])
    ensures s.workers[x].chat == s.workers[w].chat ==> !s.workers[x].trans && !MustTrans(s.workers[x])
  {
    var r := Trans(s.workers[w].chat);
    assert OwnerOk(s, r) && Owns(s.workers[w], r);
    assert !Owns(s.workers[x], r);
  }

  /** Only the goroutine that holds the transition lock of a chat switches its session. */
  lemma NobodyElseConfirmed(s: State, w: nat, x: nat)
    requires OwnersOk(s) && WorkersOk(s) && w in s.workers && x in s.workers && w != x
    requires s.workers[w].at.Switching? && s.workers[w].chat == s.workers[x].chat
    ensures s.workers[x].item.cron || !(s.workers[x].at.Ready? || s.workers[x].at.Bound? || s.workers[x].at.Sending?)
  {
    OneTransOwner(s, w, x);
  }

  lemma SwitchKeepsSessions(s: State, step: Step)
    requires Inv(s) && SessionsOk(s) && step.SwitchTo?
    ensures SessionsOk(Apply(s, step))
  {
    var s', w := Apply(s, step), step.worker;
    if w in s.workers && s.workers[w].at.Switching? {
      forall x | x in s'.workers
        ensures Confirmed(s'.sh, s'.workers[x])
      {
        if x != w {
          assert Confirmed(s.sh, s.workers[x]);
          if s.workers[x].chat == s.workers[w].chat { NobodyElseConfirmed(s, w, x); }
        }
      }
    }
  }

  lemma GoKeepsSessions(s: State, w: nat, ok: bool)
    requires Inv(s) && SessionsOk(s) && w in s.workers
    ensures SessionsOk(Apply(s, Go(w, ok)))
  {
    var s', g := Apply(s, Go(w, ok)), s.workers[w];
    var queued := HasFlight(g.at) || g.at.Sending?;
    if HasFlight(g.at) { FlightHasSession(s, w); }
    if queued {
      ActiveStaysQueued(s.sh, g, ok);
      QueuedConfirmed(s.sh, g, ok);
    } else {
      ActiveStaysOther(s.sh, g);
      OtherConfirmed(s.sh, g);
    }
    forall x | x in s'.workers
      ensures Confirmed(s'.sh, s'.workers[x])
    {
      if x != w { assert Confirmed(s.sh, s.workers[x]); }
    }
  }

  lemma BeginKeepsSessions(s: State, step: Step)
    requires Inv(s) && SessionsOk(s) && !Continues(step)
    ensures SessionsOk(Apply(s, step))
  {
    var s' := Apply(s, step);
    ActiveStaysBegin(s.sh, step);
    forall x | x in s'.workers
      ensures Confirmed(s'.sh, s'.workers[x])
    {
      if x != s.next { assert Confirmed(s.sh, s.workers[x]); }
    }
  }

  lemma {:induction false} RunSessions(steps: seq<Step>)
    ensures SessionsOk(Run(INIT, steps))
  {
    if steps != [] {
      var before, step := steps[..|steps| - 1], steps[|steps| - 1];
      var s := Run(INIT, before);
      RunSessions(before);
      RunInv(before);
      if !Continues(step) {
        BeginKeepsSessions(s, step);
      } else if step.worker in s.workers {
        match step
        case SwitchTo(_, _, _) => SwitchKeepsSessions(s, step);
        case ReleaseTransition(_) => ReleaseKeepsSessions(s, step);
        case Go(w, ok) => GoKeepsSessions(s, w, ok);
      }
    }
  }

  lemma ReleaseKeepsSessions(s: State, step: Step)
    requires Inv(s) && SessionsOk(s) && step.ReleaseTransition?
    ensures SessionsOk(Apply(s, step))
  {
    var s' := Apply(s, step);
    forall x | x in s'.workers
      ensures Confirmed(s'.sh, s'.workers[x])
    {
      assert Confirmed(s.sh, s.workers[x]);
    }
  }
}
