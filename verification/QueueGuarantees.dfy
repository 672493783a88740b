/** What the invariants of QueueRuns mean for a chat: who holds its gate, how much waits, in
    which order its prompts start, and under which session they are sent. */
module QueueGuarantees {
  import opened Text
  import opened PromptQueue
  import opened QueueRuns

  /** In every reachable state a chat's gate is closed exactly when some goroutine owns it, and
      then just one does. */
  lemma {:induction false} GateHasOneOwner(steps: seq<Step>, c: Chat)
    ensures var s := Run(INIT, steps);
      && (QueueOf(s.sh.table, c).running <==> exists w :: w in s.workers && Owns(s.workers[w], Gate(c)))
      && (forall w, x | w in s.workers && x in s.workers && Owns(s.workers[w], Gate(c)) && Owns(s.workers[x], Gate(c)) :: w == x)
  {
    RunInv(steps);
    assert OwnerOk(Run(INIT, steps), Gate(c));
  }

  /** In every reachable state the queued and in-flight items of a chat are its own, at most
      21, and carry at most 100 MiB. */
  lemma {:induction false} ChatIsBounded(steps: seq<Step>, c: Chat)
    ensures var v := ViewOf(Run(INIT, steps).sh, c);
      && |Waiting(v)| <= 21
      && Bytes(Waiting(v)) <= 100 * 1024 * 1024
      && forall it | it in Waiting(v) :: it.chat == c
  {
    RunInv(steps);
    var sh := Run(INIT, steps).sh;
    assert ViewOk(ViewOf(sh, c), c, sh.table.seqNo);
  }

  /** Every step but the user's move, by whichever goroutine, is to each chat a step of an
      abstract first-in-first-out queue. */
  lemma {:induction false} StepRefinesFifo(steps: seq<Step>, step: Step, c: Chat)
    requires !step.Move?
    ensures var s := Run(INIT, steps);
      FifoStep(Abstract(ViewOf(s.sh, c)), Abstract(ViewOf(Apply(s, step).sh, c)))
  {
    var s := Run(INIT, steps);
    RunInv(steps);
    StepMovesViews(s, step, c);
    OpRefinesFifo(ViewOf(s.sh, c), OpOf(s, step, c));
  }

  lemma StepKeepsOrder(s: State, step: Step, c: Chat)
    requires Inv(s) && !step.Move? && InOrder(ViewOf(s.sh, c), s.sh.table.seqNo)
    ensures InOrder(ViewOf(Apply(s, step).sh, c), Apply(s, step).sh.table.seqNo)
  {
    StepMovesViews(s, step, c);
    DoKeepsOrder(ViewOf(s.sh, c), OpOf(s, step, c), s.sh.table.seqNo);
  }

  /** Without move, the numbers rise along what started, then what is in flight, then the queue. */
  lemma {:induction false} NumbersRise(steps: seq<Step>, c: Chat)
    requires forall i | 0 <= i < |steps| :: !steps[i].Move?
    ensures InOrder(ViewOf(Run(INIT, steps).sh, c), Run(INIT, steps).sh.table.seqNo)
  {
    if steps != [] {
      var before := steps[..|steps| - 1];
      NumbersRise(before, c);
      RunInv(before);
      StepKeepsOrder(Run(INIT, before), steps[|steps| - 1], c);
    }
  }

  /** A turn starts inline exactly when nobody holds the gate and nothing waits, in the queue
      or in flight: it overtakes no item. */
  lemma {:induction false} InlineStartOvertakesNothing(steps: seq<Step>, c: Chat, r: Request)
    ensures var s := Run(INIT, steps);
      BeginOrEnqueue(s.sh.table, c, r).1.Started? <==>
        Waiting(ViewOf(s.sh, c)) == [] && forall w | w in s.workers :: !Owns(s.workers[w], Gate(c))
  {
    var s := Run(INIT, steps);
    RunInv(steps);
    GateHasOneOwner(steps, c);
    if c in s.sh.flight { FlightClosesGate(s, c); }
  }

  /** A user prompt from the queue is only sent while the chat's active session is the one
      recorded when it was queued. */
  lemma SentUnderRecordedSession(steps: seq<Step>, i: nat)
    requires i < |Run(INIT, steps).sh.sent|
    ensures var e := Run(INIT, steps).sh.sent[i]; !e.item.cron && e.active.Some? && e.active == e.item.local
  {
    RunSessions(steps);
    assert SentOk(Run(INIT, steps).sh.sent[i]);
  }

  /** From its check to its send, a queued user prompt holds the transition lock of its chat:
      its session stays the active one and no /new or /switch of the chat is under way. */
  lemma {:induction false} NoSwitchBetweenCheckAndSend(steps: seq<Step>, w: nat, x: nat)
    requires var s := Run(INIT, steps); w in s.workers && x in s.workers
    requires var g := Run(INIT, steps).workers[w]; !g.item.cron && (g.at.Ready? || g.at.Bound? || g.at.Sending?)
    ensures var s := Run(INIT, steps);
      var g, other := s.workers[w], s.workers[x];
      && g.item.local == Some(g.sid) && g.chat in s.sh.active && s.sh.active[g.chat] == g.sid
      && (other.at.Switching? || other.at.Cancelling? ==> other.chat != g.chat)
  {
    var s := Run(INIT, steps);
    RunInv(steps);
    RunSessions(steps);
    assert Confirmed(s.sh, s.workers[w]) && WorkerOk(s.workers[w]);
    if x != w { OneTransOwner(s, w, x); }
  }

  /** Cancel-on-switch leaves every other chat's queue as it is, leaves all gates, and keeps of
      this chat's queue exactly the surviving items, in order. */
  lemma {:induction false} CancelKeepsExactlySurvivors(steps: seq<Step>, c: Chat, sid: Sid, agent: Agent)
    ensures var t := Run(INIT, steps).sh.table;
      var t' := CancelOnSwitch(t, c, sid, agent);
      && (forall k | k != c :: QueueOf(t', k) == QueueOf(t, k))
      && QueueOf(t', c).running == QueueOf(t, c).running
      && Subsequence(QueueOf(t', c).items, QueueOf(t, c).items)
      && (forall it :: it in QueueOf(t', c).items <==>
            it in QueueOf(t, c).items && (it.cron || it.local == Some(sid)) && it.agent != "" && it.agent == agent)
  {
    RunInv(steps);
    var sh := Run(INIT, steps).sh;
    var t, items := sh.table, QueueOf(sh.table, c).items;
    OwnChats(sh);
    CancelActs(t, c, sid, agent);
    CancelGates(t, c, sid, agent);
    SelectSurvivors(items, c, sid, agent);
    SelectSubsequence(items, KeepSurvivors(items, c, sid, agent));
    SurvivingExactly(items, c, sid, agent);
  }

  /** /new switches to a session without an agent session: it cancels the chat's whole queue. */
  lemma {:induction false} NewCancelsAll(steps: seq<Step>, c: Chat, sid: Sid)
    ensures QueueOf(CancelOnSwitch(Run(INIT, steps).sh.table, c, sid, ""), c).items == []
  {
    RunInv(steps);
    var sh := Run(INIT, steps).sh;
    OwnChats(sh);
    CancelActs(sh.table, c, sid, "");
    SelectSurvivors(QueueOf(sh.table, c).items, c, sid, "");
    NoneSurvive(QueueOf(sh.table, c).items, c, sid);
  }

  // ---------------------------------------------------------------- what a goroutine decides

  /** The chat's active session, or the one that GetOrCreateActive will make. */
  function SessionNow(sh: Shared, c: Chat): Sid { if c in sh.active then sh.active[c] else sh.sids + 1 }

  /** The agent session that the chat's active session is bound to, "" when it is not. */
  function AgentNow(sh: Shared, c: Chat): Agent {
    if c in sh.active && sh.active[c] in sh.agents then sh.agents[sh.active[c]] else ""
  }

  /** A message takes the chat's active session, making one if there is none, and records that
      session and its agent session as what it wants queued. */
  lemma ArrivalRecords(steps: seq<Step>, c: Chat, bytes: nat)
    ensures var s := Run(INIT, steps); var s' := Apply(s, Message(c, bytes));
      var sid := SessionNow(s.sh, c);
      && s.next !in s.workers && s.next in s'.workers
      && var g := s'.workers[s.next];
        && g.at.Arrived? && g.chat == c && g.sid == sid
        && g.req == Request(Some(sid), AgentNow(s.sh, c), false, bytes)
        && c in s'.sh.active && s'.sh.active[c] == sid
  {
    RunInv(steps);
  }

  /** Room for one more item: fewer than 20 in the queue, and with it at most 50 MiB in the queue
      and 200 MiB in all queues. */
  ghost predicate HasRoom(sh: Shared, c: Chat, bytes: nat) {
    var q := QueueOf(sh.table, c).items;
    |q| < 20 && Bytes(q) + bytes <= 50 * 1024 * 1024 && EngineBytes(sh.table.queues) + bytes <= 200 * 1024 * 1024
  }

  /** A handler goes on as it arrived: its session's busy bit is its own exactly if it was free. */
  lemma HandlerLocks(steps: seq<Step>, w: nat, ok: bool)
    requires var s := Run(INIT, steps); w in s.workers && s.workers[w].at.Arrived?
    ensures var s := Run(INIT, steps); var s' := Apply(s, Go(w, ok)); var g := s.workers[w];
      if g.sid in s.sh.busy then s' == s.(workers := s.workers[w := g.(at := Enqueueing)])
      else s' == s.(workers := s.workers[w := g.(at := Locked)], sh := s.sh.(busy := s.sh.busy + {g.sid}))
  {
    RunInv(steps);
  }

  /** A handler without its session's busy bit queues its prompt, and one with it starts its
      turn if the gate is open and nothing waits, and else queues its prompt. A prompt is queued
      exactly when there is room, last, with what the handler recorded when it arrived. */
  lemma {:induction false} QueuedAsAsked(steps: seq<Step>, w: nat, ok: bool)
    requires var s := Run(INIT, steps); w in s.workers && (s.workers[w].at.Enqueueing? || s.workers[w].at.Locked?)
    ensures var s := Run(INIT, steps); var s' := Apply(s, Go(w, ok)); var g := s.workers[w];
      var q, q' := QueueOf(s.sh.table, g.chat), QueueOf(s'.sh.table, g.chat);
      var starts := g.at.Locked? && !q.running && q.items == [];
      && q'.items == (if !starts && HasRoom(s.sh, g.chat, g.req.bytes)
                      then q.items + [Item(s.sh.table.seqNo + 1, g.chat, g.req.local, g.req.agent, g.req.cron, g.req.bytes)]
                      else q.items)
      && q'.running == (q.running || starts)
      && (if g.at.Locked? then w in s'.workers && s'.workers[w] == g.(at := if starts then Turn else Unlocking) else w !in s'.workers)
  {
    RunInv(steps);
  }

  /** A user prompt taken from the queue passes its check if and only if the chat's active session
      is the one recorded when it was queued, and the agent session recorded with it, if any, is
      the one that session is bound to now. */
  lemma {:induction false} CheckExactly(steps: seq<Step>, w: nat, ok: bool)
    requires var s := Run(INIT, steps); w in s.workers && s.workers[w].at.Checking?
    ensures var s := Run(INIT, steps); var s' := Apply(s, Go(w, ok)); var g := s.workers[w];
      var now := SessionNow(s.sh, g.chat);
      var passes := g.item.local == Some(now) && (g.item.agent == "" || g.item.agent == AgentNow(s.sh, g.chat));
      w in s'.workers && s'.workers[w] == g.(sid := now, at := if passes then Ready else Failing)
  {
    RunInv(steps);
    FlightHasSession(Run(INIT, steps), w);
    assert WorkerOk(Run(INIT, steps).workers[w]);
  }

  /** A checked prompt is put back exactly when its session is busy. */
  lemma QueuedLocks(steps: seq<Step>, w: nat, ok: bool)
    requires var s := Run(INIT, steps); w in s.workers && s.workers[w].at.Ready?
    ensures var s := Run(INIT, steps); var s' := Apply(s, Go(w, ok)); var g := s.workers[w];
      if g.sid in s.sh.busy then s' == s.(workers := s.workers[w := g.(at := Requeueing)])
      else s' == s.(workers := s.workers[w := g.(at := Bound)], sh := s.sh.(busy := s.sh.busy + {g.sid}))
  {
    RunInv(steps);
  }

  /** A prompt that was taken from the queue waits for the transition lock of its chat before its
      check; a cron run has no such check, and is skipped when its job is gone. */
  lemma {:induction false} PoppedGoesOn(steps: seq<Step>, w: nat, ok: bool)
    requires var s := Run(INIT, steps); w in s.workers && s.workers[w].at.Popped?
    ensures var s := Run(INIT, steps); var s' := Apply(s, Go(w, ok)); var g := s.workers[w];
      && w in s'.workers && s'.sh.table == s.sh.table && s'.sh.busy == s.sh.busy
      && s'.workers[w] ==
        if g.item.cron then (if ok then g.(at := Ready, sid := SessionNow(s.sh, g.chat)) else g.(at := Failing))
        else if g.chat in s.sh.trans then g else g.(at := Checking, trans := true)
  {
    RunInv(steps);
  }

  /** A prompt that has its session's busy bit starts its turn if its platform is there, and only
      then counts as started; otherwise it gives the bit back and is skipped. */
  lemma {:induction false} BoundStarts(steps: seq<Step>, w: nat, ok: bool)
    requires var s := Run(INIT, steps); w in s.workers && (s.workers[w].at.Bound? || s.workers[w].at.Unbinding?)
    ensures var s := Run(INIT, steps); var s' := Apply(s, Go(w, ok)); var g := s.workers[w];
      && w in s'.workers && s'.sh.table == s.sh.table
      && StartedOf(s'.sh, g.chat) == StartedOf(s.sh, g.chat) + (if g.at.Bound? && ok then [g.item] else [])
      && s'.sh.busy == (if g.at.Unbinding? then s.sh.busy - {g.sid} else s.sh.busy)
      && s'.workers[w] == g.(at := if g.at.Unbinding? then Failing else if !ok then Unbinding else if g.item.cron then Turn else Sending)
  {
    RunInv(steps);
  }

  /** The turn of a queued user prompt sends that prompt, and goes on to its end. */
  lemma {:induction false} SendsItem(steps: seq<Step>, w: nat, ok: bool)
    requires var s := Run(INIT, steps); w in s.workers && s.workers[w].at.Sending?
    ensures var s := Run(INIT, steps); var s' := Apply(s, Go(w, ok)); var g := s.workers[w];
      && w in s'.workers && s'.sh.table == s.sh.table
      && (if ok then
            && |s'.sh.sent| == |s.sh.sent| + 1 && s'.sh.sent[..|s.sh.sent|] == s.sh.sent
            && s'.sh.sent[|s.sh.sent|].item == g.item && s'.workers[w] == g
          else s'.sh.sent == s.sh.sent && s'.workers[w] == g.(at := Turn))
  {
    RunInv(steps);
  }

  /** A prompt that is skipped is dropped and opens the gate; one that is put back comes first
      and opens the gate. */
  lemma {:induction false} SkippedOrPutBack(steps: seq<Step>, w: nat, ok: bool)
    requires var s := Run(INIT, steps); w in s.workers && (s.workers[w].at.Failing? || s.workers[w].at.Requeueing?)
    ensures var s := Run(INIT, steps); var sh' := Apply(s, Go(w, ok)).sh; var g := s.workers[w];
      var q := QueueOf(s.sh.table, g.chat).items;
      && QueueOf(sh'.table, g.chat) == QState(false, if g.at.Requeueing? then [g.item] + q else q)
      && g.chat !in sh'.flight
  {
    RunInv(steps);
    var s := Run(INIT, steps);
    assert WorkerOk(s.workers[w]);
    ReturnOpensGate(s.sh, s.workers[w], ok);
  }

  lemma ReturnOpensGate(sh: Shared, g: Goroutine, ok: bool)
    requires (g.at.Failing? || g.at.Requeueing?) && g.item.chat == g.chat
    ensures var sh' := ActQueued(sh, g, ok).sh;
      var q := QueueOf(sh.table, g.chat).items;
      && QueueOf(sh'.table, g.chat) == QState(false, if g.at.Requeueing? then [g.item] + q else q)
      && g.chat !in sh'.flight
  {}

  /** The end of a turn frees its session and then opens the gate of its chat. */
  lemma {:induction false} TurnEnds(steps: seq<Step>, w: nat, ok: bool)
    requires var s := Run(INIT, steps); w in s.workers && (s.workers[w].at.Turn? || s.workers[w].at.Completing?)
    ensures var s := Run(INIT, steps); var s' := Apply(s, Go(w, ok)); var g := s.workers[w];
      if g.at.Turn? then
        s'.sh == s.sh.(busy := s.sh.busy - {g.sid}) && w in s'.workers && s'.workers[w] == g.(at := Completing)
      else
        && QueueOf(s'.sh.table, g.chat) == QState(false, QueueOf(s.sh.table, g.chat).items) && s'.sh.busy == s.sh.busy
        && (w in s'.workers <==> g.trans)
  {
    RunInv(steps);
  }

  /** /switch makes the session it names the chat's active one, and /new a new session without
      an agent session; the cancelling that follows is given that session. */
  lemma {:induction false} SwitchMoves(steps: seq<Step>, w: nat, target: Option<Sid>, agent: Agent)
    requires var s := Run(INIT, steps); w in s.workers && s.workers[w].at.Switching?
    ensures var s := Run(INIT, steps); var g := s.workers[w];
      var s' := Apply(s, SwitchTo(w, target, agent));
      var sid := if target.Some? then target.value else s.sh.sids + 1;
      && s'.sh.active == s.sh.active[g.chat := sid] && s'.sh.table == s.sh.table
      && (target.None? ==> AgentNow(s'.sh, g.chat) == "")
      && w in s'.workers && s'.workers[w].at.Cancelling? && s'.workers[w].chat == g.chat
      && s'.workers[w].sid == sid && s'.workers[w].req.agent == if target.Some? then agent else ""
  {
    RunInv(steps);
  }

  /** The prompts of the chat that do not match the session given are then cancelled. */
  lemma {:induction false} SwitchCancels(steps: seq<Step>, w: nat, ok: bool)
    requires var s := Run(INIT, steps); w in s.workers && s.workers[w].at.Cancelling?
    ensures var s := Run(INIT, steps); var g := s.workers[w];
      var s' := Apply(s, Go(w, ok));
      && s'.sh.table == CancelOnSwitch(s.sh.table, g.chat, g.sid, g.req.agent)
      && s'.sh.active == s.sh.active && w in s'.workers && s'.workers[w].at.Releasing?
  {
    RunInv(steps);
  }

  /** A cron run starts inline exactly when the gate is open and nothing waits, and is queued
      otherwise if there is room; if its session is busy after all, it reopens the gate and is
      queued, without an agent session, if there is room. */
  lemma {:induction false} CronQueues(steps: seq<Step>, c: Chat)
    ensures var s := Run(INIT, steps); var s' := Apply(s, CronFires(c));
      var q, q' := QueueOf(s.sh.table, c), QueueOf(s'.sh.table, c);
      var starts := !q.running && q.items == [];
      && (s.next in s'.workers <==> starts)
      && q'.running == (q.running || starts)
      && q'.items == if !starts && HasRoom(s.sh, c, 0)
                     then q.items + [Item(s.sh.table.seqNo + 1, c, None, AgentNow(s.sh, c), true, 0)]
                     else q.items
  {
    RunInv(steps);
  }

  lemma {:induction false} CronLocks(steps: seq<Step>, w: nat, ok: bool)
    requires var s := Run(INIT, steps); w in s.workers && s.workers[w].at.CronGot?
    ensures var s := Run(INIT, steps); var s' := Apply(s, Go(w, ok)); var g := s.workers[w];
      s'.sh.table == s.sh.table && w in s'.workers && s'.workers[w] == g.(at := if g.sid in s.sh.busy then CronBusy else Turn)
  {
    RunInv(steps);
  }

  lemma {:induction false} CronFallsBack(steps: seq<Step>, w: nat, ok: bool)
    requires var s := Run(INIT, steps); w in s.workers && s.workers[w].at.CronBusy?
    ensures var s := Run(INIT, steps); var sh' := Apply(s, Go(w, ok)).sh; var c := s.workers[w].chat;
      var q, q' := QueueOf(s.sh.table, c).items, QueueOf(sh'.table, c);
      q' == QState(false, if HasRoom(s.sh, c, 0) then q + [Item(s.sh.table.seqNo + 1, c, None, "", true, 0)] else q)
  {
    RunInv(steps);
    var s := Run(INIT, steps);
    var g := s.workers[w];
    assert Owns(g, Gate(g.chat)) && OwnerOk(s, Gate(g.chat));
    FallbackQueues(s.sh, g);
  }

  lemma FallbackQueues(sh: Shared, g: Goroutine)
    requires g.at.CronBusy? && QueueOf(sh.table, g.chat).running
    ensures var c := g.chat;
      var q, q' := QueueOf(sh.table, c).items, QueueOf(ActOther(sh, g).sh.table, c);
      q' == QState(false, if HasRoom(sh, c, 0) then q + [Item(sh.table.seqNo + 1, c, None, "", true, 0)] else q)
  {
    EngineBytesMove(sh.table, Reopened(sh.table, g.chat), g.chat);
  }
}
