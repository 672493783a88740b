/** How far the prompt queue can go beyond its limits: runs of the program in which prompts
    are put back while their sessions are busy.

    A limit is checked when a prompt is queued and not when it is put back. The runs here let a
    turn end, take the next prompt out, refill the queue while that prompt is in flight, occupy
    its session, and let it be put back. They are built from small pieces, each of which leads
    from any state of one kind to a state of the next: messages that find their session busy
    and queue a prompt, a drain that takes one out, a check that passes, a session that is
    locked by another command, and a prompt that is put back in front of a queue that has been
    filled up again. One chat gives the bounds of a queue, and many chats, one after another,
    give those of all queues together. */
module QueueExtremes {
  import opened Text
  import opened PromptQueue
  import opened QueueRuns
  import opened QueueLimits

  // ---------------------------------------------------------------- reaching a state

  /** Some steps of the program lead from s to s'. */
  ghost predicate Reaches(s: State, s': State) { exists steps :: Run(s, steps) == s' }

  lemma {:induction false} RunAppend(s: State, a: seq<Step>, b: seq<Step>)
    ensures Run(s, a + b) == Run(Run(s, a), b)
  {
    if b == [] {
      assert a + b == a;
    } else {
      var last := |b| - 1;
      assert (a + b)[..|a + b| - 1] == a + b[..last] && (a + b)[|a + b| - 1] == b[last];
      RunAppend(s, a, b[..last]);
    }
  }

  lemma Then(s: State, s': State, s'': State)
    requires Reaches(s, s') && Reaches(s', s'')
    ensures Reaches(s, s'')
  {
    var a :| Run(s, a) == s';
    var b :| Run(s', b) == s'';
    RunAppend(s, a, b);
  }

  lemma Stay(s: State)
    ensures Reaches(s, s)
  {
    assert Run(s, []) == s;
  }

  lemma OneStep(s: State, step: Step)
    ensures Reaches(s, Apply(s, step))
  {
    assert [step][..0] == [] && Run(s, []) == s;
    assert Run(s, [step]) == Apply(s, step);
  }

  // ---------------------------------------------------------------- single steps

  function Place(s: State, w: nat, at: At): State
    requires w in s.workers
  {
    s.(workers := s.workers[w := s.workers[w].(at := at)])
  }

  function Spawn(s: State, sh: Shared, g: Goroutine): State {
    State(sh, s.workers[s.next := g], s.next + 1)
  }

  function Sender(s: State, c: Chat, bytes: nat): Goroutine {
    var sid := ActiveOf(s.sh, c);
    Goroutine(Arrived, c, sid, false, NO_ITEM, Request(Some(sid), AgentOf(WithActive(s.sh, c), sid), false, bytes))
  }

  lemma Sends(s: State, c: Chat, bytes: nat)
    ensures Reaches(s, Spawn(s, WithActive(s.sh, c), Sender(s, c, bytes)))
  {
    OneStep(s, Message(c, bytes));
  }

  function Occupier(sid: Sid): Goroutine { Goroutine(Other, "", sid, false, NO_ITEM, CRON_REQUEST) }

  lemma Occupies(s: State, sid: Sid)
    requires sid !in s.sh.busy
    ensures Reaches(s, Spawn(s, s.sh.(busy := s.sh.busy + {sid}), Occupier(sid)))
  {
    OneStep(s, Occupy(sid));
  }

  lemma FindsBusy(s: State, w: nat)
    requires w in s.workers && w < s.next && s.workers[w].at.Arrived? && s.workers[w].sid in s.sh.busy
    ensures Reaches(s, Place(s, w, Enqueueing))
  {
    OneStep(s, Go(w, true));
  }

  lemma Enqueues(s: State, w: nat)
    requires w in s.workers && w < s.next && s.workers[w].at.Enqueueing?
    ensures var g := s.workers[w];
      Reaches(s, State(s.sh.(table := EnqueuePrompt(s.sh.table, g.chat, g.req).0), s.workers - {w}, s.next))
  {
    OneStep(s, Go(w, true));
  }

  lemma Pops(s: State, c: Chat)
    requires c in s.sh.table.queues && !s.sh.table.queues[c].running && s.sh.table.queues[c].items != []
    ensures var items := s.sh.table.queues[c].items;
      Reaches(s, Spawn(s, s.sh.(table := SetQueue(s.sh.table, c, QState(true, items[1..])), flight := s.sh.flight[c := items[0]]),
                       Goroutine(Popped, c, 0, false, items[0], CRON_REQUEST)))
  {
    OneStep(s, Drain(c));
  }

  lemma TakesTransition(s: State, w: nat)
    requires w in s.workers && w < s.next && s.workers[w].at.Popped?
    requires !s.workers[w].item.cron && s.workers[w].chat !in s.sh.trans
    ensures var g := s.workers[w];
      Reaches(s, State(s.sh.(trans := s.sh.trans + {g.chat}), s.workers[w := g.(at := Checking, trans := true)], s.next))
  {
    OneStep(s, Go(w, true));
  }

  lemma PassesChecks(s: State, w: nat)
    requires w in s.workers && w < s.next && s.workers[w].at.Checking?
    requires var g := s.workers[w]; g.chat in s.sh.active && g.item.local == Some(s.sh.active[g.chat]) && g.item.agent == ""
    ensures var g := s.workers[w];
      Reaches(s, State(s.sh, s.workers[w := g.(at := Ready, sid := s.sh.active[g.chat])], s.next))
  {
    OneStep(s, Go(w, true));
  }

  lemma CannotLock(s: State, w: nat)
    requires w in s.workers && w < s.next && s.workers[w].at.Ready? && s.workers[w].sid in s.sh.busy
    ensures Reaches(s, Place(s, w, Requeueing))
  {
    OneStep(s, Go(w, true));
  }

  lemma PutsBack(s: State, w: nat)
    requires w in s.workers && w < s.next && s.workers[w].at.Requeueing? && s.workers[w].trans
    ensures var g := s.workers[w];
      Reaches(s, State(s.sh.(table := RequeueFront(s.sh.table, g.item), flight := s.sh.flight - {g.chat}),
                       s.workers[w := g.(at := Releasing)], s.next))
  {
    OneStep(s, Go(w, true));
  }

  // ---------------------------------------------------------------- a prompt is queued

  /** Goroutines are numbered below the next number. */
  predicate Numbered(s: State) { forall w | w in s.workers :: w < s.next }

  /** A message for a busy session is queued, or refused. */
  lemma QueuesMessage(s: State, w: nat)
    requires w in s.workers && w < s.next && s.workers[w].at.Arrived? && s.workers[w].sid in s.sh.busy
    ensures Reaches(s, State(s.sh.(table := EnqueuePrompt(s.sh.table, s.workers[w].chat, s.workers[w].req).0),
                             s.workers - {w}, s.next))
  {
    FindsBusy(s, w);
    Enqueues(Place(s, w, Enqueueing), w);
    assert Place(s, w, Enqueueing).workers - {w} == s.workers - {w};
    Then(s, Place(s, w, Enqueueing),
         State(s.sh.(table := EnqueuePrompt(s.sh.table, s.workers[w].chat, s.workers[w].req).0), s.workers - {w}, s.next));
  }

  function Asked(s: State, c: Chat, bytes: nat): Request
    requires c in s.sh.active
  {
    Request(Some(s.sh.active[c]), AgentOf(s.sh, s.sh.active[c]), false, bytes)
  }

  lemma QueuesOne(s: State, c: Chat, bytes: nat)
    requires Numbered(s) && c in s.sh.active && s.sh.active[c] in s.sh.busy
    ensures Reaches(s, State(s.sh.(table := EnqueuePrompt(s.sh.table, c, Asked(s, c, bytes)).0), s.workers, s.next + 1))
  {
    var s1 := Spawn(s, WithActive(s.sh, c), Sender(s, c, bytes));
    Sends(s, c, bytes);
    QueuesMessage(s1, s.next);
    assert s1.workers - {s.next} == s.workers;
    Then(s, s1, State(s.sh.(table := EnqueuePrompt(s.sh.table, c, Asked(s, c, bytes)).0), s.workers, s.next + 1));
  }

  // ---------------------------------------------------------------- a prompt is taken and cannot start

  /** A chat that was never used, while nothing is queued anywhere. */
  ghost predicate Unused(s: State, c: Chat) {
    && Numbered(s) && Total(s) == 0
    && c !in s.sh.active && c !in s.sh.table.queues && c !in s.sh.trans
    && s.sh.sids + 1 !in s.sh.busy && s.sh.sids + 1 !in s.sh.agents
  }

  function BigItem(s: State, c: Chat): Item {
    Item(s.sh.table.seqNo + 1, c, Some(s.sh.sids + 1), "", false, MAX_BYTES)
  }

  function NewShared(s: State, c: Chat, queue: QState): Shared {
    var sid := s.sh.sids + 1;
    s.sh.(table := Table(s.sh.table.queues[c := queue], s.sh.table.seqNo + 1),
          active := s.sh.active[c := sid], agents := s.sh.agents[sid := ""], sids := sid, busy := s.sh.busy + {sid})
  }

  /** A message of 50 MiB is queued because another command just took its session. */
  function BigQueued(s: State, c: Chat): State {
    State(NewShared(s, c, QState(false, [BigItem(s, c)])), s.workers[s.next + 1 := Occupier(s.sh.sids + 1)], s.next + 2)
  }

  /** Before it is queued. */
  function BigArrived(s: State, c: Chat): State {
    var sid := s.sh.sids + 1;
    var s1 := Spawn(s, WithActive(s.sh, c), Sender(s, c, MAX_BYTES));
    Spawn(s1, s1.sh.(busy := s1.sh.busy + {sid}), Occupier(sid))
  }

  lemma BigArrives(s: State, c: Chat)
    requires Unused(s, c)
    ensures Reaches(s, BigArrived(s, c))
  {
    var s1 := Spawn(s, WithActive(s.sh, c), Sender(s, c, MAX_BYTES));
    Sends(s, c, MAX_BYTES);
    Occupies(s1, s.sh.sids + 1);
    Then(s, s1, BigArrived(s, c));
  }

  lemma BigFits(s: State, c: Chat)
    requires Unused(s, c)
    ensures EnqueuePrompt(s.sh.table, c, Request(Some(s.sh.sids + 1), "", false, MAX_BYTES)).0
      == NewShared(s, c, QState(false, [BigItem(s, c)])).table
  {
    assert Fits([], MAX_BYTES, Total(s));
    assert [] + [BigItem(s, c)] == [BigItem(s, c)];
  }

  lemma BigLeavesItem(s: State, c: Chat)
    requires Unused(s, c)
    ensures var s2 := BigArrived(s, c);
      State(s2.sh.(table := EnqueuePrompt(s2.sh.table, c, s2.workers[s.next].req).0), s2.workers - {s.next}, s2.next)
      == BigQueued(s, c)
  {
    BigFits(s, c);
    assert BigArrived(s, c).workers - {s.next} == BigQueued(s, c).workers;
  }

  lemma QueuesBig(s: State, c: Chat)
    requires Unused(s, c)
    ensures Reaches(s, BigQueued(s, c))
  {
    BigArrives(s, c);
    BigLeavesItem(s, c);
    QueuesMessage(BigArrived(s, c), s.next);
    Then(s, BigArrived(s, c), BigQueued(s, c));
  }

  /** The prompt was taken from the queue, passed its checks and found the session busy. */
  function Parked(s: State, c: Chat): State {
    var sid, item := s.sh.sids + 1, BigItem(s, c);
    State(NewShared(s, c, QState(true, [])).(trans := s.sh.trans + {c}, flight := s.sh.flight[c := item]),
          s.workers[s.next + 1 := Occupier(sid)][s.next + 2 := Goroutine(Requeueing, c, sid, true, item, CRON_REQUEST)],
          s.next + 3)
  }

  function ParkedAt(s: State, c: Chat, sid: Sid, at: At): State {
    Parked(s, c).(workers := BigQueued(s, c).workers[s.next + 2 := Goroutine(at, c, sid, true, BigItem(s, c), CRON_REQUEST)])
  }

  lemma TakesBig(s: State, c: Chat)
    requires Unused(s, c)
    ensures Reaches(BigQueued(s, c), ParkedAt(s, c, 0, Checking))
  {
    var s0, w, item := BigQueued(s, c), s.next + 2, BigItem(s, c);
    Pops(s0, c);
    var s1 := Spawn(s0, s0.sh.(table := SetQueue(s0.sh.table, c, QState(true, [])), flight := s0.sh.flight[c := item]),
                    Goroutine(Popped, c, 0, false, item, CRON_REQUEST));
    assert [item][1..] == [];
    TakesTransition(s1, w);
    assert s0.sh.table.queues[c := QState(true, [])] == s.sh.table.queues[c := QState(true, [])];
    assert s1.workers[w := s1.workers[w].(at := Checking, trans := true)] == ParkedAt(s, c, 0, Checking).workers;
    Then(s0, s1, ParkedAt(s, c, 0, Checking));
  }

  lemma LeavesBig(s: State, c: Chat)
    requires Unused(s, c)
    ensures Reaches(ParkedAt(s, c, 0, Checking), Parked(s, c))
  {
    var w, sid := s.next + 2, s.sh.sids + 1;
    var s1, s2 := ParkedAt(s, c, 0, Checking), ParkedAt(s, c, sid, Ready);
    PassesChecks(s1, w);
    assert s1.workers[w := s1.workers[w].(at := Ready, sid := sid)] == s2.workers;
    CannotLock(s2, w);
    assert Place(s2, w, Requeueing).workers == Parked(s, c).workers;
    Then(s1, s2, Parked(s, c));
  }

  lemma Parks(s: State, c: Chat)
    requires Unused(s, c)
    ensures Reaches(s, Parked(s, c))
  {
    QueuesBig(s, c);
    TakesBig(s, c);
    Then(s, BigQueued(s, c), ParkedAt(s, c, 0, Checking));
    LeavesBig(s, c);
    Then(s, ParkedAt(s, c, 0, Checking), Parked(s, c));
  }

  /** The goroutine w is about to put back an item of 50 MiB into the queue of chat c. */
  predicate Holder(s: State, w: nat, c: Chat) {
    w in s.workers && var g := s.workers[w];
      w < s.next && g.at.Requeueing? && g.trans && g.chat == c && g.item.chat == c && g.item.bytes == MAX_BYTES
  }

  function PutBack(s: State, w: nat): State
    requires w in s.workers
  {
    var g := s.workers[w];
    State(s.sh.(table := RequeueFront(s.sh.table, g.item), flight := s.sh.flight - {g.chat}),
          s.workers[w := g.(at := Releasing)], s.next)
  }

  /** What putting the item back does to the queues. */
  lemma PutBackItems(s: State, w: nat, c: Chat)
    requires Holder(s, w, c)
    ensures var s' := PutBack(s, w);
      && Reaches(s, s')
      && Items(s', c) == [s.workers[w].item] + Items(s, c)
      && (forall k :: k != c ==> Items(s', k) == Items(s, k))
      && Total(s') == Total(s) + MAX_BYTES
  {
    PutsBack(s, w);
    EngineBytesMove(s.sh.table, PutBack(s, w).sh.table, c);
  }

  // ---------------------------------------------------------------- one chat

  /** While w holds an item of chat c, n prompts with 50 MiB in all were queued behind it. */
  ghost predicate Refilled(s: State, c: Chat, n: nat, w: nat) {
    && Numbered(s) && Holder(s, w, c)
    && c in s.sh.active && s.sh.active[c] in s.sh.busy
    && |Items(s, c)| == n && Bytes(Items(s, c)) == (if n == 0 then 0 else MAX_BYTES) && Total(s) == Bytes(Items(s, c))
  }

  lemma Refills(s: State, c: Chat, n: nat, w: nat) returns (s': State)
    requires Refilled(s, c, n, w) && n < MAX_ITEMS
    ensures Reaches(s, s') && Refilled(s', c, n + 1, w)
  {
    var bytes := if n == 0 then MAX_BYTES else 0;
    var r := Asked(s, c, bytes);
    s' := State(s.sh.(table := EnqueuePrompt(s.sh.table, c, r).0), s.workers, s.next + 1);
    QueuesOne(s, c, bytes);
    assert Fits(Items(s, c), bytes, Total(s));
    BytesConcat(Items(s, c), [NewItem(s.sh.table, c, r)]);
    EngineBytesMove(s.sh.table, s'.sh.table, c);
  }

  lemma {:induction false} RefillsAll(s: State, c: Chat, n: nat, w: nat) returns (s': State)
    requires Refilled(s, c, n, w) && n <= MAX_ITEMS
    ensures Reaches(s, s') && Refilled(s', c, MAX_ITEMS, w)
    decreases MAX_ITEMS - n
  {
    if n == MAX_ITEMS {
      Stay(s);
      s' := s;
    } else {
      var next := Refills(s, c, n, w);
      s' := RefillsAll(next, c, n + 1, w);
      Then(s, next, s');
    }
  }

  ghost predicate ReachesBoth(steps: seq<Step>, c: Chat) {
    |Items(Run(INIT, steps), c)| == 21 && Bytes(Items(Run(INIT, steps), c)) == 100 * 1024 * 1024
  }

  lemma ParkedCanRefill(c: Chat)
    ensures Unused(INIT, c) && Refilled(Parked(INIT, c), c, 0, 2)
  {
    EngineBytesMove(INIT.sh.table, Parked(INIT, c).sh.table, c);
  }

  /** 21 queued prompts with 100 MiB do occur, in any chat: a prompt of 50 MiB is taken and
      finds its session busy, the queue fills up behind it, and the prompt comes back. */
  lemma BoundsAreReached(c: Chat)
    ensures exists steps :: ReachesBoth(steps, c)
  {
    ParkedCanRefill(c);
    Parks(INIT, c);
    var full := RefillsAll(Parked(INIT, c), c, 0, 2);
    Then(INIT, Parked(INIT, c), full);
    PutBackItems(full, 2, c);
    Then(INIT, full, PutBack(full, 2));
    var steps :| Run(INIT, steps) == PutBack(full, 2);
    assert ReachesBoth(steps, c);
  }

  // ---------------------------------------------------------------- many chats

  function Name(k: nat): (c: Chat)
    ensures |c| == k
  {
    if k == 0 then "" else "c" + Name(k - 1)
  }

  /** One goroutine after the other holds an item of its own chat; nothing is queued. */
  ghost predicate AllParked(s: State, ws: seq<nat>) {
    Numbered(s) && Total(s) == 0 && UsedUpTo(s.sh, |ws|) && StillParked(s, ws, 0)
  }

  /** Only the first n chats and sessions were used. */
  predicate UsedUpTo(sh: Shared, n: nat) {
    && sh.sids == n
    && (forall c | c in sh.active :: |c| < n) && (forall c | c in sh.table.queues :: |c| < n)
    && (forall c | c in sh.trans :: |c| < n)
    && (forall x | x in sh.busy :: x <= n) && (forall x | x in sh.agents :: x <= n)
  }

  /** The goroutines from the j-th on still hold their items. */
  predicate StillParked(s: State, ws: seq<nat>, j: nat) {
    forall k | j <= k < |ws| :: Holder(s, ws[k], Name(k)) && Items(s, Name(k)) == []
  }

  lemma ParkedItems(s: State, c: Chat)
    requires Unused(s, c)
    ensures var s' := Parked(s, c);
      && Numbered(s') && Total(s') == 0 && Holder(s', s.next + 2, c)
      && (forall k :: Items(s', k) == Items(s, k)) && Items(s', c) == []
      && (forall w, k | Holder(s, w, k) :: Holder(s', w, k))
  {
    EngineBytesMove(s.sh.table, Parked(s, c).sh.table, c);
  }

  lemma ParksAnother(s: State, ws: seq<nat>)
    requires AllParked(s, ws)
    ensures Reaches(s, Parked(s, Name(|ws|))) && AllParked(Parked(s, Name(|ws|)), ws + [s.next + 2])
  {
    var s' := Parked(s, Name(|ws|));
    Parks(s, Name(|ws|));
    ParkedItems(s, Name(|ws|));
    assert UsedUpTo(s'.sh, |ws| + 1);
    forall k | 0 <= k < |ws| + 1
      ensures Holder(s', (ws + [s.next + 2])[k], Name(k)) && Items(s', Name(k)) == []
    {
      if k < |ws| { assert Holder(s, ws[k], Name(k)) && Items(s, Name(k)) == []; }
    }
  }

  lemma {:induction false} ParksMany(n: nat) returns (s: State, ws: seq<nat>)
    ensures Reaches(INIT, s) && AllParked(s, ws) && |ws| == n
  {
    if n == 0 {
      Stay(INIT);
      s, ws := INIT, [];
    } else {
      var s0, ws0 := ParksMany(n - 1);
      ParksAnother(s0, ws0);
      s, ws := Parked(s0, Name(n - 1)), ws0 + [s0.next + 2];
      Then(INIT, s0, s);
    }
  }

  lemma {:induction false} PutsAllBack(s: State, ws: seq<nat>, j: nat) returns (s': State)
    requires j <= |ws| && StillParked(s, ws, j) && Total(s) == j * MAX_BYTES
    ensures Reaches(s, s') && Total(s') == |ws| * MAX_BYTES
    decreases |ws| - j
  {
    if j == |ws| {
      Stay(s);
      s' := s;
    } else {
      var next := PutBack(s, ws[j]);
      assert Holder(s, ws[j], Name(j));
      PutBackItems(s, ws[j], Name(j));
      forall k | j + 1 <= k < |ws| ensures Holder(next, ws[k], Name(k)) && Items(next, Name(k)) == [] {
        assert Holder(s, ws[k], Name(k)) && Items(s, Name(k)) == [] && |Name(k)| != |Name(j)|;
      }
      s' := PutsAllBack(next, ws, j + 1);
      Then(s, next, s');
    }
  }

  ghost predicate ReachesTotal(steps: seq<Step>, bytes: nat) { Total(Run(INIT, steps)) == bytes }

  /** No limit holds for all queues together: with n chats, n prompts of 50 MiB can be taken
      one after the other, and all be put back. */
  lemma TotalIsUnbounded(n: nat)
    ensures exists steps :: ReachesTotal(steps, n * (50 * 1024 * 1024))
  {
    var s, ws := ParksMany(n);
    var s' := PutsAllBack(s, ws, 0);
    Then(INIT, s, s');
    var steps :| Run(INIT, steps) == s';
    assert ReachesTotal(steps, n * (50 * 1024 * 1024));
  }
}
