/** The gated prompt queue of a chat (core/prompt_queue.go): its states, what each critical
    section of promptQueueMu does to them, and the engine's queue table as a class.

    First comes the queue of one chat, seen with the item in flight and those that started:
    every operation but move refines an abstract FIFO, keeps the bounds and keeps the order.
    Then come the table of all queues and what each operation is to each chat. The goroutines
    that call these operations are in QueueRuns. */
module PromptQueue {
  import opened Text

  const MAX_ITEMS := 20                        // maxPromptQueueItems
  const MAX_BYTES := 50 * 1024 * 1024          // maxPromptQueueAttachmentBytes
  const MAX_ENGINE_BYTES := 200 * 1024 * 1024   // maxPromptQueueEngineBytes

  type Chat = string      // the session key; the queue key is "grp:" followed by it
  type Sid = nat          // a local session, s1, s2, ...
  type Agent = string     // an agent session ID, "" when unknown

  /** queuedPrompt: `id` is the number in its ID, `bytes` its attachment bytes. Cron items
      carry no local session. */
  datatype Item = Item(id: nat, chat: Chat, local: Option<Sid>, agent: Agent, cron: bool, bytes: nat)

  /** promptQueueState. */
  datatype QState = QState(running: bool, items: seq<Item>)

  function Bytes(items: seq<Item>): nat {
    if items == [] then 0 else items[0].bytes + Bytes(items[1..])
  }

  // ---------------------------------------------------------------- one queue

  /** The checks of enqueuePromptLocked; `engine` is what all queues hold together. */
  predicate Fits(items: seq<Item>, bytes: nat, engine: nat) {
    |items| < MAX_ITEMS && bytes + Bytes(items) <= MAX_BYTES && engine + bytes <= MAX_ENGINE_BYTES
  }

  /** A queue of one chat, with its history: the item taken from it that neither started nor
      came back yet, and the items whose turn started. */
  datatype View = View(items: seq<Item>, flight: Option<Item>, started: seq<Item>)

  /** What a step does to the queue of one chat. */
  datatype Op =
    | Same                      // nothing, or only the gate changes
    | Enqueue(item: Item)
    | Pop
    | Requeue
    | StartFlight               // the turn of the popped item starts
    | Drop                      // the popped item is skipped
    | Keep(which: seq<bool>)    // delete, clear, cancel: keep these queued items
    | Swap(i: nat)              // move: exchange items i and i + 1

  function Select(items: seq<Item>, which: seq<bool>): seq<Item>
    requires |which| == |items|
  {
    if items == [] then [] else (if which[0] then [items[0]] else []) + Select(items[1..], which[1..])
  }

  predicate CanDo(v: View, op: Op) {
    match op
    case Enqueue(_) => true
    case Pop => v.items != [] && v.flight.None?
    case Requeue => v.flight.Some?
    case StartFlight => v.flight.Some?
    case Drop => v.flight.Some?
    case Keep(which) => |which| == |v.items|
    case Swap(i) => i + 1 < |v.items|
    case Same => true
  }

  function Do(v: View, op: Op): View
    requires CanDo(v, op)
  {
    match op
    case Same => v
    case Enqueue(item) => v.(items := v.items + [item])
    case Pop => v.(items := v.items[1..], flight := Some(v.items[0]))
    case Requeue => v.(items := [v.flight.value] + v.items, flight := None)
    case StartFlight => v.(flight := None, started := v.started + [v.flight.value])
    case Drop => v.(flight := None)
    case Keep(which) => v.(items := Select(v.items, which))
    case Swap(i) => v.(items := v.items[i := v.items[i + 1]][i + 1 := v.items[i]])
  }

  /** The items that wait for their turn: the one taken from the queue, then the queue. */
  function Waiting(v: View): seq<Item> {
    (if v.flight.Some? then [v.flight.value] else []) + v.items
  }

  // ---------------------------------------------------------------- the abstract queue

  /** A first-in-first-out queue and the log of what left it by starting. */
  datatype Fifo = Fifo(started: seq<Item>, waiting: seq<Item>)

  function Abstract(v: View): Fifo { Fifo(v.started, Waiting(v)) }

  predicate Subsequence(a: seq<Item>, b: seq<Item>) {
    a == [] || (b != [] && if a[0] == b[0] then Subsequence(a[1..], b[1..]) else Subsequence(a, b[1..]))
  }

  /** What an abstract FIFO can do: nothing, take an item in at the end, start its head,
      or lose items without reordering the rest. */
  ghost predicate FifoStep(a: Fifo, b: Fifo) {
    || b == a
    || (b.started == a.started && |b.waiting| > 0 && b.waiting[..|b.waiting| - 1] == a.waiting)
    || (a.waiting != [] && b == Fifo(a.started + [a.waiting[0]], a.waiting[1..]))
    || (b.started == a.started && Subsequence(b.waiting, a.waiting))
  }

  lemma {:induction false} SelectSubsequence(items: seq<Item>, which: seq<bool>)
    requires |which| == |items|
    ensures Subsequence(Select(items, which), items)
  {
    if items != [] {
      SelectSubsequence(items[1..], which[1..]);
      if which[0] {
        assert Select(items, which)[1..] == Select(items[1..], which[1..]);
      } else {
        assert Select(items, which) == Select(items[1..], which[1..]);
        SubsequenceSkip(Select(items[1..], which[1..]), items);
      }
    }
  }

  lemma {:induction false} SubsequenceSkip(a: seq<Item>, b: seq<Item>)
    requires b != [] && Subsequence(a, b[1..])
    ensures Subsequence(a, b)
    decreases |b|, 0
  {
    if a != [] && a[0] == b[0] {
      SubsequenceTail(a, b[1..]);
    }
  }

  lemma {:induction false} SubsequenceTail(a: seq<Item>, b: seq<Item>)
    requires a != [] && Subsequence(a, b)
    ensures Subsequence(a[1..], b)
    decreases |b|, 1
  {
    if a[0] == b[0] {
      if |a| > 1 { SubsequenceSkip(a[1..], b); }
    } else {
      SubsequenceTail(a, b[1..]);
      SubsequenceSkip(a[1..], b);
    }
  }

  lemma {:induction false} SubsequenceRefl(a: seq<Item>)
    ensures Subsequence(a, a)
  {
    if a != [] { SubsequenceRefl(a[1..]); }
  }

  /** Every queue operation but the user's move refines the abstract FIFO: pop and requeue
      are invisible, starting takes the head, and dropping keeps the order. */
  lemma OpRefinesFifo(v: View, op: Op)
    requires CanDo(v, op) && !op.Swap?
    ensures FifoStep(Abstract(v), Abstract(Do(v, op)))
  {
    var v' := Do(v, op);
    match op
    case Enqueue(item) => assert Waiting(v')[..|Waiting(v')| - 1] == Waiting(v);
    case Pop => assert Waiting(v') == Waiting(v);
    case Requeue => assert Waiting(v') == Waiting(v);
    case StartFlight => assert Waiting(v') == Waiting(v)[1..];
    case Drop =>
      assert Waiting(v') == Waiting(v)[1..];
      SubsequenceRefl(v.items);
      SubsequenceSkip(v.items, Waiting(v));
    case Keep(which) =>
      SelectSubsequence(v.items, which);
      if v.flight.Some? {
        assert Waiting(v)[1..] == v.items && Waiting(v')[1..] == v'.items;
      } else {
        assert Waiting(v) == v.items && Waiting(v') == v'.items;
      }
    case _ =>
  }

  // ---------------------------------------------------------------- bounds of one queue

  lemma {:induction false} BytesConcat(a: seq<Item>, b: seq<Item>)
    ensures Bytes(a + b) == Bytes(a) + Bytes(b)
  {
    if a == [] {
      assert a + b == b;
    } else {
      BytesConcat(a[1..], b);
      assert (a + b)[1..] == a[1..] + b;
    }
  }

  lemma {:induction false} SelectShrinks(items: seq<Item>, which: seq<bool>)
    requires |which| == |items|
    ensures |Select(items, which)| <= |items| && Bytes(Select(items, which)) <= Bytes(items)
    ensures forall it | it in Select(items, which) :: it in items
  {
    if items != [] {
      SelectShrinks(items[1..], which[1..]);
      var rest := Select(items[1..], which[1..]);
      assert Select(items, which) == if which[0] then [items[0]] + rest else rest;
      if which[0] { assert ([items[0]] + rest)[1..] == rest; }
    }
  }

  lemma {:induction false} SwapBytes(items: seq<Item>, i: nat)
    requires i + 1 < |items|
    ensures Bytes(items[i := items[i + 1]][i + 1 := items[i]]) == Bytes(items)
  {
    var swapped := items[i := items[i + 1]][i + 1 := items[i]];
    if i == 0 {
      assert swapped[1..][1..] == items[1..][1..];
    } else {
      SwapBytes(items[1..], i - 1);
      assert swapped[1..] == items[1..][i - 1 := items[1..][i]][i := items[1..][i - 1]];
    }
  }

  /** An item of this chat, numbered so far, that passed the byte check by itself. */
  predicate ItemOk(it: Item, c: Chat, seqNo: nat) {
    it.chat == c && 0 < it.id <= seqNo && it.bytes <= MAX_BYTES && (!it.cron ==> it.local.Some?)
  }

  /** The queued and in-flight items of a chat are its own, at most 21, of at most 100 MiB. */
  predicate ViewOk(v: View, c: Chat, seqNo: nat) {
    && (forall it | it in Waiting(v) :: ItemOk(it, c, seqNo))
    && |Waiting(v)| <= MAX_ITEMS + 1
    && Bytes(Waiting(v)) <= 2 * MAX_BYTES
  }

  /** The numbers of the items strictly increase along the started, the in-flight and the queued. */
  predicate InOrder(v: View, seqNo: nat) {
    var all := v.started + Waiting(v);
    && (forall i | 0 <= i < |all| :: all[i].id <= seqNo)
    && (forall i, j | 0 <= i < j < |all| :: all[i].id < all[j].id)
  }

  /** An enqueue gives the next number to an item that passed the checks. */
  predicate EnqueueOk(items: seq<Item>, op: Op, c: Chat, seqNo: nat, engine: nat) {
    op.Enqueue? ==> op.item.id == seqNo + 1 && ItemOk(op.item, c, seqNo + 1) && Fits(items, op.item.bytes, engine)
  }

  function SeqAfter(op: Op, seqNo: nat): nat { if op.Enqueue? then seqNo + 1 else seqNo }

  /** The item in flight, as a list. */
  function InFlight(v: View): seq<Item> { if v.flight.Some? then [v.flight.value] else [] }

  lemma DoKeepsViewOk(v: View, op: Op, c: Chat, seqNo: nat, engine: nat)
    requires ViewOk(v, c, seqNo) && CanDo(v, op) && EnqueueOk(v.items, op, c, seqNo, engine)
    ensures ViewOk(Do(v, op), c, SeqAfter(op, seqNo))
  {
    var v' := Do(v, op);
    match op
    case Enqueue(item) => EnqueueKeepsViewOk(v, item, c, seqNo, engine);
    case Pop => assert Waiting(v') == Waiting(v);
    case Requeue => assert Waiting(v') == Waiting(v);
    case StartFlight => assert Waiting(v') == Waiting(v)[1..];
    case Drop => assert Waiting(v') == Waiting(v)[1..];
    case Keep(which) =>
      SelectShrinks(v.items, which);
      FewerKeepViewOk(v, v', c, seqNo);
    case Swap(i) =>
      SwapBytes(v.items, i);
      FewerKeepViewOk(v, v', c, seqNo);
    case Same =>
  }

  lemma EnqueueKeepsViewOk(v: View, item: Item, c: Chat, seqNo: nat, engine: nat)
    requires ViewOk(v, c, seqNo) && EnqueueOk(v.items, Enqueue(item), c, seqNo, engine)
    ensures ViewOk(Do(v, Enqueue(item)), c, seqNo + 1)
  {
    BytesConcat(v.items, [item]);
    BytesConcat(InFlight(v), v.items + [item]);
    assert v.flight.Some? ==> v.flight.value in Waiting(v);
    assert Waiting(Do(v, Enqueue(item))) == Waiting(v) + [item];
  }

  lemma FewerKeepViewOk(v: View, v': View, c: Chat, seqNo: nat)
    requires ViewOk(v, c, seqNo) && v'.flight == v.flight
    requires |v'.items| <= |v.items| && Bytes(v'.items) <= Bytes(v.items) && forall it | it in v'.items :: it in v.items
    ensures ViewOk(v', c, seqNo)
  {
    BytesConcat(InFlight(v), v.items);
    BytesConcat(InFlight(v), v'.items);
  }

  predicate NumbersIncrease(all: seq<Item>) {
    forall i, j | 0 <= i < j < |all| :: all[i].id < all[j].id
  }

  lemma {:induction false} IncreaseSelect(a: seq<Item>, items: seq<Item>, which: seq<bool>)
    requires |which| == |items| && NumbersIncrease(a + items)
    ensures NumbersIncrease(a + Select(items, which))
    decreases |items|
  {
    if items != [] {
      if which[0] {
        assert a + items == (a + [items[0]]) + items[1..];
        IncreaseSelect(a + [items[0]], items[1..], which[1..]);
        assert a + Select(items, which) == (a + [items[0]]) + Select(items[1..], which[1..]);
      } else {
        IncreaseDrop(a, items);
        IncreaseSelect(a, items[1..], which[1..]);
        assert Select(items, which) == Select(items[1..], which[1..]);
      }
    }
  }

  lemma IncreaseDrop(a: seq<Item>, items: seq<Item>)
    requires items != [] && NumbersIncrease(a + items)
    ensures NumbersIncrease(a + items[1..])
  {
    var s, t := a + items, a + items[1..];
    forall i, j | 0 <= i < j < |t|
      ensures t[i].id < t[j].id
    {
      assert t[i] == s[if i < |a| then i else i + 1] && t[j] == s[if j < |a| then j else j + 1];
    }
  }

  /** Without move, the order is kept. */
  lemma DoKeepsOrder(v: View, op: Op, seqNo: nat)
    requires InOrder(v, seqNo) && CanDo(v, op) && !op.Swap? && (op.Enqueue? ==> op.item.id == seqNo + 1)
    ensures InOrder(Do(v, op), SeqAfter(op, seqNo))
  {
    var v' := Do(v, op);
    var all, all' := v.started + Waiting(v), v'.started + Waiting(v');
    match op
    case Enqueue(item) => assert all' == all + [item];
    case Pop => assert all' == all;
    case Requeue => assert all' == all;
    case StartFlight => assert all' == all;
    case Drop => DropKeepsOrder(v, seqNo);
    case Keep(which) => KeepKeepsOrder(v, which, seqNo);
    case Same =>
  }

  lemma DropKeepsOrder(v: View, seqNo: nat)
    requires InOrder(v, seqNo) && v.flight.Some?
    ensures InOrder(v.(flight := None), seqNo)
  {
    assert Waiting(v.(flight := None)) == Waiting(v)[1..];
    IncreaseDrop(v.started, Waiting(v));
    Among(v.started + Waiting(v)[1..], v.started + Waiting(v), seqNo);
  }

  lemma KeepKeepsOrder(v: View, which: seq<bool>, seqNo: nat)
    requires InOrder(v, seqNo) && |which| == |v.items|
    ensures InOrder(v.(items := Select(v.items, which)), seqNo)
  {
    var front, kept := v.started + InFlight(v), Select(v.items, which);
    assert v.started + Waiting(v) == front + v.items;
    assert v.started + Waiting(v.(items := kept)) == front + kept;
    IncreaseSelect(front, v.items, which);
    SelectShrinks(v.items, which);
    Among(front + kept, front + v.items, seqNo);
  }

  lemma Among(a: seq<Item>, b: seq<Item>, seqNo: nat)
    requires (forall it | it in a :: it in b) && forall i | 0 <= i < |b| :: b[i].id <= seqNo
    ensures forall i | 0 <= i < |a| :: a[i].id <= seqNo
  {
    forall i | 0 <= i < |a|
      ensures a[i].id <= seqNo
    {
      assert a[i] in b;
    }
  }

  // ---------------------------------------------------------------- the queue table

  /** The engine's promptQueues and promptQueueSeq. */
  datatype Table = Table(queues: map<Chat, QState>, seqNo: nat)

  /** What a caller wants queued. */
  datatype Request = Request(local: Option<Sid>, agent: Agent, cron: bool, bytes: nat)

  /** A cron run enters with no attachments; also a placeholder where nothing is wanted. */
  const CRON_REQUEST := Request(None, "", true, 0)

  function QueueOf(t: Table, c: Chat): QState {
    if c in t.queues then t.queues[c] else QState(false, [])
  }

  /** promptQueuesAttachmentBytesLocked. */
  ghost function EngineBytes(queues: map<Chat, QState>): nat
    decreases |queues|
  {
    if queues == map[] then 0 else
      var c :| c in queues;
      Bytes(queues[c].items) + EngineBytes(queues - {c})
  }

  function SetQueue(t: Table, c: Chat, st: QState): Table {
    t.(queues := t.queues[c := st])
  }

  /** An entry that is neither running nor holds items leaves the table. */
  function Tidy(t: Table, c: Chat): Table {
    if c in t.queues && !t.queues[c].running && t.queues[c].items == [] then t.(queues := t.queues - {c}) else t
  }

  function NewItem(t: Table, c: Chat, r: Request): Item {
    Item(t.seqNo + 1, c, r.local, r.agent, r.cron, r.bytes)
  }

  /** enqueuePrompt: the position in the queue, or None when it is full. */
  ghost function EnqueuePrompt(t: Table, c: Chat, r: Request): (Table, Option<nat>) {
    var st := QueueOf(t, c);
    if Fits(st.items, r.bytes, EngineBytes(t.queues)) then
      (SetQueue(t, c, st.(items := st.items + [NewItem(t, c, r)])).(seqNo := t.seqNo + 1), Some(|st.items| + 1))
    else (SetQueue(t, c, st), None)
  }

  datatype Begun = Started | Queued(pos: nat) | Refused

  /** beginPromptTurnOrEnqueue and beginCronTurnOrEnqueue: an idle chat with an empty queue
      starts at once, else the request is queued. */
  ghost function BeginOrEnqueue(t: Table, c: Chat, r: Request): (Table, Begun) {
    var st := QueueOf(t, c);
    if st.running || st.items != [] then
      var (t', pos) := EnqueuePrompt(t, c, r);
      (t', if pos.Some? then Queued(pos.value) else Refused)
    else (SetQueue(t, c, st.(running := true)), Started)
  }

  /** popNextQueuedPrompt. */
  function PopNext(t: Table, c: Chat): (Table, Option<Item>) {
    var st := QueueOf(t, c);
    if st.running || st.items == [] then (t, None)
    else (SetQueue(t, c, QState(true, st.items[1..])), Some(st.items[0]))
  }

  /** requeuePromptFront. */
  function RequeueFront(t: Table, item: Item): Table {
    SetQueue(t, item.chat, QState(false, [item] + QueueOf(t, item.chat).items))
  }

  /** completePromptTurn, whose start and final keys are the same for every gated caller,
      and the locked part of failQueuedPrompt. */
  function OpenGate(t: Table, c: Chat): Table {
    if c in t.queues then Tidy(SetQueue(t, c, t.queues[c].(running := false)), c) else t
  }

  function Reopened(t: Table, c: Chat): Table
    requires c in t.queues
  {
    SetQueue(t, c, t.queues[c].(running := false))
  }

  /** What ExecuteCronJob does when the session is busy after all. */
  ghost function CronFallback(t: Table, c: Chat): Table {
    if c in t.queues then EnqueuePrompt(Reopened(t, c), c, CRON_REQUEST).0 else t
  }

  function ClearQueue(t: Table, c: Chat): Table {
    if c in t.queues then Tidy(SetQueue(t, c, t.queues[c].(items := [])), c) else t
  }

  function DeleteAt(t: Table, c: Chat, i: nat): Table {
    if c in t.queues && i < |t.queues[c].items| then
      var items := t.queues[c].items;
      Tidy(SetQueue(t, c, t.queues[c].(items := items[..i] + items[i + 1..])), c)
    else t
  }

  /** movePromptQueueItem by one place, up or down. */
  function MoveAt(t: Table, c: Chat, i: nat, up: bool): Table {
    if c in t.queues && i < |t.queues[c].items| && (if up then i > 0 else i + 1 < |t.queues[c].items|) then
      var items, j := t.queues[c].items, if up then i - 1 else i + 1;
      SetQueue(t, c, t.queues[c].(items := items[i := items[j]][j := items[i]]))
    else t
  }

  /** The items cancelQueuedPromptsForSessionSwitch keeps: those of other chats, and those
      queued under the new local session (cron items are exempt) and the new agent session. */
  predicate Survives(it: Item, c: Chat, sid: Sid, agent: Agent) {
    it.chat != c || ((it.cron || it.local == Some(sid)) && it.agent != "" && it.agent == agent)
  }

  function Surviving(items: seq<Item>, c: Chat, sid: Sid, agent: Agent): seq<Item> {
    if items == [] then [] else
      (if Survives(items[0], c, sid, agent) then [items[0]] else []) + Surviving(items[1..], c, sid, agent)
  }

  function Survivor(st: QState, c: Chat, sid: Sid, agent: Agent): QState {
    st.(items := Surviving(st.items, c, sid, agent))
  }

  /** cancelQueuedPromptsForSessionSwitch goes through the queues of all chats. */
  function CancelOnSwitch(t: Table, c: Chat, sid: Sid, agent: Agent): Table {
    t.(queues := map k | k in t.queues
         && (t.queues[k].items == [] || t.queues[k].running || Surviving(t.queues[k].items, c, sid, agent) != []) ::
         Survivor(t.queues[k], c, sid, agent))
  }

  // ---------------------------------------------------------------- what the table operations do to the gates

  /** The gates of all chats but c are as before. */
  ghost predicate OtherGates(t: Table, t': Table, c: Chat) {
    forall k :: k != c ==> QueueOf(t', k).running == QueueOf(t, k).running
  }

  ghost predicate SameGates(t: Table, t': Table) {
    forall k :: QueueOf(t', k).running == QueueOf(t, k).running
  }

  lemma TableGates(t: Table, c: Chat, r: Request)
    ensures SameGates(t, EnqueuePrompt(t, c, r).0)
    ensures var (t', b) := BeginOrEnqueue(t, c, r);
      if b.Started? then !QueueOf(t, c).running && QueueOf(t', c).running && OtherGates(t, t', c) else SameGates(t, t')
    ensures SameGates(t, ClearQueue(t, c))
  {}

  lemma OpenGateGates(t: Table, c: Chat, item: Item)
    ensures var t' := OpenGate(t, c); !QueueOf(t', c).running && OtherGates(t, t', c)
    ensures var t' := CronFallback(t, c); !QueueOf(t', c).running && OtherGates(t, t', c)
    ensures var t' := RequeueFront(t, item); !QueueOf(t', item.chat).running && OtherGates(t, t', item.chat)
  {}

  lemma PopGates(t: Table, c: Chat)
    ensures var (t', item) := PopNext(t, c);
      item.Some? ==> !QueueOf(t, c).running && QueueOf(t', c).running && OtherGates(t, t', c)
  {}

  lemma EditGates(t: Table, c: Chat, i: nat, up: bool)
    ensures SameGates(t, DeleteAt(t, c, i)) && SameGates(t, MoveAt(t, c, i, up))
  {}

  lemma CancelGates(t: Table, c: Chat, sid: Sid, agent: Agent)
    ensures SameGates(t, CancelOnSwitch(t, c, sid, agent))
  {
    var t' := CancelOnSwitch(t, c, sid, agent);
    forall k
      ensures QueueOf(t', k).running == QueueOf(t, k).running
    {
      if k in t.queues && k !in t'.queues { assert !t.queues[k].running; }
    }
  }

  // ---------------------------------------------------------------- which items an edit keeps

  function KeepNone(items: seq<Item>): (which: seq<bool>)
    ensures |which| == |items|
  {
    seq(|items|, _ => false)
  }

  function KeepBut(items: seq<Item>, i: nat): (which: seq<bool>)
    ensures |which| == |items|
  {
    seq(|items|, j => j != i)
  }

  function KeepSurvivors(items: seq<Item>, c: Chat, sid: Sid, agent: Agent): (which: seq<bool>)
    ensures |which| == |items|
  {
    seq(|items|, j requires 0 <= j < |items| => Survives(items[j], c, sid, agent))
  }

  lemma {:induction false} SelectNone(items: seq<Item>)
    ensures Select(items, KeepNone(items)) == []
  {
    if items != [] {
      SelectNone(items[1..]);
      assert KeepNone(items)[1..] == KeepNone(items[1..]);
    }
  }

  lemma {:induction false} SelectAll(items: seq<Item>, which: seq<bool>)
    requires |which| == |items| && forall j | 0 <= j < |which| :: which[j]
    ensures Select(items, which) == items
  {
    if items != [] { SelectAll(items[1..], which[1..]); }
  }

  lemma {:induction false} SelectBut(items: seq<Item>, i: nat)
    requires i < |items|
    ensures Select(items, KeepBut(items, i)) == items[..i] + items[i + 1..]
  {
    if i == 0 {
      SelectAll(items[1..], KeepBut(items, i)[1..]);
    } else {
      SelectBut(items[1..], i - 1);
      assert KeepBut(items, i)[1..] == KeepBut(items[1..], i - 1);
      assert items[..i] + items[i + 1..] == [items[0]] + (items[1..][..i - 1] + items[1..][i..]);
    }
  }

  lemma {:induction false} SelectSurvivors(items: seq<Item>, c: Chat, sid: Sid, agent: Agent)
    ensures Select(items, KeepSurvivors(items, c, sid, agent)) == Surviving(items, c, sid, agent)
  {
    if items != [] {
      SelectSurvivors(items[1..], c, sid, agent);
      assert KeepSurvivors(items, c, sid, agent)[1..] == KeepSurvivors(items[1..], c, sid, agent);
    }
  }

  /** Every item of another chat survives a switch. */
  lemma {:induction false} OthersSurvive(items: seq<Item>, c: Chat, sid: Sid, agent: Agent)
    requires forall it | it in items :: it.chat != c
    ensures Surviving(items, c, sid, agent) == items
  {
    if items != [] {
      assert items[0] in items;
      OthersSurvive(items[1..], c, sid, agent);
    }
  }

  // ---------------------------------------------------------------- the table operations, queue by queue

  /** Which operation on the items an enqueue amounts to. */
  ghost function EnqueueOp(t: Table, c: Chat, r: Request): Op {
    if Fits(QueueOf(t, c).items, r.bytes, EngineBytes(t.queues)) then Enqueue(NewItem(t, c, r)) else Same
  }

  ghost function BeginOp(t: Table, c: Chat, r: Request): Op {
    var st := QueueOf(t, c);
    if st.running || st.items != [] then EnqueueOp(t, c, r) else Same
  }

  /** The operation does op to the items of chat c and nothing to the other queues. */
  ghost predicate ActsOn(t: Table, t': Table, c: Chat, op: Op) {
    && (forall k :: k != c ==> QueueOf(t', k).items == QueueOf(t, k).items)
    && t'.seqNo == SeqAfter(op, t.seqNo)
    && (op.Same? ==> QueueOf(t', c).items == QueueOf(t, c).items)
    && (op.Enqueue? ==> QueueOf(t', c).items == QueueOf(t, c).items + [op.item])
    && (op.Keep? ==> |op.which| == |QueueOf(t, c).items| && QueueOf(t', c).items == Select(QueueOf(t, c).items, op.which))
  }

  /** An enqueue operation is of the next number and passed the checks. */
  ghost predicate OpOk(t: Table, op: Op, c: Chat) {
    EnqueueOk(QueueOf(t, c).items, op, c, t.seqNo, EngineBytes(t.queues))
  }

  lemma EnqueueActs(t: Table, c: Chat, r: Request)
    requires r.cron || r.local.Some?
    ensures ActsOn(t, EnqueuePrompt(t, c, r).0, c, EnqueueOp(t, c, r)) && OpOk(t, EnqueueOp(t, c, r), c)
    ensures ActsOn(t, BeginOrEnqueue(t, c, r).0, c, BeginOp(t, c, r)) && OpOk(t, BeginOp(t, c, r), c)
    ensures EnqueueOp(t, c, r).Same? || EnqueueOp(t, c, r).Enqueue?
  {}

  lemma FallbackActs(t: Table, c: Chat)
    requires c in t.queues
    ensures var op := EnqueueOp(Reopened(t, c), c, CRON_REQUEST);
      ActsOn(t, CronFallback(t, c), c, op) && (op.Same? || op.Enqueue?)
    ensures OpOk(Reopened(t, c), EnqueueOp(Reopened(t, c), c, CRON_REQUEST), c)
  {
    EnqueueActs(Reopened(t, c), c, CRON_REQUEST);
  }

  lemma OpenGateActs(t: Table, c: Chat)
    ensures ActsOn(t, OpenGate(t, c), c, Same)
  {}

  lemma ClearActs(t: Table, c: Chat)
    ensures ActsOn(t, ClearQueue(t, c), c, Keep(KeepNone(QueueOf(t, c).items)))
  {
    SelectNone(QueueOf(t, c).items);
  }

  lemma DeleteActs(t: Table, c: Chat, i: nat)
    requires i < |QueueOf(t, c).items|
    ensures ActsOn(t, DeleteAt(t, c, i), c, Keep(KeepBut(QueueOf(t, c).items, i)))
  {
    SelectBut(QueueOf(t, c).items, i);
  }

  lemma CancelActs(t: Table, c: Chat, sid: Sid, agent: Agent)
    requires forall k, it | it in QueueOf(t, k).items :: it.chat == k
    ensures ActsOn(t, CancelOnSwitch(t, c, sid, agent), c, Keep(KeepSurvivors(QueueOf(t, c).items, c, sid, agent)))
  {
    var t' := CancelOnSwitch(t, c, sid, agent);
    SelectSurvivors(QueueOf(t, c).items, c, sid, agent);
    forall k | k != c
      ensures QueueOf(t', k).items == QueueOf(t, k).items
    {
      assert forall it | it in QueueOf(t, k).items :: it.chat == k;
      OthersSurvive(QueueOf(t, k).items, c, sid, agent);
    }
  }

  /** Nothing of this chat survives a switch to a session without an agent session. */
  lemma {:induction false} NoneSurvive(items: seq<Item>, c: Chat, sid: Sid)
    requires forall it | it in items :: it.chat == c
    ensures Surviving(items, c, sid, "") == []
  {
    if items != [] {
      assert items[0] in items;
      NoneSurvive(items[1..], c, sid);
    }
  }

  lemma {:induction false} SurvivingExactly(items: seq<Item>, c: Chat, sid: Sid, agent: Agent)
    ensures forall it :: it in Surviving(items, c, sid, agent) <==> it in items && Survives(it, c, sid, agent)
  {
    if items != [] { SurvivingExactly(items[1..], c, sid, agent); }
  }

  // ---------------------------------------------------------------- the engine's queue table

  /** The sum over all queues does not depend on the order they are visited in. */
  lemma {:induction false} EngineBytesPick(queues: map<Chat, QState>, c: Chat)
    requires c in queues
    ensures EngineBytes(queues) == Bytes(queues[c].items) + EngineBytes(queues - {c})
    decreases |queues|
  {
    var first :| first in queues && EngineBytes(queues) == Bytes(queues[first].items) + EngineBytes(queues - {first});
    if first != c {
      EngineBytesPick(queues - {first}, c);
      EngineBytesPick(queues - {c}, first);
      assert queues - {first} - {c} == queues - {c} - {first};
    }
  }

  function Removed(t: Table, c: Chat): Table { t.(queues := t.queues - {c}) }

  lemma EngineBytesWithout(t: Table, c: Chat)
    ensures EngineBytes(t.queues) == Bytes(QueueOf(t, c).items) + EngineBytes(Removed(t, c).queues)
    ensures forall k :: QueueOf(Removed(t, c), k).items == if k == c then [] else QueueOf(t, k).items
  {
    if c in t.queues { EngineBytesPick(t.queues, c); } else { assert t.queues - {c} == t.queues; }
  }

  /** When only the queue of chat c changes, the sum changes by as much as that queue does. */
  lemma EngineBytesMove(t: Table, t': Table, c: Chat)
    requires forall k :: k != c ==> QueueOf(t', k).items == QueueOf(t, k).items
    ensures EngineBytes(t'.queues) + Bytes(QueueOf(t, c).items) == EngineBytes(t.queues) + Bytes(QueueOf(t', c).items)
  {
    EngineBytesWithout(t, c);
    EngineBytesWithout(t', c);
    SameItemsSameBytes(Removed(t, c), Removed(t', c), t.queues.Keys + t'.queues.Keys);
  }

  lemma {:induction false} SameItemsSameBytes(t: Table, t': Table, chats: set<Chat>)
    requires t.queues.Keys <= chats && t'.queues.Keys <= chats
    requires forall k :: QueueOf(t', k).items == QueueOf(t, k).items
    ensures EngineBytes(t.queues) == EngineBytes(t'.queues)
    decreases |chats|
  {
    if chats != {} {
      var k :| k in chats;
      EngineBytesWithout(t, k);
      EngineBytesWithout(t', k);
      SameItemsSameBytes(Removed(t, k), Removed(t', k), chats - {k});
    }
  }

  /** promptQueueItemsAttachmentBytes. */
  method ItemsAttachmentBytes(items: seq<Item>) returns (total: nat)
    ensures total == Bytes(items)
  {
    total := 0;
    for i := 0 to |items|
      invariant total + Bytes(items[i..]) == Bytes(items)
    {
      total := total + items[i].bytes;
    }
  }

  /** The filter of cancelQueuedPromptsForSessionSwitch over one queue. */
  method KeepSurviving(items: seq<Item>, c: Chat, sid: Sid, agent: Agent) returns (kept: seq<Item>, cancelled: nat)
    ensures kept == Surviving(items, c, sid, agent) && cancelled == |items| - |kept|
  {
    kept, cancelled := [], 0;
    for i := 0 to |items|
      invariant kept + Surviving(items[i..], c, sid, agent) == Surviving(items, c, sid, agent)
      invariant cancelled == i - |kept|
    {
      var it := items[i];
      assert items[i..] == [it] + items[i + 1..];
      var localSessionChanged := !it.cron && it.local != Some(sid);
      var agentSessionChanged := it.agent == "" || it.agent != agent;
      if it.chat == c && (localSessionChanged || agentSessionChanged) {
        cancelled := cancelled + 1;
      } else {
        kept := kept + [it];
      }
    }
  }

  class Queues {
    var promptQueues: map<Chat, QState>
    var promptQueueSeq: nat

    function Contents(): Table reads this { Table(promptQueues, promptQueueSeq) }

    constructor ()
      ensures Contents() == Table(map[], 0)
    {
      promptQueues, promptQueueSeq := map[], 0;
    }

    /** promptQueuesAttachmentBytesLocked. */
    method AttachmentBytesLocked() returns (total: nat)
      ensures total == EngineBytes(promptQueues)
    {
      total := 0;
      var rest := promptQueues;
      while rest != map[]
        invariant rest.Keys <= promptQueues.Keys && forall k | k in rest :: rest[k] == promptQueues[k]
        invariant total + EngineBytes(rest) == EngineBytes(promptQueues)
        decreases |rest|
      {
        var c :| c in rest;
        var n := ItemsAttachmentBytes(rest[c].items);
        EngineBytesPick(rest, c);
        total := total + n;
        rest := rest - {c};
      }
    }

    /** The entry of a chat, made when it is missing. */
    method Entry(c: Chat) returns (st: QState)
      modifies this`promptQueues
      ensures st == QueueOf(old(Contents()), c) && Contents() == SetQueue(old(Contents()), c, st)
    {
      if c !in promptQueues { promptQueues := promptQueues[c := QState(false, [])]; }
      st := promptQueues[c];
      assert promptQueues == old(promptQueues)[c := st];
    }

    method EnqueuePromptLocked(c: Chat, r: Request) returns (pos: Option<nat>)
      requires c in promptQueues
      modifies this
      ensures (Contents(), pos) == EnqueuePrompt(old(Contents()), c, r)
    {
      var st := promptQueues[c];
      assert promptQueues == promptQueues[c := st];
      if |st.items| >= MAX_ITEMS { return None; }
      var queued := ItemsAttachmentBytes(st.items);
      if r.bytes + queued > MAX_BYTES { return None; }
      var engine := AttachmentBytesLocked();
      if engine + r.bytes > MAX_ENGINE_BYTES { return None; }
      promptQueueSeq := promptQueueSeq + 1;
      var item := Item(promptQueueSeq, c, r.local, r.agent, r.cron, r.bytes);
      promptQueues := promptQueues[c := st.(items := st.items + [item])];
      return Some(|st.items| + 1);
    }

    /** beginPromptTurnOrEnqueue and beginCronTurnOrEnqueue. */
    method BeginTurnOrEnqueue(c: Chat, r: Request) returns (b: Begun)
      modifies this
      ensures (Contents(), b) == BeginOrEnqueue(old(Contents()), c, r)
    {
      var st := Entry(c);
      if st.running || |st.items| > 0 {
        NewEntryIsNothing(old(Contents()), c, r);
        var pos := EnqueuePromptLocked(c, r);
        return if pos.Some? then Queued(pos.value) else Refused;
      }
      promptQueues := promptQueues[c := st.(running := true)];
      assert promptQueues == old(promptQueues)[c := st.(running := true)];
      return Started;
    }

    method EnqueuePromptFor(c: Chat, r: Request) returns (pos: Option<nat>)
      modifies this
      ensures (Contents(), pos) == EnqueuePrompt(old(Contents()), c, r)
    {
      var st := Entry(c);
      NewEntryIsNothing(old(Contents()), c, r);
      pos := EnqueuePromptLocked(c, r);
    }

    method CompletePromptTurn(c: Chat)
      modifies this
      ensures Contents() == OpenGate(old(Contents()), c)
    {
      if c !in promptQueues { return; }
      var st := promptQueues[c].(running := false);
      promptQueues := promptQueues[c := st];
      if |st.items| == 0 { promptQueues := promptQueues - {c}; }
    }

    method PopNextQueuedPrompt(c: Chat) returns (item: Option<Item>)
      modifies this
      ensures (Contents(), item) == PopNext(old(Contents()), c)
    {
      if c !in promptQueues || promptQueues[c].running || |promptQueues[c].items| == 0 { return None; }
      var st := promptQueues[c];
      promptQueues := promptQueues[c := QState(true, st.items[1..])];
      return Some(st.items[0]);
    }

    method RequeuePromptFront(item: Item)
      modifies this
      ensures Contents() == RequeueFront(old(Contents()), item)
    {
      var st := Entry(item.chat);
      promptQueues := promptQueues[item.chat := QState(false, [item] + st.items)];
    }

    /** One round of cancelQueuedPromptsForSessionSwitch. */
    method CancelInQueue(key: Chat, c: Chat, sid: Sid, agent: Agent) returns (n: nat)
      requires key in promptQueues
      modifies this`promptQueues
      ensures promptQueues == CancelledIn(old(promptQueues), key, c, sid, agent)
      ensures n == |old(promptQueues[key]).items| - |Surviving(old(promptQueues[key]).items, c, sid, agent)|
    {
      var st := promptQueues[key];
      if |st.items| == 0 { return 0; }
      var kept;
      kept, n := KeepSurviving(st.items, c, sid, agent);
      promptQueues := promptQueues[key := st.(items := kept)];
      if !st.running && |kept| == 0 { promptQueues := promptQueues - {key}; }
    }

    method CancelQueuedPromptsForSessionSwitch(c: Chat, sid: Sid, agent: Agent) returns (cancelled: nat)
      modifies this`promptQueues
      ensures Contents() == CancelOnSwitch(old(Contents()), c, sid, agent)
      ensures OwnItems(old(promptQueues)) ==> cancelled == Lost(old(promptQueues), promptQueues, c)
    {
      cancelled := 0;
      ghost var was := promptQueues;
      var todo := promptQueues.Keys;
      while todo != {}
        invariant todo <= was.Keys
        invariant promptQueues == PartlyCancelled(was, todo, c, sid, agent)
        invariant OwnItems(was) ==> cancelled == Lost(was, promptQueues, c)
        decreases |todo|
      {
        var key :| key in todo;
        CancelOneMore(was, todo, key, c, sid, agent);
        var n := CancelInQueue(key, c, sid, agent);
        if OwnItems(was) && key != c { OthersSurvive(was[key].items, c, sid, agent); }
        cancelled, todo := cancelled + n, todo - {key};
      }
    }

    method ClearPromptQueue(c: Chat) returns (n: nat)
      modifies this
      ensures Contents() == ClearQueue(old(Contents()), c) && n == |QueueOf(old(Contents()), c).items|
    {
      if c !in promptQueues { return 0; }
      var st := promptQueues[c];
      n := |st.items|;
      promptQueues := promptQueues[c := st.(items := [])];
      if !st.running { promptQueues := promptQueues - {c}; }
    }

    method DeletePromptQueueItem(c: Chat, i: nat) returns (ok: bool)
      modifies this
      ensures Contents() == DeleteAt(old(Contents()), c, i) && ok == (i < |QueueOf(old(Contents()), c).items|)
    {
      if c !in promptQueues || i >= |promptQueues[c].items| { return false; }
      var st := promptQueues[c];
      st := st.(items := st.items[..i] + st.items[i + 1..]);
      promptQueues := promptQueues[c := st];
      if !st.running && |st.items| == 0 { promptQueues := promptQueues - {c}; }
      return true;
    }

    method MovePromptQueueItem(c: Chat, i: nat, delta: int) returns (ok: bool)
      requires delta == -1 || delta == 1
      modifies this
      ensures Contents() == MoveAt(old(Contents()), c, i, delta == -1)
      ensures ok == (0 <= i + delta < |QueueOf(old(Contents()), c).items| && i < |QueueOf(old(Contents()), c).items|)
    {
      if c !in promptQueues || i >= |promptQueues[c].items| { return false; }
      var items, target := promptQueues[c].items, i + delta;
      if target < 0 || target >= |items| { return false; }
      promptQueues := promptQueues[c := promptQueues[c].(items := items[i := items[target]][target := items[i]])];
      return true;
    }
  }

  /** The table of cancelQueuedPromptsForSessionSwitch when the queues in todo are still to do. */
  ghost function PartlyCancelled(was: map<Chat, QState>, todo: set<Chat>, c: Chat, sid: Sid, agent: Agent): map<Chat, QState> {
    map k | k in was
      && (k in todo || was[k].items == [] || was[k].running || Surviving(was[k].items, c, sid, agent) != []) ::
      if k in todo then was[k] else Survivor(was[k], c, sid, agent)
  }

  function CancelledIn(m: map<Chat, QState>, key: Chat, c: Chat, sid: Sid, agent: Agent): map<Chat, QState>
    requires key in m
  {
    if m[key].items == [] then m
    else if !m[key].running && Surviving(m[key].items, c, sid, agent) == [] then m - {key}
    else m[key := Survivor(m[key], c, sid, agent)]
  }

  lemma CancelOneMore(was: map<Chat, QState>, todo: set<Chat>, key: Chat, c: Chat, sid: Sid, agent: Agent)
    requires key in todo && todo <= was.Keys
    ensures var m := PartlyCancelled(was, todo, c, sid, agent);
      key in m && m[key] == was[key] && PartlyCancelled(was, todo - {key}, c, sid, agent) == CancelledIn(m, key, c, sid, agent)
  {}

  /** Every queue holds items of its own chat only. */
  ghost predicate OwnItems(queues: map<Chat, QState>) {
    forall k, it | k in queues && it in queues[k].items :: it.chat == k
  }

  function Lost(was: map<Chat, QState>, now: map<Chat, QState>, c: Chat): int {
    |QueueOf(Table(was, 0), c).items| - |QueueOf(Table(now, 0), c).items|
  }

  /** An entry made for a chat without one holds nothing. */
  lemma NewEntryIsNothing(t: Table, c: Chat, r: Request)
    ensures EnqueuePrompt(SetQueue(t, c, QueueOf(t, c)), c, r) == EnqueuePrompt(t, c, r)
  {
    var t' := SetQueue(t, c, QueueOf(t, c));
    EngineBytesPick(t'.queues, c);
    assert forall st :: SetQueue(t', c, st) == SetQueue(t, c, st);
    if c in t.queues {
      assert t'.queues == t.queues;
    } else {
      assert t'.queues - {c} == t.queues;
      assert EngineBytes(t'.queues) == EngineBytes(t.queues);
    }
  }
}
