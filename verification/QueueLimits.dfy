/** When the limits of the prompt queue are passed. An enqueue checks them, a prompt that is
    put back does not: the theorems say of every step whether it passes a limit, and runs of
    the program show how far it can go. */
module QueueLimits {
  import opened Text
  import opened PromptQueue
  import opened QueueGuarantees
  import opened QueueRuns

  function Items(s: State, c: Chat): seq<Item> { QueueOf(s.sh.table, c).items }

  /** What all queues hold together. */
  ghost function Total(s: State): nat { EngineBytes(s.sh.table.queues) }

  /** The item that a step puts back in front of its chat's queue, because the session was busy. */
  function Returned(s: State, step: Step): Option<Item> {
    if step.Go? && step.worker in s.workers && s.workers[step.worker].at.Requeueing?
    then Some(s.workers[step.worker].item) else None
  }

  predicate ReturnedTo(s: State, step: Step, c: Chat) {
    Returned(s, step).Some? && Returned(s, step).value.chat == c
  }

  // ---------------------------------------------------------------- one step

  lemma ReturnIsRequeue(s: State, step: Step, c: Chat)
    requires Inv(s)
    ensures OpOf(s, step, c).Requeue? <==> ReturnedTo(s, step, c)
    ensures ReturnedTo(s, step, c) ==> FlightOf(s.sh, c) == Returned(s, step)
  {
    if Continues(step) && step.worker in s.workers { assert WorkerOk(s.workers[step.worker]); }
  }

  /** A step puts an item back into a queue, or leaves it no larger, or within the limits. */
  lemma StepItems(s: State, step: Step, c: Chat)
    requires Inv(s)
    ensures var q, q' := Items(s, c), Items(Apply(s, step), c);
      if ReturnedTo(s, step, c) then q' == [Returned(s, step).value] + q
      else
        || (|q'| <= |q| && Bytes(q') <= Bytes(q))
        || (|q'| <= MAX_ITEMS && Bytes(q') <= MAX_BYTES && Total(s) + Bytes(q') <= MAX_ENGINE_BYTES + Bytes(q))
  {
    StepMovesViews(s, step, c);
    ReturnIsRequeue(s, step, c);
    var q, op := Items(s, c), OpOf(s, step, c);
    match op
    case Enqueue(item) => BytesConcat(q, [item]);
    case Keep(which) => SelectShrinks(q, which);
    case Swap(i) => SwapBytes(q, i);
    case _ =>
  }

  lemma OtherItems(s: State, step: Step, c: Chat)
    requires Inv(s) && ChatOf(s, step) != Some(c)
    ensures Items(Apply(s, step), c) == Items(s, c)
  {
    StepMovesViews(s, step, c);
  }

  /** Only the queue of the step's own chat changes, and the total with it. */
  lemma StepTotal(s: State, step: Step, c: Chat)
    requires Inv(s) && (ChatOf(s, step).Some? ==> ChatOf(s, step).value == c)
    ensures var s' := Apply(s, step); Total(s') + Bytes(Items(s, c)) == Total(s) + Bytes(Items(s', c))
  {
    forall k | k != c ensures Items(Apply(s, step), k) == Items(s, k) { OtherItems(s, step, k); }
    TotalMoves(s, Apply(s, step), c);
  }

  lemma TotalMoves(s: State, s': State, c: Chat)
    requires forall k :: k != c ==> Items(s', k) == Items(s, k)
    ensures Total(s') + Bytes(Items(s, c)) == Total(s) + Bytes(Items(s', c))
  {
    forall k | k != c ensures QueueOf(s'.sh.table, k).items == QueueOf(s.sh.table, k).items {
      assert Items(s', k) == Items(s, k);
    }
    EngineBytesMove(s.sh.table, s'.sh.table, c);
  }

  /** A chat whose queue is within both limits. */
  predicate WithinLimits(s: State, c: Chat) { |Items(s, c)| <= 20 && Bytes(Items(s, c)) <= 50 * 1024 * 1024 }

  /** The step puts an item back for which the queue has no room. */
  predicate Overfills(s: State, step: Step, c: Chat) {
    ReturnedTo(s, step, c) && (|Items(s, c)| >= 20 || Returned(s, step).value.bytes + Bytes(Items(s, c)) > 50 * 1024 * 1024)
  }

  lemma StepKeepsLimits(s: State, step: Step, c: Chat)
    requires Inv(s) && WithinLimits(s, c)
    ensures WithinLimits(Apply(s, step), c) <==> !Overfills(s, step, c)
  {
    StepItems(s, step, c);
  }

  // ---------------------------------------------------------------- exactly when a limit is passed

  /** In every reachable state, a step takes a queue above 20 items if and only if it puts an
      item back into a queue of 20, and above 50 MiB if and only if it puts an item back that
      the queue has no room for. */
  lemma {:induction false} QueueLimitsPassedExactly(steps: seq<Step>, step: Step, c: Chat)
    ensures var s := Run(INIT, steps);
      var q, q' := Items(s, c), Items(Apply(s, step), c);
      && (|q| <= 20 < |q'| <==> ReturnedTo(s, step, c) && |q| == 20)
      && (Bytes(q) <= 50 * 1024 * 1024 < Bytes(q') <==>
            ReturnedTo(s, step, c) && Bytes(q) <= 50 * 1024 * 1024 < Returned(s, step).value.bytes + Bytes(q))
  {
    RunInv(steps);
    StepItems(Run(INIT, steps), step, c);
  }

  /** Likewise for the limit on all queues together. */
  lemma {:induction false} EngineLimitPassedExactly(steps: seq<Step>, step: Step)
    ensures var s := Run(INIT, steps);
      Total(s) <= 200 * 1024 * 1024 < Total(Apply(s, step)) <==>
        Returned(s, step).Some? && Total(s) <= 200 * 1024 * 1024 < Total(s) + Returned(s, step).value.bytes
  {
    var s := Run(INIT, steps);
    RunInv(steps);
    var c := if ChatOf(s, step).Some? then ChatOf(s, step).value else "";
    StepTotal(s, step, c);
    StepItems(s, step, c);
    if Returned(s, step).Some? { assert WorkerOk(s.workers[step.worker]); }
  }

  /** The state after the first n steps of a run. */
  ghost function StateAt(steps: seq<Step>, n: nat): State
    requires n <= |steps|
  {
    Run(INIT, steps[..n])
  }

  /** A chat's queue is within both limits all through a run if and only if no step of the run
      puts an item back for which the queue has no room. */
  lemma {:induction false} LimitsKeptExactly(steps: seq<Step>, c: Chat)
    ensures (forall n | 0 <= n <= |steps| :: WithinLimits(StateAt(steps, n), c)) <==>
      (forall n | 0 <= n < |steps| :: !Overfills(StateAt(steps, n), steps[n], c))
  {
    if forall n | 0 <= n < |steps| :: !Overfills(StateAt(steps, n), steps[n], c) {
      forall n | 0 <= n <= |steps| ensures WithinLimits(StateAt(steps, n), c) { KeptSoFar(steps, n, c); }
    } else {
      var n :| 0 <= n < |steps| && Overfills(StateAt(steps, n), steps[n], c);
      NextPoint(steps, n);
      if WithinLimits(StateAt(steps, n), c) { StepKeepsLimits(StateAt(steps, n), steps[n], c); }
      assert !(WithinLimits(StateAt(steps, n), c) && WithinLimits(StateAt(steps, n + 1), c));
    }
  }

  lemma NextPoint(steps: seq<Step>, n: nat)
    requires n < |steps|
    ensures Inv(StateAt(steps, n)) && StateAt(steps, n + 1) == Apply(StateAt(steps, n), steps[n])
  {
    RunInv(steps[..n]);
    assert steps[..n + 1][..n] == steps[..n];
  }

  lemma {:induction false} KeptSoFar(steps: seq<Step>, n: nat, c: Chat)
    requires n <= |steps| && forall k | 0 <= k < |steps| :: !Overfills(StateAt(steps, k), steps[k], c)
    ensures WithinLimits(StateAt(steps, n), c)
  {
    if n == 0 {
      assert steps[..0] == [];
    } else {
      KeptSoFar(steps, n - 1, c);
      NextPoint(steps, n - 1);
      StepKeepsLimits(StateAt(steps, n - 1), steps[n - 1], c);
    }
  }

  /** All queues together hold at most 100 MiB for each chat in the table. */
  lemma {:induction false} TotalIsBounded(steps: seq<Step>)
    ensures var s := Run(INIT, steps); Total(s) <= |s.sh.table.queues| * (100 * 1024 * 1024)
  {
    var sh := Run(INIT, steps).sh;
    forall c ensures Bytes(QueueOf(sh.table, c).items) <= 100 * 1024 * 1024 {
      ChatIsBounded(steps, c);
      BytesConcat(InFlight(ViewOf(sh, c)), QueueOf(sh.table, c).items);
    }
    SumIsBounded(sh.table);
  }

  lemma {:induction false} SumIsBounded(t: Table)
    requires forall c :: Bytes(QueueOf(t, c).items) <= 100 * 1024 * 1024
    ensures EngineBytes(t.queues) <= |t.queues| * (100 * 1024 * 1024)
    decreases |t.queues|
  {
    if t.queues != map[] {
      var c :| c in t.queues;
      EngineBytesWithout(t, c);
      SumOfRest(t, c);
      SumIsBounded(Removed(t, c));
    }
  }

  lemma SumOfRest(t: Table, c: Chat)
    requires c in t.queues && forall k :: Bytes(QueueOf(t, k).items) <= 100 * 1024 * 1024
    ensures |t.queues| == |Removed(t, c).queues| + 1
    ensures forall k :: Bytes(QueueOf(Removed(t, c), k).items) <= 100 * 1024 * 1024
  {
    assert Removed(t, c).queues.Keys == t.queues.Keys - {c};
    forall k ensures Bytes(QueueOf(Removed(t, c), k).items) <= 100 * 1024 * 1024 {
      assert QueueOf(Removed(t, c), k).items == if k == c then [] else QueueOf(t, k).items;
    }
  }
}
