/** The per-key sliding-window rate limiter (core/ratelimit.go). Times are milliseconds; the
    clock is a parameter of each step. */
module RateLimiter {

  type Key = string

  /** rateBucket. */
  datatype Bucket = Bucket(timestamps: seq<int>, lastAccess: int)

  type Buckets = map<Key, Bucket>

  /** The timestamps after the cutoff. */
  function Recent(ts: seq<int>, cutoff: int): seq<int> {
    if ts == [] then [] else
      Recent(ts[..|ts| - 1], cutoff) + (if ts[|ts| - 1] > cutoff then [ts[|ts| - 1]] else [])
  }

  function TimesOf(b: Buckets, key: Key): seq<int> { if key in b then b[key].timestamps else [] }

  /** Allow, at time now: the buckets, and whether the message is accepted. */
  function Allow(b: Buckets, max: int, window: int, key: Key, now: int): (Buckets, bool) {
    if max <= 0 then (b, true)
    else
      var kept := Recent(TimesOf(b, key), now - window);
      if |kept| >= max then (b[key := Bucket(kept, now)], false)
      else (b[key := Bucket(kept + [now], now)], true)
  }

  /** One round of cleanupLoop. */
  function Sweep(b: Buckets, window: int, now: int): Buckets {
    b - Stale(b, window, now)
  }

  function Stale(b: Buckets, window: int, now: int): set<Key> {
    set key | key in b && now - b[key].lastAccess > window * 2
  }

  // ---------------------------------------------------------------- the limiter that forgets nothing

  /** All times at which a message of the key was accepted. */
  type History = map<Key, seq<int>>

  function AcceptedOf(h: History, key: Key): seq<int> { if key in h then h[key] else [] }

  /** Accept exactly when fewer than max messages were accepted within the window. */
  predicate Accepts(h: History, max: int, window: int, key: Key, now: int) {
    max <= 0 || |Recent(AcceptedOf(h, key), now - window)| < max
  }

  datatype Step = Ask(key: Key, now: int) | Clean(now: int)

  /** The program and the history after some steps. */
  function RunBuckets(max: int, window: int, steps: seq<Step>): Buckets {
    if steps == [] then map[] else
      var b, step := RunBuckets(max, window, steps[..|steps| - 1]), steps[|steps| - 1];
      match step
      case Ask(key, now) => Allow(b, max, window, key, now).0
      case Clean(now) => Sweep(b, window, now)
  }

  function RunHistory(max: int, window: int, steps: seq<Step>): History {
    if steps == [] then map[] else
      var h, step := RunHistory(max, window, steps[..|steps| - 1]), steps[|steps| - 1];
      match step
      case Ask(key, now) => Asked(h, max, window, key, now)
      case Clean(_) => h
  }

  /** The clock never goes back, and `now` is its latest value. */
  predicate Clock(steps: seq<Step>, now: int) {
    && (forall i, j | 0 <= i < j < |steps| :: steps[i].now <= steps[j].now)
    && (steps != [] ==> steps[|steps| - 1].now <= now)
  }

  // ---------------------------------------------------------------- filtering

  lemma {:induction false} RecentTwice(ts: seq<int>, c1: int, c2: int)
    requires c1 <= c2
    ensures Recent(Recent(ts, c1), c2) == Recent(ts, c2)
  {
    if ts != [] {
      var front, last := ts[..|ts| - 1], ts[|ts| - 1];
      RecentTwice(front, c1, c2);
      if last > c1 {
        assert (Recent(front, c1) + [last])[..|Recent(front, c1)|] == Recent(front, c1);
      } else {
        assert Recent(ts, c1) == Recent(front, c1);
      }
    }
  }

  lemma RecentAppend(ts: seq<int>, t: int, c: int)
    ensures Recent(ts + [t], c) == Recent(ts, c) + (if t > c then [t] else [])
  {
    assert (ts + [t])[..|ts|] == ts;
  }

  /** No time is later than `last`. */
  predicate UpTo(ts: seq<int>, last: int) { forall i | 0 <= i < |ts| :: ts[i] <= last }

  lemma {:induction false} RecentUpTo(ts: seq<int>, c: int, last: int)
    requires UpTo(ts, last)
    ensures UpTo(Recent(ts, c), last)
  {
    if ts != [] { RecentUpTo(ts[..|ts| - 1], c, last); }
  }

  lemma {:induction false} NoneRecent(ts: seq<int>, c: int)
    requires UpTo(ts, c)
    ensures Recent(ts, c) == []
  {
    if ts != [] { NoneRecent(ts[..|ts| - 1], c); }
  }

  lemma {:induction false} RecentShrinks(ts: seq<int>, c1: int, c2: int)
    requires c1 <= c2
    ensures |Recent(ts, c2)| <= |Recent(ts, c1)|
  {
    if ts != [] { RecentShrinks(ts[..|ts| - 1], c1, c2); }
  }

  // ---------------------------------------------------------------- forgetting never matters

  /** From now on the bucket of the key answers like the full history. */
  ghost predicate AgreeOn(b: Buckets, h: History, window: int, key: Key, now: int) {
    && SameRecent(TimesOf(b, key), AcceptedOf(h, key), now - window)
    && (key in b ==> b[key].lastAccess <= now && UpTo(b[key].timestamps, b[key].lastAccess))
  }

  lemma AgreeLater(b: Buckets, h: History, window: int, key: Key, now: int, later: int)
    requires AgreeOn(b, h, window, key, now) && now <= later
    ensures AgreeOn(b, h, window, key, later)
  {}

  /** The history after a message of the key. */
  function Asked(h: History, max: int, window: int, key: Key, now: int): History {
    if Accepts(h, max, window, key, now) then h[key := AcceptedOf(h, key) + [now]] else h
  }

  lemma AskAgreesAt(times: seq<int>, accepted: seq<int>, window: int, now: int, c: int)
    requires c >= now - window && Recent(times, c) == Recent(accepted, c)
    ensures var kept := Recent(times, now - window);
      Recent(kept, c) == Recent(accepted, c) && Recent(kept + [now], c) == Recent(accepted + [now], c)
  {
    RecentTwice(times, now - window, c);
    RecentAppend(Recent(times, now - window), now, c);
    RecentAppend(accepted, now, c);
  }

  ghost predicate SameRecent(a: seq<int>, b: seq<int>, from: int) {
    forall c | c >= from :: Recent(a, c) == Recent(b, c)
  }

  lemma AskKeepsRecent(times: seq<int>, accepted: seq<int>, window: int, now: int)
    requires SameRecent(times, accepted, now - window)
    ensures var kept := Recent(times, now - window);
      SameRecent(kept, accepted, now - window) && SameRecent(kept + [now], accepted + [now], now - window)
  {
    var kept := Recent(times, now - window);
    forall c | c >= now - window
      ensures Recent(kept, c) == Recent(accepted, c) && Recent(kept + [now], c) == Recent(accepted + [now], c)
    {
      AskAgreesAt(times, accepted, window, now, c);
    }
  }

  lemma AskAgrees(b: Buckets, h: History, max: int, window: int, key: Key, now: int)
    requires max > 0 && AgreeOn(b, h, window, key, now)
    ensures Allow(b, max, window, key, now).1 == Accepts(h, max, window, key, now)
    ensures AgreeOn(Allow(b, max, window, key, now).0, Asked(h, max, window, key, now), window, key, now)
  {
    var times, accepted := TimesOf(b, key), AcceptedOf(h, key);
    var kept := Recent(times, now - window);
    assert kept == Recent(accepted, now - window);
    RecentUpTo(times, now - window, now);
    AskKeepsRecent(times, accepted, window, now);
    var (b', ok) := Allow(b, max, window, key, now);
    var h' := Asked(h, max, window, key, now);
    assert ok == (|kept| < max) == Accepts(h, max, window, key, now);
    if ok {
      assert TimesOf(b', key) == kept + [now] && AcceptedOf(h', key) == accepted + [now];
    } else {
      assert TimesOf(b', key) == kept && h' == h;
    }
  }

  lemma OtherKeyAgrees(b: Buckets, h: History, max: int, window: int, asked: Key, key: Key, now: int)
    requires key != asked && AgreeOn(b, h, window, key, now)
    ensures AgreeOn(Allow(b, max, window, asked, now).0, Asked(h, max, window, asked, now), window, key, now)
  {
    var b', h' := Allow(b, max, window, asked, now).0, Asked(h, max, window, asked, now);
    assert TimesOf(b', key) == TimesOf(b, key) && AcceptedOf(h', key) == AcceptedOf(h, key);
  }

  lemma SweepAgrees(b: Buckets, h: History, window: int, key: Key, now: int)
    requires AgreeOn(b, h, window, key, now)
    ensures AgreeOn(Sweep(b, window, now), h, window, key, now)
  {
    if key in b && key !in Sweep(b, window, now) {
      forall c | c >= now - window
        ensures Recent(TimesOf(b, key), c) == []
      {
        NoneRecent(TimesOf(b, key), c);
      }
    }
  }

  lemma {:induction false} RunAgrees(max: int, window: int, steps: seq<Step>, key: Key, now: int)
    requires max > 0 && Clock(steps, now)
    ensures AgreeOn(RunBuckets(max, window, steps), RunHistory(max, window, steps), window, key, now)
  {
    if steps != [] {
      var before, step := steps[..|steps| - 1], steps[|steps| - 1];
      var b, h := RunBuckets(max, window, before), RunHistory(max, window, before);
      RunAgrees(max, window, before, key, step.now);
      match step {
        case Ask(k, at) =>
          if k == key { AskAgrees(b, h, max, window, key, at); } else { OtherKeyAgrees(b, h, max, window, k, key, at); }
        case Clean(at) => SweepAgrees(b, h, window, key, at);
      }
      AgreeLater(RunBuckets(max, window, steps), RunHistory(max, window, steps), window, key, step.now, now);
    }
  }

  /** After any steps under a clock that does not go back, with cleanups wherever, the program
      decides like the limiter that keeps the full history. */
  lemma CleanupNeverMatters(max: int, window: int, steps: seq<Step>, key: Key, now: int)
    requires Clock(steps, now)
    ensures Allow(RunBuckets(max, window, steps), max, window, key, now).1 ==
      Accepts(RunHistory(max, window, steps), max, window, key, now)
  {
    if max > 0 {
      RunAgrees(max, window, steps, key, now);
      AskAgrees(RunBuckets(max, window, steps), RunHistory(max, window, steps), max, window, key, now);
    }
  }

  // ---------------------------------------------------------------- the limit holds in every window

  /** How many of the times lie in (lo, hi]. */
  function CountIn(ts: seq<int>, lo: int, hi: int): nat {
    if ts == [] then 0 else
      CountIn(ts[..|ts| - 1], lo, hi) + (if lo < ts[|ts| - 1] <= hi then 1 else 0)
  }

  lemma {:induction false} CountAtMostRecent(ts: seq<int>, lo: int, hi: int)
    ensures CountIn(ts, lo, hi) <= |Recent(ts, lo)|
  {
    if ts != [] { CountAtMostRecent(ts[..|ts| - 1], lo, hi); }
  }

  lemma CountAppend(ts: seq<int>, t: int, lo: int, hi: int)
    ensures CountIn(ts + [t], lo, hi) == CountIn(ts, lo, hi) + (if lo < t <= hi then 1 else 0)
  {
    assert (ts + [t])[..|ts|] == ts;
  }

  lemma {:induction false} HistoryLimit(max: int, window: int, steps: seq<Step>, key: Key, lo: int)
    requires max > 0
    ensures CountIn(AcceptedOf(RunHistory(max, window, steps), key), lo, lo + window) <= max
  {
    if steps != [] {
      var before, step := steps[..|steps| - 1], steps[|steps| - 1];
      var h := RunHistory(max, window, before);
      HistoryLimit(max, window, before, key, lo);
      if step.Ask? && step.key == key && Accepts(h, max, window, key, step.now) {
        CountAppend(AcceptedOf(h, key), step.now, lo, lo + window);
        if lo < step.now <= lo + window {
          CountAtMostRecent(AcceptedOf(h, key), lo, lo + window);
          RecentShrinks(AcceptedOf(h, key), step.now - window, lo);
        }
      }
    }
  }

  /** The times at which the program accepted a message of the key. */
  function Accepted(max: int, window: int, steps: seq<Step>, key: Key): seq<int> {
    if steps == [] then [] else
      var before, step := steps[..|steps| - 1], steps[|steps| - 1];
      Accepted(max, window, before, key) +
        (if step.Ask? && step.key == key && Allow(RunBuckets(max, window, before), max, window, key, step.now).1
         then [step.now] else [])
  }

  lemma {:induction false} AcceptedIsHistory(max: int, window: int, steps: seq<Step>, key: Key, now: int)
    requires Clock(steps, now)
    ensures Accepted(max, window, steps, key) == AcceptedOf(RunHistory(max, window, steps), key)
  {
    if steps != [] {
      var before, step := steps[..|steps| - 1], steps[|steps| - 1];
      AcceptedIsHistory(max, window, before, key, step.now);
      CleanupNeverMatters(max, window, before, key, step.now);
    }
  }

  /** Every half-open interval of the window's length holds at most max accepted messages of a
      key, whatever was asked and cleaned up when, as long as the clock does not go back. */
  lemma WindowLimit(max: int, window: int, steps: seq<Step>, now: int, key: Key, lo: int)
    requires max > 0 && Clock(steps, now)
    ensures CountIn(Accepted(max, window, steps, key), lo, lo + window) <= max
  {
    AcceptedIsHistory(max, window, steps, key, now);
    HistoryLimit(max, window, steps, key, lo);
  }

  lemma {:induction false} AcceptedUpTo(max: int, window: int, steps: seq<Step>, key: Key, now: int)
    requires Clock(steps, now)
    ensures UpTo(Accepted(max, window, steps, key), now)
  {
    if steps != [] { AcceptedUpTo(max, window, steps[..|steps| - 1], key, steps[|steps| - 1].now); }
  }

  lemma {:induction false} RecentIsCount(ts: seq<int>, lo: int, hi: int)
    requires UpTo(ts, hi)
    ensures |Recent(ts, lo)| == CountIn(ts, lo, hi)
  {
    if ts != [] { RecentIsCount(ts[..|ts| - 1], lo, hi); }
  }

  /** A message is accepted if and only if there is no limit or fewer than max of the messages
      accepted so far lie within the window up to now. */
  lemma DecidesExactly(max: int, window: int, steps: seq<Step>, key: Key, now: int)
    requires Clock(steps, now)
    ensures Allow(RunBuckets(max, window, steps), max, window, key, now).1 <==>
      max <= 0 || CountIn(Accepted(max, window, steps, key), now - window, now) < max
  {
    CleanupNeverMatters(max, window, steps, key, now);
    AcceptedIsHistory(max, window, steps, key, now);
    AcceptedUpTo(max, window, steps, key, now);
    RecentIsCount(Accepted(max, window, steps, key), now - window, now);
  }

  // ---------------------------------------------------------------- the limiter

  class Limiter {
    var buckets: Buckets
    const maxMessages: int
    const windowMs: int

    constructor (maxMessages: int, windowMs: int)
      ensures this.maxMessages == maxMessages && this.windowMs == windowMs && buckets == map[]
    {
      this.maxMessages, this.windowMs, buckets := maxMessages, windowMs, map[];
    }

    method AllowMessage(key: Key, now: int) returns (ok: bool)
      modifies this
      ensures (buckets, ok) == Allow(old(buckets), maxMessages, windowMs, key, now)
    {
      if maxMessages <= 0 { return true; }
      var timestamps := if key in buckets then buckets[key].timestamps else [];
      var cutoff := now - windowMs;
      var filtered := [];
      for i := 0 to |timestamps|
        invariant filtered == Recent(timestamps[..i], cutoff)
        invariant buckets == old(buckets)
      {
        assert timestamps[..i + 1][..i] == timestamps[..i];
        if timestamps[i] > cutoff { filtered := filtered + [timestamps[i]]; }
      }
      assert timestamps[..|timestamps|] == timestamps;
      if |filtered| >= maxMessages {
        buckets := buckets[key := Bucket(filtered, now)];
        return false;
      }
      buckets := buckets[key := Bucket(filtered + [now], now)];
      return true;
    }

    /** One round of cleanupLoop. */
    method CleanUp(now: int)
      modifies this
      ensures buckets == Sweep(old(buckets), windowMs, now)
      ensures forall key :: key in buckets <==> key in old(buckets) && now - old(buckets)[key].lastAccess <= 2 * windowMs
    {
      var staleThreshold := windowMs * 2;
      var todo := buckets.Keys;
      while todo != {}
        invariant todo <= old(buckets).Keys
        invariant buckets == old(buckets) - (Stale(old(buckets), windowMs, now) - todo)
        decreases |todo|
      {
        var key :| key in todo;
        todo := todo - {key};
        if now - buckets[key].lastAccess > staleThreshold { buckets := buckets - {key}; }
      }
    }
  }
}
