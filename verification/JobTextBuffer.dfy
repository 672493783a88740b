/** What a job keeps of its output: the text buffer that drops its oldest bytes
    (core/job_runner.go) and the list of the latest events (core/job.go). */
module JobTextBuffer {
  import opened Utf8

  const MAX_BYTES := 64 * 1024   // maxBufferedJobTextBytes
  const MAX_EVENTS := 200        // maxBufferedJobEvents

  /** The fields of jobTextBuffer. */
  datatype Kept = Kept(parts: seq<Bytes>, total: int, truncated: bool, dropped: nat)

  const NOTHING := Kept([], 0, false, 0)

  /** The first position from i on that starts a UTF-8 sequence, or the end. */
  function NextStart(s: Bytes, i: nat): (k: nat)
    requires i <= |s|
    ensures i <= k <= |s|
    ensures k < |s| ==> RuneStart(s[k])
    ensures forall j | i <= j < k :: !RuneStart(s[j])
    decreases |s| - i
  {
    if i < |s| && !RuneStart(s[i]) then NextStart(s, i + 1) else i
  }

  /** The loop of Append: drop whole parts, then the front of one, until the rest fits. */
  function Shrink(b: Kept): Kept
    decreases |b.parts|
  {
    if b.total <= MAX_BYTES || b.parts == [] then b
    else
      var overflow, head := b.total - MAX_BYTES, b.parts[0];
      if |head| <= overflow then Shrink(Kept(b.parts[1..], b.total - |head|, true, b.dropped + |head|))
      else
        var cut := NextStart(head, overflow);
        Kept([head[cut..]] + b.parts[1..], b.total - cut, true, b.dropped + cut)
  }

  /** Append. */
  function Append(b: Kept, text: Bytes): Kept {
    if text == [] then b else Shrink(b.(parts := b.parts + [text], total := b.total + |text|))
  }

  /** The buffer after these texts. */
  function After(texts: seq<Bytes>): Kept {
    if texts == [] then NOTHING else Append(After(texts[..|texts| - 1]), texts[|texts| - 1])
  }

  /** The search in Append for a place to cut. */
  method FindStart(s: Bytes, i: nat) returns (k: nat)
    requires i <= |s|
    ensures k == NextStart(s, i)
  {
    k := i;
    while k < |s| && !RuneStart(s[k])
      invariant i <= k <= |s| && NextStart(s, k) == NextStart(s, i)
    {
      k := k + 1;
    }
  }

  class TextBuffer {
    var parts: seq<Bytes>
    var total: int
    var truncated: bool
    var droppedBytes: nat

    function Contents(): Kept reads this { Kept(parts, total, truncated, droppedBytes) }

    constructor ()
      ensures Contents() == NOTHING
    {
      parts, total, truncated, droppedBytes := [], 0, false, 0;
    }

    method AppendText(text: Bytes)
      modifies this
      ensures Contents() == Append(old(Contents()), text)
    {
      if text == [] { return; }
      parts := parts + [text];
      total := total + |text|;
      ghost var full := Contents();
      while total > MAX_BYTES && |parts| > 0
        invariant Shrink(Contents()) == Shrink(full)
        decreases |parts|
      {
        var overflow := total - MAX_BYTES;
        var head := parts[0];
        if |head| <= overflow {
          parts := parts[1..];
          total := total - |head|;
          droppedBytes := droppedBytes + |head|;
          truncated := true;
          continue;
        }
        var cut := FindStart(head, overflow);
        parts := [head[cut..]] + parts[1..];
        total := total - cut;
        droppedBytes := droppedBytes + cut;
        truncated := true;
        assert Contents() == Shrink(full);
        return;
      }
    }
  }

  // ---------------------------------------------------------------- an exact suffix

  lemma {:induction false} ConcatAppend(parts: seq<Bytes>, text: Bytes)
    ensures Concat(parts + [text]) == Concat(parts) + text
  {
    if parts == [] {
      assert Concat([text]) == text + Concat([]);
    } else {
      ConcatAppend(parts[1..], text);
      assert (parts + [text])[1..] == parts[1..] + [text];
    }
  }

  /** b holds a suffix of `all` and counts what it does not hold. */
  ghost predicate HoldsSuffix(b: Kept, all: Bytes) {
    && b.dropped <= |all| && Concat(b.parts) == all[b.dropped..]
    && b.total == |all| - b.dropped
    && (b.truncated <==> b.dropped > 0)
  }

  lemma {:induction false} ShrinkHoldsSuffix(b: Kept, all: Bytes)
    requires HoldsSuffix(b, all) && (b.truncated || forall p | p in b.parts :: p != [])
    ensures HoldsSuffix(Shrink(b), all) && Shrink(b).total <= MAX_BYTES
    decreases |b.parts|
  {
    if b.total > MAX_BYTES && b.parts != [] {
      var overflow, head := b.total - MAX_BYTES, b.parts[0];
      assert head in b.parts;
      assert all[b.dropped..] == head + Concat(b.parts[1..]);
      if |head| <= overflow {
        var b' := Kept(b.parts[1..], b.total - |head|, true, b.dropped + |head|);
        assert all[b'.dropped..] == all[b.dropped..][|head|..];
        ShrinkHoldsSuffix(b', all);
      } else {
        var cut := NextStart(head, overflow);
        assert all[b.dropped + cut..] == all[b.dropped..][cut..];
        assert ([head[cut..]] + b.parts[1..])[1..] == b.parts[1..];
      }
    }
  }

  /** Until the buffer is truncated none of its parts is empty. */
  lemma {:induction false} ShrinkKeepsParts(b: Kept)
    ensures !Shrink(b).truncated ==> Shrink(b).parts == b.parts && !b.truncated
    decreases |b.parts|
  {
    if b.total > MAX_BYTES && b.parts != [] && |b.parts[0]| <= b.total - MAX_BYTES {
      ShrinkKeepsParts(Kept(b.parts[1..], b.total - |b.parts[0]|, true, b.dropped + |b.parts[0]|));
    }
  }

  lemma {:induction false} PartsNonempty(texts: seq<Bytes>)
    ensures !After(texts).truncated ==> forall p | p in After(texts).parts :: p != []
  {
    if texts != [] {
      var before, text := After(texts[..|texts| - 1]), texts[|texts| - 1];
      PartsNonempty(texts[..|texts| - 1]);
      ShrinkKeepsParts(before.(parts := before.parts + [text], total := before.total + |text|));
    }
  }

  lemma AppendHoldsSuffix(b: Kept, all: Bytes, text: Bytes)
    requires HoldsSuffix(b, all) && b.total <= MAX_BYTES && (b.truncated || forall p | p in b.parts :: p != [])
    ensures HoldsSuffix(Append(b, text), all + text) && Append(b, text).total <= MAX_BYTES
  {
    if text == [] {
      assert all + text == all;
    } else {
      var b' := b.(parts := b.parts + [text], total := b.total + |text|);
      ConcatAppend(b.parts, text);
      assert (all + text)[b.dropped..] == all[b.dropped..] + text;
      ShrinkHoldsSuffix(b', all + text);
    }
  }

  /** At every moment the buffer holds the last bytes of everything appended, all of them up to
      64 KiB and never more than that, and has counted the others. */
  lemma {:induction false} BufferIsSuffix(texts: seq<Bytes>)
    ensures var b, all := After(texts), Concat(texts);
      && HoldsSuffix(b, all) && b.total <= 65536
      && |Concat(b.parts)| + b.dropped == |all| && |Concat(b.parts)| <= 65536
      && (|all| <= 65536 ==> Concat(b.parts) == all)
  {
    if texts != [] {
      var front, text := texts[..|texts| - 1], texts[|texts| - 1];
      BufferIsSuffix(front);
      assert texts == front + [text];
      ConcatAppend(front, text);
      PartsNonempty(front);
      AppendHoldsSuffix(After(front), Concat(front), text);
    }
  }

  // ---------------------------------------------------------------- valid texts

  lemma {:induction false} NextStartOfValid(s: Bytes, i: nat)
    requires Valid(s) && i <= |s|
    ensures NextStart(s, i) <= i + 3 && Valid(s[NextStart(s, i)..])
  {
    var k := NextStart(s, i);
    if k < |s| { BoundaryAtStart(s, k); } else { assert s[..k] == s; }
    ValidSuffix(s, k);
    if i + 3 < |s| {
      var j := BoundaryNear(s, i + 3);
      ValidSuffix(s, j);
      assert s[j..][0] == s[j] && RuneStart(s[j]);
    }
  }

  /** The parts are valid, and a truncated buffer is full up to three bytes. */
  ghost predicate ValidFull(b: Kept) {
    && (forall p | p in b.parts :: Valid(p))
    && (b.truncated ==> b.total >= MAX_BYTES - 3)
  }

  lemma {:induction false} ShrinkValid(b: Kept)
    requires ValidFull(b)
    ensures ValidFull(Shrink(b))
    decreases |b.parts|
  {
    if b.total > MAX_BYTES && b.parts != [] {
      var overflow, head := b.total - MAX_BYTES, b.parts[0];
      assert head in b.parts;
      if |head| <= overflow {
        ShrinkValid(Kept(b.parts[1..], b.total - |head|, true, b.dropped + |head|));
      } else {
        NextStartOfValid(head, overflow);
      }
    }
  }

  lemma {:induction false} ConcatValid(parts: seq<Bytes>)
    requires forall p | p in parts :: Valid(p)
    ensures Valid(Concat(parts))
  {
    if parts != [] {
      assert parts[0] in parts;
      ConcatValid(parts[1..]);
      ValidConcat(parts[0], Concat(parts[1..]));
    }
  }

  lemma {:induction false} AfterValid(texts: seq<Bytes>)
    requires forall t | t in texts :: Valid(t)
    ensures ValidFull(After(texts))
  {
    if texts != [] {
      var front, text := texts[..|texts| - 1], texts[|texts| - 1];
      AfterValid(front);
      assert text in texts;
      var before := After(front);
      if text != [] { ShrinkValid(before.(parts := before.parts + [text], total := before.total + |text|)); }
    }
  }

  /** When every text is valid UTF-8 the buffer holds valid UTF-8, and once something was
      dropped it never holds less than 64 KiB minus three bytes. */
  lemma BufferOfValidTexts(texts: seq<Bytes>)
    requires forall t | t in texts :: Valid(t)
    ensures Valid(Concat(After(texts).parts))
    ensures After(texts).truncated ==> |Concat(After(texts).parts)| >= 65536 - 3
  {
    AfterValid(texts);
    ConcatValid(After(texts).parts);
    BufferIsSuffix(texts);
  }

  // ---------------------------------------------------------------- the event list

  datatype JobEvent = JobEvent(index: nat, content: Bytes)

  /** The event fields of a job. */
  datatype EventLog = EventLog(events: seq<JobEvent>, count: nat)

  /** recordJobEvent. */
  function Record(log: EventLog, content: Bytes): EventLog {
    var events := log.events + [JobEvent(log.count, content)];
    var extra := |events| - MAX_EVENTS;
    EventLog(if extra > 0 then events[extra..] else events, log.count + 1)
  }

  function AfterEvents(contents: seq<Bytes>): EventLog {
    if contents == [] then EventLog([], 0)
    else Record(AfterEvents(contents[..|contents| - 1]), contents[|contents| - 1])
  }

  /** The list holds the last min(200, count) events, each under its own number. */
  lemma {:induction false} EventsAreTheLast(contents: seq<Bytes>)
    ensures var log, n := AfterEvents(contents), |contents|;
      && log.count == n
      && |log.events| == (if n < 200 then n else 200)
      && forall i | 0 <= i < |log.events| ::
           var k := n - |log.events| + i; log.events[i] == JobEvent(k, contents[k])
  {
    if contents != [] {
      EventsAreTheLast(contents[..|contents| - 1]);
    }
  }

  class EventList {
    var events: seq<JobEvent>
    var eventCount: nat

    function Contents(): EventLog reads this { EventLog(events, eventCount) }

    constructor ()
      ensures Contents() == EventLog([], 0)
    {
      events, eventCount := [], 0;
    }

    method RecordJobEvent(content: Bytes)
      modifies this
      ensures Contents() == Record(old(Contents()), content)
    {
      var index := eventCount;
      eventCount := eventCount + 1;
      events := events + [JobEvent(index, content)];
      var extra := |events| - MAX_EVENTS;
      if extra > 0 { events := events[extra..]; }
    }
  }
}
