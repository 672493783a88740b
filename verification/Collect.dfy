/** Collect mode (core/collect.go, with the handler in core/engine.go): messages buffered in a
    batch until an instruction flushes them as one synthesized message, whose prompt numbers
    the attachments. */
module Collect {
  import opened Text

  const MAX_ITEMS := 50   // maxCollectedItems

  datatype Attachment = Attachment(fileName: string, mimeType: string, data: seq<int>)

  /** collectedAttachmentRef. */
  datatype Ref = Ref(fileName: string, mimeType: string)

  function RefOf(a: Attachment): Ref { Ref(Trim(a.fileName), Trim(a.mimeType)) }

  function Refs(attachments: seq<Attachment>): seq<Ref> {
    seq(|attachments|, i requires 0 <= i < |attachments| => RefOf(attachments[i]))
  }

  /** collectedItem: the text, and the attachments it brought. */
  datatype Item = Item(content: string, imageCount: nat, fileCount: nat, imageRefs: seq<Ref>, fileRefs: seq<Ref>)

  function NewItem(content: string, images: seq<Attachment>, files: seq<Attachment>): Item {
    Item(content, |images|, |files|, Refs(images), Refs(files))
  }

  /** pendingCollectedBatch. */
  datatype Batch = Batch(items: seq<Item>, images: seq<Attachment>, files: seq<Attachment>,
                         awaiting: bool, instruction: string, flushing: bool, retryAsPlainText: bool)

  const FRESH := Batch([], [], [], false, "", false, false)

  // ---------------------------------------------------------------- the steps of a batch

  /** absorbPendingAttachmentsIntoCollection: the item is dropped when the batch is full, the
      attachments are not. */
  function Absorb(b: Batch, images: seq<Attachment>, files: seq<Attachment>): Batch {
    if images == [] && files == [] then b
    else b.(items := if |b.items| < MAX_ITEMS then b.items + [NewItem("", images, files)] else b.items,
            images := b.images + images, files := b.files + files,
            instruction := "", retryAsPlainText := false)
  }

  /** bufferPendingCollection, when there is room. */
  function Buffer(b: Batch, content: string, images: seq<Attachment>, files: seq<Attachment>): Batch {
    b.(items := b.items + [NewItem(Trim(content), images, files)],
       images := b.images + images, files := b.files + files,
       awaiting := false, instruction := "", retryAsPlainText := false)
  }

  function SetAwaiting(b: Batch, awaiting: bool): Batch {
    if awaiting then b.(awaiting := true, instruction := "", retryAsPlainText := false) else b.(awaiting := false)
  }

  /** beginPendingCollectionFlush, when no flush is under way. */
  function BeginFlush(b: Batch, instruction: string): Batch {
    b.(flushing := true, retryAsPlainText := b.awaiting, awaiting := false, instruction := instruction)
  }

  function FailFlush(b: Batch): Batch {
    b.(flushing := false, awaiting := b.retryAsPlainText && Trim(b.instruction) != "", retryAsPlainText := false)
  }

  // ---------------------------------------------------------------- the prompt

  /** One entry of renderCollectedAttachmentRefs. */
  function Label(kind: string, ordinal: nat, ref: Ref): string {
    var detail := if Trim(ref.fileName) != "" then Trim(ref.fileName) else Trim(ref.mimeType);
    kind + " #" + Decimal(ordinal) + (if detail != "" then " (" + detail + ")" else "")
  }

  /** The labels for refs numbered from `start` on. */
  function Labels(kind: string, start: nat, refs: seq<Ref>): seq<string> {
    seq(|refs|, i requires 0 <= i < |refs| => Label(kind, start + i, refs[i]))
  }

  /** What the prompt says of an item: its text and its labels. */
  datatype Entry = Entry(content: string, images: seq<string>, files: seq<string>)

  /** What the prompt says: the instruction, the number of attachments, the items and the labels
      of the attachments that came with the instruction. */
  datatype Prompt = Prompt(instruction: string, attachments: nat, entries: seq<Entry>,
                           finalImages: seq<string>, finalFiles: seq<string>)

  /** Refs of an item without attachments are not shown and not numbered. */
  function Shown(count: nat, refs: seq<Ref>): seq<Ref> { if count > 0 then refs else [] }

  function EntryFor(item: Item, image: nat, file: nat): Entry {
    var n := item.imageCount + item.fileCount;
    Entry(item.content, Labels("image", image, Shown(n, item.imageRefs)), Labels("file", file, Shown(n, item.fileRefs)))
  }

  /** The entries of the items, numbered from `image` and `file` on, and the next numbers. */
  function Walk(items: seq<Item>, image: nat, file: nat): (seq<Entry>, nat, nat) {
    if items == [] then ([], image, file) else
      var e := EntryFor(items[0], image, file);
      var (entries, i, f) := Walk(items[1..], image + |e.images|, file + |e.files|);
      ([e] + entries, i, f)
  }

  function Build(b: Batch, instruction: string, images: seq<Ref>, files: seq<Ref>): Prompt {
    var (entries, image, file) := Walk(b.items, 1, 1);
    Prompt(Trim(instruction), |b.images| + |b.files| + |images| + |files|, entries,
           Labels("image", image, images), Labels("file", file, files))
  }

  /** renderCollectedAttachmentRefs. */
  method RenderRefs(kind: string, start: nat, refs: seq<Ref>) returns (parts: seq<string>)
    ensures parts == Labels(kind, start, refs)
  {
    parts := [];
    for i := 0 to |refs|
      invariant parts == Labels(kind, start, refs[..i])
    {
      parts := parts + [Label(kind, start + i, refs[i])];
    }
    assert refs[..|refs|] == refs;
  }

  /** What buildCollectedPrompt writes for the attachments of an item. */
  method RenderItem(item: Item, image: nat, file: nat) returns (e: Entry)
    ensures e == EntryFor(item, image, file)
  {
    var images: seq<string>, files: seq<string> := [], [];
    if item.imageCount > 0 || item.fileCount > 0 {
      images := RenderRefs("image", image, item.imageRefs);
      files := RenderRefs("file", file, item.fileRefs);
    }
    return Entry(item.content, images, files);
  }

  /** The loop of buildCollectedPrompt. */
  method RenderItems(items: seq<Item>) returns (entries: seq<Entry>, image: nat, file: nat)
    ensures var w := Walk(items, 1, 1); entries == w.0 && image == w.1 && file == w.2
  {
    image, file, entries := 1, 1, [];
    for i := 0 to |items|
      invariant entries + Walk(items[i..], image, file).0 == Walk(items, 1, 1).0
      invariant Walk(items[i..], image, file).1 == Walk(items, 1, 1).1
      invariant Walk(items[i..], image, file).2 == Walk(items, 1, 1).2
    {
      assert items[i..][0] == items[i] && items[i..][1..] == items[i + 1..];
      var e := RenderItem(items[i], image, file);
      entries, image, file := entries + [e], image + |e.images|, file + |e.files|;
    }
  }

  /** buildCollectedPrompt. */
  method BuildCollectedPrompt(b: Batch, instruction: string, images: seq<Ref>, files: seq<Ref>) returns (p: Prompt)
    ensures p == Build(b, instruction, images, files)
  {
    var entries, image, file := RenderItems(b.items);
    var finalImages := RenderRefs("image", image, images);
    var finalFiles := RenderRefs("file", file, files);
    return Prompt(Trim(instruction), |b.images| + |b.files| + |images| + |files|, entries, finalImages, finalFiles);
  }

  // ---------------------------------------------------------------- one chat

  /** The message a flush synthesizes. */
  datatype Message = Message(prompt: Prompt, images: seq<Attachment>, files: seq<Attachment>)

  /** A chat: its batch, its pending attachments, and, as history, the synthesized messages. */
  datatype Chat = Chat(batch: Option<Batch>, images: seq<Attachment>, files: seq<Attachment>, sent: seq<Message>)

  const INIT := Chat(None, [], [], [])

  /** What a handler does in one go. `blocked` is the outcome of the session's TryLock and of
      the upgrade check, `cleared` whether a turn took the pending attachments. */
  datatype Step =
    | OnlyAttachments(images: seq<Attachment>, files: seq<Attachment>)
    | Say(content: string, images: seq<Attachment>, files: seq<Attachment>, slash: bool, blocked: bool, cleared: bool)
    | Start
    | Cancel
    | Send(images: seq<Attachment>, files: seq<Attachment>, blocked: bool)
    | SendWith(instruction: string, images: seq<Attachment>, files: seq<Attachment>, blocked: bool)
    | Finished(ok: bool)      // the turn of a flush ends
    | Expire

  /** flushPendingCollection. */
  function Flush(c: Chat, instruction: string, images: seq<Attachment>, files: seq<Attachment>, blocked: bool): Chat {
    if Trim(instruction) == "" || c.batch.None? || c.batch.value.items == [] || blocked || c.batch.value.flushing then c
    else
      var b := BeginFlush(c.batch.value, Trim(instruction));
      c.(batch := Some(b),
         sent := c.sent + [Message(Build(b, Trim(instruction), Refs(images), Refs(files)), b.images + images, b.files + files)])
  }

  function BufferInto(c: Chat, content: string, images: seq<Attachment>, files: seq<Attachment>): Chat
    requires c.batch.Some?
  {
    if |c.batch.value.items| >= MAX_ITEMS then c else c.(batch := Some(Buffer(c.batch.value, content, images, files)))
  }

  function Apply(c: Chat, step: Step): Chat {
    match step
    case OnlyAttachments(images, files) =>
      if c.batch.None? then c.(images := c.images + images, files := c.files + files)
      else if c.batch.value.awaiting || c.batch.value.flushing then c
      else BufferInto(c, "", images, files)
    case Say(content, images, files, slash, blocked, cleared) =>
      if c.batch.None? then (if cleared then c.(images := [], files := []) else c)
      else if c.batch.value.awaiting && !slash then Flush(c, content, images, files, blocked)
      else if c.batch.value.flushing then c
      else BufferInto(c, content, images, files)
    case Start =>
      if c.batch.Some? then c
      else c.(batch := Some(Absorb(FRESH, c.images, c.files)), images := [], files := [])
    case Cancel => if c.batch.Some? && !c.batch.value.flushing then c.(batch := None) else c
    case Send(images, files, blocked) =>
      if c.batch.None? || c.batch.value.flushing || c.batch.value.items == [] then c
      else if Trim(c.batch.value.instruction) != "" then Flush(c, c.batch.value.instruction, images, files, blocked)
      else c.(batch := Some(SetAwaiting(c.batch.value, true)))
    case SendWith(instruction, images, files, blocked) =>
      if c.batch.None? || c.batch.value.flushing || c.batch.value.items == [] then c
      else Flush(c, instruction, images, files, blocked)
    case Finished(ok) =>
      if c.batch.None? || !c.batch.value.flushing then c
      else if ok then c.(batch := None) else c.(batch := Some(FailFlush(c.batch.value)))
    case Expire => if c.batch.Some? && !c.batch.value.flushing then c.(batch := None) else c
  }

  function Run(steps: seq<Step>): Chat {
    if steps == [] then INIT else Apply(Run(steps[..|steps| - 1]), steps[|steps| - 1])
  }

  // ---------------------------------------------------------------- the numbering

  function ImageRefs(items: seq<Item>): seq<Ref> {
    if items == [] then [] else items[0].imageRefs + ImageRefs(items[1..])
  }

  function FileRefs(items: seq<Item>): seq<Ref> {
    if items == [] then [] else items[0].fileRefs + FileRefs(items[1..])
  }

  predicate ItemOk(it: Item) { it.imageCount == |it.imageRefs| && it.fileCount == |it.fileRefs| }

  /** The refs of the items are those of the batch's attachments, in order. */
  ghost predicate BatchOk(b: Batch) {
    && |b.items| <= MAX_ITEMS
    && (forall i | 0 <= i < |b.items| :: ItemOk(b.items[i]))
    && ImageRefs(b.items) == Refs(b.images)
    && FileRefs(b.items) == Refs(b.files)
  }

  lemma {:induction false} RefsAppend(items: seq<Item>, it: Item)
    ensures ImageRefs(items + [it]) == ImageRefs(items) + it.imageRefs
    ensures FileRefs(items + [it]) == FileRefs(items) + it.fileRefs
  {
    if items == [] {
      assert [it][1..] == [];
    } else {
      RefsAppend(items[1..], it);
      assert (items + [it])[1..] == items[1..] + [it];
    }
  }

  lemma RefsConcat(a: seq<Attachment>, b: seq<Attachment>)
    ensures Refs(a + b) == Refs(a) + Refs(b)
  {}

  /** Adding an item with its attachments keeps the batch in step. */
  lemma AppendOk(b: Batch, b': Batch, content: string, images: seq<Attachment>, files: seq<Attachment>)
    requires BatchOk(b) && |b.items| < MAX_ITEMS
    requires b'.items == b.items + [NewItem(content, images, files)]
    requires b'.images == b.images + images && b'.files == b.files + files
    ensures BatchOk(b')
  {
    RefsAppend(b.items, NewItem(content, images, files));
    RefsConcat(b.images, images);
    RefsConcat(b.files, files);
  }

  /** Absorbing attachments keeps a batch in step exactly when there is room for their item or
      nothing to absorb; the program only absorbs into a fresh batch. */
  lemma AbsorbKeepsOk(b: Batch, images: seq<Attachment>, files: seq<Attachment>)
    requires BatchOk(b)
    ensures BatchOk(Absorb(b, images, files)) <==> |b.items| < 50 || (images == [] && files == [])
  {
    if images != [] || files != [] {
      if |b.items| < MAX_ITEMS {
        AppendOk(b, Absorb(b, images, files), "", images, files);
      } else {
        assert |Refs(b.images + images)| + |Refs(b.files + files)| > |ImageRefs(b.items)| + |FileRefs(b.items)|;
      }
    }
  }

  /** All image labels of a prompt, from top to bottom. */
  function ImageLabels(entries: seq<Entry>): seq<string> {
    if entries == [] then [] else entries[0].images + ImageLabels(entries[1..])
  }

  function FileLabels(entries: seq<Entry>): seq<string> {
    if entries == [] then [] else entries[0].files + FileLabels(entries[1..])
  }

  lemma LabelsConcat(kind: string, start: nat, a: seq<Ref>, b: seq<Ref>)
    ensures Labels(kind, start, a + b) == Labels(kind, start, a) + Labels(kind, start + |a|, b)
  {}

  lemma LabelsPrepend(e: Entry, rest: seq<Entry>)
    ensures ImageLabels([e] + rest) == e.images + ImageLabels(rest)
    ensures FileLabels([e] + rest) == e.files + FileLabels(rest)
  {
    assert ([e] + rest)[1..] == rest;
  }

  /** A step of the walk: the first entry's labels, then those of the others. */
  lemma WalkPrepends(it: Item, rest: seq<Item>, image: nat, file: nat)
    requires ItemOk(it)
    ensures var w, w' := Walk([it] + rest, image, file), Walk(rest, image + |it.imageRefs|, file + |it.fileRefs|);
      && ImageLabels(w.0) == Labels("image", image, it.imageRefs) + ImageLabels(w'.0) && w.1 == w'.1
      && FileLabels(w.0) == Labels("file", file, it.fileRefs) + FileLabels(w'.0) && w.2 == w'.2
  {
    assert ([it] + rest)[1..] == rest;
    EntryShowsAll(it, image, file);
    LabelsPrepend(EntryFor(it, image, file), Walk(rest, image + |it.imageRefs|, file + |it.fileRefs|).0);
  }

  lemma RefsPrepend(it: Item, rest: seq<Item>)
    ensures ImageRefs([it] + rest) == it.imageRefs + ImageRefs(rest)
    ensures FileRefs([it] + rest) == it.fileRefs + FileRefs(rest)
  {
    assert ([it] + rest)[1..] == rest;
  }

  /** The labels of the entries are those of all refs of the items, numbered through. */
  lemma {:induction false} WalkNumbers(items: seq<Item>, image: nat, file: nat)
    requires forall i | 0 <= i < |items| :: ItemOk(items[i])
    ensures var w := Walk(items, image, file);
      && ImageLabels(w.0) == Labels("image", image, ImageRefs(items)) && w.1 == image + |ImageRefs(items)|
      && FileLabels(w.0) == Labels("file", file, FileRefs(items)) && w.2 == file + |FileRefs(items)|
  {
    if items != [] {
      var it, rest := items[0], items[1..];
      assert items == [it] + rest;
      WalkPrepends(it, rest, image, file);
      WalkNumbers(rest, image + |it.imageRefs|, file + |it.fileRefs|);
      RefsPrepend(it, rest);
      LabelsConcat("image", image, it.imageRefs, ImageRefs(rest));
      LabelsConcat("file", file, it.fileRefs, FileRefs(rest));
    }
  }

  lemma EntryShowsAll(it: Item, image: nat, file: nat)
    requires ItemOk(it)
    ensures EntryFor(it, image, file).images == Labels("image", image, it.imageRefs)
    ensures EntryFor(it, image, file).files == Labels("file", file, it.fileRefs)
  {
    var n := it.imageCount + it.fileCount;
    assert Shown(n, it.imageRefs) == it.imageRefs && Shown(n, it.fileRefs) == it.fileRefs;
  }

  /** A label: the kind, the number in decimal digits, and the file name or else the type. */
  ghost predicate IsLabel(text: string, kind: string, number: nat, a: Attachment) {
    exists digits | IsNumeral(digits, number) ::
      text == kind + " #" + digits +
        (if Trim(a.fileName) != "" then " (" + Trim(a.fileName) + ")"
         else if Trim(a.mimeType) != "" then " (" + Trim(a.mimeType) + ")" else "")
  }

  /** The labels a message should have: "image #k" for its k-th image, "file #k" for its k-th file. */
  ghost predicate WellLabelled(m: Message) {
    var images, files := ImageLabels(m.prompt.entries) + m.prompt.finalImages, FileLabels(m.prompt.entries) + m.prompt.finalFiles;
    && |images| == |m.images| && (forall k | 0 <= k < |images| :: IsLabel(images[k], "image", k + 1, m.images[k]))
    && |files| == |m.files| && (forall k | 0 <= k < |files| :: IsLabel(files[k], "file", k + 1, m.files[k]))
    && m.prompt.attachments == |m.images| + |m.files|
  }

  lemma LabelIsLabel(kind: string, number: nat, a: Attachment)
    ensures IsLabel(Label(kind, number, RefOf(a)), kind, number, a)
  {
    TrimTwice(a.fileName);
    TrimTwice(a.mimeType);
    NumeralIsDecimal(Decimal(number), number);
    Regroup(kind, " #", Decimal(number));
  }

  lemma LabelsAreLabels(kind: string, attachments: seq<Attachment>)
    ensures forall k | 0 <= k < |attachments| :: IsLabel(Labels(kind, 1, Refs(attachments))[k], kind, k + 1, attachments[k])
  {
    forall k | 0 <= k < |attachments| ensures IsLabel(Labels(kind, 1, Refs(attachments))[k], kind, k + 1, attachments[k]) {
      LabelIsLabel(kind, k + 1, attachments[k]);
    }
  }

  lemma FlushIsWellLabelled(b: Batch, instruction: string, images: seq<Attachment>, files: seq<Attachment>)
    requires BatchOk(b)
    ensures WellLabelled(Message(Build(b, instruction, Refs(images), Refs(files)), b.images + images, b.files + files))
  {
    WalkNumbers(b.items, 1, 1);
    RefsConcat(b.images, images);
    RefsConcat(b.files, files);
    LabelsConcat("image", 1, Refs(b.images), Refs(images));
    LabelsConcat("file", 1, Refs(b.files), Refs(files));
    LabelsAreLabels("image", b.images + images);
    LabelsAreLabels("file", b.files + files);
  }

  ghost predicate Inv(c: Chat) {
    && (c.batch.Some? ==> BatchOk(c.batch.value))
    && (forall i | 0 <= i < |c.sent| :: WellLabelled(c.sent[i]))
  }

  lemma FlushKeepsInv(c: Chat, instruction: string, images: seq<Attachment>, files: seq<Attachment>, blocked: bool)
    requires Inv(c)
    ensures Inv(Flush(c, instruction, images, files, blocked))
  {
    if c.batch.Some? {
      FlushIsWellLabelled(BeginFlush(c.batch.value, Trim(instruction)), Trim(instruction), images, files);
    }
  }

  lemma BufferKeepsInv(c: Chat, content: string, images: seq<Attachment>, files: seq<Attachment>)
    requires Inv(c) && c.batch.Some?
    ensures Inv(BufferInto(c, content, images, files))
  {
    var b := c.batch.value;
    if |b.items| < MAX_ITEMS { AppendOk(b, Buffer(b, content, images, files), Trim(content), images, files); }
  }

  lemma StepKeepsInv(c: Chat, step: Step)
    requires Inv(c)
    ensures Inv(Apply(c, step))
  {
    match step
    case OnlyAttachments(images, files) => if c.batch.Some? { BufferKeepsInv(c, "", images, files); }
    case Say(content, images, files, _, blocked, _) =>
      if c.batch.Some? {
        FlushKeepsInv(c, content, images, files, blocked);
        BufferKeepsInv(c, content, images, files);
      }
    case Start => AbsorbKeepsOk(FRESH, c.images, c.files);
    case Send(images, files, blocked) =>
      if c.batch.Some? { FlushKeepsInv(c, c.batch.value.instruction, images, files, blocked); }
    case SendWith(instruction, images, files, blocked) => FlushKeepsInv(c, instruction, images, files, blocked);
    case _ =>
  }

  lemma {:induction false} RunInv(steps: seq<Step>)
    ensures Inv(Run(steps))
  {
    if steps != [] {
      RunInv(steps[..|steps| - 1]);
      StepKeepsInv(Run(steps[..|steps| - 1]), steps[|steps| - 1]);
    }
  }

  /** Whatever was buffered, absorbed, failed and retried before, the label with number k in
      the prompt of a synthesized message is that of the message's k-th image or file, all of
      them are labelled, and the prompt counts them. */
  lemma LabelsNameAttachments(steps: seq<Step>, i: nat)
    requires i < |Run(steps).sent|
    ensures WellLabelled(Run(steps).sent[i])
  {
    RunInv(steps);
  }

  // ---------------------------------------------------------------- the texts

  /** A message to be collected. */
  datatype Incoming = Incoming(text: string, images: seq<Attachment>, files: seq<Attachment>)

  /** A chat after some such messages. */
  function Said(c: Chat, ms: seq<Incoming>): Chat {
    if ms == [] then c else
      var m := ms[|ms| - 1];
      Apply(Said(c, ms[..|ms| - 1]), Say(m.text, m.images, m.files, false, false, false))
  }

  function FirstFifty(ms: seq<Incoming>): seq<Incoming> { if |ms| <= 50 then ms else ms[..50] }

  function AllImages(ms: seq<Incoming>): seq<Attachment> {
    if ms == [] then [] else AllImages(ms[..|ms| - 1]) + ms[|ms| - 1].images
  }

  function AllFiles(ms: seq<Incoming>): seq<Attachment> {
    if ms == [] then [] else AllFiles(ms[..|ms| - 1]) + ms[|ms| - 1].files
  }

  predicate Holds(it: Item, m: Incoming) {
    it.content == Trim(m.text) && it.imageRefs == Refs(m.images) && it.fileRefs == Refs(m.files)
  }

  /** The batch holds the messages, and is open for more. */
  ghost predicate Collected(b: Batch, ms: seq<Incoming>) {
    && !b.awaiting && !b.flushing
    && |b.items| == |ms| && (forall i | 0 <= i < |ms| :: Holds(b.items[i], ms[i]))
    && b.images == AllImages(ms) && b.files == AllFiles(ms)
  }

  lemma CollectedMore(b: Batch, b': Batch, ms: seq<Incoming>, m: Incoming, it: Item)
    requires Collected(b, ms) && Holds(it, m) && !b'.awaiting && !b'.flushing
    requires b'.items == b.items + [it] && b'.images == b.images + m.images && b'.files == b.files + m.files
    ensures Collected(b', ms + [m])
  {
    assert (ms + [m])[..|ms|] == ms;
  }

  /** A chat whose open batch holds c's messages so far, and otherwise c. */
  ghost predicate Gathers(c: Chat, c': Chat, ms: seq<Incoming>) {
    c' == c.(batch := c'.batch) && c'.batch.Some? && Collected(c'.batch.value, ms)
  }

  lemma SayGathers(c: Chat, c': Chat, ms: seq<Incoming>, m: Incoming)
    requires Gathers(c, c', ms) && |ms| <= 50
    ensures Gathers(c, Apply(c', Say(m.text, m.images, m.files, false, false, false)), if |ms| < 50 then ms + [m] else ms)
  {
    var b := c'.batch.value;
    if |ms| < 50 {
      CollectedMore(b, Buffer(b, m.text, m.images, m.files), ms, m, NewItem(Trim(m.text), m.images, m.files));
    }
  }

  lemma {:induction false} SaidIsGathered(c: Chat, ms: seq<Incoming>)
    requires c.batch == Some(FRESH)
    ensures Gathers(c, Said(c, ms), FirstFifty(ms))
  {
    if ms != [] {
      var front, m := ms[..|ms| - 1], ms[|ms| - 1];
      SaidIsGathered(c, front);
      SayGathers(c, Said(c, front), FirstFifty(front), m);
      FirstFiftyStep(ms);
    }
  }

  lemma FirstFiftyStep(ms: seq<Incoming>)
    requires ms != []
    ensures var front := FirstFifty(ms[..|ms| - 1]);
      FirstFifty(ms) == if |front| < 50 then front + [ms[|ms| - 1]] else front
  {}

  /** Each entry says its item's text and labels its attachments. */
  lemma {:induction false} EntriesAreItems(items: seq<Item>, image: nat, file: nat)
    requires forall i | 0 <= i < |items| :: ItemOk(items[i])
    ensures var es := Walk(items, image, file).0;
      && |es| == |items|
      && forall i | 0 <= i < |items| ::
           es[i].content == items[i].content && |es[i].images| == |items[i].imageRefs| && |es[i].files| == |items[i].fileRefs|
  {
    if items != [] {
      var it, e := items[0], EntryFor(items[0], image, file);
      EntryShowsAll(it, image, file);
      var rest := Walk(items[1..], image + |e.images|, file + |e.files|).0;
      EntriesAreItems(items[1..], image + |e.images|, file + |e.files|);
      assert Walk(items, image, file).0 == [e] + rest;
    }
  }

  /** The prompt of a message says, in order, each text with as many labels as it brought
      attachments; the message carries those and the ones given with the instruction. */
  ghost predicate SaysAll(m: Message, ms: seq<Incoming>, instruction: string, images: seq<Attachment>, files: seq<Attachment>) {
    && m.prompt.instruction == Trim(instruction)
    && m.images == AllImages(ms) + images && m.files == AllFiles(ms) + files
    && |m.prompt.entries| == |ms|
    && forall i | 0 <= i < |ms| ::
         var e := m.prompt.entries[i];
         e.content == Trim(ms[i].text) && |e.images| == |ms[i].images| && |e.files| == |ms[i].files|
  }

  lemma BuildSaysAll(b: Batch, ms: seq<Incoming>, instruction: string, images: seq<Attachment>, files: seq<Attachment>)
    requires BatchOk(b) && Collected(b, ms)
    ensures SaysAll(Message(Build(b, Trim(instruction), Refs(images), Refs(files)), b.images + images, b.files + files),
                    ms, instruction, images, files)
  {
    TrimTwice(instruction);
    EntriesAreItems(b.items, 1, 1);
    assert forall i | 0 <= i < |ms| :: Holds(b.items[i], ms[i]);
  }

  function Synthesized(b: Batch, instruction: string, images: seq<Attachment>, files: seq<Attachment>): Message {
    Message(Build(b, Trim(instruction), Refs(images), Refs(files)), b.images + images, b.files + files)
  }

  lemma SendWithFlushes(c: Chat, instruction: string, images: seq<Attachment>, files: seq<Attachment>)
    requires c.batch.Some? && c.batch.value.items != [] && !c.batch.value.flushing && Trim(instruction) != ""
    ensures Apply(c, SendWith(instruction, images, files, false)).sent ==
            c.sent + [Synthesized(c.batch.value, instruction, images, files)]
  {}

  lemma SynthesizedSaysAll(b: Batch, ms: seq<Incoming>, instruction: string, images: seq<Attachment>, files: seq<Attachment>)
    requires BatchOk(b) && Collected(b, ms)
    ensures SaysAll(Synthesized(b, instruction, images, files), ms, instruction, images, files)
    ensures WellLabelled(Synthesized(b, instruction, images, files))
  {
    BuildSaysAll(b, ms, instruction, images, files);
    FlushIsWellLabelled(b, Trim(instruction), images, files);
  }

  /** Messages said to a fresh batch and then sent with an instruction are sent as one message,
      which says the first fifty of them. */
  lemma SaidIsSent(steps: seq<Step>, ms: seq<Incoming>, instruction: string, images: seq<Attachment>, files: seq<Attachment>)
      returns (m: Message)
    requires Run(steps).batch == Some(FRESH) && ms != [] && Trim(instruction) != ""
    ensures Apply(Said(Run(steps), ms), SendWith(instruction, images, files, false)).sent == Run(steps).sent + [m]
    ensures SaysAll(m, if |ms| <= 50 then ms else ms[..50], instruction, images, files)
    ensures WellLabelled(m)
  {
    RunInv(steps);
    SaidIsGathered(Run(steps), ms);
    SaidKeepsInv(Run(steps), ms);
    var b := Said(Run(steps), ms).batch.value;
    SendWithFlushes(Said(Run(steps), ms), instruction, images, files);
    SynthesizedSaysAll(b, FirstFifty(ms), instruction, images, files);
    m := Synthesized(b, instruction, images, files);
  }

  lemma {:induction false} SaidKeepsInv(c: Chat, ms: seq<Incoming>)
    requires Inv(c)
    ensures Inv(Said(c, ms))
  {
    if ms != [] {
      var m := ms[|ms| - 1];
      SaidKeepsInv(c, ms[..|ms| - 1]);
      StepKeepsInv(Said(c, ms[..|ms| - 1]), Say(m.text, m.images, m.files, false, false, false));
    }
  }

  /** Asking to send and then saying the instruction sends what sending with it does. */
  lemma SendThenSay(c: Chat, instruction: string, images: seq<Attachment>, files: seq<Attachment>, blocked: bool, cleared: bool)
    requires c.batch.Some? && c.batch.value.items != [] && !c.batch.value.flushing && Trim(c.batch.value.instruction) == ""
    ensures Apply(Apply(c, Send([], [], false)), Say(instruction, images, files, false, blocked, cleared)).sent ==
            Apply(c, SendWith(instruction, images, files, blocked)).sent
  {
    TrimTwice(instruction);
  }

  /** Starting with pending attachments takes them into the batch as its first item. */
  lemma StartTakesPending(c: Chat)
    requires c.batch.None?
    ensures var c' := Apply(c, Start);
      && c'.batch.Some? && c'.images == [] && c'.files == [] && c'.sent == c.sent
      && var b := c'.batch.value;
         && b.images == c.images && b.files == c.files && !b.awaiting && !b.flushing
         && |b.items| == (if c.images == [] && c.files == [] then 0 else 1)
         && (b.items != [] ==> Holds(b.items[0], Incoming("", c.images, c.files)))
  {}

  /** Attachments without text wait for a batch, or are an item of one that is open. */
  lemma AttachmentsAreKept(c: Chat, images: seq<Attachment>, files: seq<Attachment>)
    ensures var c' := Apply(c, OnlyAttachments(images, files));
      match c.batch
      case None => c' == c.(images := c.images + images, files := c.files + files)
      case Some(b) =>
        if b.awaiting || b.flushing then c' == c
        else c' == Apply(c, Say("", images, files, true, true, true))
  {
    TrimOfTrimmed("");
  }

  /** A text is the instruction if one was asked for, unless it is a command; else it is an
      item of the batch, one of at most fifty, and withdraws the question. Without a batch it is
      no matter of collecting, and its turn takes the pending attachments. */
  lemma TextIsInstructionOrItem(c: Chat, content: string, images: seq<Attachment>, files: seq<Attachment>,
                                slash: bool, blocked: bool, cleared: bool)
    ensures var c' := Apply(c, Say(content, images, files, slash, blocked, cleared));
      match c.batch
      case None => c' == if cleared then Chat(None, [], [], c.sent) else c
      case Some(b) =>
        if b.awaiting && !slash then c' == Apply(c, SendWith(content, images, files, blocked))
        else if b.flushing || |b.items| >= 50 then c' == c
        else
          && c' == c.(batch := c'.batch) && c'.batch.Some?
          && var b' := c'.batch.value;
             && |b'.items| == |b.items| + 1 && b'.items[..|b.items|] == b.items
             && Holds(b'.items[|b.items|], Incoming(content, images, files))
             && b'.images == b.images + images && b'.files == b.files + files && !b'.awaiting && !b'.flushing
  {}

  /** Nothing is sent while the session is busy, a flush is under way or nothing was collected;
      cancelling and expiry drop a batch unless it is being sent. */
  lemma NothingIsSent(c: Chat, instruction: string, images: seq<Attachment>, files: seq<Attachment>, blocked: bool)
    requires c.batch.None? || c.batch.value.items == [] || c.batch.value.flushing || blocked || Trim(instruction) == ""
    ensures Apply(c, SendWith(instruction, images, files, blocked)) == c
    ensures Apply(c, Cancel) == Apply(c, Expire) == if c.batch.Some? && c.batch.value.flushing then c else c.(batch := None)
  {}

  /** A flush that ends well ends the batch. One that fails leaves all that was collected, and
      asks again for the instruction if the chat had been asked for it. */
  lemma FlushEnds(c: Chat, instruction: string, images: seq<Attachment>, files: seq<Attachment>)
    requires c.batch.Some? && c.batch.value.items != [] && !c.batch.value.flushing && Trim(instruction) != ""
    ensures var sent := Apply(c, SendWith(instruction, images, files, false));
      && sent == c.(batch := sent.batch, sent := c.sent + [Synthesized(c.batch.value, instruction, images, files)])
      && Apply(sent, Finished(true)) == sent.(batch := None)
      && Apply(sent, Finished(false)) == sent.(batch := Some(c.batch.value.(instruction := Trim(instruction), retryAsPlainText := false)))
  {
    SendWithFlushes(c, instruction, images, files);
    TrimTwice(instruction);
  }

  /** After a flush that failed, sending once more, with the instruction given again or not,
      sends the same message. */
  lemma FailedFlushCanBeRepeated(c: Chat, instruction: string, images: seq<Attachment>, files: seq<Attachment>)
    requires c.batch.Some? && c.batch.value.items != [] && !c.batch.value.flushing && Trim(instruction) != ""
    ensures var m := Synthesized(c.batch.value, instruction, images, files);
      var failed := Apply(Apply(c, SendWith(instruction, images, files, false)), Finished(false));
      && Apply(failed, SendWith(instruction, images, files, false)).sent == c.sent + [m] + [m]
      && Apply(failed, Send(images, files, false)).sent == c.sent + [m] + [m]
  {
    FlushEnds(c, instruction, images, files);
    TrimTwice(instruction);
    var failed := Apply(Apply(c, SendWith(instruction, images, files, false)), Finished(false));
    SendWithFlushes(failed, instruction, images, files);
    SendIsSendWith(failed, images, files);
    SendWithFlushes(failed, failed.batch.value.instruction, images, files);
  }

  lemma SendIsSendWith(c: Chat, images: seq<Attachment>, files: seq<Attachment>)
    requires c.batch.Some? && Trim(c.batch.value.instruction) != ""
    ensures Apply(c, Send(images, files, false)) == Apply(c, SendWith(c.batch.value.instruction, images, files, false))
  {}

  // ---------------------------------------------------------------- the engine's batches

  class Collector {
    var pendingCollect: map<string, Batch>

    constructor ()
      ensures pendingCollect == map[]
    {
      pendingCollect := map[];
    }

    method StartPendingCollection(key: string)
      modifies this
      ensures pendingCollect == if key in old(pendingCollect) then old(pendingCollect) else old(pendingCollect)[key := FRESH]
    {
      if key !in pendingCollect { pendingCollect := pendingCollect[key := FRESH]; }
    }

    method ClearPendingCollection(key: string) returns (ok: bool)
      modifies this
      ensures pendingCollect == old(pendingCollect) - {key} && ok == (key in old(pendingCollect))
    {
      if key !in pendingCollect { return false; }
      pendingCollect := pendingCollect - {key};
      return true;
    }

    method AbsorbPendingAttachments(key: string, images: seq<Attachment>, files: seq<Attachment>)
      modifies this
      ensures pendingCollect ==
        if key in old(pendingCollect) then old(pendingCollect)[key := Absorb(old(pendingCollect)[key], images, files)]
        else old(pendingCollect)
    {
      if key !in pendingCollect { return; }
      if |images| == 0 && |files| == 0 {
        assert pendingCollect == pendingCollect[key := pendingCollect[key]];
        return;
      }
      var batch := pendingCollect[key];
      if |batch.items| < MAX_ITEMS {
        batch := batch.(items := batch.items + [Item("", |images|, |files|, Refs(images), Refs(files))]);
      }
      batch := batch.(images := batch.images + images, files := batch.files + files);
      pendingCollect := pendingCollect[key := batch.(instruction := "", retryAsPlainText := false)];
    }

    method BufferPendingCollection(key: string, content: string, images: seq<Attachment>, files: seq<Attachment>)
      returns (count: nat, full: bool)
      modifies this
      ensures full == (key in old(pendingCollect) && |old(pendingCollect)[key].items| >= MAX_ITEMS)
      ensures pendingCollect ==
        if key in old(pendingCollect) && !full
        then old(pendingCollect)[key := Buffer(old(pendingCollect)[key], content, images, files)]
        else old(pendingCollect)
      ensures count == if key in pendingCollect then |pendingCollect[key].items| else 0
    {
      if key !in pendingCollect { return 0, false; }
      var batch := pendingCollect[key];
      if |batch.items| >= MAX_ITEMS { return |batch.items|, true; }
      batch := batch.(items := batch.items + [Item(Trim(content), |images|, |files|, Refs(images), Refs(files))]);
      batch := batch.(images := batch.images + images, files := batch.files + files);
      batch := batch.(awaiting := false, instruction := "", retryAsPlainText := false);
      pendingCollect := pendingCollect[key := batch];
      return |batch.items|, false;
    }

    method BeginPendingCollectionFlush(key: string, instruction: string) returns (batch: Option<Batch>)
      modifies this
      ensures batch.Some? == (key in old(pendingCollect) && !old(pendingCollect)[key].flushing)
      ensures batch.Some? ==> batch.value == BeginFlush(old(pendingCollect)[key], instruction)
      ensures pendingCollect == if batch.Some? then old(pendingCollect)[key := batch.value] else old(pendingCollect)
    {
      if key !in pendingCollect || pendingCollect[key].flushing { return None; }
      var b := pendingCollect[key].(flushing := true);
      b := b.(retryAsPlainText := b.awaiting);
      b := b.(awaiting := false, instruction := instruction);
      pendingCollect := pendingCollect[key := b];
      return Some(b);
    }

    method FailPendingCollectionFlush(key: string)
      modifies this
      ensures pendingCollect ==
        if key in old(pendingCollect) then old(pendingCollect)[key := FailFlush(old(pendingCollect)[key])]
        else old(pendingCollect)
    {
      if key !in pendingCollect { return; }
      var b := pendingCollect[key].(flushing := false);
      b := b.(awaiting := b.retryAsPlainText && Trim(b.instruction) != "");
      pendingCollect := pendingCollect[key := b.(retryAsPlainText := false)];
    }
  }
}
