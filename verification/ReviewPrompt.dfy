/** The bounded prompts of the review cycle (core/engine.go): the compaction that prints how
    many characters it omits, the budget shared by two summaries, and the revision prompt.
    Texts are sequences of runes. */
module ReviewPrompt {
  import opened Arithmetic
  import opened Text

  /** The text of an omission marker around its number. */
  datatype Wording = Wording(before: string, after: string)

  const OMISSION := Wording("\n\n[... omitted ", " characters for review ...]\n\n")

  function Marker(w: Wording, omitted: nat): string { w.before + Decimal(omitted) + w.after }

  lemma MarkerMonotone(w: Wording, m: nat, n: nat)
    requires m <= n
    ensures |Marker(w, m)| <= |Marker(w, n)|
  {
    DecimalLengthMonotone(m, n);
  }

  /** The number of runes dropped to fit the marker for `omitted` into maxLen. */
  function Next(w: Wording, total: nat, maxLen: nat, omitted: nat): int {
    total - (maxLen - |Marker(w, omitted)|)
  }

  /** The marker for k fits into maxLen with a rune to spare, and k is what is then dropped. */
  ghost predicate Consistent(w: Wording, total: nat, maxLen: nat, k: nat) {
    |Marker(w, k)| < maxLen && Next(w, total, maxLen, k) == k
  }

  /** The loop of compactReviewPromptText: the number settled on, or None when a marker does
      not fit. It starts from the overlength and can only rise, below the total. */
  function Settle(w: Wording, total: nat, maxLen: nat, omitted: nat): Option<nat>
    requires omitted <= Next(w, total, maxLen, omitted)
    decreases total - omitted
  {
    if |Marker(w, omitted)| >= maxLen then None
    else
      var next := Next(w, total, maxLen, omitted);
      if next == omitted then Some(omitted)
      else
        MarkerMonotone(w, omitted, next);
        Settle(w, total, maxLen, next)
  }

  /** The loop finds the least self-consistent number, and fails only when there is none. */
  lemma {:induction false} SettleFindsLeast(w: Wording, total: nat, maxLen: nat, omitted: nat)
    requires omitted <= Next(w, total, maxLen, omitted)
    ensures var r := Settle(w, total, maxLen, omitted);
      && (r.Some? ==> r.value >= omitted && Consistent(w, total, maxLen, r.value))
      && (forall k | omitted <= k && Consistent(w, total, maxLen, k) :: r.Some? && r.value <= k)
    decreases total - omitted
  {
    if |Marker(w, omitted)| >= maxLen {
      forall k | omitted <= k && Consistent(w, total, maxLen, k) ensures false { MarkerMonotone(w, omitted, k); }
    } else if Next(w, total, maxLen, omitted) != omitted {
      var next := Next(w, total, maxLen, omitted);
      MarkerMonotone(w, omitted, next);
      SettleFindsLeast(w, total, maxLen, next);
      forall k | omitted <= k && Consistent(w, total, maxLen, k) ensures next <= k { MarkerMonotone(w, omitted, k); }
    }
  }

  /** The ends of the text around the marker for k. */
  function WithMarker(w: Wording, text: string, maxLen: nat, k: nat): string
    requires |Marker(w, k)| < maxLen < |text|
  {
    var keep := maxLen - |Marker(w, k)|;
    text[..keep / 2] + Marker(w, k) + text[|text| - (keep - keep / 2)..]
  }

  /** The prefix returned when no marker fits. */
  function Snippet(text: string, maxLen: nat): string
    requires 0 < maxLen < |text|
  {
    if maxLen <= 1 then text[..maxLen] else text[..maxLen - 1] + "…"
  }

  /** What compactReviewPromptText makes of an over-long text. */
  function Shorten(w: Wording, text: string, maxLen: nat): (r: string)
    requires 0 < maxLen < |text|
    ensures |r| == maxLen
  {
    match Settle(w, |text|, maxLen, |text| - maxLen)
    case None => Snippet(text, maxLen)
    case Some(k) =>
      SettleFindsLeast(w, |text|, maxLen, |text| - maxLen);
      WithMarker(w, text, maxLen, k)
  }

  /** compactReviewPromptText: the compacted text, and whether anything was cut. */
  function Compact(s: string, maxLen: int): (string, bool) {
    var text := Trim(s);
    if maxLen <= 0 then ("", text != "")
    else if |text| <= maxLen then (text, false)
    else (Shorten(OMISSION, text, maxLen), true)
  }

  /** Whatever the text and the limit, the compaction keeps within the limit, cuts exactly the
      over-long texts, and cuts them to exactly maxLen runes. */
  lemma CompactLength(s: string, maxLen: int)
    ensures var (r, cut) := Compact(s, maxLen);
      && cut == (|Trim(s)| > if maxLen > 0 then maxLen else 0)
      && (cut ==> |r| == if maxLen > 0 then maxLen else 0)
      && (!cut ==> r == Trim(s))
  {
    if 0 < maxLen < |Trim(s)| { assert |Shorten(OMISSION, Trim(s), maxLen)| == maxLen; }
  }

  /** r has maxLen runes: the first `head` and the last `tail` runes of the text, halves of what
      there is room for, around the wording with the numeral of the runes left out between them. */
  predicate Honest(w: Wording, text: string, maxLen: nat, r: string, digits: string, head: nat, tail: nat) {
    && head + tail <= |text| && head <= tail <= head + 1 && tail > 0
    && IsNumeral(digits, |text| - head - tail)
    && r == text[..head] + w.before + digits + w.after + text[|text| - tail..]
    && |r| == maxLen
  }

  /** Honest, and no honest text leaves out fewer runes. */
  ghost predicate MostHonest(w: Wording, text: string, maxLen: nat, r: string) {
    exists digits, head: nat, tail: nat ::
      && Honest(w, text, maxLen, r, digits, head, tail)
      && forall r', digits', head': nat, tail': nat :: Honest(w, text, maxLen, r', digits', head', tail') ==> head' + tail' <= head + tail
  }

  /** The result of the compaction prints the number of runes it leaves out, whenever that can be
      done, and as few of them as that allows; otherwise it is a prefix, with an ellipsis. */
  lemma ShortenTellsTheTruth(w: Wording, text: string, maxLen: nat)
    requires 0 < maxLen < |text|
    ensures var r := Shorten(w, text, maxLen);
      || MostHonest(w, text, maxLen, r)
      || ((forall r', digits, head: nat, tail: nat :: !Honest(w, text, maxLen, r', digits, head, tail))
          && r == if maxLen == 1 then text[..1] else text[..maxLen - 1] + "…")
  {
    SettleFindsLeast(w, |text|, maxLen, |text| - maxLen);
    if Settle(w, |text|, maxLen, |text| - maxLen).Some? {
      SettledIsMostHonest(w, text, maxLen);
    } else {
      forall r', digits, head: nat, tail: nat ensures !Honest(w, text, maxLen, r', digits, head, tail) {
        if Honest(w, text, maxLen, r', digits, head, tail) { HonestIsConsistent(w, text, maxLen, r', digits, head, tail); }
      }
    }
  }

  lemma SettledIsMostHonest(w: Wording, text: string, maxLen: nat)
    requires 0 < maxLen < |text| && Settle(w, |text|, maxLen, |text| - maxLen).Some?
    ensures MostHonest(w, text, maxLen, Shorten(w, text, maxLen))
  {
    var k := Settle(w, |text|, maxLen, |text| - maxLen).value;
    SettleFindsLeast(w, |text|, maxLen, |text| - maxLen);
    SettledIsHonest(w, text, maxLen, k);
    forall r', digits, head: nat, tail: nat | Honest(w, text, maxLen, r', digits, head, tail)
      ensures head + tail <= maxLen - |Marker(w, k)|
    {
      HonestIsConsistent(w, text, maxLen, r', digits, head, tail);
    }
  }

  lemma HonestIsConsistent(w: Wording, text: string, maxLen: nat, r: string, digits: string, head: nat, tail: nat)
    requires Honest(w, text, maxLen, r, digits, head, tail)
    ensures Consistent(w, |text|, maxLen, |text| - head - tail) && head + tail <= maxLen
  {
    NumeralIsDecimal(digits, |text| - head - tail);
  }

  lemma SettledIsHonest(w: Wording, text: string, maxLen: nat, k: nat)
    requires maxLen < |text| && Consistent(w, |text|, maxLen, k)
    ensures var keep := maxLen - |Marker(w, k)|;
      Honest(w, text, maxLen, WithMarker(w, text, maxLen, k), Decimal(k), keep / 2, keep - keep / 2)
  {
    NumeralIsDecimal(Decimal(k), k);
    var keep := maxLen - |Marker(w, k)|;
    assert text[..keep / 2] + Marker(w, k) == text[..keep / 2] + w.before + Decimal(k) + w.after;
  }

  /** r is the text s within a limit: s itself, trimmed, when it fits; else its two ends around the
      program's own words, which say how many runes are missing, or a prefix when no such text
      is short enough. */
  ghost predicate IsCompact(s: string, limit: int, r: string) {
    var w := Wording("\n\n[... omitted ", " characters for review ...]\n\n");
    var text := Trim(s);
    if limit <= 0 then r == ""
    else if |text| <= limit then r == text
    else
      || MostHonest(w, text, limit, r)
      || ((forall r', digits, head: nat, tail: nat :: !Honest(w, text, limit, r', digits, head, tail))
          && r == if limit == 1 then text[..1] else text[..limit - 1] + "…")
  }

  lemma CompactTellsTheTruth(s: string, maxLen: int)
    ensures var (r, cut) := Compact(s, maxLen);
      IsCompact(s, maxLen, r) && cut == (|Trim(s)| > if maxLen > 0 then maxLen else 0)
  {
    if 0 < maxLen < |Trim(s)| { ShortenTellsTheTruth(OMISSION, Trim(s), maxLen); }
  }

  /** compactReviewPromptText. */
  method CompactReviewPromptText(s: string, maxLen: int) returns (r: string, cut: bool)
    ensures (r, cut) == Compact(s, maxLen)
  {
    var text := Trim(s);
    if maxLen <= 0 { return "", text != ""; }
    if |text| <= maxLen { return text, false; }
    r := MarkOmission(OMISSION, text, maxLen);
    return r, true;
  }

  lemma SettleStep(w: Wording, total: nat, maxLen: nat, omitted: nat, next: nat)
    requires omitted <= next == Next(w, total, maxLen, omitted) && omitted != next && |Marker(w, omitted)| < maxLen
    ensures next <= Next(w, total, maxLen, next) && Settle(w, total, maxLen, next) == Settle(w, total, maxLen, omitted)
    ensures omitted < next < total
  {
    MarkerMonotone(w, omitted, next);
  }

  /** The part of compactReviewPromptText for an over-long text. */
  method MarkOmission(w: Wording, text: string, maxLen: nat) returns (r: string)
    requires 0 < maxLen < |text|
    ensures r == Shorten(w, text, maxLen)
  {
    var total := |text|;
    var omitted := total - maxLen;
    var marker := "";
    while true
      invariant 0 <= omitted <= Next(w, total, maxLen, omitted)
      invariant Settle(w, total, maxLen, omitted) == Settle(w, total, maxLen, total - maxLen)
      decreases total - omitted
    {
      marker := Marker(w, omitted);
      if |marker| >= maxLen {
        if maxLen <= 1 { return text[..maxLen]; }
        return text[..maxLen - 1] + "…";
      }
      var keep := maxLen - |marker|;
      var nextOmitted := total - keep;
      if nextOmitted == omitted {
        var head := keep / 2;
        var tail := keep - head;
        return text[..head] + marker + text[|text| - tail..];
      }
      SettleStep(w, total, maxLen, omitted, nextOmitted);
      omitted := nextOmitted;
    }
  }

  // ---------------------------------------------------------------- the shared budget

  /** The last two adjustments of splitReviewPromptBudget. */
  function Redistribute(originLen: int, reviewLen: int, origin: int, review: int): (int, int) {
    var (o1, r1) := if originLen < origin then (originLen, review + (origin - originLen)) else (origin, review);
    if reviewLen < r1 then (o1 + (r1 - reviewLen), reviewLen) else (o1, r1)
  }

  /** The proportional share of the first text, kept off both ends. */
  function Share(originLen: nat, reviewLen: nat, budget: nat): int
    requires originLen + reviewLen > 0
  {
    var share := budget * originLen / (originLen + reviewLen);
    var atLeastOne := if share <= 0 then 1 else share;
    if atLeastOne >= budget then budget - 1 else atLeastOne
  }

  /** splitReviewPromptBudget on the lengths of the two trimmed texts. */
  function SplitBudget(originLen: nat, reviewLen: nat, budget: int): (int, int) {
    if budget <= 0 then (0, 0)
    else if originLen == 0 then (0, if reviewLen < budget then reviewLen else budget)
    else if reviewLen == 0 then (if originLen < budget then originLen else budget, 0)
    else if originLen + reviewLen <= budget then (originLen, reviewLen)
    else
      var origin := Share(originLen, reviewLen, budget);
      Redistribute(originLen, reviewLen, origin, budget - origin)
  }

  lemma ShareWithinFirst(first: nat, total: nat, budget: nat)
    requires 0 < budget <= total
    ensures budget * first / total <= first
  {
    MulUp(budget, total, first);
    QuotientAtMost(budget * first, total, first);
  }

  lemma ShareBelowBudget(first: nat, total: nat, budget: nat)
    requires budget > 0 && first < total
    ensures budget * first / total < budget
  {
    MulUp(first + 1, total, budget);
    assert budget * (first + 1) == budget * first + budget && (budget - 1) * total + total == budget * total;
    QuotientAtMost(budget * first, total, budget - 1);
  }

  lemma ShareLeavesSecond(first: nat, second: nat, budget: nat)
    requires 0 < budget <= first + second
    ensures budget - budget * first / (first + second) <= second
  {
    var total := first + second;
    if budget > second {
      MulUp(budget, total, second);
      assert budget * total == budget * first + budget * second;
      assert (budget - second) * total == budget * total - second * total;
      QuotientAtLeast(budget * first, total, budget - second);
    }
  }

  lemma ShareBounds(originLen: nat, reviewLen: nat, budget: nat)
    requires originLen > 0 && reviewLen > 0 && 0 < budget < originLen + reviewLen
    ensures var o := Share(originLen, reviewLen, budget);
      && 0 <= o <= originLen && 0 < budget - o <= reviewLen && (budget > 1 ==> o > 0)
  {
    ShareWithinFirst(originLen, originLen + reviewLen, budget);
    ShareBelowBudget(originLen, originLen + reviewLen, budget);
    ShareLeavesSecond(originLen, reviewLen, budget);
  }

  /** The two budgets lie within their texts, together are the smaller of the budget and the
      texts, and give each text something when there are two runes to give. */
  lemma SplitBudgetIsExact(originLen: nat, reviewLen: nat, budget: int)
    ensures var (o, r) := SplitBudget(originLen, reviewLen, budget);
      && 0 <= o <= originLen && 0 <= r <= reviewLen
      && o + r == (if budget <= 0 then 0 else if originLen + reviewLen <= budget then originLen + reviewLen else budget)
      && (originLen > 0 && reviewLen > 0 && budget > 1 ==> o > 0 && r > 0)
  {
    if budget > 0 && originLen > 0 && reviewLen > 0 && originLen + reviewLen > budget {
      ShareBounds(originLen, reviewLen, budget);
    }
  }

  /** The redistribution never changes the shares: both its branches are dead. */
  lemma RedistributionIsDead(originLen: nat, reviewLen: nat, budget: nat)
    requires originLen > 0 && reviewLen > 0 && 0 < budget < originLen + reviewLen
    ensures var o := Share(originLen, reviewLen, budget);
      originLen >= o && reviewLen >= budget - o && SplitBudget(originLen, reviewLen, budget) == (o, budget - o)
  {
    ShareBounds(originLen, reviewLen, budget);
  }

  /** When both texts do not fit, the first one's budget is its share of the runes, rounded down,
      except that neither text is left without a rune, if there are two. */
  lemma BudgetIsProportional(originLen: nat, reviewLen: nat, budget: nat)
    requires originLen > 0 && reviewLen > 0 && 0 < budget < originLen + reviewLen
    ensures var o := SplitBudget(originLen, reviewLen, budget).0; var total := originLen + reviewLen;
      if budget == 1 then o == 0
      else if budget * originLen < total then o == 1
      else o * total <= budget * originLen < o * total + total
  {
    var total := originLen + reviewLen;
    var q := budget * originLen / total;
    RedistributionIsDead(originLen, reviewLen, budget);
    ShareBelowBudget(originLen, total, budget);
    DivBounds(budget * originLen, total);
    if budget * originLen < total {
      QuotientAtMost(budget * originLen, total, 0);
    } else {
      QuotientAtLeast(budget * originLen, total, 1);
    }
  }

  // ---------------------------------------------------------------- the revision prompt

  /** The fixed texts of buildRevisionPrompt, around the summary, the reviewer and the review. */
  datatype Template = Template(opening: string, feedbackFrom: string, colon: string, closing: string)

  /** buildRevisionPrompt. */
  function RevisionPrompt(t: Template, reviewer: string, origin: string, review: string): string {
    t.opening + Trim(origin) + t.feedbackFrom + reviewer + t.colon + Trim(review) + t.closing
  }

  datatype Reason = PromptTooLong | TemplateTooLong

  /** Either the prompt or the reason there is none, and which texts were cut. */
  datatype Bounded =
    | Prompt(text: string, originCut: bool, reviewCut: bool)
    | NoPrompt(reason: Reason, originCut: bool, reviewCut: bool)

  /** The prompt with both texts compacted into a budget. */
  function Squeezed(t: Template, reviewer: string, origin: string, review: string, budget: nat): (b: Bounded)
    ensures b.Prompt?
  {
    var (originBudget, reviewBudget) := SplitBudget(|Trim(origin)|, |Trim(review)|, budget);
    var (shortOrigin, originCut) := Compact(origin, originBudget);
    var (shortReview, reviewCut) := Compact(review, reviewBudget);
    Prompt(RevisionPrompt(t, reviewer, shortOrigin, shortReview), originCut, reviewCut)
  }

  /** buildBoundedRevisionPrompt. */
  function BoundedRevision(t: Template, reviewer: string, origin: string, review: string, maxLen: int): Bounded {
    var full := RevisionPrompt(t, reviewer, origin, review);
    if maxLen <= 0 then NoPrompt(PromptTooLong, false, false)
    else if |full| <= maxLen then Prompt(full, false, false)
    else
      var base := |RevisionPrompt(t, reviewer, "", "")|;
      if base >= maxLen then NoPrompt(TemplateTooLong, false, false)
      else
        var b := Squeezed(t, reviewer, origin, review, maxLen - base);
        if |b.text| > maxLen then NoPrompt(PromptTooLong, b.originCut, b.reviewCut) else b
  }

  lemma RevisionLength(t: Template, reviewer: string, origin: string, review: string)
    ensures |RevisionPrompt(t, reviewer, origin, review)| ==
      |RevisionPrompt(t, reviewer, "", "")| + |Trim(origin)| + |Trim(review)|
  {}

  /** The two compacted texts take no more room than the budget. */
  lemma CompactedTextsFit(origin: string, review: string, budget: nat)
    ensures var (o, r) := SplitBudget(|Trim(origin)|, |Trim(review)|, budget);
      var ((origin', cut1), (review', cut2)) := (Compact(origin, o), Compact(review, r));
      && |Trim(origin')| + |Trim(review')| <= budget
      && (!cut1 ==> Trim(origin') == Trim(origin)) && (!cut2 ==> Trim(review') == Trim(review))
      && (|Trim(origin)| + |Trim(review)| > budget ==> cut1 || cut2)
  {
    var (o, r) := SplitBudget(|Trim(origin)|, |Trim(review)|, budget);
    SplitBudgetIsExact(|Trim(origin)|, |Trim(review)|, budget);
    CompactLength(origin, o);
    CompactLength(review, r);
    TrimTwice(origin);
    TrimTwice(review);
  }

  lemma SqueezedFits(t: Template, reviewer: string, origin: string, review: string, budget: nat)
    ensures var b := Squeezed(t, reviewer, origin, review, budget);
      && |b.text| <= |RevisionPrompt(t, reviewer, "", "")| + budget
      && (|Trim(origin)| + |Trim(review)| > budget ==> b.originCut || b.reviewCut)
  {
    var (o, r) := SplitBudget(|Trim(origin)|, |Trim(review)|, budget);
    RevisionLength(t, reviewer, Compact(origin, o).0, Compact(review, r).0);
    CompactedTextsFit(origin, review, budget);
  }

  /** The prompt is within maxLen, is built exactly when the whole prompt or the empty template
      fits, and the length check at the end never fails. */
  lemma RevisionAlwaysFits(t: Template, reviewer: string, origin: string, review: string, maxLen: int)
    ensures var b := BoundedRevision(t, reviewer, origin, review, maxLen);
      var full, base := RevisionPrompt(t, reviewer, origin, review), |RevisionPrompt(t, reviewer, "", "")|;
      && (b.Prompt? <==> maxLen > 0 && (|full| <= maxLen || base < maxLen))
      && (b.Prompt? ==> |b.text| <= maxLen)
      && (b.NoPrompt? ==> b.reason == (if maxLen <= 0 then PromptTooLong else TemplateTooLong))
      && (b.Prompt? ==> (b.text == full <==> |full| <= maxLen))
      && (b.Prompt? ==> (|full| > maxLen <==> b.originCut || b.reviewCut))
  {
    var full, base := RevisionPrompt(t, reviewer, origin, review), |RevisionPrompt(t, reviewer, "", "")|;
    RevisionLength(t, reviewer, origin, review);
    if maxLen > 0 && |full| > maxLen && base < maxLen {
      SqueezedFits(t, reviewer, origin, review, maxLen - base);
    }
  }

  /** A prompt shows the summary behind the opening and the review behind the reviewer's name, each
      compacted to its budget. */
  ghost predicate Shows(t: Template, reviewer: string, origin: string, review: string, budgets: (int, int), b: Bounded) {
    b.Prompt? && exists origin', review' ::
      && IsCompact(origin, budgets.0, origin') && IsCompact(review, budgets.1, review')
      && b.originCut == (|Trim(origin)| > budgets.0) && b.reviewCut == (|Trim(review)| > budgets.1)
      && b.text == t.opening + Trim(origin') + t.feedbackFrom + reviewer + t.colon + Trim(review') + t.closing
  }

  lemma SqueezedShows(t: Template, reviewer: string, origin: string, review: string, budget: nat)
    ensures Shows(t, reviewer, origin, review, SplitBudget(|Trim(origin)|, |Trim(review)|, budget),
                  Squeezed(t, reviewer, origin, review, budget))
  {
    var (o, r) := SplitBudget(|Trim(origin)|, |Trim(review)|, budget);
    SplitBudgetIsExact(|Trim(origin)|, |Trim(review)|, budget);
    CompactTellsTheTruth(origin, o);
    CompactTellsTheTruth(review, r);
    assert IsCompact(origin, o, Compact(origin, o).0) && IsCompact(review, r, Compact(review, r).0);
  }

  lemma FullShows(t: Template, reviewer: string, origin: string, review: string)
    ensures Shows(t, reviewer, origin, review, (|Trim(origin)|, |Trim(review)|),
                  Prompt(RevisionPrompt(t, reviewer, origin, review), false, false))
  {
    TrimTwice(origin);
    TrimTwice(review);
    assert IsCompact(origin, |Trim(origin)|, Trim(origin)) && IsCompact(review, |Trim(review)|, Trim(review));
  }

  /** The prompt that is built shows both texts, whole when that fits into maxLen, and else within
      the budgets that share what the template leaves. */
  lemma RevisionShowsTexts(t: Template, reviewer: string, origin: string, review: string, maxLen: int)
    ensures var b := BoundedRevision(t, reviewer, origin, review, maxLen);
      var full, base := |RevisionPrompt(t, reviewer, origin, review)|, |RevisionPrompt(t, reviewer, "", "")|;
      b.Prompt? ==>
        Shows(t, reviewer, origin, review,
              if full <= maxLen then (|Trim(origin)|, |Trim(review)|)
              else SplitBudget(|Trim(origin)|, |Trim(review)|, maxLen - base), b)
  {
    var full, base := |RevisionPrompt(t, reviewer, origin, review)|, |RevisionPrompt(t, reviewer, "", "")|;
    if full <= maxLen {
      FullShows(t, reviewer, origin, review);
    } else if base < maxLen {
      SqueezedShows(t, reviewer, origin, review, maxLen - base);
    }
  }
}
