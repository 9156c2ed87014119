/**
 * The browser-side history of `src/lib/quote-history.ts`: two lists, quotes
 * and reviews, each newest first and capped at fifty entries, their list
 * projections, deletion by id, and the merged history sorted by date.
 * Storage is the list value itself; fresh ids and the clock are parameters.
 */
module QuoteHistory {
  import opened Types
  import opened Filters
  import opened StableSort

  const MaxItems: nat := 50
  const UntitledQuote: string := "Untitled Quote"

  /** A saved quote: its requirements text, the estimate with fresh task ids, and the settings used. */
  datatype LocalQuote = LocalQuote(
    id: string,
    requirements: string,
    result: QuoteResponse,
    settings: Settings,
    createdAt: int)

  /** A saved specification review. */
  datatype LocalReview = LocalReview(
    id: string,
    requirements: string,
    result: SpecReviewResult,
    createdAt: int)

  // ---------------------------------------------------------------- saving

  /** Puts `entry` in front of `history` and drops whatever falls beyond the cap. */
  function PushCapped<T>(history: seq<T>, entry: T): (r: seq<T>)
    ensures |r| == if |history| < MaxItems then |history| + 1 else MaxItems
    ensures r[0] == entry
    // The older entries keep their order; only the oldest tail is dropped.
    ensures r[1..] == history[..|r| - 1]
  {
    var grown := [entry] + history;
    if |grown| > MaxItems then grown[..MaxItems] else grown
  }

  /** The tasks with task `i` re-keyed to `taskIds[i]`. */
  function WithTaskIds(tasks: seq<EstimationTask>, taskIds: seq<string>): (r: seq<EstimationTask>)
    requires |taskIds| == |tasks|
    ensures |r| == |tasks|
    ensures forall i :: 0 <= i < |r| ==> r[i].id == taskIds[i] && r[i].(id := tasks[i].id) == tasks[i]
  {
    seq(|tasks|, i requires 0 <= i < |tasks| => tasks[i].(id := taskIds[i]))
  }

  /** The estimate as stored: only the task ids differ from `result`. */
  function Rekeyed(result: QuoteResponse, taskIds: seq<string>): (r: QuoteResponse)
    requires |taskIds| == |result.breakdown.tasks|
    ensures r.(breakdown := r.breakdown.(tasks := result.breakdown.tasks)) == result
    ensures |r.breakdown.tasks| == |result.breakdown.tasks|
    ensures forall i :: 0 <= i < |taskIds| ==>
      r.breakdown.tasks[i].id == taskIds[i] && r.breakdown.tasks[i].(id := result.breakdown.tasks[i].id) == result.breakdown.tasks[i]
  {
    result.(breakdown := result.breakdown.(tasks := WithTaskIds(result.breakdown.tasks, taskIds)))
  }

  /**
   * Saves a quote. `quoteId` and `taskIds` stand for the fresh random ids,
   * one per task, and `now` for the clock.
   */
  function SaveQuote(
      history: seq<LocalQuote>, requirements: string, result: QuoteResponse, settings: Settings,
      quoteId: string, taskIds: seq<string>, now: int): (r: seq<LocalQuote>)
    requires |taskIds| == |result.breakdown.tasks|
    ensures 1 <= |r| <= MaxItems
    ensures |r| == if |history| < MaxItems then |history| + 1 else MaxItems
    ensures r[0].id == quoteId && r[0].requirements == requirements
    ensures r[0].settings == settings && r[0].createdAt == now
    ensures r[0].result == Rekeyed(result, taskIds)
    ensures r[1..] == history[..|r| - 1]
  {
    PushCapped(history, LocalQuote(quoteId, requirements, Rekeyed(result, taskIds), settings, now))
  }

  /** Saves a review; `reviewId` stands for the fresh random id and `now` for the clock. */
  function SaveReview(
      history: seq<LocalReview>, requirements: string, result: SpecReviewResult,
      reviewId: string, now: int): (r: seq<LocalReview>)
    ensures 1 <= |r| <= MaxItems
    ensures |r| == if |history| < MaxItems then |history| + 1 else MaxItems
    ensures r[0] == LocalReview(reviewId, requirements, result, now)
    ensures r[1..] == history[..|r| - 1]
  {
    PushCapped(history, LocalReview(reviewId, requirements, result, now))
  }

  // ---------------------------------------------------------------- deleting

  /** The test that keeps every quote except those with id `id`. */
  function OtherQuote(id: string): LocalQuote -> bool {
    (q: LocalQuote) => q.id != id
  }

  /** The test that keeps every review except those with id `id`. */
  function OtherReview(id: string): LocalReview -> bool {
    (v: LocalReview) => v.id != id
  }

  /** Removes every quote with id `id`. */
  function DeleteQuote(history: seq<LocalQuote>, id: string): (r: seq<LocalQuote>)
    ensures forall q :: q in r <==> q in history && q.id != id
    ensures |r| == Count(history, OtherQuote(id))
  {
    FilterLength(history, OtherQuote(id));
    Filter(history, OtherQuote(id))
  }

  /** Removes every review with id `id`. */
  function DeleteReview(history: seq<LocalReview>, id: string): (r: seq<LocalReview>)
    ensures forall v :: v in r <==> v in history && v.id != id
    ensures |r| == Count(history, OtherReview(id))
  {
    FilterLength(history, OtherReview(id));
    Filter(history, OtherReview(id))
  }

  /** Deleting works piecewise, so the surviving entries keep their order. */
  lemma DeleteKeepsOrder(a: seq<LocalQuote>, b: seq<LocalQuote>, c: seq<LocalReview>, d: seq<LocalReview>, id: string)
    ensures DeleteQuote(a + b, id) == DeleteQuote(a, id) + DeleteQuote(b, id)
    ensures DeleteReview(c + d, id) == DeleteReview(c, id) + DeleteReview(d, id)
  {
    FilterConcat(a, b, OtherQuote(id));
    FilterConcat(c, d, OtherReview(id));
  }

  /** Deleting the same id twice is the same as deleting it once. */
  lemma DeleteIdempotent(quotes: seq<LocalQuote>, reviews: seq<LocalReview>, id: string)
    ensures DeleteQuote(DeleteQuote(quotes, id), id) == DeleteQuote(quotes, id)
    ensures DeleteReview(DeleteReview(reviews, id), id) == DeleteReview(reviews, id)
  {
    FilterIdempotent(quotes, OtherQuote(id));
    FilterIdempotent(reviews, OtherReview(id));
  }

  /**
   * Deleting a quote just saved under a fresh id gives back the history as it
   * was, less the entry that fell off the end when the list was full.
   */
  lemma DeleteUndoesSaveQuote(
      history: seq<LocalQuote>, requirements: string, result: QuoteResponse, settings: Settings,
      quoteId: string, taskIds: seq<string>, now: int)
    requires |taskIds| == |result.breakdown.tasks|
    requires forall q :: q in history ==> q.id != quoteId
    ensures var saved := SaveQuote(history, requirements, result, settings, quoteId, taskIds, now);
      DeleteQuote(saved, quoteId) == history[..|saved| - 1]
  {
    var saved := SaveQuote(history, requirements, result, settings, quoteId, taskIds, now);
    assert forall q :: q in saved[1..] ==> q in history;
    DropHead(saved, OtherQuote(quoteId));
  }

  /** The same for a review. */
  lemma DeleteUndoesSaveReview(
      history: seq<LocalReview>, requirements: string, result: SpecReviewResult, reviewId: string, now: int)
    requires forall v :: v in history ==> v.id != reviewId
    ensures var saved := SaveReview(history, requirements, result, reviewId, now);
      DeleteReview(saved, reviewId) == history[..|saved| - 1]
  {
    var saved := SaveReview(history, requirements, result, reviewId, now);
    assert forall v :: v in saved[1..] ==> v in history;
    DropHead(saved, OtherReview(reviewId));
  }

  // ---------------------------------------------------------------- list projections

  datatype QuoteListItem = QuoteListItem(
    id: string,
    title: string,
    totalHours: real,
    totalDays: real,
    taskCount: nat,
    confidence: string,
    provider: Provider,
    createdAt: int)

  datatype ReviewListItem = ReviewListItem(
    id: string,
    summary: string,
    qualityScore: real,
    findingCount: nat,
    criticalCount: nat,
    provider: Provider,
    createdAt: int)

  /** The title shown for a quote: its first task's title, if it has a task. */
  function QuoteTitle(tasks: seq<EstimationTask>): string {
    if |tasks| > 0 then tasks[0].title else UntitledQuote
  }

  function QuoteListEntry(q: LocalQuote): QuoteListItem {
    var b := q.result.breakdown;
    QuoteListItem(q.id, QuoteTitle(b.tasks), b.totalHours, b.totalDays, |b.tasks|, b.confidence,
      q.result.provider, q.createdAt)
  }

  predicate IsCritical(f: Finding) {
    f.severity == Critical
  }

  function ReviewListEntry(v: LocalReview): ReviewListItem {
    ReviewListItem(v.id, v.result.summary, v.result.qualityScore, |v.result.findings|,
      |Filter(v.result.findings, IsCritical)|, v.result.provider, v.createdAt)
  }

  /** The quote list: one item per stored quote, in storage order. */
  function QuoteList(history: seq<LocalQuote>): (r: seq<QuoteListItem>)
    ensures |r| == |history|
    ensures forall i :: 0 <= i < |r| ==>
      && r[i].id == history[i].id
      && r[i].createdAt == history[i].createdAt
      && r[i].taskCount == |history[i].result.breakdown.tasks|
      && r[i].totalHours == history[i].result.breakdown.totalHours
      && r[i].totalDays == history[i].result.breakdown.totalDays
      && r[i].confidence == history[i].result.breakdown.confidence
      && r[i].provider == history[i].result.provider
    ensures forall i :: 0 <= i < |r| ==>
      var tasks := history[i].result.breakdown.tasks;
      r[i].title == (if |tasks| > 0 then tasks[0].title else UntitledQuote)
  {
    seq(|history|, i requires 0 <= i < |history| => QuoteListEntry(history[i]))
  }

  /** The review list: one item per stored review, in storage order. */
  function ReviewList(history: seq<LocalReview>): (r: seq<ReviewListItem>)
    ensures |r| == |history|
    ensures forall i :: 0 <= i < |r| ==>
      && r[i].id == history[i].id
      && r[i].createdAt == history[i].createdAt
      && r[i].findingCount == |history[i].result.findings|
      && r[i].criticalCount == Count(history[i].result.findings, IsCritical)
      && r[i].criticalCount <= r[i].findingCount
      && r[i].summary == history[i].result.summary
      && r[i].qualityScore == history[i].result.qualityScore
      && r[i].provider == history[i].result.provider
  {
    forall v | v in history
      ensures |Filter(v.result.findings, IsCritical)| == Count(v.result.findings, IsCritical)
    {
      FilterLength(v.result.findings, IsCritical);
    }
    seq(|history|, i requires 0 <= i < |history| => ReviewListEntry(history[i]))
  }

  /** A quote has the placeholder title exactly when it has no task, unless a task carries that very title. */
  lemma UntitledExactlyWhenNoTasks(q: LocalQuote)
    requires forall t :: t in q.result.breakdown.tasks ==> t.title != UntitledQuote
    ensures QuoteListEntry(q).title == UntitledQuote <==> |q.result.breakdown.tasks| == 0
  {
    if |q.result.breakdown.tasks| > 0 {
      assert q.result.breakdown.tasks[0] in q.result.breakdown.tasks;
    }
  }

  /**
   * After a save, the first list item describes the quote just saved: its id
   * and time, its first task's title (re-keying leaves titles alone), and its
   * figures.
   */
  lemma SavedQuoteHeadsTheList(
      history: seq<LocalQuote>, requirements: string, result: QuoteResponse, settings: Settings,
      quoteId: string, taskIds: seq<string>, now: int)
    requires |taskIds| == |result.breakdown.tasks|
    ensures var item := QuoteList(SaveQuote(history, requirements, result, settings, quoteId, taskIds, now))[0];
      && item.id == quoteId
      && item.createdAt == now
      && item.title == QuoteTitle(result.breakdown.tasks)
      && item.taskCount == |result.breakdown.tasks|
      && item.totalHours == result.breakdown.totalHours
      && item.totalDays == result.breakdown.totalDays
      && item.confidence == result.breakdown.confidence
      && item.provider == result.provider
  {
    var saved := SaveQuote(history, requirements, result, settings, quoteId, taskIds, now);
    var stored := saved[0].result;
    assert stored.(breakdown := stored.breakdown.(tasks := result.breakdown.tasks)) == result;
    if |result.breakdown.tasks| > 0 {
      assert stored.breakdown.tasks[0].(id := result.breakdown.tasks[0].id) == result.breakdown.tasks[0];
    }
  }

  // ---------------------------------------------------------------- combined history

  /** An entry of the merged history. */
  datatype HistoryItem = QuoteItem(quote: QuoteListItem) | ReviewItem(review: ReviewListItem) {
    function CreatedAt(): int {
      match this
      case QuoteItem(q) => q.createdAt
      case ReviewItem(v) => v.createdAt
    }
  }

  /** Sort key for newest first: the comparator subtracts the first date from the second. */
  function NewestFirst(item: HistoryItem): int {
    -item.CreatedAt()
  }

  /** The items dated `t`, in their order in `s`. */
  function AtDate(s: seq<HistoryItem>, t: int): seq<HistoryItem> {
    WithKey(s, NewestFirst, -t)
  }

  /** The quote items followed by the review items, before sorting. */
  function Unsorted(quotes: seq<LocalQuote>, reviews: seq<LocalReview>): seq<HistoryItem> {
    var q := QuoteList(quotes);
    var v := ReviewList(reviews);
    seq(|q|, i requires 0 <= i < |q| => QuoteItem(q[i])) + seq(|v|, i requires 0 <= i < |v| => ReviewItem(v[i]))
  }

  /**
   * The merged history: every quote and review item once, newest first, and
   * items of the same date in their unsorted order (quotes before reviews).
   */
  function CombinedHistory(quotes: seq<LocalQuote>, reviews: seq<LocalReview>): (r: seq<HistoryItem>)
    ensures |r| == |quotes| + |reviews|
    ensures multiset(r) == multiset(Unsorted(quotes, reviews))
    ensures forall i, j :: 0 <= i < j < |r| ==> r[j].CreatedAt() <= r[i].CreatedAt()
    ensures forall t :: AtDate(r, t) == AtDate(Unsorted(quotes, reviews), t)
  {
    var items := Unsorted(quotes, reviews);
    SortByKeyCorrect(items, NewestFirst);
    var r := SortByKey(items, NewestFirst);
    assert forall i, j :: 0 <= i < j < |r| ==> NewestFirst(r[i]) <= NewestFirst(r[j]);
    r
  }

  /** Every quote and every review shows up in the merged history. */
  lemma CombinedHistoryComplete(quotes: seq<LocalQuote>, reviews: seq<LocalReview>)
    ensures forall q :: q in quotes ==> QuoteItem(QuoteListEntry(q)) in CombinedHistory(quotes, reviews)
    ensures forall v :: v in reviews ==> ReviewItem(ReviewListEntry(v)) in CombinedHistory(quotes, reviews)
  {
    var items := Unsorted(quotes, reviews);
    var r := CombinedHistory(quotes, reviews);
    var ql := QuoteList(quotes);
    forall q | q in quotes
      ensures QuoteItem(QuoteListEntry(q)) in r
    {
      var i :| 0 <= i < |quotes| && quotes[i] == q;
      assert items[i] == QuoteItem(ql[i]);
      assert items[i] in multiset(items);
    }
    forall v | v in reviews
      ensures ReviewItem(ReviewListEntry(v)) in r
    {
      var i :| 0 <= i < |reviews| && reviews[i] == v;
      assert items[|ql| + i] == ReviewItem(ReviewList(reviews)[i]);
      assert items[|ql| + i] in multiset(items);
    }
  }
}
