/**
  The Chrome popup's batch loop. A start click asks the content tab for one range of chats after
  another; the tab reports each batch with a `batch-complete` message, whose handler keeps the
  counters: consecutive empty batches, chats scraped so far, where the next batch starts, and the
  progress total.

  Browser messaging is reduced to a script: for each batch, whether the tab was unreachable,
  whether the user stopped during the request or during the wait, and the `batch-complete`
  message that arrived during the wait, if any (none: the wait timed out).
 */
module ChromeBatches {
  import opened Wrappers

  /** The fields of a `batch-complete` message; a `totalChats` of None or 0 is falsy. */
  datatype Completion = Completion(batchNumber: int, chatCount: nat, startIndex: int, totalChats: Option<int>)

  /** The popup's module-level counters that the handler changes. */
  datatype Counters = Counters(
    isScraping: bool,
    emptyBatchCount: nat,
    totalScrapedCount: nat,
    lastStartIndex: int,
    currentStartIndex: int,
    progressCurrent: nat,
    progressTotal: int,
    isWaitingForTransfer: bool)

  /** After this many consecutive empty batches the end of the list is assumed. */
  const MaxEmptyBatches := 2
  /** The loop stops once the next start index reaches this. */
  const SafetyLimit := 1000

  /** The progress bar's total: the export count if set, else the tab's total if truthy, else the count so far. */
  function ProgressTotal(exportCount: int, totalChats: Option<int>, scraped: nat): (t: int)
    ensures exportCount > 0 ==> t == exportCount
    ensures exportCount <= 0 && totalChats.Some? && totalChats.value != 0 ==> t == totalChats.value
    ensures exportCount <= 0 && (totalChats.None? || totalChats.value == 0) ==> t == scraped
  {
    if exportCount > 0 then exportCount
    else if totalChats.Some? && totalChats.value != 0 then totalChats.value
    else scraped
  }

  /** The `batch-complete` handler's effect on the counters. */
  function OnBatch(s: Counters, exportCount: int, c: Completion): Counters {
    if c.chatCount == 0 then
      var n := s.emptyBatchCount + 1;
      s.(emptyBatchCount := n, isScraping := if n >= MaxEmptyBatches then false else s.isScraping)
    else
      var total := s.totalScrapedCount + c.chatCount;
      var next := c.startIndex + c.chatCount;
      s.(emptyBatchCount := 0, totalScrapedCount := total, lastStartIndex := next, currentStartIndex := next,
         progressCurrent := total, progressTotal := ProgressTotal(exportCount, c.totalChats, total),
         isWaitingForTransfer := true)
  }

  /** The counters after a sequence of `batch-complete` messages. */
  function RunBatches(s: Counters, exportCount: int, cs: seq<Completion>): Counters {
    if cs == [] then s else OnBatch(RunBatches(s, exportCount, cs[..|cs| - 1]), exportCount, cs[|cs| - 1])
  }

  /** The chats the messages report, added up. */
  function SumCounts(cs: seq<Completion>): nat {
    if cs == [] then 0 else SumCounts(cs[..|cs| - 1]) + cs[|cs| - 1].chatCount
  }

  /** How many of the last messages report no chats. */
  function TrailingEmpty(cs: seq<Completion>): (n: nat)
    ensures n <= |cs|
  {
    if cs == [] || cs[|cs| - 1].chatCount != 0 then 0 else TrailingEmpty(cs[..|cs| - 1]) + 1
  }

  /** Two consecutive messages that both report no chats. */
  predicate TwoEmptyInARow(cs: seq<Completion>) {
    exists k :: 0 <= k < |cs| - 1 && cs[k].chatCount == 0 && cs[k + 1].chatCount == 0
  }

  /** The scraped total grows by exactly the chats the messages report. */
  lemma {:induction false} RunTotal(s: Counters, exportCount: int, cs: seq<Completion>)
    ensures RunBatches(s, exportCount, cs).totalScrapedCount == s.totalScrapedCount + SumCounts(cs)
  {
    if cs != [] {
      RunTotal(s, exportCount, cs[..|cs| - 1]);
    }
  }

  /**
    The counter of empty batches counts the empty messages since the last non-empty one, on top
    of its starting value when there was none.
   */
  lemma {:induction false} RunEmptyCount(s: Counters, exportCount: int, cs: seq<Completion>)
    ensures RunBatches(s, exportCount, cs).emptyBatchCount ==
      if TrailingEmpty(cs) == |cs| then s.emptyBatchCount + |cs| else TrailingEmpty(cs)
  {
    if cs != [] {
      RunEmptyCount(s, exportCount, cs[..|cs| - 1]);
    }
  }

  /** After a non-empty message, the next batch starts right after the chats it reported. */
  lemma NextStartFollowsLastBatch(s: Counters, exportCount: int, cs: seq<Completion>, c: Completion)
    requires c.chatCount > 0
    ensures var r := RunBatches(s, exportCount, cs + [c]);
      r.currentStartIndex == r.lastStartIndex == c.startIndex + c.chatCount && r.emptyBatchCount == 0
  {
    assert (cs + [c])[..|cs|] == cs;
  }

  /**
    After a non-empty message the bar shows every chat scraped in the run, out of the export
    count when one is set, else out of the tab's total when it reports one; otherwise the bar is full.
   */
  lemma ProgressAfterBatch(s: Counters, exportCount: int, cs: seq<Completion>, c: Completion)
    requires c.chatCount > 0
    ensures var r := RunBatches(s, exportCount, cs + [c]);
      && r.progressCurrent == r.totalScrapedCount == s.totalScrapedCount + SumCounts(cs + [c])
      && (exportCount > 0 ==> r.progressTotal == exportCount)
      && (exportCount <= 0 && c.totalChats.Some? && c.totalChats.value != 0 ==> r.progressTotal == c.totalChats.value)
      && (exportCount <= 0 && (c.totalChats.None? || c.totalChats.value == 0) ==> r.progressTotal == r.progressCurrent)
  {
    assert (cs + [c])[..|cs|] == cs;
    RunTotal(s, exportCount, cs + [c]);
  }

  /** The handler never turns scraping back on. */
  lemma {:induction false} StaysStopped(s: Counters, exportCount: int, cs: seq<Completion>)
    requires !s.isScraping
    ensures !RunBatches(s, exportCount, cs).isScraping
  {
    if cs != [] {
      StaysStopped(s, exportCount, cs[..|cs| - 1]);
    }
  }

  /** Two empty batches in a row end the scrape, whatever follows. */
  lemma {:induction false} TwoEmptyStops(s: Counters, exportCount: int, cs: seq<Completion>)
    requires TwoEmptyInARow(cs)
    ensures !RunBatches(s, exportCount, cs).isScraping
  {
    var k :| 0 <= k < |cs| - 1 && cs[k].chatCount == 0 && cs[k + 1].chatCount == 0;
    var upTo := cs[..k + 2];
    assert upTo[..|upTo| - 1] == cs[..k + 1];
    assert cs[..k + 1][..k] == cs[..k];
    RunEmptyCount(s, exportCount, cs[..k + 1]);
    assert !RunBatches(s, exportCount, upTo).isScraping;
    RunSplit(s, exportCount, upTo, cs[k + 2..]);
    assert upTo + cs[k + 2..] == cs;
    StaysStopped(RunBatches(s, exportCount, upTo), exportCount, cs[k + 2..]);
  }

  /** Running two sequences of messages one after the other. */
  lemma {:induction false} RunSplit(s: Counters, exportCount: int, xs: seq<Completion>, ys: seq<Completion>)
    ensures RunBatches(s, exportCount, xs + ys) == RunBatches(RunBatches(s, exportCount, xs), exportCount, ys)
  {
    if ys == [] {
      assert xs + ys == xs;
    } else {
      assert (xs + ys)[..|xs + ys| - 1] == xs + ys[..|ys| - 1];
      RunSplit(s, exportCount, xs, ys[..|ys| - 1]);
    }
  }

  /** Starting from a zero counter, scraping ends only through two empty batches in a row. */
  lemma {:induction false} StopNeedsTwoEmpty(s: Counters, exportCount: int, cs: seq<Completion>)
    requires s.isScraping && s.emptyBatchCount == 0
    ensures !RunBatches(s, exportCount, cs).isScraping <==> TwoEmptyInARow(cs)
  {
    if TwoEmptyInARow(cs) {
      TwoEmptyStops(s, exportCount, cs);
    } else if cs != [] {
      var front := cs[..|cs| - 1];
      StopNeedsTwoEmpty(s, exportCount, front);
      RunEmptyCount(s, exportCount, front);
    }
  }

  // ---------------------------------------------------------------------------
  // The start click's reset, as written and as intended
  // ---------------------------------------------------------------------------

  /**
    The start click's reset as written: the loop's own `emptyBatchCount` shadows the module-level
    counter, which the handler uses and which therefore keeps its value from the previous run.
   */
  function BeginAsWritten(s: Counters, startIndex: int): Counters {
    s.(isScraping := true, totalScrapedCount := 0, currentStartIndex := startIndex)
  }

  /** The reset with the counter of empty batches cleared, as a new run evidently needs. */
  function Begin(s: Counters, startIndex: int): (r: Counters)
    ensures r.isScraping && r.emptyBatchCount == 0 && r.totalScrapedCount == 0 && r.currentStartIndex == startIndex
  {
    BeginAsWritten(s, startIndex).(emptyBatchCount := 0)
  }

  /**
    As written, a run that ended on one empty batch leaves the counter at 1, and the next run,
    when its first batch is empty, then stops after that batch, with no two empty batches in a
    row in that run.
   */
  lemma StaleEmptyCountStops(s: Counters, exportCount: int)
    ensures var empty := Completion(1, 0, 0, None);
      var ended := RunBatches(BeginAsWritten(s, 0), exportCount, [Completion(1, 3, 0, None), empty]);
      && ended.emptyBatchCount == 1
      && !TwoEmptyInARow([empty])
      && !RunBatches(BeginAsWritten(ended, 3), exportCount, [empty]).isScraping
  {
    var empty := Completion(1, 0, 0, None);
    var first := [Completion(1, 3, 0, None), empty];
    assert first[..1] == [Completion(1, 3, 0, None)];
    assert [empty][..0] == [];
  }

  /**
    As written, a counter left at 1 or more by the last run ends the next run after its first
    batch when that batch is empty; when the first batch has chats, the handler clears the
    counter and the leftover value no longer matters.
   */
  lemma LeftoverCounterFirstBatch(s: Counters, startIndex: int, exportCount: int, cs: seq<Completion>)
    requires s.emptyBatchCount >= 1 && cs != []
    ensures cs[0].chatCount == 0 ==> !RunBatches(BeginAsWritten(s, startIndex), exportCount, cs[..1]).isScraping
    ensures cs[0].chatCount > 0 ==>
      RunBatches(BeginAsWritten(s, startIndex), exportCount, cs[..1]).emptyBatchCount == 0
      && RunBatches(BeginAsWritten(s, startIndex), exportCount, cs[..1]).isScraping
  {
    assert cs[..1][..0] == [];
  }

  /** With the counter cleared at the start, a run stops on empty batches exactly when two come in a row. */
  lemma BeginStopsOnlyOnTwoEmpty(s: Counters, startIndex: int, exportCount: int, cs: seq<Completion>)
    ensures !RunBatches(Begin(s, startIndex), exportCount, cs).isScraping <==> TwoEmptyInARow(cs)
  {
    StopNeedsTwoEmpty(Begin(s, startIndex), exportCount, cs);
  }

  // ---------------------------------------------------------------------------
  // Batch sizes
  // ---------------------------------------------------------------------------

  /** A batch asks for the remaining count when that is positive and below the batch size, else the batch size. */
  function BatchSize(remaining: int, batchSize: int): (n: int)
    ensures 0 < remaining < batchSize ==> n == remaining
    ensures !(0 < remaining < batchSize) ==> n == batchSize
  {
    if remaining > 0 && remaining < batchSize then remaining else batchSize
  }

  /** The sizes asked for when every batch is answered, until the remaining count is used up. */
  function Plan(remaining: int, batchSize: int): seq<int>
    requires batchSize > 0
    decreases remaining
  {
    if remaining <= 0 then [] else [BatchSize(remaining, batchSize)] + Plan(remaining - BatchSize(remaining, batchSize), batchSize)
  }

  function Sum(xs: seq<int>): int {
    if xs == [] then 0 else xs[0] + Sum(xs[1..])
  }

  /**
    With a positive export count the planned sizes add up to exactly that count; each is positive
    and at most the batch size, and only the last one may be smaller.
   */
  lemma {:induction false} PlanCoversCount(remaining: int, batchSize: int)
    requires batchSize > 0
    ensures remaining > 0 ==> Sum(Plan(remaining, batchSize)) == remaining
    ensures forall k :: 0 <= k < |Plan(remaining, batchSize)| ==> 0 < Plan(remaining, batchSize)[k] <= batchSize
    ensures forall k :: 0 <= k < |Plan(remaining, batchSize)| - 1 ==> Plan(remaining, batchSize)[k] == batchSize
    decreases remaining
  {
    if remaining > 0 {
      var n := BatchSize(remaining, batchSize);
      PlanCoversCount(remaining - n, batchSize);
      var p := Plan(remaining, batchSize);
      assert p == [n] + Plan(remaining - n, batchSize);
      assert forall k :: 1 <= k < |p| ==> p[k] == Plan(remaining - n, batchSize)[k - 1];
      if remaining - n > 0 {
        assert n == batchSize;
      }
    }
  }

  // ---------------------------------------------------------------------------
  // The popup
  // ---------------------------------------------------------------------------

  /** One `startScraping` request of the loop. */
  datatype BatchRequest = BatchRequest(startIndex: int, count: int, batchNumber: nat)

  /** What happened around one batch. */
  datatype BatchStep = BatchStep(unreachable: bool, stopDuringSend: bool, completion: Option<Completion>, stopDuringWait: bool)

  /** `parseInt(x) || d`: NaN (None) and 0 fall back to `d`. */
  function OrElse(x: Option<int>, d: int): (r: int)
    ensures r == d || (x.Some? && r == x.value && r != 0)
  {
    if x.Some? && x.value != 0 then x.value else d
  }

  function Counts(requests: seq<BatchRequest>): seq<int> {
    seq(|requests|, k requires 0 <= k < |requests| => requests[k].count)
  }

  /** The stop click's effect when the tab accepts the stop: scraping ends and the next run resumes here. */
  function Stopped(s: Counters): (r: Counters)
    ensures !r.isScraping
    ensures s.isScraping ==> r.lastStartIndex == s.currentStartIndex
    ensures r.(isScraping := s.isScraping, lastStartIndex := s.lastStartIndex) == s
  {
    if s.isScraping then s.(isScraping := false, lastStartIndex := s.currentStartIndex) else s
  }

  /** Whether the `batch-complete` message of a step reaches the handler: the tab answered and scraping went on. */
  predicate Handles(s: Counters, step: BatchStep) {
    !step.unreachable && !step.stopDuringSend && s.isScraping && step.completion.Some?
  }

  /**
    The counters after one batch: the transfer flag is cleared before the request; then, when
    the tab answered, a stop during the request, the handler while still scraping, and a stop
    during the wait, in that order.
   */
  function AfterStep(s: Counters, exportCount: int, step: BatchStep): Counters {
    var sent := s.(isWaitingForTransfer := false);
    if step.unreachable then sent
    else
      var asked := if step.stopDuringSend then Stopped(sent) else sent;
      if !asked.isScraping then asked
      else
        var handled := if step.completion.Some? then OnBatch(asked, exportCount, step.completion.value) else asked;
        if step.stopDuringWait then Stopped(handled) else handled
  }

  /** The counters after a sequence of batches. */
  function RunSteps(s: Counters, exportCount: int, steps: seq<BatchStep>): Counters {
    if steps == [] then s else AfterStep(RunSteps(s, exportCount, steps[..|steps| - 1]), exportCount, steps[|steps| - 1])
  }

  /** One more batch of a script. */
  lemma RunStepsNext(s: Counters, exportCount: int, steps: seq<BatchStep>, i: nat)
    requires i < |steps|
    ensures RunSteps(s, exportCount, steps[..i + 1]) == AfterStep(RunSteps(s, exportCount, steps[..i]), exportCount, steps[i])
  {
    assert steps[..i + 1][..i] == steps[..i];
  }

  /** The `batch-complete` messages the handler saw during a sequence of batches, in order. */
  function HandledIn(s: Counters, exportCount: int, steps: seq<BatchStep>): (cs: seq<Completion>)
    ensures |cs| <= |steps|
  {
    if steps == [] then []
    else
      var front := steps[..|steps| - 1];
      var step := steps[|steps| - 1];
      var before := RunSteps(s, exportCount, front);
      HandledIn(s, exportCount, front) + (if Handles(before, step) then [step.completion.value] else [])
  }

  /** Where the next batch starts: right after a non-empty batch's chats, else where this one started. */
  function NextStart(step: BatchStep, current: int): int {
    if step.completion.Some? && step.completion.value.chatCount > 0 then
      step.completion.value.startIndex + step.completion.value.chatCount
    else current
  }

  /**
    A batch the tab answered and after which scraping goes on saw its message handled, if one
    came, and no stop; the next batch then starts right after a non-empty batch's chats, and
    otherwise where this one did.
   */
  lemma GoingOnAfterStep(s: Counters, exportCount: int, step: BatchStep)
    requires !step.unreachable && AfterStep(s, exportCount, step).isScraping
    ensures !step.stopDuringSend && !step.stopDuringWait && s.isScraping
    ensures step.completion.Some? ==> Handles(s, step)
    ensures AfterStep(s, exportCount, step).currentStartIndex == NextStart(step, s.currentStartIndex)
  {
  }

  /** Only the handler moves the scraped total: a step adds the chats of the message it handled. */
  lemma StepTotal(s: Counters, exportCount: int, step: BatchStep)
    ensures AfterStep(s, exportCount, step).totalScrapedCount ==
      s.totalScrapedCount + (if Handles(s, step) then step.completion.value.chatCount else 0)
  {
  }

  /** Over a run of batches, the scraped total grows by exactly the chats of the handled messages. */
  lemma {:induction false} StepsTotal(s: Counters, exportCount: int, steps: seq<BatchStep>)
    ensures RunSteps(s, exportCount, steps).totalScrapedCount == s.totalScrapedCount + SumCounts(HandledIn(s, exportCount, steps))
  {
    if steps != [] {
      var front := steps[..|steps| - 1];
      var step := steps[|steps| - 1];
      var before := RunSteps(s, exportCount, front);
      var cs := HandledIn(s, exportCount, front);
      StepsTotal(s, exportCount, front);
      StepTotal(before, exportCount, step);
      if Handles(before, step) {
        assert (cs + [step.completion.value])[..|cs|] == cs;
      } else {
        assert cs + [] == cs;
      }
    }
  }

  class ChromePopup {
    var isScraping: bool
    var emptyBatchCount: nat
    var totalScrapedCount: nat
    var lastStartIndex: int
    var currentStartIndex: int
    var exportCount: int
    var progressCurrent: nat
    var progressTotal: int
    var isWaitingForTransfer: bool
    /** Whether `pendingBatchResolve` is set. */
    var batchResolverPending: bool

    function State(): Counters
      reads this
    {
      Counters(isScraping, emptyBatchCount, totalScrapedCount, lastStartIndex, currentStartIndex,
               progressCurrent, progressTotal, isWaitingForTransfer)
    }

    constructor ()
      ensures State() == Counters(false, 0, 0, 0, 0, 0, 0, false)
      ensures exportCount == 0 && !batchResolverPending
    {
      isScraping, emptyBatchCount, totalScrapedCount, lastStartIndex, currentStartIndex := false, 0, 0, 0, 0;
      exportCount, progressCurrent, progressTotal, isWaitingForTransfer, batchResolverPending := 0, 0, 0, false, false;
    }

    /** The `batch-complete` handler; it also releases a pending batch wait. */
    method HandleBatchComplete(c: Completion)
      modifies this
      ensures State() == OnBatch(old(State()), exportCount, c)
      ensures exportCount == old(exportCount) && !batchResolverPending
    {
      if c.chatCount == 0 {
        emptyBatchCount := emptyBatchCount + 1;
        if emptyBatchCount >= MaxEmptyBatches {
          isScraping := false;
        }
      } else {
        emptyBatchCount := 0;
        totalScrapedCount := totalScrapedCount + c.chatCount;
        lastStartIndex := c.startIndex + c.chatCount;
        currentStartIndex := lastStartIndex;
        progressCurrent := totalScrapedCount;
        progressTotal := ProgressTotal(exportCount, c.totalChats, totalScrapedCount);
        isWaitingForTransfer := true;
      }
      batchResolverPending := false;
    }

    /** The stop click, when the tab accepts the stop: scraping ends and the next run resumes here. */
    method StopClick()
      modifies this
      ensures old(isScraping) ==> State() == old(State()).(isScraping := false, lastStartIndex := old(currentStartIndex))
      ensures !old(isScraping) ==> State() == old(State())
      ensures State() == Stopped(old(State()))
      ensures exportCount == old(exportCount) && batchResolverPending == old(batchResolverPending)
    {
      if !isScraping {
        return;
      }
      isScraping := false;
      lastStartIndex := currentStartIndex;
    }

    /**
      One batch of the start loop after its request: the tab may be unreachable, the user may
      stop, a `batch-complete` may arrive during the wait. Whether the loop goes on: only while
      scraping and below the safety limit.
     */
    method AwaitBatch(step: BatchStep) returns (proceed: bool)
      modifies this
      ensures exportCount == old(exportCount)
      ensures proceed ==> isScraping && currentStartIndex < SafetyLimit
      ensures proceed <==> !step.unreachable && isScraping && currentStartIndex < SafetyLimit
      ensures step.unreachable ==> State() == old(State()).(isWaitingForTransfer := false)
      ensures State() == AfterStep(old(State()), exportCount, step)
      ensures step.completion.Some? && step.completion.value.chatCount == 0 && old(emptyBatchCount) + 1 >= MaxEmptyBatches ==> !proceed
    {
      isWaitingForTransfer := false;
      if step.unreachable {
        return false;
      }
      if step.stopDuringSend {
        StopClick();
      }
      if !isScraping {
        return false;
      }
      batchResolverPending := true;
      if step.completion.Some? {
        HandleBatchComplete(step.completion.value);
      } else {
        batchResolverPending := false;
      }
      if step.stopDuringWait {
        StopClick();
      }
      proceed := isScraping && currentStartIndex < SafetyLimit;
    }

    /**
      The start click. The inputs are the parsed export count, batch size and start index (None:
      not a number). Returns the requests sent to the tab, one per batch.
     */
    method StartClick(countInput: Option<int>, sizeInput: Option<int>, startInput: Option<int>, steps: seq<BatchStep>)
      returns (requests: seq<BatchRequest>)
      modifies this
      ensures old(isScraping) ==> requests == [] && State() == old(State()) && exportCount == old(exportCount)
      ensures !old(isScraping) ==> !isScraping && exportCount == OrElse(countInput, 0)
      ensures !old(isScraping) && requests != [] ==>
        requests[0].startIndex == OrElse(startInput, OrElse(Some(old(lastStartIndex)), 0))
      ensures |requests| <= |steps|
      ensures forall k :: 0 <= k < |requests| ==> requests[k].batchNumber == k + 1
      ensures forall k :: 0 < k < |requests| ==> requests[k].startIndex < SafetyLimit
      ensures forall k :: 0 < k < |requests| ==> requests[k].startIndex == NextStart(steps[k - 1], requests[k - 1].startIndex)
      ensures !old(isScraping) && exportCount <= 0 ==> forall k :: 0 <= k < |requests| ==> requests[k].count == OrElse(sizeInput, 2)
      ensures !old(isScraping) && exportCount > 0 && OrElse(sizeInput, 2) > 0 ==>
        Counts(requests) <= Plan(exportCount, OrElse(sizeInput, 2))
      ensures (!old(isScraping) && old(emptyBatchCount) + 1 >= MaxEmptyBatches && steps != []
               && steps[0].completion.Some? && steps[0].completion.value.chatCount == 0) ==> |requests| == 1
      ensures !old(isScraping) ==>
        var start := BeginAsWritten(old(State()), OrElse(startInput, OrElse(Some(old(lastStartIndex)), 0)));
        && State() == RunSteps(start, exportCount, steps[..|requests|]).(isScraping := false)
        && totalScrapedCount == SumCounts(HandledIn(start, exportCount, steps[..|requests|]))
    {
      requests := [];
      if isScraping {
        return;
      }
      isScraping := true;
      totalScrapedCount := 0;
      exportCount := OrElse(countInput, 0);
      var batchSize := OrElse(sizeInput, 2);
      currentStartIndex := OrElse(startInput, OrElse(Some(lastStartIndex), 0));
      ghost var first := currentStartIndex;
      ghost var start := State();
      assert start == BeginAsWritten(old(State()), first);
      requests := ScrapeLoop(batchSize, steps);
      RequestsOkMeans(requests, steps, first, batchSize, exportCount);
      StepsTotal(start, exportCount, steps[..|requests|]);
      ghost var ended := State();
      isScraping := false;
      assert State() == ended.(isScraping := false);
    }

    /**
      The start click's loop, from the reset counters: one request per batch, each where the
      previous batch left the start index and sized by the batch rule, until a batch after which
      the loop does not go on, the count is used up or the script runs out.
     */
    method ScrapeLoop(batchSize: int, steps: seq<BatchStep>) returns (requests: seq<BatchRequest>)
      requires isScraping
      modifies this
      ensures exportCount == old(exportCount)
      ensures RequestsOk(requests, steps, old(currentStartIndex), batchSize, exportCount)
      ensures exportCount > 0 && batchSize > 0 ==> Counts(requests) <= Plan(exportCount, batchSize)
      ensures (old(emptyBatchCount) + 1 >= MaxEmptyBatches && steps != []
               && steps[0].completion.Some? && steps[0].completion.value.chatCount == 0) ==> |requests| == 1
      ensures State() == RunSteps(old(State()), exportCount, steps[..|requests|])
    {
      requests := [];
      ghost var first := currentStartIndex;
      ghost var start := State();
      ghost var stale := old(emptyBatchCount) + 1 >= MaxEmptyBatches && steps != []
        && steps[0].completion.Some? && steps[0].completion.value.chatCount == 0;
      var remainingCount := exportCount;
      var batchNum := 0;
      var i := 0;
      ghost var planned := exportCount > 0 && batchSize > 0;
      while isScraping
        invariant 0 <= i <= |steps| && |requests| == i && batchNum == i
        invariant exportCount == old(exportCount)
        invariant Sent(requests, steps, first, batchSize, exportCount, remainingCount)
        invariant requests != [] ==> currentStartIndex < SafetyLimit
        invariant currentStartIndex == Upcoming(requests, steps, first)
        invariant planned ==> remainingCount > 0
        invariant State() == RunSteps(start, exportCount, steps[..i])
        invariant stale ==> i == 0
        decreases |steps| - i
      {
        if i == |steps| {
          break;
        }
        batchNum := batchNum + 1;
        var thisBatchSize := BatchSize(remainingCount, batchSize);
        var request := BatchRequest(currentStartIndex, thisBatchSize, batchNum);
        ghost var rest := if remainingCount > 0 then remainingCount - thisBatchSize else remainingCount;
        SentNext(requests, steps, first, batchSize, exportCount, remainingCount, request, rest);
        requests := requests + [request];
        var proceed := AwaitInRun(start, steps, i);
        i := i + 1;
        if !proceed {
          break;
        }
        if remainingCount > 0 {
          remainingCount := remainingCount - thisBatchSize;
          if remainingCount <= 0 {
            break;
          }
        }
        assert remainingCount == rest;
      }
    }

    /**
      Batch `i` of a run that started from `start`: the counters move as the script's batches
      say, and when the loop goes on the next batch starts where this one left the start index.
     */
    method AwaitInRun(ghost start: Counters, steps: seq<BatchStep>, i: nat) returns (proceed: bool)
      requires i < |steps| && State() == RunSteps(start, exportCount, steps[..i])
      modifies this
      ensures exportCount == old(exportCount)
      ensures State() == RunSteps(start, exportCount, steps[..i + 1])
      ensures proceed ==> currentStartIndex < SafetyLimit && currentStartIndex == NextStart(steps[i], old(currentStartIndex))
      ensures (i == 0 && start.emptyBatchCount + 1 >= MaxEmptyBatches
               && steps[0].completion.Some? && steps[0].completion.value.chatCount == 0) ==> !proceed
    {
      ghost var last := State();
      assert i == 0 ==> last == start by {
        if i == 0 {
          assert steps[..i] == [];
        }
      }
      proceed := AwaitBatch(steps[i]);
      RunStepsNext(start, exportCount, steps, i);
      if proceed {
        GoingOnAfterStep(last, exportCount, steps[i]);
      }
    }
  }

  /** Where the request after `rs` starts: at `first`, else after the last batch as `NextStart` says. */
  function Upcoming(rs: seq<BatchRequest>, steps: seq<BatchStep>, first: int): int
    requires |rs| <= |steps|
  {
    if rs == [] then first else NextStart(steps[|rs| - 1], rs[|rs| - 1].startIndex)
  }

  /**
    The requests of one run, one per step so far: numbered from 1, the first at `first`, each
    later one where the previous batch left the start index and below the safety limit, and
    all of the batch size when no export count is set.
   */
  predicate RequestsOk(rs: seq<BatchRequest>, steps: seq<BatchStep>, first: int, batchSize: int, exportCount: int) {
    && |rs| <= |steps|
    && (forall k :: 0 <= k < |rs| ==> rs[k].batchNumber == k + 1)
    && (forall k :: 0 < k < |rs| ==> rs[k].startIndex < SafetyLimit)
    && (rs != [] ==> rs[0].startIndex == first)
    && (forall k {:trigger steps[k]} :: 0 <= k < |rs| - 1 ==> rs[k + 1].startIndex == NextStart(steps[k], rs[k].startIndex))
    && (exportCount <= 0 ==> forall k :: 0 <= k < |rs| ==> rs[k].count == batchSize)
  }

  /** The chain of start indices, one batch after the other. */
  lemma RequestsOkMeans(rs: seq<BatchRequest>, steps: seq<BatchStep>, first: int, batchSize: int, exportCount: int)
    requires RequestsOk(rs, steps, first, batchSize, exportCount)
    ensures forall k :: 0 < k < |rs| ==> rs[k].startIndex == NextStart(steps[k - 1], rs[k - 1].startIndex)
  {
    forall k | 0 < k < |rs|
      ensures rs[k].startIndex == NextStart(steps[k - 1], rs[k - 1].startIndex)
    {
      assert 0 <= k - 1 < |rs| - 1;
      assert steps[k - 1] == steps[k - 1];
    }
  }

  /**
    The loop's bookkeeping: the requests so far, the count still to fetch when an export count
    is set, and the sizes sent so far followed by the rest of the plan making up the whole plan.
   */
  predicate Sent(rs: seq<BatchRequest>, steps: seq<BatchStep>, first: int, batchSize: int, exportCount: int, remaining: int) {
    && RequestsOk(rs, steps, first, batchSize, exportCount)
    && (exportCount <= 0 ==> remaining == exportCount)
    && (exportCount > 0 && batchSize > 0 ==>
          Counts(rs) + Plan(remaining, batchSize) == Plan(exportCount, batchSize) && Counts(rs) <= Plan(exportCount, batchSize))
  }

  /** Sending the next request, where the previous batch left the start index, and counting it off. */
  lemma SentNext(rs: seq<BatchRequest>, steps: seq<BatchStep>, first: int, batchSize: int, exportCount: int,
                 remaining: int, r: BatchRequest, rest: int)
    requires Sent(rs, steps, first, batchSize, exportCount, remaining)
    requires |rs| < |steps|
    requires rs != [] ==> Upcoming(rs, steps, first) < SafetyLimit
    requires exportCount > 0 && batchSize > 0 ==> remaining > 0
    requires r == BatchRequest(Upcoming(rs, steps, first), BatchSize(remaining, batchSize), |rs| + 1)
    requires rest == if remaining > 0 then remaining - r.count else remaining
    ensures Sent(rs + [r], steps, first, batchSize, exportCount, rest)
  {
    RequestsOkAppend(rs, steps, r, first, batchSize, exportCount);
    CountsAppend(rs, r);
    if exportCount > 0 && batchSize > 0 {
      PlanStep(Counts(rs), remaining, batchSize, Plan(exportCount, batchSize));
    }
  }

  lemma RequestsOkAppend(rs: seq<BatchRequest>, steps: seq<BatchStep>, r: BatchRequest, first: int, batchSize: int, exportCount: int)
    requires RequestsOk(rs, steps, first, batchSize, exportCount)
    requires |rs| < |steps|
    requires r.batchNumber == |rs| + 1
    requires rs != [] ==> r.startIndex < SafetyLimit
    requires r.startIndex == Upcoming(rs, steps, first)
    requires exportCount <= 0 ==> r.count == batchSize
    ensures RequestsOk(rs + [r], steps, first, batchSize, exportCount)
  {
  }

  lemma CountsAppend(rs: seq<BatchRequest>, r: BatchRequest)
    ensures Counts(rs + [r]) == Counts(rs) + [r.count]
  {
  }

  /** One more batch as planned: the sizes sent so far stay a prefix of the plan. */
  lemma PlanStep(sent: seq<int>, remaining: int, batchSize: int, whole: seq<int>)
    requires batchSize > 0 && remaining > 0
    requires sent + Plan(remaining, batchSize) == whole
    ensures var n := BatchSize(remaining, batchSize);
      (sent + [n]) + Plan(remaining - n, batchSize) == whole && sent + [n] <= whole
  {
    var n := BatchSize(remaining, batchSize);
    assert Plan(remaining, batchSize) == [n] + Plan(remaining - n, batchSize);
    assert (sent + [n]) + Plan(remaining - n, batchSize) == sent + ([n] + Plan(remaining - n, batchSize));
  }
}
