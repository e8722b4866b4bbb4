/**
  The Firefox popup's two batch loops.

  The start loop asks the content script for one range of chats after another, packages each
  non-empty answer into an archive (`Packaging.PackageBatch`) and moves on by the number of
  chats it got back, until the list ends, the export count is used up, the stop button is
  pressed or the start index reaches the safety limit. The replies are a parameter: `steps(k)`
  is what happens during batch k (the content script's reply, whether the stop button was
  pressed while the loop slept, and the clock and file-name stamps used by packaging).

  The export loop asks again for every listed batch, reading its start index back from the
  archive name, tags every chat with the number of chats exported before its batch plus one,
  and records the 1-based numbers of the batches that failed.
 */
module FirefoxBatches {
  import opened Wrappers
  import opened Text
  import Filenames
  import Transfer
  import Packaging
  import ChromeBatches
  import PopupUi

  // ---------------------------------------------------------------------------
  // The start loop
  // ---------------------------------------------------------------------------

  /** The content script's reply to `startScraping`; an exception while sending is Unreachable. */
  datatype Reply = Unreachable | Refused(error: Option<string>) | Scraped(chats: seq<Packaging.Chat>)

  /** What happens during one batch: the reply, a stop click during the pause, and the clock. */
  datatype Step = Step(reply: Reply, stopClicked: bool, now: string)

  /** The error text of a range past the end of the chat list. */
  const OutOfRange := "超出范围"

  /** The statuses the popup shows; `Name` is the key it passes to updateStatus. */
  datatype RunStatus = Idle | Scraping | Stopped | Completed | Error

  function Name(s: RunStatus): string {
    match s
    case Idle => "idle"
    case Scraping => "scraping"
    case Stopped => "stopped"
    case Completed => "completed"
    case Error => "error"
  }

  /**
    What updateStatus shows for a run status: the stop button only while scraping, the start
    button at any other time, and the error style exactly for an error.
   */
  lemma StatusView(s: RunStatus, message: Option<string>, scrapedCount: nat, isScraping: bool)
    ensures var v := PopupUi.UpdateStatus(Name(s), message, scrapedCount, isScraping);
      && (v.stopDisabled <==> s != Scraping)
      && (v.startDisabled <==> s == Scraping)
      && (v.status.cssClass == "status-error" <==> s == Error)
  {
  }

  /** How many chats a reply delivered. */
  function Returned(r: Reply): nat {
    if r.Scraped? then |r.chats| else 0
  }

  /** The reply carries chats to package. */
  predicate Packs(r: Reply) {
    r.Scraped? && r.chats != []
  }

  /** A refusal that means the list has ended. */
  predicate EndOfList(r: Reply) {
    r.Refused? && r.error.Some? && Contains(r.error.value, OutOfRange)
  }

  // The spec functions below describe the first n batches of a run, `steps(0)` to `steps(n - 1)`.

  /** Batch k of a run. */
  function Batch(steps: nat -> Step, k: nat): Step {
    steps(k)
  }

  /** The chats delivered by the first n batches. */
  function Done(steps: nat -> Step, n: nat): nat {
    if n == 0 then 0 else Done(steps, n - 1) + Returned(steps(n - 1).reply)
  }

  /** `remainingCount` after n batches: only a positive export count is counted down. */
  function Remaining(exportCount: int, steps: nat -> Step, n: nat): int {
    if exportCount > 0 then exportCount - Done(steps, n) else exportCount
  }

  /** After `step`, which follows batches that delivered `done` chats, the export count is used up. */
  predicate Exhausted(exportCount: int, done: int, step: Step) {
    exportCount > 0 && done + Returned(step.reply) >= exportCount
  }

  /** `step` packaged chats and the stop click during its pause ended the run. */
  predicate StoppedAt(exportCount: int, done: int, step: Step) {
    Packs(step.reply) && !Exhausted(exportCount, done, step) && step.stopClicked
  }

  /** After `step`, which follows batches that delivered `done` chats, the loop asks for another batch. */
  predicate Continues(exportCount: int, first: int, done: int, step: Step) {
    && Packs(step.reply)
    && !Exhausted(exportCount, done, step)
    && !step.stopClicked
    && first + done + Returned(step.reply) < ChromeBatches.SafetyLimit
  }

  /** Each of the first n batches let the loop go on. */
  predicate AllContinue(exportCount: int, first: int, steps: nat -> Step, n: nat) {
    n == 0 || (AllContinue(exportCount, first, steps, n - 1) && Continues(exportCount, first, Done(steps, n - 1), steps(n - 1)))
  }

  /** The status the run ends in when `step` is its last batch. */
  function EndStatus(exportCount: int, done: int, step: Step): RunStatus {
    var r := step.reply;
    if r.Unreachable? || (r.Refused? && !EndOfList(r)) then Error
    else if StoppedAt(exportCount, done, step) then Stopped
    else Completed
  }

  /** A batch that packaged chats: where it started, its chats, and the clock when it was packaged. */
  datatype Packing = Packing(start: int, chats: seq<Packaging.Chat>, now: string)

  /** The download entry packaging adds for a batch. */
  function Info(p: Packing): Transfer.BatchInfo {
    Transfer.BatchInfo(
      Filenames.BatchFilename(p.start, |p.chats|, Filenames.Timestamp(p.now)),
      |p.chats|, Packaging.ImageTotal(p.chats), p.now)
  }

  /** `f` applied to each element, in order. */
  function Map<A, B>(xs: seq<A>, f: A -> B): (r: seq<B>)
    ensures |r| == |xs| && forall k :: 0 <= k < |xs| ==> r[k] == f(xs[k])
  {
    seq(|xs|, k requires 0 <= k < |xs| => f(xs[k]))
  }

  lemma MapAppend<A, B>(a: seq<A>, b: seq<A>, f: A -> B)
    ensures Map(a + b, f) == Map(a, f) + Map(b, f)
  {
    var whole, parts := Map(a + b, f), Map(a, f) + Map(b, f);
    forall k | 0 <= k < |whole|
      ensures whole[k] == parts[k]
    {
      if k < |a| {
        assert (a + b)[k] == a[k];
      } else {
        assert (a + b)[k] == b[k - |a|];
      }
    }
  }

  /** The download entries of packaged batches, in the same order. */
  function Entries(ps: seq<Packing>): seq<Transfer.BatchInfo> {
    Map(ps, Info)
  }

  /** The packing of a batch that started at `start`, if it delivered chats. */
  function Packed(start: int, step: Step): seq<Packing> {
    if Packs(step.reply) then [Packing(start, step.reply.chats, step.now)] else []
  }

  /** The packings of the first n batches, newest first. */
  function Packings(first: int, steps: nat -> Step, n: nat): seq<Packing> {
    if n == 0 then []
    else Packed(first + Done(steps, n - 1), steps(n - 1)) + Packings(first, steps, n - 1)
  }

  /** The downloads list after n batches: their entries, newest first, in front of `base`. */
  function Listed(first: int, steps: nat -> Step, n: nat, base: seq<Transfer.BatchInfo>): seq<Transfer.BatchInfo> {
    Entries(Packings(first, steps, n)) + base
  }

  /** The entries of two runs of packings, one after the other. */
  lemma EntriesAppend(a: seq<Packing>, b: seq<Packing>)
    ensures Entries(a + b) == Entries(a) + Entries(b)
  {
    MapAppend(a, b, Info);
  }

  /** The entry list of one packing. */
  lemma EntriesOne(p: Packing)
    ensures Entries([p]) == [Info(p)]
  {
    assert Entries([p])[0] == Info(p);
  }

  /** `lastStartIndex` after n batches: the end of the last batch that packaged chats. */
  function LastStart(before: int, first: int, steps: nat -> Step, n: nat): int {
    if n == 0 then before
    else if Packs(steps(n - 1).reply) then first + Done(steps, n)
    else LastStart(before, first, steps, n - 1)
  }

  /** `totalChatsCount` after n batches: the largest end of a batch that packaged chats. */
  function MaxEnd(first: int, steps: nat -> Step, n: nat): int {
    if n == 0 then 0
    else if Packs(steps(n - 1).reply) then Max(MaxEnd(first, steps, n - 1), first + Done(steps, n))
    else MaxEnd(first, steps, n - 1)
  }

  /** The running maximum of the end indices, which only grow. */
  lemma MaxGrows(a: int, b: int)
    requires a < b
    ensures Max(Max(0, a), b) == Max(0, b)
  {
  }

  /** While every batch goes on, the largest end is the current one (the ends only grow). */
  lemma {:induction false} MaxEndContinuing(exportCount: int, first: int, steps: nat -> Step, n: nat)
    requires AllContinue(exportCount, first, steps, n)
    ensures MaxEnd(first, steps, n) == if n == 0 then 0 else Max(0, first + Done(steps, n))
  {
    if n > 0 {
      MaxEndContinuing(exportCount, first, steps, n - 1);
      if n > 1 {
        MaxGrows(first + Done(steps, n - 1), first + Done(steps, n));
      }
    }
  }

  /** Only the first batch was asked for and it delivered nothing (or nothing was asked yet). */
  predicate NothingPackaged(steps: nat -> Step, n: nat) {
    n == 0 || (n == 1 && !Packs(steps(0).reply))
  }

  /** Batch n - 1 is the one that ends the loop: every batch before it let the loop go on. */
  predicate Stops(exportCount: int, first: int, steps: nat -> Step, n: nat)
    requires n > 0
  {
    AllContinue(exportCount, first, steps, n - 1) && !Continues(exportCount, first, Done(steps, n - 1), steps(n - 1))
  }

  /** The status a run of n batches ends in. */
  function FinalStatus(exportCount: int, steps: nat -> Step, n: nat): RunStatus
    requires n > 0
  {
    EndStatus(exportCount, Done(steps, n - 1), steps(n - 1))
  }

  /**
    The run is over after n batches, `failed` tells whether it ended in an error, and otherwise
    `scraping` is still set unless a stop click ended it.
   */
  predicate RunEnded(exportCount: int, first: int, steps: nat -> Step, n: nat, failed: bool, scraping: bool)
    requires n > 0
  {
    && Stops(exportCount, first, steps, n)
    && (failed <==> FinalStatus(exportCount, steps, n) == Error)
    && (!failed ==> (scraping <==> !StoppedAt(exportCount, Done(steps, n - 1), steps(n - 1))))
  }

  /** What batch n adds to the spec functions of the first n batches. */
  lemma Advance(before: int, first: int, steps: nat -> Step, n: nat)
    ensures Done(steps, n + 1) == Done(steps, n) + Returned(Batch(steps, n).reply)
    ensures LastStart(before, first, steps, n + 1)
      == if Packs(Batch(steps, n).reply) then first + Done(steps, n + 1) else LastStart(before, first, steps, n)
    ensures MaxEnd(first, steps, n + 1)
      == if Packs(Batch(steps, n).reply) then Max(MaxEnd(first, steps, n), first + Done(steps, n + 1)) else MaxEnd(first, steps, n)
  {
  }

  /** The downloads after batch n are its entry in front of those after the batches before. */
  lemma ListedNext(first: int, steps: nat -> Step, n: nat, base: seq<Transfer.BatchInfo>, listed: seq<Transfer.BatchInfo>, listed': seq<Transfer.BatchInfo>)
    requires listed == Listed(first, steps, n, base)
    requires listed' == Entries(Packed(first + Done(steps, n), Batch(steps, n))) + listed
    ensures listed' == Listed(first, steps, n + 1, base)
  {
    EntriesAppend(Packed(first + Done(steps, n), Batch(steps, n)), Packings(first, steps, n));
  }

  /** Batch n lets the loop go on after batches that all did. */
  lemma GoesOn(exportCount: int, first: int, steps: nat -> Step, n: nat)
    requires AllContinue(exportCount, first, steps, n)
    requires Continues(exportCount, first, Done(steps, n), Batch(steps, n))
    ensures AllContinue(exportCount, first, steps, n + 1)
  {
  }

  /** Batch n ends the run after batches that all let the loop go on. */
  lemma EndsAt(exportCount: int, first: int, steps: nat -> Step, n: nat, failed: bool, scraping: bool)
    requires AllContinue(exportCount, first, steps, n)
    requires !Continues(exportCount, first, Done(steps, n), Batch(steps, n))
    requires failed <==> EndStatus(exportCount, Done(steps, n), Batch(steps, n)) == Error
    requires !failed ==> (scraping <==> !StoppedAt(exportCount, Done(steps, n), Batch(steps, n)))
    ensures RunEnded(exportCount, first, steps, n + 1, failed, scraping)
  {
  }

  /** The request for batch n follows the requests of the batches before it. */
  lemma RequestNext(requests: seq<ChromeBatches.BatchRequest>, exportCount: int, batchSize: int, first: int, steps: nat -> Step, n: nat)
    requires RequestsAre(requests, exportCount, batchSize, first, steps, n)
    ensures RequestsAre(requests + [Request(exportCount, batchSize, first, steps, n)], exportCount, batchSize, first, steps, n + 1)
  {
  }

  /**
    When a run ends, `lastStartIndex` is where the delivered chats end, unless the first batch
    already delivered nothing, which leaves it where it was.
   */
  lemma LastStartAfterRun(before: int, exportCount: int, first: int, steps: nat -> Step, n: nat)
    requires n > 0 && AllContinue(exportCount, first, steps, n - 1)
    ensures LastStart(before, first, steps, n) == if NothingPackaged(steps, n) then before else first + Done(steps, n)
  {
    if !Packs(steps(n - 1).reply) && n > 1 {
      assert Packs(steps(n - 2).reply);
    }
  }

  /** When a run ends, `totalChatsCount` is where the delivered chats end (never below 0). */
  lemma MaxEndAfterRun(exportCount: int, first: int, steps: nat -> Step, n: nat)
    requires n > 0 && AllContinue(exportCount, first, steps, n - 1)
    ensures MaxEnd(first, steps, n) == if NothingPackaged(steps, n) then 0 else Max(0, first + Done(steps, n))
  {
    MaxEndContinuing(exportCount, first, steps, n - 1);
    if Packs(steps(n - 1).reply) && n > 1 {
      MaxGrows(first + Done(steps, n - 1), first + Done(steps, n));
    }
  }

  /** The request of the batch that follows the first n. */
  function Request(exportCount: int, batchSize: int, first: int, steps: nat -> Step, n: nat): ChromeBatches.BatchRequest {
    ChromeBatches.BatchRequest(first + Done(steps, n), ChromeBatches.BatchSize(Remaining(exportCount, steps, n), batchSize), n + 1)
  }

  /** The requests of the first n batches. */
  predicate RequestsAre(requests: seq<ChromeBatches.BatchRequest>, exportCount: int, batchSize: int, first: int, steps: nat -> Step, n: nat) {
    |requests| == n && forall k :: 0 <= k < n ==> requests[k] == Request(exportCount, batchSize, first, steps, k)
  }

  /**
    The counters the start loop keeps after n batches: the requests for them, the delivered
    count, the downloads, the last start index and the largest end.
   */
  predicate Tracked(exportCount: int, batchSize: int, first: int, lastBefore: int, listedBefore: seq<Transfer.BatchInfo>,
                    steps: nat -> Step, n: nat, requests: seq<ChromeBatches.BatchRequest>,
                    done: nat, listed: seq<Transfer.BatchInfo>, last: int, maxEnd: int)
  {
    && RequestsAre(requests, exportCount, batchSize, first, steps, n)
    && done == Done(steps, n)
    && listed == Listed(first, steps, n, listedBefore)
    && last == LastStart(lastBefore, first, steps, n)
    && maxEnd == MaxEnd(first, steps, n)
  }

  /** Handling batch n as the loop body does keeps the counters in step with the spec functions. */
  lemma TrackedNext(exportCount: int, batchSize: int, first: int, lastBefore: int, listedBefore: seq<Transfer.BatchInfo>,
                    steps: nat -> Step, n: nat, requests: seq<ChromeBatches.BatchRequest>,
                    listed: seq<Transfer.BatchInfo>, last: int, maxEnd: int,
                    done': nat, listed': seq<Transfer.BatchInfo>, last': int, maxEnd': int)
    requires Tracked(exportCount, batchSize, first, lastBefore, listedBefore, steps, n, requests, Done(steps, n), listed, last, maxEnd)
    requires done' == Done(steps, n) + Returned(Batch(steps, n).reply)
    requires listed' == Entries(Packed(first + Done(steps, n), Batch(steps, n))) + listed
    requires last' == if Packs(Batch(steps, n).reply) then first + done' else last
    requires maxEnd' == if Packs(Batch(steps, n).reply) then Max(maxEnd, first + done') else maxEnd
    ensures Tracked(exportCount, batchSize, first, lastBefore, listedBefore, steps, n + 1,
                    requests + [Request(exportCount, batchSize, first, steps, n)], done', listed', last', maxEnd')
  {
    RequestNext(requests, exportCount, batchSize, first, steps, n);
    Advance(lastBefore, first, steps, n);
    ListedNext(first, steps, n, listedBefore, listed, listed');
  }

  /**
    After batch n, which follows batches that all let the loop go on: when the code goes back to
    the loop test, batch n let it go on too; otherwise batch n ended the run with its status.
   */
  lemma OutcomeNext(exportCount: int, first: int, steps: nat -> Step, n: nat, scraping: bool, exit: Exit)
    requires AllContinue(exportCount, first, steps, n)
    requires exit.Next? <==> (Packs(Batch(steps, n).reply) && !Exhausted(exportCount, Done(steps, n), Batch(steps, n))
                              && first + Done(steps, n) + Returned(Batch(steps, n).reply) < ChromeBatches.SafetyLimit)
    requires scraping <==> !StoppedAt(exportCount, Done(steps, n), Batch(steps, n))
    requires exit.EndRun? ==> (exit.failed <==> (Batch(steps, n).reply.Unreachable?
                                                 || (Batch(steps, n).reply.Refused? && !EndOfList(Batch(steps, n).reply))))
    ensures scraping && exit.Next? ==> AllContinue(exportCount, first, steps, n + 1)
    ensures !scraping || exit.EndRun? ==> RunEnded(exportCount, first, steps, n + 1, exit.EndRun? && exit.failed, scraping)
  {
    if scraping && exit.Next? {
      GoesOn(exportCount, first, steps, n);
    } else {
      EndsAt(exportCount, first, steps, n, exit.EndRun? && exit.failed, scraping);
    }
  }

  /** packageBatch on a delivering batch: its archive's entry goes in front of the downloads. */
  method PackageListed(start: int, step: Step, stamp: (nat, nat, nat) -> string, downloads: seq<Transfer.BatchInfo>)
    returns (listed: seq<Transfer.BatchInfo>)
    requires Packs(step.reply)
    ensures listed == Entries(Packed(start, step)) + downloads
  {
    var _, l := Packaging.PackageBatch(step.reply.chats, start, step.now, stamp, downloads);
    EntriesOne(Packing(start, step.reply.chats, step.now));
    listed := l;
  }

  /** How the code leaves one batch of the start loop. */
  datatype Exit = Next | EndRun(failed: bool)

  function Max(a: int, b: int): int {
    if a < b then b else a
  }

  /** The popup's state as the start and stop buttons change it. */
  class FirefoxPopup {
    var isScraping: bool
    var status: RunStatus
    var scrapedData: Option<seq<Packaging.Chat>>
    var totalScrapedCount: nat
    var totalChatsCount: int
    var lastStartIndex: int
    var currentStartIndex: int
    var progressCurrent: int
    var progressTotal: int
    var downloads: seq<Transfer.BatchInfo>

    constructor ()
      ensures !isScraping && status == Idle && scrapedData == None && downloads == []
      ensures totalScrapedCount == 0 && totalChatsCount == 0 && lastStartIndex == 0 && currentStartIndex == 0
      ensures progressCurrent == 0 && progressTotal == 0
    {
      isScraping, status, scrapedData, downloads := false, Idle, None, [];
      totalScrapedCount, totalChatsCount, lastStartIndex, currentStartIndex := 0, 0, 0, 0;
      progressCurrent, progressTotal := 0, 0;
    }

    /**
      The stop button: when a run is going and the content script takes the message, the run
      ends and the next one resumes where this one is.
     */
    method StopClick(reachable: bool)
      modifies this
      ensures old(isScraping) && reachable ==>
        !isScraping && status == Stopped && lastStartIndex == currentStartIndex
      ensures !(old(isScraping) && reachable) ==> isScraping == old(isScraping) && status == old(status) && lastStartIndex == old(lastStartIndex)
      ensures currentStartIndex == old(currentStartIndex) && downloads == old(downloads) && scrapedData == old(scrapedData)
      ensures totalScrapedCount == old(totalScrapedCount) && totalChatsCount == old(totalChatsCount)
      ensures progressCurrent == old(progressCurrent) && progressTotal == old(progressTotal)
    {
      if !isScraping {
        return;
      }
      if reachable {
        isScraping := false;
        status := Stopped;
        lastStartIndex := currentStartIndex;
      }
    }

    /**
      A reply with chats: package them, add them to the totals and the progress, and count
      them off the remaining count when that is being counted down.
     */
    method PackReply(step: Step, stamp: (nat, nat, nat) -> string, exportCount: int, remainingCount: int, ghost first: int, ghost done: int)
      returns (remaining: int)
      modifies this
      requires Packs(step.reply)
      requires currentStartIndex == first + done && totalScrapedCount == done
      ensures downloads == Entries(Packed(first + done, step)) + old(downloads)
      ensures totalScrapedCount == done + |step.reply.chats|
      ensures lastStartIndex == first + done + |step.reply.chats|
      ensures totalChatsCount == Max(old(totalChatsCount), first + done + |step.reply.chats|)
      ensures remaining == if remainingCount > 0 then remainingCount - |step.reply.chats| else remainingCount
      ensures isScraping == old(isScraping) && status == old(status) && currentStartIndex == old(currentStartIndex)
      ensures scrapedData == None
    {
      var chats := step.reply.chats;
      var chatCount := |chats|;
      downloads := PackageListed(currentStartIndex, step, stamp, downloads);
      totalScrapedCount := totalScrapedCount + chatCount;
      totalChatsCount := Max(totalChatsCount, currentStartIndex + chatCount);
      lastStartIndex := currentStartIndex + chatCount;
      progressCurrent := totalScrapedCount;
      progressTotal := if exportCount > 0 then exportCount else totalChatsCount;
      scrapedData := None;
      remaining := remainingCount;
      if remaining > 0 {
        remaining := remaining - chatCount;
      }
    }

    /**
      One batch of the start loop, from the reply on: package a delivering reply, count it
      down, move the start index on, honour a stop click and the safety limit. `Next` is
      returned when the code goes back to the loop test, `EndRun` when it leaves the loop.
     */
    method HandleReply(step: Step, stamp: (nat, nat, nat) -> string, exportCount: int, remainingCount: int, ghost first: int, ghost done: int)
      returns (remaining: int, exit: Exit)
      modifies this
      requires isScraping && status == Scraping
      requires currentStartIndex == first + done && totalScrapedCount == done
      requires remainingCount == if exportCount > 0 then exportCount - done else exportCount
      requires exportCount > 0 ==> done < exportCount
      ensures exit.Next? <==> Packs(step.reply) && !Exhausted(exportCount, done, step) && first + done + Returned(step.reply) < ChromeBatches.SafetyLimit
      ensures exit.Next? ==> currentStartIndex == first + done + Returned(step.reply)
      ensures exit.EndRun? ==> currentStartIndex == old(currentStartIndex) || currentStartIndex >= ChromeBatches.SafetyLimit
      ensures exit.Next? ==> remaining == if exportCount > 0 then exportCount - done - Returned(step.reply) else exportCount
      ensures isScraping <==> !StoppedAt(exportCount, done, step)
      ensures status == if isScraping then Scraping else Stopped
      ensures exit.EndRun? ==> (exit.failed <==> step.reply.Unreachable? || (step.reply.Refused? && !EndOfList(step.reply)))
      ensures totalScrapedCount == done + Returned(step.reply)
      ensures downloads == Entries(Packed(first + done, step)) + old(downloads)
      ensures lastStartIndex == if Packs(step.reply) then first + done + Returned(step.reply) else old(lastStartIndex)
      ensures totalChatsCount == if Packs(step.reply) then Max(old(totalChatsCount), first + done + Returned(step.reply)) else old(totalChatsCount)
    {
      remaining := remainingCount;
      if step.reply.Unreachable? {
        return remaining, EndRun(true);
      }
      if step.reply.Refused? {
        if step.reply.error.Some? && Contains(step.reply.error.value, OutOfRange) {
          return remaining, EndRun(false);
        }
        return remaining, EndRun(true);
      }
      var chats := step.reply.chats;
      scrapedData := Some(chats);
      if |chats| == 0 {
        return remaining, EndRun(false);
      }
      var counted := remaining > 0;
      remaining := PackReply(step, stamp, exportCount, remaining, first, done);
      if counted && remaining <= 0 {
        return remaining, EndRun(false);
      }
      currentStartIndex := currentStartIndex + |chats|;
      if step.stopClicked {
        StopClick(true);
      }
      if currentStartIndex >= ChromeBatches.SafetyLimit {
        return remaining, EndRun(false);
      }
      exit := Next;
    }

    /**
      The fields the start loop maintains, after its first n batches (requests for them, the
      delivered count, the downloads, the last start index, the largest end, the status).
     */
    ghost predicate Tracks(exportCount: int, batchSize: int, first: int, lastBefore: int, listedBefore: seq<Transfer.BatchInfo>,
                           steps: nat -> Step, n: nat, requests: seq<ChromeBatches.BatchRequest>)
      reads this
    {
      && Tracked(exportCount, batchSize, first, lastBefore, listedBefore, steps, n, requests,
                 totalScrapedCount, downloads, lastStartIndex, totalChatsCount)
      && status == (if isScraping then Scraping else Stopped)
    }

    /** The loop is going after its first n batches, and `remaining` is the count left. */
    ghost predicate Going(exportCount: int, first: int, steps: nat -> Step, n: nat, remaining: int)
      reads this
    {
      && isScraping
      && AllContinue(exportCount, first, steps, n)
      && currentStartIndex == first + Done(steps, n)
      && remaining == Remaining(exportCount, steps, n)
      && (exportCount > 0 ==> Done(steps, n) < exportCount)
    }

    /**
      One batch of the start loop: ask for the next range and handle the reply. Afterwards
      either the loop goes on, or batch n is the one that ended the run.
     */
    method NextBatch(exportCount: int, batchSize: int, steps: nat -> Step, stamp: (nat, nat, nat) -> string,
                     requests: seq<ChromeBatches.BatchRequest>, remainingCount: int, n: nat,
                     ghost first: int, ghost lastBefore: int, ghost listedBefore: seq<Transfer.BatchInfo>)
      returns (requests': seq<ChromeBatches.BatchRequest>, remaining: int, exit: Exit)
      modifies this
      requires Tracks(exportCount, batchSize, first, lastBefore, listedBefore, steps, n, requests)
      requires Going(exportCount, first, steps, n, remainingCount)
      ensures Tracks(exportCount, batchSize, first, lastBefore, listedBefore, steps, n + 1, requests')
      ensures isScraping && exit.Next? ==> Going(exportCount, first, steps, n + 1, remaining)
      ensures !isScraping || exit.EndRun? ==>
        RunEnded(exportCount, first, steps, n + 1, exit.EndRun? && exit.failed, isScraping)
      ensures exit.Next? ==> old(currentStartIndex) < currentStartIndex < ChromeBatches.SafetyLimit
      ensures exit.EndRun? ==> currentStartIndex == old(currentStartIndex) || currentStartIndex >= ChromeBatches.SafetyLimit
    {
      var step := Batch(steps, n);
      var thisBatchSize := ChromeBatches.BatchSize(remainingCount, batchSize);
      requests' := requests + [ChromeBatches.BatchRequest(currentStartIndex, thisBatchSize, n + 1)];
      assert requests' == requests + [Request(exportCount, batchSize, first, steps, n)];
      ghost var listed, last, maxEnd := downloads, lastStartIndex, totalChatsCount;
      remaining, exit := HandleReply(step, stamp, exportCount, remainingCount, first, Done(steps, n));
      TrackedNext(exportCount, batchSize, first, lastBefore, listedBefore, steps, n, requests, listed, last, maxEnd,
                  totalScrapedCount, downloads, lastStartIndex, totalChatsCount);
      OutcomeNext(exportCount, first, steps, n, isScraping, exit);
    }

    /**
      The loop of the start button, from the first batch to the one that ends the run: one
      request per batch asked for, and `failed` tells whether the run ended in an error.
     */
    method ScrapeLoop(exportCount: int, batchSize: int, steps: nat -> Step, stamp: (nat, nat, nat) -> string)
      returns (requests: seq<ChromeBatches.BatchRequest>, failed: bool)
      modifies this
      requires isScraping && status == Scraping && totalScrapedCount == 0 && totalChatsCount == 0
      ensures var first, n := old(currentStartIndex), |requests|;
        && n > 0 && RunEnded(exportCount, first, steps, n, failed, isScraping)
        && Tracks(exportCount, batchSize, first, old(lastStartIndex), old(downloads), steps, n, requests)
    {
      ghost var first := currentStartIndex;
      ghost var lastBefore := lastStartIndex;
      ghost var listedBefore := downloads;
      requests := [];
      var remainingCount := exportCount;
      var batchNum: nat := 0;
      failed := false;
      var ended := false;
      while isScraping && !ended
        invariant Tracks(exportCount, batchSize, first, lastBefore, listedBefore, steps, batchNum, requests)
        invariant isScraping && !ended ==> !failed && Going(exportCount, first, steps, batchNum, remainingCount)
        invariant !isScraping || ended ==> batchNum > 0 && RunEnded(exportCount, first, steps, batchNum, failed, isScraping)
        decreases (if ended then 0 else 1) + (if batchNum == 0 then 1 else 0)
          + (if currentStartIndex < ChromeBatches.SafetyLimit then ChromeBatches.SafetyLimit - currentStartIndex else 0)
      {
        var exit;
        requests, remainingCount, exit := NextBatch(exportCount, batchSize, steps, stamp, requests, remainingCount, batchNum,
                                                    first, lastBefore, listedBefore);
        batchNum := batchNum + 1;
        if exit.EndRun? {
          failed := exit.failed;
          ended := true;
        }
      }
    }

    /** The start button when no run is going: set up, run the loop, and show how it ended. */
    method Run(countInput: Option<int>, sizeInput: Option<int>, startInput: Option<int>, steps: nat -> Step,
                      stamp: (nat, nat, nat) -> string)
      returns (requests: seq<ChromeBatches.BatchRequest>)
      modifies this
      requires !isScraping
      ensures
        var exportCount := ChromeBatches.OrElse(countInput, 0);
        var first := ChromeBatches.OrElse(startInput, old(lastStartIndex));
        var n := |requests|;
        && n > 0 && Stops(exportCount, first, steps, n)
        && RequestsAre(requests, exportCount, ChromeBatches.OrElse(sizeInput, 2), first, steps, n)
        && !isScraping
        && status == FinalStatus(exportCount, steps, n)
        && totalScrapedCount == Done(steps, n)
        && downloads == Listed(first, steps, n, old(downloads))
        && lastStartIndex == (if NothingPackaged(steps, n) then old(lastStartIndex) else first + Done(steps, n))
        && totalChatsCount == (if NothingPackaged(steps, n) then 0 else Max(0, first + Done(steps, n)))
    {
      isScraping := true;
      scrapedData := None;
      totalScrapedCount := 0;
      totalChatsCount := 0;
      var exportCount := ChromeBatches.OrElse(countInput, 0);
      var batchSize := ChromeBatches.OrElse(sizeInput, 2);
      status := Scraping;
      currentStartIndex := ChromeBatches.OrElse(startInput, lastStartIndex);
      ghost var first := currentStartIndex;
      ghost var lastBefore := lastStartIndex;
      var failed;
      requests, failed := ScrapeLoop(exportCount, batchSize, steps, stamp);
      ghost var n := |requests|;
      LastStartAfterRun(lastBefore, exportCount, first, steps, n);
      MaxEndAfterRun(exportCount, first, steps, n);
      if failed {
        status := Error;
      } else if isScraping {
        status := Completed;
      }
      isScraping := false;
    }

    /**
      The start button. Batch k asks for the range starting after everything delivered so far,
      of the batch size or the smaller remaining count; the run goes on exactly while batches
      keep delivering chats with the count not used up, no stop and the start index below the
      safety limit. Every delivering batch is packaged and listed first among the downloads.
     */
    method StartClick(countInput: Option<int>, sizeInput: Option<int>, startInput: Option<int>, steps: nat -> Step,
                      stamp: (nat, nat, nat) -> string)
      returns (requests: seq<ChromeBatches.BatchRequest>)
      modifies this
      ensures old(isScraping) ==> requests == [] && unchanged(this)
      ensures !old(isScraping) ==> |requests| > 0
      ensures !old(isScraping) ==>
        var exportCount := ChromeBatches.OrElse(countInput, 0);
        var first := ChromeBatches.OrElse(startInput, old(lastStartIndex));
        var n := |requests|;
        && n > 0 && Stops(exportCount, first, steps, n)
        && RequestsAre(requests, exportCount, ChromeBatches.OrElse(sizeInput, 2), first, steps, n)
        && !isScraping
        && status == FinalStatus(exportCount, steps, n)
        && totalScrapedCount == Done(steps, n)
        && downloads == Listed(first, steps, n, old(downloads))
        && lastStartIndex == (if NothingPackaged(steps, n) then old(lastStartIndex) else first + Done(steps, n))
        && totalChatsCount == (if NothingPackaged(steps, n) then 0 else Max(0, first + Done(steps, n)))
    {
      requests := [];
      if isScraping {
        return;
      }
      requests := Run(countInput, sizeInput, startInput, steps, stamp);
    }
  }
}
