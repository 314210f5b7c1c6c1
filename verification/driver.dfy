/** The collector's batch loop (`main` of collect_video_metadata_from_ids.py):
    fetch each work item in order, file it as enriched or failed, count
    consecutive failures, stop early at the configured threshold, and pause
    after every item except the one that triggers the stop. The loop is a fold
    over the sequence of attempts. */
module Driver {
  import opened Python
  import opened Fetch
  import opened Extraction

  /** A successfully enriched video. */
  datatype EnrichedRecord = EnrichedRecord(videoId: string, url: string, username: string, scrapedAt: string, ytDlp: Json)

  /** A video whose fetch failed. */
  datatype ErrorRecord = ErrorRecord(videoId: string, url: string, username: string, scrapedAt: string, returnCode: int, error: string)

  /** One processed item: the item, what its fetch returned, and the clock
      reading taken when its record was made. */
  datatype Attempt = Attempt(item: WorkItem, result: FetchResult, scrapedAt: string)

  /** The loop's state: both output lists, the consecutive-error counter, the
      number of pacing pauses taken, and whether the loop broke out early. */
  datatype LoopState = LoopState(
    enriched: seq<EnrichedRecord>,
    errors: seq<ErrorRecord>,
    consecutiveErrors: nat,
    pauses: nat,
    stoppedEarly: bool)

  const Start: LoopState := LoopState([], [], 0, 0, false)

  predicate Failed(a: Attempt) {
    IsError(a.result)
  }

  /** The error text recorded for a failed fetch. */
  function ErrorText(r: FetchResult): (e: string)
    ensures e != ""
    ensures SomeText(r.err) ==> e == r.err.value
    ensures !SomeText(r.err) ==> e == "unknown error"
  {
    if SomeText(r.err) then r.err.value else "unknown error"
  }

  function SuccessRecord(a: Attempt): EnrichedRecord {
    EnrichedRecord(a.item.videoId, a.item.url, a.item.username, a.scrapedAt, a.result.info)
  }

  function FailureRecord(a: Attempt): ErrorRecord {
    ErrorRecord(a.item.videoId, a.item.url, a.item.username, a.scrapedAt, a.result.rc, ErrorText(a.result))
  }

  /** One iteration of the loop body, including the early-stop check. */
  function Step(st: LoopState, a: Attempt, maxConsecutive: int): LoopState {
    if Failed(a) then
      var c := st.consecutiveErrors + 1;
      var errors := st.errors + [FailureRecord(a)];
      if maxConsecutive > 0 && c >= maxConsecutive then LoopState(st.enriched, errors, c, st.pauses, true)
      else LoopState(st.enriched, errors, c, st.pauses + 1, false)
    else
      LoopState(st.enriched + [SuccessRecord(a)], st.errors, 0, st.pauses + 1, false)
  }

  /** The `for` loop from item `i` on. */
  function Loop(attempts: seq<Attempt>, maxConsecutive: int, i: nat, st: LoopState): LoopState
    requires i <= |attempts|
    decreases |attempts| - i
  {
    if i == |attempts| then st
    else
      var st' := Step(st, attempts[i], maxConsecutive);
      if st'.stoppedEarly then st' else Loop(attempts, maxConsecutive, i + 1, st')
  }

  // ---------------------------------------------------------------------
  // Reference definitions over a processed prefix
  // ---------------------------------------------------------------------

  /** The records of the successful attempts, in order. */
  function SuccessRecords(p: seq<Attempt>): seq<EnrichedRecord> {
    if |p| == 0 then []
    else SuccessRecords(p[..|p| - 1]) + (if Failed(p[|p| - 1]) then [] else [SuccessRecord(p[|p| - 1])])
  }

  /** The records of the failed attempts, in order. */
  function ErrorRecords(p: seq<Attempt>): seq<ErrorRecord> {
    if |p| == 0 then []
    else ErrorRecords(p[..|p| - 1]) + (if Failed(p[|p| - 1]) then [FailureRecord(p[|p| - 1])] else [])
  }

  /** The number of failures at the end of `p` since its last success. */
  function Streak(p: seq<Attempt>): nat {
    if |p| == 0 then 0
    else if Failed(p[|p| - 1]) then Streak(p[..|p| - 1]) + 1
    else 0
  }

  /** Attempts `j-k+1 .. j` are `k` failures in a row, with `k > 0`. */
  predicate FailureWindow(attempts: seq<Attempt>, k: int, j: nat)
    requires j < |attempts|
  {
    && k > 0
    && j + 1 >= k
    && forall t :: j + 1 - k <= t <= j ==> Failed(attempts[t])
  }

  lemma {:induction false} PartitionCount(p: seq<Attempt>)
    ensures |SuccessRecords(p)| + |ErrorRecords(p)| == |p|
  {
    if |p| > 0 {
      PartitionCount(p[..|p| - 1]);
    }
  }

  /** The trailing streak reaches `m` exactly when the last `m` attempts all failed. */
  lemma {:induction false} StreakWindow(p: seq<Attempt>, m: nat)
    ensures Streak(p) >= m <==> m <= |p| && forall t :: |p| - m <= t < |p| ==> Failed(p[t])
  {
    if m > 0 && |p| > 0 {
      var init := p[..|p| - 1];
      StreakWindow(init, m - 1);
      assert forall t :: 0 <= t < |p| - 1 ==> init[t] == p[t];
    }
  }

  lemma WindowIsStreak(attempts: seq<Attempt>, k: int, j: nat)
    requires j < |attempts| && k > 0
    ensures FailureWindow(attempts, k, j) <==> Streak(attempts[..j + 1]) >= k
  {
    var p := attempts[..j + 1];
    StreakWindow(p, k);
    assert forall t :: 0 <= t <= j ==> p[t] == attempts[t];
  }

  /** What holds after the first `i` items were processed without a stop. */
  predicate Processed(attempts: seq<Attempt>, k: int, i: nat, st: LoopState)
    requires i <= |attempts|
  {
    && st.enriched == SuccessRecords(attempts[..i])
    && st.errors == ErrorRecords(attempts[..i])
    && st.consecutiveErrors == Streak(attempts[..i])
    && st.pauses == i
    && !st.stoppedEarly
    && forall j :: 0 <= j < i ==> !FailureWindow(attempts, k, j)
  }

  /** The outcome of the loop, stated without reference to the loop. */
  predicate LoopOutcome(attempts: seq<Attempt>, k: int, r: LoopState) {
    var n := |r.enriched| + |r.errors|;
    && n <= |attempts|
    && r.enriched == SuccessRecords(attempts[..n])
    && r.errors == ErrorRecords(attempts[..n])
    && r.consecutiveErrors == Streak(attempts[..n])
    && (r.stoppedEarly ==> n > 0 && FailureWindow(attempts, k, n - 1))
    && (forall j :: 0 <= j < n - 1 ==> !FailureWindow(attempts, k, j))
    && (!r.stoppedEarly ==> n == |attempts| && forall j :: 0 <= j < |attempts| ==> !FailureWindow(attempts, k, j))
    && r.pauses == (if r.stoppedEarly then n - 1 else n)
  }

  lemma {:induction false} StepKeeps(attempts: seq<Attempt>, k: int, i: nat, st: LoopState)
    requires i < |attempts| && Processed(attempts, k, i, st)
    ensures var st' := Step(st, attempts[i], k);
            && st'.enriched == SuccessRecords(attempts[..i + 1])
            && st'.errors == ErrorRecords(attempts[..i + 1])
            && st'.consecutiveErrors == Streak(attempts[..i + 1])
            && (st'.stoppedEarly <==> FailureWindow(attempts, k, i))
            && st'.pauses == (if st'.stoppedEarly then i else i + 1)
  {
    var p := attempts[..i + 1];
    assert p[..|p| - 1] == attempts[..i];
    assert p[|p| - 1] == attempts[i];
    if k > 0 {
      WindowIsStreak(attempts, k, i);
    }
  }

  /** Running out of items without a stop meets the outcome. */
  lemma DoneOutcome(attempts: seq<Attempt>, k: int, st: LoopState)
    requires Processed(attempts, k, |attempts|, st)
    ensures LoopOutcome(attempts, k, st)
  {
    PartitionCount(attempts);
    assert attempts[..|attempts|] == attempts;
  }

  /** A stop at item `i` meets the outcome. */
  lemma StopOutcome(attempts: seq<Attempt>, k: int, i: nat, st: LoopState)
    requires i < |attempts| && Processed(attempts, k, i, st)
    requires Step(st, attempts[i], k).stoppedEarly
    ensures LoopOutcome(attempts, k, Step(st, attempts[i], k))
  {
    StepKeeps(attempts, k, i, st);
    PartitionCount(attempts[..i + 1]);
  }

  lemma {:induction false} LoopMeetsOutcome(attempts: seq<Attempt>, k: int, i: nat, st: LoopState)
    requires i <= |attempts| && Processed(attempts, k, i, st)
    ensures LoopOutcome(attempts, k, Loop(attempts, k, i, st))
    decreases |attempts| - i
  {
    if i == |attempts| {
      DoneOutcome(attempts, k, st);
    } else {
      var st' := Step(st, attempts[i], k);
      if st'.stoppedEarly {
        StopOutcome(attempts, k, i, st);
      } else {
        StepKeeps(attempts, k, i, st);
        LoopMeetsOutcome(attempts, k, i + 1, st');
      }
    }
  }

  /** The whole loop, from an empty state. Processed items are a prefix of the
      attempts; each lands in exactly one of the two lists, in order; the
      counter is the current failure streak; the loop stops right after the
      first window of `maxConsecutive` failures in a row and otherwise runs to
      the end; one pause follows every processed item but a stopping one. */
  function Run(attempts: seq<Attempt>, maxConsecutive: int): (r: LoopState)
    ensures var n := |r.enriched| + |r.errors|;
            && n <= |attempts|
            && r.enriched == SuccessRecords(attempts[..n])
            && r.errors == ErrorRecords(attempts[..n])
            && r.consecutiveErrors == Streak(attempts[..n])
            && (r.stoppedEarly ==> n > 0 && FailureWindow(attempts, maxConsecutive, n - 1))
            && (forall j :: 0 <= j < n - 1 ==> !FailureWindow(attempts, maxConsecutive, j))
            && (!r.stoppedEarly ==> n == |attempts|)
            && (!r.stoppedEarly ==> forall j :: 0 <= j < |attempts| ==> !FailureWindow(attempts, maxConsecutive, j))
            && r.pauses == (if r.stoppedEarly then n - 1 else n)
            && (maxConsecutive <= 0 ==> !r.stoppedEarly && n == |attempts|)
  {
    assert attempts[..0] == [];
    LoopMeetsOutcome(attempts, maxConsecutive, 0, Start);
    Loop(attempts, maxConsecutive, 0, Start)
  }

  /** With a threshold `k > 0`, a stop means the last `k` processed items all
      failed; a success anywhere resets the counter. */
  lemma StopMeansKFailures(attempts: seq<Attempt>, k: int)
    requires k > 0
    ensures var r := Run(attempts, k);
            var n := |r.enriched| + |r.errors|;
            r.stoppedEarly ==> n >= k && forall t :: n - k <= t < n ==> Failed(attempts[t])
    ensures var r := Run(attempts, k);
            var n := |r.enriched| + |r.errors|;
            n > 0 && !Failed(attempts[n - 1]) ==> r.consecutiveErrors == 0
  {
  }

  // ---------------------------------------------------------------------
  // The run as a whole
  // ---------------------------------------------------------------------

  /** The collector's command-line settings that shape the loop. */
  datatype Config = Config(
    maxVideos: int,              // --max-videos, 0 = no cap
    maxConsecutiveErrors: int,   // --max-consecutive-errors, 0 = disabled
    fetch: FetchOptions,
    sourceInput: string)         // str() of the input path

  /** The combined output document. */
  datatype RunSummary = RunSummary(
    runStartedAt: string,
    sourceInput: string,
    requested: nat,
    succeeded: nat,
    failed: nat,
    attemptedComments: bool,
    results: seq<EnrichedRecord>,
    errors: seq<ErrorRecord>)

  /** `videos[:max_videos]` when the cap is positive. */
  function Cap(videos: seq<WorkItem>, maxVideos: int): (r: seq<WorkItem>)
    ensures r <= videos
    ensures |r| == (if 0 < maxVideos < |videos| then maxVideos else |videos|)
  {
    if maxVideos > 0 && maxVideos < |videos| then videos[..maxVideos] else videos
  }

  /** The attempts for a work list. The environment answers the `i`-th
      process run with `run(i, invocation)`, and `clock(i)` is the `i`-th
      reading of the clock. */
  function Attempts(items: seq<WorkItem>, run: (nat, Invocation) -> ProcessOutcome, clock: nat -> string, opts: FetchOptions): (r: seq<Attempt>)
    ensures |r| == |items|
    ensures forall i :: 0 <= i < |items| ==> r[i].item == items[i] && r[i].scrapedAt == clock(i)
    ensures forall i :: 0 <= i < |items| ==> r[i].result == Classify(run(i, Invoke(items[i].url, opts)))
  {
    seq(|items|, i requires 0 <= i < |items| => Attempt(items[i], Classify(run(i, Invoke(items[i].url, opts))), clock(i)))
  }

  /** The whole collector run on a parsed seed-run document. */
  function Enrich(seed: Json, cfg: Config, run: (nat, Invocation) -> ProcessOutcome, clock: nat -> string): (r: Result<RunSummary>)
    ensures r.Ok? <==> ExtractWorkItems(seed).Ok?
    ensures r.Ok? ==>
              var items := Cap(ExtractWorkItems(seed).value, cfg.maxVideos);
              && r.value.requested == |items|
              && r.value.succeeded == |r.value.results|
              && r.value.failed == |r.value.errors|
              && r.value.succeeded + r.value.failed <= r.value.requested
              && (cfg.maxConsecutiveErrors <= 0 ==> r.value.succeeded + r.value.failed == r.value.requested)
              && r.value.attemptedComments == cfg.fetch.attemptComments
              && r.value.sourceInput == cfg.sourceInput
              && r.value.results == Run(Attempts(items, run, clock, cfg.fetch), cfg.maxConsecutiveErrors).enriched
              && r.value.errors == Run(Attempts(items, run, clock, cfg.fetch), cfg.maxConsecutiveErrors).errors
  {
    var videos :- ExtractWorkItems(seed);
    var items := Cap(videos, cfg.maxVideos);
    var st := Run(Attempts(items, run, clock, cfg.fetch), cfg.maxConsecutiveErrors);
    var n := |st.enriched| + |st.errors|;
    Ok(RunSummary(clock(n), cfg.sourceInput, |items|, |st.enriched|, |st.errors|,
                  cfg.fetch.attemptComments, st.enriched, st.errors))
  }
}
