/**
 * The inactivity deadline that guards the asset upload of `codepush:release-react`.
 *
 * The command races the upload against a watcher. The upload reports progress
 * through two callbacks (a snapshot of per-asset results, and "an upload is
 * being retried"); the watcher wakes every second and gives up once the
 * deadline has passed. With the timers, the race and the wall clock taken out,
 * what remains is a single-threaded state machine whose operations each receive
 * the current time `now` (in milliseconds) as a parameter.
 */
module UploadDeadline {
  import opened Wrappers

  /** The no-activity window: 180 seconds, in milliseconds. */
  const NO_ACTIVITY_TIMEOUT: int := 180 * 1000

  /** An asset being published, as far as the deadline logic looks at it. */
  datatype Asset = Asset(path: string, originalPath: Option<string>, storageKey: string)

  /** One entry of the per-asset status list that the upload reports. */
  datatype AssetUploadResult = AssetUploadResult(asset: Asset, finished: bool)

  /** The storage keys of the entries reported as finished. */
  function FinishedStorageKeys(results: seq<AssetUploadResult>): set<string> {
    set i | 0 <= i < |results| && results[i].finished :: results[i].asset.storageKey
  }

  /** The number of entries not yet finished (the `missingAssetCount`). */
  function MissingAssetCount(results: seq<AssetUploadResult>): (n: nat)
    ensures n <= |results|
  {
    if results == [] then 0
    else (if results[0].finished then 0 else 1) + MissingAssetCount(results[1..])
  }

  predicate AllFinished(results: seq<AssetUploadResult>) {
    forall i :: 0 <= i < |results| ==> results[i].finished
  }

  /** The `(done, total)` pair shown as `Uploading (done/total)`. */
  function UploadProgress(results: seq<AssetUploadResult>): (p: (int, int)) {
    (|results| - MissingAssetCount(results), |results|)
  }

  /**
   * The counter never goes below zero nor above the total, and it reaches the
   * total exactly when every asset is finished.
   */
  lemma {:induction false} UploadProgressBounds(results: seq<AssetUploadResult>)
    ensures 0 <= UploadProgress(results).0 <= UploadProgress(results).1 == |results|
    ensures UploadProgress(results).0 == |results| <==> AllFinished(results)
  {
    if results != [] {
      UploadProgressBounds(results[1..]);
      assert AllFinished(results) <==> results[0].finished && AllFinished(results[1..]) by {
        if results[0].finished && AllFinished(results[1..]) {
          forall i | 0 <= i < |results| ensures results[i].finished {
            if i > 0 { assert results[i] == results[1..][i - 1]; }
          }
        }
      }
    }
  }

  /** The path shown for an asset: `originalPath` when present, `path` otherwise. */
  function DisplayPath(a: Asset): string {
    a.originalPath.GetOr(a.path)
  }

  /** The `timedOutAssets` list: one `"\n- <path>"` line per unfinished entry, in order. */
  function TimedOutAssets(results: seq<AssetUploadResult>): (lines: seq<string>)
    ensures |lines| == MissingAssetCount(results)
  {
    if results == [] then []
    else (if results[0].finished then [] else ["\n- " + DisplayPath(results[0].asset)])
         + TimedOutAssets(results[1..])
  }

  /** The list of a concatenation is the concatenation of the lists: order is kept. */
  lemma {:induction false} TimedOutAssetsAppend(a: seq<AssetUploadResult>, b: seq<AssetUploadResult>)
    ensures TimedOutAssets(a + b) == TimedOutAssets(a) + TimedOutAssets(b)
  {
    if a == [] {
      assert a + b == b;
    } else {
      assert (a + b)[0] == a[0];
      assert (a + b)[1..] == a[1..] + b;
      TimedOutAssetsAppend(a[1..], b);
    }
  }

  /** Every unfinished entry is listed, and every listed line comes from an unfinished entry. */
  lemma {:induction false} TimedOutAssetsExact(results: seq<AssetUploadResult>)
    ensures forall i :: 0 <= i < |results| && !results[i].finished ==>
              "\n- " + DisplayPath(results[i].asset) in TimedOutAssets(results)
    ensures forall line :: line in TimedOutAssets(results) ==>
              exists i :: 0 <= i < |results| && !results[i].finished && line == "\n- " + DisplayPath(results[i].asset)
  {
    if results != [] {
      TimedOutAssetsExact(results[1..]);
      forall i | 0 < i < |results| ensures results[i] == results[1..][i - 1] { }
    }
  }

  /** `Array.prototype.toString`: the items joined by commas. */
  function JoinWithCommas(items: seq<string>): string {
    if items == [] then ""
    else if |items| == 1 then items[0]
    else items[0] + "," + JoinWithCommas(items[1..])
  }

  /** The text of the timeout error, built from a status snapshot. */
  function TimeoutMessage(results: seq<AssetUploadResult>): (msg: string)
    ensures AllFinished(results) ==> msg == "Asset processing timed out for assets: "
  {
    UploadProgressBounds(results);
    "Asset processing timed out for assets: " + JoinWithCommas(TimedOutAssets(results))
  }

  /** The deadline logic's state: the fields it keeps across callbacks. */
  datatype TrackerState = TrackerState(
    timeAtWhichToTimeout: int,
    lastUploadedStorageKeys: set<string>,
    lastAssetUploadResults: seq<AssetUploadResult>,
    isCanceledOrFinished: bool)

  /** The state when the upload starts at time `now`. */
  function Start(now: int): TrackerState {
    TrackerState(now + NO_ACTIVITY_TIMEOUT, {}, [], false)
  }

  /** The recorded key set is the finished-key set of the recorded snapshot. */
  predicate SnapshotConsistent(s: TrackerState) {
    s.lastUploadedStorageKeys == FinishedStorageKeys(s.lastAssetUploadResults)
  }

  /** The progress callback: reset and re-snapshot only when the finished-key set changed. */
  function AfterProgress(s: TrackerState, results: seq<AssetUploadResult>, now: int): TrackerState {
    var current := FinishedStorageKeys(results);
    if current != s.lastUploadedStorageKeys then
      s.(timeAtWhichToTimeout := now + NO_ACTIVITY_TIMEOUT,
         lastUploadedStorageKeys := current,
         lastAssetUploadResults := results)
    else s
  }

  /**
   * The second callback of the upload, called each time an asset upload
   * begins (retries included): the deadline is reset unconditionally.
   */
  function AfterRetry(s: TrackerState, now: int): TrackerState {
    s.(timeAtWhichToTimeout := now + NO_ACTIVITY_TIMEOUT)
  }

  /**
   * Whether one pass of the watcher loop leaves the loop: the clock reached
   * the deadline, or the token was already set (the `break`).
   */
  predicate WatcherExits(s: TrackerState, now: int) {
    !(now < s.timeAtWhichToTimeout) || s.isCanceledOrFinished
  }

  /** One pass of the watcher loop: on leaving it, the token is set. */
  function AfterWatcherCheck(s: TrackerState, now: int): TrackerState {
    if WatcherExits(s, now) then s.(isCanceledOrFinished := true) else s
  }

  /** Start, both callbacks and the watcher keep the snapshot consistent. */
  lemma SnapshotConsistentPreserved(s: TrackerState, results: seq<AssetUploadResult>, now: int)
    ensures SnapshotConsistent(Start(now))
    ensures SnapshotConsistent(s) ==> SnapshotConsistent(AfterProgress(s, results, now))
    ensures SnapshotConsistent(s) ==> SnapshotConsistent(AfterRetry(s, now))
    ensures SnapshotConsistent(s) ==> SnapshotConsistent(AfterWatcherCheck(s, now))
  {
  }

  /**
   * The progress callback resets the deadline and replaces both snapshots if,
   * and only if, the finished-key set differs from the recorded one; either
   * way the recorded key set afterwards is the reported one, and reporting the
   * same list again changes nothing.
   */
  lemma ProgressResetsOnlyOnChange(s: TrackerState, results: seq<AssetUploadResult>, now: int, later: int)
    ensures var t := AfterProgress(s, results, now);
            t.lastUploadedStorageKeys == FinishedStorageKeys(results)
            && t.isCanceledOrFinished == s.isCanceledOrFinished
            && (FinishedStorageKeys(results) != s.lastUploadedStorageKeys ==>
                  t.timeAtWhichToTimeout == now + NO_ACTIVITY_TIMEOUT && t.lastAssetUploadResults == results)
            && (FinishedStorageKeys(results) == s.lastUploadedStorageKeys ==> t == s)
    ensures AfterProgress(AfterProgress(s, results, now), results, later) == AfterProgress(s, results, now)
  {
  }

  /**
   * As long as no asset finishes, progress reports never move the deadline and
   * the snapshot stays empty: a timeout then lists no asset at all.
   */
  lemma NothingFinishedKeepsEmptySnapshot(start: int, results: seq<AssetUploadResult>, now: int)
    requires forall i :: 0 <= i < |results| ==> !results[i].finished
    ensures AfterProgress(Start(start), results, now) == Start(start)
    ensures TimeoutMessage(AfterProgress(Start(start), results, now).lastAssetUploadResults)
            == "Asset processing timed out for assets: "
  {
    assert FinishedStorageKeys(results) == {};
  }

  /** After a retry at `now`, the watcher leaves the loop only at `now + 180000` or on the token. */
  lemma RetryPostponesTimeout(s: TrackerState, now: int, later: int)
    ensures WatcherExits(AfterRetry(s, now), later) <==>
              later >= now + NO_ACTIVITY_TIMEOUT || s.isCanceledOrFinished
  {
  }

  /** The token, once set, stays set; the watcher is the only operation here that sets it. */
  lemma TokenOnlySetByWatcher(s: TrackerState, results: seq<AssetUploadResult>, now: int)
    ensures AfterProgress(s, results, now).isCanceledOrFinished == s.isCanceledOrFinished
    ensures AfterRetry(s, now).isCanceledOrFinished == s.isCanceledOrFinished
    ensures AfterWatcherCheck(s, now).isCanceledOrFinished <==> s.isCanceledOrFinished || WatcherExits(s, now)
  {
  }

  /** What the single-threaded interleaving of the upload and the watcher consists of. */
  datatype Event =
    | Progress(results: seq<AssetUploadResult>, now: int)
    | Retry(now: int)  // an asset upload begins, first attempt or retry
    | WatcherWakeUp(now: int)
    | UploadResolved

  /** How a run of events ends: the upload won, the watcher threw, or neither yet. */
  datatype RunOutcome = Uploaded | TimedOut(message: string) | Running

  /** The time an event happens at (the upload's resolution carries none). */
  function EventTime(e: Event): Option<int> {
    match e
    case Progress(_, now) => Some(now)
    case Retry(now) => Some(now)
    case WatcherWakeUp(now) => Some(now)
    case UploadResolved => None
  }

  /** Events processed in order until the race is settled. */
  function RunEvents(s: TrackerState, events: seq<Event>): (RunOutcome, TrackerState)
    decreases |events|
  {
    if events == [] then (Running, s)
    else
      match events[0]
      case Progress(results, now) => RunEvents(AfterProgress(s, results, now), events[1..])
      case Retry(now) => RunEvents(AfterRetry(s, now), events[1..])
      case UploadResolved => (Uploaded, s)
      case WatcherWakeUp(now) =>
        if WatcherExits(s, now) then
          var t := AfterWatcherCheck(s, now);
          (TimedOut(TimeoutMessage(t.lastAssetUploadResults)), t)
        else RunEvents(s, events[1..])
  }

  /**
   * The watcher only ends the run by setting the token and throwing; its
   * message names exactly the unfinished entries of the last recorded
   * snapshot, whose finished keys are the recorded key set.
   */
  lemma {:induction false} TimeoutSetsTokenAndReportsSnapshot(s: TrackerState, events: seq<Event>)
    requires SnapshotConsistent(s)
    ensures var (outcome, t) := RunEvents(s, events);
            SnapshotConsistent(t)
            && (outcome.TimedOut? ==>
                  t.isCanceledOrFinished && outcome.message == TimeoutMessage(t.lastAssetUploadResults))
            && (!outcome.TimedOut? ==> t.isCanceledOrFinished == s.isCanceledOrFinished)
    decreases |events|
  {
    if events != [] {
      match events[0]
      case Progress(results, now) =>
        SnapshotConsistentPreserved(s, results, now);
        TimeoutSetsTokenAndReportsSnapshot(AfterProgress(s, results, now), events[1..]);
      case Retry(now) =>
        TimeoutSetsTokenAndReportsSnapshot(AfterRetry(s, now), events[1..]);
      case UploadResolved =>
      case WatcherWakeUp(now) =>
        if !WatcherExits(s, now) {
          TimeoutSetsTokenAndReportsSnapshot(s, events[1..]);
        }
    }
  }

  /** Event times never go backwards, and none is before `from`. */
  predicate ClockFrom(from: int, events: seq<Event>) {
    (forall i, j :: 0 <= i < j < |events| && EventTime(events[i]).Some? && EventTime(events[j]).Some? ==>
       EventTime(events[i]).value <= EventTime(events[j]).value)
    && (forall i :: 0 <= i < |events| && EventTime(events[i]).Some? ==> from <= EventTime(events[i]).value)
  }

  /**
   * No false timeout: with a clock that does not go backwards, activity never
   * brings the deadline forward, so a run whose watcher wake-ups all come
   * before the current deadline never times out.
   */
  lemma {:induction false} NoTimeoutBeforeDeadline(s: TrackerState, events: seq<Event>)
    requires !s.isCanceledOrFinished
    requires ClockFrom(s.timeAtWhichToTimeout - NO_ACTIVITY_TIMEOUT, events)
    requires forall i :: 0 <= i < |events| && events[i].WatcherWakeUp? ==> events[i].now < s.timeAtWhichToTimeout
    ensures !RunEvents(s, events).0.TimedOut?
    decreases |events|
  {
    if events != [] {
      var rest := events[1..];
      forall i | 0 <= i < |rest| ensures rest[i] == events[i + 1] { }
      match events[0]
      case Progress(results, now) =>
        var t := AfterProgress(s, results, now);
        assert EventTime(events[0]) == Some(now);
        assert s.timeAtWhichToTimeout <= t.timeAtWhichToTimeout;
        assert ClockFrom(t.timeAtWhichToTimeout - NO_ACTIVITY_TIMEOUT, rest) by {
          forall i | 0 <= i < |rest| && EventTime(rest[i]).Some?
            ensures t.timeAtWhichToTimeout - NO_ACTIVITY_TIMEOUT <= EventTime(rest[i]).value
          {
            assert EventTime(events[0]).Some? && EventTime(events[i + 1]).Some?;
          }
        }
        NoTimeoutBeforeDeadline(t, rest);
      case Retry(now) =>
        var t := AfterRetry(s, now);
        assert ClockFrom(t.timeAtWhichToTimeout - NO_ACTIVITY_TIMEOUT, rest) by {
          forall i | 0 <= i < |rest| && EventTime(rest[i]).Some?
            ensures t.timeAtWhichToTimeout - NO_ACTIVITY_TIMEOUT <= EventTime(rest[i]).value
          {
            assert EventTime(events[0]).Some? && EventTime(events[i + 1]).Some?;
          }
        }
        NoTimeoutBeforeDeadline(t, rest);
      case UploadResolved =>
      case WatcherWakeUp(now) =>
        NoTimeoutBeforeDeadline(s, rest);
    }
  }

  /** The shared `cancelationToken` object, also handed to the upload. */
  class CancelationToken {
    var isCanceledOrFinished: bool

    constructor ()
      ensures !isCanceledOrFinished
    {
      isCanceledOrFinished := false;
    }
  }

  /** The variables the callbacks and the watcher share. */
  class DeadlineTracker {
    var timeAtWhichToTimeout: int
    var lastUploadedStorageKeys: set<string>
    var lastAssetUploadResults: seq<AssetUploadResult>
    const cancelationToken: CancelationToken

    /** The abstract value of the tracker. */
    ghost function State(): TrackerState
      reads this, cancelationToken
    {
      TrackerState(timeAtWhichToTimeout, lastUploadedStorageKeys, lastAssetUploadResults,
                   cancelationToken.isCanceledOrFinished)
    }

    ghost predicate Valid()
      reads this, cancelationToken
    {
      SnapshotConsistent(State())
    }

    /** The tracker as set up when the upload starts at `now`. */
    constructor (now: int)
      ensures Valid() && fresh(cancelationToken)
      ensures State() == Start(now)
    {
      timeAtWhichToTimeout := now + NO_ACTIVITY_TIMEOUT;
      lastUploadedStorageKeys := {};
      lastAssetUploadResults := [];
      cancelationToken := new CancelationToken();
    }

    /** The progress callback; also returns the counter it shows. */
    method OnProgress(results: seq<AssetUploadResult>, now: int) returns (done: int, total: int)
      requires Valid()
      modifies this
      ensures Valid()
      ensures State() == AfterProgress(old(State()), results, now)
      ensures (FinishedStorageKeys(results) != old(lastUploadedStorageKeys)) <==>
                (lastUploadedStorageKeys != old(lastUploadedStorageKeys))
      ensures (done, total) == UploadProgress(results)
    {
      var current := FinishedStorageKeys(results);
      if current != lastUploadedStorageKeys {
        timeAtWhichToTimeout := now + NO_ACTIVITY_TIMEOUT;
        lastUploadedStorageKeys := current;
        lastAssetUploadResults := results;
      }
      total := |results|;
      done := total - MissingAssetCount(results);
    }

    /** The callback called each time an asset upload begins, retries included. */
    method OnRetry(now: int)
      requires Valid()
      modifies this
      ensures Valid()
      ensures State() == AfterRetry(old(State()), now)
      ensures timeAtWhichToTimeout == now + NO_ACTIVITY_TIMEOUT
    {
      timeAtWhichToTimeout := now + NO_ACTIVITY_TIMEOUT;
    }

    /**
     * One pass of the watcher loop at time `now`: either the watcher sleeps
     * again (`None`), or it sets the token and throws the timeout error.
     */
    method WatcherStep(now: int) returns (error: Option<string>)
      requires Valid()
      modifies cancelationToken
      ensures Valid()
      ensures State() == AfterWatcherCheck(old(State()), now)
      ensures error.Some? <==> WatcherExits(old(State()), now)
      ensures error.Some? ==> cancelationToken.isCanceledOrFinished
                              && error.value == TimeoutMessage(lastAssetUploadResults)
    {
      if now < timeAtWhichToTimeout && !cancelationToken.isCanceledOrFinished {
        return None;
      }
      cancelationToken.isCanceledOrFinished := true;
      error := Some(TimeoutMessage(lastAssetUploadResults));
    }

    /** Feeds the callbacks and the watcher's wake-ups in order until the race settles. */
    method Run(events: seq<Event>) returns (outcome: RunOutcome)
      requires Valid()
      modifies this, cancelationToken
      ensures Valid()
      ensures (outcome, State()) == RunEvents(old(State()), events)
    {
      outcome := Running;
      var i := 0;
      while i < |events| && outcome.Running?
        invariant 0 <= i <= |events|
        invariant Valid()
        invariant outcome.Running? ==> RunEvents(old(State()), events) == RunEvents(State(), events[i..])
        invariant !outcome.Running? ==> RunEvents(old(State()), events) == (outcome, State())
        decreases |events| - i
      {
        assert events[i..][1..] == events[i + 1..];
        match events[i] {
          case Progress(results, now) =>
            var _, _ := OnProgress(results, now);
          case Retry(now) =>
            OnRetry(now);
          case UploadResolved =>
            outcome := Uploaded;
          case WatcherWakeUp(now) =>
            var error := WatcherStep(now);
            if error.Some? {
              outcome := TimedOut(error.value);
            }
        }
        i := i + 1;
      }
    }
  }
}
