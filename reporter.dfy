/**
 * The batching reporter of the monitor stack: a pending queue, a `sending`
 * latch, a flush that moves the whole queue into one in-flight batch, a
 * bounded retry loop (beacon first, then fetch) and an interval timer.
 *
 * The asynchronous send is split into two steps: `Flush` starts a send and
 * `Resolve` is the moment its promise settles. What the network answers to
 * each attempt is an input (`env`), and timer handles are inputs too.
 */
module Reporter {
  import opened Wrappers

  /** Flush as soon as this many records are queued. */
  const MaxCache: nat := 10
  /** Retries after the first attempt. */
  const RetryCount: nat := 3
  /** Period of the flush timer, and the delay between attempts, in ms. */
  const FlushIntervalMs: nat := 5000
  const RetryDelayMs: nat := 1000

  /**
   * The environment's answer to one transmission attempt: what
   * `navigator.sendBeacon` returned (false when it threw), and whether
   * `fetch` resolved with an ok response (false when it rejected or the
   * response was not ok).
   */
  datatype Attempt = Attempt(beaconAccepted: bool, fetchOk: bool)

  /** How a call to `sendData` settles. */
  datatype SendOutcome =
    | Skipped                               // no report URL: resolves, nothing sent
    | Delivered(attempt: nat, byBeacon: bool) // the attempt that got through
    | Failed                                // rejected after the last retry

  /** `tryUseBeacon`: the beacon is used only when it exists and a URL is set. */
  function TryUseBeacon(beaconSupported: bool, reportUrl: string, a: Attempt): (r: bool)
    ensures r <==> beaconSupported && reportUrl != "" && a.beaconAccepted
  {
    if !beaconSupported || reportUrl == "" then false else a.beaconAccepted
  }

  /** One attempt of `sendData` succeeds through the beacon or through fetch. */
  predicate AttemptSucceeds(beaconSupported: bool, reportUrl: string, a: Attempt) {
    TryUseBeacon(beaconSupported, reportUrl, a) || a.fetchOk
  }

  /**
   * `sendData(data, retryTimes)`: attempt number `retryTimes` asks the
   * beacon first and fetch only when the beacon did not take the batch;
   * a failed attempt is retried while `retryTimes < RetryCount`, and the
   * last failure rejects.
   */
  function SendData(reportUrl: string, beaconSupported: bool, env: nat -> Attempt, retryTimes: nat): (r: SendOutcome)
    requires retryTimes <= RetryCount
    ensures r == Skipped <==> reportUrl == ""
    ensures r.Delivered? ==>
      && retryTimes <= r.attempt <= RetryCount
      && AttemptSucceeds(beaconSupported, reportUrl, env(r.attempt))
      && (r.byBeacon <==> TryUseBeacon(beaconSupported, reportUrl, env(r.attempt)))
      && forall j :: retryTimes <= j < r.attempt ==> !AttemptSucceeds(beaconSupported, reportUrl, env(j))
    ensures r == Failed <==>
      reportUrl != "" && forall j :: retryTimes <= j <= RetryCount ==> !AttemptSucceeds(beaconSupported, reportUrl, env(j))
    decreases RetryCount - retryTimes
  {
    if reportUrl == "" then Skipped
    else if TryUseBeacon(beaconSupported, reportUrl, env(retryTimes)) then Delivered(retryTimes, true)
    else if env(retryTimes).fetchOk then Delivered(retryTimes, false)
    else if retryTimes < RetryCount then SendData(reportUrl, beaconSupported, env, retryTimes + 1)
    else Failed
  }

  /** How many attempts a settled send made. */
  function AttemptsMade(o: SendOutcome): nat {
    match o
    case Skipped => 0
    case Delivered(k, _) => k + 1
    case Failed => RetryCount + 1
  }

  /**
   * A send from the start makes at most `RetryCount + 1` attempts, and it
   * fails only when every one of them failed.
   */
  lemma SendDataBounded(reportUrl: string, beaconSupported: bool, env: nat -> Attempt)
    ensures AttemptsMade(SendData(reportUrl, beaconSupported, env, 0)) <= RetryCount + 1
    ensures SendData(reportUrl, beaconSupported, env, 0) == Failed <==>
      reportUrl != "" && forall j :: 0 <= j <= RetryCount ==> !AttemptSucceeds(beaconSupported, reportUrl, env(j))
  {
  }

  /** The first attempt that succeeds is the one that delivers. */
  lemma SendDataFirstSuccess(reportUrl: string, beaconSupported: bool, env: nat -> Attempt, k: nat)
    requires reportUrl != "" && k <= RetryCount
    requires AttemptSucceeds(beaconSupported, reportUrl, env(k))
    requires forall j :: 0 <= j < k ==> !AttemptSucceeds(beaconSupported, reportUrl, env(j))
    ensures SendData(reportUrl, beaconSupported, env, 0).Delivered?
    ensures SendData(reportUrl, beaconSupported, env, 0).attempt == k
  {
  }

  class Reporter<T> {
    const reportUrl: string
    /** Whether `navigator.sendBeacon` exists in this environment. */
    const beaconSupported: bool
    var queue: seq<T>
    var sending: bool
    /** `dataToSend` of the send in progress (empty when none is). */
    var inFlight: seq<T>
    var timer: Option<nat>

    ghost predicate Valid()
      reads this
    {
      sending <==> inFlight != []
    }

    /** Every record that is neither delivered nor dropped, oldest first. */
    ghost function Pending(): seq<T>
      reads this
    {
      inFlight + queue
    }

    /** `new Reporter(reportUrl)`: empty queue, interval timer installed. */
    constructor (reportUrl: string, beaconSupported: bool, timerId: nat)
      ensures Valid()
      ensures this.reportUrl == reportUrl && this.beaconSupported == beaconSupported
      ensures queue == [] && !sending && inFlight == [] && timer == Some(timerId)
    {
      this.reportUrl := reportUrl;
      this.beaconSupported := beaconSupported;
      queue, sending, inFlight, timer := [], false, [], None;
      new;
      StartTimer(timerId);
    }

    /** `startTimer`: installs the interval unless one is installed. */
    method StartTimer(timerId: nat)
      modifies this`timer
      ensures timer == if old(timer).Some? then old(timer) else Some(timerId)
    {
      if timer.Some? { return; }
      timer := Some(timerId);
    }

    /** `stopTimer`. */
    method StopTimer()
      modifies this`timer
      ensures timer == None
    {
      if timer == None { return; }
      timer := None;
    }

    /**
     * `flush`: a no-op while a send is in flight or when nothing is queued;
     * otherwise the whole queue, in order, becomes the in-flight batch.
     */
    method Flush()
      requires Valid()
      modifies this`queue, this`sending, this`inFlight
      ensures Valid()
      ensures Pending() == old(Pending())
      ensures old(sending) || old(queue) == [] ==>
        queue == old(queue) && sending == old(sending) && inFlight == old(inFlight)
      ensures !old(sending) && old(queue) != [] ==>
        inFlight == old(queue) && queue == [] && sending
    {
      if sending || |queue| == 0 { return; }
      var dataToSend := queue;
      queue := [];
      sending := true;
      inFlight := dataToSend;
    }

    /**
     * `report`: appends the record and flushes once at least `MaxCache`
     * records are queued; the flush's own guard keeps the queue growing
     * while a send is in flight.
     */
    method Report(data: T)
      requires Valid()
      modifies this`queue, this`sending, this`inFlight
      ensures Valid()
      ensures Pending() == old(Pending()) + [data]
      ensures |old(queue)| + 1 < MaxCache || old(sending) ==>
        queue == old(queue) + [data] && sending == old(sending) && inFlight == old(inFlight)
      ensures |old(queue)| + 1 >= MaxCache && !old(sending) ==>
        inFlight == old(queue) + [data] && queue == [] && sending
    {
      queue := queue + [data];
      if |queue| >= MaxCache {
        Flush();
      }
    }

    /**
     * The in-flight send settles: on success, or when no URL is set, the
     * batch is gone; on terminal failure it is put back in front of what
     * was reported meanwhile. Either way `sending` drops.
     */
    method Resolve(env: nat -> Attempt) returns (outcome: SendOutcome)
      requires Valid() && sending
      modifies this`queue, this`sending, this`inFlight
      ensures Valid()
      ensures outcome == SendData(reportUrl, beaconSupported, env, 0)
      ensures !sending && inFlight == []
      ensures outcome == Failed ==> queue == old(inFlight) + old(queue) && Pending() == old(Pending())
      ensures outcome != Failed ==> queue == old(queue)
    {
      outcome := SendData(reportUrl, beaconSupported, env, 0);
      if outcome == Failed {
        queue := inFlight + queue;
      }
      sending := false;
      inFlight := [];
    }

    /** One tick of the flush interval; it fires only while installed. */
    method OnInterval()
      requires Valid()
      modifies this`queue, this`sending, this`inFlight
      ensures Valid()
      ensures Pending() == old(Pending())
      ensures old(timer) == None || old(sending) || old(queue) == [] ==>
        queue == old(queue) && sending == old(sending) && inFlight == old(inFlight)
      ensures old(timer).Some? && !old(sending) && old(queue) != [] ==>
        inFlight == old(queue) && queue == [] && sending
    {
      if timer.Some? {
        Flush();
      }
    }

    /** `destroy`: stops the timer, then flushes. */
    method Destroy()
      requires Valid()
      modifies this
      ensures Valid()
      ensures timer == None && Pending() == old(Pending())
      ensures old(sending) || old(queue) == [] ==>
        queue == old(queue) && sending == old(sending) && inFlight == old(inFlight)
      ensures !old(sending) && old(queue) != [] ==> inFlight == old(queue) && queue == [] && sending
    {
      StopTimer();
      Flush();
    }
  }

  /**
   * A batch `[r1, r2]` fails terminally while `r3` is reported: the queue
   * afterwards is `[r1, r2, r3]`.
   */
  method FailedBatchIsRequeued<T>(r1: T, r2: T, r3: T, env: nat -> Attempt)
    requires forall j :: 0 <= j <= RetryCount ==> !env(j).fetchOk && !env(j).beaconAccepted
  {
    var rep := new Reporter<T>("https://collector.example/report", true, 1);
    rep.Report(r1);
    rep.Report(r2);
    rep.Flush();
    assert rep.inFlight == [r1, r2];
    rep.Report(r3);
    var outcome := rep.Resolve(env);
    assert outcome == Failed;
    assert rep.queue == [r1, r2, r3];
  }
}
