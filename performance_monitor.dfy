/**
 * The performance monitor of the monitor stack: navigation timing
 * guards, paint timing, the LCP approximation of FMP, and the latch that
 * makes the load-time collection happen once.
 */
module PerformanceMonitor {
  import opened Wrappers
  import Reporter
  import opened ReportData

  /** The `performance.timing` fields read; a missing field reads as 0. */
  datatype Timing = Timing(navigationStart: int, domContentLoadedEventEnd: int, loadEventEnd: int, responseStart: int)

  /** `getNavigationTiming`'s partial record. */
  datatype NavigationResult = NavigationResult(DOMReady: Option<int>, load: Option<int>, TTFB: Option<int>)

  /** `getPaintTiming`'s partial record. */
  datatype PaintResult = PaintResult(FP: Option<int>, FCP: Option<int>)

  datatype PaintEntry = PaintEntry(name: string, startTime: real)

  /** The navigation fields: each only when both of its timestamps are non-zero. */
  function NavigationTiming(timing: Option<Timing>): (r: NavigationResult)
    ensures timing.None? ==> r == NavigationResult(None, None, None)
    ensures timing.Some? ==>
      var t := timing.value;
      && (r.DOMReady.Some? <==> t.domContentLoadedEventEnd != 0 && t.navigationStart != 0)
      && (r.load.Some? <==> t.loadEventEnd != 0 && t.navigationStart != 0)
      && (r.TTFB.Some? <==> t.responseStart != 0 && t.navigationStart != 0)
      && (r.DOMReady.Some? ==> r.DOMReady.value == t.domContentLoadedEventEnd - t.navigationStart)
      && (r.load.Some? ==> r.load.value == t.loadEventEnd - t.navigationStart)
      && (r.TTFB.Some? ==> r.TTFB.value == t.responseStart - t.navigationStart)
  {
    if timing.None? then NavigationResult(None, None, None)
    else
      var t := timing.value;
      var started := t.navigationStart != 0;
      NavigationResult(
        if t.domContentLoadedEventEnd != 0 && started then Some(t.domContentLoadedEventEnd - t.navigationStart) else None,
        if t.loadEventEnd != 0 && started then Some(t.loadEventEnd - t.navigationStart) else None,
        if t.responseStart != 0 && started then Some(t.responseStart - t.navigationStart) else None)
  }

  /** `getNavigationTiming`, field by field. */
  method GetNavigationTiming(timing: Option<Timing>) returns (result: NavigationResult)
    ensures result == NavigationTiming(timing)
  {
    result := NavigationResult(None, None, None);
    var t := timing.GetOr(Timing(0, 0, 0, 0));
    var navigationStart := t.navigationStart;
    if t.domContentLoadedEventEnd != 0 && navigationStart != 0 {
      result := result.(DOMReady := Some(t.domContentLoadedEventEnd - navigationStart));
    }
    if t.loadEventEnd != 0 && navigationStart != 0 {
      result := result.(load := Some(t.loadEventEnd - navigationStart));
    }
    if t.responseStart != 0 && navigationStart != 0 {
      result := result.(TTFB := Some(t.responseStart - navigationStart));
    }
  }

  /** The position of the last entry with the given name, or -1. */
  function LastIndex(entries: seq<PaintEntry>, name: string): (r: int)
    ensures -1 <= r < |entries|
    ensures r >= 0 ==> entries[r].name == name
    ensures forall j :: r < j < |entries| ==> entries[j].name != name
  {
    if entries == [] then -1
    else if entries[|entries| - 1].name == name then |entries| - 1
    else
      var init := entries[..|entries| - 1];
      var k := LastIndex(init, name);
      assert forall j :: k < j < |init| ==> init[j].name != name;
      assert forall j :: 0 <= j < |init| ==> init[j] == entries[j];
      k
  }

  /** The start time of the last entry with the given name. */
  function LastStart(entries: seq<PaintEntry>, name: string): (r: Option<real>)
    ensures r.None? <==> forall i :: 0 <= i < |entries| ==> entries[i].name != name
    ensures r.Some? ==>
      exists i :: 0 <= i < |entries| && entries[i].name == name && entries[i].startTime == r.value &&
        forall j :: i < j < |entries| ==> entries[j].name != name
  {
    var k := LastIndex(entries, name);
    if k < 0 then None else Some(entries[k].startTime)
  }

  function RoundOpt(x: Option<real>): Option<int> {
    if x.Some? then Some(Round(x.value)) else None
  }

  /** The paint fields: `FP` and `FCP` from the last entries with those names. */
  function PaintTiming(entries: seq<PaintEntry>): PaintResult {
    PaintResult(RoundOpt(LastStart(entries, "first-paint")), RoundOpt(LastStart(entries, "first-contentful-paint")))
  }

  /** `getPaintTiming`: `FP` and `FCP` from the last entries with those names; other names are ignored. */
  method GetPaintTiming(entries: seq<PaintEntry>) returns (result: PaintResult)
    ensures result.FP == RoundOpt(LastStart(entries, "first-paint"))
    ensures result.FCP == RoundOpt(LastStart(entries, "first-contentful-paint"))
    ensures result == PaintTiming(entries)
  {
    result := PaintResult(None, None);
    var i := 0;
    while i < |entries|
      invariant 0 <= i <= |entries|
      invariant result.FP == RoundOpt(LastStart(entries[..i], "first-paint"))
      invariant result.FCP == RoundOpt(LastStart(entries[..i], "first-contentful-paint"))
    {
      var entry := entries[i];
      assert entries[..i + 1][..i] == entries[..i];
      if entry.name == "first-paint" {
        result := result.(FP := Some(Round(entry.startTime)));
      } else if entry.name == "first-contentful-paint" {
        result := result.(FCP := Some(Round(entry.startTime)));
      }
      i := i + 1;
    }
    assert entries[..|entries|] == entries;
  }

  /** The LCP observer's record: FMP from the batch's last entry, nothing for an empty batch. */
  function LcpRecord(entries: seq<PaintEntry>, now: int): (r: Option<ReportData>)
    ensures r.None? <==> entries == []
    ensures r.Some? ==> r.value == PerformanceData(now, None, None, Some(Round(entries[|entries| - 1].startTime)), None, None, None)
  {
    if entries == [] then None
    else Some(PerformanceData(now, None, None, Some(Round(entries[|entries| - 1].startTime)), None, None, None))
  }

  /** The record a collection reports: navigation fields merged with paint fields. */
  function CollectedRecord(nav: NavigationResult, paint: PaintResult, now: int): ReportData {
    PerformanceData(now, paint.FP, paint.FCP, None, nav.DOMReady, nav.load, nav.TTFB)
  }

  class PerformanceMonitor {
    const reporter: Reporter.Reporter<ReportData>
    /** Whether `window.performance` exists. */
    const performanceAvailable: bool
    var hasReported: bool

    constructor (reporter: Reporter.Reporter<ReportData>, performanceAvailable: bool)
      ensures this.reporter == reporter && this.performanceAvailable == performanceAvailable && !hasReported
    {
      this.reporter := reporter;
      this.performanceAvailable := performanceAvailable;
      hasReported := false;
    }

    /**
     * The timer `onLoad` sets fires: one collection unless one already
     * completed. Without the Performance API nothing is reported and the
     * latch stays open.
     */
    method OnLoadTimer(timing: Option<Timing>, paints: seq<PaintEntry>, now: int)
      requires reporter.Valid()
      modifies this`hasReported, reporter
      ensures reporter.Valid()
      ensures old(hasReported) || !performanceAvailable ==>
        hasReported == old(hasReported) && reporter.Pending() == old(reporter.Pending())
      ensures !old(hasReported) && performanceAvailable ==>
        && hasReported
        && reporter.Pending() == old(reporter.Pending()) + [CollectedRecord(NavigationTiming(timing), PaintTiming(paints), now)]
    {
      if !hasReported {
        CollectPerformanceData(timing, paints, now);
      }
    }

    /** `collectPerformanceData`. */
    method CollectPerformanceData(timing: Option<Timing>, paints: seq<PaintEntry>, now: int)
      requires reporter.Valid()
      modifies this`hasReported, reporter
      ensures reporter.Valid()
      ensures !performanceAvailable ==> hasReported == old(hasReported) && reporter.Pending() == old(reporter.Pending())
      ensures performanceAvailable ==>
        && hasReported
        && reporter.Pending() == old(reporter.Pending()) + [CollectedRecord(NavigationTiming(timing), PaintTiming(paints), now)]
    {
      if !performanceAvailable { return; }
      var nav := GetNavigationTiming(timing);
      var paint := GetPaintTiming(paints);
      reporter.Report(CollectedRecord(nav, paint, now));
      hasReported := true;
    }

    /** The LCP observer callback. */
    method OnLcpEntries(entries: seq<PaintEntry>, now: int)
      requires reporter.Valid()
      modifies reporter
      ensures reporter.Valid()
      ensures var d := LcpRecord(entries, now);
        reporter.Pending() == old(reporter.Pending()) + if d.Some? then [d.value] else []
    {
      if entries != [] {
        var lastEntry := entries[|entries| - 1];
        reporter.Report(PerformanceData(now, None, None, Some(Round(lastEntry.startTime)), None, None, None));
      }
    }
  }

  /** The load timer firing twice collects once. */
  method CollectsOnce(r: Reporter.Reporter<ReportData>, timing: Option<Timing>, now: int)
    requires r.Valid()
    modifies r
  {
    var m := new PerformanceMonitor(r, true);
    m.OnLoadTimer(timing, [], now);
    ghost var afterFirst := r.Pending();
    m.OnLoadTimer(timing, [], now + 1000);
    assert r.Pending() == afterFirst;
  }
}
