/**
 * The engine's performance API service: the arithmetic that turns a
 * navigation timing entry into navigation metrics, and the records the
 * resource observer appends to a caller-owned flow. Timestamps are reals.
 */
module PerformanceApi {

  /** The `PerformanceNavigationTiming` fields read. */
  datatype NavigationEntry = NavigationEntry(
    fetchStart: real, domainLookupStart: real, domainLookupEnd: real,
    connectStart: real, secureConnectionStart: real, connectEnd: real,
    requestStart: real, responseStart: real, responseEnd: real,
    domInteractive: real, domContentLoadedEventEnd: real, loadEventStart: real)

  /** `IMPerformanceNavigationTiming`. */
  datatype NavigationTiming = NavigationTiming(
    FP: real, TTI: real, DomReady: real, Load: real, FirstByte: real,
    DNS: real, TCP: real, SSL: real, TTFB: real, Trans: real, DomParse: real, Res: real)

  /** `resolveNavigationTiming`. */
  function ResolveNavigationTiming(e: NavigationEntry): (r: NavigationTiming)
    ensures e.secureConnectionStart == 0.0 ==> r.SSL == 0.0
    ensures e.secureConnectionStart != 0.0 ==> r.SSL == e.connectEnd - e.secureConnectionStart
    ensures r.TTI == r.FP + r.DomParse
    ensures r.Load == r.DomReady + r.Res
    ensures r.TTFB + r.Trans == e.responseEnd - e.requestStart
    ensures r.FirstByte == r.DNS + (e.responseStart - e.domainLookupEnd)
  {
    NavigationTiming(
      FP := e.responseEnd - e.fetchStart,
      TTI := e.domInteractive - e.fetchStart,
      DomReady := e.domContentLoadedEventEnd - e.fetchStart,
      Load := e.loadEventStart - e.fetchStart,
      FirstByte := e.responseStart - e.domainLookupStart,
      DNS := e.domainLookupEnd - e.domainLookupStart,
      TCP := e.connectEnd - e.connectStart,
      SSL := if e.secureConnectionStart != 0.0 then e.connectEnd - e.secureConnectionStart else 0.0,
      TTFB := e.responseStart - e.requestStart,
      Trans := e.responseEnd - e.responseStart,
      DomParse := e.domInteractive - e.responseEnd,
      Res := e.loadEventStart - e.domContentLoadedEventEnd)
  }

  /** The order in which the browser's timeline marks happen. */
  predicate Ordered(e: NavigationEntry) {
    && e.fetchStart <= e.domainLookupStart <= e.domainLookupEnd <= e.connectStart
    && (e.secureConnectionStart == 0.0 || e.connectStart <= e.secureConnectionStart <= e.connectEnd)
    && e.connectStart <= e.connectEnd <= e.requestStart <= e.responseStart <= e.responseEnd
    && e.responseEnd <= e.domInteractive <= e.domContentLoadedEventEnd <= e.loadEventStart
  }

  /** On an ordered timeline every metric is non-negative and the phases nest inside the load. */
  lemma OrderedTimingsNonNegative(e: NavigationEntry)
    requires Ordered(e)
    ensures var r := ResolveNavigationTiming(e);
      && r.FP >= 0.0 && r.TTI >= 0.0 && r.DomReady >= 0.0 && r.Load >= 0.0 && r.FirstByte >= 0.0
      && r.DNS >= 0.0 && r.TCP >= 0.0 && r.SSL >= 0.0 && r.TTFB >= 0.0 && r.Trans >= 0.0
      && r.DomParse >= 0.0 && r.Res >= 0.0
      && r.FP <= r.TTI <= r.DomReady <= r.Load
  {
  }

  /** The `PerformanceResourceTiming` fields read. */
  datatype ResourceEntry = ResourceEntry(
    name: string, transferSize: int, initiatorType: string, startTime: real, responseEnd: real,
    domainLookupStart: real, domainLookupEnd: real, connectStart: real, connectEnd: real,
    secureConnectionStart: real, requestStart: real, responseStart: real)

  /** `IResourceFlowTiming`. */
  datatype ResourceFlowTiming = ResourceFlowTiming(
    name: string, transferSize: int, initiatorType: string, startTime: real, responseEnd: real,
    dnsLookup: real, initialConnect: real, ssl: real, request: real, ttfb: real, contentDownload: real)

  /** The record `getResourceFlow`'s entry handler builds from one entry. */
  function ResourceRecord(e: ResourceEntry): (r: ResourceFlowTiming)
    ensures r.name == e.name && r.transferSize == e.transferSize && r.initiatorType == e.initiatorType
    ensures r.startTime == e.startTime && r.responseEnd == e.responseEnd
    ensures r.dnsLookup == e.domainLookupEnd - e.domainLookupStart && r.initialConnect == e.connectEnd - e.connectStart
    ensures r.request == r.ttfb == r.contentDownload == e.responseStart - e.requestStart
    ensures r.ssl == e.connectEnd - e.secureConnectionStart
  {
    ResourceFlowTiming(
      e.name, e.transferSize, e.initiatorType, e.startTime, e.responseEnd,
      e.domainLookupEnd - e.domainLookupStart, e.connectEnd - e.connectStart,
      e.connectEnd - e.secureConnectionStart,
      e.responseStart - e.requestStart, e.responseStart - e.requestStart, e.responseStart - e.requestStart)
  }

  /** Without a TLS handshake (`secureConnectionStart` 0) the resource `ssl` is the whole `connectEnd`. */
  lemma ResourceSslWithoutTls(e: ResourceEntry)
    requires e.secureConnectionStart == 0.0
    ensures ResourceRecord(e).ssl == e.connectEnd
  {
  }

  function ResourceRecords(es: seq<ResourceEntry>): (r: seq<ResourceFlowTiming>)
    ensures |r| == |es|
    ensures forall i :: 0 <= i < |es| ==> r[i] == ResourceRecord(es[i])
  {
    if es == [] then [] else ResourceRecords(es[..|es| - 1]) + [ResourceRecord(es[|es| - 1])]
  }

  /** The caller-owned array the resource observer writes into. */
  class ResourceFlow {
    var records: seq<ResourceFlowTiming>

    constructor ()
      ensures records == []
    {
      records := [];
    }
  }

  /** `getResourceFlow`'s entry handler: one record appended per entry. */
  method ResourceEntryHandler(flow: ResourceFlow, e: ResourceEntry)
    modifies flow
    ensures flow.records == old(flow.records) + [ResourceRecord(e)]
  {
    flow.records := flow.records + [ResourceRecord(e)];
  }

  /** One observer batch: the handler applied to each entry, in arrival order. */
  method ObserveResources(flow: ResourceFlow, batch: seq<ResourceEntry>)
    modifies flow
    ensures flow.records == old(flow.records) + ResourceRecords(batch)
  {
    var i := 0;
    while i < |batch|
      invariant 0 <= i <= |batch|
      invariant flow.records == old(flow.records) + ResourceRecords(batch[..i])
    {
      ResourceEntryHandler(flow, batch[i]);
      assert batch[..i + 1][..i] == batch[..i];
      i := i + 1;
    }
    assert batch[..|batch|] == batch;
  }
}
