/**
 * The resource monitor of the monitor stack: performance entries of type
 * `resource` become resource records, one per entry, in order.
 */
module ResourceMonitor {
  import JsStrings
  import Reporter
  import opened ReportData

  /** The fields of a `PerformanceEntry`/`PerformanceResourceTiming` read. */
  datatype PerfEntry = PerfEntry(
    entryType: string, name: string, initiatorType: string, duration: real,
    transferSize: int, encodedBodySize: int)

  /** The entries the monitor reports: those of type `resource`. */
  predicate IsResource(e: PerfEntry) {
    e.entryType == "resource"
  }

  /** The last piece of `s.split(sep)` is a suffix of `s`. */
  lemma {:induction false} SplitLastIsSuffix(s: string, sep: char)
    ensures var parts := JsStrings.Split(s, sep);
      var last := parts[|parts| - 1];
      && |last| <= |s| && last == s[|s| - |last|..]
      && (|parts| == 1 ==> parts[0] == s)
      && (|parts| > 1 ==> |last| < |s| && s[|s| - |last| - 1] == sep)
    decreases |s|
  {
    if s != [] {
      SplitLastIsSuffix(s[1..], sep);
      var rest := JsStrings.Split(s[1..], sep);
      var last := rest[|rest| - 1];
      var parts := JsStrings.Split(s, sep);
      assert s[1..][|s[1..]| - |last|..] == s[|s| - |last|..];
      if |rest| > 1 {
        assert s[1..][|s[1..]| - |last| - 1] == s[|s| - |last| - 1];
      }
      if s[0] == sep {
        assert parts == [""] + rest;
        assert parts[|parts| - 1] == last;
      } else if |rest| == 1 {
        assert parts == [[s[0]] + rest[0]];
        assert [s[0]] + s[1..] == s;
      } else {
        assert parts == [[s[0]] + rest[0]] + rest[1..];
        assert parts[|parts| - 1] == last;
      }
    }
  }

  /** A string without the separator splits into itself. */
  lemma {:induction false} SplitWithoutSeparator(s: string, sep: char)
    ensures sep !in s ==> JsStrings.Split(s, sep) == [s]
    decreases |s|
  {
    if s != [] && sep !in s {
      SplitWithoutSeparator(s[1..], sep);
      assert [s[0]] + s[1..] == s;
    }
  }

  /** `reportResource`'s name: the URL after its last `/`, or the whole URL when that is empty. */
  function ResourceName(url: string): string {
    var parts := JsStrings.Split(url, '/');
    if parts[|parts| - 1] != "" then parts[|parts| - 1] else url
  }

  /** The name is the part of the URL after its last `/`; the whole URL when it has none or ends in one. */
  lemma ResourceNameIsLastSegment(url: string)
    ensures var r := ResourceName(url);
      && |r| <= |url| && r == url[|url| - |r|..]
      && (r == url || ('/' !in r && r != ""))
      && (r != url ==> |r| < |url| && url[|url| - |r| - 1] == '/')
      && (r == url <==> ('/' !in url || url[|url| - 1] == '/'))
  {
    SplitLastIsSuffix(url, '/');
    SplitWithoutSeparator(url, '/');
  }

  /** `calculateResourceSize`: the transfer size, else the encoded body size, else 0. */
  function CalculateResourceSize(e: PerfEntry): (r: int)
    ensures r == 0 <==> e.transferSize == 0 && e.encodedBodySize == 0
    ensures e.transferSize != 0 ==> r == e.transferSize
    ensures e.transferSize == 0 ==> r == e.encodedBodySize
  {
    if e.transferSize != 0 then e.transferSize
    else if e.encodedBodySize != 0 then e.encodedBodySize
    else 0
  }

  /** The record `reportResource` builds. */
  function ResourceRecord(e: PerfEntry, now: int): (r: ReportData)
    ensures r.ResourceData? && r.url == e.name && r.name == ResourceName(e.name)
    ensures r.initiatorType == e.initiatorType && r.size == CalculateResourceSize(e)
    ensures r.duration as real - 0.5 <= e.duration < r.duration as real + 0.5
  {
    ResourceData(now, ResourceName(e.name), e.name, e.initiatorType, Round(e.duration), CalculateResourceSize(e))
  }

  /** What `handleEntries` reports: one record per `resource` entry, in input order. */
  function ResourceRecords(entries: seq<PerfEntry>, now: int): (r: seq<ReportData>)
    ensures |r| <= |entries|
    ensures forall d :: d in r ==> d.ResourceData?
  {
    if entries == [] then []
    else
      var e := entries[|entries| - 1];
      ResourceRecords(entries[..|entries| - 1], now)
      + if IsResource(e) then [ResourceRecord(e, now)] else []
  }

  /** Entries of other types contribute nothing. */
  lemma {:induction false} OtherTypesIgnored(entries: seq<PerfEntry>, now: int)
    requires forall i :: 0 <= i < |entries| ==> !IsResource(entries[i])
    ensures ResourceRecords(entries, now) == []
  {
    if entries != [] {
      OtherTypesIgnored(entries[..|entries| - 1], now);
    }
  }

  /** Resource entries give exactly one record each, in input order. */
  lemma {:induction false} OneRecordPerEntry(entries: seq<PerfEntry>, now: int)
    requires forall i :: 0 <= i < |entries| ==> IsResource(entries[i])
    ensures |ResourceRecords(entries, now)| == |entries|
    ensures forall i :: 0 <= i < |entries| ==> ResourceRecords(entries, now)[i] == ResourceRecord(entries[i], now)
  {
    if entries != [] {
      var init := entries[..|entries| - 1];
      assert forall i :: 0 <= i < |init| ==> init[i] == entries[i];
      OneRecordPerEntry(init, now);
      OneRecordStep(entries, now);
    }
  }

  /** The induction step of `OneRecordPerEntry`: a trailing `resource` entry appends its record. */
  lemma OneRecordStep(entries: seq<PerfEntry>, now: int)
    requires entries != [] && IsResource(entries[|entries| - 1])
    requires var init := entries[..|entries| - 1];
      && |ResourceRecords(init, now)| == |init|
      && forall i :: 0 <= i < |init| ==> ResourceRecords(init, now)[i] == ResourceRecord(entries[i], now)
    ensures |ResourceRecords(entries, now)| == |entries|
    ensures forall i :: 0 <= i < |entries| ==> ResourceRecords(entries, now)[i] == ResourceRecord(entries[i], now)
  {
    var n := |entries| - 1;
    var r0 := ResourceRecords(entries[..n], now);
    var r := ResourceRecords(entries, now);
    assert r == r0 + [ResourceRecord(entries[n], now)];
    forall i | 0 <= i < |entries|
      ensures r[i] == ResourceRecord(entries[i], now)
    {
      if i < n { assert r[i] == r0[i]; }
    }
  }

  class ResourceMonitor {
    const reporter: Reporter.Reporter<ReportData>

    constructor (reporter: Reporter.Reporter<ReportData>)
      ensures this.reporter == reporter
    {
      this.reporter := reporter;
    }

    /** `handleEntries`. */
    method HandleEntries(entries: seq<PerfEntry>, now: int)
      requires reporter.Valid()
      modifies reporter
      ensures reporter.Valid()
      ensures reporter.Pending() == old(reporter.Pending()) + ResourceRecords(entries, now)
    {
      var i := 0;
      while i < |entries|
        invariant 0 <= i <= |entries|
        invariant reporter.Valid()
        invariant reporter.Pending() == old(reporter.Pending()) + ResourceRecords(entries[..i], now)
      {
        assert entries[..i + 1][..i] == entries[..i];
        if IsResource(entries[i]) {
          ReportResource(entries[i], now);
        }
        i := i + 1;
      }
      assert entries[..|entries|] == entries;
    }

    /** `reportResource`. */
    method ReportResource(e: PerfEntry, now: int)
      requires reporter.Valid()
      modifies reporter
      ensures reporter.Valid()
      ensures reporter.Pending() == old(reporter.Pending()) + [ResourceRecord(e, now)]
    {
      var parts := JsStrings.Split(e.name, '/');
      var name := if parts[|parts| - 1] != "" then parts[|parts| - 1] else e.name;
      var size := CalculateResourceSize(e);
      reporter.Report(ResourceData(now, name, e.name, e.initiatorType, Round(e.duration), size));
    }

    /** `onLoad`: the entries already buffered, when the Performance API offers them. */
    method OnLoad(performanceAvailable: bool, buffered: seq<PerfEntry>, now: int)
      requires reporter.Valid()
      modifies reporter
      ensures reporter.Valid()
      ensures reporter.Pending() == old(reporter.Pending()) + if performanceAvailable then ResourceRecords(buffered, now) else []
    {
      if performanceAvailable {
        HandleEntries(buffered, now);
      }
    }
  }
}
