/**
 * The web-vitals plugin's stateful parts: the CLS session-window
 * aggregator (the closure state of `initCLS`, identical in the plugin and
 * in the monitor copy), the FID handler and the PERF report.
 *
 * Layout-shift values and timestamps are `real`s; floating-point rounding
 * is not modelled.
 */
module WebVitals {
  import opened Wrappers
  import MetricsStore
  import Transport

  /** `WebVitals.metricsName`. */
  datatype MetricName = FP | FCP | LCP | FID | CLS | NT | RF {
    function Key(): string {
      match this
      case FP => "first-paint"
      case FCP => "first-contentful-paint"
      case LCP => "largest-contentful-paint"
      case FID => "first-input-delay"
      case CLS => "cumulative-layout-shift"
      case NT => "navigation-timing"
      case RF => "resource-flow"
    }
  }

  /** Different metrics are stored under different keys. */
  lemma KeysDistinct(a: MetricName, b: MetricName)
    ensures a != b ==> a.Key() != b.Key()
  {
  }

  /** A `layout-shift` entry. */
  datatype LayoutShift = LayoutShift(startTime: real, value: real, hadRecentInput: bool)

  /** A `first-input` entry. */
  datatype EventTiming = EventTiming(startTime: real, processingStart: real)

  /** What the plugin stores under its metric names. */
  datatype PerfMetric =
    | ClsMetric(entry: LayoutShift, clsValue: real, clsEntries: seq<LayoutShift>)
    | FidMetric(delay: real, fidEntry: EventTiming)

  /** An entry joins the session only within 1000 ms of its last entry... */
  const SessionGapMs: real := 1000.0
  /** ...and within 5000 ms of its first. */
  const SessionSpanMs: real := 5000.0

  /** The closure variables of `initCLS`. */
  datatype Session = Session(sessionValue: real, sessionEntries: seq<LayoutShift>, clsValue: real, clsEntries: seq<LayoutShift>)

  const Initial: Session := Session(0.0, [], 0.0, [])

  function Sum(es: seq<LayoutShift>): real {
    if es == [] then 0.0 else Sum(es[..|es| - 1]) + es[|es| - 1].value
  }

  /** The test at the head of the entry handler: does `e` extend the current session? */
  predicate Extends(s: Session, e: LayoutShift) {
    && s.sessionValue != 0.0
    && s.sessionEntries != []
    && e.startTime - s.sessionEntries[|s.sessionEntries| - 1].startTime < SessionGapMs
    && e.startTime - s.sessionEntries[0].startTime < SessionSpanMs
  }

  /** One call of the entry handler. */
  function Step(s: Session, e: LayoutShift): Session {
    if e.hadRecentInput then s
    else
      var value := if Extends(s, e) then s.sessionValue + e.value else e.value;
      var entries := if Extends(s, e) then s.sessionEntries + [e] else [e];
      if value > s.clsValue then Session(value, entries, value, entries)
      else Session(value, entries, s.clsValue, s.clsEntries)
  }

  /** The handler run over a stream of entries, from the initial state. */
  function Run(es: seq<LayoutShift>): Session {
    if es == [] then Initial else Step(Run(es[..|es| - 1]), es[|es| - 1])
  }

  /** The session values reached after each entry that was not input-driven. */
  function Reached(es: seq<LayoutShift>): seq<real> {
    if es == [] then []
    else if es[|es| - 1].hadRecentInput then Reached(es[..|es| - 1])
    else Reached(es[..|es| - 1]) + [Run(es).sessionValue]
  }

  function MaxOr0(xs: seq<real>): (m: real)
    ensures m >= 0.0
    ensures forall i :: 0 <= i < |xs| ==> xs[i] <= m
    ensures m == 0.0 || exists i :: 0 <= i < |xs| && xs[i] == m
  {
    if xs == [] then 0.0
    else
      var m := MaxOr0(xs[..|xs| - 1]);
      if xs[|xs| - 1] > m then xs[|xs| - 1] else m
  }

  /** The state the handler keeps consistent. */
  ghost predicate Consistent(s: Session) {
    && s.sessionValue == Sum(s.sessionEntries)
    && (s.sessionValue != 0.0 ==> s.sessionEntries != [])
    && s.clsValue >= 0.0
  }

  /** An input-driven entry changes nothing. */
  lemma RecentInputIgnored(s: Session, e: LayoutShift)
    requires e.hadRecentInput
    ensures Step(s, e) == s
  {
  }

  /**
   * An entry that is not input-driven either extends the session (its value
   * added, itself appended) or starts a new one holding exactly itself; a
   * session whose value is 0 is never extended.
   */
  lemma StepSession(s: Session, e: LayoutShift)
    requires !e.hadRecentInput
    ensures Extends(s, e) ==>
      Step(s, e).sessionValue == s.sessionValue + e.value && Step(s, e).sessionEntries == s.sessionEntries + [e]
    ensures !Extends(s, e) ==> Step(s, e).sessionValue == e.value && Step(s, e).sessionEntries == [e]
    ensures s.sessionValue == 0.0 ==> Step(s, e).sessionEntries == [e]
  {
  }

  /** `clsValue` never decreases, and it moves (to the session value) only on a strict increase. */
  lemma StepClsMonotone(s: Session, e: LayoutShift)
    ensures Step(s, e).clsValue >= s.clsValue
    ensures Step(s, e).clsValue != s.clsValue ==>
      Step(s, e).sessionValue > s.clsValue && Step(s, e).clsValue == Step(s, e).sessionValue
  {
  }

  lemma SumAppend(es: seq<LayoutShift>, e: LayoutShift)
    ensures Sum(es + [e]) == Sum(es) + e.value
  {
    assert (es + [e])[..|es + [e]| - 1] == es;
  }

  /** The session value is always the sum of the session's entries. */
  lemma StepConsistent(s: Session, e: LayoutShift)
    requires Consistent(s)
    ensures Consistent(Step(s, e))
  {
    if !e.hadRecentInput {
      if Extends(s, e) {
        SumAppend(s.sessionEntries, e);
      } else {
        SumAppend([], e);
        assert [] + [e] == [e];
      }
    }
  }

  /**
   * After any stream of entries the state is consistent and `clsValue` is
   * the largest session value reached so far, or 0.
   */
  lemma {:induction false} RunInvariant(es: seq<LayoutShift>)
    ensures Consistent(Run(es))
    ensures Run(es).clsValue == MaxOr0(Reached(es))
  {
    if es != [] {
      var init := es[..|es| - 1];
      var e := es[|es| - 1];
      RunInvariant(init);
      StepConsistent(Run(init), e);
    }
  }

  /** The worked example: A(0, 0.1), B(500, 0.2), C(6000, 0.5) gives 0.5. */
  lemma ClsExample()
    ensures Run([LayoutShift(0.0, 0.1, false), LayoutShift(500.0, 0.2, false), LayoutShift(6000.0, 0.5, false)]).clsValue == 0.5
  {
    var a, b, c := LayoutShift(0.0, 0.1, false), LayoutShift(500.0, 0.2, false), LayoutShift(6000.0, 0.5, false);
    assert [a, b, c][..2] == [a, b];
    assert [a, b][..1] == [a];
    assert [a][..0] == [];
    var sa := Step(Initial, a);
    assert Run([a]) == sa == Session(0.1, [a], 0.1, [a]);
    var sb := Step(sa, b);
    assert Extends(sa, b);
    assert Run([a, b]) == sb == Session(0.1 + 0.2, [a, b], 0.1 + 0.2, [a, b]);
    assert !Extends(sb, c);
    assert Run([a, b, c]) == Step(sb, c) == Session(0.5, [c], 0.5, [c]);
  }

  class WebVitals {
    const metrics: MetricsStore.MetricsStore<PerfMetric>
    var session: Session
    /** Every layout-shift entry handled so far. */
    ghost var seen: seq<LayoutShift>

    ghost predicate Valid()
      reads this
    {
      session == Run(seen)
    }

    constructor ()
      ensures Valid() && fresh(metrics) && metrics.state == map[] && seen == []
    {
      metrics := new MetricsStore.MetricsStore<PerfMetric>();
      session := Initial;
      seen := [];
    }

    /**
     * The `initCLS` entry handler: the session state steps, and the CLS
     * metric is written, carrying the new `clsValue`, only when the session
     * value rose strictly above `clsValue`.
     */
    method ClsEntryHandler(entry: LayoutShift)
      requires Valid()
      modifies this`session, this`seen, metrics`state
      ensures Valid() && seen == old(seen) + [entry]
      ensures session == Step(old(session), entry)
      ensures metrics.state == if !entry.hadRecentInput && session.sessionValue > old(session).clsValue
        then old(metrics.state)[CLS.Key() := MetricsStore.One(ClsMetric(entry, session.clsValue, session.clsEntries))]
        else old(metrics.state)
    {
      var s := session;
      assert seen + [entry] != [] && (seen + [entry])[..|seen + [entry]| - 1] == seen;
      seen := seen + [entry];
      if !entry.hadRecentInput {
        var sessionValue, sessionEntries := s.sessionValue, s.sessionEntries;
        if sessionValue != 0.0 && sessionEntries != []
          && entry.startTime - sessionEntries[|sessionEntries| - 1].startTime < SessionGapMs
          && entry.startTime - sessionEntries[0].startTime < SessionSpanMs
        {
          sessionValue := sessionValue + entry.value;
          sessionEntries := sessionEntries + [entry];
        } else {
          sessionValue := entry.value;
          sessionEntries := [entry];
        }
        var clsValue, clsEntries := s.clsValue, s.clsEntries;
        if sessionValue > clsValue {
          clsValue := sessionValue;
          clsEntries := sessionEntries;
          metrics.Set(CLS.Key(), MetricsStore.One(ClsMetric(entry, clsValue, clsEntries)));
        }
        session := Session(sessionValue, sessionEntries, clsValue, clsEntries);
      }
    }

    /** The `initFID` entry handler: `delay = processingStart - startTime`. */
    method FidEntryHandler(entry: EventTiming)
      modifies metrics`state
      ensures metrics.state == old(metrics.state)[FID.Key() := MetricsStore.One(FidMetric(entry.processingStart - entry.startTime, entry))]
    {
      metrics.Set(FID.Key(), MetricsStore.One(FidMetric(entry.processingStart - entry.startTime, entry)));
    }

    /** `perfSendHandler`: the PERF category with a snapshot of the store. */
    method PerfSendHandler() returns (category: Transport.Category, data: map<string, MetricsStore.Slot<PerfMetric>>)
      ensures category == Transport.PERF
      ensures data.Keys == metrics.state.Keys
      ensures forall k :: k in data ==> data[k] == metrics.state[k]
    {
      category := Transport.PERF;
      data := metrics.GetValues();
    }
  }
}
