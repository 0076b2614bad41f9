/**
 * The behaviour plugin of the plugin engine (`UserVitals`): page and
 * origin information kept in the metrics store, route changes, clicks on
 * mounted elements and custom events appended to it, and one breadcrumb
 * per recorded behaviour and per HTTP completion.
 *
 * The store keeps references to the records it is given, so a field that a
 * handler deletes after `add` is gone from the stored record too. The
 * records that handlers delete from are therefore objects here.
 */
module UserVitals {
  import opened Wrappers
  import JsStrings
  import MetricsStore
  import BehaviorStore
  import Transport
  import HttpMetrics
  import ErrorVitals

  /** `UserVitals.metricsName`. */
  datatype MetricsName = PI | OI | RCR | CBR | CDR | HT {
    function Key(): string {
      match this
      case PI => "page-information"
      case OI => "origin-information"
      case RCR => "router-change-record"
      case CBR => "click-behavior-record"
      case CDR => "custom-define-record"
      case HT => "http-record"
    }
  }

  /** Different metrics are stored under different keys. */
  lemma KeysDistinct(a: MetricsName, b: MetricsName)
    ensures a != b ==> a.Key() != b.Key()
  {
  }

  /** The parts of `IPageInformation` the plugin reads. */
  datatype PageInformation = PageInformation(pathname: string, href: string, title: string)

  /** `IOriginInformation`. */
  datatype OriginInformation = OriginInformation(referrer: string, navigationType: string)

  /** `ICustomAnalyticsData`. */
  datatype CustomAnalyticsData = CustomAnalyticsData(
    eventCategory: string, eventAction: string, eventLabel: string, eventValue: Option<string>)

  /** An entry of a click's `path`, or its `target`; `tagName` is missing on the window and the document. */
  datatype Element = Element(tagName: Option<string>, id: string, classList: seq<string>, textContent: Option<string>)

  /** The `tagInfo` of a click record. */
  datatype TagInfo = TagInfo(id: string, classList: seq<string>, tagName: Option<string>, text: Option<string>)

  /** A click: the composed `path` (absent in some browsers) and the `target`. */
  datatype ClickEvent = ClickEvent(path: Option<seq<Element>>, target: Element)

  /** A route-change record (`jumpType`, `timestamp`, `pageInfo`). */
  class RouteRecord {
    const jumpType: string
    const timestamp: int
    var pageInfo: Option<PageInformation>

    constructor (jumpType: string, timestamp: int, pageInfo: Option<PageInformation>)
      ensures this.jumpType == jumpType && this.timestamp == timestamp && this.pageInfo == pageInfo
    {
      this.jumpType := jumpType;
      this.timestamp := timestamp;
      this.pageInfo := pageInfo;
    }
  }

  /** A click record (`tagInfo`, `timestamp`, `pageInfo`). */
  class ClickRecord {
    const tagInfo: TagInfo
    const timestamp: int
    var pageInfo: Option<PageInformation>

    constructor (tagInfo: TagInfo, timestamp: int, pageInfo: Option<PageInformation>)
      ensures this.tagInfo == tagInfo && this.timestamp == timestamp && this.pageInfo == pageInfo
    {
      this.tagInfo := tagInfo;
      this.timestamp := timestamp;
      this.pageInfo := pageInfo;
    }
  }

  /** What the store and the breadcrumbs hold (`IMetrics`, and `IHttpMetrics` in HTTP breadcrumbs). */
  datatype Value =
    | PageValue(page: PageInformation)
    | OriginValue(origin: OriginInformation)
    | RouteValue(route: RouteRecord)
    | ClickValue(click: ClickRecord)
    | CustomValue(custom: CustomAnalyticsData)
    | PageviewValue(timestamp: int, pageInfo: PageInformation, originInformation: OriginInformation)
    | HttpValue(http: HttpMetrics.HttpMetrics)

  /** `IBehaviorStack`: the name, the value, and the `page`/`timestamp` of `getExtends`. */
  datatype Behavior = Behavior(name: string, value: Value, page: string, timestamp: int)

  const MaxBehaviorRecords: int := 100

  /** `clickMountList`: `["button"]`, lowercased. */
  const ClickMountList: seq<string> := ["button"]

  /** `mountList.includes(x.tagName?.toLowerCase())`. */
  predicate Mounted(x: Element, mountList: seq<string>) {
    x.tagName.Some? && JsStrings.ToLower(x.tagName.value) in mountList
  }

  /** The position `path.find` stops at: the first mounted element, or `|path|`. */
  function FirstMounted(path: seq<Element>, mountList: seq<string>): (r: nat)
    ensures r <= |path|
    ensures r < |path| ==> Mounted(path[r], mountList)
    ensures forall j :: 0 <= j < r ==> !Mounted(path[j], mountList)
  {
    if path == [] then 0
    else if Mounted(path[0], mountList) then 0
    else 1 + FirstMounted(path[1..], mountList)
  }

  /**
   * The click handler's target: the first mounted element of `path`;
   * failing that, `target` when it is mounted; otherwise none.
   */
  function ClickTarget(e: ClickEvent, mountList: seq<string>): (r: Option<Element>)
    ensures r.Some? ==> Mounted(r.value, mountList)
    ensures forall i ::
      (e.path.Some? && 0 <= i < |e.path.value| && Mounted(e.path.value[i], mountList)
       && forall j :: 0 <= j < i ==> !Mounted(e.path.value[j], mountList))
      ==> r == Some(e.path.value[i])
    ensures (e.path.None? || forall i :: 0 <= i < |e.path.value| ==> !Mounted(e.path.value[i], mountList)) ==>
      r == if Mounted(e.target, mountList) then Some(e.target) else None
  {
    var found := if e.path.Some? && FirstMounted(e.path.value, mountList) < |e.path.value|
      then Some(e.path.value[FirstMounted(e.path.value, mountList)]) else None;
    if found.Some? then found
    else if Mounted(e.target, mountList) then Some(e.target)
    else None
  }

  /** The HTTP load handler's record: a completion with status below 400 loses `response` and `body`. */
  function Sanitize(m: HttpMetrics.HttpMetrics): (r: HttpMetrics.HttpMetrics)
    ensures r.(response := m.response, body := m.body) == m
    ensures m.status < HttpMetrics.ErrorStatus ==> r.response.None? && r.body.None?
    ensures m.status >= HttpMetrics.ErrorStatus ==> r == m
  {
    if m.status < HttpMetrics.ErrorStatus then m.(response := None, body := None) else m
  }

  /**
   * The sanitizing threshold is the error plugin's: a completion it reports
   * keeps `response` and `body` in its breadcrumb, and one it ignores loses
   * them.
   */
  lemma BreadcrumbKeepsReportedResponses(m: HttpMetrics.HttpMetrics)
    ensures ErrorVitals.HttpHandler(m).Some? ==> Sanitize(m) == m
    ensures ErrorVitals.HttpHandler(m).None? ==> Sanitize(m).response.None? && Sanitize(m).body.None?
  {
  }

  /** `userSendHandler(data)`: the structure handed to the transport, under the PV category. */
  function UserSendHandler(data: Value): (r: Transport.TransportStructure<Value>)
    ensures r.category == Transport.PV && r.context == Some(data) && r.contexts == None
  {
    Transport.FormatTransportData(Transport.PV, Transport.Object(data))
  }

  /** The keys `add` writes hold arrays whenever present. */
  predicate RecordKeysHoldArrays(state: map<string, MetricsStore.Slot<Value>>) {
    && (RCR.Key() in state ==> state[RCR.Key()].Many?)
    && (CBR.Key() in state ==> state[CBR.Key()].Many?)
    && (CDR.Key() in state ==> state[CDR.Key()].Many?)
  }

  class UserVitals {
    const metrics: MetricsStore.MetricsStore<Value>
    const breadcrumbs: BehaviorStore.BehaviorStore<Behavior>
    const clickMountList: seq<string>

    ghost predicate Valid()
      reads this, metrics
    {
      RecordKeysHoldArrays(metrics.state)
    }

    /** The constructor: `initPageInfo` and `initOriginInfo` store the page and origin information. */
    constructor (page: PageInformation, origin: OriginInformation)
      ensures Valid() && fresh(metrics) && fresh(breadcrumbs)
      ensures metrics.state == map[PI.Key() := MetricsStore.One(PageValue(page)), OI.Key() := MetricsStore.One(OriginValue(origin))]
      ensures breadcrumbs.stack == [] && breadcrumbs.maxBehaviorRecords == MaxBehaviorRecords
      ensures clickMountList == ClickMountList
    {
      var m := new MetricsStore.MetricsStore<Value>();
      m.Set(PI.Key(), MetricsStore.One(PageValue(page)));
      m.Set(OI.Key(), MetricsStore.One(OriginValue(origin)));
      metrics := m;
      breadcrumbs := new BehaviorStore.BehaviorStore<Behavior>(MaxBehaviorRecords);
      clickMountList := ClickMountList;
    }

    /** The custom-event handler: stored, sent under PV, and one breadcrumb. */
    method OnCustomEvent(options: CustomAnalyticsData, page: PageInformation, now: int)
      returns (sent: Transport.TransportStructure<Value>)
      requires Valid()
      modifies metrics`state, breadcrumbs`stack
      ensures Valid()
      ensures metrics.state == MetricsStore.Appended(old(metrics.state), CDR.Key(), CustomValue(options))
      ensures sent == UserSendHandler(CustomValue(options))
      ensures breadcrumbs.stack == BehaviorStore.PushSpec(old(breadcrumbs.stack), breadcrumbs.maxBehaviorRecords,
        Behavior(CDR.Key(), CustomValue(options), page.pathname, now))
    {
      var ok := metrics.Add(CDR.Key(), CustomValue(options));
      sent := UserSendHandler(CustomValue(options));
      breadcrumbs.Push(Behavior(CDR.Key(), CustomValue(options), page.pathname, now));
    }

    /**
     * The route-change handler: the record is appended, then its `pageInfo`
     * is deleted, from the stored record as well; the breadcrumb carries
     * the same record.
     */
    method OnRouteChange(jumpType: string, page: PageInformation, now: int) returns (record: RouteRecord)
      requires Valid()
      modifies metrics`state, breadcrumbs`stack
      ensures Valid()
      ensures fresh(record) && record.jumpType == jumpType && record.timestamp == now && record.pageInfo == None
      ensures metrics.state == MetricsStore.Appended(old(metrics.state), RCR.Key(), RouteValue(record))
      ensures breadcrumbs.stack == BehaviorStore.PushSpec(old(breadcrumbs.stack), breadcrumbs.maxBehaviorRecords,
        Behavior(RCR.Key(), RouteValue(record), page.pathname, now))
    {
      record := new RouteRecord(jumpType, now, Some(page));
      var ok := metrics.Add(RCR.Key(), RouteValue(record));
      record.pageInfo := None;
      breadcrumbs.Push(Behavior(RCR.Key(), RouteValue(record), page.pathname, now));
    }

    /** The pageview handler: a PV report of the time, page and origin; nothing is stored. */
    method OnPageview(page: PageInformation, origin: OriginInformation, now: int)
      returns (sent: Transport.TransportStructure<Value>)
      ensures sent.category == Transport.PV && sent.contexts == None
      ensures sent.context == Some(PageviewValue(now, page, origin))
    {
      sent := UserSendHandler(PageviewValue(now, page, origin));
    }

    /**
     * The click handler: nothing without a mounted target; otherwise one
     * record appended (its `pageInfo` deleted afterwards) and one
     * breadcrumb with the same record.
     */
    method OnClick(e: ClickEvent, page: PageInformation, now: int) returns (record: Option<ClickRecord>)
      requires Valid()
      modifies metrics`state, breadcrumbs`stack
      ensures Valid()
      ensures ClickTarget(e, clickMountList).None? ==>
        record.None? && metrics.state == old(metrics.state) && breadcrumbs.stack == old(breadcrumbs.stack)
      ensures ClickTarget(e, clickMountList).Some? ==>
        var t := ClickTarget(e, clickMountList).value;
        && record.Some? && fresh(record.value)
        && record.value.tagInfo == TagInfo(t.id, t.classList, t.tagName, t.textContent)
        && record.value.timestamp == now && record.value.pageInfo == None
        && metrics.state == MetricsStore.Appended(old(metrics.state), CBR.Key(), ClickValue(record.value))
        && breadcrumbs.stack == BehaviorStore.PushSpec(old(breadcrumbs.stack), breadcrumbs.maxBehaviorRecords,
             Behavior(CBR.Key(), ClickValue(record.value), page.pathname, now))
    {
      var target := ClickTarget(e, clickMountList);
      if target.None? {
        return None;
      }
      var t := target.value;
      var r := new ClickRecord(TagInfo(t.id, t.classList, t.tagName, t.textContent), now, Some(page));
      var ok := metrics.Add(CBR.Key(), ClickValue(r));
      r.pageInfo := None;
      breadcrumbs.Push(Behavior(CBR.Key(), ClickValue(r), page.pathname, now));
      record := Some(r);
    }

    /** The HTTP load handler: one `http-record` breadcrumb per completion, sanitized below status 400. */
    method OnHttpLoad(m: HttpMetrics.HttpMetrics, page: PageInformation, now: int)
      modifies breadcrumbs`stack
      ensures breadcrumbs.stack == BehaviorStore.PushSpec(old(breadcrumbs.stack), breadcrumbs.maxBehaviorRecords,
        Behavior(HT.Key(), HttpValue(Sanitize(m)), page.pathname, now))
    {
      var metrics := m;
      if metrics.status < HttpMetrics.ErrorStatus {
        metrics := metrics.(response := None, body := None);
      }
      breadcrumbs.Push(Behavior(HT.Key(), HttpValue(metrics), page.pathname, now));
    }
  }

  /** A route change leaves a stored record without `pageInfo`, shared with the newest breadcrumb. */
  method RouteRecordLosesPageInfo(page: PageInformation, origin: OriginInformation)
  {
    var u := new UserVitals(page, origin);
    var record := u.OnRouteChange("pushState", page, 1000);
    var stored := u.metrics.state[RCR.Key()].values;
    assert stored == [RouteValue(record)];
    assert stored[0].route.pageInfo == None;
    assert u.breadcrumbs.stack == [Behavior(RCR.Key(), RouteValue(record), page.pathname, 1000)];
  }
}
