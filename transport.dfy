/**
 * The transport of the plugin engine: the envelope built by
 * `formatTransportData` and the choice between the beacon and the
 * XMLHttpRequest handler.
 */
module Transport {
  import opened Wrappers

  /** `Transport.transportCategory`. */
  datatype Category = PV | PERF | API | ERROR | CUS {
    function Name(): string {
      match this
      case PV => "pv"
      case PERF => "perf"
      case API => "api"
      case ERROR => "error"
      case CUS => "custom"
    }
  }

  /** One call of the engine's `report(category, data)`. */
  datatype Report<T> = Report(category: Category, data: T)

  /** A payload: one object, or an array of them. */
  datatype Data<V> = Object(obj: V) | Array(items: seq<V>)

  /** `ITransportStructure`: the category and exactly one of `context` / `contexts`. */
  datatype TransportStructure<V> = TransportStructure(category: Category, context: Option<V>, contexts: Option<seq<V>>)

  /** `formatTransportData(category, data)`. */
  function FormatTransportData<V>(category: Category, data: Data<V>): (r: TransportStructure<V>)
    ensures r.category == category
    ensures data.Array? ==> r.contexts == Some(data.items) && r.context == None
    ensures data.Object? ==> r.context == Some(data.obj) && r.contexts == None
    ensures r.context.Some? != r.contexts.Some?
  {
    match data
    case Array(items) => TransportStructure(category, None, Some(items))
    case Object(obj) => TransportStructure(category, Some(obj), None)
  }

  datatype Handler = BeaconHandler | XmlHandler

  /** `initTransportHandler`: the beacon iff `navigator.sendBeacon` is a function. */
  function InitTransportHandler(sendBeaconIsFunction: bool): (h: Handler)
    ensures h == BeaconHandler <==> sendBeaconIsFunction
  {
    if sendBeaconIsFunction then BeaconHandler else XmlHandler
  }

  datatype Channel = Beacon | Xhr

  /**
   * The channels one call of the chosen handler uses, given what
   * `sendBeacon` returns: the XMLHttpRequest fallback runs only after the
   * beacon refused.
   */
  function HandlerChannels(h: Handler, beaconStatus: bool): (r: seq<Channel>)
    ensures |r| >= 1
    ensures (Xhr in r) <==> (h == XmlHandler || !beaconStatus)
    ensures (Beacon in r) <==> h == BeaconHandler
    ensures Beacon in r ==> r[0] == Beacon
  {
    match h
    case XmlHandler => [Xhr]
    case BeaconHandler => if beaconStatus then [Beacon] else [Beacon, Xhr]
  }
}
