/**
 * The engine's error plugin: how errors are classified, how each kind is
 * turned into an exception record with a uid, how stack traces become
 * frames, and how the send handler reports each uid at most once.
 */
module ErrorVitals {
  import opened Wrappers
  import Utf8
  import Base64
  import JsStrings
  import BehaviorStore
  import Transport
  import HttpMetrics

  /** `mechanismType`: where an error was caught. */
  datatype Mechanism = JS | RS | UJ | HP | CS {
    function Name(): (r: string)
      ensures r != ""
    {
      match this
      case JS => "js"
      case RS => "resource"
      case UJ => "unhandledrejection"
      case HP => "http"
      case CS => "cors"
    }
  }

  /** The `Error` object an error event or a rejection carries. */
  datatype JsError = JsError(name: string, message: string, stack: Option<string>)

  /** The element whose load failed (`IResourceErrorTarget`). */
  datatype ResourceTarget = ResourceTarget(src: Option<string>, tagName: Option<string>, outerHTML: Option<string>)

  /** What a window `error` listener receives: an `ErrorEvent`, or a plain `Event` on an element. */
  datatype WindowEvent =
    | ErrorEvent(message: string, filename: string, lineno: int, colno: int, error: Option<JsError>)
    | TargetEvent(target: ResourceTarget)

  /**
   * An unhandled rejection's `reason`: an object with `name`, `message` and
   * `stack` (shown as `text` by a template string), any other value (given
   * by its string form), or `null`/`undefined`.
   */
  datatype Reason =
    | ErrorReason(error: JsError, text: string)
    | OtherReason(text: string)
    | NullReason

  /** One parsed stack line; `NoMatch` is the `{}` of a line the pattern does not match. */
  datatype Frame =
    | NoMatch
    | Frame(filename: string, functionName: string, lineno: Option<int>, colno: Option<int>)

  datatype Meta =
    | JsMeta(file: string, col: int, row: int)
    | ResourceMeta(url: Option<string>, html: Option<string>, tagName: Option<string>)
    | HttpMeta(metrics: HttpMetrics.HttpMetrics)
    | EmptyMeta

  /** `IExceptionMetrics` before the send handler adds the trail and page information. */
  datatype ExceptionMetrics = ExceptionMetrics(
    mechanism: Mechanism, value: Option<string>, errorType: string,
    frames: Option<seq<Frame>>, errorUid: string, meta: Meta)

  /** What the send handler reports under the ERROR category. */
  datatype SubmitParams<B, P> = SubmitParams(exception: ExceptionMetrics, breadcrumbs: seq<B>, pageInformation: Option<P>)

  /** `getErrorKey`. */
  function GetErrorKey(ev: WindowEvent): (r: Mechanism)
    ensures r == RS <==> ev.TargetEvent?
    ensures r == CS <==> ev.ErrorEvent? && ev.message == "Script error."
    ensures r == JS <==> ev.ErrorEvent? && ev.message != "Script error."
  {
    if !ev.ErrorEvent? then RS
    else if ev.message == "Script error." then CS
    else JS
  }

  /** `getErrorUid`: `btoa(unescape(encodeURIComponent(input)))`, i.e. Base64 of the UTF-8 bytes. */
  function GetErrorUid(input: string): (r: string)
    ensures |r| == 4 * ((|Utf8.Encode(input)| + 2) / 3)
    ensures |input| <= |r|
  {
    Base64.Encode(Utf8.Encode(input))
  }

  /** The partner of `GetErrorUid`: `decodeURIComponent(escape(atob(uid)))`. */
  function DecodeErrorUid(uid: string): Option<string> {
    match Base64.Decode(uid)
    case None => None
    case Some(b) => Utf8.Decode(b)
  }

  /** A uid decodes back to its key. */
  lemma DecodeGetErrorUid(input: string)
    ensures DecodeErrorUid(GetErrorUid(input)) == Some(input)
  {
    Base64.DecodeEncode(Utf8.Encode(input));
    Utf8.DecodeEncode(input);
  }

  /** Distinct keys have distinct uids. */
  lemma GetErrorUidInjective(a: string, b: string)
    requires GetErrorUid(a) == GetErrorUid(b)
    ensures a == b
  {
    DecodeGetErrorUid(a);
    DecodeGetErrorUid(b);
  }

  /** `${x}` of a possibly missing string. */
  function Show(x: Option<string>): (r: string)
    ensures x.Some? ==> r == x.value
    ensures x.None? ==> r == "undefined"
  {
    if x.Some? then x.value else "undefined"
  }

  /** `-f1-f2-...`: each field after a dash. */
  function Dashed(fields: seq<string>): (r: string)
    ensures fields != [] ==> |r| > 0 && r[0] == '-'
  {
    if fields == [] then "" else "-" + fields[0] + Dashed(fields[1..])
  }

  /** The uid key template `${mechanism}-${field}-...`. */
  function UidKey(m: Mechanism, fields: seq<string>): (r: string)
    ensures |r| >= |m.Name()| && r[..|m.Name()|] == m.Name()
    ensures r[0] == m.Name()[0]
  {
    m.Name() + Dashed(fields)
  }

  /** The mechanism names start with distinct letters. */
  lemma NamesDiffer(m1: Mechanism, m2: Mechanism)
    requires m1 != m2
    ensures m1.Name()[0] != m2.Name()[0]
  {
  }

  /** Keys of different kinds differ, and so do their uids. */
  lemma DistinctMechanismsDistinctUids(m1: Mechanism, f1: seq<string>, m2: Mechanism, f2: seq<string>)
    requires m1 != m2
    ensures GetErrorUid(UidKey(m1, f1)) != GetErrorUid(UidKey(m2, f2))
  {
    NamesDiffer(m1, m2);
    if GetErrorUid(UidKey(m1, f1)) == GetErrorUid(UidKey(m2, f2)) {
      GetErrorUidInjective(UidKey(m1, f1), UidKey(m2, f2));
    }
  }

  /** The dash join is ambiguous: a message containing a dash can share a uid with another error. */
  lemma JsKeyAmbiguous()
    ensures UidKey(JS, ["a-b", "c"]) == UidKey(JS, ["a", "b-c"])
  {
    assert ["a-b", "c"][1..] == ["c"];
    assert ["a", "b-c"][1..] == ["b-c"];
    assert UidKey(JS, ["a-b", "c"]) == "js" + "-" + "a-b" + "-" + "c";
    assert UidKey(JS, ["a", "b-c"]) == "js" + "-" + "a" + "-" + "b-c";
  }

  /** `STACKTRACE_LIMIT`. */
  const StackTraceLimit: nat := 10

  /** Each line parsed, in order. */
  function ParseLines(lines: seq<string>, parse: string -> Frame): (r: seq<Frame>)
    ensures |r| == |lines|
    ensures forall i :: 0 <= i < |lines| ==> r[i] == parse(lines[i])
  {
    if lines == [] then [] else [parse(lines[0])] + ParseLines(lines[1..], parse)
  }

  /**
   * What `parseStackFrames` returns for a stack: nothing without a stack,
   * else the parses of every line after the first (an unmatched line keeps
   * its `{}`, which is truthy), cut to the first ten.
   */
  function StackFrames(stack: Option<string>, parse: string -> Frame): (r: seq<Frame>)
    ensures stack.None? || stack == Some("") ==> r == []
    ensures stack.Some? && stack.value != "" ==>
      var lines := JsStrings.Split(stack.value, '\n');
      |r| == if |lines| - 1 <= StackTraceLimit then |lines| - 1 else StackTraceLimit
    ensures stack.Some? && stack.value != "" ==>
      forall i :: 0 <= i < |r| ==> r[i] == parse(JsStrings.Split(stack.value, '\n')[i + 1])
  {
    if stack.None? || stack.value == "" then []
    else
      var frames := ParseLines(JsStrings.Split(stack.value, '\n')[1..], parse);
      if |frames| <= StackTraceLimit then frames else frames[..StackTraceLimit]
  }

  /** `parseStackFrames`. */
  method ParseStackFrames(stack: Option<string>, parse: string -> Frame) returns (frames: seq<Frame>)
    ensures frames == StackFrames(stack, parse)
  {
    if stack.None? || stack.value == "" {
      return [];
    }
    var lines := JsStrings.Split(stack.value, '\n')[1..];
    var all: seq<Frame> := [];
    var i := 0;
    while i < |lines|
      invariant 0 <= i <= |lines|
      invariant |all| == i
      invariant forall j :: 0 <= j < i ==> all[j] == parse(lines[j])
    {
      var frame := parse(lines[i]);
      all := all + [frame];
      i := i + 1;
    }
    assert all == ParseLines(lines, parse);
    frames := if |all| <= StackTraceLimit then all else all[..StackTraceLimit];
  }

  /**
   * The JS-error handler: only for events classified `js`. With no `error`
   * object, `parseStackFrames(null)` throws and nothing is reported.
   */
  function JsHandler(ev: WindowEvent, parse: string -> Frame): (r: Option<ExceptionMetrics>)
    ensures r.Some? <==> GetErrorKey(ev) == JS && ev.error.Some?
    ensures r.Some? ==>
      && r.value.mechanism == JS
      && r.value.value == Some(ev.message)
      && r.value.errorType == (if ev.error.value.name != "" then ev.error.value.name else "UnKnown")
      && r.value.frames == Some(StackFrames(ev.error.value.stack, parse))
      && DecodeErrorUid(r.value.errorUid) == Some(UidKey(JS, [ev.message, ev.filename]))
      && r.value.meta == JsMeta(ev.filename, ev.colno, ev.lineno)
  {
    if GetErrorKey(ev) != JS || ev.error.None? then None
    else
      DecodeGetErrorUid(UidKey(JS, [ev.message, ev.filename]));
      Some(ExceptionMetrics(
        JS, Some(ev.message),
        if ev.error.value.name != "" then ev.error.value.name else "UnKnown",
        Some(StackFrames(ev.error.value.stack, parse)),
        GetErrorUid(UidKey(JS, [ev.message, ev.filename])),
        JsMeta(ev.filename, ev.colno, ev.lineno)))
  }

  /** The resource-error handler: only for events that are not `ErrorEvent`s. */
  function ResourceHandler(ev: WindowEvent): (r: Option<ExceptionMetrics>)
    ensures r.Some? <==> GetErrorKey(ev) == RS
    ensures r.Some? ==>
      && r.value.mechanism == RS
      && r.value.value == Some("")
      && r.value.errorType == "ResourceError"
      && r.value.frames.None?
      && DecodeErrorUid(r.value.errorUid) == Some(UidKey(RS, [Show(ev.target.src), Show(ev.target.tagName)]))
      && r.value.meta == ResourceMeta(ev.target.src, ev.target.outerHTML, ev.target.tagName)
  {
    if GetErrorKey(ev) != RS then None
    else
      var key := UidKey(RS, [Show(ev.target.src), Show(ev.target.tagName)]);
      DecodeGetErrorUid(key);
      Some(ExceptionMetrics(RS, Some(""), "ResourceError", None, GetErrorUid(key),
        ResourceMeta(ev.target.src, ev.target.outerHTML, ev.target.tagName)))
  }

  /** The CORS handler: only for events whose message is exactly `Script error.`. */
  function CorsHandler(ev: WindowEvent): (r: Option<ExceptionMetrics>)
    ensures r.Some? <==> GetErrorKey(ev) == CS
    ensures r.Some? ==>
      && r.value.mechanism == CS
      && r.value.value == Some("Script error.")
      && r.value.errorType == "CorsError"
      && r.value.frames.None? && r.value.meta == EmptyMeta
      && DecodeErrorUid(r.value.errorUid) == Some(UidKey(CS, ["Script error."]))
  {
    if GetErrorKey(ev) != CS then None
    else
      var key := UidKey(CS, [ev.message]);
      DecodeGetErrorUid(key);
      Some(ExceptionMetrics(CS, Some(ev.message), "CorsError", None, GetErrorUid(key), EmptyMeta))
  }

  /** Of the three window `error` handlers, at most one builds a record for any event. */
  lemma AtMostOneWindowHandler(ev: WindowEvent, parse: string -> Frame)
    ensures ResourceHandler(ev).Some? ==> JsHandler(ev, parse).None? && CorsHandler(ev).None?
    ensures CorsHandler(ev).Some? ==> JsHandler(ev, parse).None? && ResourceHandler(ev).None?
    ensures ResourceHandler(ev).Some? || CorsHandler(ev).Some? || ev.ErrorEvent?
  {
  }

  /** The rejection's `reason.message || reason` and `reason.name || "UnKnown"`. */
  function RejectionValue(reason: Reason): (r: string)
    requires !reason.NullReason?
    ensures reason.ErrorReason? && reason.error.message != "" ==> r == reason.error.message
    ensures r == reason.text || (reason.ErrorReason? && r == reason.error.message && r != "")
  {
    match reason
    case ErrorReason(e, text) => if e.message != "" then e.message else text
    case OtherReason(text) => text
  }

  function RejectionType(reason: Reason): (r: string)
    requires !reason.NullReason?
    ensures r != ""
    ensures r != "UnKnown" ==> reason.ErrorReason? && r == reason.error.name
    ensures reason.ErrorReason? && reason.error.name != "" ==> r == reason.error.name
  {
    if reason.ErrorReason? && reason.error.name != "" then reason.error.name else "UnKnown"
  }

  /** The unhandled-rejection handler; a `null` reason makes `reason.message` throw. */
  function RejectionHandler(reason: Reason, parse: string -> Frame): (r: Option<ExceptionMetrics>)
    ensures r.Some? <==> !reason.NullReason?
    ensures r.Some? ==>
      && r.value.mechanism == UJ
      && (reason.ErrorReason? && reason.error.message != "" ==> r.value.value == Some(reason.error.message))
      && (reason.OtherReason? ==> r.value.value == Some(reason.text) && r.value.errorType == "UnKnown")
      && (reason.ErrorReason? && reason.error.name != "" ==> r.value.errorType == reason.error.name)
      && r.value.frames == Some(if reason.ErrorReason? then StackFrames(reason.error.stack, parse) else [])
      && r.value.meta == EmptyMeta
      && r.value.value == Some(RejectionValue(reason))
      && r.value.errorType == RejectionType(reason)
      && DecodeErrorUid(r.value.errorUid) == Some(UidKey(UJ, [RejectionValue(reason), RejectionType(reason)]))
  {
    if reason.NullReason? then None
    else
      var value := RejectionValue(reason);
      var errorType := RejectionType(reason);
      var key := UidKey(UJ, [value, errorType]);
      DecodeGetErrorUid(key);
      Some(ExceptionMetrics(UJ, Some(value), errorType,
        Some(if reason.ErrorReason? then StackFrames(reason.error.stack, parse) else []),
        GetErrorUid(key), EmptyMeta))
  }

  /** The HTTP load handler: completions below status 400 are not errors. */
  function HttpHandler(m: HttpMetrics.HttpMetrics): (r: Option<ExceptionMetrics>)
    ensures r.Some? <==> m.status >= HttpMetrics.ErrorStatus
    ensures r.Some? ==>
      && r.value.mechanism == HP
      && r.value.value == m.response
      && r.value.errorType == "HttpError"
      && DecodeErrorUid(r.value.errorUid) == Some(UidKey(HP, [Show(m.response), m.statusText]))
      && r.value.meta == HttpMeta(m)
      && r.value.frames.None?
  {
    if m.status < HttpMetrics.ErrorStatus then None
    else
      var key := UidKey(HP, [Show(m.response), m.statusText]);
      DecodeGetErrorUid(key);
      Some(ExceptionMetrics(HP, m.response, "HttpError", None, GetErrorUid(key), HttpMeta(m)))
  }

  predicate NoDuplicates(s: seq<string>) {
    forall i, j :: 0 <= i < j < |s| ==> s[i] != s[j]
  }

  /** The plugin's state: the uids reported so far and the engine's breadcrumb store. */
  class ErrorVitals<B, P> {
    var submitErrorUids: seq<string>
    const breadcrumbs: BehaviorStore.BehaviorStore<B>

    predicate Valid()
      reads this
    {
      NoDuplicates(submitErrorUids)
    }

    constructor (breadcrumbs: BehaviorStore.BehaviorStore<B>)
      ensures Valid()
      ensures submitErrorUids == [] && this.breadcrumbs == breadcrumbs
    {
      submitErrorUids := [];
      this.breadcrumbs := breadcrumbs;
    }

    /**
     * `errorSendHandler`: a uid already reported is dropped with nothing
     * changed; a fresh one is recorded, the trail is cleared and one ERROR
     * report carries the trail as it was before the clear.
     */
    method ErrorSendHandler(data: ExceptionMetrics, pageInformation: Option<P>)
      returns (sent: Option<Transport.Report<SubmitParams<B, P>>>)
      requires Valid()
      modifies this`submitErrorUids, breadcrumbs`stack
      ensures Valid()
      ensures data.errorUid in old(submitErrorUids) ==>
        sent.None? && submitErrorUids == old(submitErrorUids) && breadcrumbs.stack == old(breadcrumbs.stack)
      ensures data.errorUid !in old(submitErrorUids) ==>
        && sent == Some(Transport.Report(Transport.ERROR, SubmitParams(data, old(breadcrumbs.stack), pageInformation)))
        && submitErrorUids == old(submitErrorUids) + [data.errorUid]
        && breadcrumbs.stack == []
    {
      var trail := breadcrumbs.Get();
      var submitParams := SubmitParams(data, trail, pageInformation);
      if data.errorUid in submitErrorUids {
        return None;
      }
      submitErrorUids := submitErrorUids + [data.errorUid];
      breadcrumbs.Clear();
      sent := Some(Transport.Report(Transport.ERROR, submitParams));
    }
  }

  /** The same error twice: one report, and the trail gathered in between survives. */
  method RepeatedErrorReportedOnce<B, P>(e: ExceptionMetrics, crumb: B, page: Option<P>)
  {
    var store := new BehaviorStore.BehaviorStore<B>(100);
    var plugin := new ErrorVitals<B, P>(store);
    var first := plugin.ErrorSendHandler(e, page);
    assert first.Some? && first.value.data.breadcrumbs == [];
    store.Push(crumb);
    var second := plugin.ErrorSendHandler(e, page);
    assert second.None? && store.stack == [crumb];
    assert plugin.submitErrorUids == [e.errorUid];
  }
}
