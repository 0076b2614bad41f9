/**
 * The error monitor of the monitor stack: window errors split into
 * resource and JS errors, unhandled rejections, and the `console.error`
 * override. Clocks and `location.href` are parameters; `JSON.stringify` and
 * `String(arg)` results are given with their inputs.
 */
module ErrorMonitor {
  import opened Wrappers
  import JsStrings
  import Reporter
  import opened ReportData

  /** An error event's `target`: none, a non-element such as `window`, or an element. */
  datatype EventTarget =
    | NoTarget
    | NonElement
    | Element(tagName: string, isHtml: bool, src: string, href: string)

  /** An `Error` object's fields. */
  datatype ErrorObject = ErrorObject(name: string, message: string, stack: Option<string>)

  /** A window `error` event; a resource failure's plain `Event` has an empty message. */
  datatype ErrorEventInput = ErrorEventInput(target: EventTarget, message: string, error: Option<ErrorObject>)

  const LoadTags: seq<string> := ["link", "script", "img", "audio", "video", "source"]

  /**
   * `isResourceLoadError` as written: it reads `target.tagName.toLowerCase()`
   * before checking that the target is an element, so a target without a
   * tag name (`window`, the target of every uncaught script error) throws,
   * shown as `None`.
   */
  function IsResourceLoadErrorAsWritten(t: EventTarget): (r: Option<bool>)
    ensures r.None? <==> t.NonElement?
    ensures t.NoTarget? ==> r == Some(false)
  {
    match t
    case NoTarget => Some(false)
    case NonElement => None
    case Element(tag, isHtml, _, _) => Some(isHtml && JsStrings.ToLower(tag) in LoadTags)
  }

  /** `isResourceLoadError` with the element test first. */
  function IsResourceLoadError(t: EventTarget): (r: bool)
    ensures r <==> t.Element? && t.isHtml && JsStrings.ToLower(t.tagName) in LoadTags
    ensures !t.NonElement? ==> IsResourceLoadErrorAsWritten(t) == Some(r)
  {
    t.Element? && t.isHtml && JsStrings.ToLower(t.tagName) in LoadTags
  }

  /** `getResourceUrl`: `src` of images, scripts, audio and video, `href` of links, else `""`. */
  function GetResourceUrl(t: EventTarget): (r: string)
    ensures !t.Element? || !t.isHtml ==> r == ""
    ensures t.Element? && t.isHtml ==>
      var tag := JsStrings.ToLower(t.tagName);
      && (tag in ["img", "script", "audio", "video"] ==> r == t.src)
      && (tag == "link" ==> r == t.href)
      && (tag !in ["img", "script", "audio", "video", "link"] ==> r == "")
  {
    if !t.Element? || !t.isHtml then ""
    else
      var tag := JsStrings.ToLower(t.tagName);
      if tag == "img" || tag == "script" then t.src
      else if tag == "link" then t.href
      else if tag == "audio" || tag == "video" then t.src
      else ""
  }

  /** A `source` element never has a URL here, so its failures are never reported. */
  lemma SourceUrlEmpty(t: EventTarget)
    requires t.Element? && JsStrings.ToLower(t.tagName) == "source"
    ensures GetResourceUrl(t) == ""
  {
  }

  /** `onResourceError`: nothing for an empty URL, else `Failed to load <tag>: <url>`. */
  function ResourceErrorRecord(t: EventTarget, now: int, href: string): (r: Option<ReportData>)
    requires t.Element?
    ensures r.None? <==> GetResourceUrl(t) == ""
    ensures r.Some? ==> r.value == ErrorData(now, "ResourceError",
      "Failed to load " + JsStrings.ToLower(t.tagName) + ": " + GetResourceUrl(t), "", href, ResourceError)
  {
    var url := GetResourceUrl(t);
    if url == "" then None
    else Some(ErrorData(now, "ResourceError", "Failed to load " + JsStrings.ToLower(t.tagName) + ": " + url, "", href, ResourceError))
  }

  /** The JS error record, with the defaults `Error`, `Unknown error` and `""`. */
  function JsErrorRecord(ev: ErrorEventInput, now: int, href: string): (r: ReportData)
    ensures r.ErrorData? && r.errorType == JsError && r.url == href && r.timestamp == now
    ensures r.name == "Error" <== ev.error.None? || ev.error.value.name == ""
    ensures r.message == if ev.message != "" then ev.message else "Unknown error"
    ensures ev.error.None? || ev.error.value.stack.None? ==> r.stack == ""
    ensures ev.error.Some? && ev.error.value.name != "" ==> r.name == ev.error.value.name
    ensures ev.error.Some? && ev.error.value.stack.Some? ==> r.stack == ev.error.value.stack.value
  {
    var name := if ev.error.Some? && ev.error.value.name != "" then ev.error.value.name else "Error";
    var stack := if ev.error.Some? && ev.error.value.stack.Some? then ev.error.value.stack.value else "";
    ErrorData(now, name, if ev.message != "" then ev.message else "Unknown error", stack, href, JsError)
  }

  /** What `onError` reports, with the corrected resource test. */
  function OnErrorRecords(ev: ErrorEventInput, now: int, href: string): (r: seq<ReportData>)
    ensures |r| <= 1
    ensures !IsResourceLoadError(ev.target) ==> r == [JsErrorRecord(ev, now, href)]
    ensures IsResourceLoadError(ev.target) ==>
      forall d :: d in r ==> d.ErrorData? && d.errorType == ResourceError
  {
    if IsResourceLoadError(ev.target) then
      match ResourceErrorRecord(ev.target, now, href)
      case None => []
      case Some(d) => [d]
    else [JsErrorRecord(ev, now, href)]
  }

  /** What `onError` reports as written; `None` when it throws before reporting. */
  function OnErrorAsWritten(ev: ErrorEventInput, now: int, href: string): (r: Option<seq<ReportData>>)
    ensures ev.target.NonElement? ==> r.None?
    ensures !ev.target.NonElement? ==> r == Some(OnErrorRecords(ev, now, href))
  {
    match IsResourceLoadErrorAsWritten(ev.target)
    case None => None
    case Some(isResource) =>
      if isResource then
        match ResourceErrorRecord(ev.target, now, href)
        case None => Some([])
        case Some(d) => Some([d])
      else Some([JsErrorRecord(ev, now, href)])
  }

  /** A script error on `window` is lost as written, and reported once when the element test comes first. */
  lemma WindowErrorLost(message: string, e: ErrorObject, now: int, href: string)
    ensures OnErrorAsWritten(ErrorEventInput(NonElement, message, Some(e)), now, href).None?
    ensures OnErrorRecords(ErrorEventInput(NonElement, message, Some(e)), now, href)
      == [JsErrorRecord(ErrorEventInput(NonElement, message, Some(e)), now, href)]
  {
  }

  /** A rejection's `reason`: an `Error`, a string, or any other value with its `JSON.stringify` text (`None` when that throws). */
  datatype RejectionReason =
    | ErrorInstance(e: ErrorObject)
    | StringReason(s: string)
    | OtherValue(json: Option<string>)

  /** `onUnhandledRejection`'s record. */
  function RejectionRecord(reason: RejectionReason, now: int, href: string): (r: ReportData)
    ensures r.ErrorData? && r.errorType == PromiseError && r.url == href && r.timestamp == now
    ensures reason.ErrorInstance? ==> r.name == reason.e.name && r.message == reason.e.message
    ensures reason.ErrorInstance? && reason.e.stack.Some? ==> r.stack == reason.e.stack.value
    ensures reason.ErrorInstance? && reason.e.stack.None? ==> r.stack == ""
    ensures !reason.ErrorInstance? ==> r.name == "UnhandledRejection" && r.stack == ""
    ensures reason.StringReason? ==> r.message == reason.s
    ensures reason.OtherValue? && reason.json.Some? ==> r.message == reason.json.value
    ensures reason == OtherValue(None) ==> r.message == "Unserializable promise rejection reason"
  {
    match reason
    case ErrorInstance(e) =>
      ErrorData(now, e.name, e.message, if e.stack.Some? then e.stack.value else "", href, PromiseError)
    case StringReason(s) =>
      ErrorData(now, "UnhandledRejection", s, "", href, PromiseError)
    case OtherValue(json) =>
      ErrorData(now, "UnhandledRejection",
        if json.Some? then json.value else "Unserializable promise rejection reason", "", href, PromiseError)
  }

  /** An argument of `console.error`. */
  datatype ConsoleArg =
    | ErrorArg(e: ErrorObject)
    | ObjectArg(json: Option<string>)
    | PrimitiveArg(text: string)

  /** The text a non-`Error` argument contributes. */
  function ArgText(a: ConsoleArg): string
    requires !a.ErrorArg?
  {
    match a
    case ObjectArg(json) => if json.Some? then json.value else "[Unserializable data]"
    case PrimitiveArg(text) => text
  }

  /** The message the override builds: a space before each text once the message is non-empty. */
  function ConsoleMessage(args: seq<ConsoleArg>): string {
    if args == [] then ""
    else
      var m := ConsoleMessage(args[..|args| - 1]);
      var a := args[|args| - 1];
      if a.ErrorArg? then m else (if m != "" then m + " " else m) + ArgText(a)
  }

  /** The texts of the non-`Error` arguments, in order. */
  function Texts(args: seq<ConsoleArg>): (r: seq<string>)
    ensures |r| <= |args|
  {
    if args == [] then []
    else
      var a := args[|args| - 1];
      Texts(args[..|args| - 1]) + if a.ErrorArg? then [] else [ArgText(a)]
  }

  function DropLeadingEmpty(xs: seq<string>): (r: seq<string>)
    ensures r != [] ==> r[0] != ""
    ensures r == [] <==> forall i :: 0 <= i < |xs| ==> xs[i] == ""
  {
    if xs == [] then [] else if xs[0] == "" then DropLeadingEmpty(xs[1..]) else xs
  }

  lemma {:induction false} DropLeadingEmptySnoc(xs: seq<string>, y: string)
    ensures DropLeadingEmpty(xs + [y]) ==
      if DropLeadingEmpty(xs) == [] then (if y == "" then [] else [y]) else DropLeadingEmpty(xs) + [y]
  {
    if xs != [] {
      assert (xs + [y])[1..] == xs[1..] + [y];
      DropLeadingEmptySnoc(xs[1..], y);
    }
  }

  lemma {:induction false} JoinSnoc(xs: seq<string>, y: string)
    requires xs != []
    ensures JsStrings.Join(xs + [y], ' ') == JsStrings.Join(xs, ' ') + " " + y
  {
    if |xs| > 1 {
      assert (xs + [y])[1..] == xs[1..] + [y];
      JoinSnoc(xs[1..], y);
    }
  }

  /** The message is the texts joined by single spaces, once the leading empty texts are dropped. */
  lemma {:induction false} ConsoleMessageIsJoin(args: seq<ConsoleArg>)
    ensures ConsoleMessage(args) == JsStrings.Join(DropLeadingEmpty(Texts(args)), ' ')
  {
    if args != [] {
      var init, a := args[..|args| - 1], args[|args| - 1];
      ConsoleMessageIsJoin(init);
      if !a.ErrorArg? {
        var d := DropLeadingEmpty(Texts(init));
        DropLeadingEmptySnoc(Texts(init), ArgText(a));
        if d != [] {
          JoinSnoc(d, ArgText(a));
          assert JsStrings.Join(d, ' ') != "" by { assert JsStrings.Join(d, ' ')[..|d[0]|] == d[0]; }
        }
      } else {
        assert Texts(args) == Texts(init);
      }
    }
  }

  /** The message is non-empty exactly when some non-`Error` argument has non-empty text. */
  lemma ConsoleMessageNonEmpty(args: seq<ConsoleArg>)
    ensures ConsoleMessage(args) != "" <==> exists i :: 0 <= i < |Texts(args)| && Texts(args)[i] != ""
  {
    ConsoleMessageIsJoin(args);
    var d := DropLeadingEmpty(Texts(args));
    if d != [] {
      assert JsStrings.Join(d, ' ')[..|d[0]|] == d[0];
    }
  }

  /** The record of one `Error` argument. */
  function ErrorArgRecord(e: ErrorObject, now: int, href: string): ReportData {
    ErrorData(now, e.name, e.message, if e.stack.Some? then e.stack.value else "", href, JsError)
  }

  /** One record per `Error` argument, in argument order. */
  function ErrorArgRecords(args: seq<ConsoleArg>, now: int, href: string): (r: seq<ReportData>)
    ensures |r| <= |args|
    ensures forall d :: d in r ==> d.ErrorData? && d.errorType == JsError
  {
    if args == [] then []
    else
      var a := args[|args| - 1];
      ErrorArgRecords(args[..|args| - 1], now, href) + if a.ErrorArg? then [ErrorArgRecord(a.e, now, href)] else []
  }

  /** How the message and the `Error` records grow by one argument. */
  lemma ConsolePrefixStep(args: seq<ConsoleArg>, i: int, now: int, href: string)
    requires 0 <= i < |args|
    ensures var m := ConsoleMessage(args[..i]);
      ConsoleMessage(args[..i + 1]) == if args[i].ErrorArg? then m else (if m != "" then m + " " else m) + ArgText(args[i])
    ensures ErrorArgRecords(args[..i + 1], now, href)
      == ErrorArgRecords(args[..i], now, href) + if args[i].ErrorArg? then [ErrorArgRecord(args[i].e, now, href)] else []
  {
    assert args[..i + 1][..i] == args[..i];
  }

  /** Every argument is an `Error`: one record each and no console record. */
  lemma {:induction false} AllErrorArgs(args: seq<ConsoleArg>, now: int, href: string)
    requires forall i :: 0 <= i < |args| ==> args[i].ErrorArg?
    ensures ErrorArgRecords(args, now, href) == seq(|args|, i requires 0 <= i < |args| => ErrorArgRecord(args[i].e, now, href))
    ensures ConsoleMessage(args) == ""
  {
    if args != [] {
      AllErrorArgs(args[..|args| - 1], now, href);
    }
  }

  /** `(stack || "").split("\n").slice(2).join("\n")`: the override's caller stack. */
  function CallerStack(stack: Option<string>): (r: string)
    ensures var s := if stack.Some? then stack.value else "";
      var lines := JsStrings.Split(s, '\n');
      && (|lines| <= 2 ==> r == "")
      && (|lines| > 2 ==> s == lines[0] + "\n" + lines[1] + "\n" + r)
  {
    var s := if stack.Some? then stack.value else "";
    var lines := JsStrings.Split(s, '\n');
    if |lines| <= 2 then ""
    else
      JsStrings.JoinSplit(s, '\n');
      assert lines[1..][1..] == lines[2..];
      JsStrings.Join(lines[2..], '\n')
  }

  /** Everything one `console.error(...args)` call reports, in order. */
  function ConsoleRecords(args: seq<ConsoleArg>, now: int, href: string, stack: Option<string>): seq<ReportData> {
    ErrorArgRecords(args, now, href)
    + if ConsoleMessage(args) != "" then [ErrorData(now, "ConsoleError", ConsoleMessage(args), CallerStack(stack), href, OtherError)] else []
  }

  class ErrorMonitor {
    const reporter: Reporter.Reporter<ReportData>

    constructor (reporter: Reporter.Reporter<ReportData>)
      ensures this.reporter == reporter
    {
      this.reporter := reporter;
    }

    /**
     * `onError` as written: a target without `tagName` makes the resource
     * test throw, and nothing is reported.
     */
    method OnError(ev: ErrorEventInput, now: int, href: string)
      requires reporter.Valid()
      modifies reporter
      ensures reporter.Valid()
      ensures var r := OnErrorAsWritten(ev, now, href);
        reporter.Pending() == old(reporter.Pending()) + if r.Some? then r.value else []
    {
      var isResource := IsResourceLoadErrorAsWritten(ev.target);
      if isResource.None? {
        return;
      }
      if isResource.value {
        OnResourceError(ev.target, now, href);
        return;
      }
      reporter.Report(JsErrorRecord(ev, now, href));
    }

    /** `onResourceError`. */
    method OnResourceError(t: EventTarget, now: int, href: string)
      requires reporter.Valid() && t.Element?
      modifies reporter
      ensures reporter.Valid()
      ensures var d := ResourceErrorRecord(t, now, href);
        reporter.Pending() == old(reporter.Pending()) + if d.Some? then [d.value] else []
    {
      var url := GetResourceUrl(t);
      if url == "" { return; }
      reporter.Report(ErrorData(now, "ResourceError", "Failed to load " + JsStrings.ToLower(t.tagName) + ": " + url, "", href, ResourceError));
    }

    /** `onUnhandledRejection`: exactly one record per rejection. */
    method OnUnhandledRejection(reason: RejectionReason, now: int, href: string)
      requires reporter.Valid()
      modifies reporter
      ensures reporter.Valid()
      ensures reporter.Pending() == old(reporter.Pending()) + [RejectionRecord(reason, now, href)]
    {
      var message := "Promise rejected";
      var stack := "";
      var name := "UnhandledRejection";
      match reason {
        case ErrorInstance(e) =>
          message := e.message;
          stack := if e.stack.Some? then e.stack.value else "";
          name := e.name;
        case StringReason(s) =>
          message := s;
        case OtherValue(json) =>
          message := if json.Some? then json.value else "Unserializable promise rejection reason";
      }
      reporter.Report(ErrorData(now, name, message, stack, href, PromiseError));
    }

    /** The record of one `Error` argument, reported as the override meets it. */
    method ReportErrorArg(e: ErrorObject, now: int, href: string)
      requires reporter.Valid()
      modifies reporter
      ensures reporter.Valid()
      ensures reporter.Pending() == old(reporter.Pending()) + [ErrorArgRecord(e, now, href)]
    {
      reporter.Report(ErrorData(now, e.name, e.message, if e.stack.Some? then e.stack.value else "", href, JsError));
    }

    /**
     * The `console.error` override: each `Error` argument reported as it is
     * met, the other arguments' texts gathered into one message, reported
     * last as a `ConsoleError` when non-empty.
     */
    method ConsoleError(args: seq<ConsoleArg>, now: int, href: string, stack: Option<string>)
      requires reporter.Valid()
      modifies reporter
      ensures reporter.Valid()
      ensures reporter.Pending() == old(reporter.Pending()) + ConsoleRecords(args, now, href, stack)
    {
      var message := ScanConsoleArgs(args, now, href);
      if message != "" {
        reporter.Report(ErrorData(now, "ConsoleError", message, CallerStack(stack), href, OtherError));
      }
    }

    /** The override's loop over its arguments: the `Error` records reported, the message returned. */
    method ScanConsoleArgs(args: seq<ConsoleArg>, now: int, href: string) returns (message: string)
      requires reporter.Valid()
      modifies reporter
      ensures reporter.Valid()
      ensures message == ConsoleMessage(args)
      ensures reporter.Pending() == old(reporter.Pending()) + ErrorArgRecords(args, now, href)
    {
      message := "";
      ghost var start := reporter.Pending();
      var i := 0;
      while i < |args|
        invariant 0 <= i <= |args|
        invariant reporter.Valid()
        invariant message == ConsoleMessage(args[..i])
        invariant reporter.Pending() == start + ErrorArgRecords(args[..i], now, href)
      {
        message := ScanConsoleArg(args, i, message, now, href, start);
        i := i + 1;
      }
      assert args[..|args|] == args;
    }

    /** One turn of the override's loop: an `Error` argument is reported, any other adds its text. */
    method ScanConsoleArg(args: seq<ConsoleArg>, i: int, message: string, now: int, href: string, ghost start: seq<ReportData>)
      returns (next: string)
      requires 0 <= i < |args| && reporter.Valid()
      requires message == ConsoleMessage(args[..i])
      requires reporter.Pending() == start + ErrorArgRecords(args[..i], now, href)
      modifies reporter
      ensures reporter.Valid()
      ensures next == ConsoleMessage(args[..i + 1])
      ensures reporter.Pending() == start + ErrorArgRecords(args[..i + 1], now, href)
    {
      ConsolePrefixStep(args, i, now, href);
      var arg := args[i];
      if arg.ErrorArg? {
        ReportErrorArg(arg.e, now, href);
        next := message;
      } else {
        assert ErrorArgRecords(args[..i + 1], now, href) == ErrorArgRecords(args[..i], now, href) + [];
        next := if message != "" then message + " " else message;
        next := next + ArgText(arg);
      }
    }
  }

  /** `console.error("a", err, "", {})` reports `err` first, then the message `a  {}`. */
  method ConsoleExample(r: Reporter.Reporter<ReportData>, err: ErrorObject, now: int, href: string)
    requires r.Valid()
    modifies r
  {
    var m := new ErrorMonitor(r);
    var args := [PrimitiveArg("a"), ErrorArg(err), PrimitiveArg(""), ObjectArg(Some("{}"))];
    ghost var before := r.Pending();
    m.ConsoleError(args, now, href, None);
    assert args[..3][..2] == args[..2] && args[..2][..1] == args[..1] && args[..1][..0] == [];
    assert args[..|args| - 1] == args[..3];
    assert ConsoleMessage(args[..1]) == "a";
    assert ConsoleMessage(args[..2]) == "a";
    assert ConsoleMessage(args[..3]) == "a ";
    assert ConsoleMessage(args) == "a  {}";
    assert ErrorArgRecords(args[..1], now, href) == [];
    assert ErrorArgRecords(args[..2], now, href) == [ErrorArgRecord(err, now, href)];
    assert ErrorArgRecords(args[..3], now, href) == [ErrorArgRecord(err, now, href)];
    assert ErrorArgRecords(args, now, href) == [ErrorArgRecord(err, now, href)];
  }
}
