/**
 * The behaviour monitor of the monitor stack: element descriptions,
 * pageview and route tracking, and the click/input throttles. Clocks and
 * timer ids are parameters; a pending throttle timer keeps the event it
 * will hand to its handler.
 */
module BehaviorMonitor {
  import opened Wrappers
  import JsStrings
  import Reporter
  import opened ReportData

  /** The parts of an `HTMLElement` read; `className` is `None` when it is not a string (SVG). */
  datatype DomElement = DomElement(tagName: string, id: string, className: Option<string>, textContent: Option<string>)

  const ThrottleTimeMs: nat := 500
  const PageviewGapMs: int := 1000
  const TextLimit: nat := 20

  /** The `.a.b` part: the class list with every space turned into a dot. */
  function ClassSelector(className: Option<string>): (r: string)
    ensures className.None? || className == Some("") ==> r == ""
    ensures className.Some? && className.value != "" ==>
      r == "." + JsStrings.Replace(className.value, ' ', '.') && ' ' !in r
  {
    if className.Some? && className.value != "" then
      JsStrings.SplitJoinReplaces(className.value, ' ', '.');
      "." + JsStrings.Join(JsStrings.Split(className.value, ' '), '.')
    else ""
  }

  /**
   * The `:text(...)` part as written: the trimmed text cut to 20
   * characters, with `...` when the untrimmed text is longer than 20.
   */
  function TextLabelAsWritten(text: Option<string>): (r: string)
    ensures text.None? || text == Some("") ==> r == ""
    ensures text.Some? && text.value != "" && |JsStrings.Trim(text.value)| <= TextLimit ==>
      r == ":text(" + JsStrings.Trim(text.value) + (if |text.value| > TextLimit then "..." else "") + ")"
    ensures text.Some? && text.value != "" && |JsStrings.Trim(text.value)| > TextLimit ==>
      r == ":text(" + JsStrings.Trim(text.value)[..TextLimit] + "...)"
  {
    if text.None? || text.value == "" then ""
    else
      var shown := JsStrings.Prefix(JsStrings.Trim(text.value), TextLimit);
      ":text(" + shown + (if |text.value| > TextLimit then "..." else "") + ")"
  }

  /** The `:text(...)` part, with the ellipsis marking exactly the texts that were cut. */
  function TextLabel(text: Option<string>): (r: string)
    ensures text.None? || text == Some("") ==> r == ""
    ensures text.Some? && text.value != "" && |JsStrings.Trim(text.value)| <= TextLimit ==>
      r == ":text(" + JsStrings.Trim(text.value) + ")"
    ensures text.Some? && text.value != "" && |JsStrings.Trim(text.value)| > TextLimit ==>
      r == ":text(" + JsStrings.Trim(text.value)[..TextLimit] + "...)"
  {
    if text.None? || text.value == "" then ""
    else
      var trimmed := JsStrings.Trim(text.value);
      var shown := JsStrings.Prefix(trimmed, TextLimit);
      ":text(" + shown + (if |trimmed| > TextLimit then "..." else "") + ")"
  }

  /** The two labels differ exactly on texts of more than 20 characters that trim to at most 20. */
  lemma LabelsAgree(text: Option<string>)
    ensures TextLabelAsWritten(text) == TextLabel(text) <==>
      (text.None? || text.value == "" || |text.value| <= TextLimit || |JsStrings.Trim(text.value)| > TextLimit)
  {
    if text.Some? && text.value != "" && |text.value| > TextLimit && |JsStrings.Trim(text.value)| <= TextLimit {
      var t := JsStrings.Trim(text.value);
      var a := TextLabelAsWritten(text);
      assert |a| == |t| + 10 && |TextLabel(text)| == |t| + 7;
    }
  }

  /** A short label padded with white space out to 21 characters. */
  const PaddedLabel: string := "Submit" + "               "

  lemma TrimPaddedLabel()
    ensures JsStrings.Trim(PaddedLabel) == "Submit"
  {
    var s := PaddedLabel;
    assert |s| == 21 && !JsStrings.IsSpace(s[0]);
    assert JsStrings.TrimStart(s) == s;
    assert !JsStrings.IsSpace(s[5]);
    JsStrings.TrimEndAt(s, 6);
    assert s[..6] == "Submit";
  }

  /** The untrimmed length puts an ellipsis after a label that was not cut. */
  lemma PaddedLabelGetsEllipsis()
    ensures TextLabelAsWritten(Some(PaddedLabel)) == ":text(Submit...)"
    ensures TextLabel(Some(PaddedLabel)) == ":text(Submit)"
  {
    TrimPaddedLabel();
  }

  /**
   * `getElementInfo`: tag, `#id`, classes and text label of an element, or
   * `""` without a tag. The label is the one the code builds, with the
   * ellipsis decided by the untrimmed length.
   */
  function GetElementInfo(element: Option<DomElement>): (r: string)
    ensures element.None? || element.value.tagName == "" ==> r == ""
    ensures element.Some? && element.value.tagName != "" ==>
      var e := element.value;
      r == JsStrings.ToLower(e.tagName) + (if e.id != "" then "#" + e.id else "")
           + (if e.className.Some? && e.className.value != "" then "." + JsStrings.Replace(e.className.value, ' ', '.') else "")
           + TextLabelAsWritten(e.textContent)
    ensures element.Some? && element.value.tagName != "" ==> |r| >= |element.value.tagName|
  {
    if element.None? || element.value.tagName == "" then ""
    else
      var e := element.value;
      JsStrings.ToLower(e.tagName) + (if e.id != "" then "#" + e.id else "")
      + ClassSelector(e.className) + TextLabelAsWritten(e.textContent)
  }

  const FormTags: seq<string> := ["input", "textarea", "select", "button"]

  /** `isFormElement`. */
  function IsFormElement(element: Option<DomElement>): (r: bool)
    ensures r <==> element.Some? && JsStrings.ToLower(element.value.tagName) in FormTags
  {
    element.Some? && element.value.tagName != "" && JsStrings.ToLower(element.value.tagName) in FormTags
  }

  /** A throttle timer that has been scheduled and not yet fired: its id and the event it will handle. */
  datatype Pending = Pending(timerId: nat, target: Option<DomElement>)

  class BehaviorMonitor {
    const reporter: Reporter.Reporter<ReportData>
    var currentPath: string
    var lastPageviewTime: int
    var clickThrottleTimer: Option<Pending>
    var inputThrottleTimer: Option<Pending>

    /** `new BehaviorMonitor(reporter)`: takes the current path and tracks the first pageview. */
    constructor (reporter: Reporter.Reporter<ReportData>, path: string, now: int)
      requires reporter.Valid()
      modifies reporter
      ensures this.reporter == reporter && reporter.Valid()
      ensures currentPath == path && clickThrottleTimer.None? && inputThrottleTimer.None?
      ensures now < PageviewGapMs ==> lastPageviewTime == 0 && reporter.Pending() == old(reporter.Pending())
      ensures now >= PageviewGapMs ==>
        lastPageviewTime == now &&
        reporter.Pending() == old(reporter.Pending()) + [BehaviorData(now, Pageview, path, None, now)]
    {
      this.reporter := reporter;
      currentPath := path;
      lastPageviewTime := 0;
      clickThrottleTimer, inputThrottleTimer := None, None;
      new;
      TrackPageview(now);
    }

    /** `trackPageview`: dropped within 1000 ms of the last accepted pageview. */
    method TrackPageview(now: int)
      requires reporter.Valid()
      modifies this`lastPageviewTime, reporter
      ensures reporter.Valid()
      ensures now - old(lastPageviewTime) < PageviewGapMs ==>
        lastPageviewTime == old(lastPageviewTime) && reporter.Pending() == old(reporter.Pending())
      ensures now - old(lastPageviewTime) >= PageviewGapMs ==>
        && lastPageviewTime == now
        && reporter.Pending() == old(reporter.Pending()) + [BehaviorData(now, Pageview, currentPath, None, now)]
    {
      if now - lastPageviewTime < PageviewGapMs { return; }
      lastPageviewTime := now;
      reporter.Report(BehaviorData(now, Pageview, currentPath, None, now));
    }

    /** `onRouteChange`: a pageview only when the path actually changed. */
    method OnRouteChange(newPath: string, now: int)
      requires reporter.Valid()
      modifies this`currentPath, this`lastPageviewTime, reporter
      ensures reporter.Valid()
      ensures currentPath == newPath
      ensures newPath == old(currentPath) ==>
        lastPageviewTime == old(lastPageviewTime) && reporter.Pending() == old(reporter.Pending())
      ensures newPath != old(currentPath) && now - old(lastPageviewTime) >= PageviewGapMs ==>
        && lastPageviewTime == now
        && reporter.Pending() == old(reporter.Pending()) + [BehaviorData(now, Pageview, newPath, None, now)]
      ensures newPath != old(currentPath) && now - old(lastPageviewTime) < PageviewGapMs ==>
        lastPageviewTime == old(lastPageviewTime) && reporter.Pending() == old(reporter.Pending())
    {
      if newPath != currentPath {
        currentPath := newPath;
        TrackPageview(now);
      }
    }

    /** `onClickThrottled`: schedules the handler unless a click is already pending. */
    method OnClickThrottled(target: Option<DomElement>, timerId: nat)
      modifies this`clickThrottleTimer
      ensures clickThrottleTimer == if old(clickThrottleTimer).Some? then old(clickThrottleTimer) else Some(Pending(timerId, target))
    {
      if clickThrottleTimer.Some? { return; }
      clickThrottleTimer := Some(Pending(timerId, target));
    }

    /** `onInputThrottled`. */
    method OnInputThrottled(target: Option<DomElement>, timerId: nat)
      modifies this`inputThrottleTimer
      ensures inputThrottleTimer == if old(inputThrottleTimer).Some? then old(inputThrottleTimer) else Some(Pending(timerId, target))
    {
      if inputThrottleTimer.Some? { return; }
      inputThrottleTimer := Some(Pending(timerId, target));
    }

    /** The click timer fires: the field is reset first, then the captured event is handled. */
    method OnClickTimer(now: int)
      requires reporter.Valid() && clickThrottleTimer.Some?
      modifies this`clickThrottleTimer, reporter
      ensures reporter.Valid() && clickThrottleTimer.None?
      ensures var t := old(clickThrottleTimer).value.target;
        reporter.Pending() == old(reporter.Pending())
          + (if t.Some? then [BehaviorData(now, Click, currentPath, Some(GetElementInfo(t)), now)] else [])
    {
      var target := clickThrottleTimer.value.target;
      clickThrottleTimer := None;
      OnClickEvent(target, now);
    }

    /** The input timer fires. */
    method OnInputTimer(now: int)
      requires reporter.Valid() && inputThrottleTimer.Some?
      modifies this`inputThrottleTimer, reporter
      ensures reporter.Valid() && inputThrottleTimer.None?
      ensures var t := old(inputThrottleTimer).value.target;
        reporter.Pending() == old(reporter.Pending())
          + (if IsFormElement(t) then [BehaviorData(now, Input, currentPath, Some(GetElementInfo(t)), now)] else [])
    {
      var target := inputThrottleTimer.value.target;
      inputThrottleTimer := None;
      OnInputEvent(target, now);
    }

    /** `onClickEvent`. */
    method OnClickEvent(target: Option<DomElement>, now: int)
      requires reporter.Valid()
      modifies reporter
      ensures reporter.Valid()
      ensures reporter.Pending() == old(reporter.Pending())
        + (if target.Some? then [BehaviorData(now, Click, currentPath, Some(GetElementInfo(target)), now)] else [])
    {
      if target.None? { return; }
      reporter.Report(BehaviorData(now, Click, currentPath, Some(GetElementInfo(target)), now));
    }

    /** `onInputEvent`: only form elements are reported. */
    method OnInputEvent(target: Option<DomElement>, now: int)
      requires reporter.Valid()
      modifies reporter
      ensures reporter.Valid()
      ensures reporter.Pending() == old(reporter.Pending())
        + (if IsFormElement(target) then [BehaviorData(now, Input, currentPath, Some(GetElementInfo(target)), now)] else [])
    {
      if target.None? { return; }
      if !IsFormElement(target) { return; }
      reporter.Report(BehaviorData(now, Input, currentPath, Some(GetElementInfo(target)), now));
    }

    /** `destroy`: both pending throttle timers are cancelled. */
    method Destroy()
      modifies this`clickThrottleTimer, this`inputThrottleTimer
      ensures clickThrottleTimer.None? && inputThrottleTimer.None?
    {
      if clickThrottleTimer.Some? { clickThrottleTimer := None; }
      if inputThrottleTimer.Some? { inputThrottleTimer := None; }
    }
  }

  /** A second click while the first is pending is dropped: one report, for the first target. */
  method ClicksAreThrottled(r: Reporter.Reporter<ReportData>, a: DomElement, b: DomElement)
    requires r.Valid()
    modifies r
  {
    var m := new BehaviorMonitor(r, "/home", 0);
    ghost var before := r.Pending();
    m.OnClickThrottled(Some(a), 1);
    m.OnClickThrottled(Some(b), 2);
    m.OnClickTimer(600);
    assert r.Pending() == before + [BehaviorData(600, Click, "/home", Some(GetElementInfo(Some(a))), 600)];
  }
}
