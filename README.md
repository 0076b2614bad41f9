# Frontend monitor core, modelled in Dafny

The repository is a browser monitoring SDK with two pipelines:

- **The plugin engine** (`src/core`, `src/web`). It has four parts:
  - a transport envelope;
  - an event dispatcher;
  - a keyed metrics store;
  - three plugins: web vitals, errors and user behaviour.
- **The monitor stack** (`src/monitors`, `src/utils`). It has four monitors (behaviour, error, resource, performance), and all of them feed one batching `Reporter`.

This project models the sequential core of both pipelines:
- the reporter's queue, send latch and retry loop;
- the bounded breadcrumb log;
- the metrics store;
- the CLS session-window aggregator;
- error classification, the Base64-of-UTF-8 error uid and uid deduplication;
- stack-frame extraction;
- the event dispatcher;
- the transport envelope;
- the navigation and resource timing arithmetic;
- the string and throttling rules of the monitors;
- the recording rules of the user-behaviour plugin.

Browser events, clocks, timer ids and transmission outcomes are parameters of the operations that consume them.

**Modules**

| Module (file) | Models |
|---|---|
| `Reporter` (`reporter.dfy`) | `src/utils/reporter.ts`. A class whose `Pending()` is the in-flight batch followed by the queue. The asynchronous flush is split into `Flush`, which starts a send, and `Resolve`, which settles it. `SendData` is the retry recursion, over a function that gives each attempt's beacon and fetch outcome. |
| `BehaviorStore` (`behavior_store.dfy`) | The three identical `BehaviorStore` copies. It is a generic class with `PushSpec`/`PushAll`, plus lemmas about eviction and about what is retained. |
| `MetricsStore` (`metrics_store.dfy`) | `src/web/store.ts`. A class over `map<string, Slot<V>>`, where a slot is a truthy non-array value (`One`), an array (`Many`) or a falsy value (`Falsy`). |
| `WebVitals` (`web_vitals.dfy`) | The `initCLS` entry handler of both performance plugins, `initFID` and `perfSendHandler`. |
| `Utf8`, `Base64` (`utf8.dfy`, `base64.dfy`) | UTF-8 encoding (RFC 3629) and Base64 (section 4 of RFC 4648), both with decoders. This is what `getErrorUid` computes. |
| `ErrorVitals` (`error_vitals.dfy`) | `src/web/plugins/error/index.ts`. |
| `EventDispatch` (`event_dispatch.dfy`) | `src/core/eventDispatch.ts`. |
| `Transport` (`transport.dfy`) | `src/core/transport.ts`. |
| `PerformanceApi` (`performance_api.dfy`) | `src/web/plugins/performance/getPerformanceApiService.ts`. |
| `ReportData` (`report_data.dfy`) | The monitor stack's report records, and `Math.round`. |
| `BehaviorMonitor`, `ErrorMonitor`, `ResourceMonitor`, `PerformanceMonitor` | The four files under `src/monitors`. |
| `UserVitals` (`user_vitals.dfy`) | `src/web/plugins/behavior/index.ts`. |
| `JsStrings`, `HttpMetrics`, `Wrappers` | Shared helpers: ASCII `toLowerCase`/`trim`, `split`/`join`, the `IHttpMetrics` record and `Option`. |

**Heap objects.** JavaScript objects that the source updates in place are `class`es here:
- the reporter, the breadcrumb log and the metrics store;
- the dispatcher and the event;
- the monitors and the plugins;
- the route and click records of the behaviour plugin.

The behaviour plugin's records must be objects because the source deletes `pageInfo` from a record after handing it to the store's `add`. The store holds the same reference, so the stored record loses the field too (`UserVitals.RouteRecordLosesPageInfo` shows this).

## Model

| member | source | states |
|---|---|---|
| Reporter.TryUseBeacon | src/utils/reporter.ts:137-148 | the beacon counts as having sent iff `sendBeacon` exists, a URL is set and the beacon accepted |
| Reporter.SendData | src/utils/reporter.ts:93-130 | with an empty URL the send is skipped. It delivers at the first attempt whose beacon or fetch succeeds. It fails iff every attempt from `retryTimes` up to `retryCount` fails |
| Reporter.SendDataBounded | src/utils/reporter.ts:102-129 | a send from attempt 0 makes at most `retryCount + 1` = 4 attempts, and fails iff all four fail (with a URL set) |
| Reporter.SendDataFirstSuccess | src/utils/reporter.ts:102-129 | when attempt `k` is the first that succeeds, the send is delivered by attempt `k` |
| Reporter.Reporter.constructor | src/utils/reporter.ts:24-32 | empty queue, not sending, the interval timer installed |
| Reporter.Reporter.StartTimer | src/utils/reporter.ts:37-42 | installs an interval only when none is installed |
| Reporter.Reporter.StopTimer | src/utils/reporter.ts:47-51 | no timer afterwards |
| Reporter.Reporter.Flush | src/utils/reporter.ts:70-86 | a no-op while sending or on an empty queue. Otherwise the whole queue, in order, becomes the in-flight batch, the queue is emptied, `sending` is set, and nothing pending is lost |
| Reporter.Reporter.Report | src/utils/reporter.ts:57-65 | the record is appended at the end of the pending records. A flush starts iff the queue reaches `maxCache` = 10 and no send is in flight, so the queue can exceed 10 during a send |
| Reporter.Reporter.Resolve | src/utils/reporter.ts:77-85 | the outcome is `SendData`'s. `sending` is cleared either way. On failure the queue becomes batch ++ records queued meanwhile, so no record is lost and order is kept. On success or skip the batch is gone |
| Reporter.Reporter.OnInterval | src/utils/reporter.ts:39-41 | a tick flushes while the timer is installed; without a timer, during a send or on an empty queue it changes nothing |
| Reporter.Reporter.Destroy | src/utils/reporter.ts:153-157 | the timer is stopped, then the queue is flushed; during a send or on an empty queue the queue and send state are unchanged |
| BehaviorStore.Drop1 | src/core/behaviorStore.ts:29-31 | `shift` on a value: one element shorter, and putting the old head back in front gives the old list; the empty list stays empty |
| BehaviorStore.LastN | src/core/behaviorStore.ts:21-26 | the last `min(n, length)` elements, as a suffix |
| BehaviorStore.PushNewest | src/core/behaviorStore.ts:21-26 | after a push the value is the newest entry; below capacity the length grows by one and older entries keep their order |
| BehaviorStore.PushAtCapacity | src/web/plugins/behavior/behaviorStore.ts:24-26 | at capacity the oldest entry, and only it, is evicted, and the length is unchanged |
| BehaviorStore.PushAllBounded | src/monitors/behavior/behaviorStore.ts:23-28 | starting within a capacity of at least 1, the length never exceeds it |
| BehaviorStore.PushIsLastN | src/web/plugins/behavior/behaviorStore.ts:23-28 | one push into a store within its bound leaves the last `max` values of old contents ++ `[v]`, and stays within the bound |
| BehaviorStore.PushAllKeepsLastN | src/web/plugins/behavior/behaviorStore.ts:23-28 | after any pushes the store holds the last `max` values of old contents ++ pushed values, in push order |
| BehaviorStore.LastNAppend | src/core/behaviorStore.ts:21-26 | taking the last `n` before appending does not change the last `n` after it |
| BehaviorStore.PushesFromEmpty | src/core/behaviorStore.ts:21-26 | N pushes from empty leave exactly the last `min(N, max)` values, oldest first |
| BehaviorStore.PushAllNoEviction | src/monitors/behavior/behaviorStore.ts:24 | when the length is already past `max` (or `max` is negative), the `===` test never fires and every value is kept |
| BehaviorStore.ZeroCapacityNeverEvicts | src/web/plugins/behavior/behaviorStore.ts:24 | with `max = 0` nothing is ever evicted after the first push |
| BehaviorStore.BehaviorStore.Push | src/core/behaviorStore.ts:21-26 | the stack becomes `PushSpec` of the old one: the value is last, and one eviction happens exactly at capacity; the copies at src/web/plugins/behavior/behaviorStore.ts:23-28 and src/monitors/behavior/behaviorStore.ts:23-28 are identical |
| BehaviorStore.BehaviorStore.Shift | src/core/behaviorStore.ts:29-31 | returns and removes the oldest entry; on empty returns none and changes nothing; identical in the two other copies (lines 31-33) |
| BehaviorStore.BehaviorStore.Length | src/monitors/behavior/behaviorStore.ts:35-37 | the number of stored entries |
| BehaviorStore.BehaviorStore.Get | src/core/behaviorStore.ts:37-39 | the entries, oldest first |
| BehaviorStore.BehaviorStore.Clear | src/monitors/behavior/behaviorStore.ts:43-45 | the stack is replaced by an empty one; an earlier `Get` result keeps its entries (`ClearKeepsEarlierTrail`) |
| MetricsStore.Appended | src/web/store.ts:17-20 | `add` on an absent or falsy key stores `[v]`; on an array it stores old ++ `[v]`; all other keys are unchanged |
| MetricsStore.MetricsStore.Set | src/web/store.ts:13-15 | overwrites one key with any value, array or not, every other key unchanged |
| MetricsStore.MetricsStore.Add | src/web/store.ts:17-20 | an absent or falsy key becomes `[v]`; an array (also one put there by `set`) becomes old ++ `[v]`; a truthy value without `concat` makes the call fail and change nothing |
| MetricsStore.MetricsStore.Get | src/web/store.ts:22-24 | the value stored under the key, or none |
| MetricsStore.MetricsStore.Has | src/web/store.ts:26-28 | true iff the key is stored |
| MetricsStore.MetricsStore.Clear | src/web/store.ts:30-32 | no key is stored afterwards |
| MetricsStore.MetricsStore.GetValues | src/web/store.ts:34-37 | a record with exactly the stored keys, each with its stored value |
| WebVitals.MaxOr0 | src/web/plugins/performance/index.ts:116-118 | the maximum of the session values reached, or 0 |
| WebVitals.RecentInputIgnored | src/web/plugins/performance/index.ts:100 | an entry with `hadRecentInput` changes none of the four closure variables |
| WebVitals.StepSession | src/web/plugins/performance/index.ts:104-114 | an entry extends the session (value added, entry appended) iff the session value is non-zero and the entry is within 1000 ms of the last entry and 5000 ms of the first. Otherwise it starts a new session of itself, so a zero-valued session is never extended; the same rule at src/monitors/performance/index.ts:95-105 |
| WebVitals.StepClsMonotone | src/web/plugins/performance/index.ts:116-126 | `clsValue` never decreases, and it changes only on a strict increase, to the session value; the same at src/monitors/performance/index.ts:107-117 |
| WebVitals.SumAppend | src/monitors/performance/index.ts:100-101 | appending an entry adds its value to the sum |
| WebVitals.StepConsistent | src/monitors/performance/index.ts:100-104 | the session value stays the sum of the session's entries |
| WebVitals.RunInvariant | src/web/plugins/performance/index.ts:99-128 | after any stream, the session value is the sum of its entries, and `clsValue` is the maximum session value reached (or 0) |
| WebVitals.ClsExample | src/web/plugins/performance/index.ts:104-118 | A(0, 0.1), B(500, 0.2), C(6000, 0.5) gives `clsValue` 0.5 |
| WebVitals.WebVitals.ClsEntryHandler | src/web/plugins/performance/index.ts:99-128 | the state steps, and the CLS metric is written, with the new `clsValue`, only on a strict increase |
| WebVitals.WebVitals.FidEntryHandler | src/web/plugins/performance/index.ts:81-86 | the FID metric's delay is `processingStart - startTime`; the same at src/monitors/performance/index.ts:72-77 |
| WebVitals.WebVitals.PerfSendHandler | src/web/plugins/performance/index.ts:40-45 | the PERF category, with a snapshot holding exactly the store's keys and values |
| Utf8.EncodeChar | src/web/plugins/error/index.ts:226-228 | one to four bytes per scalar value |
| Utf8.DecodeChar | src/web/plugins/error/index.ts:226-228 | a successful decode consumes between 1 and all of the bytes |
| Utf8.DecodeEncodeChar | src/web/plugins/error/index.ts:226-228 | decoding an encoded character gives it back, with its length, whatever follows |
| Utf8.DecodeEncode | src/web/plugins/error/index.ts:226-228 | `Decode(Encode(s)) == s` |
| UserVitals.KeysDistinct | src/web/plugins/behavior/index.ts:209-222 | distinct metric names have distinct store keys |
| WebVitals.KeysDistinct | src/web/plugins/performance/index.ts:164-185 | distinct metric names have distinct store keys |
| Utf8.EncodeInjective | src/web/plugins/error/index.ts:226-228 | distinct strings have distinct encodings |
| Base64.IndexOf | src/web/plugins/error/index.ts:226-228 | an alphabet lookup inverts `CharOf` |
| Base64.IndexOfCharOf | src/web/plugins/error/index.ts:226-228 | every sextet's character is found again and is never the pad `=` |
| Base64.Encode | src/web/plugins/error/index.ts:226-228 | the output length is `4·ceil(n/3)` |
| Base64.UnquadQuad | src/web/plugins/error/index.ts:226-228 | a 3-byte group survives the round trip through four sextets |
| Base64.DecodeGroup | src/web/plugins/error/index.ts:226-228 | four characters of a full group decode to their three bytes ahead of the rest |
| Base64.DecodeEncode | src/web/plugins/error/index.ts:226-228 | `Decode(Encode(b)) == b` |
| Base64.EncodeInjective | src/web/plugins/error/index.ts:226-228 | distinct byte strings have distinct encodings |
| ErrorVitals.Mechanism.Name | src/web/plugins/error/index.ts:64 | every mechanism name is non-empty |
| ErrorVitals.GetErrorKey | src/web/plugins/error/index.ts:197-203 | a non-`ErrorEvent` gives resource; the message "Script error." gives cors; anything else gives js (each an iff) |
| ErrorVitals.GetErrorUid | src/web/plugins/error/index.ts:226-228 | the length is `4·ceil(bytes/3)`, never shorter than the key |
| ErrorVitals.DecodeGetErrorUid | src/web/plugins/error/index.ts:226-228 | the uid decodes back to its key |
| ErrorVitals.GetErrorUidInjective | src/web/plugins/error/index.ts:226-228 | distinct keys give distinct uids |
| ErrorVitals.Dashed | src/web/plugins/error/index.ts:64 | a non-empty field list starts with a dash |
| ErrorVitals.UidKey | src/web/plugins/error/index.ts:64 | a key begins with its mechanism's name |
| ErrorVitals.NamesDiffer | src/web/plugins/error/index.ts:64 | the mechanism names differ in their first letter |
| ErrorVitals.DistinctMechanismsDistinctUids | src/web/plugins/error/index.ts:91 | errors of different mechanisms never share a uid |
| ErrorVitals.JsKeyAmbiguous | src/web/plugins/error/index.ts:64 | dash-joining is ambiguous: ("a-b", "c") and ("a", "b-c") give the same js key, so the same uid |
| ErrorVitals.ParseLines | src/web/plugins/error/index.ts:258-263 | one parse per line, in order |
| ErrorVitals.StackFrames | src/web/plugins/error/index.ts:254-265 | no frames without a stack. Otherwise the first line is dropped and the next at most 10 lines are each parsed; an unmatched line still gives a frame |
| ErrorVitals.ParseStackFrames | src/web/plugins/error/index.ts:254-265 | the loop returns exactly `StackFrames` |
| ErrorVitals.JsHandler | src/web/plugins/error/index.ts:49-75 | a record iff the event is a js error carrying an error object, with the js key of message and filename |
| ErrorVitals.ResourceHandler | src/web/plugins/error/index.ts:78-102 | a record iff the event is a resource event, with the resource key of src and tagName |
| ErrorVitals.CorsHandler | src/web/plugins/error/index.ts:159-178 | a record iff the event is a cors error, with the cors key of the message, no frames and empty meta |
| ErrorVitals.AtMostOneWindowHandler | src/web/plugins/error/index.ts:197-203 | at most one window-error handler reports an event |
| ErrorVitals.RejectionValue | src/web/plugins/error/index.ts:108 | the reason's message when it is non-empty, else the reason's string form (see Left out) |
| ErrorVitals.RejectionType | src/web/plugins/error/index.ts:109 | the reason's name when it is non-empty, else "UnKnown"; never empty |
| ErrorVitals.RejectionHandler | src/web/plugins/error/index.ts:105-132 | a record iff there is a reason, with value `RejectionValue`, type `RejectionType`, the unhandledrejection key of the two, the parsed frames and empty meta |
| ErrorVitals.HttpHandler | src/web/plugins/error/index.ts:135-156 | a record iff the status is at least 400, with the http key of response and statusText, the request's meta and no frames |
| ErrorVitals.ErrorVitals.constructor | src/web/plugins/error/index.ts:20-28 | no uid submitted yet |
| ErrorVitals.ErrorVitals.ErrorSendHandler | src/web/plugins/error/index.ts:31-46 | a known uid reports nothing and changes nothing. A fresh uid is appended, exactly one ERROR report goes out carrying the breadcrumbs from before the clear, and the breadcrumbs are cleared. The uid list stays duplicate-free |
| EventDispatch.IndexOf | src/core/eventDispatch.ts:12 | -1 iff absent, else the first position |
| EventDispatch.AddSpec | src/core/eventDispatch.ts:7-15 | afterwards the listener is registered. Other types are unchanged, and a listener already present leaves the table unchanged |
| EventDispatch.RemoveSpec | src/core/eventDispatch.ts:26-35 | an unknown type or listener is a no-op; otherwise exactly the first occurrence of the listener is spliced out (none before it is equal), and other types are unchanged |
| EventDispatch.AddKeepsDistinct | src/core/eventDispatch.ts:12-14 | lists stay duplicate-free, and adding twice is adding once |
| EventDispatch.RemoveRemoves | src/core/eventDispatch.ts:26-35 | afterwards the listener is absent, every other listener of that type stays, and lists stay duplicate-free |
| EventDispatch.ApplyOpsAppend | src/core/eventDispatch.ts:44-47 | applying operations in two runs is applying them in one |
| EventDispatch.ApplyOpsKeepsDistinct | src/core/eventDispatch.ts:7-35 | no sequence of adds and removes ever puts a listener twice in a list |
| EventDispatch.EventDispatcher.AddEventListener | src/core/eventDispatch.ts:7-15 | the table becomes `AddSpec` |
| EventDispatch.EventDispatcher.HasEventListener | src/core/eventDispatch.ts:18-23 | true iff the listener is registered for the type |
| EventDispatch.EventDispatcher.RemoveEventListener | src/core/eventDispatch.ts:26-35 | the table becomes `RemoveSpec` |
| EventDispatch.EventDispatcher.DispatchEvent | src/core/eventDispatch.ts:38-50 | for an unknown type nothing happens. Otherwise exactly the listeners registered at the start are called, in order, each seeing the dispatcher as the target; the target is null afterwards; the table reflects what the listeners did (listeners that only add and remove, see Left out) |
| Transport.FormatTransportData | src/core/transport.ts:17-30 | the category is kept; array data goes to `contexts`, anything else to `context`; exactly one of them is present |
| Transport.InitTransportHandler | src/core/transport.ts:33-37 | the beacon handler iff `sendBeacon` is a function |
| Transport.HandlerChannels | src/core/transport.ts:40-48 | the XHR fallback runs iff the handler is XHR or the beacon refused; the beacon, when used, goes first |
| PerformanceApi.ResolveNavigationTiming | src/web/plugins/performance/getPerformanceApiService.ts:60-94 | SSL is 0 without a TLS start, else `connectEnd - secureConnectionStart`. `TTI = FP + DomParse`, `Load = DomReady + Res`, `TTFB + Trans = responseEnd - requestStart`, and `FirstByte = DNS + (responseStart - domainLookupEnd)` |
| PerformanceApi.OrderedTimingsNonNegative | src/web/plugins/performance/getPerformanceApiService.ts:79-92 | on an ordered timeline every metric is non-negative and FP ≤ TTI ≤ DomReady ≤ Load |
| PerformanceApi.ResourceRecord | src/web/plugins/performance/getPerformanceApiService.ts:106-139 | the five copied fields are kept; `dnsLookup` is `domainLookupEnd - domainLookupStart` and `initialConnect` is `connectEnd - connectStart`; `request`, `ttfb` and `contentDownload` all equal `responseStart - requestStart`; `ssl` is `connectEnd - secureConnectionStart` unconditionally |
| PerformanceApi.ResourceSslWithoutTls | src/web/plugins/performance/getPerformanceApiService.ts:135 | without TLS the resource `ssl` is the whole `connectEnd` |
| PerformanceApi.ResourceRecords | src/web/plugins/performance/getPerformanceApiService.ts:106-139 | one record per entry, in order |
| PerformanceApi.ResourceEntryHandler | src/web/plugins/performance/getPerformanceApiService.ts:106-139 | exactly one record is appended to the caller's array |
| PerformanceApi.ObserveResources | src/web/plugins/performance/getPerformanceApiService.ts:106-142 | a batch appends its records, in arrival order |
| ReportData.Round | src/monitors/performance.ts:109 | `Math.round`: the nearest integer, halves rounded up |
| BehaviorMonitor.ClassSelector | src/monitors/behavior.ts:220-223 | no class gives nothing; otherwise "." followed by the class string with every space turned into "." |
| BehaviorMonitor.TextLabelAsWritten | src/monitors/behavior.ts:226-231 | the text part as written: no or empty text gives ""; otherwise `:text(` the trimmed text cut to 20 `)`, with "..." iff the untrimmed text is longer than 20 |
| BehaviorMonitor.LabelsAgree | src/monitors/behavior.ts:226-231 | the as-written and corrected labels agree iff the text is absent, empty, at most 20 long, or still longer than 20 after trimming |
| BehaviorMonitor.TextLabel | src/monitors/behavior.ts:226-231 | the corrected text part: `:text(...)` of the first 20 trimmed characters, with "..." iff the trimmed text is longer than 20 |
| BehaviorMonitor.TrimPaddedLabel | src/monitors/behavior.ts:227-231 | "Submit" padded with 15 spaces trims to "Submit" |
| BehaviorMonitor.PaddedLabelGetsEllipsis | src/monitors/behavior.ts:227-231 | as written the padded label gives ":text(Submit...)", corrected it gives ":text(Submit)" |
| BehaviorMonitor.GetElementInfo | src/monitors/behavior.ts:210-235 | "" without an element or tag name; otherwise the lowercased tag, then `#id`, then the classes, then the text part as written (`TextLabelAsWritten`) |
| BehaviorMonitor.IsFormElement | src/monitors/behavior.ts:241-248 | true iff the lowercased tag is input, textarea, select or button |
| BehaviorMonitor.BehaviorMonitor.constructor | src/monitors/behavior.ts:26-40 | no throttle timer pending, and the first pageview tracked |
| BehaviorMonitor.BehaviorMonitor.TrackPageview | src/monitors/behavior.ts:184-204 | suppressed within 1000 ms of the last accepted pageview; `lastPageviewTime` moves only on acceptance |
| BehaviorMonitor.BehaviorMonitor.OnRouteChange | src/monitors/behavior.ts:83-91 | the path is updated, and a pageview is tracked only when the path differs; `lastPageviewTime` becomes `now` exactly when that pageview is accepted and is unchanged otherwise |
| BehaviorMonitor.BehaviorMonitor.OnClickThrottled | src/monitors/behavior.ts:104-111 | a click while one is pending is dropped |
| BehaviorMonitor.BehaviorMonitor.OnInputThrottled | src/monitors/behavior.ts:117-124 | an input while one is pending is dropped |
| BehaviorMonitor.BehaviorMonitor.OnClickTimer | src/monitors/behavior.ts:106-109 | the timer field is cleared, then the captured click is reported with its element info as written |
| BehaviorMonitor.BehaviorMonitor.OnInputTimer | src/monitors/behavior.ts:119-122 | the timer field is cleared, then the captured input is handled, with its element info as written |
| BehaviorMonitor.BehaviorMonitor.OnClickEvent | src/monitors/behavior.ts:130-150 | one click record with the element info as written (`GetElementInfo`), or nothing without a target |
| BehaviorMonitor.BehaviorMonitor.OnInputEvent | src/monitors/behavior.ts:156-179 | one input record iff the target is a form element, with the element info as written |
| BehaviorMonitor.BehaviorMonitor.Destroy | src/monitors/behavior.ts:253-264 | both throttle timers are cancelled |
| ErrorMonitor.IsResourceLoadErrorAsWritten | src/monitors/error.ts:131-140 | as written the test throws (none) exactly for a target without `tagName`, i.e. the window |
| ErrorMonitor.IsResourceLoadError | src/monitors/error.ts:131-140 | corrected: true iff the target is an element whose lowercased tag is link, script, img, audio, video or source; it agrees with the as-written test wherever that does not throw |
| ErrorMonitor.GetResourceUrl | src/monitors/error.ts:146-161 | `href` for link, `src` for img, script, audio and video, otherwise "" |
| ErrorMonitor.SourceUrlEmpty | src/monitors/error.ts:146-160 | a source element never has a URL |
| ErrorMonitor.ResourceErrorRecord | src/monitors/error.ts:66-86 | nothing for an empty URL; otherwise "Failed to load <tag>: <url>" |
| ErrorMonitor.JsErrorRecord | src/monitors/error.ts:40-60 | a missing name, message or stack defaults to "Error", "Unknown error" and "" |
| ErrorMonitor.OnErrorRecords | src/monitors/error.ts:40-60 | resource-load errors are left to the resource handler; every other error gives one JS error record |
| ErrorMonitor.OnErrorAsWritten | src/monitors/error.ts:40-60 | as written `onError` throws (no result) exactly for a target that is not an element, and agrees with `OnErrorRecords` elsewhere |
| ErrorMonitor.WindowErrorLost | src/monitors/error.ts:40-44 | a JS error on the window is lost as written and reported once when corrected |
| ErrorMonitor.RejectionRecord | src/monitors/error.ts:92-125 | an Error reason supplies message, name and stack (`""` when it has none); a string becomes the message, with name UnhandledRejection; any other value is its JSON text, or the fixed fallback when that fails |
| ErrorMonitor.ConsoleMessage | src/monitors/error.ts:172-202 | the concatenation of the non-Error arguments, a space only after a non-empty message |
| ErrorMonitor.DropLeadingEmpty | src/monitors/error.ts:189-199 | leading empty texts contribute nothing |
| ErrorMonitor.ConsoleMessageIsJoin | src/monitors/error.ts:172-202 | the message is the space-joined texts after the leading empty ones |
| ErrorMonitor.ConsoleMessageNonEmpty | src/monitors/error.ts:204-219 | the message is non-empty iff some non-Error argument has non-empty text |
| ErrorMonitor.ErrorArgRecords | src/monitors/error.ts:174-188 | one JS error record per Error argument |
| ErrorMonitor.AllErrorArgs | src/monitors/error.ts:174-188 | with only Error arguments there is one record each, in argument order, and no console message |
| ErrorMonitor.ErrorMonitor.OnError | src/monitors/error.ts:40-60 | the records of `OnErrorAsWritten` are reported: nothing for a window target, whose resource test throws |
| ErrorMonitor.CallerStack | src/monitors/error.ts:213 | the stack without its first two lines: empty with at most two lines, otherwise the first two lines and a newline before it give back the stack |
| ErrorMonitor.ErrorMonitor.OnResourceError | src/monitors/error.ts:66-86 | the resource record is reported, or nothing for an empty URL |
| ErrorMonitor.ErrorMonitor.OnUnhandledRejection | src/monitors/error.ts:92-125 | one rejection record is reported |
| ErrorMonitor.ErrorMonitor.ReportErrorArg | src/monitors/error.ts:175-188 | one record per `Error` argument, of type JsError |
| ErrorMonitor.ErrorMonitor.ScanConsoleArgs | src/monitors/error.ts:172-202 | the loop reports the `Error` arguments in order and returns exactly `ConsoleMessage(args)` |
| ErrorMonitor.ErrorMonitor.ScanConsoleArg | src/monitors/error.ts:174-201 | one turn of the loop: the message becomes `ConsoleMessage` of one more argument, and only an `Error` argument adds a record |
| ErrorMonitor.ErrorMonitor.ConsoleError | src/monitors/error.ts:166-221 | the loop reports the Error arguments in order, then one ConsoleError record iff the message is non-empty |
| ResourceMonitor.SplitLastIsSuffix | src/monitors/resource.ts:82-83 | the last piece of a split is a suffix of the string, and when there are several pieces a separator stands right before it |
| ResourceMonitor.ResourceNameIsLastSegment | src/monitors/resource.ts:82-83 | the name is a suffix of the URL; it is the whole URL iff the URL has no "/" or ends in "/"; otherwise it is non-empty, has no "/" and follows the URL's last "/" |
| ResourceMonitor.CalculateResourceSize | src/monitors/resource.ts:117-130 | the transfer size if non-zero, else the encoded size; 0 iff both are 0 |
| ResourceMonitor.ResourceRecord | src/monitors/resource.ts:80-110 | `url` is the entry name, `name` is `ResourceName`, the duration is rounded, the size is `CalculateResourceSize` |
| ResourceMonitor.ResourceRecords | src/monitors/resource.ts:66-74 | only resource records, at most one per entry |
| ResourceMonitor.OtherTypesIgnored | src/monitors/resource.ts:69 | entries of other types give nothing |
| ResourceMonitor.OneRecordPerEntry | src/monitors/resource.ts:66-74 | resource entries give exactly one record each, in input order |
| ResourceMonitor.ResourceMonitor.HandleEntries | src/monitors/resource.ts:66-74 | the loop reports exactly `ResourceRecords` |
| ResourceMonitor.ResourceMonitor.ReportResource | src/monitors/resource.ts:80-110 | one `ResourceRecord` is reported |
| ResourceMonitor.ResourceMonitor.OnLoad | src/monitors/resource.ts:54-60 | the buffered entries are handled when the Performance API exists |
| PerformanceMonitor.NavigationTiming | src/monitors/performance.ts:72-95 | `DOMReady`, `load` and `TTFB` are each present iff both of their timestamps are non-zero, and then equal their end minus `navigationStart` |
| PerformanceMonitor.GetNavigationTiming | src/monitors/performance.ts:72-95 | the method computes `NavigationTiming` of the timing record |
| PerformanceMonitor.LastIndex | src/monitors/performance.ts:107-113 | the position of the last entry with the name, or -1 |
| PerformanceMonitor.LastStart | src/monitors/performance.ts:107-113 | none iff no entry has the name; otherwise the start of the last entry with it |
| PerformanceMonitor.GetPaintTiming | src/monitors/performance.ts:100-121 | `FP` and `FCP` come from the last first-paint and first-contentful-paint entries, rounded; all other names are ignored; the result is `PaintTiming` of the entries |
| PerformanceMonitor.LcpRecord | src/monitors/performance.ts:131-146 | an LCP batch gives `FMP` from its last entry, and nothing when empty |
| PerformanceMonitor.PerformanceMonitor.OnLoadTimer | src/monitors/performance.ts:31-38 | after a completed collection nothing more is collected; without the Performance API nothing is reported and the latch stays open; otherwise exactly the record of `NavigationTiming` and `PaintTiming` is reported and the latch is set |
| PerformanceMonitor.PerformanceMonitor.CollectPerformanceData | src/monitors/performance.ts:43-67 | with the Performance API exactly one record is reported, the merge of `NavigationTiming(timing)` and `PaintTiming(paints)` at `now`, and the latch is set; without it nothing is reported |
| PerformanceMonitor.PerformanceMonitor.OnLcpEntries | src/monitors/performance.ts:131-146 | the record of `LcpRecord` is reported, if any |
| UserVitals.FirstMounted | src/web/plugins/behavior/index.ts:153-155 | the first element whose lowercased tag is mounted, or the path length |
| UserVitals.ClickTarget | src/web/plugins/behavior/index.ts:153-161 | the first mounted element of `path`; failing that, the target when it is mounted; otherwise none |
| UserVitals.Sanitize | src/web/plugins/behavior/index.ts:193-196 | below status 400 `response` and `body` are removed; at 400 and above the record is untouched; no other field changes |
| UserVitals.BreadcrumbKeepsReportedResponses | src/web/plugins/behavior/index.ts:193-196 | a completion the error plugin reports keeps its response in the breadcrumb; one it ignores loses it |
| UserVitals.UserSendHandler | src/web/plugins/behavior/index.ts:61-68 | the PV category, with the data as `context` |
| UserVitals.UserVitals.constructor | src/web/plugins/behavior/index.ts:42-58 | page and origin information stored under their keys, empty breadcrumbs of capacity 100, mount list `["button"]` |
| UserVitals.UserVitals.OnCustomEvent | src/web/plugins/behavior/index.ts:82-94 | one `custom-define-record` appended, the same data sent under PV, one breadcrumb of that name |
| UserVitals.UserVitals.OnRouteChange | src/web/plugins/behavior/index.ts:105-123 | one `router-change-record` appended whose `pageInfo` is gone afterwards, and one breadcrumb carrying the same record |
| UserVitals.UserVitals.OnPageview | src/web/plugins/behavior/index.ts:126-140 | a PV report of the time, page and origin |
| UserVitals.UserVitals.OnClick | src/web/plugins/behavior/index.ts:151-180 | nothing without a mounted target; otherwise one `click-behavior-record` appended (its `pageInfo` deleted) and one breadcrumb with the same record |
| UserVitals.UserVitals.OnHttpLoad | src/web/plugins/behavior/index.ts:191-205 | exactly one `http-record` breadcrumb per completion, carrying the sanitized record |

## Left out

**Browser glue and I/O**
- Monkey-patching of history, XHR and fetch, and `afterLoad` (`src/web/utils.ts`): src/web/utils.ts is not part of this model. The events these deliver are parameters. Only the `IHttpMetrics` shape is kept.
- Every `addEventListener`/`removeEventListener` registration, the `beforeunload` hook, and the `PerformanceObserver` wiring are left out; handlers are called directly. This includes `destroy` removing a freshly bound `flush`, which never matches the registered one.
- The `performance.timing` fallback of the performance API service is left out.
- `setTimeout`/`setInterval` are explicit timer-fired operations, with the timer id as a parameter.
- `fetch`, `sendBeacon` and `XMLHttpRequest` are left out. Each attempt's outcome is an input.

**Reporter and transport**
- Reporter.Reporter.Flush: the beacon is called synchronously inside `flush`. Here every attempt settles in `Resolve`, so reports made between the start and the end of a send are modelled, but not where they fall relative to the beacon call.
- Transport.HandlerChannels: only the decision to fall back is modelled. The fallback's `.apply(this, data)` does not forward the structure as an argument, and that is not modelled.

**Data and serialisation**
- Floating point: timestamps, CLS values and timing deltas are `real`s. `toFixed(2)` and IEEE rounding are not modelled. `Math.round` is `floor(x + 0.5)` on reals.
- The stack regex `FULL_MATCH`: `parseStackLine` is a function parameter.
- `JSON.stringify` and `String(value)` are left out. Their results are inputs (`OtherValue(json)`, `ObjectArg(json)`). `encodeURIComponent` on lone surrogates is excluded, because strings are Dafny `char` sequences, which are scalar values.
- `toLowerCase` and `trim` are ASCII only.
- `appId`/`userId` placeholders and the environment readers of `getUserBehaviorApiService.ts` are left out. Page and origin information are parameters, and only `pathname`, `href` and `title` of the page are kept.
- Two `Date.now()` calls in one handler are one `now` parameter.

**Plugins and monitors**
- The monitor copy of `perfSendHandler` (src/monitors/performance/index.ts:33-36) has an empty body, so there is nothing to model.
- The `initFP`/`initFCP`/`initLCP` store writes of the web-vitals plugins are not part of the named core.
- The error plugin's listener registration is left out. The handlers are pure functions from an event to an optional exception record, and `ErrorSendHandler` takes that record.
- EventDispatch.EventDispatcher.DispatchEvent: a listener is a fixed sequence of `addEventListener`/`removeEventListener` calls. Listeners that throw, write `event.target` or dispatch again are not modelled. In the source a throw at src/core/eventDispatch.ts:46 ends the loop, skips the later listeners and leaves the target set, because :48 never runs. A nested `dispatchEvent` of the same event sets the target to `null` for the rest of the outer loop.
- ErrorVitals.RejectionValue: for a reason whose message is empty, the source's `reason.message || reason` keeps the raw reason, such as an `Error` object or a number. The model stores that reason's string form (`text`), because the record's value is a string here.
- ErrorMonitor.RejectionRecord: `JSON.stringify` returns `undefined`, without throwing, for an undefined reason (`Promise.reject()`), a function or a symbol, and the record's message is then `undefined`. The model has only a JSON text or a throw (`OtherValue(None)`), and a message is always a string, so that outcome is not modelled.
- EventDispatch.EventDispatcher.AddEventListener, HasEventListener, RemoveEventListener and DispatchEvent: the listener table is a plain `{}` (src/core/eventDispatch.ts:4) and is modelled as a map in which every type is an ordinary key. A type naming an `Object.prototype` member, such as `toString`, `constructor` or `__proto__`, reads an inherited non-array value at :9, :21, :28 and :40. Then add, has and remove throw at `.indexOf`, and dispatch sets the target at :42 before it throws at :44. The model treats such a type as absent. Add registers the listener, has answers false, and remove and dispatch do nothing.
- `Map` key insertion order is not modelled (`getValues` is compared as a map).
- UserVitals.UserVitals.OnHttpLoad: `delete` on the interception layer's record mutates the caller's object. Here the sanitized record is a new value, so that aliasing is not modelled.
- UserVitals.UserVitals.OnCustomEvent: the send goes to the engine's transport handler. The model returns the structure handed to it.
- BehaviorStore.BehaviorStore.Get returns the stack as a value. The aliasing of the returned array with later pushes is not modelled; `clear` replaces the array, so the model matches the source there.
- WebVitals.WebVitals.ClsEntryHandler: `clsEntries` aliases `sessionEntries`, which a later `push` extends. The model keeps value copies.
- MetricsStore.MetricsStore.Add: a truthy string value has a `concat` that appends text. The model counts it as a value without `concat`, so `add` on it fails.

**Error feedback and character width**
- `console.error` calls inside the SDK's own catch blocks (src/utils/reporter.ts:79, src/monitors/resource.ts:47 and :142, src/monitors/performance.ts:91, :117 and :154, src/monitors/behavior.ts:285) are not fed back through the `ErrorMonitor` override of `console.error`. With that override installed, a failed send would also queue console and JS error records ahead of the re-queued batch; the model requeues only the batch.
- Lengths and `slice(0, 20)` count Unicode scalar values, while JavaScript counts UTF-16 code units. The two agree on text without characters outside the Basic Multilingual Plane.

## Findings

| source | as written | input that shows it | evidently intended | confidence | as-written member | corrected member |
|---|---|---|---|---|---|---|
| src/monitors/error.ts:131-140 | `isResourceLoadError` reads `target.tagName.toLowerCase()` before it checks that the target is an element. For an uncaught script error the target is `window`, which has no `tagName`, so the handler throws and the JS error is never reported | an `ErrorEvent` whose target is the window, i.e. any uncaught script error | test `target instanceof HTMLElement` (and the tag) first, then report the JS error | not executed | ErrorMonitor.OnErrorAsWritten (with ErrorMonitor.WindowErrorLost) | ErrorMonitor.OnErrorRecords (the monitor method ErrorMonitor.ErrorMonitor.OnError follows the code as written) |
| src/monitors/behavior.ts:227-231 | the text label shows the first 20 characters of the trimmed text, but appends "..." when the untrimmed text is longer than 20 | a button whose text is "Submit" followed by 15 spaces gives ":text(Submit...)" | "..." only when the shown text was actually cut, giving ":text(Submit)" | not executed | BehaviorMonitor.TextLabelAsWritten (with BehaviorMonitor.PaddedLabelGetsEllipsis and BehaviorMonitor.LabelsAgree) | BehaviorMonitor.TextLabel (BehaviorMonitor.GetElementInfo follows the code as written) |
