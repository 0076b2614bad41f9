/**
 * The records the monitors hand to the batching reporter (`ReportData`).
 * `appId` and `userId`, which the monitors leave empty for the main class
 * to fill, are not represented; the record kind stands for `type`.
 */
module ReportData {
  import opened Wrappers

  datatype ErrorType = JsError | PromiseError | ResourceError | OtherError

  datatype ActionType = Click | Input | Pageview

  datatype ReportData =
    | PerformanceData(timestamp: int, FP: Option<int>, FCP: Option<int>, FMP: Option<int>,
                      DOMReady: Option<int>, load: Option<int>, TTFB: Option<int>)
    | ErrorData(timestamp: int, name: string, message: string, stack: string, url: string, errorType: ErrorType)
    | ResourceData(timestamp: int, name: string, url: string, initiatorType: string, duration: int, size: int)
    | BehaviorData(timestamp: int, actionType: ActionType, path: string, element: Option<string>, time: int)

  /** `Math.round` on a real: the nearest integer, halves rounded up. */
  function Round(x: real): (r: int)
    ensures r as real - 0.5 <= x < r as real + 0.5
  {
    (x + 0.5).Floor
  }
}
