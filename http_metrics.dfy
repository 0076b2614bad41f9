/**
 * The record the network interception layer hands to its load handlers
 * (`IHttpMetrics`). The interception itself is not part of this model.
 */
module HttpMetrics {
  import opened Wrappers

  /** `httpMethod` is the record's `method` field; `response` and `body` are
   * optional: the behaviour plugin deletes them. */
  datatype HttpMetrics = HttpMetrics(
    httpMethod: string, url: string, body: Option<string>,
    requestTime: int, responseTime: int,
    status: int, statusText: string, response: Option<string>)

  /** The status from which a completion counts as failed. */
  const ErrorStatus: int := 400
}
