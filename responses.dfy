/**
 * The outcome of one delivery attempt (`WebhookResponse`): a success flag,
 * a status code and a message, immutable once made.
 */
module Responses {

  /**
   * The constructor takes the three values as given; the getters
   * `isSuccess`, `getStatusCode` and `getMessage` are the destructors.
   * Java's `int` status code is modelled as an unbounded `int`.
   */
  datatype WebhookResponse = WebhookResponse(success: bool, statusCode: int, message: string)

  /** `WebhookResponse.success(code, message)`. */
  function Success(statusCode: int, message: string): (r: WebhookResponse)
    ensures r.success
    ensures r.statusCode == statusCode && r.message == message
  {
    WebhookResponse(true, statusCode, message)
  }

  /** `WebhookResponse.failure(code, message)`. */
  function Failure(statusCode: int, message: string): (r: WebhookResponse)
    ensures !r.success
    ensures r.statusCode == statusCode && r.message == message
  {
    WebhookResponse(false, statusCode, message)
  }

  /**
   * Every response is produced by exactly one of the two factories, applied
   * to its own code and message: the factories lose nothing and overlap nowhere.
   */
  lemma FactoriesPartition(r: WebhookResponse)
    ensures r == (if r.success then Success(r.statusCode, r.message) else Failure(r.statusCode, r.message))
    ensures Success(r.statusCode, r.message) != Failure(r.statusCode, r.message)
  {
  }

  /**
   * The factories do not relate the flag to the code: any code, 0 and
   * 500 included, can be wrapped as a success or as a failure.
   */
  lemma FactoriesIgnoreStatusRange(code: int, message: string)
    ensures Success(code, message).success && !Failure(code, message).success
    ensures Success(code, message).statusCode == Failure(code, message).statusCode == code
  {
  }
}
