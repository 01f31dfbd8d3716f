/**
 * The client's error type (error.rs) and the step every resource function
 * ends with: branch on the decoded status of the response envelope and
 * return either the payload list or the message the API reported
 * (`list_common` in composer.rs and work.rs, the same match inline in
 * genre.rs).
 */
module Api {
  import opened Types
  import Json
  import Status

  /** `ReqwestError` covers transport failures and bodies that fail to decode. */
  datatype OpenOpusError = ReqwestError | OpenOpusApiError(message: string)

  datatype Result<T> = Ok(value: T) | Err(error: OpenOpusError)

  /**
   * What one GET of a URL yields: a failure of the request or of decoding
   * its body, or a body whose `status` member is a JSON value and whose
   * payload list (`composers`, `genres` or `works`) is present or absent.
   */
  datatype Response<T> = Failed | Body(status: Json.Value, payload: Option<seq<T>>)

  /** The remote API: the response it gives to a GET of each URL. */
  type Server<T> = string -> Response<T>

  /**
   * The remote contract the client relies on without checking: a body whose
   * status decodes as success carries its payload (`unwrap` panics otherwise).
   */
  predicate Conforms<T>(resp: Response<T>) {
    resp.Body? && Status.Decode(resp.status).Some? && Status.Decode(resp.status).value.Ok?
    ==> resp.payload.Some?
  }

  /**
   * `r` is what the client surfaces for `resp`: the payload verbatim when the
   * status says success, the API's own message when it says failure, and a
   * transport error when the status cannot be decoded or nothing arrived.
   */
  ghost predicate Answers<T>(r: Result<seq<T>>, resp: Response<T>) {
    match r
    case Ok(items) =>
      && resp.Body?
      && Status.Tag(resp.status) == Some("true")
      && Status.Decode(resp.status).Some?
      && resp.payload == Some(items)
    case Err(OpenOpusApiError(message)) =>
      && resp.Body?
      && Status.Tag(resp.status) == Some("false")
      && Status.Decode(resp.status).Some?
      && Status.Decode(resp.status).value.err.error == message
    case Err(ReqwestError) =>
      resp.Failed? || Status.Decode(resp.status).None?
  }

  /** `list_common`. */
  function ListCommon<T>(resp: Response<T>): (r: Result<seq<T>>)
    requires Conforms(resp)
    ensures Answers(r, resp)
  {
    match resp
    case Failed => Err(ReqwestError)
    case Body(status, payload) =>
      match Status.Decode(status)
      case None => Err(ReqwestError)
      case Some(Ok(_)) => Ok(payload.value)
      case Some(Err(e)) => Err(OpenOpusApiError(e.error))
  }

  /** A response has at most one answer, so `Answers` pins the result down. */
  lemma AnswersUnique<T>(r1: Result<seq<T>>, r2: Result<seq<T>>, resp: Response<T>)
    requires Answers(r1, resp) && Answers(r2, resp)
    ensures r1 == r2
  {
  }

  /** A conforming response always has an answer; the status tag decides which branch it takes. */
  lemma AnswerFollowsTag<T>(resp: Response<T>)
    requires Conforms(resp) && resp.Body? && Status.Decode(resp.status).Some?
    ensures ListCommon(resp).Ok? <==> Status.Tag(resp.status) == Some("true")
    ensures ListCommon(resp).Err? ==> ListCommon(resp).error.OpenOpusApiError?
  {
  }
}
