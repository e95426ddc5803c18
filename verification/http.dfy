/**
 What both handlers share: the response they send, the abstract result of the one
 outbound `fetch`, the record of whether that call was made, and the error
 responses that both handlers produce in the same way.
 */
module Http {
  import opened Wrappers
  import opened Js

  /** The JSON body of a response, one variant per shape the handlers send. */
  datatype Body =
    | Empty                                  // `res.end()`
    | ErrorBody(error: Value)                // `{ error }`
    | ErrorWithRaw(error: Value, raw: Value) // `{ error, raw }`
    | ReplyBody(reply: Value)                // `{ reply }`
    | UrlBody(url: Value)                    // `{ url }`

  datatype Response = Response(status: int, body: Body)

  /**
   The outbound call as seen by the handler: either `fetch` rejects, or it yields
   a status and `r.json()` either yields a parsed payload or rejects.
   */
  datatype Upstream =
    | FetchFailed(error: Exception)
    | Received(status: int, payload: Outcome<Value>)

  /** One invocation: the upstream call that was issued, if any, and the response. */
  datatype Exchange<C> = Exchange(call: Option<C>, response: Response)

  /** `r.ok`: the status lies in the range 200 to 299 (Fetch standard). */
  predicate IsOk(status: int)
    ensures IsOk(status) <==> status / 100 == 2
  {
    200 <= status <= 299
  }

  /** `process.env.OPENAI_API_KEY` is truthy: set and non-empty. */
  predicate KeyPresent(key: Option<string>)
    ensures KeyPresent(key) <==> key.GetOr("") != ""
  {
    key.Some? && key.value != ""
  }

  const UsePost: Response := Response(405, ErrorBody(Str("Use POST")))

  const MissingKey: Response := Response(500, ErrorBody(Str("Missing OPENAI_API_KEY")))

  /** An invocation that answers without calling upstream. */
  function NoCall<C>(response: Response): Exchange<C> {
    Exchange(None, response)
  }

  /** The `catch` clause: status 500 with `err?.message`, or "Server error" when that is falsy. */
  function ServerError(e: Exception): (r: Response)
    ensures r.status == 500 && r.body.ErrorBody? && Truthy(r.body.error)
    ensures Truthy(e.message) ==> r.body.error == e.message
    ensures !Truthy(e.message) ==> r.body.error == Str("Server error")
  {
    Response(500, ErrorBody(Or(e.message, Str("Server error"))))
  }

  /**
   A non-ok upstream answer passed through: the upstream status, `data?.error?.message`
   or `fallback` when that is falsy, and the whole payload as `raw`.
   */
  function UpstreamError(status: int, data: Value, fallback: string): (r: Response)
    requires fallback != ""
    ensures r.status == status && r.body.ErrorWithRaw? && r.body.raw == data
    ensures Truthy(r.body.error)
    ensures Truthy(Get(Get(data, "error"), "message")) ==> r.body.error == data.fields["error"].fields["message"]
    ensures !Truthy(Get(Get(data, "error"), "message")) ==> r.body.error == Str(fallback)
  {
    Response(status, ErrorWithRaw(Or(Get(Get(data, "error"), "message"), Str(fallback)), data))
  }
}
