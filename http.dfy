/**
 * What the two services share: the request they hand to `fetch`, the reply they
 * get back, and the way a reply becomes a value or a thrown error. `fetch` and the
 * JSON parsing are not modelled; a reply is given.
 */
module Http {
  import opened Wrappers
  import SearchParams

  datatype Method = Get | Post | Patch | Delete

  /** The hosting page: the build mode of the incident service and the session token `window.g_ck`. */
  datatype Host = Host(isDev: bool, gck: Option<string>)

  type Headers = map<string, string>

  /** One call of `fetch`: its verb (the `method` option), path under the host, query, headers and JSON body. */
  datatype Request<B> = Request(verb: Method, path: string, query: SearchParams.Params, headers: Headers, body: Option<B>)

  /** A JSON body: `error.message` when the store reports one, and `result`. */
  datatype Body<R> = Body(errorMessage: Option<string>, result: Option<R>)

  /** What `fetch` produced: it threw, or a response with its `ok` flag and parsed body. */
  datatype Reply<R> = NetworkError(reason: string) | Response(ok: bool, body: Body<R>)

  /** What a service call produces: a value, or a thrown `Error` with its message. */
  datatype Outcome<T> = Ok(value: T) | Failed(message: string)

  const TablePath := "/api/now/table/"

  /** `window.g_ck` is truthy. */
  predicate TokenTruthy(gck: Option<string>)
  {
    gck.Some? && gck.value != ""
  }

  /** `window.g_ck || ''`. */
  function TokenOrEmpty(gck: Option<string>): (t: string)
    ensures TokenTruthy(gck) ==> t == gck.value
    ensures !TokenTruthy(gck) ==> t == ""
  {
    match gck
    case Some(t) => t
    case None => ""
  }

  /** `errorData.error?.message || fallback`. */
  function BodyMessageOr<R>(body: Body<R>, fallback: string): (m: string)
    ensures body.errorMessage.Some? && body.errorMessage.value != "" ==> m == body.errorMessage.value
    ensures body.errorMessage == None || body.errorMessage == Some("") ==> m == fallback
  {
    match body.errorMessage
    case Some(text) => if text != "" then text else fallback
    case None => fallback
  }

  /** `result || []`. */
  function ResultOrEmpty<E>(body: Body<seq<E>>): (r: seq<E>)
    ensures body.result.Some? ==> r == body.result.value
    ensures body.result.None? ==> r == []
  {
    body.result.GetOr([])
  }

  /**
   * The shape every service method shares: a thrown `fetch` propagates its error,
   * a response that is not ok throws with the message `failMessage` picks from its
   * body, and an ok response yields `success` of its body.
   */
  function Settle<R, T>(reply: Reply<R>, failMessage: Body<R> -> string, success: Body<R> -> T): (o: Outcome<T>)
    ensures o.Ok? <==> reply.Response? && reply.ok
    ensures o.Ok? ==> o.value == success(reply.body)
    ensures reply.NetworkError? ==> o == Failed(reply.reason)
    ensures reply.Response? && !reply.ok ==> o == Failed(failMessage(reply.body))
  {
    match reply
    case NetworkError(reason) => Failed(reason)
    case Response(ok, body) => if ok then Ok(success(body)) else Failed(failMessage(body))
  }
}
