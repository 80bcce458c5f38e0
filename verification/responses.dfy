/** The shape of a failed API call and `handleAPIClientError`, which sorts a
    failure into exactly one outcome counter. */
module Responses {
  import opened Results
  import opened Statistics

  /** The `result` object of a 422 body. */
  datatype Verdict = Verdict(userExists: bool, message: Option<string>)

  /** The fields of an error body the tool looks at. */
  datatype Body = Body(title: Option<string>, detail: Option<string>, result: Option<Verdict>)

  /** An HTTP response; `data` is `None` when the body is missing or falsy. */
  datatype Response = Response(status: int, data: Option<Body>)

  /** A rejected call: transport faults carry no response. */
  datatype ApiError = ApiError(response: Option<Response>)

  /** The branch of the decision table a failure falls into. */
  datatype ErrorKind =
    | NoResponse      // nothing came back
    | InvalidClient   // 400, title `invalid_client`
    | NotFound        // 404, title `Not Found`
    | UserExists      // 422, `result.user_exists`
    | Unprocessable   // 422 with any other body
    | UnknownStatus   // everything else

  predicate HasTitle(r: Response, title: string)
  {
    r.data.Some? && r.data.value.title == Some(title)
  }

  predicate SaysUserExists(r: Response)
  {
    r.data.Some? && r.data.value.result.Some? && r.data.value.result.value.userExists
  }

  /** The failure carries a response with status `code`. */
  predicate HasStatus(e: ApiError, code: int)
  {
    e.response.Some? && e.response.value.status == code
  }

  /** The decision table, first match wins. */
  function Classify(e: ApiError): (k: ErrorKind)
    ensures k == NoResponse <==> e.response.None?
    ensures k == InvalidClient <==> HasStatus(e, 400) && HasTitle(e.response.value, "invalid_client")
    ensures k == NotFound <==> HasStatus(e, 404) && HasTitle(e.response.value, "Not Found")
    ensures k == UserExists <==> HasStatus(e, 422) && SaysUserExists(e.response.value)
    ensures k == Unprocessable <==>
              (HasStatus(e, 422) && e.response.value.data.Some? && !SaysUserExists(e.response.value))
    ensures k == UnknownStatus <==>
              (e.response.Some?
               && !(HasStatus(e, 400) && HasTitle(e.response.value, "invalid_client"))
               && !(HasStatus(e, 404) && HasTitle(e.response.value, "Not Found"))
               && !(HasStatus(e, 422) && e.response.value.data.Some?))
  {
    match e.response
    case None => NoResponse
    case Some(r) =>
      if r.status == 400 && r.data.Some? && r.data.value.title == Some("invalid_client") then InvalidClient
      else if r.status == 404 && r.data.Some? && r.data.value.title == Some("Not Found") then NotFound
      else if r.status == 422 && r.data.Some? && r.data.value.result.Some? && r.data.value.result.value.userExists then UserExists
      else if r.status == 422 && r.data.Some? then Unprocessable
      else UnknownStatus
  }

  /** The counter each branch increments. The last branch, an unrecognised
      status, counts as an error, not as an unknown. */
  function CounterFor(k: ErrorKind): (c: Counter)
    ensures c in {Errors, NotExists, Exists}
    ensures c == NotExists <==> k == NotFound
    ensures c == Exists <==> k == UserExists
  {
    match k
    case NotFound => NotExists
    case UserExists => Exists
    case _ => Errors
  }

  /** `handleAPIClientError`: exactly one of `errors`, `not_exists` and
      `exists` goes up by one; nothing else changes. */
  function HandleAPIClientError(s: Stats, e: ApiError): (r: Stats)
    ensures forall c :: Count(r, c) == Count(s, c) + (if c == CounterFor(Classify(e)) then 1 else 0)
    ensures SameFrame(r, s)
    ensures Total(r) == Total(s) + 1
    ensures r.created == s.created && r.updated == s.updated && r.replaced == s.replaced
    ensures r.skipped == s.skipped && r.unknowns == s.unknowns
  {
    Bump(s, CounterFor(Classify(e)))
  }

  /** A transport fault, a bad client secret, an unexpected status and a 404
      without the `Not Found` title all land in `errors`. */
  lemma ErrorsBucket(s: Stats)
    ensures HandleAPIClientError(s, ApiError(None)).errors == s.errors + 1
    ensures HandleAPIClientError(s, ApiError(Some(Response(400, Some(Body(Some("invalid_client"), None, None)))))).errors == s.errors + 1
    ensures HandleAPIClientError(s, ApiError(Some(Response(500, None)))).errors == s.errors + 1
    ensures HandleAPIClientError(s, ApiError(Some(Response(500, None)))).unknowns == s.unknowns
    ensures HandleAPIClientError(s, ApiError(Some(Response(404, None)))).errors == s.errors + 1
  {
  }
}
