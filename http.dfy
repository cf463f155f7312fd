/** One HTTP exchange made through `requests`, as the calling code sees it. The request itself (URL,
    headers, credentials, payload) is not modelled: each exchange is an input of the model. */
module Http {
  import opened Py

  /** The response body, as `response.json()` sees it. */
  datatype Body = Parsed(json: Json) | Unparsable(error: string)

  datatype Exchange =
    /** A response arrived. `text` is `response.text`; `errorText` is what `str()` of the HTTPError
        that `raise_for_status()` raises for this response gives (requests builds it). */
    | Reply(status: int, text: string, body: Body, errorText: string)
    /** No response: `requests.get/post/put` raised a RequestException whose `str()` is `message`. */
    | Failed(message: string)

  /** The exception `requests.get/post/put` raises when no response came. */
  function TransportError(x: Exchange): Exc
    requires x.Failed?
  {
    Exc(RequestException, x.message)
  }

  /** `response.json()` */
  function JsonOf(x: Exchange): (r: Result<Json>)
    requires x.Reply?
    ensures r.Ok? <==> x.body.Parsed?
    ensures r.Ok? ==> r.value == x.body.json
    ensures r.Raised? ==> r.exc.kind == JsonDecodeError
  {
    match x.body
    case Parsed(j) => Ok(j)
    case Unparsable(e) => Raised(Exc(JsonDecodeError, e))
  }

  /** The statuses for which `raise_for_status()` raises: client and server errors. */
  predicate IsErrorStatus(status: int)
  {
    400 <= status < 600
  }

  /** `response.raise_for_status()` */
  function RaiseForStatus(x: Exchange): (r: Result<()>)
    requires x.Reply?
    ensures r.Raised? <==> IsErrorStatus(x.status)
    ensures r.Raised? ==> r.exc == Exc(HttpError, x.errorText)
  {
    if IsErrorStatus(x.status) then Raised(Exc(HttpError, x.errorText)) else Ok(())
  }
}
