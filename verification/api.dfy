/** `apiFetch` (src/api.ts): the thin wrapper every page uses to talk to the server.

    The network is not modelled: the server's reply is an input. What is modelled is the
    request the wrapper prepares (URL, headers) and how the returned promise settles.
    Header names are kept lower-case, the form a `Headers` object stores and compares
    them in, so `headers.has("Content-Type")` is a lookup of "content-type".
 */
module Api {
  import opened Wrappers
  import opened Strings
  import opened Errors

  type Headers = map<string, string>

  const ContentType := "content-type"
  const Authorization := "authorization"
  const JsonMediaType := "application/json"

  /** The Bearer authentication scheme of section 2.1 of RFC 6750. */
  function BearerCredentials(token: string): string {
    "Bearer " + token
  }

  /** The `init` argument: HTTP method (`verb`), caller headers and an optional serialised body. */
  datatype RequestInit = RequestInit(verb: string, headers: Headers, body: Option<string>)

  /** What `fetch` is called with. */
  datatype Request = Request(url: string, verb: string, headers: Headers, body: Option<string>)

  /** The headers `apiFetch` sends. A JSON content type is added only when there is a body
      and the caller chose none; the Authorization header carries the stored token when
      there is one, replacing any value the caller gave; every other header is the caller's. */
  function BuildHeaders(token: Option<string>, init: RequestInit): (h: Headers)
    ensures Truthy(token) ==> Authorization in h && h[Authorization] == BearerCredentials(token.value)
    ensures !Truthy(token) ==>
      && (Authorization in h <==> Authorization in init.headers)
      && (Authorization in h ==> h[Authorization] == init.headers[Authorization])
    ensures Truthy(init.body) && ContentType !in init.headers ==>
      ContentType in h && h[ContentType] == JsonMediaType
    ensures !Truthy(init.body) || ContentType in init.headers ==>
      && (ContentType in h <==> ContentType in init.headers)
      && (ContentType in h ==> h[ContentType] == init.headers[ContentType])
    ensures forall k :: k != ContentType && k != Authorization ==>
      && (k in h <==> k in init.headers)
      && (k in h ==> h[k] == init.headers[k])
  {
    var withType :=
      if Truthy(init.body) && ContentType !in init.headers then init.headers[ContentType := JsonMediaType]
      else init.headers;
    if Truthy(token) then withType[Authorization := BearerCredentials(token.value)] else withType
  }

  /** `fetch(`${API_BASE}${path}`, { ...init, headers })`. */
  function Prepare(apiBase: string, token: Option<string>, path: string, init: RequestInit): (req: Request)
    ensures apiBase <= req.url && req.url[|apiBase|..] == path
    ensures req.verb == init.verb && req.body == init.body
    ensures Authorization in req.headers <==> Truthy(token) || Authorization in init.headers
    ensures Truthy(token) ==> req.headers[Authorization] == BearerCredentials(token.value)
    ensures ContentType in req.headers <==> Truthy(init.body) || ContentType in init.headers
    ensures ContentType in init.headers ==> req.headers[ContentType] == init.headers[ContentType]
    ensures |req.headers| <= |init.headers| + 2
  {
    Request(apiBase + path, init.verb, BuildHeaders(token, init), init.body)
  }

  /** A response body as `res.json()` sees it: not JSON at all, or an object whose
      `message` and `code` fields may be absent, with the endpoint-specific fields. */
  datatype Parsed<T> = Unparsable | Json(message: Option<string>, code: Option<string>, fields: T)

  /** What the server does with the request: the transport fails, or a status and body arrive. */
  datatype Reply<T> = NetworkError(reason: string) | Reply(status: nat, body: Parsed<T>)

  /** `res.ok`: the status is in the range 200 to 299 (the Fetch Standard's ok status). */
  predicate IsOk(status: nat) {
    200 <= status <= 299
  }

  /** How the promise of `apiFetch` settles. A body that does not parse counts as `{}`,
      which is `None` here. A status outside 200..299 rejects with an error whose message
      is the body's non-empty `message`, else "HTTP <status>"; the error never carries
      the body's `code`. A transport failure rejects with the transport's error. */
  function Receive<T>(reply: Reply<T>): (r: Result<Option<T>, Thrown>)
    ensures reply.NetworkError? ==> r == Failure(Error(None, Some(reply.reason)))
    ensures reply.Reply? ==> (r.Success? <==> IsOk(reply.status))
    ensures r.Success? && reply.body.Json? ==> r.value == Some(reply.body.fields)
    ensures r.Success? && reply.body.Unparsable? ==> r.value == None
    ensures r.Failure? ==> r.error.Error? && r.error.code == None && r.error.message.Some?
    ensures reply.Reply? && r.Failure? && reply.body.Json? && Truthy(reply.body.message) ==>
      r.error.message == reply.body.message
    ensures reply.Reply? && r.Failure? && (reply.body.Unparsable? || !Truthy(reply.body.message)) ==>
      r.error.message == Some("HTTP " + NatToDecimal(reply.status))
  {
    match reply
    case NetworkError(reason) => Failure(Error(None, Some(reason)))
    case Reply(status, body) =>
      if !IsOk(status) then
        var bodyMessage := if body.Json? then body.message else None;
        Failure(Error(None, Some(OrElse(bodyMessage, "HTTP " + NatToDecimal(status)))))
      else if body.Json? then Success(Some(body.fields))
      else Success(None)
  }

  /** An HTTP failure from `apiFetch` is shown by `humanizeError` as its message, verbatim:
      the error has no code, so none of the code sentences can be chosen for it. */
  lemma HttpFailureShowsMessage<T>(reply: Reply<T>)
    requires reply.Reply? && !IsOk(reply.status)
    ensures var e := Receive(reply).error;
      HumanizeError(e) == e.message.value && HumanizeError(e) != []
  {
    var e := Receive(reply).error;
    assert Truthy(e.message) by {
      if !(reply.body.Json? && Truthy(reply.body.message)) {
        assert e.message.value == "HTTP " + NatToDecimal(reply.status);
      }
    }
  }

  /** A 404 whose body names the NOT_FOUND code is shown as "HTTP 404", not "Not found.". */
  lemma NotFoundCodeIsNotShown<T>(fields: T)
    ensures HumanizeError(Receive(Reply(404, Json(None, Some("NOT_FOUND"), fields))).error) == "HTTP 404"
  {
    assert NatToDecimal(404) == "404" by {
      assert NatToDecimal(4) == "4";
      assert NatToDecimal(40) == "40";
    }
  }
}
