/** The network boundary of the Fusia client: what a request carries, what the
    transport hands back, how `fetchPage` settles a reply, and the scraping of
    the embedded configuration out of a page body.

    The transport itself (the `request` library, its cookie jar and the cookie
    file) is outside the model.  It is replaced by an environment that answers
    requests from a script of replies, in order, and records every request sent
    and every removal of the cookie file, so that the order of effects can be
    stated. */
module Transport {
  import opened JsValues

  datatype Verb = Get | Post

  /** A request as handed to the transport: the verb, whether a status other
      than 200 is tolerated, and the shared header and option dictionaries as
      they stand at that moment (`url`, `json` and `form` live in `options`). */
  datatype Request = Request(
    verb: Verb,
    ignoreRedirection: bool,
    headers: map<string, Js>,
    options: map<string, Js>)

  /** What a regular expression over a body finds: no match (the parser
      returns -1), a match that is not JSON (JSON.parse throws), or a match
      that parses.  The pattern starts with `{`, so a parsed match is an object. */
  datatype SharedData = Absent | Malformed | Embedded(config: map<string, Js>)

  /** A response body, given by the views the client takes of it: the text,
      what JSON.parse makes of the text (None when it throws), and what the two
      scrapers find in it (`window._sharedData = {...};` and
      `window.__additionalDataLoaded('feed',{...});`). */
  datatype Body = Body(
    text: string,
    json: Option<Js>,
    sharedData: SharedData,
    additionalData: SharedData)

  /** What the transport reports for one request: an error of its own (DNS,
      connection, timeout), or a status code with a body. */
  datatype Reply = TransportError(reason: string) | Response(status: int, body: Body)

  datatype Event = Sent(request: Request) | CookieFileRemoved

  /** The world outside the client: replies still to come, everything observed
      so far, and whether the cookie file exists. */
  datatype Env = Env(replies: seq<Reply>, trace: seq<Event>, cookieFile: bool)

  const NO_REPLY := "no reply"

  /** Hands one request to the transport.  Once the script is exhausted the
      transport reports an error, as a connection that never answers would. */
  function Send(env: Env, req: Request): (Reply, Env) {
    var trace := env.trace + [Sent(req)];
    if |env.replies| == 0 then (TransportError(NO_REPLY), env.(trace := trace))
    else (env.replies[0], env.(replies := env.replies[1..], trace := trace))
  }

  /** `fs.removeSync(cookieFile)`. */
  function RemoveCookieFile(env: Env): Env {
    env.(trace := env.trace + [CookieFileRemoved], cookieFile := false)
  }

  /** The decision inside `fetchPage`: resolve with the body when the transport
      reports no error and the status is 200 or redirection is ignored;
      otherwise reject with the transport error or with the status code. */
  function Settle(reply: Reply, ignoreRedirection: bool): (r: Result<Body>)
    ensures r.Ok? <==> reply.Response? && (reply.status == 200 || ignoreRedirection)
    ensures r.Ok? ==> r.value == reply.body
    ensures reply.TransportError? ==> r == Err(NetworkError(reply.reason))
    ensures reply.Response? && r.Err? ==> r == Err(HttpStatus(reply.status))
  {
    match reply
    case TransportError(e) => Err(NetworkError(e))
    case Response(status, body) =>
      if status != 200 && !ignoreRedirection then Err(HttpStatus(status)) else Ok(body)
  }

  /** A redirect (or any other status) fails a call exactly when the call does
      not ignore redirection; the body is then never looked at. */
  lemma RedirectToleratedOnlyWhenIgnored(status: int, body: Body, other: Body, ignoreRedirection: bool)
    requires status != 200
    ensures Settle(Response(status, body), ignoreRedirection).Ok? <==> ignoreRedirection
    ensures !ignoreRedirection ==>
      Settle(Response(status, body), false) == Settle(Response(status, other), false)
  {
  }

  /** The scraping step common to `parseSharedData` and
      `parseAdditionalSharedData`: -1 when the pattern is not found, otherwise
      JSON.parse of the match. */
  function ParseEmbedded(found: SharedData): (r: Result<Js>)
    ensures r == Ok(Num(-1)) <==> found.Absent?
    ensures r == Err(SyntaxError) <==> found.Malformed?
    ensures found.Embedded? <==> r.Ok? && r.value.Obj?
    ensures found.Embedded? ==> r.value.fields == found.config
  {
    match found
    case Absent => Ok(Num(-1))
    case Malformed => Err(SyntaxError)
    case Embedded(config) => Ok(Obj(config))
  }

  function ParseSharedData(body: Body): Result<Js> {
    ParseEmbedded(body.sharedData)
  }

  function ParseAdditionalSharedData(body: Body): Result<Js> {
    ParseEmbedded(body.additionalData)
  }

  /** The value a call made with `json: true` resolves with: the parsed body,
      or the raw text when it is not JSON. */
  function AsJson(body: Body): Js {
    if body.json.Some? then body.json.value else Str(body.text)
  }
}
