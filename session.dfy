/** The session state machine of the Fusia client, as functions from the
    client's state and the outside world to an outcome, the new state and the
    new world.  The class in fusia.dfy performs the same steps on its fields and
    is proved to agree with these functions; the lemmas below state what the
    client promises about them.

    The client keeps ONE options dictionary and ONE headers dictionary for its
    whole life: `Object.assign(this.defaultRequestOptions)` with a single
    argument returns that same object, so every `url`, `json`, `form` and
    `X-CSRFToken` written for one call is still there for every later call. */
module Session {
  import opened JsValues
  import opened Text
  import opened Transport
  import opened Queries

  const HOME_URL := "https://www.instagram.com/"
  const LOGIN_URL := "https://www.instagram.com/accounts/login/ajax/"
  const LOGOUT_URL := "https://www.instagram.com/accounts/logout/"
  const AJAX_HEADER := "X-Instagram-AJAX"
  const CSRF_HEADER := "X-CSRFToken"

  const DEFAULT_HEADERS: map<string, Js> := map[
    "Accept-Language" := Str("en-US,en-SG;q=0.9,en;q=0.8"),
    "Connection" := Str("keep-alive"),
    "Host" := Str("www.instagram.com"),
    "Origin" := Str("https://www.instagram.com"),
    "Referer" := Str("https://www.instagram.com"),
    "User-Agent" := Str("Mozilla/5.0 (Linux; U; Android 2.2; en-gb; GT-P1000 Build/FROYO) AppleWebKit/533.1 (KHTML, like Gecko) Version/4.0 Mobile Safari/533.1"),
    AJAX_HEADER := Num(1),
    "X-Requested-With" := Str("XMLHttpRequest")]

  /** The fields of a Fusia instance that change after construction. */
  datatype State = State(
    csrfToken: Js,
    userId: Js,
    rolloutHash: Js,
    headers: map<string, Js>,
    options: map<string, Js>)

  /** One operation's effect: its outcome, the client's state and the world. */
  datatype Run<+T> = Run(out: Result<T>, state: State, env: Env)

  function Initial(): State {
    State(Null, Null, Num(1), DEFAULT_HEADERS, map[])
  }

  /** `isLoggedIn()`: `csrfToken !== null`, so an undefined token counts. */
  predicate IsLoggedIn(s: State) {
    s.csrfToken != Null
  }

  function Credentials(username: string, password: string): Js {
    Obj(map["username" := Str(username), "password" := Str(password)])
  }

  function SetOption(s: State, key: string, v: Js): State {
    s.(options := s.options[key := v])
  }

  function SetHeader(s: State, key: string, v: Js): State {
    s.(headers := s.headers[key := v])
  }

  /** The request `fetchPage` sends in state `s`. */
  function RequestOf(s: State, verb: Verb, ignoreRedirection: bool): Request {
    Request(verb, ignoreRedirection, s.headers, s.options)
  }

  function FetchPage(s: State, env: Env, verb: Verb, ignoreRedirection: bool): Run<Body> {
    var (reply, env') := Send(env, RequestOf(s, verb, ignoreRedirection));
    Run(Settle(reply, ignoreRedirection), s, env')
  }

  /** The state in which `fetchHomepage` sends its GET. */
  function HomepageState(s: State): State {
    var s1 := SetOption(s, "url", Str(HOME_URL));
    if s.csrfToken != Null then SetHeader(s1, CSRF_HEADER, s.csrfToken) else s1
  }

  function FetchHomepage(s: State, env: Env): Run<Body> {
    FetchPage(HomepageState(s), env, Get, false)
  }

  /** The closing assignments of `login()`: token and user id from
      `parsedConfig.config`, returning the token. */
  function Adopt(cfg: Js, s: State): (Result<Js>, State) {
    match ReadPath(cfg, "config", "csrf_token")
    case Err(e) => (Err(e), s)
    case Ok(token) => (Ok(token), s.(csrfToken := token, userId := Member(Member(cfg, "config"), "viewerId")))
  }

  /** The state in which the fresh-login path sends its POST, or the error
      that stops it first: reading `rollout_hash` of a null or undefined
      configuration, or `config` of one without it. */
  function PreLoginState(username: string, password: string, cfg: Js, s: State): (Result<Js>, State) {
    var s1 := SetOption(s, "url", Str(LOGIN_URL));
    match Read(cfg, "rollout_hash")
    case Err(e) => (Err(e), s1)
    case Ok(rollout) =>
      var s2 := SetHeader(s1.(rolloutHash := rollout), AJAX_HEADER, rollout);
      match ReadPath(cfg, "config", "csrf_token")
      case Err(e) => (Err(e), s2)
      case Ok(token) =>
        var s3 := SetHeader(s2.(csrfToken := token), CSRF_HEADER, token);
        (Ok(token), SetOption(s3, "form", Credentials(username, password)))
  }

  /** The branch of `login()` taken when the homepage does not mention the
      user: credential POST, check of `authenticated`, homepage again.  Its
      outcome is the configuration of that second homepage. */
  function FreshLogin(username: string, password: string, cfg: Js, s: State, env: Env): Run<Js> {
    var (pre, s1) := PreLoginState(username, password, cfg, s);
    if pre.Err? then Run(Err(pre.error), s1, env)
    else
      var post := FetchPage(s1, env, Post, false);
      if post.out.Err? then Run(Err(post.out.error), s1, post.env)
      else match post.out.value.json
        case None => Run(Err(SyntaxError), s1, post.env)
        case Some(result) =>
          match Read(result, "userId")
          case Err(e) => Run(Err(e), s1, post.env)
          case Ok(uid) =>
            var s2 := s1.(userId := uid);
            if !Member(result, "authenticated").Truthy() then Run(Err(AuthRejected(result)), s2, post.env)
            else
              var home := FetchHomepage(s2, post.env);
              if home.out.Err? then Run(Err(home.out.error), home.state, home.env)
              else match ParseSharedData(home.out.value)
                case Err(e) => Run(Err(e), home.state, home.env)
                case Ok(cfg2) => Run(Ok(cfg2), home.state, home.env)
  }

  /** `login()`. */
  function Login(username: string, password: string, s: State, env: Env): Run<Js> {
    var home := FetchHomepage(s, env);
    if home.out.Err? then Run(Err(home.out.error), home.state, home.env)
    else
      var page := home.out.value;
      match ParseSharedData(page)
      case Err(e) => Run(Err(e), home.state, home.env)
      case Ok(cfg) =>
        if cfg == Num(-1) then Run(Err(SharedDataMissing), home.state, home.env)
        else
          Conclude(if Includes(page.text, username) then Run(Ok(cfg), home.state, home.env)
                   else FreshLogin(username, password, cfg, home.state, home.env))
  }

  /** The tail both paths of `login()` share: adopt the configuration in hand. */
  function Conclude(next: Run<Js>): Run<Js> {
    if next.out.Err? then next
    else var (out, s') := Adopt(next.out.value, next.state); Run(out, s', next.env)
  }

  /** The state in which `logout()` sends its POST. */
  function LogoutState(s: State): State {
    var s1 := SetHeader(SetOption(s, "url", Str(LOGOUT_URL)), CSRF_HEADER, s.csrfToken);
    SetOption(s1, "form", Obj(map["csrfmiddlewaretoken" := s.csrfToken]))
  }

  /** `logout()`. */
  function Logout(s: State, env: Env): Run<bool> {
    var s1 := LogoutState(s);
    var post := FetchPage(s1, env, Post, true);
    if post.out.Err? then Run(Err(post.out.error), s1, post.env)
    else Run(Ok(true), s1, RemoveCookieFile(post.env))
  }

  /** The state in which a call with `json: true` to `url` sends its GET. */
  function JsonCallState(s: State, url: Js): State {
    SetOption(SetHeader(SetOption(s, "url", url), CSRF_HEADER, s.csrfToken), "json", Bool(true))
  }

  /** One paginated resource call, e.g. `timelineFeed({count, cursor})`. */
  function Query(d: Descriptor, arg: Js, count: Option<int>, cursor: Js, s: State, env: Env): Run<Js> {
    var cur := CursorOf(d, cursor);
    var n := EffectiveCount(d, CountOf(d, count), cur);
    match ArgValue(d, arg)
    case Err(e) => Run(Err(e), s, env)
    case Ok(a) =>
      var s1 := JsonCallState(s, QueryUrl(d.queryHash, Variables(d, a, n, cur)));
      var page := FetchPage(s1, env, Get, false);
      if page.out.Err? then Run(Err(page.out.error), s1, page.env)
      else Run(Envelope(d, AsJson(page.out.value)), s1, page.env)
  }

  function MediaUrl(shortCode: string): Js {
    Str("https://www.instagram.com/p/" + shortCode + "/?__a=1")
  }

  /** `mediaInfo({shortCode})`. */
  function MediaInfo(shortCode: string, s: State, env: Env): Run<Js> {
    var s1 := JsonCallState(s, MediaUrl(shortCode));
    var page := FetchPage(s1, env, Get, false);
    if page.out.Err? then Run(Err(page.out.error), s1, page.env)
    else Run(MediaEnvelope(AsJson(page.out.value)), s1, page.env)
  }

  // ---------------------------------------------------------------------
  // What the client promises

  /** The events an operation adds to the world's trace. */
  function Added(before: Env, after: Env): seq<Event>
    requires |before.trace| <= |after.trace|
  {
    after.trace[|before.trace|..]
  }

  predicate Extends(before: Env, after: Env) {
    |before.trace| <= |after.trace| && after.trace[..|before.trace|] == before.trace
  }

  /** `events` are requests sent with these verbs, in this order. */
  predicate Sends(events: seq<Event>, verbs: seq<Verb>) {
    |events| == |verbs| && forall i | 0 <= i < |events| :: events[i].Sent? && events[i].request.verb == verbs[i]
  }

  /** The world after the homepage GET of `login()`. */
  function AfterHomepage(s: State, env: Env): Env {
    Send(env, RequestOf(HomepageState(s), Get, false)).1
  }

  /** Sending extends the trace by exactly that request. */
  lemma FetchPageSends(s: State, env: Env, verb: Verb, ignoreRedirection: bool)
    ensures var r := FetchPage(s, env, verb, ignoreRedirection);
      && Extends(env, r.env)
      && Added(env, r.env) == [Sent(RequestOf(s, verb, ignoreRedirection))]
      && r.env.cookieFile == env.cookieFile
      && r.state == s
  {
  }

  lemma AddedChain(a: Env, b: Env, c: Env)
    requires Extends(a, b) && Extends(b, c)
    ensures Extends(a, c) && Added(a, c) == Added(a, b) + Added(b, c)
  {
    assert c.trace[..|b.trace|][..|a.trace|] == c.trace[..|a.trace|];
  }

  /** The configuration lookups that precede the credential POST. */
  lemma PreLoginWrites(username: string, password: string, cfg: Js, s: State)
    requires !Member(cfg, "config").Nullish() && !cfg.Nullish()
    ensures var (pre, s1) := PreLoginState(username, password, cfg, s);
      var rollout := Member(cfg, "rollout_hash");
      var token := Member(Member(cfg, "config"), "csrf_token");
      && pre == Ok(token)
      && s1.rolloutHash == rollout && s1.headers[AJAX_HEADER] == rollout
      && s1.csrfToken == token && s1.headers[CSRF_HEADER] == token
      && s1.options["form"] == Credentials(username, password)
      && s1.options["url"] == Str(LOGIN_URL)
      && s1.userId == s.userId
  {
  }

  /** A null or undefined configuration stops the fresh-login path at its
      first read: only the login URL has been written. */
  lemma PreLoginStopsOnNullishConfig(username: string, password: string, cfg: Js, s: State)
    requires cfg.Nullish()
    ensures PreLoginState(username, password, cfg, s) == (Err(TypeError), SetOption(s, "url", Str(LOGIN_URL)))
    ensures PreLoginState(username, password, cfg, s).1.rolloutHash == s.rolloutHash
  {
  }

  /** A fresh login sends its POST, then possibly one homepage GET, and
      touches nothing else in the world. */
  lemma FreshLoginShape(username: string, password: string, cfg: Js, s: State, env: Env)
    ensures var r := FreshLogin(username, password, cfg, s, env);
      && Extends(env, r.env) && r.env.cookieFile == env.cookieFile
      && (Sends(Added(env, r.env), []) || Sends(Added(env, r.env), [Post]) || Sends(Added(env, r.env), [Post, Get]))
      && (PreLoginState(username, password, cfg, s).0.Ok? ==>
            |Added(env, r.env)| > 0 && r.env.trace[|env.trace|] == Sent(RequestOf(PreLoginState(username, password, cfg, s).1, Post, false)))
  {
    var (pre, s1) := PreLoginState(username, password, cfg, s);
    if pre.Ok? {
      var post := FetchPage(s1, env, Post, false);
      FetchPageSends(s1, env, Post, false);
      if post.out.Ok? && post.out.value.json.Some? {
        var result := post.out.value.json.value;
        if Read(result, "userId").Ok? && Member(result, "authenticated").Truthy() {
          var s2 := s1.(userId := Read(result, "userId").value);
          FetchPageSends(HomepageState(s2), post.env, Get, false);
          AddedChain(env, post.env, FetchHomepage(s2, post.env).env);
        }
      }
    }
  }

  /** Whatever the server answers, `login()` sends a homepage GET, and possibly
      then one credential POST and a second homepage GET, in that order and
      nothing else; it never touches the cookie file. */
  lemma LoginRequestShape(username: string, password: string, s: State, env: Env)
    ensures var r := Login(username, password, s, env);
      && Extends(env, r.env) && r.env.cookieFile == env.cookieFile
      && |Added(env, r.env)| > 0 && r.env.trace[|env.trace|] == Sent(RequestOf(HomepageState(s), Get, false))
      && (Sends(Added(env, r.env), [Get]) || Sends(Added(env, r.env), [Get, Post])
          || Sends(Added(env, r.env), [Get, Post, Get]))
  {
    var home := FetchHomepage(s, env);
    FetchPageSends(HomepageState(s), env, Get, false);
    if home.out.Ok? && ParseSharedData(home.out.value).Ok? {
      var page := home.out.value;
      var cfg := ParseSharedData(page).value;
      if cfg != Num(-1) && !Includes(page.text, username) {
        FreshLoginShape(username, password, cfg, home.state, home.env);
        AddedChain(env, home.env, FreshLogin(username, password, cfg, home.state, home.env).env);
      }
    }
  }

  /** When the first homepage parses and does not mention the user, `login()`
      is the fresh-login path from the state and world after that GET. */
  lemma LoginTakesFreshPath(username: string, password: string, s: State, env: Env, page: Body)
    requires |env.replies| > 0 && env.replies[0] == Response(200, page)
    requires page.sharedData.Embedded? && !Includes(page.text, username)
    ensures Login(username, password, s, env)
      == Conclude(FreshLogin(username, password, Obj(page.sharedData.config), HomepageState(s), AfterHomepage(s, env)))
  {
  }

  /** A homepage without the embedded configuration makes `login()` fail
      after the one GET and before any POST, changing nothing but the shared
      URL (and the CSRF header, when a token was already held). */
  lemma LoginFailsBeforePost(username: string, password: string, s: State, env: Env, page: Body)
    requires |env.replies| > 0 && env.replies[0] == Response(200, page)
    requires page.sharedData.Absent?
    ensures var r := Login(username, password, s, env);
      && r.out == Err(SharedDataMissing)
      && r.env.trace == env.trace + [Sent(RequestOf(HomepageState(s), Get, false))]
      && r.state == HomepageState(s)
  {
  }

  /** A homepage that already mentions the user: no credential POST; token
      and user id come from that page's configuration. */
  lemma LoginReusesCookieSession(username: string, password: string, s: State, env: Env, page: Body)
    requires |env.replies| > 0 && env.replies[0] == Response(200, page)
    requires page.sharedData.Embedded? && Includes(page.text, username)
    ensures var r := Login(username, password, s, env);
      var config := Member(Obj(page.sharedData.config), "config");
      && r.env.trace == env.trace + [Sent(RequestOf(HomepageState(s), Get, false))]
      && r.env.replies == env.replies[1..]
      && (!config.Nullish() ==>
            && r.out == Ok(Member(config, "csrf_token"))
            && r.state.csrfToken == Member(config, "csrf_token")
            && r.state.userId == Member(config, "viewerId"))
      && (config.Nullish() ==> r.out == Err(TypeError) && r.state == HomepageState(s))
  {
  }

  /** The fresh-login path when the server accepts: POST, then the homepage
      again, whose configuration is what the path yields; the user id comes
      from the server's answer and the rollout hash from the first page. */
  lemma FreshLoginAccepted(username: string, password: string, cfg: Js, s: State, env: Env,
                           answer: Body, result: map<string, Js>, page2: Body)
    requires !cfg.Nullish() && !Member(cfg, "config").Nullish()
    requires |env.replies| >= 2
    requires env.replies[0] == Response(200, answer) && env.replies[1] == Response(200, page2)
    requires answer.json == Some(Obj(result)) && Member(Obj(result), "authenticated").Truthy()
    requires page2.sharedData.Embedded?
    ensures var r := FreshLogin(username, password, cfg, s, env);
      && r.out == Ok(Obj(page2.sharedData.config))
      && r.state.userId == Member(Obj(result), "userId")
      && r.state.rolloutHash == Member(cfg, "rollout_hash")
      && r.state.headers[AJAX_HEADER] == Member(cfg, "rollout_hash")
  {
    var (pre, s1) := PreLoginState(username, password, cfg, s);
    PreLoginWrites(username, password, cfg, s);
    var post := FetchPage(s1, env, Post, false);
    assert post.out == Ok(answer);
    var s2 := s1.(userId := Member(Obj(result), "userId"));
    var home := FetchHomepage(s2, post.env);
    assert home.out == Ok(page2);
    assert home.state.headers[AJAX_HEADER] == s1.headers[AJAX_HEADER];
  }

  /** A successful fresh login: exactly GET, POST, GET; the final token and
      user id come from the SECOND homepage, the rollout hash from the first. */
  lemma FreshLoginSucceeds(username: string, password: string, s: State, env: Env,
                           page1: Body, answer: Body, result: map<string, Js>, page2: Body)
    requires |env.replies| >= 3
    requires env.replies[0] == Response(200, page1) && env.replies[1] == Response(200, answer)
      && env.replies[2] == Response(200, page2)
    requires page1.sharedData.Embedded? && !Includes(page1.text, username)
    requires !Member(Obj(page1.sharedData.config), "config").Nullish()
    requires answer.json == Some(Obj(result)) && Member(Obj(result), "authenticated").Truthy()
    requires page2.sharedData.Embedded? && !Member(Obj(page2.sharedData.config), "config").Nullish()
    ensures var r := Login(username, password, s, env);
      var cfg1 := Obj(page1.sharedData.config);
      var config2 := Member(Obj(page2.sharedData.config), "config");
      && Sends(Added(env, r.env), [Get, Post, Get])
      && r.out == Ok(Member(config2, "csrf_token"))
      && r.state.csrfToken == Member(config2, "csrf_token")
      && r.state.userId == Member(config2, "viewerId")
      && r.state.rolloutHash == Member(cfg1, "rollout_hash")
      && r.state.headers[AJAX_HEADER] == Member(cfg1, "rollout_hash")
  {
    LoginTakesFreshPath(username, password, s, env, page1);
    var env1 := AfterHomepage(s, env);
    FreshLoginAccepted(username, password, Obj(page1.sharedData.config), HomepageState(s), env1, answer, result, page2);
    LoginRequestShape(username, password, s, env);
    var r := Login(username, password, s, env);
    assert r.out.Ok?;
  }

  /** On the fresh-login path the POST carries what was written just before
      it: the rollout hash in `X-Instagram-AJAX`, the pre-login token in
      `X-CSRFToken`, the credentials as `form`, the login URL.  When the server
      then withholds `authenticated`, login fails with the server's answer and
      every one of those writes stays, the user id taken from the answer. */
  lemma FreshLoginWrites(username: string, password: string, cfg: Js, s: State, env: Env,
                         answer: Body, result: map<string, Js>)
    requires !cfg.Nullish() && !Member(cfg, "config").Nullish()
    requires |env.replies| >= 1 && env.replies[0] == Response(200, answer)
    requires answer.json == Some(Obj(result))
    ensures var r := FreshLogin(username, password, cfg, s, env);
      var rollout := Member(cfg, "rollout_hash");
      var preToken := Member(Member(cfg, "config"), "csrf_token");
      var post := r.env.trace[|env.trace|];
      && |r.env.trace| > |env.trace|
      && post.Sent? && post.request.verb == Post && !post.request.ignoreRedirection
      && post.request.headers[AJAX_HEADER] == rollout
      && post.request.headers[CSRF_HEADER] == preToken
      && post.request.options["form"] == Credentials(username, password)
      && post.request.options["url"] == Str(LOGIN_URL)
      && (!Member(Obj(result), "authenticated").Truthy() ==>
            && r.out == Err(AuthRejected(Obj(result)))
            && r.env.trace == env.trace + [post]
            && r.state.rolloutHash == rollout && r.state.headers[AJAX_HEADER] == rollout
            && r.state.csrfToken == preToken && r.state.headers[CSRF_HEADER] == preToken
            && r.state.options["form"] == Credentials(username, password)
            && r.state.userId == Member(Obj(result), "userId"))
  {
    PreLoginWrites(username, password, cfg, s);
    FreshLoginShape(username, password, cfg, s, env);
  }

  /** The second homepage is parsed without the -1 check of the first: if it
      lacks the configuration, the fresh login yields -1 and `login()` fails
      with a TypeError from reading `config` of it, not with the parse error. */
  lemma SecondHomepageUnchecked(username: string, password: string, s: State, env: Env,
                                page1: Body, answer: Body, result: map<string, Js>, page2: Body)
    requires |env.replies| >= 3
    requires env.replies[0] == Response(200, page1) && env.replies[1] == Response(200, answer)
      && env.replies[2] == Response(200, page2)
    requires page1.sharedData.Embedded? && !Includes(page1.text, username)
    requires !Member(Obj(page1.sharedData.config), "config").Nullish()
    requires answer.json == Some(Obj(result)) && Member(Obj(result), "authenticated").Truthy()
    requires page2.sharedData.Absent?
    ensures Login(username, password, s, env).out == Err(TypeError)
  {
    LoginTakesFreshPath(username, password, s, env, page1);
    var cfg1 := Obj(page1.sharedData.config);
    PreLoginWrites(username, password, cfg1, HomepageState(s));
  }

  /** `logout()` POSTs with redirection ignored, the current token as header
      and form field; the cookie file is removed after the POST resolves and
      only then.  A rejected POST removes nothing.  The token is never reset,
      so `isLoggedIn()` answers as before. */
  lemma LogoutEffects(s: State, env: Env)
    ensures var r := Logout(s, env);
      var req := RequestOf(LogoutState(s), Post, true);
      && r.state.csrfToken == s.csrfToken
      && (IsLoggedIn(r.state) <==> IsLoggedIn(s))
      && req.headers[CSRF_HEADER] == s.csrfToken
      && req.options["form"] == Obj(map["csrfmiddlewaretoken" := s.csrfToken])
      && req.options["url"] == Str(LOGOUT_URL)
      && (r.out.Ok? <==> |env.replies| > 0 && env.replies[0].Response?)
      && (r.out.Ok? ==> r.env.trace == env.trace + [Sent(req), CookieFileRemoved] && !r.env.cookieFile)
      && (r.out.Err? ==> r.env.trace == env.trace + [Sent(req)] && r.env.cookieFile == env.cookieFile)
  {
  }

  /** A paginated call sends one GET whose URL carries the descriptor's query
      hash and variables and whose options have `json: true`, and returns the
      envelope check of the reply.  It adds to the shared options; it never
      removes an entry, and only `url` and `json` change. */
  lemma QueryEffects(d: Descriptor, arg: Js, count: Option<int>, cursor: Js, s: State, env: Env)
    requires ArgValue(d, arg).Ok?
    ensures var r := Query(d, arg, count, cursor, s, env);
      var cur := CursorOf(d, cursor);
      var vars := Variables(d, ArgValue(d, arg).value, EffectiveCount(d, CountOf(d, count), cur), cur);
      var req := RequestOf(r.state, Get, false);
      && r.env.trace == env.trace + [Sent(req)]
      && req.options["url"] == QueryUrl(d.queryHash, vars)
      && req.options["json"] == Bool(true)
      && req.headers[CSRF_HEADER] == s.csrfToken
      && (forall k | k in s.options && k != "url" && k != "json" :: k in r.state.options && r.state.options[k] == s.options[k])
      && r.state.csrfToken == s.csrfToken && r.state.userId == s.userId
      && (|env.replies| > 0 && env.replies[0].Response? && env.replies[0].status == 200 ==>
            r.out == Envelope(d, AsJson(env.replies[0].body)))
  {
  }

  /** The form a fresh login writes before its POST is still in the options
      when login returns, whatever the outcome. */
  lemma CredentialsKept(username: string, password: string, s: State, env: Env)
    requires |Login(username, password, s, env).env.trace| > |env.trace| + 1
    ensures var st := Login(username, password, s, env).state;
      "form" in st.options && st.options["form"] == Credentials(username, password)
  {
    LoginRequestShape(username, password, s, env);
    var home := FetchHomepage(s, env);
    FetchPageSends(HomepageState(s), env, Get, false);
    var page := home.out.value;
    var cfg := ParseSharedData(page).value;
    var (pre, s1) := PreLoginState(username, password, cfg, home.state);
    var post := FetchPage(s1, home.env, Post, false);
    if post.out.Ok? && post.out.value.json.Some? {
      var result := post.out.value.json.value;
      if Read(result, "userId").Ok? && Member(result, "authenticated").Truthy() {
        var s2 := s1.(userId := Read(result, "userId").value);
        assert HomepageState(s2).options["form"] == Credentials(username, password);
      }
    }
  }

  /** A paginated call sends whatever `form` the shared options hold. */
  lemma QuerySendsForm(d: Descriptor, arg: Js, count: Option<int>, cursor: Js, s: State, env: Env)
    requires ArgValue(d, arg).Ok? && "form" in s.options
    ensures var q := Query(d, arg, count, cursor, s, env);
      var last := q.env.trace[|q.env.trace| - 1];
      |q.env.trace| > 0 && last.Sent? && last.request.options["form"] == s.options["form"]
  {
    QueryEffects(d, arg, count, cursor, s, env);
  }

  /** The shared options leak between calls: once a fresh login has sent its
      POST, a later paginated call still sends the credentials as `form`. */
  lemma CredentialsOutliveLogin(username: string, password: string, s: State, env: Env,
                                d: Descriptor, arg: Js, count: Option<int>, cursor: Js)
    requires ArgValue(d, arg).Ok?
    requires |Login(username, password, s, env).env.trace| > |env.trace| + 1
    ensures var login := Login(username, password, s, env);
      var q := Query(d, arg, count, cursor, login.state, login.env);
      && |q.env.trace| > 0
      && q.env.trace[|q.env.trace| - 1].Sent?
      && "form" in q.env.trace[|q.env.trace| - 1].request.options
      && q.env.trace[|q.env.trace| - 1].request.options["form"] == Credentials(username, password)
  {
    var login := Login(username, password, s, env);
    CredentialsKept(username, password, s, env);
    QuerySendsForm(d, arg, count, cursor, login.state, login.env);
  }

  /** The homepage request that opens `login()` carries every option already
      set, except the URL it overwrites: a `json: true` left by any earlier
      JSON call (QueryEffects) is still sent. */
  lemma LoginOpensWithOptions(username: string, password: string, s: State, env: Env, key: string)
    requires key in s.options && key != "url"
    ensures var r := Login(username, password, s, env);
      var first := r.env.trace[|env.trace|];
      |r.env.trace| > |env.trace| && first.Sent? && first.request.options[key] == s.options[key]
  {
    LoginRequestShape(username, password, s, env);
  }

  /** A new instance is logged out, and only login can change that: logout,
      the paginated calls and `mediaInfo` leave the token as they found it,
      whatever it is. */
  lemma OnlyLoginSetsToken(d: Descriptor, arg: Js, count: Option<int>, cursor: Js, code: string, s: State, env: Env)
    ensures !IsLoggedIn(Initial())
    ensures Logout(s, env).state.csrfToken == s.csrfToken
    ensures Query(d, arg, count, cursor, s, env).state.csrfToken == s.csrfToken
    ensures MediaInfo(code, s, env).state.csrfToken == s.csrfToken
  {
  }
}
