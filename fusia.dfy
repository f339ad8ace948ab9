/** The `Fusia` class itself: fields the methods overwrite in place, and one
    shared headers dictionary and one shared options dictionary that every call
    writes into.  Each method performs the source's steps on the fields and is
    proved to end in exactly the outcome, state and world that its counterpart
    function in module Session (or Transport, for World) computes; the
    properties of the client are proved about those functions. */
module FusiaClient {
  import opened JsValues
  import opened Text
  import opened Transport
  import opened Queries
  import Session

  /** The outside world as the client sees it: the transport, which answers
      from a script of replies, and the cookie file. */
  class World {
    var replies: seq<Reply>
    var trace: seq<Event>
    var cookieFile: bool

    function Snapshot(): Env
      reads this
    {
      Env(replies, trace, cookieFile)
    }

    constructor (replies: seq<Reply>)
      ensures Snapshot() == Env(replies, [], false)
    {
      this.replies := replies;
      trace := [];
      cookieFile := false;
    }

    /** One request handed to the transport. */
    method Send(req: Request) returns (reply: Reply)
      modifies this
      ensures (reply, Snapshot()) == Transport.Send(old(Snapshot()), req)
    {
      trace := trace + [Sent(req)];
      if |replies| == 0 {
        reply := TransportError(NO_REPLY);
      } else {
        reply := replies[0];
        replies := replies[1..];
      }
    }

    /** `fs.removeSync(cookieFile)`. */
    method RemoveCookieFile()
      modifies this
      ensures Snapshot() == Transport.RemoveCookieFile(old(Snapshot()))
    {
      trace := trace + [CookieFileRemoved];
      cookieFile := false;
    }

    /** `fs.ensureFileSync(cookieFile)`: creates the file when it is missing. */
    method EnsureCookieFile()
      modifies this
      ensures Snapshot() == old(Snapshot()).(cookieFile := true)
    {
      cookieFile := true;
    }
  }

  class Fusia {
    const username: string
    const password: string
    var csrfToken: Js
    var userId: Js
    var rolloutHash: Js
    var headers: map<string, Js>
    var options: map<string, Js>

    function Snapshot(): Session.State
      reads this
    {
      Session.State(csrfToken, userId, rolloutHash, headers, options)
    }

    /** A new client: no token, no user id, rollout hash 1, the default
        headers, and a cookie file that exists afterwards. */
    constructor (username: string, password: string, w: World)
      modifies w
      ensures this.username == username && this.password == password
      ensures Snapshot() == Session.Initial()
      ensures !IsLoggedIn()
      ensures w.Snapshot() == old(w.Snapshot()).(cookieFile := true)
    {
      this.username := username;
      this.password := password;
      userId := Null;
      csrfToken := Null;
      rolloutHash := Num(1);
      headers := Session.DEFAULT_HEADERS;
      options := map[];
      new;
      w.EnsureCookieFile();
    }

    predicate IsLoggedIn()
      reads this
    {
      Session.IsLoggedIn(Snapshot())
    }

    /** Copies the rollout hash into the `X-Instagram-AJAX` header. */
    method SetRolloutHash()
      modifies this
      ensures Snapshot() == Session.SetHeader(old(Snapshot()), Session.AJAX_HEADER, old(rolloutHash))
    {
      headers := headers[Session.AJAX_HEADER := rolloutHash];
    }

    /** Sends the shared headers and options as they stand, and settles the
        reply. */
    method FetchPage(verb: Verb, ignoreRedirection: bool, w: World) returns (r: Result<Body>)
      modifies w
      ensures Session.FetchPage(Snapshot(), old(w.Snapshot()), verb, ignoreRedirection)
        == Session.Run(r, Snapshot(), w.Snapshot())
    {
      var reply := w.Send(Request(verb, ignoreRedirection, headers, options));
      r := Settle(reply, ignoreRedirection);
    }

    method FetchHomepage(w: World) returns (r: Result<Body>)
      modifies this, w
      ensures Session.FetchHomepage(old(Snapshot()), old(w.Snapshot())) == Session.Run(r, Snapshot(), w.Snapshot())
    {
      options := options["url" := Str(Session.HOME_URL)];
      if csrfToken != Null {
        headers := headers[Session.CSRF_HEADER := csrfToken];
      }
      r := FetchPage(Get, false, w);
    }

    /** `login()`: the homepage, then either the session the cookie jar
        already holds or a fresh credential round trip, then the token and
        user id from the configuration in hand. */
    method Login(w: World) returns (r: Result<Js>)
      modifies this, w
      ensures Session.Login(username, password, old(Snapshot()), old(w.Snapshot())) == Session.Run(r, Snapshot(), w.Snapshot())
    {
      var home := FetchHomepage(w);
      if home.Err? {
        return Err(home.error);
      }
      var homepage := home.value;
      var parsed := ParseSharedData(homepage);
      if parsed.Err? {
        return Err(parsed.error);
      }
      var cfg := parsed.value;
      if cfg == Num(-1) {
        return Err(SharedDataMissing);
      }
      if !Includes(homepage.text, username) {
        var accepted := FreshLogin(cfg, w);
        if accepted.Err? {
          return Err(accepted.error);
        }
        cfg := accepted.value;
      }
      r := Adopt(cfg);
    }

    /** The credential round trip of `login()`; yields the configuration of
        the homepage fetched after the server accepted. */
    method FreshLogin(cfg: Js, w: World) returns (r: Result<Js>)
      modifies this, w
      ensures Session.FreshLogin(username, password, cfg, old(Snapshot()), old(w.Snapshot()))
        == Session.Run(r, Snapshot(), w.Snapshot())
    {
      options := options["url" := Str(Session.LOGIN_URL)];
      var rollout := Read(cfg, "rollout_hash");
      if rollout.Err? {
        return Err(rollout.error);
      }
      rolloutHash := rollout.value;
      SetRolloutHash();
      var token := ReadPath(cfg, "config", "csrf_token");
      if token.Err? {
        return Err(token.error);
      }
      csrfToken := token.value;
      headers := headers[Session.CSRF_HEADER := csrfToken];
      options := options["form" := Session.Credentials(username, password)];
      var submitted := FetchPage(Post, false, w);
      if submitted.Err? {
        return Err(submitted.error);
      }
      if submitted.value.json.None? {
        return Err(SyntaxError);
      }
      var result := submitted.value.json.value;
      var uid := Read(result, "userId");
      if uid.Err? {
        return Err(uid.error);
      }
      userId := uid.value;
      if !Member(result, "authenticated").Truthy() {
        return Err(AuthRejected(result));
      }
      var home := FetchHomepage(w);
      if home.Err? {
        return Err(home.error);
      }
      r := ParseSharedData(home.value);
    }

    /** Token and user id from `config` of the configuration in hand. */
    method Adopt(cfg: Js) returns (r: Result<Js>)
      modifies this
      ensures (r, Snapshot()) == Session.Adopt(cfg, old(Snapshot()))
    {
      var token := ReadPath(cfg, "config", "csrf_token");
      if token.Err? {
        return Err(token.error);
      }
      csrfToken := token.value;
      userId := Member(Member(cfg, "config"), "viewerId");
      r := Ok(csrfToken);
    }

    /** `logout()`.  The token is left as it was, so `isLoggedIn()` answers
        as before; the cookie file is gone exactly when the POST resolved. */
    method Logout(w: World) returns (r: Result<bool>)
      modifies this, w
      ensures Session.Logout(old(Snapshot()), old(w.Snapshot())) == Session.Run(r, Snapshot(), w.Snapshot())
      ensures IsLoggedIn() == old(IsLoggedIn())
      ensures r.Ok? ==> !w.cookieFile
      ensures r.Err? ==> w.cookieFile == old(w.cookieFile)
    {
      options := options["url" := Str(Session.LOGOUT_URL)];
      headers := headers[Session.CSRF_HEADER := csrfToken];
      options := options["form" := Obj(map["csrfmiddlewaretoken" := csrfToken])];
      var posted := FetchPage(Post, true, w);
      if posted.Err? {
        return Err(posted.error);
      }
      w.RemoveCookieFile();
      r := Ok(true);
    }

    /** One paginated resource call (`timelineFeed`, `taggedUserFeed`,
        `mediaComments`, `mediaLikers`, `userFollowings`, `userFollowers`,
        `searchTagFeed`, `searchLocationFeed`), given its descriptor. */
    method Query(d: Descriptor, arg: Js, count: Option<int>, cursor: Js, w: World) returns (r: Result<Js>)
      modifies this, w
      ensures Session.Query(d, arg, count, cursor, old(Snapshot()), old(w.Snapshot()))
        == Session.Run(r, Snapshot(), w.Snapshot())
    {
      var cur := CursorOf(d, cursor);
      var n := EffectiveCount(d, CountOf(d, count), cur);
      var a := ArgValue(d, arg);
      if a.Err? {
        return Err(a.error);
      }
      options := options["url" := QueryUrl(d.queryHash, Variables(d, a.value, n, cur))];
      headers := headers[Session.CSRF_HEADER := csrfToken];
      options := options["json" := Bool(true)];
      var page := FetchPage(Get, false, w);
      if page.Err? {
        return Err(page.error);
      }
      r := Envelope(d, AsJson(page.value));
    }

    /** `mediaInfo({shortCode})`. */
    method MediaInfo(shortCode: string, w: World) returns (r: Result<Js>)
      modifies this, w
      ensures Session.MediaInfo(shortCode, old(Snapshot()), old(w.Snapshot())) == Session.Run(r, Snapshot(), w.Snapshot())
    {
      options := options["url" := Session.MediaUrl(shortCode)];
      headers := headers[Session.CSRF_HEADER := csrfToken];
      options := options["json" := Bool(true)];
      var page := FetchPage(Get, false, w);
      if page.Err? {
        return Err(page.error);
      }
      r := MediaEnvelope(AsJson(page.value));
    }
  }
}
