# Fusia client: session and paginated queries, in Dafny

Fusia is a JavaScript client for Instagram's private web API. A `Fusia` instance:

- scrapes the CSRF token out of the homepage;
- logs in with a username and password, or reuses the session its cookie file already holds;
- logs out;
- pages through resources (feeds, followers, comments, likers, tag and location feeds) over a GraphQL query endpoint.

This project models the core of that class (`modules/Fusia.js`) and proves what it does.

Layout, one module per file:

- `js_values.dfy` (`JsValues`): JavaScript values as the client reads them. `undefined` and `null` are kept apart, because the client tests `!== null` and `typeof … === "undefined"` separately. It also holds truthiness, property reads that throw on nullish values, and the client's failures.
- `text.dfy` (`Text`): `sanitiseMediaId`, the two comment rules of `postComment` that can fire, and ASCII case mapping.
- `transport.dfy` (`Transport`): the request, the reply and the body.
  - The decision `fetchPage` makes on a reply.
  - The found / not-found / malformed contract of `parseSharedData`.
  - A scripted world that stands in for the network. It answers requests in order and records each request and each removal of the cookie file, so claims about order and count can be stated.
- `queries.dfy` (`Queries`): the eight paginated resources as one descriptor-driven definition, with a table of descriptors. It covers the page-size clamp, cursor injection, the `variables` object and the envelope check.
- `session.dfy` (`Session`): the client's state and each operation as a function from state and world to outcome, new state and new world. The lemmas state what `login`, `logout` and the resource calls promise.
- `fusia.dfy` (`FusiaClient`): the class `Fusia`, with the fields the source overwrites in place. Its headers and options dictionaries are the single shared `defaultRequestOptions` every call writes into. Each operation's method performs the source's steps and ensures it ends in exactly the outcome, state and world of its counterpart function in `Session`. `SetRolloutHash` is tied to `Session.SetHeader`. `World` holds the transport and the cookie file; its methods are tied to the `Transport` functions `Send` and `RemoveCookieFile`.

Behaviour of the code as written that the model keeps and the lemmas make visible:

- `Object.assign(this.defaultRequestOptions)` has one argument, so it returns the shared object. Each write stays in the shared options until a later call overwrites it. `url` is rewritten by every call, and `X-CSRFToken` by every call except a homepage fetch made with no token. Nothing ever clears `json` or `form`, so the credentials written by login are still the `form` of a later feed query.
- `isLoggedIn()` tests `!== null`, so a configuration whose `csrf_token` is undefined counts as logged in.
- The homepage fetched after a successful credential POST is parsed without the `-1` check of the first. A page without the configuration makes login fail with a TypeError, not the parse error.
- `userFollowings` and `userFollowers` give `cursor` no default. Called without one, they add `after: undefined`, which serialising the variables drops again.
- An oversized page size becomes a per-resource value, which is not always the resource's own default: `mediaComments` defaults to 16 but clamps to 12, and `mediaLikers` clamps to 12 with a cursor and 24 without.

The model also keeps these behaviours of the code, which a reader might not expect:

- `logout()` does not reset the token, so `isLoggedIn()` is unchanged by it.
- A failed login leaves its writes in place rather than emptying the session.
- Page sizes have no lower bound.
- The cursor key of `timelineFeed` is `fetch_media_item_cursor`, not `after`.
- Resource calls return the unwrapped payload, with no page record or next cursor around it.

## Model

| member | source | states |
|---|---|---|
| JsValues.ReadPath | modules/Fusia.js:142-143 | `v[outer][inner]` succeeds exactly when neither `v` nor `v[outer]` is null or undefined, yields the inner member (undefined when absent), and otherwise throws a TypeError |
| Text.Includes | modules/Fusia.js:116 | definition: `homepage.includes(username)`, some position where the username occurs |
| Text.HasNumericPair | modules/Fusia.js:86 | definition: the test `/[0-9]+_[0-9]+/`, an underscore with a digit on each side |
| Text.BeforeFirst | modules/Fusia.js:87 | `split(sep)[0]` is a prefix without `sep`, followed in the input by `sep` whenever it is shorter |
| Text.BeforeFirstAt | modules/Fusia.js:87 | `split(sep)[0]` ends exactly at the first occurrence of `sep` |
| Text.SanitiseMediaId | modules/Fusia.js:85-91 | the result is always a prefix of the id; with a `<digits>_<digits>` pair it is the text before the first underscore, and otherwise the id itself |
| Text.SanitiseIsIdempotent | modules/Fusia.js:85-91 | sanitising twice equals sanitising once |
| Text.SanitiseCompositeExample | modules/Fusia.js:80-91 | the composite id `123456_789` becomes `123456` |
| Text.SanitisePlainExample | modules/Fusia.js:85-91 | a plain numeric id is returned unchanged |
| Text.SanitiseFirstUnderscoreExample | modules/Fusia.js:86-87 | the cut is at the first underscore even when the digit pair surrounds a later one (`ab_12_34` → `ab`) |
| Text.UpperFixpoint | modules/Fusia.js:761 | a string equals its own upper case exactly when it holds no lower-case letter |
| Text.CheckComment | modules/Fusia.js:757-763 | rejected as too long exactly when longer than 300; rejected as all capitals exactly when at most 300, containing a letter and containing no lower-case letter; no other rejection |
| Text.CommentExamples | modules/Fusia.js:757-763 | shouting is rejected, mixed case and letterless text pass, 301 characters are too long |
| Transport.Settle | modules/Fusia.js:214-244 | `fetchPage` resolves with the body exactly when the transport reports no error and the status is 200 or redirection is ignored; otherwise it rejects with the transport error or with the status code |
| Transport.RedirectToleratedOnlyWhenIgnored | modules/Fusia.js:223-225 | a status other than 200 fails the call exactly when redirection is not ignored, whatever the body |
| Transport.ParseSharedData | modules/Fusia.js:194-202 | definition: `parseSharedData`, the scrape of `window._sharedData`, via `ParseEmbedded` |
| Transport.ParseAdditionalSharedData | modules/Fusia.js:204-212 | definition: `parseAdditionalSharedData`, the scrape of `__additionalDataLoaded('feed', …)`, via `ParseEmbedded` |
| Transport.ParseEmbedded | modules/Fusia.js:194-212 | -1 exactly when the pattern is absent, a SyntaxError exactly when the match is not JSON, an object with the scraped fields exactly when it parses |
| Queries.Stringified | modules/Fusia.js:293 | definition: `JSON.stringify` of the variables drops the members whose value is undefined |
| Queries.SerialisedVariables | modules/Fusia.js:280-293 | what a call sends: the page size and fixed entries always; the id unless undefined; the cursor exactly when neither null nor undefined; nothing else |
| Queries.EffectiveCount | modules/Fusia.js:275-278 | definition: a page size above 50 becomes the resource's clamp value (for likers, chosen by whether a cursor was given) |
| Queries.ArgValue | modules/Fusia.js:808 | definition: the id as sent; a tag is lower-cased, and a tag that is not a string throws |
| Queries.Variables | modules/Fusia.js:280-289 | definition: the `variables` object, with fixed entries, id, page size, and the cursor key when the cursor is not null |
| Queries.Envelope | modules/Fusia.js:302-306 | definition: the paginated check, `data[resultKey]` with `status === "ok"` |
| Queries.MediaEnvelope | modules/Fusia.js:401-405 | definition: the `mediaInfo` check, `graphql.shortcode_media` with no status check |
| Queries.Unwrap | modules/Fusia.js:302-306 | `parsed[outer][inner]` is returned exactly when both are defined objects/members and, for paginated calls, `status` is `"ok"`; otherwise "404 Not Found", except a TypeError exactly when `parsed` is nullish or `parsed[outer]` is null |
| Queries.TableWellFormed | modules/Fusia.js:280-289 | in every resource the id, page-size, cursor and fixed keys are distinct |
| Queries.ClampPolicy | modules/Fusia.js:274-278 | every page size up to 50 passes unchanged with no lower bound; a larger one becomes a per-resource value below 50, never 50 and never the size asked for |
| Queries.ClampPerResource | modules/Fusia.js:461-480 | oversized page sizes become 12 (timeline, tagged, comments), 10 (followings, followers), 16 (tag, location), and for likers 12 with a cursor and 24 without |
| Queries.OmittedCountPassesUnchanged | modules/Fusia.js:418 | an omitted page size is the resource's default and is never clamped |
| Queries.VariablesContents | modules/Fusia.js:280-289 | the variables hold the fixed entries, the id, the page size and the cursor key exactly when the cursor is not null, and nothing else |
| Queries.CursorRoundTrip | modules/Fusia.js:287-297 | a page's end cursor given back is sent under the resource's cursor key in the URL, with the resource's query hash |
| Queries.OmittedCursor | modules/Fusia.js:509-522 | without a cursor only followings/followers add the cursor key (as undefined), and no resource sends it |
| Queries.TagIsLowerCased | modules/Fusia.js:801-810 | the tag is lower-cased; a tag that is not a string throws before any request; every other resource sends its id as given |
| Queries.EnvelopeExamples | modules/Fusia.js:302-306 | a good envelope unwraps; a failing status or missing `data` is "404 Not Found"; a null `data` throws; `mediaInfo` ignores the status |
| Session.IsLoggedIn | modules/Fusia.js:74-76 | definition: `isLoggedIn()`, the token is not null (an undefined token counts) |
| Session.Adopt | modules/Fusia.js:142-145 | definition: the closing assignments of `login()`, token and user id from `config`, or a TypeError |
| Session.FreshLogin | modules/Fusia.js:116-140 | definition: the credential round trip of `login()`, yielding the second homepage's configuration; characterised by the fresh-login lemmas |
| Session.Login | modules/Fusia.js:106-150 | definition: `login()` over state and world; characterised by the login lemmas |
| Session.Logout | modules/Fusia.js:157-169 | definition: `logout()` over state and world; characterised by `Session.LogoutEffects` |
| Session.Query | modules/Fusia.js:274-310 | definition: one paginated call from its descriptor; characterised by `Session.QueryEffects` |
| Session.MediaInfo | modules/Fusia.js:394-409 | definition: `mediaInfo()` over state and world |
| Session.FetchPageSends | modules/Fusia.js:214-244 | a call sends exactly one request, carrying the current shared headers and options, and changes nothing else |
| Session.PreLoginStopsOnNullishConfig | modules/Fusia.js:119-120 | a null or undefined configuration throws a TypeError at the `rollout_hash` read, after only the login URL has been written |
| Session.PreLoginWrites | modules/Fusia.js:118-125 | before the credential POST, the rollout hash and `X-Instagram-AJAX` hold the config's `rollout_hash`; the token and `X-CSRFToken` hold the pre-login token; `form` holds the credentials; `url` the login endpoint |
| Session.FreshLoginShape | modules/Fusia.js:116-140 | the fresh-login path sends nothing, a POST, or a POST then a GET, starting with the POST built from the pre-login state |
| Session.LoginRequestShape | modules/Fusia.js:106-150 | login sends a homepage GET first, then at most one credential POST and one more homepage GET, in that order; it never touches the cookie file |
| Session.LoginTakesFreshPath | modules/Fusia.js:116-143 | when the parsed homepage does not mention the user, login is the fresh-login path followed by adopting its configuration |
| Session.LoginFailsBeforePost | modules/Fusia.js:108-114 | a homepage without the configuration fails login with the parse error after the one GET, before any POST |
| Session.LoginReusesCookieSession | modules/Fusia.js:116-145 | a homepage that mentions the user: no POST; the token and user id come from that page's `config`, or a TypeError when it has none |
| Session.FreshLoginAccepted | modules/Fusia.js:127-139 | an accepting server: the path yields the second homepage's configuration, the user id from the answer, the rollout hash from the first page |
| Session.FreshLoginSucceeds | modules/Fusia.js:106-145 | a successful fresh login is exactly GET, POST, GET; the final token and user id come from the second page and the rollout hash from the first |
| Session.FreshLoginWrites | modules/Fusia.js:118-136 | the POST carries the rollout hash, pre-login token, credentials and login URL; a reply without truthy `authenticated` fails with that reply and every write stays, the user id taken from the reply |
| Session.SecondHomepageUnchecked | modules/Fusia.js:138-142 | a second homepage without the configuration fails login with a TypeError |
| Session.LogoutEffects | modules/Fusia.js:157-169 | logout POSTs with redirection ignored and the token as header and form; the cookie file is removed after the POST resolves and only then; the token and `isLoggedIn()` are unchanged |
| Session.QueryEffects | modules/Fusia.js:296-306 | a paginated call sends one GET with the query URL, `json: true` and the token header; it keeps every other option; its outcome is the envelope check of the reply |
| Session.QuerySendsForm | modules/Fusia.js:296-301 | a paginated call sends whatever `form` the shared options hold |
| Session.CredentialsKept | modules/Fusia.js:118-125 | once the credential POST is sent, the credentials stay as `form` whatever login's outcome |
| Session.CredentialsOutliveLogin | modules/Fusia.js:118-125 | after a login that sent its POST, the next paginated call still sends the credentials |
| Session.LoginOpensWithOptions | modules/Fusia.js:595-601 | login's first request carries every option set before it, except the URL it overwrites |
| Session.OnlyLoginSetsToken | modules/Fusia.js:24 | a new client is logged out, and from any state logout, the paginated calls and `mediaInfo` leave the token as they found it |
| FusiaClient.World.Send | modules/Fusia.js:218 | one request is recorded and answered by the next scripted reply, or by a transport error once the script is exhausted |
| FusiaClient.World.RemoveCookieFile | modules/Fusia.js:164 | the removal is recorded and the file is gone |
| FusiaClient.World.EnsureCookieFile | modules/Fusia.js:21 | the cookie file exists afterwards and nothing else changes |
| FusiaClient.Fusia.constructor | modules/Fusia.js:15-38 | no token, no user id, rollout hash 1, the eight default headers, no options, logged out, and the cookie file exists |
| FusiaClient.Fusia.IsLoggedIn | modules/Fusia.js:74-76 | definition: `isLoggedIn()` on the object's fields, as `Session.IsLoggedIn` of its snapshot |
| FusiaClient.Fusia.SetRolloutHash | modules/Fusia.js:97-99 | `X-Instagram-AJAX` takes the rollout hash; nothing else changes |
| FusiaClient.Fusia.FetchPage | modules/Fusia.js:214-244 | sends the shared headers and options and settles the reply as `Transport.Settle` does; the client is unchanged |
| FusiaClient.Fusia.FetchHomepage | modules/Fusia.js:594-602 | sets the homepage URL, and the token header only when a token is held, then fetches |
| FusiaClient.Fusia.Login | modules/Fusia.js:106-150 | ends in the outcome, fields and world of `Session.Login`, so the login lemmas hold of it |
| FusiaClient.Fusia.FreshLogin | modules/Fusia.js:116-140 | ends in the outcome, fields and world of `Session.FreshLogin` |
| FusiaClient.Fusia.Adopt | modules/Fusia.js:142-145 | token and user id from `config`, or a TypeError leaving the fields as they were |
| FusiaClient.Fusia.Logout | modules/Fusia.js:157-169 | ends as `Session.Logout`; `isLoggedIn()` unchanged; the cookie file gone exactly on success and untouched on failure |
| FusiaClient.Fusia.Query | modules/Fusia.js:274-310 | one paginated call (here `timelineFeed`; the other seven with their descriptors) ends as `Session.Query` |
| FusiaClient.Fusia.MediaInfo | modules/Fusia.js:394-409 | ends as `Session.MediaInfo`: media URL, token header, `json: true`, and the `graphql.shortcode_media` check without status |

## Left out

- The `request` library, its cookie jar and `tough-cookie-filestore` are foreign code. They are replaced by `World`, which answers from a script of replies. Cookies themselves are not modelled; whether the homepage mentions the user is an input.
- `JSON.parse`, `JSON.stringify`, `qs.stringify` and the regular expressions of `parseSharedData`/`parseAdditionalSharedData` are foreign calls.
  - A body is given by its views: the text, the JSON parse or its failure, and what each scraper finds.
  - The query URL is kept as the structure it encodes, not as the escaped string.
- A `json: true` left in the shared options by an earlier call changes what the transport hands back. After any JSON call, login's `JSON.parse` would then see an already-parsed object. The model always gives login the body's own JSON view.
- The async/Promise machinery: operations run one after another. Interleaved calls on the shared options are not modelled.
- `debugLog`, `console`, the `debug` flag, the `printHeader` option and the cookie file's name are output or configuration only.
- The `userId` getter and setter are plain accessors; the field itself is modelled.
- Error wrapping (`new Error(error)`, the message strings) is not modelled. The model keeps the kind of failure: transport error, status code, parse error, TypeError, rejected login, "404 Not Found".
- `parseCSRFToken` lies on no path of the modelled methods and calls an undefined `reject`.
- `parseAdditionalSharedData` is modelled (`Transport.ParseAdditionalSharedData`), but nothing in the core calls it.
- The following are single pass-through requests with no state beyond the shared options, or use file streams and clocks: `fetchUser`, `userFeed`, `follow`, `like`, `deleteComment`, `search`, `upload`, `updateProfilePicture`, and `editProfile` (which also refers to an undefined `toptions`).
- The hashtag and URL rules of `postComment` and its send path are left out. Both rules use `exec(...).length`, so neither can reject as a limit, and the send path refers to an undefined `media_id`.
- Queries.TagIsLowerCased: only ASCII letters of the tag are lower-cased, where `toLowerCase` maps all of Unicode (`"CAFÉ"` is sent as `"cafÉ"` here, `"café"` by the client).
- Text.CheckComment: measures length in characters rather than UTF-16 code units, and case-maps only ASCII letters.
- Numbers are integers. Fractional, NaN and string page sizes, and JavaScript's coercions in `count > 50`, are not modelled.
- Calling a resource method with no argument object (a destructuring TypeError) is not modelled. A page size passed as `null` is not modelled either.
