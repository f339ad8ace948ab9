/** The paginated resource queries of the Fusia client.  Each of the eight
    resource methods builds a `variables` object from its argument, a page size
    and a cursor, sends it to the GraphQL query endpoint under its own query
    hash, and unwraps one key of the `data` envelope.  Here that shared code is
    one descriptor-driven definition, and the descriptors form a table. */
module Queries {
  import opened JsValues
  import opened Text

  const GRAPHQL_API_URL := "https://www.instagram.com/graphql/query/"

  /** Page sizes above this are replaced, never rejected. */
  const MAX_COUNT := 50

  datatype Descriptor = Descriptor(
    queryHash: string,
    argKey: Option<string>,   // the variable that carries the caller's id, if any
    lowerArg: bool,           // the id is lower-cased first (tag names)
    fixed: map<string, Js>,   // variables sent on every call
    countKey: string,
    omittedCount: int,        // the page size when the caller gives none
    clampWithCursor: int,     // what an oversized page size becomes ...
    clampWithoutCursor: int,  // ... with and without a cursor
    cursorKey: string,
    cursorDefault: Js,        // the cursor when the caller gives none
    resultKey: string)        // the key unwrapped from `data`
  {
    /** The keys a call writes are distinct, so no write hides another. */
    predicate WellFormed() {
      && countKey != cursorKey
      && countKey !in fixed && cursorKey !in fixed
      && (argKey.Some? ==> argKey.value != countKey && argKey.value != cursorKey && argKey.value !in fixed)
    }
  }

  const TIMELINE_FEED := Descriptor("13ab8e6f3d19ee05e336ea3bd37ef12b", None, false,
    map["fetch_comment_count" := Num(4), "fetch_like" := Num(10), "has_stories" := Bool(false)],
    "fetch_media_item_count", 12, 12, 12, "fetch_media_item_cursor", Null, "user")
  const TAGGED_USER_FEED := Descriptor("e31a871f7301132ceaab56507a66bbb7", Some("id"), false, map[],
    "first", 12, 12, 12, "after", Null, "user")
  const MEDIA_COMMENTS := Descriptor("f0986789a5c5d17c2400faebf16efd0d", Some("shortcode"), false, map[],
    "first", 16, 12, 12, "after", Null, "shortcode_media")
  const MEDIA_LIKERS := Descriptor("e0f59e4a1c8d78d0161873bc2ee7ec44", Some("shortcode"), false, map[],
    "first", 24, 12, 24, "after", Null, "shortcode_media")
  /** userFollowings and userFollowers give `cursor` no default: omitted, it is undefined. */
  const USER_FOLLOWINGS := Descriptor("c56ee0ae1f89cdbd1c89e2bc6b8f3d18", Some("id"), false, map[],
    "first", 10, 10, 10, "after", Undefined, "user")
  const USER_FOLLOWERS := Descriptor("7dd9a7e2160524fd85f50317462cff9f", Some("id"), false, map[],
    "first", 10, 10, 10, "after", Undefined, "user")
  const SEARCH_TAG_FEED := Descriptor("faa8d9917120f16cec7debbd3f16929d", Some("tag_name"), true, map[],
    "first", 16, 16, 16, "after", Null, "hashtag")
  const SEARCH_LOCATION_FEED := Descriptor("ac38b90f0f3981c42092016a37c59bf7", Some("id"), false, map[],
    "first", 16, 16, 16, "after", Null, "location")

  const TABLE := [TIMELINE_FEED, TAGGED_USER_FEED, MEDIA_COMMENTS, MEDIA_LIKERS,
                  USER_FOLLOWINGS, USER_FOLLOWERS, SEARCH_TAG_FEED, SEARCH_LOCATION_FEED]

  /** JavaScript default parameters: they apply when the argument is undefined. */
  function CursorOf(d: Descriptor, cursor: Js): Js {
    if cursor == Undefined then d.cursorDefault else cursor
  }

  function CountOf(d: Descriptor, count: Option<int>): int {
    if count.Some? then count.value else d.omittedCount
  }

  /** `if (count > 50) count = <default>`; for media likers the default depends
      on whether a cursor (anything but null) was given. */
  function EffectiveCount(d: Descriptor, count: int, cursor: Js): int {
    if count <= MAX_COUNT then count
    else if cursor != Null then d.clampWithCursor
    else d.clampWithoutCursor
  }

  /** The caller's id as it goes into the variables; `tag.toLowerCase()` throws
      on anything but a string. */
  function ArgValue(d: Descriptor, arg: Js): Result<Js> {
    if !d.lowerArg then Ok(arg)
    else if arg.Str? then Ok(Str(ToLower(arg.s)))
    else Err(TypeError)
  }

  /** The `variables` object: the fixed entries, the id, the page size, and
      the cursor key only when the cursor is not null. */
  function Variables(d: Descriptor, arg: Js, count: int, cursor: Js): map<string, Js> {
    var withArg := if d.argKey.Some? then d.fixed[d.argKey.value := arg] else d.fixed;
    var withCount := withArg[d.countKey := Num(count)];
    if cursor != Null then withCount[d.cursorKey := cursor] else withCount
  }

  /** JSON.stringify leaves out the members whose value is undefined. */
  function Stringified(vars: map<string, Js>): map<string, Js> {
    map k | k in vars && vars[k] != Undefined :: vars[k]
  }

  /** The request URL `GRAPHQL_API_URL?query_hash=..&variables=..`, kept as the
      structure it encodes rather than as the escaped string. */
  function QueryUrl(queryHash: string, vars: map<string, Js>): Js {
    Obj(map["endpoint" := Str(GRAPHQL_API_URL), "query_hash" := Str(queryHash),
            "variables" := Obj(Stringified(vars))])
  }

  /** `parsed[outer][inner]`, returned only when both are defined and, when
      asked, `parsed.status === "ok"`; any violation is "404 Not Found".  A null
      or undefined `parsed` or `parsed[outer]` throws a TypeError instead, since
      the checks read a property of it. */
  function Unwrap(parsed: Js, outer: string, inner: string, checkStatus: bool): (r: Result<Js>)
    ensures r.Ok? <==>
      && parsed.Obj? && outer in parsed.fields
      && parsed.fields[outer].Obj? && inner in parsed.fields[outer].fields
      && parsed.fields[outer].fields[inner] != Undefined
      && (checkStatus ==> Member(parsed, "status") == Str("ok"))
    ensures r.Ok? ==> r.value == parsed.fields[outer].fields[inner]
    ensures r.Err? ==> r.error == NotFound || r.error == TypeError
    ensures r == Err(TypeError) <==> parsed.Nullish() || Member(parsed, outer) == Null
  {
    match Read(parsed, outer)
    case Err(e) => Err(e)
    case Ok(o) =>
      if o == Undefined then Err(NotFound)
      else match Read(o, inner)
        case Err(e) => Err(e)
        case Ok(x) =>
          if x == Undefined || (checkStatus && Member(parsed, "status") != Str("ok")) then Err(NotFound)
          else Ok(x)
  }

  /** The envelope check of a paginated query. */
  function Envelope(d: Descriptor, parsed: Js): Result<Js> {
    Unwrap(parsed, "data", d.resultKey, true)
  }

  /** The check of `mediaInfo`: `graphql.shortcode_media`, status not read. */
  function MediaEnvelope(parsed: Js): Result<Js> {
    Unwrap(parsed, "graphql", "shortcode_media", false)
  }

  lemma TableWellFormed()
    ensures forall d | d in TABLE :: d.WellFormed()
  {
  }

  /** A page size up to 50 passes unchanged, however small; a larger one becomes
      the resource's own default, which is neither 50 nor the size asked for. */
  lemma ClampPolicy(d: Descriptor, count: int, cursor: Js)
    requires d in TABLE
    ensures count <= MAX_COUNT ==> EffectiveCount(d, count, cursor) == count
    ensures count > MAX_COUNT ==>
      var n := EffectiveCount(d, count, cursor);
      n < MAX_COUNT && n != count && n in {10, 12, 16, 24}
  {
  }

  /** The default each resource falls back to for an oversized page size. */
  lemma ClampPerResource(count: int, cursor: Js)
    requires count > MAX_COUNT
    ensures EffectiveCount(TIMELINE_FEED, count, cursor) == 12
    ensures EffectiveCount(TAGGED_USER_FEED, count, cursor) == 12
    ensures EffectiveCount(MEDIA_COMMENTS, count, cursor) == 12
    ensures EffectiveCount(USER_FOLLOWINGS, count, cursor) == 10
    ensures EffectiveCount(USER_FOLLOWERS, count, cursor) == 10
    ensures EffectiveCount(SEARCH_TAG_FEED, count, cursor) == 16
    ensures EffectiveCount(SEARCH_LOCATION_FEED, count, cursor) == 16
    ensures EffectiveCount(MEDIA_LIKERS, count, cursor) == if cursor != Null then 12 else 24
  {
  }

  /** A page size the caller leaves out is each resource's own default, and it
      is never clamped. */
  lemma OmittedCountPassesUnchanged(d: Descriptor, cursor: Js)
    requires d in TABLE
    ensures EffectiveCount(d, CountOf(d, None), cursor) == d.omittedCount
  {
  }

  /** What the variables hold: the cursor key exactly when the cursor is not
      null, carrying the cursor itself; the page size; the id; and the fixed
      entries. */
  lemma VariablesContents(d: Descriptor, arg: Js, count: int, cursor: Js)
    requires d.WellFormed()
    ensures var vars := Variables(d, arg, count, cursor);
      && (d.cursorKey in vars <==> cursor != Null)
      && (cursor != Null ==> vars[d.cursorKey] == cursor)
      && d.countKey in vars && vars[d.countKey] == Num(count)
      && (d.argKey.Some? ==> d.argKey.value in vars && vars[d.argKey.value] == arg)
      && (forall k | k in d.fixed :: k in vars && vars[k] == d.fixed[k])
      && vars.Keys == d.fixed.Keys + {d.countKey}
           + (if d.argKey.Some? then {d.argKey.value} else {})
           + (if cursor != Null then {d.cursorKey} else {})
  {
  }

  /** What a call actually sends: the page size and the fixed entries always;
      the id unless the caller left it undefined; the cursor exactly when it
      is neither null nor undefined; and nothing else. */
  lemma SerialisedVariables(d: Descriptor, arg: Js, count: int, cursor: Js)
    requires d in TABLE
    ensures var sent := Stringified(Variables(d, arg, count, cursor));
      && d.countKey in sent && sent[d.countKey] == Num(count)
      && (forall k | k in d.fixed :: k in sent && sent[k] == d.fixed[k])
      && (d.argKey.Some? ==> (d.argKey.value in sent <==> arg != Undefined))
      && (d.argKey.Some? && arg != Undefined ==> sent[d.argKey.value] == arg)
      && (d.cursorKey in sent <==> cursor != Null && cursor != Undefined)
      && (d.cursorKey in sent ==> sent[d.cursorKey] == cursor)
      && sent.Keys <= d.fixed.Keys + {d.countKey, d.cursorKey}
           + (if d.argKey.Some? then {d.argKey.value} else {})
  {
    TableWellFormed();
    VariablesContents(d, arg, count, cursor);
  }

  /** Following a page: the `end_cursor` of one page, given back as the next
      call's cursor, is sent under the resource's cursor key, in the URL. */
  lemma CursorRoundTrip(d: Descriptor, arg: Js, count: int, endCursor: string)
    requires d in TABLE
    ensures var url := QueryUrl(d.queryHash, Variables(d, arg, count, Str(endCursor)));
      && url.fields["variables"].fields[d.cursorKey] == Str(endCursor)
      && url.fields["query_hash"] == Str(d.queryHash)
  {
    TableWellFormed();
    VariablesContents(d, arg, count, Str(endCursor));
  }

  /** userFollowings and userFollowers called without a cursor add `after:
      undefined`, which the serialised variables then leave out; the other
      resources add no cursor key at all. */
  lemma OmittedCursor(d: Descriptor, arg: Js, count: int)
    requires d in TABLE
    ensures var vars := Variables(d, arg, count, CursorOf(d, Undefined));
      && (d.cursorKey in vars <==> d == USER_FOLLOWINGS || d == USER_FOLLOWERS)
      && d.cursorKey !in Stringified(vars)
  {
    TableWellFormed();
    VariablesContents(d, arg, count, CursorOf(d, Undefined));
  }

  /** The tag of a tag feed is lower-cased before it is sent; a tag that is
      not a string makes the call throw before any request. */
  lemma TagIsLowerCased(tag: Js)
    ensures tag.Str? ==> ArgValue(SEARCH_TAG_FEED, tag) == Ok(Str(ToLower(tag.s)))
    ensures !tag.Str? ==> ArgValue(SEARCH_TAG_FEED, tag) == Err(TypeError)
    ensures forall d | d in TABLE && d != SEARCH_TAG_FEED :: ArgValue(d, tag) == Ok(tag)
  {
  }

  lemma EnvelopeExamples(user: map<string, Js>)
    ensures Envelope(TIMELINE_FEED, Obj(map["status" := Str("ok"), "data" := Obj(map["user" := Obj(user)])]))
            == Ok(Obj(user))
    ensures Envelope(TIMELINE_FEED, Obj(map["status" := Str("fail")])) == Err(NotFound)
    ensures Envelope(TIMELINE_FEED, Obj(map["status" := Str("fail"), "data" := Obj(map["user" := Obj(user)])]))
            == Err(NotFound)
    ensures Envelope(TIMELINE_FEED, Obj(map["status" := Str("ok"), "data" := Null])) == Err(TypeError)
    ensures MediaEnvelope(Obj(map["graphql" := Obj(map["shortcode_media" := Obj(user)])])) == Ok(Obj(user))
  {
  }
}
