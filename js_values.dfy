/** JavaScript values as the Fusia client reads and writes them: configuration
    objects scraped from the homepage, parsed JSON replies, header values and the
    request options.  `undefined` and `null` are kept apart because the client
    tests `!== null` and `typeof ... === "undefined"` separately. */
module JsValues {

  datatype Option<+T> = None | Some(value: T)

  /** Numbers are integers here; fractions and NaN do not occur in the
      modelled code paths. */
  datatype Js =
    | Undefined
    | Null
    | Bool(b: bool)
    | Num(n: int)
    | Str(s: string)
    | Arr(items: seq<Js>)
    | Obj(fields: map<string, Js>)
  {
    /** Reading a property of these throws a TypeError. */
    predicate Nullish() {
      Undefined? || Null?
    }

    /** JavaScript truthiness (`!v` is false exactly for these values). */
    predicate Truthy() {
      match this
      case Undefined => false
      case Null => false
      case Bool(b) => b
      case Num(n) => n != 0
      case Str(s) => s != ""
      case Arr(_) => true
      case Obj(_) => true
    }
  }

  /** The errors the client raises or lets through, one per cause. */
  datatype Failure =
    | NetworkError(reason: string)   // the transport's own error, rejected as is
    | HttpStatus(code: int)          // a status other than 200, rejected as the number
    | SharedDataMissing              // "Failed to parse shared data.."
    | SyntaxError                    // JSON.parse on text that is not JSON
    | TypeError                      // a property read on undefined or null
    | AuthRejected(payload: Js)      // the login reply without a truthy `authenticated`
    | NotFound                       // "404 Not Found" from an envelope check
    | CommentTooLong
    | CommentAllCaps

  datatype Result<+T> = Ok(value: T) | Err(error: Failure)

  /** `v[key]` on a value that is not null or undefined.  The keys the client
      reads are never `length`, an index or a prototype member, so only an
      object's own fields are ever defined. */
  function Member(v: Js, key: string): Js {
    if v.Obj? && key in v.fields then v.fields[key] else Undefined
  }

  /** `v[key]`, which throws a TypeError on undefined and null. */
  function Read(v: Js, key: string): Result<Js> {
    if v.Nullish() then Err(TypeError) else Ok(Member(v, key))
  }

  /** `v[outer][inner]`, the two-step read the client uses on configurations. */
  function ReadPath(v: Js, outer: string, inner: string): (r: Result<Js>)
    ensures r.Ok? <==> !v.Nullish() && !Member(v, outer).Nullish()
    ensures r.Ok? ==> r.value == Member(Member(v, outer), inner)
    ensures r.Err? ==> r.error == TypeError
  {
    match Read(v, outer)
    case Err(e) => Err(e)
    case Ok(o) => Read(o, inner)
  }
}
