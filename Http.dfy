/**
 * The request and response shapes the three user-table handlers share:
 * the HTTP verb, the already-parsed `id` query parameter, the JSON body
 * kinds the handlers send, and the `Allow` header of a 405.
 */
module Http {
  import opened Wrappers
  import opened UserModel

  /**
   * The verb of a request. `Other` stands for every verb outside the six
   * named ones and never carries one of their names (see `WellFormedMethod`).
   */
  datatype Method = Get | Post | Put | Patch | Delete | Options | Other(name: string)

  /** `Other` is kept for the verbs that have no constructor of their own. */
  predicate WellFormedMethod(m: Method)
  {
    m.Other? ==> m.name !in ["GET", "POST", "PUT", "PATCH", "DELETE", "OPTIONS"]
  }

  /** The verb as it appears in `req.method`. */
  function MethodName(m: Method): string
  {
    match m
    case Get => "GET"
    case Post => "POST"
    case Put => "PUT"
    case Patch => "PATCH"
    case Delete => "DELETE"
    case Options => "OPTIONS"
    case Other(name) => name
  }

  /** For well-formed verbs the name in `req.method` determines the verb. */
  lemma MethodNameInjective(a: Method, b: Method)
    requires WellFormedMethod(a) && WellFormedMethod(b)
    requires MethodName(a) == MethodName(b)
    ensures a == b
  {
  }

  /**
   * The `id` query parameter: absent (or the empty string), a string that
   * `parseInt` reads as the integer `n`, or one it reads as `NaN`.
   */
  datatype IdParam = NoId | Id(n: int) | NotANumber

  /** The body of a request as the handler receives it, and its query. */
  datatype Request = Request(verb: Method, id: IdParam, action: Option<string>, body: UserPatch)

  /** What `res.json(...)`, `res.end()` or a plain-text response carries. */
  datatype Body =
    | NoBody
    | UserJson(user: User)
    | UsersJson(users: seq<User>)
    | ErrorJson(error: string)
    | ResetJson(message: string, count: nat, users: seq<User>)
    | Text(text: string)

  /** A response: its status, its body and the `Allow` header (empty when not set). */
  datatype Response = Response(status: nat, body: Body, allow: seq<string>)

  /** What a request answers and the list it leaves behind. */
  datatype Exchange = Exchange(response: Response, users: seq<User>)

  /** The avatar service every handler builds avatar URLs on. */
  const AvatarPrefix: string := "https://i.pravatar.cc/150?u="

  const NotFound: string := "User not found"
  const IdRequired: string := "User ID is required"

  /** `Method ${req.method} not allowed` */
  function NotAllowed(m: Method): string
  {
    "Method " + MethodName(m) + " not allowed"
  }
}
