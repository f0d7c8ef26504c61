/**
 * The client API adapter of libs/services/src/users.ts: the request each
 * service function issues, the error rule of `handleResponse`, and the
 * lower-casing `getUsers` applies. `fetch` itself is a parameter: the reply
 * it resolved with.
 */
module UserService {
  import opened Wrappers
  import opened UserModel
  import opened Ascii
  import opened Decimal
  import opened Http

  /** A fetch `Response`: `ok`, `status`, the text of the body and what `response.json()` parses it to. */
  datatype Reply<T> = Reply(ok: bool, status: nat, text: string, json: T)

  /** The `Error` a failed request throws. */
  datatype ApiError = ApiError(message: string)

  /** The request a service function sends: verb, URL and JSON body. */
  datatype ServiceRequest = ServiceRequest(verb: Method, url: string, body: Option<UserPatch>)

  /** `getApiUrl`: the development URL (`VITE_API_URL` or localhost) or the relative production path. */
  function ApiUrl(dev: bool, viteApiUrl: Option<string>): (url: string)
    ensures !dev ==> url == "/api"
    ensures dev && viteApiUrl.Some? && viteApiUrl.value != "" ==> url == viteApiUrl.value
    ensures dev && (viteApiUrl.None? || viteApiUrl.value == "") ==> url == "http://localhost:3001/api"
  {
    if dev then (if viteApiUrl.Some? && viteApiUrl.value != "" then viteApiUrl.value else "http://localhost:3001/api")
    else "/api"
  }

  /**
   * `BASE_URL`: the users collection under the API URL. The service functions
   * below take this URL as their `base` parameter.
   */
  function BaseUrl(apiUrl: string): (url: string)
    ensures |url| == |apiUrl| + 6 && url[..|apiUrl|] == apiUrl
  {
    apiUrl + "/users"
  }

  /** The collection URL in production, in development without `VITE_API_URL`, and with it. */
  lemma CollectionUrls(viteApiUrl: string)
    ensures BaseUrl(ApiUrl(false, Some(viteApiUrl))) == "/api/users"
    ensures BaseUrl(ApiUrl(true, None)) == "http://localhost:3001/api/users"
    ensures viteApiUrl != "" ==> BaseUrl(ApiUrl(true, Some(viteApiUrl))) == viteApiUrl + "/users"
  {
  }

  const FailurePrefix: string := "API request failed with status "

  /** `errorText || \`API request failed with status ${status}\`` */
  function ErrorMessage(status: nat, text: string): (m: string)
    ensures text != "" ==> m == text
    ensures text == "" ==> m == FailurePrefix + IntToString(status)
  {
    if text != "" then text else FailurePrefix + IntToString(status)
  }

  /** With an empty body the message still tells which status the server sent. */
  lemma ErrorMessageNamesStatus(status: nat)
    ensures var m := ErrorMessage(status, "");
      |m| > |FailurePrefix| && m[..|FailurePrefix|] == FailurePrefix &&
      ParseInt(m[|FailurePrefix|..]) == Some(status)
  {
    var m := ErrorMessage(status, "");
    assert m[|FailurePrefix|..] == IntToString(status);
    IntRoundTrip(status);
  }

  /** Two failures with empty bodies give the same message only for the same status. */
  lemma ErrorMessageInjective(s1: nat, s2: nat)
    requires ErrorMessage(s1, "") == ErrorMessage(s2, "")
    ensures s1 == s2
  {
    ErrorMessageNamesStatus(s1);
    ErrorMessageNamesStatus(s2);
  }

  /** `handleResponse`: the parsed body of an OK reply, otherwise an error with the rule above. */
  function HandleResponse<T>(reply: Reply<T>): (r: Result<T, ApiError>)
    ensures r.Success? <==> reply.ok
    ensures r.Success? ==> r.value == reply.json
    ensures r.Failure? ==> r.error == ApiError(ErrorMessage(reply.status, reply.text))
  {
    if reply.ok then Success(reply.json) else Failure(ApiError(ErrorMessage(reply.status, reply.text)))
  }

  /** `{ ...user, role, team, status }` with those three lower-cased. */
  function Normalize(u: User): (n: User)
    ensures n.id == u.id && n.name == u.name && n.email == u.email
    ensures n.avatar == u.avatar && n.createdAt == u.createdAt
    ensures n.role == Lower(u.role) && n.team == Lower(u.team) && n.status == Lower(u.status)
  {
    u.(role := Lower(u.role), team := Lower(u.team), status := Lower(u.status))
  }

  /** The three categorical fields hold no upper-case letter. */
  predicate IsNormalized(u: User)
  {
    IsLowerCase(u.role) && IsLowerCase(u.team) && IsLowerCase(u.status)
  }

  /** `data.map(user => ...)` */
  function NormalizeAll(users: seq<User>): (r: seq<User>)
    ensures |r| == |users|
    ensures forall i :: 0 <= i < |users| ==> r[i] == Normalize(users[i])
  {
    seq(|users|, i requires 0 <= i < |users| => Normalize(users[i]))
  }

  /** Normalising yields normalised records, and a normalised record is its own normalisation. */
  lemma NormalizeSpec(u: User)
    ensures IsNormalized(Normalize(u))
    ensures IsNormalized(u) ==> Normalize(u) == u
  {
    LowerIsLowerCase(u.role);
    LowerIsLowerCase(u.team);
    LowerIsLowerCase(u.status);
    if IsNormalized(u) {
      LowerOfLowerCase(u.role);
      LowerOfLowerCase(u.team);
      LowerOfLowerCase(u.status);
    }
  }

  /** Normalising an already normalised list changes nothing. */
  lemma NormalizeAllIdempotent(users: seq<User>)
    ensures NormalizeAll(NormalizeAll(users)) == NormalizeAll(users)
  {
    forall i | 0 <= i < |users|
      ensures Normalize(Normalize(users[i])) == Normalize(users[i])
    {
      NormalizeSpec(users[i]);
      NormalizeSpec(Normalize(users[i]));
    }
  }

  /** What one service call sends and what it resolves or rejects with. */
  datatype Call<T> = Call(request: ServiceRequest, result: Result<T, ApiError>)

  /** `getUsers`: GET the collection; on success every record comes back normalised. */
  function GetUsers(base: string, reply: Reply<seq<User>>): (c: Call<seq<User>>)
    ensures c.request == ServiceRequest(Get, base, None)
    ensures c.result.Success? <==> reply.ok
    ensures c.result.Failure? ==> c.result == HandleResponse(reply)
    ensures c.result.Success? ==>
      && |c.result.value| == |reply.json|
      && (forall i :: 0 <= i < |reply.json| ==> c.result.value[i] == Normalize(reply.json[i]))
      && (forall i :: 0 <= i < |reply.json| ==> IsNormalized(c.result.value[i]))
  {
    var r := HandleResponse(reply);
    if r.Success? then
      forall i | 0 <= i < |reply.json| ensures IsNormalized(Normalize(reply.json[i])) {
        NormalizeSpec(reply.json[i]);
      }
      Call(ServiceRequest(Get, base, None), Success(NormalizeAll(r.value)))
    else Call(ServiceRequest(Get, base, None), Failure(r.error))
  }

  /** The URL of one user: `${BASE_URL}/${id}`. */
  function UserUrl(base: string, id: int): (url: string)
    ensures |url| > |base| + 1 && url[..|base|] == base && url[|base|] == '/'
  {
    base + "/" + IntToString(id)
  }

  /** Different ids address different URLs. */
  lemma UserUrlInjective(base: string, a: int, b: int)
    requires UserUrl(base, a) == UserUrl(base, b)
    ensures a == b
  {
    var n := |base| + 1;
    assert UserUrl(base, a)[n..] == IntToString(a);
    assert UserUrl(base, b)[n..] == IntToString(b);
    IntToStringInjective(a, b);
  }

  /** `getUserById`: GET one user; the parsed body is returned as it is. */
  function GetUserById(base: string, id: int, reply: Reply<User>): (c: Call<User>)
    ensures c.request == ServiceRequest(Get, UserUrl(base, id), None)
    ensures c.result == HandleResponse(reply)
  {
    Call(ServiceRequest(Get, UserUrl(base, id), None), HandleResponse(reply))
  }

  /** `createUser`: POST the partial record to the collection. */
  function CreateUser(base: string, user: UserPatch, reply: Reply<User>): (c: Call<User>)
    ensures c.request == ServiceRequest(Post, base, Some(user))
    ensures c.result == HandleResponse(reply)
  {
    Call(ServiceRequest(Post, base, Some(user)), HandleResponse(reply))
  }

  /** `updateUser`: PATCH the partial record to the user's URL. */
  function UpdateUser(base: string, id: int, updates: UserPatch, reply: Reply<User>): (c: Call<User>)
    ensures c.request == ServiceRequest(Patch, UserUrl(base, id), Some(updates))
    ensures c.result == HandleResponse(reply)
  {
    Call(ServiceRequest(Patch, UserUrl(base, id), Some(updates)), HandleResponse(reply))
  }

  /** `deleteUser`: DELETE the user's URL. */
  function DeleteUser(base: string, id: int, reply: Reply<User>): (c: Call<User>)
    ensures c.request == ServiceRequest(Delete, UserUrl(base, id), None)
    ensures c.result == HandleResponse(reply)
  {
    Call(ServiceRequest(Delete, UserUrl(base, id), None), HandleResponse(reply))
  }

  /**
   * Only `getUsers` normalises: the single-user calls hand back an upper-case
   * role exactly as the server sent it, while the list call lower-cases it.
   */
  lemma OnlyListNormalizes(base: string, u: User)
    requires u.role == "Admin"
    ensures GetUserById(base, u.id, Reply(true, 200, "", u)).result == Success(u)
    ensures GetUsers(base, Reply(true, 200, "", [u])).result.value[0].role == "admin"
  {
    assert Lower(u.role) == "admin";
  }

  /**
   * List and create address the collection; get, update and delete of one id
   * address the same URL below it, and no id's URL is the collection's.
   */
  lemma RequestShapes(base: string, id: int, p: UserPatch, r1: Reply<seq<User>>, r2: Reply<User>)
    ensures GetUsers(base, r1).request.url == CreateUser(base, p, r2).request.url == base
    ensures GetUserById(base, id, r2).request.url == UpdateUser(base, id, p, r2).request.url
         == DeleteUser(base, id, r2).request.url
    ensures UserUrl(base, id) != base
  {
  }
}
