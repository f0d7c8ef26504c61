/**
 * The earlier draft of the `/api/users` handler, apps/web/api/users.ts: it
 * works on the module-level array read from db.json and never persists.
 * Its rules differ from users.mjs: the body may override the id, no field
 * gets a default, the avatar is random, an id of 0 counts as absent, and
 * PATCH is not supported.
 */
module DraftUsersApi {
  import opened Wrappers
  import opened UserModel
  import opened UserList
  import opened Http

  /** `query.id ? parseInt(query.id) : null`, then tested for truthiness: `NaN` and `0` are falsy. */
  function TruthyId(id: IdParam): (r: Option<int>)
    ensures r.Some? <==> id.Id? && id.n != 0
    ensures r.Some? ==> r.value == id.n
  {
    match id
    case Id(n) => if n != 0 then Some(n) else None
    case _ => None
  }

  /** A JavaScript number as `Math.max` can return it: `-Infinity` for no arguments. */
  datatype Extended = NegInfinity | Finite(n: int)

  /**
   * The id POST gives a new record AS WRITTEN: the body's id when it has one,
   * else `Math.max(...ids) + 1`, which is `-Infinity` for an empty table.
   */
  function IdAsWritten(users: seq<User>, body: UserPatch): (r: Extended)
    ensures body.id.Some? ==> r == Finite(body.id.value)
    ensures body.id.None? && users == [] ==> r == NegInfinity
    ensures body.id.None? && users != [] ==> r == Finite(MaxId(users) + 1)
  {
    if body.id.Some? then Finite(body.id.value)
    else if users == [] then NegInfinity
    else Finite(MaxId(users) + 1)
  }

  /** The as-written rule gives no integer id on an empty table when the body carries none. */
  lemma EmptyTableIdIsNotAnInteger(body: UserPatch)
    requires body.id.None?
    ensures IdAsWritten([], body) == NegInfinity
  {
  }

  /**
   * The id POST gives a new record, CORRECTED so that an empty table starts
   * at 1 as users.mjs does; everywhere else it agrees with the rule as written.
   */
  function CreatedId(users: seq<User>, body: UserPatch): (r: int)
    ensures IdAsWritten(users, body).Finite? ==> r == IdAsWritten(users, body).n
    ensures body.id.None? ==> r == NextId(users) && forall j :: 0 <= j < |users| ==> users[j].id != r
  {
    NextIdIsFresh(users);
    body.id.GetOr(NextId(users))
  }

  /**
   * `{ id, ...req.body, createdAt, avatar }`: the body overrides the computed
   * id and supplies every other field as it is; `createdAt` and `avatar`
   * are always the server's.
   */
  function Created(users: seq<User>, body: UserPatch, now: string, token: string): (u: User)
    ensures u.id == CreatedId(users, body)
    ensures Sets(body.(createdAt := None, avatar := None), u)
    ensures u.name == body.name.GetOr("") && u.email == body.email.GetOr("")
    ensures u.role == body.role.GetOr("") && u.status == body.status.GetOr("") && u.team == body.team.GetOr("")
    ensures u.createdAt == now && u.avatar == AvatarPrefix + token
  {
    User(CreatedId(users, body), body.name.GetOr(""), body.email.GetOr(""), body.role.GetOr(""),
         body.status.GetOr(""), body.team.GetOr(""), AvatarPrefix + token, now)
  }

  /** GET: the whole list unless the id is truthy, otherwise the first match or 404. */
  function GetOutcome(users: seq<User>, id: IdParam): (o: Exchange)
    ensures o.users == users
    ensures TruthyId(id).None? ==> o.response == Response(200, UsersJson(users), [])
    ensures TruthyId(id).Some? && FindById(users, TruthyId(id).value).None? ==>
      o.response == Response(404, ErrorJson(NotFound), [])
    ensures TruthyId(id).Some? && FindById(users, TruthyId(id).value).Some? ==>
      o.response == Response(200, UserJson(FindById(users, TruthyId(id).value).value), [])
  {
    match TruthyId(id)
    case None => Exchange(Response(200, UsersJson(users), []), users)
    case Some(n) =>
      match FindById(users, n)
      case None => Exchange(Response(404, ErrorJson(NotFound), []), users)
      case Some(u) => Exchange(Response(200, UserJson(u), []), users)
  }

  /** POST: one record appended at the end, answered with 201. */
  function PostOutcome(users: seq<User>, body: UserPatch, now: string, token: string): (o: Exchange)
    ensures o.users == users + [Created(users, body, now, token)]
    ensures o.response == Response(201, UserJson(Created(users, body, now, token)), [])
  {
    var u := Created(users, body, now, token);
    Exchange(Response(201, UserJson(u), []), users + [u])
  }

  /** PUT: 400 unless the id is truthy, 404 for an unknown id, otherwise the match is shallow-merged. */
  function PutOutcome(users: seq<User>, id: IdParam, body: UserPatch): (o: Exchange)
    ensures TruthyId(id).None? ==> o == Exchange(Response(400, ErrorJson(IdRequired), []), users)
    ensures TruthyId(id).Some? && FirstIndexOf(users, TruthyId(id).value).None? ==>
      o == Exchange(Response(404, ErrorJson(NotFound), []), users)
    ensures TruthyId(id).Some? && FirstIndexOf(users, TruthyId(id).value).Some? ==>
      var i := FirstIndexOf(users, TruthyId(id).value).value;
      && |o.users| == |users|
      && o.users[i] == Merge(users[i], body)
      && (forall j :: 0 <= j < |users| && j != i ==> o.users[j] == users[j])
      && o.response == Response(200, UserJson(Merge(users[i], body)), [])
  {
    match TruthyId(id)
    case None => Exchange(Response(400, ErrorJson(IdRequired), []), users)
    case Some(n) =>
      match FirstIndexOf(users, n)
      case None => Exchange(Response(404, ErrorJson(NotFound), []), users)
      case Some(i) =>
        var merged := Merge(users[i], body);
        Exchange(Response(200, UserJson(merged), []), users[i := merged])
  }

  /** DELETE: 400 unless the id is truthy, 404 for an unknown id, otherwise the match is spliced out and returned. */
  function DeleteOutcome(users: seq<User>, id: IdParam): (o: Exchange)
    ensures TruthyId(id).None? ==> o == Exchange(Response(400, ErrorJson(IdRequired), []), users)
    ensures TruthyId(id).Some? && FirstIndexOf(users, TruthyId(id).value).None? ==>
      o == Exchange(Response(404, ErrorJson(NotFound), []), users)
    ensures TruthyId(id).Some? && FirstIndexOf(users, TruthyId(id).value).Some? ==>
      var i := FirstIndexOf(users, TruthyId(id).value).value;
      o == Exchange(Response(200, UserJson(users[i]), []), RemoveAt(users, i))
  {
    match TruthyId(id)
    case None => Exchange(Response(400, ErrorJson(IdRequired), []), users)
    case Some(n) =>
      match FirstIndexOf(users, n)
      case None => Exchange(Response(404, ErrorJson(NotFound), []), users)
      case Some(i) => Exchange(Response(200, UserJson(users[i]), []), RemoveAt(users, i))
  }

  /** The verbs listed in the `Allow` header of a 405 (OPTIONS and PATCH are not among them). */
  const AllowedMethods: seq<string> := ["GET", "POST", "PUT", "DELETE"]

  /** The module-level `users` array. */
  class DraftUserTable {
    var users: seq<User>

    /** `const users = mockData.users` */
    constructor (seed: seq<User>)
      ensures users == seed
    {
      users := seed;
    }

    /**
     * `handler`. `now` is `new Date().toISOString()` and `token` the random
     * `Math.random().toString(36).substring(7)` of the avatar URL.
     */
    method Handle(req: Request, now: string, token: string) returns (res: Response)
      modifies this
      ensures req.verb == Options ==> res == Response(200, NoBody, []) && users == old(users)
      ensures req.verb == Patch || req.verb.Other? ==>
        res == Response(405, ErrorJson(NotAllowed(req.verb)), AllowedMethods) && users == old(users)
      ensures req.verb == Get ==> var o := GetOutcome(old(users), req.id); res == o.response && users == o.users
      ensures req.verb == Post ==> var o := PostOutcome(old(users), req.body, now, token); res == o.response && users == o.users
      ensures req.verb == Put ==> var o := PutOutcome(old(users), req.id, req.body); res == o.response && users == o.users
      ensures req.verb == Delete ==> var o := DeleteOutcome(old(users), req.id); res == o.response && users == o.users
    {
      var userId := TruthyId(req.id);
      match req.verb {
        case Options =>
          return Response(200, NoBody, []);
        case Get =>
          if userId.Some? {
            var user := FindById(users, userId.value);
            if user.None? {
              return Response(404, ErrorJson(NotFound), []);
            }
            return Response(200, UserJson(user.value), []);
          }
          return Response(200, UsersJson(users), []);
        case Post =>
          var newUser := User(if req.body.id.Some? then req.body.id.value else if |users| > 0 then MaxId(users) + 1 else 1, req.body.name.GetOr(""), req.body.email.GetOr(""),
                              req.body.role.GetOr(""), req.body.status.GetOr(""), req.body.team.GetOr(""),
                              AvatarPrefix + token, now);
          users := users + [newUser];
          return Response(201, UserJson(newUser), []);
        case Put =>
          if userId.None? {
            return Response(400, ErrorJson(IdRequired), []);
          }
          var userIndex := FirstIndexOf(users, userId.value);
          if userIndex.None? {
            return Response(404, ErrorJson(NotFound), []);
          }
          var i := userIndex.value;
          users := users[i := Merge(users[i], req.body)];
          return Response(200, UserJson(users[i]), []);
        case Delete =>
          if userId.None? {
            return Response(400, ErrorJson(IdRequired), []);
          }
          var deleteIndex := FirstIndexOf(users, userId.value);
          if deleteIndex.None? {
            return Response(404, ErrorJson(NotFound), []);
          }
          var i := deleteIndex.value;
          var deletedUser := users[i];
          users := users[..i] + users[i + 1..];
          return Response(200, UserJson(deletedUser), []);
        case Patch =>
          return Response(405, ErrorJson(NotAllowed(req.verb)), AllowedMethods);
        case Other(_) =>
          return Response(405, ErrorJson(NotAllowed(req.verb)), AllowedMethods);
      }
    }
  }
}
