/**
 * The msw request handlers of libs/mocks/src/handlers.ts: an in-memory test
 * server over `let users`, seeded with three users and reset between tests.
 */
module MockServer {
  import opened Wrappers
  import opened UserModel
  import opened UserList
  import opened Http

  /** `mockUsers`, the seed the list starts from and is reset to. */
  const MockUsers: seq<User> := [
    User(1, "John Doe", "john.doe@example.com", "admin", "active", "engineering",
         "https://i.pravatar.cc/150?u=johndoe", "2024-01-01T00:00:00Z"),
    User(2, "Jane Smith", "jane.smith@example.com", "editor", "active", "marketing",
         "https://i.pravatar.cc/150?u=janesmith", "2024-01-02T00:00:00Z"),
    User(3, "Bob Johnson", "bob.johnson@example.com", "viewer", "inactive", "finance",
         "https://i.pravatar.cc/150?u=bobjohnson", "2024-01-03T00:00:00Z")
  ]

  /** The seed carries the ids 1, 2, 3, in that order, so its ids are distinct. */
  lemma MockUsersIds()
    ensures |MockUsers| == 3
    ensures forall j :: 0 <= j < 3 ==> MockUsers[j].id == j + 1
    ensures UniqueIds(MockUsers)
  {
  }

  /** `Math.max(...users.map(u => u.id), 0) + 1` */
  function MockNextId(users: seq<User>): (r: int)
    ensures r >= 1
    ensures users == [] ==> r == 1
    ensures forall j :: 0 <= j < |users| ==> users[j].id < r
  {
    MaxIdOrZero(users) + 1
  }

  /**
   * `{ ...newUser, id, createdAt }`: the server's id and timestamp override
   * whatever the body carries; every other field comes from the body.
   */
  function Created(users: seq<User>, body: UserPatch, now: string): (u: User)
    ensures u.id == MockNextId(users) && u.createdAt == now
    ensures Sets(body.(id := None, createdAt := None), u)
    ensures u.name == body.name.GetOr("") && u.email == body.email.GetOr("")
    ensures u.role == body.role.GetOr("") && u.status == body.status.GetOr("")
    ensures u.team == body.team.GetOr("") && u.avatar == body.avatar.GetOr("")
  {
    User(MockNextId(users), body.name.GetOr(""), body.email.GetOr(""), body.role.GetOr(""),
         body.status.GetOr(""), body.team.GetOr(""), body.avatar.GetOr(""), now)
  }

  /** `new HttpResponse('User not found', { status: 404 })` */
  const NotFoundResponse: Response := Response(404, Text(NotFound), [])

  /** GET /api/users/:id, `id` being `Number(params.id)` (`None` for `NaN`). */
  function GetByIdOutcome(users: seq<User>, id: Option<int>): (o: Exchange)
    ensures o.users == users
    ensures id.None? || FindById(users, id.value).None? ==> o.response == NotFoundResponse
    ensures id.Some? && FindById(users, id.value).Some? ==>
      o.response == Response(200, UserJson(users[FirstIndexOf(users, id.value).value]), [])
  {
    if id.None? then Exchange(NotFoundResponse, users)
    else match FindById(users, id.value)
      case None => Exchange(NotFoundResponse, users)
      case Some(u) => Exchange(Response(200, UserJson(u), []), users)
  }

  /** POST /api/users: the new record is appended and answered with 201. */
  function CreateOutcome(users: seq<User>, body: UserPatch, now: string): (o: Exchange)
    ensures o.users == users + [Created(users, body, now)]
    ensures o.response == Response(201, UserJson(Created(users, body, now)), [])
  {
    var u := Created(users, body, now);
    Exchange(Response(201, UserJson(u), []), users + [u])
  }

  /** PUT /api/users/:id: 404 for an unknown id, otherwise only the first match is shallow-merged. */
  function UpdateOutcome(users: seq<User>, id: Option<int>, updates: UserPatch): (o: Exchange)
    ensures id.None? || FirstIndexOf(users, id.value).None? ==> o == Exchange(NotFoundResponse, users)
    ensures id.Some? && FirstIndexOf(users, id.value).Some? ==>
      var i := FirstIndexOf(users, id.value).value;
      && |o.users| == |users|
      && o.users[i] == Merge(users[i], updates)
      && (forall j :: 0 <= j < |users| && j != i ==> o.users[j] == users[j])
      && o.response == Response(200, UserJson(Merge(users[i], updates)), [])
  {
    if id.None? then Exchange(NotFoundResponse, users)
    else match FirstIndexOf(users, id.value)
      case None => Exchange(NotFoundResponse, users)
      case Some(i) =>
        var merged := Merge(users[i], updates);
        Exchange(Response(200, UserJson(merged), []), users[i := merged])
  }

  /** DELETE /api/users/:id: 404 for an unknown id, otherwise the first match is removed and 204 sent with no body. */
  function DeleteOutcome(users: seq<User>, id: Option<int>): (o: Exchange)
    ensures id.None? || FirstIndexOf(users, id.value).None? ==> o == Exchange(NotFoundResponse, users)
    ensures id.Some? && FirstIndexOf(users, id.value).Some? ==>
      o == Exchange(Response(204, NoBody, []), RemoveAt(users, FirstIndexOf(users, id.value).value))
  {
    if id.None? then Exchange(NotFoundResponse, users)
    else match FirstIndexOf(users, id.value)
      case None => Exchange(NotFoundResponse, users)
      case Some(i) => Exchange(Response(204, NoBody, []), RemoveAt(users, i))
  }

  /** Creating on any list keeps ids unique, whatever id the body tries to set. */
  lemma CreateKeepsIdsUnique(users: seq<User>, body: UserPatch, now: string)
    requires UniqueIds(users)
    ensures UniqueIds(CreateOutcome(users, body, now).users)
  {
    var u := Created(users, body, now);
    assert CreateOutcome(users, body, now).users == users + [u];
  }

  /** The test server: `let users = [...mockUsers]`. */
  class MockUserServer {
    var users: seq<User>

    constructor ()
      ensures users == MockUsers
    {
      users := MockUsers;
    }

    /** GET /api/users */
    method GetAll() returns (res: Response)
      ensures res == Response(200, UsersJson(users), [])
    {
      res := Response(200, UsersJson(users), []);
    }

    method GetById(id: Option<int>) returns (res: Response)
      ensures res == GetByIdOutcome(users, id).response
    {
      var user := if id.Some? then FindById(users, id.value) else None;
      if user.None? {
        return NotFoundResponse;
      }
      return Response(200, UserJson(user.value), []);
    }

    /** POST /api/users; `now` is `new Date().toISOString()`. */
    method Create(body: UserPatch, now: string) returns (res: Response)
      modifies this
      ensures var o := CreateOutcome(old(users), body, now); res == o.response && users == o.users
    {
      var user := User(MaxIdOrZero(users) + 1, body.name.GetOr(""), body.email.GetOr(""),
                       body.role.GetOr(""), body.status.GetOr(""), body.team.GetOr(""),
                       body.avatar.GetOr(""), now);
      users := users + [user];
      res := Response(201, UserJson(user), []);
    }

    method Update(id: Option<int>, updates: UserPatch) returns (res: Response)
      modifies this
      ensures var o := UpdateOutcome(old(users), id, updates); res == o.response && users == o.users
    {
      var userIndex := if id.Some? then FirstIndexOf(users, id.value) else None;
      if userIndex.None? {
        return NotFoundResponse;
      }
      var i := userIndex.value;
      users := users[i := Merge(users[i], updates)];
      res := Response(200, UserJson(users[i]), []);
    }

    method Delete(id: Option<int>) returns (res: Response)
      modifies this
      ensures var o := DeleteOutcome(old(users), id); res == o.response && users == o.users
    {
      var userIndex := if id.Some? then FirstIndexOf(users, id.value) else None;
      if userIndex.None? {
        return NotFoundResponse;
      }
      var i := userIndex.value;
      users := users[..i] + users[i + 1..];
      res := Response(204, NoBody, []);
    }

    /** `resetUsers`: back to a fresh copy of the seed, whatever happened before. */
    method ResetUsers()
      modifies this
      ensures users == MockUsers
    {
      users := MockUsers;
    }
  }
}
