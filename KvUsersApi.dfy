/**
 * The serverless `/api/users` handler of apps/web/api/users.mjs and the
 * `UserStorage` it reads and writes through.
 *
 * The Redis key `users` is the field `kv`: `None` when no Redis client could
 * be configured, otherwise the stored array (an absent key behaves as the
 * empty array). The users read from db.json are the constant `defaults`.
 */
module KvUsersApi {
  import opened Wrappers
  import opened UserModel
  import opened UserList
  import opened Http

  /** The two users hard-coded for when db.json cannot be read. */
  const FallbackUsers: seq<User> := [
    User(1, "John Doe", "john@example.com", "admin", "active", "engineering",
         "https://i.pravatar.cc/150?u=john@example.com", "2024-01-01T00:00:00Z"),
    User(2, "Jane Smith", "jane@example.com", "user", "active", "marketing",
         "https://i.pravatar.cc/150?u=jane@example.com", "2024-01-02T00:00:00Z")
  ]

  /** db.json as `readFileSync` + `JSON.parse` see it: unreadable, or an object whose `users` key may be missing. */
  datatype DbFile = Unreadable | Parsed(users: Option<seq<User>>)

  /** `loadDefaultUsers`: `db.users || []`, or the hard-coded users when reading fails. */
  function LoadDefaultUsers(db: DbFile): (r: seq<User>)
    ensures db.Unreadable? ==> r == FallbackUsers
    ensures db.Parsed? && db.users.Some? ==> r == db.users.value
    ensures db.Parsed? && db.users.None? ==> r == []
  {
    match db
    case Unreadable => FallbackUsers
    case Parsed(users) => users.GetOr([])
  }

  /** The list `getAll` returns when the store answers: the stored list, or the defaults when there is none. */
  function ListedOf(defaults: seq<User>, kv: Option<seq<User>>): (r: seq<User>)
    ensures kv.Some? && kv.value != [] ==> r == kv.value
    ensures kv.None? || kv.value == [] ==> r == defaults
  {
    if kv.Some? && kv.value != [] then kv.value else defaults
  }

  /** The store after `save(users)`: written when there is a client, untouched otherwise. */
  function Persist(kv: Option<seq<User>>, users: seq<User>): (r: Option<seq<User>>)
    ensures kv.None? ==> r.None?
    ensures kv.Some? ==> r == Some(users)
  {
    if kv.None? then None else Some(users)
  }

  /** `value || fallback` for an optional string: an absent key and `""` are both falsy. */
  function OrDefault(v: Option<string>, fallback: string): (r: string)
    ensures v.Some? && v.value != "" ==> r == v.value
    ensures v.None? || v.value == "" ==> r == fallback
  {
    if v.Some? && v.value != "" then v.value else fallback
  }

  /** `${req.body.email}`: an absent e-mail prints as `undefined`. */
  function AvatarFor(email: Option<string>): (r: string)
    ensures email.Some? ==> r == AvatarPrefix + email.value
    ensures email.None? ==> r == AvatarPrefix + "undefined"
  {
    AvatarPrefix + email.GetOr("undefined")
  }

  /** The record POST builds from the body for the current list `users` at time `now`. */
  function Created(users: seq<User>, body: UserPatch, now: string): (u: User)
    ensures u.id == NextId(users)
    ensures forall j :: 0 <= j < |users| ==> users[j].id != u.id
    ensures u.name == body.name.GetOr("") && u.email == body.email.GetOr("")
    ensures u.role == OrDefault(body.role, "viewer")
    ensures u.status == OrDefault(body.status, "active")
    ensures u.team == OrDefault(body.team, "General")
    ensures u.avatar == AvatarFor(body.email) && u.createdAt == now
  {
    NextIdIsFresh(users);
    User(NextId(users), body.name.GetOr(""), body.email.GetOr(""),
         OrDefault(body.role, "viewer"), OrDefault(body.status, "active"),
         OrDefault(body.team, "General"), AvatarFor(body.email), now)
  }

  /** `id` names a user of the list (`parseInt(id)` equals some stored id). */
  predicate Matches(users: seq<User>, id: IdParam)
  {
    id.Id? && FirstIndexOf(users, id.n).Some?
  }

  /** GET: the whole list without an id, otherwise the first user with that id or 404. */
  function GetOutcome(users: seq<User>, id: IdParam): (o: Exchange)
    ensures o.users == users
    ensures id.NoId? ==> o.response == Response(200, UsersJson(users), [])
    ensures !id.NoId? && !Matches(users, id) ==> o.response == Response(404, ErrorJson(NotFound), [])
    ensures Matches(users, id) ==>
      o.response == Response(200, UserJson(users[FirstIndexOf(users, id.n).value]), [])
  {
    match id
    case NoId => Exchange(Response(200, UsersJson(users), []), users)
    case NotANumber => Exchange(Response(404, ErrorJson(NotFound), []), users)
    case Id(n) =>
      match FindById(users, n)
      case None => Exchange(Response(404, ErrorJson(NotFound), []), users)
      case Some(u) => Exchange(Response(200, UserJson(u), []), users)
  }

  /** POST: exactly one new record, appended at the end, answered with 201. */
  function PostOutcome(users: seq<User>, body: UserPatch, now: string): (o: Exchange)
    ensures |o.users| == |users| + 1 && o.users[..|users|] == users
    ensures o.users[|users|] == Created(users, body, now)
    ensures o.response == Response(201, UserJson(Created(users, body, now)), [])
  {
    var u := Created(users, body, now);
    Exchange(Response(201, UserJson(u), []), users + [u])
  }

  /** PUT and PATCH: 400 without an id, 404 for an unknown one, otherwise the first match is shallow-merged. */
  function UpdateOutcome(users: seq<User>, id: IdParam, body: UserPatch): (o: Exchange)
    ensures id.NoId? ==> o == Exchange(Response(400, ErrorJson(IdRequired), []), users)
    ensures !id.NoId? && !Matches(users, id) ==> o == Exchange(Response(404, ErrorJson(NotFound), []), users)
    ensures Matches(users, id) ==>
      var i := FirstIndexOf(users, id.n).value;
      && |o.users| == |users|
      && o.users[i] == Merge(users[i], body)
      && (forall j :: 0 <= j < |users| && j != i ==> o.users[j] == users[j])
      && o.response == Response(200, UserJson(Merge(users[i], body)), [])
  {
    match id
    case NoId => Exchange(Response(400, ErrorJson(IdRequired), []), users)
    case NotANumber => Exchange(Response(404, ErrorJson(NotFound), []), users)
    case Id(n) =>
      match FirstIndexOf(users, n)
      case None => Exchange(Response(404, ErrorJson(NotFound), []), users)
      case Some(i) =>
        var merged := Merge(users[i], body);
        Exchange(Response(200, UserJson(merged), []), users[i := merged])
  }

  /** DELETE: 400 without an id, 404 for an unknown one, otherwise the first match is removed and returned. */
  function DeleteOutcome(users: seq<User>, id: IdParam): (o: Exchange)
    ensures id.NoId? ==> o == Exchange(Response(400, ErrorJson(IdRequired), []), users)
    ensures !id.NoId? && !Matches(users, id) ==> o == Exchange(Response(404, ErrorJson(NotFound), []), users)
    ensures Matches(users, id) ==>
      var i := FirstIndexOf(users, id.n).value;
      && o.users == RemoveAt(users, i)
      && o.response == Response(200, UserJson(users[i]), [])
  {
    match id
    case NoId => Exchange(Response(400, ErrorJson(IdRequired), []), users)
    case NotANumber => Exchange(Response(404, ErrorJson(NotFound), []), users)
    case Id(n) =>
      match FirstIndexOf(users, n)
      case None => Exchange(Response(404, ErrorJson(NotFound), []), users)
      case Some(i) => Exchange(Response(200, UserJson(users[i]), []), RemoveAt(users, i))
  }

  /** The verbs listed in the `Allow` header of a 405. */
  const AllowedMethods: seq<string> := ["GET", "POST", "PUT", "PATCH", "DELETE", "OPTIONS"]

  /** The verbs the switch handles; anything else is a 405. */
  predicate Supported(m: Method)
  {
    !m.Other?
  }

  /** `POST /api/users?action=reset` */
  predicate IsReset(req: Request)
  {
    req.verb == Post && req.action == Some("reset")
  }

  /** `UserStorage`: the Redis key `users` and the defaults from db.json. */
  class UserStorage {
    const defaults: seq<User>
    var kv: Option<seq<User>>

    constructor (db: DbFile, kv: Option<seq<User>>)
      ensures defaults == LoadDefaultUsers(db) && this.kv == kv
    {
      defaults := LoadDefaultUsers(db);
      this.kv := kv;
    }

    /** The list every request that reads the store works on. */
    function Listed(): seq<User>
      reads this
    {
      ListedOf(defaults, kv)
    }

    /**
     * `getAll`: the stored list when it is non-empty; a copy of the defaults
     * without a client, when the read throws (`fault`), or when the stored
     * list is empty, in which last case the defaults are also written back.
     */
    method GetAll(fault: bool) returns (users: seq<User>)
      modifies this
      ensures kv.None? == old(kv).None?
      ensures old(kv).None? || fault ==> users == defaults && kv == old(kv)
      ensures old(kv).Some? && !fault && old(kv).value == [] ==> users == defaults && kv == Some(defaults)
      ensures old(kv).Some? && !fault && old(kv).value != [] ==> users == old(kv).value && kv == old(kv)
      ensures !fault ==> users == old(Listed()) && kv == Persist(old(kv), users)
    {
      if kv.None? {
        users := defaults;
        return;
      }
      if fault {
        users := defaults;
        return;
      }
      var stored := kv.value;
      if stored == [] {
        Save(defaults);
        users := defaults;
        return;
      }
      users := stored;
    }

    /** `save`: writes the list when there is a client. */
    method Save(users: seq<User>)
      modifies this
      ensures kv == Persist(old(kv), users)
    {
      if kv.Some? {
        kv := Some(users);
      }
    }

    /** `resetToDefault`: overwrites the store with the defaults; false without a client. */
    method ResetToDefault() returns (ok: bool)
      modifies this
      ensures ok == old(kv).Some?
      ensures kv == if ok then Some(defaults) else old(kv)
    {
      if kv.None? {
        return false;
      }
      kv := Some(defaults);
      return true;
    }

    /** `getNextId`: reads the list again and returns the id a new record gets. */
    method GetNextId() returns (id: int)
      modifies this
      ensures id == NextId(old(Listed()))
      ensures Listed() == old(Listed()) && kv == Persist(old(kv), old(Listed()))
    {
      var users := GetAll(false);
      if |users| > 0 {
        id := MaxId(users) + 1;
      } else {
        id := 1;
      }
    }
  }

  /** The GET branch. */
  method HandleGet(storage: UserStorage, id: IdParam) returns (res: Response)
    modifies storage
    ensures res == GetOutcome(old(storage.Listed()), id).response
    ensures storage.kv == Persist(old(storage.kv), old(storage.Listed()))
  {
    var users := storage.GetAll(false);
    if id.NoId? {
      return Response(200, UsersJson(users), []);
    }
    var found := if id.Id? then FindById(users, id.n) else None;
    if found.None? {
      return Response(404, ErrorJson(NotFound), []);
    }
    return Response(200, UserJson(found.value), []);
  }

  /** The POST branch: push the new record and save. */
  method HandlePost(storage: UserStorage, body: UserPatch, now: string) returns (res: Response)
    modifies storage
    ensures var o := PostOutcome(old(storage.Listed()), body, now);
      res == o.response && storage.kv == Persist(old(storage.kv), o.users)
  {
    var users := storage.GetAll(false);
    var id := storage.GetNextId();
    var newUser := User(id, body.name.GetOr(""), body.email.GetOr(""),
                        if body.role.Some? && body.role.value != "" then body.role.value else "viewer",
                        if body.status.Some? && body.status.value != "" then body.status.value else "active",
                        if body.team.Some? && body.team.value != "" then body.team.value else "General",
                        AvatarPrefix + body.email.GetOr("undefined"), now);
    users := users + [newUser];
    storage.Save(users);
    res := Response(201, UserJson(newUser), []);
  }

  /** The PUT/PATCH branch: overwrite the first match with the merge and save. */
  method HandleUpdate(storage: UserStorage, id: IdParam, body: UserPatch) returns (res: Response)
    modifies storage
    ensures var o := UpdateOutcome(old(storage.Listed()), id, body);
      res == o.response &&
      storage.kv == if id.NoId? then old(storage.kv) else Persist(old(storage.kv), o.users)
  {
    if id.NoId? {
      return Response(400, ErrorJson(IdRequired), []);
    }
    var users := storage.GetAll(false);
    var index := if id.Id? then FirstIndexOf(users, id.n) else None;
    if index.None? {
      return Response(404, ErrorJson(NotFound), []);
    }
    var i := index.value;
    users := users[i := Merge(users[i], body)];
    storage.Save(users);
    res := Response(200, UserJson(users[i]), []);
  }

  /** The DELETE branch: splice out the first match and save. */
  method HandleDelete(storage: UserStorage, id: IdParam) returns (res: Response)
    modifies storage
    ensures var o := DeleteOutcome(old(storage.Listed()), id);
      res == o.response &&
      storage.kv == if id.NoId? then old(storage.kv) else Persist(old(storage.kv), o.users)
  {
    if id.NoId? {
      return Response(400, ErrorJson(IdRequired), []);
    }
    var users := storage.GetAll(false);
    var index := if id.Id? then FirstIndexOf(users, id.n) else None;
    if index.None? {
      return Response(404, ErrorJson(NotFound), []);
    }
    var i := index.value;
    var deletedUser := users[i];
    users := users[..i] + users[i + 1..];
    storage.Save(users);
    res := Response(200, UserJson(deletedUser), []);
  }

  /** `handler`: preflight, the reset endpoint, then the switch on the verb. */
  method Handle(storage: UserStorage, req: Request, now: string) returns (res: Response)
    modifies storage
    ensures req.verb == Options ==> res == Response(200, NoBody, []) && storage.kv == old(storage.kv)
    ensures IsReset(req) && old(storage.kv).None? ==>
      res == Response(500, ErrorJson("Failed to reset database"), []) && storage.kv == old(storage.kv)
    ensures IsReset(req) && old(storage.kv).Some? ==>
      res == Response(200, ResetJson("Database reset successfully", |storage.defaults|, storage.defaults), [])
      && storage.kv == Some(storage.defaults)
    ensures !Supported(req.verb) ==>
      res == Response(405, ErrorJson(NotAllowed(req.verb)), AllowedMethods) && storage.kv == old(storage.kv)
    ensures req.verb == Get ==>
      res == GetOutcome(old(storage.Listed()), req.id).response
      && storage.kv == Persist(old(storage.kv), old(storage.Listed()))
    ensures req.verb == Post && !IsReset(req) ==>
      var o := PostOutcome(old(storage.Listed()), req.body, now);
      res == o.response && storage.kv == Persist(old(storage.kv), o.users)
    ensures req.verb in {Put, Patch} ==>
      var o := UpdateOutcome(old(storage.Listed()), req.id, req.body);
      res == o.response &&
      storage.kv == if req.id.NoId? then old(storage.kv) else Persist(old(storage.kv), o.users)
    ensures req.verb == Delete ==>
      var o := DeleteOutcome(old(storage.Listed()), req.id);
      res == o.response &&
      storage.kv == if req.id.NoId? then old(storage.kv) else Persist(old(storage.kv), o.users)
  {
    if req.verb == Options {
      return Response(200, NoBody, []);
    }
    if IsReset(req) {
      var success := storage.ResetToDefault();
      if success {
        var users := storage.GetAll(false);
        return Response(200, ResetJson("Database reset successfully", |users|, users), []);
      } else {
        return Response(500, ErrorJson("Failed to reset database"), []);
      }
    }
    match req.verb {
      case Get => res := HandleGet(storage, req.id);
      case Post => res := HandlePost(storage, req.body, now);
      case Put => res := HandleUpdate(storage, req.id, req.body);
      case Patch => res := HandleUpdate(storage, req.id, req.body);
      case Delete => res := HandleDelete(storage, req.id);
      case Other(_) => res := Response(405, ErrorJson(NotAllowed(req.verb)), AllowedMethods);
    }
  }

  /** After a POST, a GET of the new id finds exactly the record POST answered with. */
  lemma PostThenGet(users: seq<User>, body: UserPatch, now: string)
    ensures var o := PostOutcome(users, body, now);
      var u := Created(users, body, now);
      GetOutcome(o.users, Id(u.id)).response == Response(200, UserJson(u), [])
  {
    var o := PostOutcome(users, body, now);
    var u := Created(users, body, now);
    var r := FirstIndexOf(o.users, u.id);
    assert o.users[|users|] == u;
    assert r.Some?;
    assert r.value == |users|;
  }

  /**
   * After a successful PUT/PATCH that does not rename the id, a GET of that
   * id answers exactly the merge of the old record and the body.
   */
  lemma UpdateThenGet(users: seq<User>, n: int, body: UserPatch)
    requires Matches(users, Id(n))
    requires body.id.None? || body.id == Some(n)
    ensures var i := FirstIndexOf(users, n).value;
      var o := UpdateOutcome(users, Id(n), body);
      GetOutcome(o.users, Id(n)).response == Response(200, UserJson(Merge(users[i], body)), [])
  {
    var i := FirstIndexOf(users, n).value;
    var o := UpdateOutcome(users, Id(n), body);
    var r := FirstIndexOf(o.users, n);
    assert o.users[i].id == n;
    assert r.Some?;
    assert r.value == i;
  }

  /** With unique ids, once a user is deleted a GET of its id is a 404. */
  lemma DeleteThenGet(users: seq<User>, n: int)
    requires UniqueIds(users) && Matches(users, Id(n))
    ensures var o := DeleteOutcome(users, Id(n));
      o.response.status == 200 && GetOutcome(o.users, Id(n)).response.status == 404
  {
    var i := FirstIndexOf(users, n).value;
    var o := DeleteOutcome(users, Id(n));
    forall j | 0 <= j < |o.users|
      ensures o.users[j].id != n
    {
      if j < i {
        assert o.users[j] == users[j];
      } else {
        assert o.users[j] == users[j + 1];
      }
    }
  }

  /**
   * POST and DELETE keep ids unique whatever the body says; PUT/PATCH does so
   * as long as its body carries no id.
   */
  lemma HandlersKeepIdsUnique(users: seq<User>, id: IdParam, body: UserPatch, now: string)
    requires UniqueIds(users)
    ensures UniqueIds(PostOutcome(users, body, now).users)
    ensures body.id.None? ==> UniqueIds(UpdateOutcome(users, id, body).users)
    ensures UniqueIds(DeleteOutcome(users, id).users)
  {
    AppendNextIdUnique(users, Created(users, body, now));
    assert PostOutcome(users, body, now).users == users + [Created(users, body, now)];
    var d := DeleteOutcome(users, id).users;
    if Matches(users, id) {
      var i := FirstIndexOf(users, id.n).value;
      forall a, b | 0 <= a < b < |d|
        ensures d[a].id != d[b].id
      {
        var a' := if a < i then a else a + 1;
        var b' := if b < i then b else b + 1;
        assert d[a] == users[a'] && d[b] == users[b'];
      }
    }
  }
}
