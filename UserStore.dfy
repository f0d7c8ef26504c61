/**
 * The process-wide user cache: the two jotai cells of
 * libs/hooks/src/atoms/users.ts (`usersAtom`, `usersLoadedAtom`) with the
 * `fetchUsersAtom` write action, and the mutation helpers of
 * libs/hooks/src/useUsers.ts that update the list after each awaited
 * service call succeeds. Each awaited call is a parameter: what the service
 * resolved or rejected with.
 */
module UserStore {
  import opened Wrappers
  import opened UserModel
  import opened UserList
  import opened UserService

  class UserStore {
    /** `usersAtom` */
    var users: seq<User>
    /** `usersLoadedAtom` */
    var loaded: bool

    /** Both cells at their initial values: no users, not loaded. */
    constructor ()
      ensures users == [] && !loaded
    {
      users := [];
      loaded := false;
    }

    /**
     * `fetchUsersAtom`'s write: on success the list is replaced wholesale,
     * the flag is set, and the data is returned; a failure is rethrown and
     * touches neither cell.
     */
    method FetchUsers(fetched: Result<seq<User>, ApiError>) returns (r: Result<seq<User>, ApiError>)
      modifies this
      ensures r == fetched
      ensures fetched.Success? ==> users == fetched.value && loaded
      ensures fetched.Failure? ==> users == old(users) && loaded == old(loaded)
    {
      match fetched {
        case Success(data) =>
          users := data;
          loaded := true;
          r := Success(data);
        case Failure(e) =>
          r := Failure(e);
      }
    }

    /** The mount effect: fetch only when the list was never loaded. */
    method Mount(fetched: Result<seq<User>, ApiError>) returns (triggered: bool)
      modifies this
      ensures triggered == !old(loaded)
      ensures !triggered ==> users == old(users) && loaded == old(loaded)
      ensures triggered && fetched.Success? ==> users == fetched.value && loaded
      ensures triggered && fetched.Failure? ==> users == old(users) && !loaded
    {
      triggered := !loaded;
      if triggered {
        var _ := FetchUsers(fetched);
      }
    }

    /** `refetch`: fetch whatever the flag says; resolves with nothing or rethrows. */
    method Refetch(fetched: Result<seq<User>, ApiError>) returns (r: Completion<ApiError>)
      modifies this
      ensures r == if fetched.Success? then Done else Failed(fetched.error)
      ensures fetched.Success? ==> users == fetched.value && loaded
      ensures fetched.Failure? ==> users == old(users) && loaded == old(loaded)
    {
      var data := FetchUsers(fetched);
      r := if data.Success? then Done else Failed(data.error);
    }

    /** `addUser`: append the created record and return it; on failure rethrow with the list untouched. */
    method AddUser(created: Result<User, ApiError>) returns (r: Result<User, ApiError>)
      modifies this`users
      ensures r == created
      ensures created.Success? ==> users == old(users) + [created.value]
      ensures created.Failure? ==> users == old(users)
    {
      if created.Success? {
        users := users + [created.value];
      }
      r := created;
    }

    /** `editUser`: every element with the id becomes the server's record; on failure the list is untouched. */
    method EditUser(id: int, updated: Result<User, ApiError>) returns (r: Result<User, ApiError>)
      modifies this`users
      ensures r == updated
      ensures updated.Success? ==> users == ReplaceById(old(users), id, updated.value)
      ensures updated.Failure? ==> users == old(users)
    {
      if updated.Success? {
        users := ReplaceById(users, id, updated.value);
      }
      r := updated;
    }

    /** `removeUser`: drop every element with the id; on failure the list is untouched. */
    method RemoveUser(id: int, deleted: Completion<ApiError>) returns (r: Completion<ApiError>)
      modifies this`users
      ensures r == deleted
      ensures deleted.Done? ==> users == FilterOutId(old(users), id)
      ensures deleted.Failed? ==> users == old(users)
    {
      if deleted.Done? {
        users := FilterOutId(users, id);
      }
      r := deleted;
    }

    /** `getUserById`: hands the service's answer through; the cache is not consulted or changed. */
    method GetUserById(fetched: Result<User, ApiError>) returns (r: Result<User, ApiError>)
      ensures r == fetched
    {
      r := fetched;
    }
  }

  /** After an edit the record with the id is the server's, and elements with other ids are as they were. */
  lemma {:induction false} EditReplacesOnlyMatches(before: seq<User>, id: int, updated: User, u: User)
    requires u in before && u.id != id
    ensures u in ReplaceById(before, id, updated)
  {
    var i :| 0 <= i < |before| && before[i] == u;
    assert ReplaceById(before, id, updated)[i] == u;
  }
}
