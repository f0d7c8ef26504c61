/**
 * The action handlers of libs/hooks/src/useUserActions.ts: each awaits the
 * store operations it wraps, in order. `calls` records which store
 * operations ran, so that "refetch is not run" can be stated; it is written
 * beside each store call, so the contracts' content lies in what they say
 * about the store's list and the result, not in the trace.
 */
module UserActions {
  import opened Wrappers
  import opened UserModel
  import opened UserList
  import opened UserService
  import opened UserStore

  /** A store operation an action invoked. */
  datatype StoreCall = AddCall | EditCall(id: int) | RemoveCall(id: int) | RefetchCall

  /** `handleAddUser`: the result of `addUser`, nothing refetched. */
  method HandleAddUser(store: UserStore, created: Result<User, ApiError>)
    returns (r: Result<User, ApiError>, calls: seq<StoreCall>)
    modifies store
    ensures r == created && calls == [AddCall]
    ensures store.users == (if created.Success? then old(store.users) + [created.value] else old(store.users))
    ensures store.loaded == old(store.loaded)
  {
    r := store.AddUser(created);
    calls := [AddCall];
  }

  /** `handleEditUser`: the result of `editUser`, nothing refetched. */
  method HandleEditUser(store: UserStore, id: int, updated: Result<User, ApiError>)
    returns (r: Result<User, ApiError>, calls: seq<StoreCall>)
    modifies store
    ensures r == updated && calls == [EditCall(id)]
    ensures store.users == (if updated.Success? then ReplaceById(old(store.users), id, updated.value) else old(store.users))
    ensures store.loaded == old(store.loaded)
  {
    r := store.EditUser(id, updated);
    calls := [EditCall(id)];
  }

  /**
   * `handleDeleteUser`: `removeUser` runs to completion, then `refetch`. If the
   * removal fails its error propagates and no refetch happens; otherwise the
   * refetch decides the final list.
   */
  method HandleDeleteUser(store: UserStore, id: int, deleted: Completion<ApiError>,
                          refetched: Result<seq<User>, ApiError>)
    returns (r: Completion<ApiError>, calls: seq<StoreCall>)
    modifies store
    ensures deleted.Failed? ==>
      r == deleted && calls == [RemoveCall(id)] &&
      store.users == old(store.users) && store.loaded == old(store.loaded)
    ensures deleted.Done? ==> calls == [RemoveCall(id), RefetchCall]
    ensures deleted.Done? && refetched.Success? ==>
      r == Done && store.users == refetched.value && store.loaded
    ensures deleted.Done? && refetched.Failure? ==>
      r == Failed(refetched.error) &&
      store.users == FilterOutId(old(store.users), id) && store.loaded == old(store.loaded)
  {
    var removed := store.RemoveUser(id, deleted);
    calls := [RemoveCall(id)];
    if removed.Failed? {
      return removed, calls;
    }
    r := store.Refetch(refetched);
    calls := calls + [RefetchCall];
  }

  /** `handleRefresh`: only `refetch`. */
  method HandleRefresh(store: UserStore, refetched: Result<seq<User>, ApiError>)
    returns (r: Completion<ApiError>, calls: seq<StoreCall>)
    modifies store
    ensures calls == [RefetchCall]
    ensures r == if refetched.Success? then Done else Failed(refetched.error)
    ensures refetched.Success? ==> store.users == refetched.value && store.loaded
    ensures refetched.Failure? ==> store.users == old(store.users) && store.loaded == old(store.loaded)
  {
    r := store.Refetch(refetched);
    calls := [RefetchCall];
  }
}
