/**
 * The `User` record of libs/types/src/user.ts and the partial records
 * (request bodies, form state) that are shallow-merged over it.
 */
module UserModel {
  import opened Wrappers

  /** A stored user: every field of the TypeScript interface, all required. */
  datatype User = User(
    id: int,
    name: string,
    email: string,
    role: string,
    status: string,
    team: string,
    avatar: string,
    createdAt: string)

  /**
   * A `Partial<User>`: a JSON object that may carry any subset of the user's
   * keys. `None` is an absent key.
   */
  datatype UserPatch = UserPatch(
    id: Option<int>,
    name: Option<string>,
    email: Option<string>,
    role: Option<string>,
    status: Option<string>,
    team: Option<string>,
    avatar: Option<string>,
    createdAt: Option<string>)

  /** `{}` */
  const EmptyPatch: UserPatch := UserPatch(None, None, None, None, None, None, None, None)

  /** The user's own record seen as a partial record with every key present. */
  function AsPatch(u: User): (p: UserPatch)
    ensures p.id == Some(u.id) && p.name == Some(u.name) && p.email == Some(u.email)
    ensures p.role == Some(u.role) && p.status == Some(u.status) && p.team == Some(u.team)
    ensures p.avatar == Some(u.avatar) && p.createdAt == Some(u.createdAt)
  {
    UserPatch(Some(u.id), Some(u.name), Some(u.email), Some(u.role), Some(u.status),
              Some(u.team), Some(u.avatar), Some(u.createdAt))
  }

  /** Every key present in the patch (used for "the body set this key"). */
  predicate Sets(p: UserPatch, u: User)
  {
    && (p.id.Some? ==> u.id == p.id.value)
    && (p.name.Some? ==> u.name == p.name.value)
    && (p.email.Some? ==> u.email == p.email.value)
    && (p.role.Some? ==> u.role == p.role.value)
    && (p.status.Some? ==> u.status == p.status.value)
    && (p.team.Some? ==> u.team == p.team.value)
    && (p.avatar.Some? ==> u.avatar == p.avatar.value)
    && (p.createdAt.Some? ==> u.createdAt == p.createdAt.value)
  }

  /** Every key absent from the patch keeps the value it had in `prev`. */
  predicate KeepsAbsent(p: UserPatch, prev: User, u: User)
  {
    && (p.id.None? ==> u.id == prev.id)
    && (p.name.None? ==> u.name == prev.name)
    && (p.email.None? ==> u.email == prev.email)
    && (p.role.None? ==> u.role == prev.role)
    && (p.status.None? ==> u.status == prev.status)
    && (p.team.None? ==> u.team == prev.team)
    && (p.avatar.None? ==> u.avatar == prev.avatar)
    && (p.createdAt.None? ==> u.createdAt == prev.createdAt)
  }

  /** The shallow merge `{ ...prev, ...p }`: the later spread wins key by key. */
  function Merge(prev: User, p: UserPatch): (u: User)
    ensures Sets(p, u) && KeepsAbsent(p, prev, u)
  {
    User(
      p.id.GetOr(prev.id),
      p.name.GetOr(prev.name),
      p.email.GetOr(prev.email),
      p.role.GetOr(prev.role),
      p.status.GetOr(prev.status),
      p.team.GetOr(prev.team),
      p.avatar.GetOr(prev.avatar),
      p.createdAt.GetOr(prev.createdAt))
  }

  /** `Sets` and `KeepsAbsent` together pin the merge down: nothing else satisfies both. */
  lemma MergeUnique(prev: User, p: UserPatch, u: User)
    requires Sets(p, u) && KeepsAbsent(p, prev, u)
    ensures u == Merge(prev, p)
  {
  }

  /** Merging `{}` changes nothing. */
  lemma MergeEmpty(prev: User)
    ensures Merge(prev, EmptyPatch) == prev
  {
  }

  /** Merging the same body twice is the same as merging it once. */
  lemma MergeIdempotent(prev: User, p: UserPatch)
    ensures Merge(Merge(prev, p), p) == Merge(prev, p)
  {
  }

  /** Merging a full record replaces the old one completely. */
  lemma MergeFull(prev: User, u: User)
    ensures Merge(prev, AsPatch(u)) == u
  {
  }
}
