/**
 * List operations on `User[]` shared by the three API handlers and the client
 * store: `findIndex`/`find` by id, `Math.max` over the ids, `splice(i, 1)`,
 * and the `map`/`filter` by id of libs/hooks/src/useUsers.ts.
 */
module UserList {
  import opened Wrappers
  import opened UserModel

  /** `users.findIndex(u => u.id === id)`, with -1 as `None`. */
  function FirstIndexOf(users: seq<User>, id: int): (r: Option<nat>)
    ensures r.Some? ==> r.value < |users| && users[r.value].id == id
    ensures r.Some? ==> forall j :: 0 <= j < r.value ==> users[j].id != id
    ensures r.None? <==> forall j :: 0 <= j < |users| ==> users[j].id != id
    decreases |users|
  {
    if users == [] then None
    else if users[0].id == id then Some(0)
    else match FirstIndexOf(users[1..], id)
      case None => None
      case Some(k) => Some(k + 1)
  }

  /** `users.find(u => u.id === id)`: the element at the first matching index. */
  function FindById(users: seq<User>, id: int): (r: Option<User>)
    ensures r.Some? <==> FirstIndexOf(users, id).Some?
    ensures r.Some? ==> r.value == users[FirstIndexOf(users, id).value]
  {
    match FirstIndexOf(users, id)
    case None => None
    case Some(i) => Some(users[i])
  }

  /** `Math.max(...users.map(u => u.id))` for a non-empty list. */
  function MaxId(users: seq<User>): (m: int)
    requires |users| > 0
    ensures forall j :: 0 <= j < |users| ==> users[j].id <= m
    ensures exists j :: 0 <= j < |users| && users[j].id == m
    decreases |users|
  {
    if |users| == 1 then users[0].id
    else
      var rest := MaxId(users[1..]);
      assert forall j :: 1 <= j < |users| ==> users[j] == users[1..][j - 1];
      if users[0].id >= rest then users[0].id else rest
  }

  /** The id of a new user: one more than the largest id, or 1 for an empty list. */
  function NextId(users: seq<User>): (r: int)
    ensures users == [] ==> r == 1
    ensures users != [] ==> r == MaxId(users) + 1
  {
    if |users| > 0 then MaxId(users) + 1 else 1
  }

  /** The next id differs from (is larger than) every id already in the list. */
  lemma NextIdIsFresh(users: seq<User>)
    ensures forall j :: 0 <= j < |users| ==> users[j].id < NextId(users)
  {
  }

  /** `Math.max(...users.map(u => u.id), 0)`: the largest id, or 0 if it is larger. */
  function MaxIdOrZero(users: seq<User>): (m: int)
    ensures m >= 0
    ensures forall j :: 0 <= j < |users| ==> users[j].id <= m
    ensures m == 0 || exists j :: 0 <= j < |users| && users[j].id == m
  {
    if users == [] then 0 else if MaxId(users) > 0 then MaxId(users) else 0
  }

  /** `users.splice(i, 1)`: what is left after removing position `i`. */
  function RemoveAt(users: seq<User>, i: nat): (r: seq<User>)
    requires i < |users|
    ensures |r| == |users| - 1
    ensures forall j :: 0 <= j < i ==> r[j] == users[j]
    ensures forall j :: i <= j < |r| ==> r[j] == users[j + 1]
  {
    users[..i] + users[i + 1..]
  }

  /** `users.map(u => (u.id === id ? replacement : u))` */
  function ReplaceById(users: seq<User>, id: int, replacement: User): (r: seq<User>)
    ensures |r| == |users|
    ensures forall j :: 0 <= j < |users| ==> r[j] == (if users[j].id == id then replacement else users[j])
    decreases |users|
  {
    if users == [] then []
    else [if users[0].id == id then replacement else users[0]] + ReplaceById(users[1..], id, replacement)
  }

  /** `users.filter(u => u.id !== id)` */
  function FilterOutId(users: seq<User>, id: int): (r: seq<User>)
    ensures |r| <= |users|
    ensures forall j :: 0 <= j < |r| ==> r[j].id != id
    decreases |users|
  {
    if users == [] then []
    else if users[0].id == id then FilterOutId(users[1..], id)
    else [users[0]] + FilterOutId(users[1..], id)
  }

  /** An element survives the filter exactly when it was in the list and has another id. */
  lemma {:induction false} FilterOutIdMembers(users: seq<User>, id: int, u: User)
    ensures u in FilterOutId(users, id) <==> u in users && u.id != id
    decreases |users|
  {
    if users != [] {
      FilterOutIdMembers(users[1..], id, u);
      assert users == [users[0]] + users[1..];
    }
  }

  /** Filtering distributes over concatenation, so the kept elements stay in their order. */
  lemma {:induction false} FilterOutIdAppend(a: seq<User>, b: seq<User>, id: int)
    ensures FilterOutId(a + b, id) == FilterOutId(a, id) + FilterOutId(b, id)
    decreases |a|
  {
    if a == [] {
      assert a + b == b;
    } else {
      assert (a + b)[1..] == a[1..] + b;
      FilterOutIdAppend(a[1..], b, id);
    }
  }

  /** A list without the id is left as it is. */
  lemma {:induction false} FilterOutAbsentId(users: seq<User>, id: int)
    requires forall j :: 0 <= j < |users| ==> users[j].id != id
    ensures FilterOutId(users, id) == users
    decreases |users|
  {
    if users != [] {
      FilterOutAbsentId(users[1..], id);
    }
  }

  /** Filtering out the id of the one element that carries it leaves the rest. */
  lemma FilterOutSingle(pre: seq<User>, x: User, post: seq<User>)
    requires forall j :: 0 <= j < |pre| ==> pre[j].id != x.id
    requires forall j :: 0 <= j < |post| ==> post[j].id != x.id
    ensures FilterOutId(pre + [x] + post, x.id) == pre + post
  {
    var id := x.id;
    assert FilterOutId([x], id) == [] by {
      assert [x][1..] == [];
    }
    calc {
      FilterOutId(pre + [x] + post, id);
      { FilterOutIdAppend(pre + [x], post, id); }
      FilterOutId(pre + [x], id) + FilterOutId(post, id);
      { FilterOutIdAppend(pre, [x], id); }
      FilterOutId(pre, id) + FilterOutId([x], id) + FilterOutId(post, id);
      { FilterOutAbsentId(pre, id); FilterOutAbsentId(post, id); }
      pre + [] + post;
      { assert pre + [] == pre; }
      pre + post;
    }
  }

  /**
   * When ids are unique, filtering by id removes exactly the element `splice`
   * would remove.
   */
  lemma FilterOutUniqueId(users: seq<User>, i: nat)
    requires i < |users|
    requires forall j :: 0 <= j < |users| && j != i ==> users[j].id != users[i].id
    ensures FilterOutId(users, users[i].id) == RemoveAt(users, i)
  {
    var pre, post := users[..i], users[i + 1..];
    assert users == pre + [users[i]] + post;
    forall j | 0 <= j < |pre|
      ensures pre[j].id != users[i].id
    {
      assert pre[j] == users[j];
    }
    forall j | 0 <= j < |post|
      ensures post[j].id != users[i].id
    {
      assert post[j] == users[i + 1 + j];
    }
    FilterOutSingle(pre, users[i], post);
    assert RemoveAt(users, i) == pre + post;
  }

  /** No two users share an id. */
  predicate UniqueIds(users: seq<User>)
  {
    forall i, j :: 0 <= i < j < |users| ==> users[i].id != users[j].id
  }

  /** In a list with unique ids, the first match is the only match. */
  lemma {:induction false} FirstIndexOfUnique(users: seq<User>, i: nat)
    requires UniqueIds(users) && i < |users|
    ensures FirstIndexOf(users, users[i].id) == Some(i)
  {
    var r := FirstIndexOf(users, users[i].id);
    assert r.Some?;
  }

  /** Appending a record with the next id keeps the ids unique. */
  lemma AppendNextIdUnique(users: seq<User>, u: User)
    requires UniqueIds(users) && u.id == NextId(users)
    ensures UniqueIds(users + [u])
  {
    NextIdIsFresh(users);
  }
}
