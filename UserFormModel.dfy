/**
 * The add / edit user form of apps/web/src/features/users/components/UserForm.tsx:
 * a partial user record, updated one key at a time and submitted as it
 * stands, with its select fields taken from
 * apps/web/src/features/users/table/userFilters.ts.
 */
module UserFormModel {
  import opened Wrappers
  import opened UserModel

  /** The string-valued keys of `User` that `handleChange` can set. */
  datatype FormKey = NameKey | EmailKey | RoleKey | StatusKey | TeamKey | AvatarKey | CreatedAtKey

  /** `formData[key]` */
  function Field(p: UserPatch, key: FormKey): Option<string>
  {
    match key
    case NameKey => p.name
    case EmailKey => p.email
    case RoleKey => p.role
    case StatusKey => p.status
    case TeamKey => p.team
    case AvatarKey => p.avatar
    case CreatedAtKey => p.createdAt
  }

  /** `{ ...p, [key]: value }`: the key now holds the value, every other key (the id too) is as it was. */
  function WithField(p: UserPatch, key: FormKey, value: string): (r: UserPatch)
    ensures Field(r, key) == Some(value)
    ensures forall k :: k != key ==> Field(r, k) == Field(p, k)
    ensures r.id == p.id
  {
    match key
    case NameKey => p.(name := Some(value))
    case EmailKey => p.(email := Some(value))
    case RoleKey => p.(role := Some(value))
    case StatusKey => p.(status := Some(value))
    case TeamKey => p.(team := Some(value))
    case AvatarKey => p.(avatar := Some(value))
    case CreatedAtKey => p.(createdAt := Some(value))
  }

  /** Two patches are the same when they agree on the id and on every string key. */
  lemma PatchesEqual(p: UserPatch, q: UserPatch)
    requires p.id == q.id
    requires forall k :: Field(p, k) == Field(q, k)
    ensures p == q
  {
    assert Field(p, NameKey) == Field(q, NameKey) && Field(p, EmailKey) == Field(q, EmailKey);
    assert Field(p, RoleKey) == Field(q, RoleKey) && Field(p, StatusKey) == Field(q, StatusKey);
    assert Field(p, TeamKey) == Field(q, TeamKey) && Field(p, AvatarKey) == Field(q, AvatarKey);
    assert Field(p, CreatedAtKey) == Field(q, CreatedAtKey);
  }

  /** A later change of the same key overrides the earlier one. */
  lemma WithFieldTwice(p: UserPatch, key: FormKey, v: string, w: string)
    ensures WithField(WithField(p, key, v), key, w) == WithField(p, key, w)
  {
    PatchesEqual(WithField(WithField(p, key, v), key, w), WithField(p, key, w));
  }

  /** Changes of two different keys commute. */
  lemma WithFieldCommutes(p: UserPatch, k1: FormKey, v1: string, k2: FormKey, v2: string)
    requires k1 != k2
    ensures WithField(WithField(p, k1, v1), k2, v2) == WithField(WithField(p, k2, v2), k1, v1)
  {
    PatchesEqual(WithField(WithField(p, k1, v1), k2, v2), WithField(WithField(p, k2, v2), k1, v1));
  }

  /** `initialData || {}`: the user being edited with every key present, or the empty record. */
  function InitialFormData(initialData: Option<User>): (p: UserPatch)
    ensures initialData.None? ==> forall k :: Field(p, k) == None
    ensures initialData.None? ==> p.id == None
    ensures initialData.Some? ==> Sets(p, initialData.value) && p.id == Some(initialData.value.id)
    ensures initialData.Some? ==> forall k :: Field(p, k).Some?
  {
    match initialData
    case None => EmptyPatch
    case Some(u) => AsPatch(u)
  }

  /** `formData[key] || ''`: the text a field shows. */
  function Shown(p: UserPatch, key: FormKey): (text: string)
    ensures Field(p, key).None? ==> text == ""
    ensures Field(p, key).Some? ==> text == Field(p, key).value
  {
    Field(p, key).GetOr("")
  }

  /** After a change the changed field shows the new text and every other field shows what it did. */
  lemma ShownAfterChange(p: UserPatch, key: FormKey, value: string)
    ensures Shown(WithField(p, key, value), key) == value
    ensures forall k :: k != key ==> Shown(WithField(p, key, value), k) == Shown(p, k)
  {
  }

  /** An edit form starts out showing the user's own values. */
  lemma EditFormShowsUser(u: User)
    ensures Shown(InitialFormData(Some(u)), NameKey) == u.name
    ensures Shown(InitialFormData(Some(u)), EmailKey) == u.email
    ensures Shown(InitialFormData(Some(u)), RoleKey) == u.role
    ensures Shown(InitialFormData(Some(u)), TeamKey) == u.team
    ensures Shown(InitialFormData(Some(u)), StatusKey) == u.status
  {
  }

  datatype FilterOption = FilterOption(caption: string, value: string)
  datatype UserFilter = UserFilter(columnKey: string, caption: string, options: seq<FilterOption>)

  /** `userFilters` */
  const UserFilters: seq<UserFilter> := [
    UserFilter("role", "Role", [
      FilterOption("Admin", "admin"), FilterOption("Editor", "editor"), FilterOption("Viewer", "viewer")]),
    UserFilter("team", "Team", [
      FilterOption("Design", "design"), FilterOption("Development", "development"),
      FilterOption("Finance", "finance"), FilterOption("HR", "hr"),
      FilterOption("Management", "management"), FilterOption("Marketing", "marketing"),
      FilterOption("Sales", "sales")]),
    UserFilter("status", "Status", [
      FilterOption("Active", "active"), FilterOption("Inactive", "inactive")])
  ]

  /** `columnKey as keyof User`, for the keys the form can set. */
  function KeyOf(columnKey: string): Option<FormKey>
  {
    if columnKey == "name" then Some(NameKey)
    else if columnKey == "email" then Some(EmailKey)
    else if columnKey == "role" then Some(RoleKey)
    else if columnKey == "status" then Some(StatusKey)
    else if columnKey == "team" then Some(TeamKey)
    else if columnKey == "avatar" then Some(AvatarKey)
    else if columnKey == "createdAt" then Some(CreatedAtKey)
    else None
  }

  function ValuesOf(options: seq<FilterOption>): (vs: seq<string>)
    ensures |vs| == |options| && forall i :: 0 <= i < |options| ==> vs[i] == options[i].value
  {
    seq(|options|, i requires 0 <= i < |options| => options[i].value)
  }

  /** The form's fields in the order they are laid out: name, email, then one select per filter. */
  function FormFields(filters: seq<UserFilter>): seq<Option<FormKey>>
  {
    [Some(NameKey), Some(EmailKey)] + seq(|filters|, i requires 0 <= i < |filters| => KeyOf(filters[i].columnKey))
  }

  /**
   * The selects are role, team and status, in that order, every one a key the
   * form can set; a select offers the values of its filter's options.
   */
  lemma SelectFields()
    ensures FormFields(UserFilters) == [Some(NameKey), Some(EmailKey), Some(RoleKey), Some(TeamKey), Some(StatusKey)]
    ensures ValuesOf(UserFilters[0].options) == ["admin", "editor", "viewer"]
    ensures ValuesOf(UserFilters[2].options) == ["active", "inactive"]
    ensures |UserFilters[1].options| == 7
  {
    assert KeyOf("role") == Some(RoleKey) && KeyOf("team") == Some(TeamKey) && KeyOf("status") == Some(StatusKey);
  }

  class UserForm {
    /** `formData` */
    var formData: UserPatch

    /** Mounting the form captures the initial data once. */
    constructor (initialData: Option<User>)
      ensures formData == InitialFormData(initialData)
    {
      formData := InitialFormData(initialData);
    }

    /** `handleChange(key, value)` */
    method HandleChange(key: FormKey, value: string)
      modifies this
      ensures formData == WithField(old(formData), key, value)
    {
      formData := WithField(formData, key, value);
    }

    /** `handleSubmit`: the record handed to `onSubmit`, exactly as it stands. */
    method HandleSubmit() returns (data: UserPatch)
      ensures data == formData
    {
      data := formData;
    }

    /** The text the field for `key` shows now. */
    function DisplayValue(key: FormKey): (text: string)
      reads this
      ensures Field(formData, key).None? ==> text == ""
      ensures Field(formData, key).Some? ==> text == Field(formData, key).value
    {
      Shown(formData, key)
    }
  }

  /** Typing a name and an email into an empty form submits exactly `{ name, email }`. */
  method FillNameAndEmail(name: string, email: string) returns (submitted: UserPatch)
    ensures submitted == EmptyPatch.(name := Some(name), email := Some(email))
    ensures submitted.role == None && submitted.team == None && submitted.status == None
  {
    var form := new UserForm(None);
    form.HandleChange(NameKey, name);
    form.HandleChange(EmailKey, email);
    submitted := form.HandleSubmit();
  }

  /** Submitting an untouched form hands back its initial data: `{}` for an add form. */
  method SubmitUntouched(initialData: Option<User>) returns (submitted: UserPatch)
    ensures initialData.None? ==> submitted == EmptyPatch
    ensures initialData.Some? ==> submitted == AsPatch(initialData.value)
  {
    var form := new UserForm(initialData);
    submitted := form.HandleSubmit();
  }
}
