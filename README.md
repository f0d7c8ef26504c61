# User management: a verified model

This project models the logic of a small React user-management application
and proves properties of that logic in Dafny. Users are records with an id,
name, email, role, status, team, avatar URL and creation time. The
application lists, filters, pages, creates, edits and deletes them.

The model covers the following parts:

- **The three server-side user tables behind `/api/users`.**
  - `KvUsersApi` models the Redis-backed handler and its `UserStorage`.
  - `DraftUsersApi` models the earlier draft handler over an in-memory array.
  - `MockServer` models the mock-service-worker handlers used by the tests.

  Each table is a class with a `seq<User>` field (or an optional stored list,
  for Redis). Each request is a method that changes the table in place. The
  methods are proved equal to pure functions that give the response and the
  table left behind. Properties are proved about those functions: which
  records are added, replaced or removed, the 400/404/405 paths, id
  freshness, and round trips such as "POST then GET".
- **The client API adapter (`UserService`).** For each call it models the
  verb and URL it sends, the error rule of `handleResponse`, and the
  lower-casing `getUsers` applies.
- **The client state.**
  - `UserStore` models the jotai cells and the `useUsers` mutations.
  - `UserActions` models the action handlers and the order in which they
    call the store.
  - `UserManagement` models the dialog and drawer state.
- **The table predicates and arithmetic.**
  - `TableFilters` models the global and per-column filters, the column list
    and the initial table state.
  - `Pagination` models the "Showing X to Y of N" arithmetic.
- **Helpers and the form.**
  - `StringUtils` models `capitalize` and `capitalizeWords`.
  - `UserFormModel` models the add/edit form state.

Shared pieces are:

- `Wrappers`: `Option`, `Result` and `Completion`.
- `UserModel`: the `User` record, the partial record and the shallow merge `{ ...old, ...patch }`.
- `Ascii`: `toLowerCase`, `toUpperCase` and `includes`.
- `Decimal`: rendering an integer in decimal and parsing it back.
- `UserList`: `find`, `findIndex`, `Math.max` of the ids, `splice`, `map` and `filter` over a user list.
- `Http`: the request and response shapes.

Three behaviours of the code are worth stating plainly:

- **Global filter.** `globalFilterFn` (UserDataTable.tsx:36-48) reads only the
  name and the email. Role, team and status never affect it.
- **Per-column filters.** Only the status column uses `equals`. Name and
  email use a case-insensitive substring match (userTableColumns.tsx:45-59).
  Role and team leave the choice to the table library.
- **Avatar without an email.** With no email in the body, the avatar URL of
  users.mjs ends in `undefined` (users.mjs:207).

## Model

| member | source | states |
|---|---|---|
| Http.MethodNameInjective | apps/web/api/users.mjs:257 | for well-formed verbs, the name in `req.method` determines the verb |
| UserModel.AsPatch | libs/types/src/user.ts:1-10 | the partial record of a user carries every key, each with the user's value |
| UserModel.Merge | apps/web/api/users.mjs:226 | every key the body carries takes the body's value; every key it lacks keeps the old record's value |
| UserModel.MergeUnique | apps/web/api/users.mjs:226 | those two facts determine the merge: any record meeting both is the merge |
| UserModel.MergeEmpty | apps/web/api/users.mjs:226 | merging `{}` leaves the record as it was |
| UserModel.MergeIdempotent | apps/web/api/users.mjs:226 | merging the same body twice gives the same record as once |
| UserModel.MergeFull | apps/web/api/users.mjs:226 | merging a body that has every key replaces the record by it |
| Ascii.Lower | libs/services/src/users.ts:46-48 | `toLowerCase` keeps the length and maps each character to its lower-case form |
| Ascii.Upper | libs/utils/src/stringUtils.ts:6 | `toUpperCase` keeps the length and maps each character to its upper-case form |
| Ascii.LowerIsLowerCase | libs/services/src/users.ts:46-48 | a lower-cased string holds no upper-case letter |
| Ascii.LowerOfLowerCase | libs/services/src/users.ts:46-48 | lower-casing a string without upper-case letters changes nothing |
| Ascii.LowerIdempotent | libs/services/src/users.ts:46-48 | lower-casing twice equals lower-casing once |
| Ascii.LowerOfUpper | apps/web/src/features/users/components/UserDataTable.tsx:45-46 | lower-casing an upper-cased string equals lower-casing the original |
| Ascii.Contains | apps/web/src/features/users/components/UserDataTable.tsx:45-46 | `s.includes(t)`: the empty string is always included, and a string longer than `s` never is |
| Ascii.ContainsIff | apps/web/src/features/users/components/UserDataTable.tsx:45-46 | `s.includes(t)` holds exactly when `t` occurs in `s` at some position |
| Ascii.ContainsEmpty | apps/web/src/features/users/components/UserDataTable.tsx:45-46 | every string includes the empty string |
| Ascii.ContainsSelf | apps/web/src/features/users/components/UserDataTable.tsx:45-46 | every string includes itself |
| Ascii.LacksFirstChar | apps/web/src/features/users/components/UserDataTable.tsx:45-46 | a string in which the first character of `t` never appears does not include `t` |
| Decimal.NatToString | libs/services/src/users.ts:31 | a natural number renders as a non-empty string of digits |
| Decimal.IntToString | libs/services/src/users.ts:58 | an integer renders as a non-empty string |
| Decimal.NatRoundTrip | libs/services/src/users.ts:31 | the digits of a rendered number read back to the number |
| Decimal.IntRoundTrip | libs/services/src/users.ts:58 | parsing a rendered integer, sign included, gives the integer back |
| Decimal.IntToStringInjective | libs/services/src/users.ts:58 | different integers render differently |
| UserList.FirstIndexOf | apps/web/api/users.mjs:222 | `findIndex` gives the first position whose id matches; it gives none exactly when no element has the id |
| UserList.FindById | apps/web/api/users.mjs:186 | `find` gives a user exactly when `findIndex` gives a position, and it gives the element there |
| UserList.MaxId | apps/web/api/users.mjs:135 | the maximum id is at least every id and is the id of some element |
| UserList.NextId | apps/web/api/users.mjs:135 | the next id is 1 for an empty list, otherwise the maximum id plus 1 |
| UserList.NextIdIsFresh | apps/web/api/users.mjs:132-140 | the next id is larger than every id in the list |
| UserList.MaxIdOrZero | libs/mocks/src/handlers.ts:64 | `Math.max(...ids, 0)` is non-negative, at least every id, and either 0 or some element's id |
| UserList.RemoveAt | apps/web/api/users.mjs:241 | `splice(i, 1)` shortens the list by one, keeps the elements before `i` and shifts the later ones down by one |
| UserList.ReplaceById | libs/hooks/src/useUsers.ts:46 | the list keeps its length; every element with the id becomes the replacement and the others stay |
| UserList.FilterOutId | libs/hooks/src/useUsers.ts:57 | the filter never lengthens the list and no element with the id survives |
| UserList.FilterOutIdMembers | libs/hooks/src/useUsers.ts:57 | an element survives exactly when it was in the list and has another id |
| UserList.FilterOutIdAppend | libs/hooks/src/useUsers.ts:57 | filtering a concatenation concatenates the filtered parts, so the survivors keep their order |
| UserList.FilterOutAbsentId | libs/hooks/src/useUsers.ts:57 | a list in which no element has the id is unchanged |
| UserList.FilterOutUniqueId | libs/hooks/src/useUsers.ts:57 | when only position `i` has the id, filtering it out is the same as splicing out `i` |
| UserList.FirstIndexOfUnique | apps/web/api/users.mjs:222 | with unique ids the first match for the id at position `i` is `i` |
| UserList.AppendNextIdUnique | apps/web/api/users.mjs:198-212 | appending a record that has the next id keeps the ids unique |
| KvUsersApi.LoadDefaultUsers | apps/web/api/users.mjs:11-43 | an unreadable file gives the two hard-coded users (`FallbackUsers`, lines 20-41); otherwise the result is the file's `users`, or `[]` when that key is missing |
| KvUsersApi.ListedOf | apps/web/api/users.mjs:76-96 | the stored list when it is non-empty, otherwise the defaults |
| KvUsersApi.Persist | apps/web/api/users.mjs:98-111 | saving writes the list when there is a client and changes nothing otherwise |
| KvUsersApi.OrDefault | apps/web/api/users.mjs:204-206 | the body's value unless it is absent or the empty string, then the fallback |
| KvUsersApi.AvatarFor | apps/web/api/users.mjs:207 | the avatar URL is the prefix followed by the email, or by `undefined` when there is none |
| KvUsersApi.Created | apps/web/api/users.mjs:200-209 | the new record gets the next id, which no listed user has; it takes name and email from the body; role, status and team fall back to viewer/active/General; avatar from the email; creation time now |
| KvUsersApi.GetOutcome | apps/web/api/users.mjs:180-196 | GET without an id answers the whole list; with an id it answers the first user with that id, or 404 "User not found"; the list is unchanged |
| KvUsersApi.PostOutcome | apps/web/api/users.mjs:198-213 | POST keeps the list as a prefix, appends exactly the created record, and answers it with 201 |
| KvUsersApi.UpdateOutcome | apps/web/api/users.mjs:215-229 | PUT/PATCH answers 400 without an id and 404 for an unknown one, leaving the list unchanged; otherwise only the first match becomes its merge with the body, the length is kept, and the merge is answered with 200 |
| KvUsersApi.DeleteOutcome | apps/web/api/users.mjs:231-244 | DELETE answers 400 without an id and 404 for an unknown one, leaving the list unchanged; otherwise exactly the first match is spliced out and returned with 200 |
| KvUsersApi.UserStorage.constructor | apps/web/api/users.mjs:45-70 | the defaults are what `loadDefaultUsers` returns and the store is as given |
| KvUsersApi.UserStorage.GetAll | apps/web/api/users.mjs:76-96 | the stored list when it is non-empty; the defaults without a client, on a read error, or when the store is empty, and in the empty case the defaults are also written back |
| KvUsersApi.UserStorage.Save | apps/web/api/users.mjs:98-111 | the store afterwards is the saved list when a client exists, otherwise it is unchanged |
| KvUsersApi.UserStorage.ResetToDefault | apps/web/api/users.mjs:113-130 | true and the store holds the defaults when a client exists; false and nothing changes otherwise |
| KvUsersApi.UserStorage.GetNextId | apps/web/api/users.mjs:132-140 | returns the next id of the listed users |
| KvUsersApi.HandleGet | apps/web/api/users.mjs:180-196 | answers what GetOutcome says for the listed users; the store is seeded if it was empty |
| KvUsersApi.HandlePost | apps/web/api/users.mjs:198-213 | answers what PostOutcome says and saves the list it gives |
| KvUsersApi.HandleUpdate | apps/web/api/users.mjs:215-229 | answers what UpdateOutcome says; without an id the store is not even read, otherwise the resulting list is saved |
| KvUsersApi.HandleDelete | apps/web/api/users.mjs:231-244 | answers what DeleteOutcome says; without an id the store is not even read, otherwise the resulting list is saved |
| KvUsersApi.Handle | apps/web/api/users.mjs:143-270 | OPTIONS answers 200 and touches nothing; POST with action reset answers the defaults with 200, or 500 without a client; unknown verbs answer 405 with the six-verb `Allow` header; every other verb does what its outcome function says |
| KvUsersApi.PostThenGet | apps/web/api/users.mjs:198-213 | after a POST, a GET of the new id answers exactly the created record |
| KvUsersApi.UpdateThenGet | apps/web/api/users.mjs:215-229 | after a successful update whose body does not change the id, a GET of that id answers the merge of the old record and the body |
| KvUsersApi.DeleteThenGet | apps/web/api/users.mjs:231-244 | with unique ids, after a successful DELETE a GET of that id answers 404 |
| KvUsersApi.HandlersKeepIdsUnique | apps/web/api/users.mjs:198-244 | POST and DELETE keep the ids unique whatever the body holds; PUT/PATCH does so when its body carries no id |
| DraftUsersApi.TruthyId | apps/web/api/users.ts:23 | the parsed id counts only when it is a number other than 0; `NaN`, 0 and a missing id do not |
| DraftUsersApi.IdAsWritten | apps/web/api/users.ts:42-44 | the id of a new record as written: the body's id if given, else the maximum id plus 1, which is `-Infinity` for an empty table |
| DraftUsersApi.EmptyTableIdIsNotAnInteger | apps/web/api/users.ts:43 | on an empty table, with no id in the body, the rule as written gives no integer id |
| DraftUsersApi.CreatedId | apps/web/api/users.ts:43-44 | the corrected rule agrees with the rule as written wherever that gives an integer; without a body id it gives the next id, which no existing user has |
| DraftUsersApi.Created | apps/web/api/users.ts:42-49 | the body supplies every field, its id included, except the creation time and avatar, which are always the server's |
| DraftUsersApi.GetOutcome | apps/web/api/users.ts:26-38 | without a truthy id, the whole list; with one, the first match or 404; the list is unchanged |
| DraftUsersApi.PostOutcome | apps/web/api/users.ts:40-52 | exactly the created record is appended and answered with 201 |
| DraftUsersApi.PutOutcome | apps/web/api/users.ts:54-65 | 400 without a truthy id and 404 for an unknown one, leaving the list unchanged; otherwise only the first match is merged with the body and answered with 200 |
| DraftUsersApi.DeleteOutcome | apps/web/api/users.ts:67-78 | 400 without a truthy id and 404 for an unknown one, leaving the list unchanged; otherwise the first match is spliced out and answered with 200 |
| DraftUsersApi.DraftUserTable.constructor | apps/web/api/users.ts:5 | the table starts as the seed read from db.json |
| DraftUsersApi.DraftUserTable.Handle | apps/web/api/users.ts:7-84 | OPTIONS answers 200; PATCH and unknown verbs answer 405 with a four-verb `Allow` header; GET, POST, PUT and DELETE change the table and answer exactly as their outcome functions say |
| MockServer.MockUsersIds | libs/mocks/src/handlers.ts:5-36 | the seed `MockUsers` holds three users with ids 1, 2, 3, so its ids are unique |
| MockServer.MockNextId | libs/mocks/src/handlers.ts:64 | the created id is at least 1, is 1 for an empty list, and is larger than every existing id |
| MockServer.Created | libs/mocks/src/handlers.ts:59-66 | the server's id and creation time override the body's; every other field comes from the body |
| MockServer.GetByIdOutcome | libs/mocks/src/handlers.ts:47-56 | the first user with the id, or a 404 "User not found" text response when none matches or the id is `NaN` |
| MockServer.CreateOutcome | libs/mocks/src/handlers.ts:59-70 | the created record is appended at the end and answered with 201 |
| MockServer.UpdateOutcome | libs/mocks/src/handlers.ts:73-84 | 404 with the list unchanged for an unknown id; otherwise only the first match is merged, the length is kept, and the merge is answered |
| MockServer.DeleteOutcome | libs/mocks/src/handlers.ts:87-97 | 404 with the list unchanged for an unknown id; otherwise the first match is spliced out and 204 is sent with no body |
| MockServer.CreateKeepsIdsUnique | libs/mocks/src/handlers.ts:59-70 | create keeps the ids unique, whatever id the body carries |
| MockServer.MockUserServer.constructor | libs/mocks/src/handlers.ts:38 | the working list starts as the seed |
| MockServer.MockUserServer.GetAll | libs/mocks/src/handlers.ts:42-44 | answers the current list and changes nothing |
| MockServer.MockUserServer.GetById | libs/mocks/src/handlers.ts:47-56 | answers what GetByIdOutcome says and changes nothing |
| MockServer.MockUserServer.Create | libs/mocks/src/handlers.ts:59-70 | the list and the answer are what CreateOutcome says |
| MockServer.MockUserServer.Update | libs/mocks/src/handlers.ts:73-84 | the list and the answer are what UpdateOutcome says |
| MockServer.MockUserServer.Delete | libs/mocks/src/handlers.ts:87-97 | the list and the answer are what DeleteOutcome says |
| MockServer.MockUserServer.ResetUsers | libs/mocks/src/handlers.ts:101-103 | after any history the list is the seed again |
| UserService.ApiUrl | libs/services/src/users.ts:4-12 | `/api` in production; in development `VITE_API_URL` when it is set and non-empty, otherwise the localhost URL |
| UserService.BaseUrl | libs/services/src/users.ts:14 | `BASE_URL` is the API URL followed by `/users` |
| UserService.CollectionUrls | libs/services/src/users.ts:4-14 | the collection URL is `/api/users` in production, the localhost URL plus `/users` in development without `VITE_API_URL`, and that variable plus `/users` when it is set |
| UserService.ErrorMessage | libs/services/src/users.ts:31 | the error message is the body text, or "API request failed with status N" when the body is empty |
| UserService.ErrorMessageNamesStatus | libs/services/src/users.ts:31 | with an empty body, the status can be parsed back out of the message |
| UserService.ErrorMessageInjective | libs/services/src/users.ts:31 | two empty-body failures give the same message only for the same status |
| UserService.HandleResponse | libs/services/src/users.ts:22-34 | succeeds exactly when the reply is OK, with the parsed body; otherwise fails with the message rule above |
| UserService.Normalize | libs/services/src/users.ts:44-49 | role, team and status are lower-cased; every other field is kept |
| UserService.NormalizeAll | libs/services/src/users.ts:44-49 | the list keeps its length and order, and each element is normalised |
| UserService.NormalizeSpec | libs/services/src/users.ts:44-49 | a normalised record has lower-case role, team and status, and normalising such a record changes nothing |
| UserService.NormalizeAllIdempotent | libs/services/src/users.ts:44-49 | normalising an already-normalised list is the identity |
| UserService.GetUsers | libs/services/src/users.ts:40-50 | sends GET to the collection URL; succeeds exactly when the reply is OK, every record normalised and in order |
| UserService.UserUrl | libs/services/src/users.ts:58 | a user's URL lies below the collection URL: the base, a `/`, then at least one more character |
| UserService.UserUrlInjective | libs/services/src/users.ts:58 | different ids address different URLs |
| UserService.GetUserById | libs/services/src/users.ts:57-60 | sends GET to the user's URL and returns the parsed body as it is |
| UserService.CreateUser | libs/services/src/users.ts:67-74 | sends POST with the partial record to the collection URL and returns the parsed body as it is |
| UserService.UpdateUser | libs/services/src/users.ts:82-92 | sends PATCH with the partial record to the user's URL and returns the parsed body as it is |
| UserService.DeleteUser | libs/services/src/users.ts:99-104 | sends DELETE to the user's URL and returns the parsed body as it is |
| UserService.OnlyListNormalizes | libs/services/src/users.ts:40-60 | a single-user fetch hands back "Admin" unchanged, while the list fetch lower-cases it |
| UserService.RequestShapes | libs/services/src/users.ts:40-104 | list and create use the collection URL; get, update and delete of one id use the same URL below it, and that URL is never the collection's |
| UserStore.UserStore.constructor | libs/hooks/src/atoms/users.ts:5-24 | the list starts empty and the loaded flag false |
| UserStore.UserStore.FetchUsers | libs/hooks/src/atoms/users.ts:8-21 | on success the list is replaced wholesale, the flag is set and the data is returned; a failure is rethrown with neither cell changed |
| UserStore.UserStore.Mount | libs/hooks/src/useUsers.ts:22-26 | mounting fetches exactly when the flag is false |
| UserStore.UserStore.Refetch | libs/hooks/src/useUsers.ts:28-30 | fetches whatever the flag says, and either resolves or rethrows the failure |
| UserStore.UserStore.AddUser | libs/hooks/src/useUsers.ts:32-41 | on success the created record is appended and returned; on failure the error is rethrown and the list is untouched |
| UserStore.UserStore.EditUser | libs/hooks/src/useUsers.ts:43-52 | on success every element with the id becomes the server's record; on failure the list is untouched |
| UserStore.UserStore.RemoveUser | libs/hooks/src/useUsers.ts:54-62 | on success every element with the id is dropped; on failure the list is untouched |
| UserStore.UserStore.GetUserById | libs/hooks/src/useUsers.ts:64-71 | hands the service's answer through and changes nothing |
| UserStore.EditReplacesOnlyMatches | libs/hooks/src/useUsers.ts:46 | a user with another id is still in the list after an edit |
| UserActions.HandleAddUser | libs/hooks/src/useUserActions.ts:22-28 | returns exactly what `addUser` returned and calls nothing else |
| UserActions.HandleEditUser | libs/hooks/src/useUserActions.ts:30-36 | returns exactly what `editUser` returned and calls nothing else |
| UserActions.HandleDeleteUser | libs/hooks/src/useUserActions.ts:38-44 | `removeUser` runs first; if it fails the error propagates and `refetch` never runs; otherwise `refetch` runs and decides the final list |
| UserActions.HandleRefresh | libs/hooks/src/useUserActions.ts:46-48 | calls only `refetch` |
| UserManagement.UserManagement.constructor | libs/hooks/src/useUserManagement.ts:35-40 | all three surfaces start closed with no targets |
| UserManagement.UserManagement.Mode | libs/hooks/src/useUserManagement.ts:77 | the drawer mode is edit exactly when there is a user to edit |
| UserManagement.UserManagement.OpenDeleteDialog | libs/hooks/src/useUserManagement.ts:42-45 | the delete dialog opens with that user as its target; no other field changes |
| UserManagement.UserManagement.CloseDeleteDialog | libs/hooks/src/useUserManagement.ts:47-50 | the delete dialog closes and its target is cleared; no other field changes |
| UserManagement.UserManagement.OpenAddDrawer | libs/hooks/src/useUserManagement.ts:52-55 | the drawer opens with no target, in add mode; no other field changes |
| UserManagement.UserManagement.OpenEditDrawer | libs/hooks/src/useUserManagement.ts:57-60 | the drawer opens with that user as its target, in edit mode; no other field changes |
| UserManagement.UserManagement.CloseDrawer | libs/hooks/src/useUserManagement.ts:62-65 | the drawer closes and its target is cleared; no other field changes |
| UserManagement.UserManagement.OpenShowcase | libs/hooks/src/useUserManagement.ts:67-70 | the showcase opens with that user; no other field changes |
| UserManagement.UserManagement.CloseShowcase | libs/hooks/src/useUserManagement.ts:72-75 | the showcase closes and its target is cleared; no other field changes |
| UserManagement.OpenAllThree | libs/hooks/src/useUserManagement.ts:42-75 | there is no mutual exclusion: the delete dialog, the edit drawer and the showcase can all be open at once |
| UserManagement.CancelDelete | libs/hooks/src/useUserManagement.ts:42-50 | opening the delete dialog and cancelling it returns to the all-closed state |
| TableFilters.MatchesText | apps/web/src/features/users/table/userTableColumns.tsx:45-48 | the name and email `filterFn`: the empty filter accepts, and a filter longer than the text rejects |
| TableFilters.MatchesTextIff | apps/web/src/features/users/table/userTableColumns.tsx:45-48 | the text filter accepts exactly when the lower-cased filter occurs in the lower-cased text |
| TableFilters.GlobalFilterIff | apps/web/src/features/users/components/UserDataTable.tsx:36-48 | a row passes exactly when the lower-cased filter occurs in the lower-cased name or in the lower-cased email |
| TableFilters.GlobalFilterReadsNameAndEmail | apps/web/src/features/users/components/UserDataTable.tsx:41-47 | two rows with the same name and email pass or fail together, whatever their role, team and status |
| TableFilters.GlobalFilter | apps/web/src/features/users/components/UserDataTable.tsx:36-48 | `globalFilterFn`: the empty filter lets every row through, and a row passes only if the filter is no longer than its name or its email |
| TableFilters.GlobalFilterCaseInsensitive | apps/web/src/features/users/components/UserDataTable.tsx:45-46 | changing the case of the filter, or upper-casing the row's name and email, does not change the verdict |
| TableFilters.FilterRows | apps/web/src/features/users/components/UserDataTable.tsx:72-77 | the filtered rows are never more than the rows, and each passes the global filter |
| TableFilters.FilterRowsMembers | apps/web/src/features/users/components/UserDataTable.tsx:72-77 | a row is kept exactly when it was a row and passes the global filter |
| TableFilters.FilterRowsIdempotent | apps/web/src/features/users/components/UserDataTable.tsx:72-77 | filtering twice with the same text keeps the same rows as filtering once |
| TableFilters.JaneScenario | apps/web/src/features/users/components/UserDataTable.tsx:36-48 | of John Doe and Jane Smith, the filter "jane" keeps only Jane Smith |
| TableFilters.ColumnsInOrder | apps/web/src/features/users/table/userTableColumns.tsx:19-130 | the columns of `UserTableColumns` are name, email, role, team, status, actions; sorting is on for the five data columns and unset for actions |
| TableFilters.CellText | apps/web/src/features/users/table/userTableColumns.tsx:26-85 | a cell shows its stored value at the same length; at most the first character changes, and then only to its upper-case form |
| TableFilters.CellsShown | apps/web/src/features/users/table/userTableColumns.tsx:26-85 | role, team and status cells show `capitalize` of the stored value; the name and email cells show the value as it is |
| TableFilters.ColumnFilter | apps/web/src/features/users/table/userTableColumns.tsx:45-84 | a column filter never accepts a filter longer than the cell; the substring filters accept the empty filter |
| TableFilters.ColumnFilters | apps/web/src/features/users/table/userTableColumns.tsx:45-84 | name and email accept exactly when the lower-cased filter occurs in the lower-cased cell; status accepts exactly on equality; the global filter is the disjunction of the name and email filters |
| TableFilters.InitialStateShowsEveryRow | apps/web/src/features/users/components/UserDataTable.tsx:27-65 | in `InitialTableState` there is no sorting, no column filter, no selection and no hidden column, the page size is 25, and every row passes the empty global filter |
| Pagination.CurrentPage | libs/ui/src/components/table/DataTablePagination.tsx:11 | the shown page is the zero-based index plus 1 |
| Pagination.StartRow | libs/ui/src/components/table/DataTablePagination.tsx:15 | the first row shown is index × size + 1 |
| Pagination.EndRow | libs/ui/src/components/table/DataTablePagination.tsx:16 | the last row shown is never past the total, nor past the end of the page, and is one of the two |
| Pagination.RowsShown | libs/ui/src/components/table/DataTablePagination.tsx:15-16 | a page that starts inside the data shows min(page size, rows left) rows |
| Pagination.PagesTile | libs/ui/src/components/table/DataTablePagination.tsx:15-16 | after a full page, the next page starts right after its last row |
| Pagination.EveryRowOnOnePage | libs/ui/src/components/table/DataTablePagination.tsx:15-16 | for a positive page size every row lies in the range of exactly one page, (row − 1) / size |
| Pagination.Summary | libs/ui/src/components/table/DataTablePagination.tsx:28-29 | the summary line starts with "Showing " and ends with ")" |
| Pagination.EmptyTableSummary | libs/ui/src/components/table/DataTablePagination.tsx:28-29 | with no rows the summary reads "Showing 1 to 0 of 0 results (Page 1 of T)" |
| StringUtils.Capitalize | libs/utils/src/stringUtils.ts:4-7 | the empty word stays empty; otherwise the first character is upper-cased and the rest kept, at the same length |
| StringUtils.CapitalizeIdempotent | libs/utils/src/stringUtils.ts:4-7 | capitalising twice equals capitalising once |
| StringUtils.Split | libs/utils/src/stringUtils.ts:15 | `split(' ')` gives at least one piece and no piece holds a space |
| StringUtils.Join | libs/utils/src/stringUtils.ts:17 | `join(' ')` is as long as all the pieces together plus one space between each two |
| StringUtils.JoinSplit | libs/utils/src/stringUtils.ts:15-17 | joining the pieces with spaces gives the string back |
| StringUtils.MapCapitalize | libs/utils/src/stringUtils.ts:16 | each piece is capitalised, in order |
| StringUtils.CapitalizeWords | libs/utils/src/stringUtils.ts:12-18 | `capitalizeWords` keeps the length of the sentence |
| StringUtils.CapitalizeFrom | libs/utils/src/stringUtils.ts:12-18 | the reference walk keeps the length |
| StringUtils.JoinCapitalizedSplit | libs/utils/src/stringUtils.ts:14-17 | split, capitalise and join equal the reference walk that upper-cases each character starting a segment |
| StringUtils.CapitalizeWordsIsCapitalizeFrom | libs/utils/src/stringUtils.ts:12-18 | `capitalizeWords` is the reference walk started at a segment start |
| StringUtils.CapitalizeFromAt | libs/utils/src/stringUtils.ts:12-18 | the walk upper-cases exactly the characters that start a segment |
| StringUtils.CapitalizeWordsAt | libs/utils/src/stringUtils.ts:12-18 | `capitalizeWords` keeps the length and every space, upper-cases the first character and each one after a space, and keeps the others |
| StringUtils.CapitalizeWordsOneWord | libs/utils/src/stringUtils.ts:12-18 | without spaces `capitalizeWords` is `capitalize` |
| UserFormModel.WithField | apps/web/src/features/users/components/UserForm.tsx:23-25 | the changed key holds the new value and every other key, the id included, is as it was |
| UserFormModel.WithFieldTwice | apps/web/src/features/users/components/UserForm.tsx:23-25 | a later change of the same key overrides the earlier one |
| UserFormModel.WithFieldCommutes | apps/web/src/features/users/components/UserForm.tsx:23-25 | changes of two different keys commute |
| UserFormModel.InitialFormData | apps/web/src/features/users/components/UserForm.tsx:21 | without initial data every key is absent; with a user every key is present with the user's values |
| UserFormModel.Shown | apps/web/src/features/users/components/UserForm.tsx:43 | a field shows its stored value, or the empty string when the key is absent |
| UserFormModel.ShownAfterChange | apps/web/src/features/users/components/UserForm.tsx:43-66 | after a change the changed field shows the new value and every other field shows what it showed before |
| UserFormModel.EditFormShowsUser | apps/web/src/features/users/components/UserForm.tsx:21-66 | an edit form starts out showing the user's name, email, role, team and status |
| UserFormModel.ValuesOf | apps/web/src/features/users/components/UserForm.tsx:77-81 | a select offers its options' values, in order |
| UserFormModel.SelectFields | apps/web/src/features/users/components/UserForm.tsx:62-85 | the fields are name, email, then the role, team and status selects in that order, with the options of `UserFilters` (userFilters.ts) |
| UserFormModel.UserForm.constructor | apps/web/src/features/users/components/UserForm.tsx:21 | the form state is the initial user, or `{}`, captured once |
| UserFormModel.UserForm.HandleChange | apps/web/src/features/users/components/UserForm.tsx:23-25 | the state becomes the old state with that one key set |
| UserFormModel.UserForm.DisplayValue | apps/web/src/features/users/components/UserForm.tsx:43 | a field shows the stored value of its key, or the empty string when the key is absent |
| UserFormModel.UserForm.HandleSubmit | apps/web/src/features/users/components/UserForm.tsx:27-30 | submits the current state unchanged |
| UserFormModel.FillNameAndEmail | apps/web/src/features/users/components/UserForm.tsx:21-30 | typing a name and an email into an empty form submits exactly `{ name, email }` |
| UserFormModel.SubmitUntouched | apps/web/src/features/users/components/UserForm.tsx:27-30 | an untouched add form submits `{}`, and an untouched edit form submits the user |

## Left out

- Network, file, Redis and clock access are parameters, not effects.
  - The db.json contents are a `DbFile` value.
  - The Redis key is an optional stored list.
  - A failing Redis read is the `fault` argument of `GetAll`.
  - `new Date().toISOString()` is `now`.
  - Each awaited service call is the value it resolved or rejected with.
- KvUsersApi.Handle: the handler methods assume every Redis read and write succeeds. The catch blocks that fall back to the defaults are modelled only in `GetAll`.
- The generic 500 "Internal server error" answer of users.mjs (lines 259-269) is left out. The model assumes every request body is an object. A request without one makes `req.body.name` (users.mjs:202) throw, which leads to that 500. No other modelled step can throw once storage errors are caught.
- KvUsersApi.UserStorage.GetNextId: its catch branch returning 1 is not modelled, because `getAll` never throws.
- CORS headers and logging are left out. They do not affect any answer or any stored state.
- Fields that a body omits and JavaScript would store as `undefined` are stored as the empty string, because `User` has only required fields.
- The model also assumes that bodies and stored records hold only the fields of `User`. Extra JSON keys, which a spread would copy, are not represented.
- DraftUsersApi.Created: for a POST without a body id to an empty table this uses the corrected rule `CreatedId` and gives id 1. The code as written gives `-Infinity`, sent as `null`; that rule is `DraftUsersApi.IdAsWritten`, listed under "## Findings".
- DraftUsersApi.DraftUserTable.Handle: its POST branch uses the same corrected rule, so on an empty table it answers id 1 where users.ts:43 gives `-Infinity`.
- UserService.HandleResponse: the JSON body of an OK reply is assumed to parse. In the code, a 2xx reply without a body makes `response.json()` (users.ts:33) reject. The mock DELETE's 204 (handlers.ts:96) is such a reply, so `deleteUser` against the mock rejects and `handleDeleteUser` never refetches.
- Keys set to `null` in a JSON body are not represented. In the code a spread copies `null` over the old value, and the avatar template prints `null`. `Option` stands only for absent keys and absent parameters.
- DraftUsersApi.Created: the avatar's random part `Math.random().toString(36).substring(7)` is the parameter `token`.
- The `id` query parameter is already classified as absent, a number, or `NaN`. How `parseInt` reads a particular string is not modelled, and neither is `Number(id)` in handlers.ts.
- `Math.max` over ids that are not integers is not modelled.
- TanStack table internals are not modelled:
  - sorting, and the tri-state sort toggle;
  - the library's default filter for the role and team columns;
  - combining several column filters;
  - the page count, and the next/previous guards;
  - row selection.

  `FilterRows` stands in only for applying the global filter.
- `UserDataTable.tsx` passes the `userTableColumns` factory itself, not an array built from it. The model uses the array the factory builds.
- Rendering is not modelled: markup, labels, aria attributes, the drawer, the dialog, the showcase and the pages.
- UserStore: React's render snapshots are not modelled. `useUsers` closures read the `users` of their last render; this model reads the current cell.
- Concurrent mutations, and races between two in-flight requests, are not modelled.
- UserFormModel.UserForm.constructor: the `initialData` prop is captured once, exactly as in the code. The test expectation that the form re-syncs on a new `initialData` is not met by the code, and the model follows the code.
- Some `UserForm.test.tsx` expectations about labels and aria attributes concern rendering only and are not modelled.
- UserFormModel.WithField: `handleChange` accepts every key of `User`, but the form calls it only with string keys. The `id` key, which would store a string in a numeric field, is left out.
- `toLowerCase` and `toUpperCase` map only the ASCII letters. Unicode case mapping is not modelled.

## Findings

| source | as written | input that shows it | evidently intended | confidence | as-written member | corrected member |
|---|---|---|---|---|---|---|
| apps/web/api/users.ts:43 | the new id is `Math.max(...users.map(u => u.id)) + 1` | POST without an `id` to an empty table: `Math.max()` is `-Infinity`, so the record's id is `-Infinity` | an empty table starts at id 1, as users.mjs does | not executed | DraftUsersApi.EmptyTableIdIsNotAnInteger | DraftUsersApi.CreatedId |
