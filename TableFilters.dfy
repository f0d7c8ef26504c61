/**
 * The row predicates and column definitions of the users data table:
 * `globalFilterFn` and the initial table state of
 * apps/web/src/features/users/components/UserDataTable.tsx, and the column
 * list of apps/web/src/features/users/table/userTableColumns.tsx.
 */
module TableFilters {
  import opened Wrappers
  import opened Ascii
  import opened UserModel
  import opened StringUtils

  /** `text.toLowerCase().includes(filterValue.toLowerCase())` */
  predicate MatchesText(text: string, filterValue: string): (r: bool)
    ensures filterValue == "" ==> r
    ensures r ==> |filterValue| <= |text|
  {
    Contains(Lower(text), Lower(filterValue))
  }

  /** `MatchesText` holds exactly when the lower-cased filter occurs somewhere in the lower-cased text. */
  lemma MatchesTextIff(text: string, filterValue: string)
    ensures MatchesText(text, filterValue) ==> exists i :: OccursAt(Lower(text), Lower(filterValue), i)
    ensures (exists i :: OccursAt(Lower(text), Lower(filterValue), i)) ==> MatchesText(text, filterValue)
  {
    ContainsIff(Lower(text), Lower(filterValue));
  }

  /** `globalFilterFn`: the lower-cased name or the lower-cased email contains the lower-cased filter. */
  predicate GlobalFilter(u: User, filterValue: string): (r: bool)
    ensures filterValue == "" ==> r
    ensures r ==> |filterValue| <= |u.name| || |filterValue| <= |u.email|
  {
    MatchesText(u.name, filterValue) || MatchesText(u.email, filterValue)
  }

  /** A row passes the global filter exactly when the filter occurs in its lower-cased name or email. */
  lemma GlobalFilterIff(u: User, filterValue: string)
    ensures GlobalFilter(u, filterValue) <==>
      (exists i :: OccursAt(Lower(u.name), Lower(filterValue), i)) ||
      (exists i :: OccursAt(Lower(u.email), Lower(filterValue), i))
  {
    MatchesTextIff(u.name, filterValue);
    MatchesTextIff(u.email, filterValue);
  }

  /** Only the name and the email are consulted. */
  lemma GlobalFilterReadsNameAndEmail(u: User, v: User, filterValue: string)
    requires u.name == v.name && u.email == v.email
    ensures GlobalFilter(u, filterValue) == GlobalFilter(v, filterValue)
  {
  }

  /** Letter case matters neither in the filter nor in the row's name and email. */
  lemma GlobalFilterCaseInsensitive(u: User, filterValue: string)
    ensures GlobalFilter(u, Upper(filterValue)) == GlobalFilter(u, filterValue)
    ensures GlobalFilter(u, Lower(filterValue)) == GlobalFilter(u, filterValue)
    ensures GlobalFilter(u.(name := Upper(u.name), email := Upper(u.email)), filterValue)
         == GlobalFilter(u, filterValue)
  {
    LowerOfUpper(filterValue);
    LowerIdempotent(filterValue);
    LowerOfUpper(u.name);
    LowerOfUpper(u.email);
  }

  /** The rows the global filter lets through, in their original order. */
  function FilterRows(rows: seq<User>, filterValue: string): (r: seq<User>)
    ensures |r| <= |rows|
    ensures forall j :: 0 <= j < |r| ==> GlobalFilter(r[j], filterValue)
  {
    if rows == [] then []
    else (if GlobalFilter(rows[0], filterValue) then [rows[0]] else []) + FilterRows(rows[1..], filterValue)
  }

  /** A row is kept exactly when it was a row and passes the filter. */
  lemma {:induction false} FilterRowsMembers(rows: seq<User>, filterValue: string, u: User)
    ensures u in FilterRows(rows, filterValue) <==> u in rows && GlobalFilter(u, filterValue)
  {
    if rows != [] {
      FilterRowsMembers(rows[1..], filterValue, u);
      assert rows == [rows[0]] + rows[1..];
    }
  }

  /** Filtering with the same text twice keeps the same rows as filtering once. */
  lemma {:induction false} FilterRowsIdempotent(rows: seq<User>, filterValue: string)
    ensures FilterRows(FilterRows(rows, filterValue), filterValue) == FilterRows(rows, filterValue)
  {
    if rows != [] {
      FilterRowsIdempotent(rows[1..], filterValue);
      var tail := FilterRows(rows[1..], filterValue);
      if GlobalFilter(rows[0], filterValue) {
        assert ([rows[0]] + tail)[1..] == tail;
      } else {
        assert [] + tail == tail;
      }
    }
  }

  /** A text whose characters after the first include no `j` or `J` does not match "jane". */
  lemma NoJaneAfterFirst(text: string)
    requires |text| >= 2 && text[1] != 'a' && text[1] != 'A'
    requires forall i :: 1 <= i < |text| ==> text[i] != 'j' && text[i] != 'J'
    ensures !MatchesText(text, "jane")
  {
    var n := Lower(text);
    assert Lower("jane") == "jane";
    assert n[1] != 'a';
    if |n| >= 4 {
      assert n[..4][1] != "jane"[1];
    }
    forall i | 0 <= i < |n[1..]|
      ensures n[1..][i] != 'j'
    {
      assert n[1..][i] == LowerChar(text[i + 1]);
    }
    LacksFirstChar(n[1..], "jane");
  }

  /** With two users, "jane" keeps only Jane Smith: it starts her name and is in neither of John Doe's fields. */
  lemma JaneScenario(john: User, jane: User)
    requires john.name == "John Doe" && john.email == "john@example.com"
    requires jane.name == "Jane Smith"
    ensures FilterRows([john, jane], "jane") == [jane]
  {
    NoJaneAfterFirst(john.name);
    NoJaneAfterFirst(john.email);
    JaneSmithMatches(jane);
    assert [john, jane][1..] == [jane];
  }

  /** "jane" starts the lower-cased name "Jane Smith". */
  lemma JaneSmithMatches(jane: User)
    requires jane.name == "Jane Smith"
    ensures GlobalFilter(jane, "jane")
  {
    var n := Lower(jane.name);
    assert Lower("jane") == "jane";
    assert n[..4] == "jane";
  }

  /** Which attribute a column shows. */
  datatype ColumnKey = NameKey | EmailKey | RoleKey | TeamKey | StatusKey | ActionsKey

  /** How a column filters rows. */
  datatype FilterKind =
    | Substring       // the repository's lower-cased `includes`
    | Equals          // the library's built-in `'equals'`
    | LibraryDefault  // no `filterFn`, the library's own choice

  /** How a column renders a cell. */
  datatype CellKind =
    | ViewDetailsButton  // the name, as a button opening the details view
    | PlainValue         // the library's default rendering of the value
    | Capitalized        // `capitalize` of the value
    | ActionsMenu        // the edit / delete menu

  datatype Column = Column(key: ColumnKey, enableSorting: Option<bool>, filter: FilterKind, cell: CellKind)

  /** The array `userTableColumns` builds. */
  const UserTableColumns: seq<Column> := [
    Column(NameKey, Some(true), Substring, ViewDetailsButton),
    Column(EmailKey, Some(true), Substring, PlainValue),
    Column(RoleKey, Some(true), LibraryDefault, Capitalized),
    Column(TeamKey, Some(true), LibraryDefault, Capitalized),
    Column(StatusKey, Some(true), Equals, Capitalized),
    Column(ActionsKey, None, LibraryDefault, ActionsMenu)
  ]

  /** `row.getValue(key)` for the data columns. */
  function Value(key: ColumnKey, u: User): string
    requires key != ActionsKey
  {
    match key
    case NameKey => u.name
    case EmailKey => u.email
    case RoleKey => u.role
    case TeamKey => u.team
    case StatusKey => u.status
  }

  /** The text a data column displays for a row. */
  function CellText(c: Column, u: User): (r: string)
    requires c.key != ActionsKey
    ensures |r| == |Value(c.key, u)|
    ensures |r| > 0 ==>
      && r[1..] == Value(c.key, u)[1..]
      && (r[0] == Value(c.key, u)[0] || r[0] == UpperChar(Value(c.key, u)[0]))
  {
    if c.cell == Capitalized then Capitalize(Value(c.key, u)) else Value(c.key, u)
  }

  /** A column's `filterFn` applied to a row, for the columns that define one. */
  predicate ColumnFilter(c: Column, u: User, filterValue: string): (r: bool)
    requires c.key != ActionsKey && c.filter != LibraryDefault
    ensures r ==> |filterValue| <= |Value(c.key, u)|
    ensures c.filter == Substring && filterValue == "" ==> r
  {
    if c.filter == Substring then MatchesText(Value(c.key, u), filterValue)
    else Value(c.key, u) == filterValue
  }

  /**
   * The column order; sorting is switched on for the five data columns and
   * left unset on the actions column.
   */
  lemma ColumnsInOrder()
    ensures seq(|UserTableColumns|, i requires 0 <= i < |UserTableColumns| => UserTableColumns[i].key)
         == [NameKey, EmailKey, RoleKey, TeamKey, StatusKey, ActionsKey]
    ensures forall i :: 0 <= i < 5 ==> UserTableColumns[i].enableSorting == Some(true)
    ensures UserTableColumns[5].enableSorting == None
  {
  }

  /** Role, team and status cells show `capitalize` of the stored value; name and email show it as is. */
  lemma CellsShown(u: User)
    ensures CellText(UserTableColumns[0], u) == u.name
    ensures CellText(UserTableColumns[1], u) == u.email
    ensures CellText(UserTableColumns[2], u) == Capitalize(u.role)
    ensures CellText(UserTableColumns[3], u) == Capitalize(u.team)
    ensures CellText(UserTableColumns[4], u) == Capitalize(u.status)
  {
  }

  /**
   * The name and email columns accept a row iff the lower-cased cell contains
   * the lower-cased filter; the status column iff the status equals it. The
   * global filter is the disjunction of the name and email column filters.
   */
  lemma ColumnFilters(u: User, filterValue: string)
    ensures ColumnFilter(UserTableColumns[0], u, filterValue)
        <==> exists i :: OccursAt(Lower(u.name), Lower(filterValue), i)
    ensures ColumnFilter(UserTableColumns[1], u, filterValue)
        <==> exists i :: OccursAt(Lower(u.email), Lower(filterValue), i)
    ensures ColumnFilter(UserTableColumns[4], u, filterValue) <==> u.status == filterValue
    ensures GlobalFilter(u, filterValue) <==>
      ColumnFilter(UserTableColumns[0], u, filterValue) || ColumnFilter(UserTableColumns[1], u, filterValue)
  {
    MatchesTextIff(u.name, filterValue);
    MatchesTextIff(u.email, filterValue);
  }

  datatype SortKey = SortKey(id: ColumnKey, desc: bool)
  datatype ColumnFilterValue = ColumnFilterValue(id: ColumnKey, value: string)

  /** The table state owned by the component, and the page size it asks for. */
  datatype TableState = TableState(
    rowSelection: set<nat>,
    columnVisibility: map<ColumnKey, bool>,
    columnFilters: seq<ColumnFilterValue>,
    sorting: seq<SortKey>,
    globalFilter: string,
    pageSize: nat)

  const InitialTableState := TableState({}, map[], [], [], "", 25)

  /**
   * Nothing is sorted, selected, hidden or column-filtered at first, pages
   * hold 25 rows, and the empty global filter lets every row through.
   */
  lemma InitialStateShowsEveryRow(u: User)
    ensures InitialTableState.sorting == [] && InitialTableState.columnFilters == []
    ensures InitialTableState.rowSelection == {} && InitialTableState.columnVisibility == map[]
    ensures InitialTableState.pageSize == 25
    ensures GlobalFilter(u, InitialTableState.globalFilter)
  {
  }
}
