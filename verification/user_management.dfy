/**
 * The user-management page: the query filters sent to the user query, the
 * row removal after a delete, the company role shown for a row, and the
 * page state changes made by the filter and search handlers.
 */
module UserManagement {
  import opened Optional
  import opened JsValues

  // ---------------------------------------------------------------------------
  // Page state and query filters

  /** The component state the filters and handlers read and write. */
  datatype PageState = PageState(
    currentPage: int,
    pageSize: int,
    searchByTermUser: JsValue,
    searchValueUsers: string,
    networksearchUsers: string,
    filterByOrganisationType: JsValue,
    filterByRole: JsValue)

  /** The state the page starts in. */
  const InitialState := PageState(1, 10, Str("name"), "", "", Str("All"), Str("All"))

  /** One query clause: `{ key, operation, value }`. */
  datatype Clause = Clause(key: JsValue, operation: string, value: JsValue)

  const All := Str("All")

  /** A search is present when the search key is neither null nor empty and the submitted text is not empty. */
  predicate SearchPresent(st: PageState) {
    st.searchByTermUser != Null && st.searchByTermUser != Str("") && st.networksearchUsers != ""
  }

  function SearchClause(st: PageState): Clause {
    Clause(st.searchByTermUser, "=", Str(st.networksearchUsers))
  }

  function RoleClause(st: PageState): Clause {
    Clause(Str("role"), "=", st.filterByRole)
  }

  function OrganisationClause(st: PageState): Clause {
    Clause(Str("companyRole"), "=", st.filterByOrganisationType)
  }

  /** Every clause compares with `=`. */
  predicate AllEquality(clauses: seq<Clause>) {
    forall i :: 0 <= i < |clauses| ==> clauses[i].operation == "="
  }

  /**
   * `filterAnd`: the search clause first when a search is present, then
   * the role and organisation-type clauses of the filters that are not
   * 'All'; nothing when both filters are 'All'.
   */
  function FilterAnd(st: PageState): (r: Option<seq<Clause>>)
    ensures r.Some? <==> st.filterByRole != All || st.filterByOrganisationType != All
    ensures r.Some? ==> AllEquality(r.value)
    ensures r.Some? ==> |r.value| == (if SearchPresent(st) then 1 else 0)
                                    + (if st.filterByRole != All then 1 else 0)
                                    + (if st.filterByOrganisationType != All then 1 else 0)
    ensures r.Some? && SearchPresent(st) ==> r.value[0] == SearchClause(st)
  {
    var search := SearchPresent(st);
    if search && st.filterByRole != All && st.filterByOrganisationType != All then
      Some([SearchClause(st), RoleClause(st), OrganisationClause(st)])
    else if search && st.filterByRole != All then
      Some([SearchClause(st), RoleClause(st)])
    else if search && st.filterByOrganisationType != All then
      Some([SearchClause(st), OrganisationClause(st)])
    else if st.filterByOrganisationType != All && st.filterByRole != All then
      Some([OrganisationClause(st), RoleClause(st)])
    else if st.filterByOrganisationType != All then
      Some([OrganisationClause(st)])
    else if st.filterByRole != All then
      Some([RoleClause(st)])
    else
      None
  }

  /**
   * `filterOr`: the single search clause when a search is present and both
   * filters are 'All', and nothing otherwise, so it is never sent together
   * with `filterAnd`.
   */
  function FilterOr(st: PageState): (r: Option<seq<Clause>>)
    ensures r.Some? <==> SearchPresent(st) && st.filterByOrganisationType == All && st.filterByRole == All
    ensures r.Some? ==> r.value == [SearchClause(st)] && AllEquality(r.value)
    ensures r.Some? ==> FilterAnd(st).None?
  {
    if SearchPresent(st) && st.filterByOrganisationType == All && st.filterByRole == All then
      Some([SearchClause(st)])
    else
      None
  }

  /**
   * When the search key is not itself one of the filter keys, the clauses
   * of `filterAnd` say exactly which filters are active: the role clause is
   * there exactly when the role filter is not 'All', the organisation-type
   * clause exactly when that filter is not 'All', and the search clause
   * exactly when a search is present.
   */
  lemma FilterAndClauses(st: PageState)
    requires st.searchByTermUser != Str("role") && st.searchByTermUser != Str("companyRole")
    requires FilterAnd(st).Some?
    ensures RoleClause(st) in FilterAnd(st).value <==> st.filterByRole != All
    ensures OrganisationClause(st) in FilterAnd(st).value <==> st.filterByOrganisationType != All
    ensures SearchClause(st) in FilterAnd(st).value <==> SearchPresent(st)
  {
    var r := FilterAnd(st).value;
    if !SearchPresent(st) {
      assert forall i :: 0 <= i < |r| ==> r[i].key == Str("role") || r[i].key == Str("companyRole");
    }
  }

  /** The body of the user query. */
  datatype QueryParams = QueryParams(page: int, size: int, filterOr: Option<seq<Clause>>, filterAnd: Option<seq<Clause>>)

  /** `getAllUserParams`. */
  function GetAllUserParams(st: PageState): (q: QueryParams)
    ensures q.page == st.currentPage && q.size == st.pageSize
    ensures q.filterOr == FilterOr(st) && q.filterAnd == FilterAnd(st)
    ensures !(q.filterOr.Some? && q.filterAnd.Some?)
    ensures q.filterOr.None? && q.filterAnd.None? <==> !SearchPresent(st) && st.filterByRole == All && st.filterByOrganisationType == All
  {
    QueryParams(st.currentPage, st.pageSize, FilterOr(st), FilterAnd(st))
  }

  /** On opening, the page queries the first page of ten users with no filter. */
  lemma InitialQuery()
    ensures GetAllUserParams(InitialState) == QueryParams(1, 10, None, None)
  {
  }

  // ---------------------------------------------------------------------------
  // Handlers

  /** What the user does on the page. */
  datatype PageEvent =
    | PageChange(page: int, size: int)       // the table's pagination
    | SearchByTerm(term: JsValue)            // the "Search by" radio group
    | FilterRole(role: JsValue)              // the role radio group
    | FilterOrganisationType(kind: JsValue)  // the organisation-type radio group
    | SearchInput(text: string)              // typing in the search box
    | SubmitSearch                           // pressing enter or the search button

  /**
   * The state after an event. Choosing a role or an organisation type, or
   * submitting a search, goes back to the first page; choosing the search
   * key or typing does not. Each handler changes only its own fields.
   */
  function Handle(st: PageState, ev: PageEvent): (r: PageState)
    ensures ev.FilterRole? || ev.FilterOrganisationType? || ev.SubmitSearch? ==> r.currentPage == 1
    ensures ev.SearchByTerm? || ev.SearchInput? ==> r.currentPage == st.currentPage
    ensures ev.PageChange? ==> r == st.(currentPage := ev.page, pageSize := ev.size)
    ensures ev.SearchByTerm? ==> r == st.(searchByTermUser := ev.term)
    ensures ev.FilterRole? ==> r == st.(currentPage := 1, filterByRole := ev.role)
    ensures ev.FilterOrganisationType? ==> r == st.(currentPage := 1, filterByOrganisationType := ev.kind)
    ensures ev.SubmitSearch? ==> r == st.(currentPage := 1, networksearchUsers := st.searchValueUsers)
    ensures ev.SearchInput? ==>
      r == if ev.text == "" then st.(networksearchUsers := "") else st.(searchValueUsers := ev.text)
  {
    match ev
    case PageChange(page, size) => st.(currentPage := page, pageSize := size)
    case SearchByTerm(term) => st.(searchByTermUser := term)
    case FilterRole(role) => st.(currentPage := 1, filterByRole := role)
    case FilterOrganisationType(kind) => st.(currentPage := 1, filterByOrganisationType := kind)
    case SearchInput(text) =>
      if text == "" then st.(networksearchUsers := text) else st.(searchValueUsers := text)
    case SubmitSearch => st.(currentPage := 1, networksearchUsers := st.searchValueUsers)
  }

  /**
   * Typing a search text and submitting it, with both filters on 'All',
   * queries the first page with one `=` clause on the search key.
   */
  lemma SubmittedSearchQueriesFirstPage(st: PageState, text: string)
    requires text != "" && st.searchByTermUser.Str? && st.searchByTermUser.s != ""
    requires st.filterByRole == All && st.filterByOrganisationType == All
    ensures var q := GetAllUserParams(Handle(Handle(st, SearchInput(text)), SubmitSearch));
      && q.page == 1
      && q.filterOr == Some([Clause(st.searchByTermUser, "=", Str(text))])
      && q.filterAnd.None?
  {
  }

  // ---------------------------------------------------------------------------
  // Rows

  datatype Company = Company(name: JsValue, companyRole: JsValue)

  /** A row of the user table. */
  datatype UserRow = UserRow(name: string, email: string, role: JsValue, companyRole: JsValue, company: Option<Company>)

  /** `rows.findIndex(row => row.email === email)`: the first matching index, or -1. */
  function FindIndex(rows: seq<UserRow>, email: string): (i: int)
    ensures -1 <= i < |rows|
    ensures i >= 0 ==> rows[i].email == email
    ensures forall j :: 0 <= j < |rows| && (i == -1 || j < i) ==> rows[j].email != email
  {
    if |rows| == 0 then -1
    else if rows[0].email == email then 0
    else
      var i := FindIndex(rows[1..], email);
      if i == -1 then -1 else i + 1
  }

  /** How many rows carry `email`. */
  function CountEmail(rows: seq<UserRow>, email: string): nat {
    if |rows| == 0 then 0 else CountEmail(rows[..|rows| - 1], email) + (if rows[|rows| - 1].email == email then 1 else 0)
  }

  lemma {:induction false} CountEmailAppend(a: seq<UserRow>, b: seq<UserRow>, email: string)
    ensures CountEmail(a + b, email) == CountEmail(a, email) + CountEmail(b, email)
  {
    if |b| > 0 {
      assert (a + b)[..|a + b| - 1] == a + b[..|b| - 1];
      CountEmailAppend(a, b[..|b| - 1], email);
    } else {
      assert a + b == a;
    }
  }

  /**
   * The table after a delete request: on a 200 response the first row with
   * the deleted e-mail is spliced out; any other response, or a failed
   * request, leaves the table as it was.
   */
  function DeleteUser(rows: seq<UserRow>, email: string, succeeded: bool): (r: seq<UserRow>)
    ensures !succeeded ==> r == rows
    ensures succeeded ==> (forall i :: 0 <= i < |rows| ==> rows[i].email != email) ==> r == rows
    ensures succeeded && (exists i :: 0 <= i < |rows| && rows[i].email == email) ==>
      && |r| == |rows| - 1
      && CountEmail(r, email) == CountEmail(rows, email) - 1
      && (forall other :: other != email ==> CountEmail(r, other) == CountEmail(rows, other))
      && var k := FindIndex(rows, email);
         r[..k] == rows[..k] && r[k..] == rows[k + 1..]
  {
    var index := FindIndex(rows, email);
    if succeeded && index > -1 then
      var r := rows[..index] + rows[index + 1..];
      assert rows == rows[..index] + [rows[index]] + rows[index + 1..];
      forall other
        ensures CountEmail(rows, other) == CountEmail(r, other) + (if rows[index].email == other then 1 else 0)
      {
        CountEmailAppend(rows[..index] + [rows[index]], rows[index + 1..], other);
        CountEmailAppend(rows[..index], [rows[index]], other);
        CountEmailAppend(rows[..index], rows[index + 1..], other);
        assert CountEmail([rows[index]], other) == (if rows[index].email == other then 1 else 0) by {
          assert [rows[index]][..0] == [];
        }
      }
      r
    else
      rows
  }

  /** The icon a company role is shown with. */
  datatype RoleIcon = GovernmentIcon | CertifierIcon | DeveloperIcon

  /** `getCompanyRoleComponent`: the role shown for a row, its icon and its caption. */
  datatype RoleBadge = RoleBadge(role: JsValue, icon: RoleIcon, caption: string)

  /**
   * The company role of a row: the company's role when it is truthy, else
   * the row's own role when that is truthy, else null.
   */
  function CompanyRole(row: UserRow): (role: JsValue)
    ensures role == Null || Truthy(role)
    ensures Truthy(role) <==> (row.company.Some? && Truthy(row.company.value.companyRole)) || Truthy(row.companyRole)
    ensures row.company.Some? && Truthy(row.company.value.companyRole) ==> role == row.company.value.companyRole
    ensures role != Null && role != row.companyRole ==> row.company.Some? && role == row.company.value.companyRole
  {
    if row.company.Some? && Truthy(row.company.value.companyRole) then row.company.value.companyRole
    else if Truthy(row.companyRole) then row.companyRole
    else Null
  }

  function CompanyRoleBadge(row: UserRow): (b: RoleBadge)
    ensures b.role == CompanyRole(row)
    ensures b.icon == GovernmentIcon <==> b.role == Str("Government")
    ensures b.icon == CertifierIcon <==> b.role == Str("Certifier")
    ensures b.caption == "Developer" <==> b.role == Str("ProgrammeDeveloper") || b.role == Str("Developer")
    ensures b.role == Null ==> b.caption == "" && b.icon == DeveloperIcon
    ensures b.role.Str? && b.role != Str("ProgrammeDeveloper") ==> b.caption == b.role.s
  {
    var role := CompanyRole(row);
    var icon := if role == Str("Government") then GovernmentIcon
                else if role == Str("Certifier") then CertifierIcon
                else DeveloperIcon;
    var caption := if role == Str("ProgrammeDeveloper") then "Developer"
                 else if role.Str? then role.s
                 else "";
    RoleBadge(role, icon, caption)
  }
}
