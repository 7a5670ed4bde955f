/**
 * The user list of the admin screen: the search and status filters, the
 * effect that recomputes the filtered list whenever the filters or the
 * users change, and the pagination over it.
 */
module UserManagement {
  import opened Common
  import opened Text

  datatype User = User(fullName: string, email: string, mobileNumber: string, status: string)

  /** The `filters` state; the status `all` is the select's "every status". */
  datatype Filters = Filters(search: string, status: string)

  /** The `name` of the two filter inputs. */
  datatype FilterKey = SearchKey | StatusKey

  const AllStatuses := "all"
  const NoFilters := Filters("", AllStatuses)

  /** The search: in the full name or the e-mail ignoring case, or in the mobile number exactly. */
  predicate MatchesSearch(u: User, query: string) {
    ContainsIgnoreCase(u.fullName, query) || ContainsIgnoreCase(u.email, query) || Contains(u.mobileNumber, query)
  }

  predicate SearchTest(u: User, f: Filters) {
    f.search == "" || MatchesSearch(u, f.search)
  }

  predicate StatusTest(u: User, f: Filters) {
    f.status == AllStatuses || u.status == f.status
  }

  predicate Keep(u: User, f: Filters) {
    SearchTest(u, f) && StatusTest(u, f)
  }

  /** The users both filters keep, in their order. */
  function Matching(us: seq<User>, f: Filters): (r: seq<User>)
    ensures |r| <= |us|
  {
    Filter(us, u => Keep(u, f))
  }

  /** A user is listed exactly when it passes both filters, and the list keeps the users' order. */
  lemma MatchingMembers(us: seq<User>, f: Filters)
    ensures forall u :: u in Matching(us, f) <==> u in us && SearchTest(u, f) && StatusTest(u, f)
    ensures IsSubsequence(Matching(us, f), us)
  {
    FilterMembers(us, u => Keep(u, f));
    FilterSubsequence(us, u => Keep(u, f));
  }

  /** The empty search and the status `all` keep every user. */
  lemma NoFiltersKeepAll(us: seq<User>)
    ensures Matching(us, NoFilters) == us
  {
    FilterAll(us, u => Keep(u, NoFilters));
  }

  /** `{ ...prev, [name]: value }`. */
  function SetFilter(f: Filters, key: FilterKey, value: string): (r: Filters)
    ensures key == SearchKey ==> r.search == value && r.status == f.status
    ensures key == StatusKey ==> r.status == value && r.search == f.search
  {
    match key
    case SearchKey => f.(search := value)
    case StatusKey => f.(status := value)
  }

  /** The screen's list state. */
  class UserList {
    var users: seq<User>
    var filters: Filters
    var filteredUsers: seq<User>
    var page: nat
    var rowsPerPage: nat

    /** The effect has run: the list on show is the users both filters keep. */
    predicate Valid()
      reads this
    {
      filteredUsers == Matching(users, filters)
    }

    constructor ()
      ensures Valid() && users == [] && filters == NoFilters && filteredUsers == [] && page == 0 && rowsPerPage == 5
    {
      users := [];
      filters := NoFilters;
      filteredUsers := [];
      page := 0;
      rowsPerPage := 5;
    }

    /** `paginatedUsers`: at most a page of the filtered users, in order from `page * rowsPerPage`. */
    function Shown(): (r: seq<User>)
      reads this
      ensures IsPageOf(r, filteredUsers, page, rowsPerPage)
    {
      Page(filteredUsers, page, rowsPerPage)
    }

    /**
     * The effect on `[filters, users]`: the search filter when there is a
     * search, then the status filter unless the status is `all`; back on
     * the first page.
     */
    method ApplyFilters()
      modifies this
      ensures Valid() && page == 0
      ensures users == old(users) && filters == old(filters) && rowsPerPage == old(rowsPerPage)
    {
      var f := filters;
      var updatedUsers := users;
      if f.search != "" {
        updatedUsers := BySearch(updatedUsers, f.search);
      }
      if f.status != AllStatuses {
        updatedUsers := ByStatus(updatedUsers, f.status);
      }
      SequencedFilters(users, filters);
      filteredUsers := updatedUsers;
      page := 0;
    }

    /** `fetchUsers` answered: `response?.data || []`, and the effect runs on the new list. */
    method Loaded(data: Option<seq<User>>)
      modifies this
      ensures Valid() && page == 0 && users == data.GetOr([])
      ensures filters == old(filters) && rowsPerPage == old(rowsPerPage)
    {
      users := data.GetOr([]);
      filteredUsers := users;
      ApplyFilters();
    }

    /** The failed call of `fetchUsers`: no users, a toast, and the effect. */
    method LoadFailed() returns (notice: Notice)
      modifies this
      ensures Valid() && page == 0 && users == [] && filteredUsers == []
      ensures notice == Failed("Error fetching users data")
      ensures filters == old(filters) && rowsPerPage == old(rowsPerPage)
    {
      users := [];
      filteredUsers := [];
      notice := Failed("Error fetching users data");
      ApplyFilters();
    }

    /** `handleFilterChange` for the input named `key`, and the effect it sets off. */
    method ChangeFilter(key: FilterKey, value: string)
      modifies this
      ensures Valid() && page == 0 && filters == SetFilter(old(filters), key, value)
      ensures users == old(users) && rowsPerPage == old(rowsPerPage)
    {
      filters := SetFilter(filters, key, value);
      ApplyFilters();
    }

    /** `handleResetFilters`: the empty search and `all`, so every user is listed again from the first page. */
    method ResetFilters()
      modifies this
      ensures Valid() && page == 0 && filters == NoFilters && filteredUsers == users
      ensures users == old(users) && rowsPerPage == old(rowsPerPage)
    {
      filters := NoFilters;
      ApplyFilters();
      NoFiltersKeepAll(users);
    }

    /** `handleChangePage`. */
    method ChangePage(newPage: nat)
      requires Valid()
      modifies this
      ensures Valid() && page == newPage
      ensures users == old(users) && filters == old(filters) && filteredUsers == old(filteredUsers)
      ensures rowsPerPage == old(rowsPerPage)
    {
      page := newPage;
    }

    /** `handleChangeRowsPerPage`: a new page size, back on the first page. */
    method ChangeRowsPerPage(n: nat)
      requires Valid()
      modifies this
      ensures Valid() && page == 0 && rowsPerPage == n
      ensures users == old(users) && filters == old(filters) && filteredUsers == old(filteredUsers)
    {
      rowsPerPage := n;
      page := 0;
    }
  }

  /** `users.filter(...)` by the search. */
  function BySearch(us: seq<User>, query: string): seq<User> {
    Filter(us, (u: User) => MatchesSearch(u, query))
  }

  /** `users.filter(...)` by the status. */
  function ByStatus(us: seq<User>, status: string): seq<User> {
    Filter(us, (u: User) => u.status == status)
  }

  /** The two filters applied one after the other, each only when it is set, keep exactly what `Matching` keeps. */
  lemma SequencedFilters(us: seq<User>, f: Filters)
    ensures f.search != "" && f.status != AllStatuses ==> ByStatus(BySearch(us, f.search), f.status) == Matching(us, f)
    ensures f.search != "" && f.status == AllStatuses ==> BySearch(us, f.search) == Matching(us, f)
    ensures f.search == "" && f.status != AllStatuses ==> ByStatus(us, f.status) == Matching(us, f)
    ensures f.search == "" && f.status == AllStatuses ==> us == Matching(us, f)
  {
    var search := (u: User) => MatchesSearch(u, f.search);
    var status := (u: User) => u.status == f.status;
    var keep := (u: User) => Keep(u, f);
    if f.search != "" && f.status != AllStatuses {
      FilterTwice(us, search, status, keep);
    } else if f.search != "" {
      FilterSame(us, search, keep);
    } else if f.status != AllStatuses {
      FilterSame(us, status, keep);
    } else {
      FilterAll(us, keep);
    }
  }
}
