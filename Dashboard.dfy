/** The admin dashboard: one page of users fetched from the server, a search box,
    pagination controls under the table, and per-row status labels and actions. */
module Dashboard {
  import opened Browser
  import opened SessionStore

  const PageSize := 10
  /** How many page-number buttons the pagination control shows at most. */
  const TotalNumbers := 5

  const NotLoggedInMessage := "You must be logged in first!"
  const LoadFailedMessage := "Failed to load users. Please login first!"
  const DeleteFailedAlert := "Failed to delete user"

  /** One row of the server's user list. */
  datatype UserRow = UserRow(id: int, firstName: string, lastName: string, email: string,
                             isSuperuser: bool, isStaff: bool)

  /** The body of a successful list reply: the total number of matching users and one page of them. */
  datatype UserPage = UserPage(count: nat, results: seq<UserRow>)

  /** `GET /dashbord/users/?page=..&search=..` with the header `Token <token>`. */
  datatype ListRequest = ListRequest(page: int, search: string, token: string)

  /** `DELETE /dashbord/users/<id>/`; the token is read without a check, so it may be missing. */
  datatype DeleteRequest = DeleteRequest(userId: int, token: Option<string>)

  datatype RowAction = View | Delete

  function Max(a: int, b: int): int { if a < b then b else a }
  function Min(a: int, b: int): int { if a < b then a else b }

  /** `Math.ceil(count / pageSize)`: the least number of pages that hold `count` users. */
  function TotalPagesFor(count: nat): (r: nat)
    ensures r * PageSize >= count
    ensures r == 0 || (r - 1) * PageSize < count
    ensures r == 0 <==> count == 0
  {
    (count + PageSize - 1) / PageSize
  }

  lemma TotalPagesExample()
    ensures TotalPagesFor(23) == 3 && TotalPagesFor(20) == 2 && TotalPagesFor(0) == 0
  {
  }

  /** `Array.from({ length: hi - lo + 1 }, (_, i) => lo + i)`; a negative length gives []. */
  function Interval(lo: int, hi: int): (r: seq<int>)
    ensures |r| == if hi < lo then 0 else hi - lo + 1
    ensures forall i :: 0 <= i < |r| ==> r[i] == lo + i
  {
    if hi < lo then [] else seq(hi - lo + 1, i => lo + i)
  }

  /** The page numbers shown between Prev and Next: a window of at most five
      consecutive pages around `page`, kept inside [1, totalPages] by sliding it
      left near the last page and right near the first. */
  function PaginationRange(page: int, totalPages: int): (r: seq<int>)
    ensures |r| == if totalPages <= 0 then 0 else Min(TotalNumbers, totalPages)
    ensures forall i :: 0 <= i < |r| ==> 1 <= r[i] <= totalPages
    ensures forall i :: 0 <= i < |r| ==> r[i] == r[0] + i
    ensures 1 <= page <= totalPages ==> page in r
    ensures 3 <= page <= totalPages - 2 ==> r[0] == page - 2
    ensures totalPages >= 1 && page <= 3 ==> r[0] == 1
    ensures totalPages >= 1 && page >= totalPages - 2 ==> r[|r| - 1] == totalPages
  {
    var start := Max(1, page - TotalNumbers / 2);
    var end := Min(totalPages, start + TotalNumbers - 1);
    var start' := if end - start < TotalNumbers - 1 then Max(1, end - TotalNumbers + 1) else start;
    var r := Interval(start', end);
    assert 1 <= page <= totalPages ==> r[page - start'] == page;
    r
  }

  /** The status column (and the details dialog): superuser outranks staff. */
  function StatusLabel(u: UserRow): (r: string)
    ensures u.isSuperuser ==> r == "Superuser"
    ensures !u.isSuperuser && u.isStaff ==> r == "Staff"
    ensures !u.isSuperuser && !u.isStaff ==> r == "User"
  {
    if u.isSuperuser then "Superuser" else if u.isStaff then "Staff" else "User"
  }

  /** The buttons of one row: every row can be viewed; only non-superusers can be deleted. */
  function RowActions(u: UserRow): (r: seq<RowAction>)
    ensures View in r
    ensures Delete in r <==> !u.isSuperuser
  {
    if u.isSuperuser then [View] else [View, Delete]
  }

  /** What the area under the search box shows. */
  datatype Panel = LoadingUsers | ErrorText(message: string) | NoUsersFound | Table(rows: seq<UserRow>)

  function PanelFor(loading: bool, error: string, users: seq<UserRow>): (p: Panel)
    ensures p.LoadingUsers? <==> loading
    ensures p.ErrorText? <==> !loading && error != ""
    ensures p.ErrorText? ==> p.message == error
    ensures p.Table? ==> p.rows == users && |users| > 0
    ensures p.NoUsersFound? <==> !loading && error == "" && users == []
  {
    if loading then LoadingUsers
    else if error != "" then ErrorText(error)
    else if users == [] then NoUsersFound
    else Table(users)
  }

  class DashboardView {
    var users: seq<UserRow>
    var totalUsers: nat
    var search: string
    var page: int
    var totalPages: nat
    var loading: bool
    var error: string
    var selectedUser: Option<UserRow>

    /** The page never drops below 1, and the page count agrees with the user count
        except in the initial state (no fetch has succeeded yet). The page is not
        bounded above: Next is disabled only when `page == totalPages`, and a refetch
        after a delete may shrink `totalPages` below the current page. */
    predicate Valid()
      reads this
    {
      page >= 1 &&
      (totalPages == TotalPagesFor(totalUsers) || (totalUsers == 0 && totalPages == 1))
    }

    constructor ()
      ensures Valid()
      ensures users == [] && totalUsers == 0 && search == "" && page == 1 && totalPages == 1
      ensures !loading && error == "" && selectedUser == None
    {
      users, totalUsers, search, page, totalPages := [], 0, "", 1, 1;
      loading, error, selectedUser := false, "", None;
    }

    /** The pagination control is shown only when there is more than one page. */
    function ShowPagination(): (b: bool)
      reads this
      ensures b <==> |PaginationRange(page, totalPages)| >= 2
    {
      totalPages > 1
    }

    /** `fetchUsers`: without a token no request is made; a failed request keeps the
        old rows and counts and shows a fixed message; a successful one replaces rows,
        user count and page count. Loading is over on every path. */
    method FetchUsers(store: Store, reply: Reply<UserPage, ()>) returns (request: Option<ListRequest>)
      requires Valid()
      modifies this
      ensures Valid()
      ensures !loading
      ensures page == old(page) && search == old(search) && selectedUser == old(selectedUser)
      ensures !HasToken(store.items) ==> request == None
      ensures HasToken(store.items) ==> request == Some(ListRequest(page, search, store.items[TokenKey]))
      ensures !HasToken(store.items) ==> error == NotLoggedInMessage
      ensures HasToken(store.items) && !reply.Ok? ==> error == LoadFailedMessage
      ensures !(HasToken(store.items) && reply.Ok?) ==>
        users == old(users) && totalUsers == old(totalUsers) && totalPages == old(totalPages)
      ensures HasToken(store.items) && reply.Ok? ==>
        error == "" && users == reply.body.results && totalUsers == reply.body.count &&
        totalPages == TotalPagesFor(reply.body.count)
    {
      loading := true;
      error := "";
      var token := Lookup(store.items, TokenKey);
      if !Truthy(token) {
        error := NotLoggedInMessage;
        loading := false;
        return None;
      }
      request := Some(ListRequest(page, search, token.value));
      match reply {
        case Ok(data) =>
          users := data.results;
          totalUsers := data.count;
          totalPages := TotalPagesFor(data.count);
        case NotOk(_, _) =>
          error := LoadFailedMessage;
        case Thrown =>
          error := LoadFailedMessage;
      }
      loading := false;
    }

    /** `handleDelete`: nothing happens unless the user confirms. A delete request is
        sent with whatever token is stored; any reply (success or not) starts a refetch
        of the list, returned as `refetch` because the view does not wait for it; a
        rejected request only raises an alert. The view's own state is not touched. */
    method HandleDelete(store: Store, userId: int, confirmed: bool, reply: Reply<(), ()>)
      returns (request: Option<DeleteRequest>, refetch: bool, alert: Option<string>)
      ensures !confirmed ==> request == None && !refetch && alert == None
      ensures confirmed ==> request == Some(DeleteRequest(userId, Lookup(store.items, TokenKey)))
      ensures confirmed ==> (refetch <==> !reply.Thrown?)
      ensures confirmed ==> (alert == if reply.Thrown? then Some(DeleteFailedAlert) else None)
    {
      if !confirmed {
        return None, false, None;
      }
      request := Some(DeleteRequest(userId, Lookup(store.items, TokenKey)));
      if reply.Thrown? {
        refetch, alert := false, Some(DeleteFailedAlert);
      } else {
        refetch, alert := true, None;
      }
    }

    /** Typing in the search box: the term is replaced and the view returns to page 1. */
    method OnSearchChange(text: string)
      requires Valid()
      modifies this
      ensures Valid()
      ensures search == text && page == 1
      ensures users == old(users) && totalUsers == old(totalUsers) && totalPages == old(totalPages)
      ensures loading == old(loading) && error == old(error) && selectedUser == old(selectedUser)
    {
      search := text;
      page := 1;
    }

    /** Prev: shown with the control, disabled exactly on page 1. */
    method ClickPrev()
      requires Valid()
      modifies this
      ensures Valid()
      ensures page == if old(ShowPagination()) && old(page) != 1 then old(page) - 1 else old(page)
      ensures search == old(search) && users == old(users) && totalUsers == old(totalUsers)
      ensures totalPages == old(totalPages) && loading == old(loading) && error == old(error)
      ensures selectedUser == old(selectedUser)
    {
      if ShowPagination() && page != 1 {
        page := page - 1;
      }
    }

    /** Next: shown with the control, disabled exactly on page `totalPages`. */
    method ClickNext()
      requires Valid()
      modifies this
      ensures Valid()
      ensures page == if old(ShowPagination()) && old(page) != old(totalPages) then old(page) + 1 else old(page)
      ensures search == old(search) && users == old(users) && totalUsers == old(totalUsers)
      ensures totalPages == old(totalPages) && loading == old(loading) && error == old(error)
      ensures selectedUser == old(selectedUser)
    {
      if ShowPagination() && page != totalPages {
        page := page + 1;
      }
    }

    /** A page-number button: the `i`-th number of the shown window becomes the page. */
    method ClickPageNumber(i: nat)
      requires Valid()
      requires ShowPagination() && i < |PaginationRange(page, totalPages)|
      modifies this
      ensures Valid()
      ensures totalPages == old(totalPages)
      ensures page == PaginationRange(old(page), totalPages)[i]
      ensures search == old(search) && users == old(users) && totalUsers == old(totalUsers)
      ensures loading == old(loading) && error == old(error)
      ensures selectedUser == old(selectedUser)
    {
      page := PaginationRange(page, totalPages)[i];
    }

    /** View opens the details dialog for one row; Close (or the cross) closes it. */
    method ViewUser(u: UserRow)
      modifies this
      ensures selectedUser == Some(u)
      ensures page == old(page) && search == old(search) && users == old(users)
      ensures totalUsers == old(totalUsers) && totalPages == old(totalPages)
      ensures loading == old(loading) && error == old(error)
    {
      selectedUser := Some(u);
    }

    method CloseDetails()
      modifies this
      ensures selectedUser == None
      ensures page == old(page) && search == old(search) && users == old(users)
      ensures totalUsers == old(totalUsers) && totalPages == old(totalPages)
      ensures loading == old(loading) && error == old(error)
    {
      selectedUser := None;
    }
  }
}
