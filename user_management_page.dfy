/**
 * The administrator's member list (`UserManagementPage`): thirty generated
 * members, a search box with group and status filters, fifteen rows per page,
 * a name editor, a status selector and the suspension dialog.
 */
module UserManagementPage {
  import opened Wrappers
  import opened Seqs
  import opened JsString

  datatype UserStatus = Active | Suspended | Withdrawn
  datatype LoginStatus = Online | Offline
  datatype UserGroup = GroupAdmin | GroupUser

  datatype User = User(id: int, name: string, email: string, group: UserGroup, joinDate: string,
                       lastLogin: string, loginStatus: LoginStatus, status: UserStatus, ip: string,
                       suspendReason: Option<string>)

  /** The group select: "all" or one group. */
  datatype GroupFilter = AnyGroup | OnlyGroup(group: UserGroup)

  /** The status select: "all" or one status. */
  datatype StatusFilter = AnyStatus | OnlyStatus(status: UserStatus)

  const UserCount: nat := 30
  const ItemsPerPage: nat := 15
  const DefaultSuspendReason: string := "약관 위반(욕설 사용)"

  /** The generated member at position `i` of the initial list. */
  function InitialUser(i: nat): (u: User)
    ensures u.id == i + 1
    ensures u.status == Suspended <==> i % 5 == 0
    ensures u.status == Withdrawn <==> i % 5 != 0 && i % 7 == 0
    ensures u.suspendReason.Some? <==> i % 5 == 0
  {
    User(i + 1, "사용자" + DecimalString(i + 1), "user" + DecimalString(i + 1) + "@example.com",
         if i == 0 then GroupAdmin else GroupUser, "2025-10-01", "2025-11-13",
         if i % 3 == 0 then Online else Offline,
         if i % 5 == 0 then Suspended else if i % 7 == 0 then Withdrawn else Active,
         "192.168.0." + DecimalString(i + 1),
         if i % 5 == 0 then Some(DefaultSuspendReason) else None)
  }

  function InitialUsers(): (r: seq<User>)
    ensures |r| == UserCount
    ensures forall i :: 0 <= i < |r| ==> r[i] == InitialUser(i)
  {
    seq(UserCount, (i: int) requires 0 <= i => InitialUser(i))
  }

  /** The generated members carry the ids 1 to 30, so no two share an id. */
  lemma InitialIdsDistinct()
    ensures forall i, j :: 0 <= i < j < |InitialUsers()| ==> InitialUsers()[i].id != InitialUsers()[j].id
  {
    var r := InitialUsers();
    forall i, j | 0 <= i < j < |r| ensures r[i].id != r[j].id {
      assert r[i].id == i + 1 && r[j].id == j + 1;
    }
  }

  /** One row of the filter: the search term in the name or the email (case-sensitive), and both selects. */
  predicate Listed(u: User, term: string, group: GroupFilter, status: StatusFilter)
  {
    (Contains(u.name, term) || Contains(u.email, term))
    && (group.AnyGroup? || u.group == group.group)
    && (status.AnyStatus? || u.status == status.status)
  }

  function ListedBy(term: string, group: GroupFilter, status: StatusFilter): User -> bool
  {
    (u: User) => Listed(u, term, group, status)
  }

  /** `filteredUsers`: the members that pass, in list order. */
  function FilterUsers(users: seq<User>, term: string, group: GroupFilter, status: StatusFilter): (r: seq<User>)
    ensures forall u :: u in r <==> u in users && Listed(u, term, group, status)
    ensures IsSubsequence(r, users) && |r| == Count(users, ListedBy(term, group, status))
  {
    var keep := ListedBy(term, group, status);
    FilterMembers(users, keep);
    FilterInOrder(users, keep);
    Filter(users, keep)
  }

  /** The empty search term, with both selects on "all", lists every member in order. */
  lemma EmptySearchListsAll(users: seq<User>)
    ensures FilterUsers(users, "", AnyGroup, AnyStatus) == users
  {
    forall i | 0 <= i < |users| ensures ListedBy("", AnyGroup, AnyStatus)(users[i]) {
      assert [] <= users[i].name;
    }
    FilterKeepsAll(users, ListedBy("", AnyGroup, AnyStatus));
  }

  /** `Math.ceil(n / 15)`: the fewest pages of fifteen that hold `n` rows. */
  function TotalPages(n: nat): (t: nat)
    ensures n <= t * ItemsPerPage
    ensures t > 0 ==> (t - 1) * ItemsPerPage < n
    ensures t == 0 <==> n == 0
  {
    (n + ItemsPerPage - 1) / ItemsPerPage
  }

  /** `filteredUsers.slice((page - 1) * 15, page * 15)`, with the slice's clamping and negative positions. */
  function PageRows<T>(rows: seq<T>, page: int): (r: seq<T>)
    ensures |r| <= ItemsPerPage
    ensures page >= 1 ==> forall k :: 0 <= k < |r| ==> (page - 1) * ItemsPerPage + k < |rows| && r[k] == rows[(page - 1) * ItemsPerPage + k]
    ensures 1 <= page <= TotalPages(|rows|) ==> r != []
    ensures page == 0 || page > TotalPages(|rows|) ==> r == []
  {
    Slice(rows, (page - 1) * ItemsPerPage, page * ItemsPerPage)
  }

  /** Pages 1 to `k` read one after another. */
  function PagesUpTo<T>(rows: seq<T>, k: nat): seq<T>
  {
    if k == 0 then [] else PagesUpTo(rows, k - 1) + PageRows(rows, k)
  }

  lemma {:induction false} PagesUpToPrefix<T>(rows: seq<T>, k: nat)
    ensures PagesUpTo(rows, k) == rows[..if k * ItemsPerPage < |rows| then k * ItemsPerPage else |rows|]
  {
    if k > 0 {
      PagesUpToPrefix(rows, k - 1);
      var lo := (k - 1) * ItemsPerPage;
      var hi := k * ItemsPerPage;
      if lo < |rows| {
        var end := if hi < |rows| then hi else |rows|;
        assert PageRows(rows, k) == rows[lo..end];
        assert rows[..lo] + rows[lo..end] == rows[..end];
      } else {
        assert PageRows(rows, k) == [];
      }
    }
  }

  /** The pages partition the filtered list: read in order, pages 1 to `totalPages` give it back exactly. */
  lemma PagesPartition<T>(rows: seq<T>)
    ensures PagesUpTo(rows, TotalPages(|rows|)) == rows
  {
    PagesUpToPrefix(rows, TotalPages(|rows|));
    assert rows[..|rows|] == rows;
  }

  /** The "previous" button: `Math.max(1, p - 1)`. */
  function PrevPage(page: int): (p: int)
    ensures p >= 1
    ensures page > 1 ==> p == page - 1
  {
    if page - 1 > 1 then page - 1 else 1
  }

  /** The "next" button: `Math.min(totalPages, p + 1)`. */
  function NextPage(page: int, total: nat): (p: int)
    ensures p <= total
    ensures page < total ==> p == page + 1
    ensures total == 0 && page >= 0 ==> p == 0
  {
    if total < page + 1 then total else page + 1
  }

  /** `updateUserStatus`: members with the id take the status and the given reason (absent clears it). */
  function UpdateUserStatus(users: seq<User>, id: int, status: UserStatus, reason: Option<string>): (r: seq<User>)
    ensures |r| == |users|
    ensures forall i :: 0 <= i < |r| ==>
      if users[i].id == id then r[i] == users[i].(status := status, suspendReason := reason) else r[i] == users[i]
  {
    MapWhere(users, (u: User) => u.id == id, (u: User) => u.(status := status, suspendReason := reason))
  }

  /** `handleNameChange`: members with the id take the new name. */
  function UpdateUserName(users: seq<User>, id: int, name: string): (r: seq<User>)
    ensures |r| == |users|
    ensures forall i :: 0 <= i < |r| ==> if users[i].id == id then r[i] == users[i].(name := name) else r[i] == users[i]
  {
    MapWhere(users, (u: User) => u.id == id, (u: User) => u.(name := name))
  }

  /** On the generated list, a status change touches exactly the member at position `id - 1`. */
  lemma InitialStatusChangeTouchesOne(id: int, status: UserStatus, reason: Option<string>)
    requires 1 <= id <= UserCount
    ensures forall i :: 0 <= i < UserCount ==>
      (UpdateUserStatus(InitialUsers(), id, status, reason)[i] != InitialUsers()[i] ==> i == id - 1)
    ensures UpdateUserStatus(InitialUsers(), id, status, reason)[id - 1].status == status
  {
  }

  /** `!targetUserId`: no target, or the falsy id 0. */
  predicate HasTarget(target: Option<int>)
  {
    target.Some? && target.value != 0
  }

  datatype ConfirmOutcome = NoTarget | ReasonMissing | SuspendApplied

  class UserManagement {
    var users: seq<User>
    var searchTerm: string
    var groupFilter: GroupFilter
    var statusFilter: StatusFilter
    var expandedUserId: Option<int>
    var suspendModalOpen: bool
    var targetUserId: Option<int>
    var suspendReason: string
    var currentPage: int

    /** The page number never goes below 0: "previous" clamps at 1, "next" only reaches 0 with no rows. */
    predicate Valid()
      reads this
    {
      currentPage >= 0
    }

    function Filtered(): seq<User>
      reads this
    {
      FilterUsers(users, searchTerm, groupFilter, statusFilter)
    }

    /** The rows of the current page. */
    function CurrentRows(): (r: seq<User>)
      reads this
      ensures |r| <= ItemsPerPage
      ensures forall u :: u in r ==> u in users && Listed(u, searchTerm, groupFilter, statusFilter)
    {
      PageRows(Filtered(), currentPage)
    }

    constructor()
      ensures Valid()
      ensures users == InitialUsers() && searchTerm == "" && groupFilter == AnyGroup && statusFilter == AnyStatus
      ensures expandedUserId == None && !suspendModalOpen && targetUserId == None && suspendReason == ""
      ensures currentPage == 1
    {
      users := InitialUsers();
      searchTerm, groupFilter, statusFilter := "", AnyGroup, AnyStatus;
      expandedUserId, suspendModalOpen, targetUserId, suspendReason := None, false, None, "";
      currentPage := 1;
    }

    /**
     * The search box: only the term changes. The page number is kept, so a
     * narrower list can leave it past the last page, where no row shows.
     */
    method SetSearch(term: string)
      modifies this`searchTerm
      ensures searchTerm == term
      ensures currentPage > TotalPages(|Filtered()|) ==> CurrentRows() == []
    {
      searchTerm := term;
    }

    /** The group selector; the page number is kept as with the search box. */
    method SetGroupFilter(group: GroupFilter)
      modifies this`groupFilter
      ensures groupFilter == group
      ensures currentPage > TotalPages(|Filtered()|) ==> CurrentRows() == []
    {
      groupFilter := group;
    }

    /** The status selector; the page number is kept as with the search box. */
    method SetStatusFilter(status: StatusFilter)
      modifies this`statusFilter
      ensures statusFilter == status
      ensures currentPage > TotalPages(|Filtered()|) ==> CurrentRows() == []
    {
      statusFilter := status;
    }

    /** Typing in the suspension dialog. */
    method SetSuspendReason(reason: string)
      modifies this`suspendReason
      ensures suspendReason == reason
    {
      suspendReason := reason;
    }

    /** `toggleExpand`: the row opens unless it was the open one, which closes. */
    method ToggleExpand(id: int)
      modifies this`expandedUserId
      ensures expandedUserId == (if old(expandedUserId) == Some(id) then None else Some(id))
    {
      expandedUserId := if expandedUserId == Some(id) then None else Some(id);
    }

    /** `handleNameChange`. */
    method ChangeName(id: int, name: string)
      modifies this`users
      ensures users == UpdateUserName(old(users), id, name)
    {
      users := UpdateUserName(users, id, name);
    }

    /**
     * `handleStatusChangeRequest`: "suspended" only opens the dialog with an
     * empty reason for that member; any other status applies at once and
     * drops the stored reason.
     */
    method RequestStatusChange(id: int, status: UserStatus)
      modifies this`users, this`targetUserId, this`suspendReason, this`suspendModalOpen
      ensures status == Suspended ==>
        users == old(users) && targetUserId == Some(id) && suspendReason == "" && suspendModalOpen
      ensures status != Suspended ==>
        users == UpdateUserStatus(old(users), id, status, None)
        && targetUserId == old(targetUserId) && suspendReason == old(suspendReason) && suspendModalOpen == old(suspendModalOpen)
    {
      if status == Suspended {
        targetUserId := Some(id);
        suspendReason := "";
        suspendModalOpen := true;
      } else {
        users := UpdateUserStatus(users, id, status, None);
      }
    }

    /**
     * `confirmSuspend`: nothing happens without a target; a blank reason is
     * refused and the dialog stays open; otherwise the member is suspended
     * with the reason exactly as typed and the dialog closes.
     */
    method ConfirmSuspend() returns (outcome: ConfirmOutcome)
      modifies this`users, this`suspendModalOpen
      ensures outcome == NoTarget <==> !HasTarget(targetUserId)
      ensures outcome == ReasonMissing <==> HasTarget(targetUserId) && IsBlank(suspendReason)
      ensures outcome == SuspendApplied ==>
        users == UpdateUserStatus(old(users), targetUserId.value, Suspended, Some(suspendReason)) && !suspendModalOpen
      ensures outcome != SuspendApplied ==> users == old(users) && suspendModalOpen == old(suspendModalOpen)
    {
      if !HasTarget(targetUserId) {
        return NoTarget;
      }
      if IsBlank(suspendReason) {
        return ReasonMissing;
      }
      users := UpdateUserStatus(users, targetUserId.value, Suspended, Some(suspendReason));
      suspendModalOpen := false;
      outcome := SuspendApplied;
    }

    /** Closing the dialog (the X or the cancel button). */
    method CancelSuspend()
      modifies this`suspendModalOpen
      ensures !suspendModalOpen
    {
      suspendModalOpen := false;
    }

    /** The "previous" button, disabled on page 1. */
    method Prev()
      requires Valid()
      modifies this`currentPage
      ensures Valid()
      ensures currentPage == (if old(currentPage) == 1 then 1 else PrevPage(old(currentPage)))
      ensures currentPage >= 1
    {
      if currentPage != 1 {
        currentPage := PrevPage(currentPage);
      }
    }

    /** The "next" button, disabled when the page equals `totalPages`. */
    method Next()
      requires Valid()
      modifies this`currentPage
      ensures Valid()
      ensures var total := TotalPages(|Filtered()|);
        currentPage == (if old(currentPage) == total then total else NextPage(old(currentPage), total))
      ensures currentPage <= TotalPages(|Filtered()|)
    {
      var total := TotalPages(|Filtered()|);
      if currentPage != total {
        currentPage := NextPage(currentPage, total);
      }
    }
  }
}
