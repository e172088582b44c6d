/** The User Management screen: the role-to-permission table, adding a user, toggling a
    user's status, the search/role/status filter and the summary counts. */
module UserManagement {

  import Seqs
  import Text
  import Roles

  datatype StaffUser = StaffUser(
    id: string,
    name: string,
    email: string,
    phone: string,
    role: string,
    status: string,
    lastLogin: string,
    createdDate: string,
    permissions: seq<string>,
    loginCount: nat)

  /** The "Add New User" dialog's fields. */
  datatype NewUserForm = NewUserForm(name: string, email: string, phone: string, role: string)

  const EmptyForm: NewUserForm := NewUserForm("", "", "", "")

  /** `rolePermissions[role] || []`: the table of the five roles; any other role gets no
      permission. Only the administrator gets the wildcard. */
  function RolePermissions(role: string): (perms: seq<string>)
    ensures role == "admin" <==> perms == ["all"]
    ensures "all" in perms ==> role == "admin"
    ensures role !in Roles.KnownRoles ==> perms == []
    ensures role in Roles.KnownRoles ==> |perms| >= 1
  {
    if role == "admin" then ["all"]
    else if role == "credit_officer" then ["loans", "underwriting", "kyc"]
    else if role == "risk_manager" then ["risk", "underwriting", "loans"]
    else if role == "collections_officer" then ["collections", "disbursement"]
    else if role == "compliance_officer" then ["kyc", "compliance", "reporting"]
    else []
  }

  /** `USR${String(n).padStart(3, '0')}`. */
  function UserId(n: nat): (id: string)
    ensures |id| >= 6 && id[..3] == "USR"
    ensures n <= 999 ==> |id| == 6
  {
    Text.AtMostThreeDigits(n);
    "USR" + Text.PadStart(Text.NatToString(n), 3, '0')
  }

  /** The number in an id can be read back, so different numbers give different ids. */
  lemma UserIdInjective(m: nat, n: nat)
    requires UserId(m) == UserId(n)
    ensures m == n
  {
    var pm := Text.PadStart(Text.NatToString(m), 3, '0');
    var pn := Text.PadStart(Text.NatToString(n), 3, '0');
    assert pm == UserId(m)[3..] && pn == UserId(n)[3..];
    Text.PaddedNumberValue(m, 3);
    Text.PaddedNumberValue(n, 3);
  }

  lemma UserIdsDiffer(m: nat, n: nat)
    requires m != n
    ensures UserId(m) != UserId(n)
  {
    if UserId(m) == UserId(n) {
      UserIdInjective(m, n);
    }
  }

  /** The record `handleAddUser` appends for the `count`-th user. */
  function NewUserRecord(form: NewUserForm, count: nat, createdDate: string): (u: StaffUser)
    ensures u.id == UserId(count + 1) && u.status == "active" && u.lastLogin == "Never"
    ensures u.loginCount == 0 && u.permissions == RolePermissions(form.role)
    ensures u.name == form.name && u.email == form.email && u.phone == form.phone && u.role == form.role
  {
    StaffUser(UserId(count + 1), form.name, form.email, form.phone, form.role,
              "active", "Never", createdDate, RolePermissions(form.role), 0)
  }

  /** `newUser.name && newUser.email && newUser.role`: the three required fields are non-empty. */
  predicate FormComplete(form: NewUserForm)
  {
    form.name != "" && form.email != "" && form.role != ""
  }

  /** The status flip: 'active' becomes 'inactive' and anything else becomes 'active'. */
  function Toggled(status: string): (s: string)
    ensures s == "active" <==> status != "active"
    ensures s == "inactive" <==> status == "active"
  {
    if status == "active" then "inactive" else "active"
  }

  /** Flipping an 'active' or 'inactive' status twice restores it. */
  lemma ToggledTwice(status: string)
    requires status == "active" || status == "inactive"
    ensures Toggled(Toggled(status)) == status
  {
  }

  /** `users.map(u => u.id === userId ? { ...u, status: toggled } : u)`. */
  function ToggleStatus(users: seq<StaffUser>, userId: string): (r: seq<StaffUser>)
    ensures |r| == |users|
    ensures forall i :: 0 <= i < |r| ==>
              if users[i].id == userId then r[i] == users[i].(status := Toggled(users[i].status))
              else r[i] == users[i]
  {
    seq(|users|, i requires 0 <= i < |users| =>
      if users[i].id == userId then users[i].(status := Toggled(users[i].status)) else users[i])
  }

  /** Toggling the same id twice restores the list when its statuses are active/inactive. */
  lemma ToggleStatusTwice(users: seq<StaffUser>, userId: string)
    requires forall u :: u in users && u.id == userId ==> u.status == "active" || u.status == "inactive"
    ensures ToggleStatus(ToggleStatus(users, userId), userId) == users
  {
    var once := ToggleStatus(users, userId);
    var twice := ToggleStatus(once, userId);
    forall i | 0 <= i < |users|
      ensures twice[i] == users[i]
    {
      if users[i].id == userId {
        assert users[i] in users;
        ToggledTwice(users[i].status);
      }
    }
  }

  /** The search term matches the name, the email or the id, ignoring case. */
  predicate MatchesSearch(u: StaffUser, term: string)
  {
    Text.MatchesIgnoringCase(u.name, term)
    || Text.MatchesIgnoringCase(u.email, term)
    || Text.MatchesIgnoringCase(u.id, term)
  }

  /** The three tests of `filteredUsers`; a filter value of 'all' passes everything. */
  predicate UserMatches(u: StaffUser, term: string, roleFilter: string, statusFilter: string)
  {
    MatchesSearch(u, term)
    && (roleFilter == "all" || u.role == roleFilter)
    && (statusFilter == "all" || u.status == statusFilter)
  }

  /** `filteredUsers`: a subsequence of the users in which every entry passes the three tests,
      and from which no passing user is missing. */
  function FilteredUsers(users: seq<StaffUser>, term: string, roleFilter: string, statusFilter: string): (r: seq<StaffUser>)
    ensures Seqs.IsSubsequence(r, users)
    ensures forall u :: u in r <==> u in users && UserMatches(u, term, roleFilter, statusFilter)
    ensures forall u :: multiset(r)[u] == if UserMatches(u, term, roleFilter, statusFilter) then multiset(users)[u] else 0
  {
    var p := (u: StaffUser) => UserMatches(u, term, roleFilter, statusFilter);
    Seqs.FilterIsSubsequence(users, p);
    forall u | u in users && p(u) ensures u in Seqs.Filter(users, p) {
      Seqs.FilterKeeps(users, p, u);
    }
    Seqs.FilterMultiset(users, p);
    Seqs.Filter(users, p)
  }

  /** With an empty search and both filters at 'all', every user is listed. */
  lemma FilterDefaultsKeepAll(users: seq<StaffUser>)
    ensures FilteredUsers(users, "", "all", "all") == users
  {
    var p := (u: StaffUser) => UserMatches(u, "", "all", "all");
    forall u | u in users ensures p(u) {
      Text.ContainsEmpty(Text.ToLower(u.name));
    }
    Seqs.FilterAllPass(users, p);
  }

  predicate IsActiveUser(u: StaffUser) { u.status == "active" }

  /** The 'Active Users' card. */
  function ActiveUsers(users: seq<StaffUser>): (n: nat)
    ensures n <= |users|
  {
    Seqs.Count(users, IsActiveUser)
  }

  /** The roles present, `new Set(users.map(u => u.role))`. */
  function DistinctRoles(users: seq<StaffUser>): set<string>
  {
    set u | u in users :: u.role
  }

  /** The 'Roles' card counts the distinct roles, never more than the users. */
  lemma {:induction false} DistinctRolesBound(users: seq<StaffUser>)
    ensures |DistinctRoles(users)| <= |users|
  {
    if users != [] {
      DistinctRolesBound(users[1..]);
      assert DistinctRoles(users) == {users[0].role} + DistinctRoles(users[1..]) by {
        forall r | r in DistinctRoles(users) ensures r in {users[0].role} + DistinctRoles(users[1..]) {
          var u :| u in users && u.role == r;
          if u != users[0] {
            assert u in users[1..];
          }
        }
      }
    }
  }

  /** Adding a user adds one to the active count (a new user is always 'active'). */
  lemma AddedUserIsCounted(users: seq<StaffUser>, form: NewUserForm, createdDate: string)
    ensures ActiveUsers(users + [NewUserRecord(form, |users|, createdDate)]) == ActiveUsers(users) + 1
  {
    var u := NewUserRecord(form, |users|, createdDate);
    Seqs.FilterAppend(users, [u], IsActiveUser);
    assert Seqs.Filter([u], IsActiveUser) == [u];
  }

  /** `canManageUsers`. */
  function CanManageUsers(userRole: string): (can: bool)
    ensures can <==> userRole == "admin"
  {
    userRole == "admin"
  }

  /** The styles of `getStatusBadge`, kept as opaque tags. */
  datatype StatusStyle = ActiveStyle | InactiveStyle

  function StatusBadge(status: string): (style: StatusStyle)
    ensures style == ActiveStyle <==> status == "active"
  {
    if status == "active" then ActiveStyle else InactiveStyle
  }

  /** The seeded table of users. */
  function SeedUsers(): seq<StaffUser>
  {
    [ StaffUser("USR001", "Amit Sharma", "amit.sharma@paisadekho.com", "+91 98765 43210",
                "credit_officer", "active", "2024-01-20 14:30", "2023-06-15", ["loans", "underwriting", "kyc"], 145),
      StaffUser("USR002", "Priya Singh", "priya.singh@paisadekho.com", "+91 87654 32109",
                "collections_officer", "active", "2024-01-20 09:15", "2023-08-22", ["collections", "disbursement"], 98),
      StaffUser("USR003", "Rahul Verma", "rahul.verma@paisadekho.com", "+91 76543 21098",
                "risk_manager", "inactive", "2024-01-18 16:45", "2023-04-10", ["risk", "underwriting", "loans"], 67),
      StaffUser("USR004", "Sneha Patel", "sneha.patel@paisadekho.com", "+91 65432 10987",
                "compliance_officer", "active", "2024-01-19 11:20", "2023-09-05", ["kyc", "compliance", "reporting"], 123) ]
  }

  /** The users carry the ids `id(first)`, `id(first + 1)`, ... in order. */
  ghost predicate NumberedFrom(users: seq<StaffUser>, first: nat, id: nat -> string)
    decreases |users|
  {
    users == [] || (users[0].id == id(first) && NumberedFrom(users[1..], first + 1, id))
  }

  /** Users are only ever appended, each numbered one past the users before it
      (`users.length + 1`), so the list is numbered from 1. */
  ghost predicate IdsFollowPositions(users: seq<StaffUser>)
  {
    NumberedFrom(users, 1, UserId)
  }

  /** Under a numbering the `i`-th user carries the id numbered `first + i`. */
  lemma {:induction false} IdAt(users: seq<StaffUser>, first: nat, id: nat -> string, i: nat)
    requires NumberedFrom(users, first, id) && i < |users|
    ensures users[i].id == id(first + i)
    decreases i
  {
    if i > 0 {
      IdAt(users[1..], first + 1, id, i - 1);
    }
  }

  /** Appending the user numbered after the last keeps the numbering. */
  lemma {:induction false} AppendKeepsPositions(users: seq<StaffUser>, u: StaffUser, first: nat, id: nat -> string)
    requires NumberedFrom(users, first, id) && u.id == id(first + |users|)
    ensures NumberedFrom(users + [u], first, id)
    decreases |users|
  {
    if users == [] {
      assert ([] + [u])[1..] == [];
    } else {
      AppendKeepsPositions(users[1..], u, first + 1, id);
      assert (users + [u])[1..] == users[1..] + [u];
    }
  }

  /** Changing anything but the ids keeps the numbering. */
  lemma {:induction false} SameIdsKeepPositions(a: seq<StaffUser>, b: seq<StaffUser>, first: nat, id: nat -> string)
    requires NumberedFrom(a, first, id) && |a| == |b|
    requires forall i :: 0 <= i < |a| ==> a[i].id == b[i].id
    ensures NumberedFrom(b, first, id)
    decreases |a|
  {
    if a != [] {
      forall i | 0 <= i < |a| - 1 ensures a[1..][i].id == b[1..][i].id {
        assert a[1..][i] == a[i + 1] && b[1..][i] == b[i + 1];
      }
      SameIdsKeepPositions(a[1..], b[1..], first + 1, id);
    }
  }

  ghost predicate Injective(id: nat -> string)
  {
    forall m: nat, n: nat :: id(m) == id(n) ==> m == n
  }

  /** Numbered by an injective id function, no two users share an id. */
  lemma NumberedDistinct(users: seq<StaffUser>, first: nat, id: nat -> string)
    requires NumberedFrom(users, first, id) && Injective(id)
    ensures forall i, j :: 0 <= i < j < |users| ==> users[i].id != users[j].id
  {
    forall i, j | 0 <= i < j < |users| ensures users[i].id != users[j].id {
      IdAt(users, first, id, i);
      IdAt(users, first, id, j);
    }
  }

  lemma UserIdIsInjective()
    ensures Injective(UserId)
  {
    forall m: nat, n: nat | UserId(m) == UserId(n) ensures m == n {
      UserIdInjective(m, n);
    }
  }

  /** The seeded ids USR001..USR004 follow that numbering. */
  lemma SeedIdsFollowPositions()
    ensures IdsFollowPositions(SeedUsers())
  {
    SeedIds();
    FirstIds();
    FourIdsFollowPositions(SeedUsers());
  }

  /** The ids of the seeded table, in order. */
  lemma SeedIds()
    ensures |SeedUsers()| == 4
    ensures SeedUsers()[0].id == "USR001" && SeedUsers()[1].id == "USR002"
    ensures SeedUsers()[2].id == "USR003" && SeedUsers()[3].id == "USR004"
  {
  }

  lemma FourIdsFollowPositions(users: seq<StaffUser>)
    requires |users| == 4
    requires users[0].id == UserId(1) && users[1].id == UserId(2)
    requires users[2].id == UserId(3) && users[3].id == UserId(4)
    ensures IdsFollowPositions(users)
  {
    assert users[3..][1..] == [];
    assert NumberedFrom(users[3..], 4, UserId);
    assert users[2..][1..] == users[3..];
    assert NumberedFrom(users[2..], 3, UserId);
    assert users[1..][1..] == users[2..];
    assert NumberedFrom(users[1..], 2, UserId);
  }

  /** The first four ids, written out. */
  lemma FirstIds()
    ensures UserId(1) == "USR001" && UserId(2) == "USR002"
    ensures UserId(3) == "USR003" && UserId(4) == "USR004"
  {
    SingleDigitId(1);
    SingleDigitId(2);
    SingleDigitId(3);
    SingleDigitId(4);
  }

  lemma SingleDigitId(d: nat)
    requires 1 <= d <= 9
    ensures UserId(d) == "USR00" + [Text.DigitChar(d)]
  {
    var s := Text.NatToString(d);
    assert s == [Text.DigitChar(d)];
    assert Text.Repeat('0', 2) == "00";
    assert Text.PadStart(s, 3, '0') == "00" + s;
  }

  /** Under that numbering no two users share an id. */
  lemma IdsDistinct(users: seq<StaffUser>)
    requires IdsFollowPositions(users)
    ensures forall i, j :: 0 <= i < j < |users| ==> users[i].id != users[j].id
  {
    UserIdIsInjective();
    NumberedDistinct(users, 1, UserId);
  }

  /** The component's state: the user list, the dialog's form and whether it is open. */
  class UserDirectory {
    var users: seq<StaffUser>
    var newUser: NewUserForm
    var isAddUserOpen: bool

    ghost predicate Valid()
      reads this
    {
      IdsFollowPositions(users)
    }

    constructor (initial: seq<StaffUser>)
      ensures users == initial && newUser == EmptyForm && !isAddUserOpen
      ensures IdsFollowPositions(initial) ==> Valid()
    {
      users := initial;
      newUser := EmptyForm;
      isAddUserOpen := false;
    }

    /** The dialog's inputs write the form. */
    method EditForm(form: NewUserForm)
      requires Valid()
      modifies this
      ensures Valid()
      ensures newUser == form && users == old(users) && isAddUserOpen == old(isAddUserOpen)
    {
      newUser := form;
    }

    /** `handleAddUser`: with name, email and role filled, appends the new record at the end,
        clears the form and closes the dialog; otherwise changes nothing. */
    method AddUser(createdDate: string)
      requires Valid()
      modifies this
      ensures Valid()
      ensures !FormComplete(old(newUser)) ==>
                users == old(users) && newUser == old(newUser) && isAddUserOpen == old(isAddUserOpen)
      ensures FormComplete(old(newUser)) ==>
                users == old(users) + [NewUserRecord(old(newUser), |old(users)|, createdDate)]
                && newUser == EmptyForm && !isAddUserOpen
    {
      if FormComplete(newUser) {
        var user := NewUserRecord(newUser, |users|, createdDate);
        AppendKeepsPositions(users, user, 1, UserId);
        users := users + [user];
        newUser := EmptyForm;
        isAddUserOpen := false;
      }
    }

    /** `toggleUserStatus(userId)`: flips the status of the users with that id only. */
    method ToggleUserStatus(userId: string)
      requires Valid()
      modifies this
      ensures Valid()
      ensures users == ToggleStatus(old(users), userId)
      ensures newUser == old(newUser) && isAddUserOpen == old(isAddUserOpen)
    {
      SameIdsKeepPositions(users, ToggleStatus(users, userId), 1, UserId);
      users := ToggleStatus(users, userId);
    }
  }
}
