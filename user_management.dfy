/** The Admin user list: its search and role filters, the role counts and the Edit Role guard. */
module UserManagement {
  import opened Seqs
  import opened Strings
  import opened UserSearch
  import opened Auth

  function HasRole(role: string): ListedUser -> bool {
    (u: ListedUser) => u.role == role
  }

  /** The role filter: an empty choice keeps everyone, any other keeps exactly that role. */
  function RoleFiltered(users: seq<ListedUser>, roleFilter: string): (r: seq<ListedUser>)
    ensures roleFilter == "" ==> r == users
    ensures roleFilter != "" ==> r == Filter(users, HasRole(roleFilter))
  {
    if roleFilter != "" then Filter(users, HasRole(roleFilter)) else users
  }

  /** `filterUsers`: the search filter, then the role filter. */
  function FilterUsers(users: seq<ListedUser>, term: string, roleFilter: string): (r: seq<ListedUser>)
    ensures IsSubsequence(r, users)
    ensures forall u :: u in r <==>
      && u in users
      && (IsBlank(term) || Matches(u, term))
      && (roleFilter == "" || u.role == roleFilter)
  {
    var searched := Search(users, term);
    if roleFilter != "" then
      FilterIsSubsequence(searched, HasRole(roleFilter));
      SubsequenceTransitive(Filter(searched, HasRole(roleFilter)), searched, users);
      RoleFiltered(searched, roleFilter)
    else
      RoleFiltered(searched, roleFilter)
  }

  lemma {:induction false} SubsequenceTransitive<T>(a: seq<T>, b: seq<T>, c: seq<T>)
    requires IsSubsequence(a, b) && IsSubsequence(b, c)
    ensures IsSubsequence(a, c)
    decreases |c|
  {
    if a != [] && c != [] {
      if b[0] == c[0] && IsSubsequence(b[1..], c[1..]) {
        if a[0] == b[0] && IsSubsequence(a[1..], b[1..]) {
          SubsequenceTransitive(a[1..], b[1..], c[1..]);
        } else {
          SubsequenceTransitive(a, b[1..], c[1..]);
        }
      } else {
        SubsequenceTransitive(a, b, c[1..]);
      }
    }
  }

  /** Applying the role filter before the search gives the same list. */
  lemma FiltersCommute(users: seq<ListedUser>, term: string, roleFilter: string)
    ensures FilterUsers(users, term, roleFilter) == Search(RoleFiltered(users, roleFilter), term)
  {
    if roleFilter != "" && !IsBlank(term) {
      FilterCommutes(users, MatchesTerm(term), HasRole(roleFilter));
    }
  }

  /** The role column of the list, row by row. */
  function Roles(users: seq<ListedUser>): (r: seq<string>)
    ensures |r| == |users| && forall i :: 0 <= i < |users| ==> r[i] == users[i].role
  {
    seq(|users|, i requires 0 <= i < |users| => users[i].role)
  }

  /** `getRoleCount(role)`: how many rows carry exactly `role`. */
  function RoleCount(users: seq<ListedUser>, role: string): (n: nat)
    ensures n <= |users|
    ensures n == multiset(Roles(users))[role]
  {
    FilterCountsRole(users, role);
    |Filter(users, HasRole(role))|
  }

  lemma {:induction false} FilterCountsRole(users: seq<ListedUser>, role: string)
    ensures |Filter(users, HasRole(role))| == multiset(Roles(users))[role]
    decreases |users|
  {
    if users != [] {
      FilterCountsRole(users[1..], role);
      assert Roles(users) == [users[0].role] + Roles(users[1..]);
    }
  }

  /** The three role counts shown together never exceed the total, and equal it when every role is one of the three. */
  lemma {:induction false} RoleCountsBound(users: seq<ListedUser>)
    ensures RoleCount(users, PLAYER) + RoleCount(users, GROUP_LEADER) + RoleCount(users, ADMIN) <= |users|
    ensures (forall k :: 0 <= k < |users| ==> users[k].role in {PLAYER, GROUP_LEADER, ADMIN}) ==>
      RoleCount(users, PLAYER) + RoleCount(users, GROUP_LEADER) + RoleCount(users, ADMIN) == |users|
  {
    if users != [] {
      RoleCountsBound(users[1..]);
    }
  }

  /** Edit Role is offered on every row except the Admin's own. */
  predicate CanEditRole(row: ListedUser, caller: CurrentUser) {
    row.userId != caller.userId
  }

  /**
   * With distinct user ids, Edit Role is withheld from at most one row, the caller's own,
   * and is offered on every row when the caller is not in the list.
   */
  lemma OnlyOwnRowLocked(users: seq<ListedUser>, caller: CurrentUser)
    requires forall i, j :: 0 <= i < j < |users| ==> users[i].userId != users[j].userId
    ensures forall i :: 0 <= i < |users| && !CanEditRole(users[i], caller) ==> users[i].userId == caller.userId
    ensures forall i, j :: 0 <= i < |users| && 0 <= j < |users| && !CanEditRole(users[i], caller) && !CanEditRole(users[j], caller) ==> i == j
    ensures (forall i :: 0 <= i < |users| ==> users[i].userId != caller.userId) ==>
      forall i :: 0 <= i < |users| ==> CanEditRole(users[i], caller)
  {
  }
}
