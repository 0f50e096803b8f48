/** The add-members dialog: who can be added, the search over them, the selection and the add button. */
module AddMembers {
  import opened Seqs
  import opened Selection
  import opened Strings
  import opened UserSearch

  datatype CurrentMember = CurrentMember(userId: string)

  function MemberIds(members: seq<CurrentMember>): (ids: seq<string>)
    ensures |ids| == |members| && forall k :: 0 <= k < |ids| ==> ids[k] == members[k].userId
  {
    seq(|members|, k requires 0 <= k < |members| => members[k].userId)
  }

  function NotIn(ids: seq<string>): ListedUser -> bool {
    (u: ListedUser) => u.userId !in ids
  }

  /** The users that can be added: everyone who is not a current member, in the order loaded. */
  function Available(users: seq<ListedUser>, members: seq<CurrentMember>): (r: seq<ListedUser>)
    ensures IsSubsequence(r, users)
    ensures forall u :: u in r <==> u in users && forall m :: m in members ==> m.userId != u.userId
  {
    var ids := MemberIds(members);
    assert forall u: ListedUser :: u.userId in ids <==> exists m :: m in members && m.userId == u.userId by {
      forall u: ListedUser
        ensures u.userId in ids ==> exists m :: m in members && m.userId == u.userId
      {
        if u.userId in ids {
          var k :| 0 <= k < |ids| && ids[k] == u.userId;
          assert members[k] in members;
        }
      }
    }
    FilterIsSubsequence(users, NotIn(ids));
    Filter(users, NotIn(ids))
  }

  /** The list shown: the available users narrowed by the search term. */
  function Shown(users: seq<ListedUser>, members: seq<CurrentMember>, term: string): (r: seq<ListedUser>)
    ensures IsBlank(term) ==> r == Available(users, members)
    ensures forall u :: u in r ==> u in users && forall m :: m in members ==> m.userId != u.userId
  {
    Search(Available(users, members), term)
  }

  /** `handleAdd`: nothing for an empty selection, otherwise the selection handed on unchanged. */
  function Add(selected: seq<string>): (r: Wrappers.Option<seq<string>>)
    ensures r.None? <==> selected == []
    ensures r.Some? ==> r.value == selected
  {
    if |selected| == 0 then Wrappers.None else Wrappers.Some(selected)
  }

  /** `toggleUserSelection` keeps a selection free of duplicates, so each user is added once. */
  lemma ToggleUserSelectionFacts(selected: seq<string>, userId: string)
    requires NoDuplicates(selected)
    ensures NoDuplicates(Toggle(selected, userId))
    ensures userId in Toggle(selected, userId) <==> userId !in selected
    ensures userId !in selected ==> Toggle(Toggle(selected, userId), userId) == selected
  {
    ToggleKeepsNoDuplicates(selected, userId);
    if userId !in selected {
      ToggleTwiceRestores(selected, userId);
    }
  }
}
