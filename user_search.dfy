/**
 * The user search both user lists use: a blank term shows everyone, any other term is
 * lower-cased and looked for in the lower-cased email or, when set, the lower-cased name.
 */
module UserSearch {
  import opened Wrappers
  import opened Seqs
  import opened Strings

  /** A user as the user lists receive it; `name` may be absent or empty. */
  datatype ListedUser = ListedUser(userId: string, email: string, name: Option<string>, role: string)

  /** `u.email.toLowerCase().includes(t) || (u.name && u.name.toLowerCase().includes(t))`, t the lower-cased term. */
  predicate Matches(u: ListedUser, term: string) {
    || Contains(ToLower(u.email), ToLower(term))
    || (u.name.Some? && u.name.value != "" && Contains(ToLower(u.name.value), ToLower(term)))
  }

  function MatchesTerm(term: string): ListedUser -> bool {
    u => Matches(u, term)
  }

  /** The search filter: nothing is filtered for a term that trims to empty. */
  function Search(users: seq<ListedUser>, term: string): (r: seq<ListedUser>)
    ensures IsBlank(term) ==> r == users
    ensures !IsBlank(term) ==> forall u :: u in r <==> u in users && Matches(u, term)
    ensures IsSubsequence(r, users)
  {
    if Trim(term) == "" then
      SubsequenceOfItself(users);
      users
    else
      FilterIsSubsequence(users, MatchesTerm(term));
      Filter(users, MatchesTerm(term))
  }

  lemma {:induction false} SubsequenceOfItself<T>(s: seq<T>)
    ensures IsSubsequence(s, s)
  {
    if s != [] {
      SubsequenceOfItself(s[1..]);
    }
  }

  lemma ToLowerIdempotent(s: string)
    ensures ToLower(ToLower(s)) == ToLower(s)
  {
  }

  /** The search ignores the case of the term. */
  lemma SearchIgnoresCase(users: seq<ListedUser>, term: string)
    requires !IsBlank(term)
    ensures forall u :: u in Search(users, term) <==> u in Search(users, ToLower(term))
  {
    ToLowerIdempotent(term);
    assert !IsBlank(ToLower(term)) by {
      var i :| 0 <= i < |term| && !IsSpace(term[i]);
      assert ToLower(term)[i] == LowerChar(term[i]);
    }
  }
}
