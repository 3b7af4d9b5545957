/** The users page loader: the stored users narrowed by a search over
    name, email and role, with the query value echoed back. */
module UsersPage {
  import opened Seqs
  import opened Text
  import opened Records

  datatype UsersPageData = UsersPageData(users: seq<User>, search: string)

  /** A user matches a lower-cased term when their name, email or role,
      lower-cased, contains it. */
  predicate UserMatches(u: User, term: string)
  {
    Contains(Lower(u.name), term) || Contains(Lower(u.email), term) || Contains(Lower(u.role), term)
  }

  function Load(stored: seq<User>, searchParam: Option<string>): (d: UsersPageData)
    ensures d.search == (if searchParam.Some? then searchParam.value else "")
    ensures IsSubsequence(d.users, stored)
    ensures d.search == "" ==> d.users == stored
    ensures d.search != "" ==>
              (forall i :: 0 <= i < |d.users| ==> UserMatches(d.users[i], Lower(d.search)))
              && (forall i :: 0 <= i < |stored| && UserMatches(stored[i], Lower(d.search)) ==>
                    stored[i] in d.users)
    ensures forall x | x in stored ::
              multiset(d.users)[x] ==
                if d.search == "" || UserMatches(x, Lower(d.search)) then multiset(stored)[x] else 0
  {
    var search := if searchParam.Some? then searchParam.value else "";
    if search != "" then
      var term := Lower(search);
      var p := u => UserMatches(u, term);
      FilterMultiplicity(stored, p);
      UsersPageData(Filter(stored, p), search)
    else
      SubsequenceReflexive(stored);
      UsersPageData(stored, search)
  }
}
