/** The admin panel: the search over the user list and the confirm-then-delete
    flow. */
module AdminPage {
  import opened Base
  import opened Text
  import opened Queries

  /** The lower-cased search occurs in the lower-cased name or email. */
  predicate UserMatches(search: string, u: UserSummary)
    requires u.name.Some?
  {
    Contains(Lower(u.name.value), Lower(search)) || Contains(Lower(u.email), Lower(search))
  }

  predicate Kept(search: string, u: UserSummary) {
    u.name.Some? && UserMatches(search, u)
  }

  /** `filteredUsers`. The name is lower-cased first for every row, so a row
      whose name is NULL makes the filter throw: None. Otherwise the matching
      users in list order. */
  function FilteredUsers(users: seq<UserSummary>, search: string): (r: Option<seq<UserSummary>>)
    ensures r.None? <==> exists i :: 0 <= i < |users| && users[i].name.None?
    ensures r.Some? ==> SubsequenceOf(r.value, users)
    ensures r.Some? ==> forall u :: u in r.value <==> u in users && UserMatches(search, u)
  {
    if exists i :: 0 <= i < |users| && users[i].name.None? then None
    else
      FilterIsSubsequence(users, u => Kept(search, u));
      Some(Filter(users, u => Kept(search, u)))
  }

  /** With an empty search every user is kept, when every user has a name. */
  lemma FilteredUsersKeepsAll(users: seq<UserSummary>)
    requires forall u :: u in users ==> u.name.Some?
    ensures FilteredUsers(users, "") == Some(users)
  {
    forall u | u in users ensures Kept("", u) {
      ContainsEmpty(Lower(u.name.value));
    }
    FilterKeepsAll(users, u => Kept("", u));
  }

  /** What `handleDeleteUser` does: nothing when the confirmation is declined;
      otherwise one delete request for that id, and a reload only when the
      request succeeded. */
  datatype DeleteFlow = Declined | Requested(userId: int, reload: bool)

  function HandleDeleteUser(id: int, confirmed: bool, ok: bool): (r: DeleteFlow)
    ensures r == Declined <==> !confirmed
    ensures r.Requested? ==> r.userId == id && (r.reload <==> ok)
  {
    if !confirmed then Declined else Requested(id, ok)
  }
}
