/**
 * src/components/admin/UserManagement.tsx: the user table's search box.
 *
 * The component filters a constant list of users on every render; the filter is
 * modelled over any list, and the constant list is `USERS`.
 */
module UserManagement {
  import opened Js
  import Lists

  datatype ListedUser = ListedUser(id: int, email: string, status: string, premium: bool, pagesCount: int,
                                   lastActivity: string, registrationDate: string)

  const USERS: seq<ListedUser> := [
    ListedUser(1, "user1@example.com", "active", true, 45, "2024-01-15", "2023-12-01"),
    ListedUser(2, "user2@example.com", "inactive", false, 12, "2024-01-10", "2024-01-05"),
    ListedUser(3, "user3@example.com", "blocked", false, 8, "2024-01-08", "2024-01-03")
  ]

  /** A user matches when the e-mail contains the term, ignoring case. */
  predicate Matches(u: ListedUser, term: string)
  {
    ContainsIgnoringCase(u.email, term)
  }

  /** `users.filter(...)` with the search term. */
  function FilteredUsers(users: seq<ListedUser>, term: string): seq<ListedUser>
  {
    Lists.Filter(users, u => Matches(u, term))
  }

  /**
   * The table shows, in their order, exactly the users whose e-mail contains the term;
   * an empty term shows every user, and filtering the shown users again with the same
   * term shows them unchanged.
   */
  lemma FilteredUsersSpec(users: seq<ListedUser>, term: string)
    ensures Lists.IsSubsequence(FilteredUsers(users, term), users)
    ensures forall u :: u in FilteredUsers(users, term) <==> u in users && ContainsIgnoringCase(u.email, term)
    ensures FilteredUsers(users, "") == users
    ensures FilteredUsers(FilteredUsers(users, term), term) == FilteredUsers(users, term)
  {
    Lists.FilterIsSubsequence(users, u => Matches(u, term));
    forall u
      ensures u in FilteredUsers(users, term) <==> u in users && Matches(u, term)
    {
      Lists.FilterMembership(users, u => Matches(u, term), u);
    }
    forall i | 0 <= i < |users|
      ensures Matches(users[i], "")
    {
      ContainsIgnoringCaseSpec(users[i].email, "");
    }
    Lists.FilterKeepsAll(users, u => Matches(u, ""));
    Lists.FilterIdempotent(users, u => Matches(u, term));
  }

  /**
   * Status, premium flag and every other member play no part: two users with the same
   * e-mail are both shown or both hidden.
   */
  lemma OnlyEmailDecides(users: seq<ListedUser>, term: string, u: ListedUser, v: ListedUser)
    requires u in users && v in users && u.email == v.email
    ensures u in FilteredUsers(users, term) <==> v in FilteredUsers(users, term)
  {
    Lists.FilterMembership(users, u => Matches(u, term), u);
    Lists.FilterMembership(users, u => Matches(u, term), v);
  }

  /** Typing the term in upper or lower case shows the same users. */
  lemma SearchIgnoresTermCase(users: seq<ListedUser>, term: string)
    ensures FilteredUsers(users, Lower(term)) == FilteredUsers(users, term)
  {
    forall i | 0 <= i < |users|
      ensures Matches(users[i], Lower(term)) == Matches(users[i], term)
    {
      ContainsIgnoringCaseSpec(users[i].email, term);
    }
    Lists.FilterAgreeingTests(users, u => Matches(u, Lower(term)), u => Matches(u, term));
  }
}
