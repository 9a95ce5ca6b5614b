/** Collaborator bookkeeping: the users known to the workspace, the search
    over their e-mail addresses and the set of ids selected for invitation. */
module Collaborators {
  import opened Strings

  /** A user as the backend lists them; `id` is the `_id` field. */
  datatype User = User(id: string, email: string)

  /** `handleUserClick(id)`: the id's membership flips. */
  function Toggle(selected: set<string>, id: string): (r: set<string>)
    ensures id in r <==> id !in selected
    ensures forall other :: other != id ==> (other in r <==> other in selected)
  {
    if id in selected then selected - {id} else selected + {id}
  }

  /** Clicking the same user twice restores the selection. */
  lemma ToggleTwice(selected: set<string>, id: string)
    ensures Toggle(Toggle(selected, id), id) == selected
  {
  }

  /** The search test of `filteredUsers`: the query occurs in the e-mail
      address, ignoring case. */
  predicate Matches(u: User, query: string)
  {
    Contains(Lower(u.email), Lower(query))
  }

  /** `users.filter(...)` with the case-insensitive e-mail test. */
  function FilterUsers(users: seq<User>, query: string): (r: seq<User>)
    ensures forall u :: u in r <==> u in users && Matches(u, query)
    ensures |r| <= |users|
    decreases |users|
  {
    if |users| == 0 then []
    else
      var rest := FilterUsers(users[1..], query);
      assert forall u :: u in users <==> u == users[0] || u in users[1..];
      if Matches(users[0], query) then [users[0]] + rest else rest
  }

  /** Filtering keeps the relative order: the result of a concatenation is
      the concatenation of the results. */
  lemma {:induction false} FilterUsersAppend(a: seq<User>, b: seq<User>, query: string)
    ensures FilterUsers(a + b, query) == FilterUsers(a, query) + FilterUsers(b, query)
    decreases |a|
  {
    if |a| > 0 {
      assert (a + b)[1..] == a[1..] + b;
      FilterUsersAppend(a[1..], b, query);
    } else {
      assert a + b == b;
    }
  }

  /** An empty search lists every user, in order. */
  lemma {:induction false} EmptyQueryKeepsAll(users: seq<User>)
    ensures FilterUsers(users, "") == users
    decreases |users|
  {
    if |users| > 0 {
      ContainsEmpty(Lower(users[0].email));
      assert Lower("") == "";
      EmptyQueryKeepsAll(users[1..]);
    }
  }

  /** The case of the query does not matter. */
  lemma {:induction false} QueryCaseIrrelevant(users: seq<User>, query: string)
    ensures FilterUsers(users, query) == FilterUsers(users, Lower(query))
    decreases |users|
  {
    LowerIdempotent(query);
    if |users| > 0 {
      QueryCaseIrrelevant(users[1..], query);
    }
  }
}
