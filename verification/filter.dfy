/**
  What listUsersWithPath accumulates while the platform pagination visits
  role members: one stub and one `Id eq "<guid>"` clause per member, and
  the identity-side filter made by joining the clauses with " or ".
 */
module Filter {
  import opened Models

  /** The identity-side filter clause selecting one guid. */
  function IdClause(guid: string): (c: string)
    ensures |c| == |guid| + 8
    ensures c[..7] == "Id eq \"" && c[|c| - 1] == '"'
    ensures c[7..|c| - 1] == guid
  {
    "Id eq \"" + guid + "\""
  }

  /** strings.Join: the parts in order, separated by `sep`. */
  function JoinWith(parts: seq<string>, sep: string): string {
    if parts == [] then ""
    else if |parts| == 1 then parts[0]
    else parts[0] + sep + JoinWith(parts[1..], sep)
  }

  /** The stubs of the visited members, in visit order. */
  function Stubs(visited: seq<UserResource>): (users: seq<UserFields>)
    ensures |users| == |visited|
    ensures forall i :: 0 <= i < |visited| ==> users[i] == ToFields(visited[i])
  {
    seq(|visited|, i requires 0 <= i < |visited| => ToFields(visited[i]))
  }

  /** The guid clauses of the visited members, in visit order. */
  function Clauses(visited: seq<UserResource>): (clauses: seq<string>)
    ensures |clauses| == |visited|
    ensures forall i :: 0 <= i < |visited| ==> clauses[i] == IdClause(visited[i].guid)
  {
    seq(|visited|, i requires 0 <= i < |visited| => IdClause(visited[i].guid))
  }

  /** The filter sent to the identity service for the visited members. */
  function MemberFilter(visited: seq<UserResource>): string {
    JoinWith(Clauses(visited), " or ")
  }

  /** The pagination callback run over every visited member: append the
      member's stub and its clause. */
  method CollectMembers(visited: seq<UserResource>) returns (users: seq<UserFields>, guidFilters: seq<string>)
    ensures users == Stubs(visited)
    ensures guidFilters == Clauses(visited)
  {
    users, guidFilters := [], [];
    var i := 0;
    while i < |visited|
      invariant 0 <= i <= |visited|
      invariant users == Stubs(visited[..i])
      invariant guidFilters == Clauses(visited[..i])
    {
      var user := ToFields(visited[i]);
      users := users + [user];
      guidFilters := guidFilters + [IdClause(user.Guid)];
      i := i + 1;
    }
    assert visited[..i] == visited;
  }

  /** Clause i selects exactly the guid of stub i: the two lists line up. */
  lemma StubsMatchClauses(visited: seq<UserResource>)
    ensures |Stubs(visited)| == |Clauses(visited)|
    ensures forall i :: 0 <= i < |visited| ==> Clauses(visited)[i] == IdClause(Stubs(visited)[i].Guid)
  {
  }

  /** Joining two non-empty runs of parts is joining each and separating
      the results once more. */
  lemma {:induction false} JoinAppend(a: seq<string>, b: seq<string>, sep: string)
    requires a != [] && b != []
    ensures JoinWith(a + b, sep) == JoinWith(a, sep) + sep + JoinWith(b, sep)
  {
    if |a| == 1 {
      assert (a + b)[1..] == b;
    } else {
      assert (a + b)[1..] == a[1..] + b;
      JoinAppend(a[1..], b, sep);
    }
  }

  /** Pagination order is kept: the filter for the members of two pages is
      the filter of the first, " or ", the filter of the second. */
  lemma {:induction false} FilterOfPages(page1: seq<UserResource>, page2: seq<UserResource>)
    requires page1 != [] && page2 != []
    ensures MemberFilter(page1 + page2) == MemberFilter(page1) + " or " + MemberFilter(page2)
  {
    assert Clauses(page1 + page2) == Clauses(page1) + Clauses(page2);
    JoinAppend(Clauses(page1), Clauses(page2), " or ");
  }

  /** The filter is empty exactly when no member was visited. */
  lemma FilterEmptyIff(visited: seq<UserResource>)
    ensures MemberFilter(visited) == "" <==> visited == []
  {
  }

  /** The worked example: members g1 then g2. */
  lemma TwoMembers(admin1: bool, admin2: bool)
    ensures MemberFilter([UserResource("g1", admin1), UserResource("g2", admin2)])
         == "Id eq \"g1\" or Id eq \"g2\""
  {
    var v := [UserResource("g1", admin1), UserResource("g2", admin2)];
    assert Clauses(v) == [IdClause("g1"), IdClause("g2")];
    assert [IdClause("g1"), IdClause("g2")][1..] == [IdClause("g2")];
    assert JoinWith([IdClause("g2")], " or ") == "Id eq \"g2\"";
  }

}
