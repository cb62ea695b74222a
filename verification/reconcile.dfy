/**
  The join of platform-side stubs with identity-side resources
  (updateOrFindUsersWithUAAPath after its fetch): driven by the identity
  list, each entry takes the admin flag of the first stub with an equal
  guid, or false when there is none.
 */
module Reconcile {
  import opened Models

  /** Position of the first stub whose guid is `id`, or `|stubs|` if none. */
  function FirstIndex(stubs: seq<UserFields>, id: string): (k: nat)
    ensures k <= |stubs|
    ensures forall j :: 0 <= j < k ==> stubs[j].Guid != id
    ensures k < |stubs| ==> stubs[k].Guid == id
  {
    if stubs == [] then 0
    else if stubs[0].Guid == id then 0
    else 1 + FirstIndex(stubs[1..], id)
  }

  /** The admin flag the join gives to identifier `id`. */
  function AdminOf(stubs: seq<UserFields>, id: string): bool {
    var k := FirstIndex(stubs, id);
    if k < |stubs| then stubs[k].IsAdmin else false
  }

  /** The record the join produces for one identity-side resource. */
  function Merged(stubs: seq<UserFields>, r: UaaUser): UserFields {
    UserFields(r.id, r.username, AdminOf(stubs, r.id))
  }

  /** `out` is the join of `stubs` with `resources`: one record per
      resource, in the resources' order. */
  ghost predicate IsReconciliation(stubs: seq<UserFields>, resources: seq<UaaUser>, out: seq<UserFields>) {
    |out| == |resources| &&
    forall i :: 0 <= i < |resources| ==> out[i] == Merged(stubs, resources[i])
  }

  /** The nested loop of the source: for each resource, a linear search
      over the stubs that stops at the first equal guid. */
  method MergeUsers(stubs: seq<UserFields>, resources: seq<UaaUser>) returns (updated: seq<UserFields>)
    ensures IsReconciliation(stubs, resources, updated)
  {
    updated := [];
    var i := 0;
    while i < |resources|
      invariant 0 <= i <= |resources|
      invariant IsReconciliation(stubs, resources[..i], updated)
    {
      var resource := resources[i];
      var matched := NoUser;
      var j := 0;
      while j < |stubs|
        invariant 0 <= j <= |stubs|
        invariant forall k :: 0 <= k < j ==> stubs[k].Guid != resource.id
        invariant matched == NoUser
      {
        if stubs[j].Guid == resource.id {
          matched := stubs[j];
          break;
        }
        j := j + 1;
      }
      updated := updated + [UserFields(resource.id, resource.username, matched.IsAdmin)];
      i := i + 1;
    }
    assert resources[..i] == resources;
  }

  /** With several stubs sharing a guid, the first one decides the flag. */
  lemma FirstStubWins(stubs: seq<UserFields>, id: string, k: nat)
    requires k < |stubs| && stubs[k].Guid == id
    requires forall j :: 0 <= j < k ==> stubs[j].Guid != id
    ensures AdminOf(stubs, id) == stubs[k].IsAdmin
  {
  }

  /** The admin flag is true exactly when some stub with that guid is an
      admin and no earlier stub carries that guid. */
  lemma AdminOfMeaning(stubs: seq<UserFields>, id: string)
    ensures AdminOf(stubs, id) <==>
      exists k :: 0 <= k < |stubs| && stubs[k].Guid == id && stubs[k].IsAdmin &&
        forall j :: 0 <= j < k ==> stubs[j].Guid != id
  {
  }

  /** A resource whose guid no stub carries is never an admin. */
  lemma UnmatchedIsNotAdmin(stubs: seq<UserFields>, id: string)
    requires forall j :: 0 <= j < |stubs| ==> stubs[j].Guid != id
    ensures !AdminOf(stubs, id)
  {
  }

  /** The join is a function of its inputs. */
  lemma ReconciliationUnique(stubs: seq<UserFields>, resources: seq<UaaUser>, a: seq<UserFields>, b: seq<UserFields>)
    requires IsReconciliation(stubs, resources, a)
    requires IsReconciliation(stubs, resources, b)
    ensures a == b
  {
  }

  /** An empty identity-side list gives an empty join, whatever the stubs. */
  lemma EmptyIdentitySide(stubs: seq<UserFields>, out: seq<UserFields>)
    ensures IsReconciliation(stubs, [], out) <==> out == []
  {
  }

  /** The worked example: identity [(1,a),(2,b)], platform [(2, admin)]. */
  lemma Example()
    ensures IsReconciliation(
      [UserFields("2", "", true)],
      [UaaUser("1", "a"), UaaUser("2", "b")],
      [UserFields("1", "a", false), UserFields("2", "b", true)])
  {
  }

}
