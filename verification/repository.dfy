/**
  The user repository façade: each operation is a strictly sequential
  protocol of interactions with the endpoint lookup and the two gateways,
  with early return on error. An operation takes the environment's replies
  and returns the interactions it performed, in order, with its result.
  `api` is the platform endpoint from the configuration and `escape` is the
  query-string escaper; both come from outside the repository.
 */
module Repository {
  import opened Wrappers
  import opened Models
  import opened Roles
  import opened Gateway
  import Reconcile
  import Filter

  /** Identity-side user query selecting id and userName under a filter
      that has already been escaped. */
  function UaaUsersQuery(uaaEndpoint: string, escapedFilter: string): string {
    uaaEndpoint + "/Users?attributes=id,userName&filter=" + escapedFilter
  }

  /** The identity-side filter selecting one user name. */
  function UsernameFilter(username: string): string {
    "userName Eq \"" + username + "\""
  }

  function OrgRolePath(api: string, orgGuid: string, segment: string, userGuid: string): string {
    api + "/v2/organizations/" + orgGuid + "/" + segment + "/" + userGuid
  }

  /** The base organization membership relation of a user. */
  function MembershipPath(api: string, orgGuid: string, userGuid: string): string {
    api + "/v2/organizations/" + orgGuid + "/users/" + userGuid
  }

  function SpaceRolePath(api: string, spaceGuid: string, segment: string, userGuid: string): string {
    api + "/v2/spaces/" + spaceGuid + "/" + segment + "/" + userGuid
  }

  /** The identity-side account creation body, formatted without escaping. */
  function NewUserBody(userName: string, email: string, password: string, givenName: string, familyName: string): string {
    "{\n  \"userName\": \"" + userName + "\",\n  \"emails\": [{\"value\":\"" + email +
    "\"}],\n  \"password\": \"" + password + "\",\n  \"name\": {\"givenName\":\"" + givenName +
    "\", \"familyName\":\"" + familyName + "\"}\n}"
  }

  /** The platform-side user creation body. */
  function GuidBody(guid: string): string {
    "{\"guid\":\"" + guid + "\"}"
  }

  /** A platform-side delete outcome after which Delete goes on: success,
      or the user was already gone from the platform. */
  predicate Tolerated(e: Option<GatewayError>) {
    e.None? || e.value.code == USER_NOT_FOUND
  }

  /** The organization role "OrgUser" lives at the membership path itself:
      granting it puts the same relation twice, revoking it removes the
      base membership. */
  lemma OrgUserRoleIsMembership(api: string, orgGuid: string, userGuid: string)
    ensures OrgRolePath(api, orgGuid, OrgRoleSegment(ORG_USER), userGuid) == MembershipPath(api, orgGuid, userGuid)
  {
  }

  // ---------------------------------------------------------------------
  // Reads
  // ---------------------------------------------------------------------

  /** Fetch the identity resources at `path` and join them with `stubs`. */
  method UpdateOrFindUsersWithUaaPath(stubs: seq<UserFields>, path: string, reply: Replies, before: seq<Call>)
    returns (users: seq<UserFields>, calls: seq<Call>, err: Option<Failure>)
    ensures calls == before + [Request(Identity, "GET", path, "")]
    ensures err == Lift(reply(|before|).err)
    ensures err.Some? ==> users == []
    ensures err.None? ==> Reconcile.IsReconciliation(stubs, reply(|before|).found, users)
  {
    var r := reply(|before|);
    calls := before + [Request(Identity, "GET", path, "")];
    if r.err.Some? {
      return [], calls, Lift(r.err);
    }
    users := Reconcile.MergeUsers(stubs, r.found);
    err := None;
  }

  method FindByUsername(username: string, escape: string -> string, reply: Replies)
    returns (user: UserFields, calls: seq<Call>, err: Option<Failure>)
    ensures 1 <= |calls| <= 2 && calls[0] == GetUaaEndpoint
    ensures |calls| == 2 <==> reply(0).err.None?
    ensures |calls| == 1 ==> err == Lift(reply(0).err)
    ensures |calls| == 2 ==>
      calls[1] == Request(Identity, "GET", UaaUsersQuery(reply(0).endpoint, escape(UsernameFilter(username))), "")
    // a failed query and an empty answer both read as "not found"
    ensures |calls| == 2 ==>
      (err.Some? <==> reply(1).err.Some? || reply(1).found == []) &&
      (err.Some? ==> err == Some(UserNotFound(username)) &&
                     Message(err.value) == "User " + username + " not found")
    ensures err.None? ==>
      reply(1).found != [] &&
      user == UserFields(reply(1).found[0].id, reply(1).found[0].username, false)
    ensures err.Some? ==> user == NoUser
  {
    calls := [GetUaaEndpoint];
    var endpoint := reply(0);
    if endpoint.err.Some? {
      return NoUser, calls, Lift(endpoint.err);
    }
    var path := UaaUsersQuery(endpoint.endpoint, escape(UsernameFilter(username)));
    var users;
    users, calls, err := UpdateOrFindUsersWithUaaPath([], path, reply, calls);
    if |users| == 0 {
      return NoUser, calls, Some(UserNotFound(username));
    }
    user := users[0];
  }

  /** What listing the members at `listPath` does: page through them on the
      platform, then ask the identity service for all of them at once. */
  ghost predicate ListProtocol(listPath: string, escape: string -> string, reply: Replies,
                               users: seq<UserFields>, calls: seq<Call>, err: Option<Failure>)
  {
    var members := reply(0).visited;
    1 <= |calls| <= 3 &&
    calls[0] == Request(Platform, "GET", listPath, "") &&
    // each step runs only when every earlier one succeeded, so a pagination
    // error returns before any identity query; the error is the last step's
    (|calls| >= 2 <==> reply(0).err.None?) &&
    (|calls| == 3 <==> reply(0).err.None? && reply(1).err.None?) &&
    err == Lift(reply(|calls| - 1).err) &&
    (|calls| >= 2 ==> calls[1] == GetUaaEndpoint) &&
    (|calls| == 3 ==>
      calls[2] == Request(Identity, "GET", UaaUsersQuery(reply(1).endpoint, escape(Filter.MemberFilter(members))), "")) &&
    // until the identity query, the stubs gathered so far are what is returned
    (|calls| < 3 ==> users == Filter.Stubs(members)) &&
    (|calls| == 3 && err.Some? ==> users == []) &&
    (err.None? ==> Reconcile.IsReconciliation(Filter.Stubs(members), reply(2).found, users))
  }

  method ListUsersWithPath(api: string, path: string, escape: string -> string, reply: Replies)
    returns (users: seq<UserFields>, calls: seq<Call>, err: Option<Failure>)
    ensures ListProtocol(api + path, escape, reply, users, calls, err)
    // the identity query is sent even when no member was visited
    ensures reply(0).err.None? && reply(1).err.None? && reply(0).visited == [] ==>
      calls[2] == Request(Identity, "GET", UaaUsersQuery(reply(1).endpoint, escape("")), "")
  {
    var page := reply(0);
    calls := [Request(Platform, "GET", api + path, "")];
    var guidFilters;
    users, guidFilters := Filter.CollectMembers(page.visited);
    if page.err.Some? {
      return users, calls, Lift(page.err);
    }
    calls := calls + [GetUaaEndpoint];
    var endpoint := reply(1);
    if endpoint.err.Some? {
      return users, calls, Lift(endpoint.err);
    }
    var filter := Filter.JoinWith(guidFilters, " or ");
    var usersUrl := UaaUsersQuery(endpoint.endpoint, escape(filter));
    users, calls, err := UpdateOrFindUsersWithUaaPath(users, usersUrl, reply, calls);
  }

  /** The role is looked up without a check: an unknown role lists the
      organization collection with an empty segment. */
  method ListUsersInOrgForRole(api: string, orgGuid: string, role: string, escape: string -> string, reply: Replies)
    returns (users: seq<UserFields>, calls: seq<Call>, err: Option<Failure>)
    ensures ListProtocol(api + "/v2/organizations/" + orgGuid + "/" + OrgRoleSegment(role), escape, reply, users, calls, err)
    ensures role !in OrgRoles ==> calls[0] == Request(Platform, "GET", api + "/v2/organizations/" + orgGuid + "/", "")
  {
    users, calls, err := ListUsersWithPath(api, "/v2/organizations/" + orgGuid + "/" + OrgRoleSegment(role), escape, reply);
    assert api + ("/v2/organizations/" + orgGuid + "/" + OrgRoleSegment(role))
        == api + "/v2/organizations/" + orgGuid + "/" + OrgRoleSegment(role);
  }

  /** As ListUsersInOrgForRole, for a space and the space table. */
  method ListUsersInSpaceForRole(api: string, spaceGuid: string, role: string, escape: string -> string, reply: Replies)
    returns (users: seq<UserFields>, calls: seq<Call>, err: Option<Failure>)
    ensures ListProtocol(api + "/v2/spaces/" + spaceGuid + "/" + SpaceRoleSegment(role), escape, reply, users, calls, err)
    ensures role !in SpaceRoles ==> calls[0] == Request(Platform, "GET", api + "/v2/spaces/" + spaceGuid + "/", "")
  {
    users, calls, err := ListUsersWithPath(api, "/v2/spaces/" + spaceGuid + "/" + SpaceRoleSegment(role), escape, reply);
    assert api + ("/v2/spaces/" + spaceGuid + "/" + SpaceRoleSegment(role))
        == api + "/v2/spaces/" + spaceGuid + "/" + SpaceRoleSegment(role);
  }

  // ---------------------------------------------------------------------
  // Account lifecycle
  // ---------------------------------------------------------------------

  /** Two-phase creation, identity first, with no compensation. */
  method Create(api: string, username: string, password: string, reply: Replies)
    returns (calls: seq<Call>, err: Option<Failure>)
    ensures 1 <= |calls| <= 4
    // each step runs only when every earlier one succeeded
    ensures forall k :: 0 <= k < |calls| - 1 ==> reply(k).err.None?
    ensures |calls| < 4 ==> reply(|calls| - 1).err.Some?
    ensures err == Lift(reply(|calls| - 1).err)
    ensures calls[0] == GetUaaEndpoint
    ensures |calls| >= 2 ==>
      calls[1] == NewRequest(Identity, "POST", reply(0).endpoint + "/Users",
                             NewUserBody(username, username, password, username, username))
    ensures |calls| >= 3 ==>
      calls[2] == Request(Identity, "POST", reply(0).endpoint + "/Users",
                          NewUserBody(username, username, password, username, username))
    // the platform user is created only after the identity account was
    ensures |calls| == 4 <==> reply(0).err.None? && reply(1).err.None? && reply(2).err.None?
    ensures |calls| == 4 ==> calls[3] == Request(Platform, "POST", api + "/v2/users", GuidBody(reply(2).createdId))
    // nothing is ever rolled back
    ensures OnlyVerb(calls, "POST")
  {
    calls := [GetUaaEndpoint];
    var endpoint := reply(0);
    if endpoint.err.Some? {
      return calls, Lift(endpoint.err);
    }
    var path := endpoint.endpoint + "/Users";
    var body := NewUserBody(username, username, password, username, username);
    calls := calls + [NewRequest(Identity, "POST", path, body)];
    var built := reply(1);
    if built.err.Some? {
      return calls, Lift(built.err);
    }
    calls := calls + [Request(Identity, "POST", path, body)];
    var created := reply(2);
    if created.err.Some? {
      return calls, Lift(created.err);
    }
    calls := calls + [Request(Platform, "POST", api + "/v2/users", GuidBody(created.createdId))];
    err := Lift(reply(3).err);
  }

  /** Two-phase deletion, platform first; a platform "user not found" is
      tolerated. */
  method Delete(api: string, userGuid: string, reply: Replies)
    returns (calls: seq<Call>, err: Option<Failure>)
    ensures 1 <= |calls| <= 3
    ensures calls[0] == Request(Platform, "DELETE", api + "/v2/users/" + userGuid, "")
    // any other platform error is returned and nothing else is done
    ensures |calls| >= 2 <==> Tolerated(reply(0).err)
    ensures |calls| == 1 ==> err == Lift(reply(0).err)
    ensures |calls| >= 2 ==> calls[1] == GetUaaEndpoint && err == Lift(reply(|calls| - 1).err)
    // at most one identity-side delete, only after a successful endpoint lookup
    ensures |calls| == 3 <==> Tolerated(reply(0).err) && reply(1).err.None?
    ensures |calls| == 3 ==> calls[2] == Request(Identity, "DELETE", reply(1).endpoint + "/Users/" + userGuid, "")
    ensures OnlyVerb(calls, "DELETE")
  {
    calls := [Request(Platform, "DELETE", api + "/v2/users/" + userGuid, "")];
    var platform := reply(0);
    if !Tolerated(platform.err) {
      return calls, Lift(platform.err);
    }
    calls := calls + [GetUaaEndpoint];
    var endpoint := reply(1);
    if endpoint.err.Some? {
      return calls, Lift(endpoint.err);
    }
    calls := calls + [Request(Identity, "DELETE", endpoint.endpoint + "/Users/" + userGuid, "")];
    err := Lift(reply(2).err);
  }

  // ---------------------------------------------------------------------
  // Roles
  // ---------------------------------------------------------------------

  /** Build and send `verb` on the organization role relation. */
  method SetOrUnsetOrgRole(api: string, verb: string, userGuid: string, orgGuid: string, role: string,
                           reply: Replies, before: seq<Call>)
    returns (calls: seq<Call>, err: Option<Failure>)
    ensures role !in OrgRoles ==> calls == before && err == Some(InvalidRole(role))
    ensures role !in OrgRoles ==> Message(err.value) == "Invalid Role " + role
    ensures role in OrgRoles ==>
      var path := OrgRolePath(api, orgGuid, OrgRoleSegment(role), userGuid);
      var n := |before|;
      if reply(n).err.Some? then
        calls == before + [NewRequest(Platform, verb, path, "")] && err == Lift(reply(n).err)
      else
        calls == before + [NewRequest(Platform, verb, path, ""), Request(Platform, verb, path, "")] &&
        err == Lift(reply(n + 1).err)
  {
    var rolePath := LookupOrgRole(role);
    if rolePath.None? {
      return before, Some(InvalidRole(role));
    }
    var path := OrgRolePath(api, orgGuid, rolePath.value, userGuid);
    calls := before + [NewRequest(Platform, verb, path, "")];
    var built := reply(|before|);
    if built.err.Some? {
      return calls, Lift(built.err);
    }
    calls := calls + [Request(Platform, verb, path, "")];
    err := Lift(reply(|before| + 1).err);
  }

  /** Ensure the base organization membership. */
  method AddOrgUserRole(api: string, userGuid: string, orgGuid: string, reply: Replies, before: seq<Call>)
    returns (calls: seq<Call>, err: Option<Failure>)
    ensures calls == before + [Request(Platform, "PUT", MembershipPath(api, orgGuid, userGuid), "")]
    ensures err == Lift(reply(|before|).err)
  {
    calls := before + [Request(Platform, "PUT", MembershipPath(api, orgGuid, userGuid), "")];
    err := Lift(reply(|before|).err);
  }

  /** Grant an organization role, then ensure base membership. */
  method SetOrgRole(api: string, userGuid: string, orgGuid: string, role: string, reply: Replies)
    returns (calls: seq<Call>, err: Option<Failure>)
    // an unknown role is rejected before anything is sent
    ensures role !in OrgRoles ==> calls == [] && err == Some(InvalidRole(role))
    ensures role in OrgRoles ==> 1 <= |calls| <= 3 && err == Lift(reply(|calls| - 1).err)
    ensures |calls| >= 1 ==> calls[0] == NewRequest(Platform, "PUT", OrgRolePath(api, orgGuid, OrgRoleSegment(role), userGuid), "")
    ensures |calls| >= 2 <==> role in OrgRoles && reply(0).err.None?
    ensures |calls| >= 2 ==> calls[1] == Request(Platform, "PUT", OrgRolePath(api, orgGuid, OrgRoleSegment(role), userGuid), "")
    // membership follows only a successful role request
    ensures |calls| == 3 <==> role in OrgRoles && reply(0).err.None? && reply(1).err.None?
    ensures |calls| == 3 ==> calls[2] == Request(Platform, "PUT", MembershipPath(api, orgGuid, userGuid), "")
    ensures OnlyVerb(calls, "PUT")
  {
    calls, err := SetOrUnsetOrgRole(api, "PUT", userGuid, orgGuid, role, reply, []);
    if err.Some? {
      return;
    }
    calls, err := AddOrgUserRole(api, userGuid, orgGuid, reply, calls);
  }

  /** Revoke an organization role; base membership is left alone. */
  method UnsetOrgRole(api: string, userGuid: string, orgGuid: string, role: string, reply: Replies)
    returns (calls: seq<Call>, err: Option<Failure>)
    ensures role !in OrgRoles ==> calls == [] && err == Some(InvalidRole(role))
    ensures role in OrgRoles ==> 1 <= |calls| <= 2 && err == Lift(reply(|calls| - 1).err)
    ensures |calls| >= 1 ==> calls[0] == NewRequest(Platform, "DELETE", OrgRolePath(api, orgGuid, OrgRoleSegment(role), userGuid), "")
    ensures |calls| == 2 <==> role in OrgRoles && reply(0).err.None?
    ensures |calls| == 2 ==> calls[1] == Request(Platform, "DELETE", OrgRolePath(api, orgGuid, OrgRoleSegment(role), userGuid), "")
    // no membership call of any kind
    ensures OnlyVerb(calls, "DELETE")
  {
    calls, err := SetOrUnsetOrgRole(api, "DELETE", userGuid, orgGuid, role, reply, []);
  }

  /** The space role relation's path, and an error when the role is not a
      space role (the path is built either way, with an empty segment). */
  function CheckSpaceRole(api: string, userGuid: string, spaceGuid: string, role: string): (r: (string, Option<Failure>))
    ensures r.1.None? <==> role in SpaceRoles
    ensures r.1.Some? ==> r.1 == Some(InvalidRole(role)) && Message(r.1.value) == "Invalid Role " + role
    ensures role in SpaceRoles ==> r.0 == SpaceRolePath(api, spaceGuid, LookupSpaceRole(role).value, userGuid)
    ensures role !in SpaceRoles ==> r.0 == SpaceRolePath(api, spaceGuid, "", userGuid)
  {
    var rolePath := LookupSpaceRole(role);
    var err := if rolePath.None? then Some(InvalidRole(role)) else None;
    (SpaceRolePath(api, spaceGuid, SpaceRoleSegment(role), userGuid), err)
  }

  /** Grant a space role: base organization membership first, then the role. */
  method SetSpaceRole(api: string, userGuid: string, spaceGuid: string, orgGuid: string, role: string, reply: Replies)
    returns (calls: seq<Call>, err: Option<Failure>)
    ensures role !in SpaceRoles ==> calls == [] && err == Some(InvalidRole(role))
    ensures role in SpaceRoles ==> 1 <= |calls| <= 2 && err == Lift(reply(|calls| - 1).err)
    ensures |calls| >= 1 ==> calls[0] == Request(Platform, "PUT", MembershipPath(api, orgGuid, userGuid), "")
    // the role is put only after membership succeeded
    ensures |calls| == 2 <==> role in SpaceRoles && reply(0).err.None?
    ensures |calls| == 2 ==> calls[1] == Request(Platform, "PUT", SpaceRolePath(api, spaceGuid, SpaceRoleSegment(role), userGuid), "")
  {
    var check := CheckSpaceRole(api, userGuid, spaceGuid, role);
    var rolePath := check.0;
    if check.1.Some? {
      return [], check.1;
    }
    calls, err := AddOrgUserRole(api, userGuid, orgGuid, reply, []);
    if err.Some? {
      return;
    }
    calls := calls + [Request(Platform, "PUT", rolePath, "")];
    err := Lift(reply(1).err);
  }

  /** Revoke a space role: one DELETE, no membership call. */
  method UnsetSpaceRole(api: string, userGuid: string, spaceGuid: string, role: string, reply: Replies)
    returns (calls: seq<Call>, err: Option<Failure>)
    ensures role !in SpaceRoles ==> calls == [] && err == Some(InvalidRole(role))
    ensures role in SpaceRoles ==>
      calls == [Request(Platform, "DELETE", SpaceRolePath(api, spaceGuid, SpaceRoleSegment(role), userGuid), "")] &&
      err == Lift(reply(0).err)
  {
    var check := CheckSpaceRole(api, userGuid, spaceGuid, role);
    if check.1.Some? {
      return [], check.1;
    }
    calls := [Request(Platform, "DELETE", check.0, "")];
    err := Lift(reply(0).err);
  }

}
