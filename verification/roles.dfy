/**
  The two static role-name to path-segment tables, one per scope, and the
  two ways the repository consults them: a checked lookup (set/unset role)
  and Go's unchecked map index, which yields "" for a missing key (list).
 */
module Roles {
  import opened Wrappers
  import opened Models

  const OrgRoleToPath: map<string, string> :=
    map[ORG_USER := "users", ORG_MANAGER := "managers",
        BILLING_MANAGER := "billing_managers", ORG_AUDITOR := "auditors"]

  const SpaceRoleToPath: map<string, string> :=
    map[SPACE_MANAGER := "managers", SPACE_DEVELOPER := "developers",
        SPACE_AUDITOR := "auditors"]

  const OrgRoles: set<string> := {ORG_USER, ORG_MANAGER, BILLING_MANAGER, ORG_AUDITOR}
  const SpaceRoles: set<string> := {SPACE_MANAGER, SPACE_DEVELOPER, SPACE_AUDITOR}

  /** Checked lookup in the organization table. */
  function LookupOrgRole(role: string): (r: Option<string>)
    ensures r.Some? <==> role in OrgRoles
    ensures r.Some? ==> r.value in {"users", "managers", "billing_managers", "auditors"}
    ensures role == ORG_USER ==> r == Some("users")
    ensures role == ORG_MANAGER ==> r == Some("managers")
    ensures role == BILLING_MANAGER ==> r == Some("billing_managers")
    ensures role == ORG_AUDITOR ==> r == Some("auditors")
  {
    if role in OrgRoleToPath then Some(OrgRoleToPath[role]) else None
  }

  /** Checked lookup in the space table. */
  function LookupSpaceRole(role: string): (r: Option<string>)
    ensures r.Some? <==> role in SpaceRoles
    ensures r.Some? ==> r.value in {"managers", "developers", "auditors"}
    ensures role == SPACE_MANAGER ==> r == Some("managers")
    ensures role == SPACE_DEVELOPER ==> r == Some("developers")
    ensures role == SPACE_AUDITOR ==> r == Some("auditors")
  {
    if role in SpaceRoleToPath then Some(SpaceRoleToPath[role]) else None
  }

  /** Unchecked index into the organization table: a missing role gives "". */
  function OrgRoleSegment(role: string): (s: string)
    ensures s == "" <==> role !in OrgRoles
    ensures role in OrgRoles ==> LookupOrgRole(role) == Some(s)
  {
    if role in OrgRoleToPath then OrgRoleToPath[role] else ""
  }

  /** Unchecked index into the space table: a missing role gives "". */
  function SpaceRoleSegment(role: string): (s: string)
    ensures s == "" <==> role !in SpaceRoles
    ensures role in SpaceRoles ==> LookupSpaceRole(role) == Some(s)
  {
    if role in SpaceRoleToPath then SpaceRoleToPath[role] else ""
  }

  /** No role name resolves in both scopes: an organization role looked up
      in the space table fails, and vice versa. */
  lemma ScopesDisjoint(role: string)
    ensures !(LookupOrgRole(role).Some? && LookupSpaceRole(role).Some?)
    ensures role in OrgRoles ==> LookupSpaceRole(role) == None
    ensures role in SpaceRoles ==> LookupOrgRole(role) == None
  {
  }

}
