/**
  The values the user repository exchanges with its two backing services:
  the platform API (cloud controller) and the identity API (UAA).
 */
module Models {

  /** The unified user record handed back to callers. */
  datatype UserFields = UserFields(Guid: string, Username: string, IsAdmin: bool)

  /** The zero value of a user record, returned alongside an error. */
  const NoUser := UserFields("", "", false)

  /** A platform-side user resource as the paginated listing decodes it:
      its metadata guid and its entity's admin flag. */
  datatype UserResource = UserResource(guid: string, admin: bool)

  /** One entry of the identity service's `Resources` list. */
  datatype UaaUser = UaaUser(id: string, username: string)

  /** The stub a platform-side resource contributes: guid and admin flag,
      no username (that is owned by the identity service). */
  function ToFields(resource: UserResource): (u: UserFields)
    ensures u.Guid == resource.guid && u.IsAdmin == resource.admin
    ensures u.Username == ""
  {
    UserFields(resource.guid, "", resource.admin)
  }

  // Role names accepted by the repository (their values are those of the
  // cf/models package; only their pairwise distinctness matters here).
  const ORG_USER := "OrgUser"
  const ORG_MANAGER := "OrgManager"
  const BILLING_MANAGER := "BillingManager"
  const ORG_AUDITOR := "OrgAuditor"
  const SPACE_MANAGER := "SpaceManager"
  const SPACE_DEVELOPER := "SpaceDeveloper"
  const SPACE_AUDITOR := "SpaceAuditor"

}
