# User and role reconciliation of the cf CLI, in Dafny

This project models the user repository of the Cloud Foundry command-line
client (`src/cf/api/users.go`). The repository joins two sources of user
data. The platform API (cloud controller) owns guids, admin flags and role
relations. The identity API (UAA) owns user names and accounts. The model
covers four things:

- the two static role tables, one for organization roles and one for space roles (`roles.dfy`);
- the stub and filter accumulation done while paging through the members of a role (`filter.dfy`);
- the client-side join of platform stubs with identity resources (`reconcile.dfy`);
- the multi-step operations `FindByUsername`, the two list operations, `Create`, `Delete`,
  `SetOrgRole`, `UnsetOrgRole`, `SetSpaceRole` and `UnsetSpaceRole` (`repository.dfy`).

## How the collaborators are modelled

The endpoint lookup and the two HTTP gateways are outside the model. Each
interaction with them is recorded as a `Gateway.Call`:

- `GetUaaEndpoint` is the identity endpoint lookup.
- `NewRequest` builds a request and sends nothing.
- `Request` is anything actually sent to a service.

Each operation returns the list of interactions it performed, in order.
The environment supplies the outcome of each one as a function
`reply: nat -> Reply`, and the k-th interaction receives `reply(k)`. A
`Reply` carries an optional error with its code, plus whatever payload that
interaction decodes. The operations are methods that build this trace step
by step and return early on error, as the source does. Their `ensures`
state the protocol: which call comes first, which call is issued only after
which succeeded, which calls are never issued, and which error is returned.

The join and the accumulation are loops in the source. Each becomes a
method proved against a specification: `Reconcile.IsReconciliation` for the
join, and `Filter.Stubs` and `Filter.Clauses` for the accumulation.

Where the described design and the code differ, the model follows the code:

- The list operations index the role table without checking it, so an unknown role lists the
  collection with an empty path segment (`src/cf/api/users.go:98`, `:102`). Only set and unset
  report "Invalid Role".
- `listUsersWithPath` always sends the identity query, even when no member was visited and the
  filter is empty.
- `FindByUsername` reports any failure of the identity query as "user not found", because a
  failed fetch yields an empty list.
- `UnsetOrgRole` sends no membership call. But the role path of `OrgUser` *is* the membership path
  (`Repository.OrgUserRoleIsMembership`). So revoking that role removes base membership, and
  granting it puts the same relation twice.
- On a pagination error, or an endpoint-lookup error after pagination, `listUsersWithPath` returns
  the stubs gathered so far together with the error.

## Model

| member | source | states |
|---|---|---|
| `Models.ToFields` | src/cf/api/users.go:26-31 | the stub carries the resource's guid and admin flag and no user name |
| `Roles.LookupOrgRole` | src/cf/api/users.go:38-43 | the organization table resolves exactly OrgUser, OrgManager, BillingManager and OrgAuditor, each to its own segment: users, managers, billing_managers, auditors respectively |
| `Roles.LookupSpaceRole` | src/cf/api/users.go:45-49 | the space table resolves exactly SpaceManager, SpaceDeveloper and SpaceAuditor, each to its own segment: managers, developers, auditors respectively |
| `Roles.OrgRoleSegment` | src/cf/api/users.go:98 | the unchecked index gives "" exactly for roles outside the organization table, else the looked-up segment |
| `Roles.SpaceRoleSegment` | src/cf/api/users.go:102 | the unchecked index gives "" exactly for roles outside the space table, else the looked-up segment |
| `Roles.ScopesDisjoint` | src/cf/api/users.go:38-49 | no role name resolves in both tables; an organization role fails in the space table and vice versa |
| `Reconcile.FirstIndex` | src/cf/api/users.go:144-149 | the position found is the first stub with the guid, or the end when no stub has it |
| `Reconcile.MergeUsers` | src/cf/api/users.go:141-156 | the nested search loop yields one record per identity resource, in identity order, with that resource's guid and name and the admin flag of the first matching stub (false if none) |
| `Reconcile.FirstStubWins` | src/cf/api/users.go:144-149 | among stubs sharing a guid, the first one decides the admin flag |
| `Reconcile.AdminOfMeaning` | src/cf/api/users.go:141-156 | a joined record is an admin exactly when the first stub with its guid exists and is an admin |
| `Reconcile.UnmatchedIsNotAdmin` | src/cf/api/users.go:142-154 | an identity resource with no platform stub is not an admin |
| `Reconcile.ReconciliationUnique` | src/cf/api/users.go:141-156 | the join result is determined by its two inputs |
| `Reconcile.EmptyIdentitySide` | src/cf/api/users.go:141-157 | an empty identity list joins to the empty list whatever the stubs |
| `Reconcile.Example` | src/cf/api/users.go:141-156 | identity [(1,a),(2,b)] with platform [(2,admin)] joins to [(1,a,false),(2,b,true)] |
| `Filter.IdClause` | src/cf/api/users.go:116 | a clause is `Id eq "`, then exactly the guid, then a closing quote |
| `Filter.Stubs` | src/cf/api/users.go:114-115 | one stub per visited member, in visit order |
| `Filter.Clauses` | src/cf/api/users.go:116 | one guid clause per visited member, in visit order |
| `Filter.CollectMembers` | src/cf/api/users.go:113-118 | the pagination callback's appends produce exactly the stubs and the clauses of the visited members |
| `Filter.StubsMatchClauses` | src/cf/api/users.go:114-116 | stubs and clauses have the same length and clause i selects the guid of stub i |
| `Filter.JoinAppend` | src/cf/api/users.go:128 | joining two non-empty runs is joining each and putting one separator between them |
| `Filter.FilterOfPages` | src/cf/api/users.go:108-128 | the filter for two non-empty pages of members is the first page's filter, " or ", the second page's filter |
| `Filter.FilterEmptyIff` | src/cf/api/users.go:128 | the filter is empty exactly when no member was visited |
| `Filter.TwoMembers` | src/cf/api/users.go:113-128 | members g1 then g2 give the filter `Id eq "g1" or Id eq "g2"` |
| `Repository.OrgUserRoleIsMembership` | src/cf/api/users.go:236 | the OrgUser role relation is the base membership relation |
| `Repository.UpdateOrFindUsersWithUaaPath` | src/cf/api/users.go:134-158 | one identity GET; on error the empty list and that error, else the join of the stubs with the resources |
| `Repository.FindByUsername` | src/cf/api/users.go:78-95 | endpoint lookup, then one identity query on the escaped `userName Eq` filter; no resources or a failed query gives "not found" naming the user (message "User <name> not found"); otherwise the first resource, never an admin |
| `Repository.ListUsersWithPath` | src/cf/api/users.go:105-132 | platform listing, then endpoint lookup, then one identity query on the escaped member filter, each only after the previous succeeded; a pagination error returns before any identity query; the identity query is sent even for zero members; the result is the join of the stubs with the answer |
| `Repository.ListUsersInOrgForRole` | src/cf/api/users.go:97-99 | the list protocol on the organization role collection; an unknown role lists with an empty segment |
| `Repository.ListUsersInSpaceForRole` | src/cf/api/users.go:101-103 | the list protocol on the space role collection; an unknown role lists with an empty segment |
| `Repository.Create` | src/cf/api/users.go:160-197 | endpoint lookup, request build, identity POST whose body uses the user name as userName, email, given and family name, then the platform POST of the returned id; each step only after all earlier ones succeeded; the error is the last step's; only POSTs, so nothing is rolled back |
| `Repository.Delete` | src/cf/api/users.go:199-214 | platform DELETE first; an error other than USER_NOT_FOUND is returned and nothing else is sent; otherwise endpoint lookup and at most one identity DELETE on `<uaa>/Users/<guid>`; only DELETEs |
| `Repository.SetOrUnsetOrgRole` | src/cf/api/users.go:228-248 | an unknown organization role gives "Invalid Role <role>" and no call; otherwise build then send the verb on the role relation, stopping at the first error |
| `Repository.AddOrgUserRole` | src/cf/api/users.go:283-286 | one PUT on the membership relation, returning its error |
| `Repository.SetOrgRole` | src/cf/api/users.go:216-222 | unknown role: "Invalid Role", nothing sent; otherwise the role PUT, and the membership PUT only after the role request succeeded; only PUTs |
| `Repository.UnsetOrgRole` | src/cf/api/users.go:224-226 | unknown role: "Invalid Role", nothing sent; otherwise only the DELETE on the role relation, no membership call |
| `Repository.CheckSpaceRole` | src/cf/api/users.go:272-281 | "Invalid Role <role>" exactly for roles outside the space table; the path is built either way, with an empty segment for an unknown role |
| `Repository.SetSpaceRole` | src/cf/api/users.go:250-262 | unknown role: "Invalid Role", nothing sent; otherwise the membership PUT strictly before the space role PUT, which is skipped when membership fails |
| `Repository.UnsetSpaceRole` | src/cf/api/users.go:264-270 | unknown role: "Invalid Role", nothing sent; otherwise exactly one DELETE on the space role relation and no membership call |

## Left out

- The gateways' HTTP, pagination, JSON decoding and access tokens. Each interaction is a recorded `Call` whose outcome is supplied; the token passed to every call is not recorded.
- The endpoint repository and the configuration. The identity endpoint is a reply; the platform endpoint is the parameter `api`.
- Query-string escaping (`net/url.QueryEscape`). It is a parameter `escape`, and properties are stated on the filter before escaping.
- JSON well-formedness of the request bodies. The source formats them without escaping, and the model builds them by plain concatenation.
- Early stop of the pagination. The source's callback always continues, so the model has every visited member processed.
- The values of the role-name constants and of the USER_NOT_FOUND code. They come from the cf/models and cf packages, which are not part of this model; the properties depend only on their being distinct.
- Error kinds beyond their text. `Gateway.Message` gives "User … not found" and "Invalid Role …"; which Go error type carries them is not modelled.
- `NewCloudControllerUserRepository`, which only stores its four collaborators.
- `cf/commands/space/spaces_test.go`, a test of terminal output with no user or role logic.
- Races between clients on the remote role state, which this code neither causes nor guards against.
