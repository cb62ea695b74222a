/**
  The repository's collaborators seen from the outside: the endpoint lookup
  and the two HTTP gateways (platform and identity). Each interaction is
  recorded as a `Call`; its outcome is supplied by the environment as a
  `Reply`. The k-th interaction of an operation receives `reply(k)`.
 */
module Gateway {
  import opened Wrappers
  import opened Models

  /** Which gateway an interaction goes through. */
  datatype Service = Platform | Identity

  /** An error reported by a collaborator, with its machine-readable code. */
  datatype GatewayError = GatewayError(code: string, description: string)

  /** Error code the platform reports when the user does not exist there
      (its value is that of the cf package). */
  const USER_NOT_FOUND := "20003"

  /** One interaction of the repository with a collaborator. */
  datatype Call =
      /** EndpointRepository.GetUAAEndpoint */
    | GetUaaEndpoint
      /** Gateway.NewRequest: builds a request, sends nothing */
    | NewRequest(service: Service, verb: string, path: string, body: string)
      /** a request that is sent: PerformRequest, PerformRequestForJSONResponse,
          GetResource, ListPaginatedResources, Create/Update/DeleteResource */
    | Request(service: Service, verb: string, path: string, body: string)

  /** What an interaction returns: an error or success, and whichever
      payload that interaction decodes (the identity endpoint, the id of a
      created identity, the identity `Resources` list, or the platform
      resources the pagination visited before it stopped). */
  datatype Reply = Reply(
    err: Option<GatewayError>,
    endpoint: string,
    createdId: string,
    found: seq<UaaUser>,
    visited: seq<UserResource>)

  /** The environment: the reply to each interaction, by position. */
  type Replies = nat -> Reply

  /** What an operation of the repository reports. */
  datatype Failure =
    | Remote(cause: GatewayError)
    | UserNotFound(username: string)
    | InvalidRole(role: string)

  /** A collaborator's error as the repository returns it. */
  function Lift(e: Option<GatewayError>): (f: Option<Failure>)
    ensures f.None? <==> e.None?
    ensures e.Some? ==> f.value.Remote? && f.value.cause == e.value
  {
    match e
    case None => None
    case Some(g) => Some(Remote(g))
  }

  /** The message text of each failure. */
  function Message(f: Failure): string {
    match f
    case Remote(g) => g.description
    case UserNotFound(u) => "User " + u + " not found"
    case InvalidRole(r) => "Invalid Role " + r
  }

  /** Every request sent in `calls` uses the given verb. */
  ghost predicate OnlyVerb(calls: seq<Call>, verb: string) {
    forall i :: 0 <= i < |calls| && calls[i].Request? ==> calls[i].verb == verb
  }

}
