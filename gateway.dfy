/** The six proxying route handlers of the API gateway. Each issues one
    upstream call that mirrors the inbound request, then turns how that call
    settled into an inbound status and a `{success, data, message, error}`
    envelope. The upstream call itself is an input (`Outcome`). */
module Gateway {
  import opened Wrappers
  import opened Json
  import opened Profile

  datatype Verb = GET | POST | PUT | DELETE

  /** An inbound request on one of the proxying routes, with its `:id` path
      parameter and, for POST and PUT, the parsed JSON body (`None` when absent). */
  datatype Route =
    | ListUsers
    | GetUser(id: string)
    | CreateUser(body: Option<Json>)
    | UpdateUser(id: string, body: Option<Json>)
    | DeleteUser(id: string)
    | UserProfile(id: string)

  /** An outbound call to the data service. */
  datatype Request = Request(verb: Verb, url: string, body: Option<Json>)

  /** How the upstream call settled. */
  datatype Outcome =
    | Ok(body: Json)                         // resolved; `body` is `response.data`
    | HttpErr(status: int, message: string)  // rejected with `error.response.status`
    | TransportErr(message: string)          // rejected without `error.response`

  /** The `error` field of a failure envelope: the upstream error's message, or
      the `TypeError` the handler raised itself. Message texts are opaque. */
  datatype Detail = Upstream(message: string) | Local(fault: Fault)

  /** The JSON body of every gateway answer; `None` fields are not written. */
  datatype Envelope = Envelope(success: bool, data: Option<Json>, message: string, error: Option<Detail>)

  datatype Response = Response(status: int, envelope: Envelope)

  /** What a handler's `catch` block receives: `error.response?.status` and the
      error it describes. */
  datatype Caught = Caught(status: Option<int>, detail: Detail)

  /** The HTTP method each route is registered under. */
  function InboundVerb(route: Route): Verb
  {
    match route
    case ListUsers => GET
    case GetUser(_) => GET
    case CreateUser(_) => POST
    case UpdateUser(_, _) => PUT
    case DeleteUser(_) => DELETE
    case UserProfile(_) => GET
  }

  /** The inbound path, with the `:id` parameter filled in. */
  function InboundPath(route: Route): string
  {
    match route
    case ListUsers => "/api/users"
    case CreateUser(_) => "/api/users"
    case GetUser(id) => "/api/users/" + id
    case UpdateUser(id, _) => "/api/users/" + id
    case DeleteUser(id) => "/api/users/" + id
    case UserProfile(id) => "/api/users/" + id + "/profile"
  }

  /** The one axios call each handler makes, against the configured base URL:
      with the inbound verb, and with the inbound body forwarded unchanged exactly
      for POST and PUT. */
  function Outbound(base: string, route: Route): (r: Request)
    ensures r.verb == InboundVerb(route)
    ensures r.body == if route.CreateUser? || route.UpdateUser? then route.body else None
  {
    match route
    case ListUsers => Request(GET, base + "/api/users", None)
    case GetUser(id) => Request(GET, base + "/api/users/" + id, None)
    case CreateUser(body) => Request(POST, base + "/api/users", body)
    case UpdateUser(id, body) => Request(PUT, base + "/api/users/" + id, body)
    case DeleteUser(id) => Request(DELETE, base + "/api/users/" + id, None)
    case UserProfile(id) => Request(GET, base + "/api/users/" + id, None)
  }

  /** The outbound call goes to the inbound path under the base URL (the profile
      route fetches the plain user). */
  lemma OutboundMirrorsInbound(base: string, route: Route)
    ensures !route.UserProfile? ==> Outbound(base, route).url == base + InboundPath(route)
    ensures route.UserProfile? ==> Outbound(base, route).url + "/profile" == base + InboundPath(route)
  {
    match route
    case ListUsers =>
    case CreateUser(_) =>
    case GetUser(id) => assert base + "/api/users/" + id == base + ("/api/users/" + id);
    case UpdateUser(id, _) => assert base + "/api/users/" + id == base + ("/api/users/" + id);
    case DeleteUser(id) => assert base + "/api/users/" + id == base + ("/api/users/" + id);
    case UserProfile(id) =>
      assert base + "/api/users/" + id + "/profile" == base + ("/api/users/" + id + "/profile");
  }

  function SuccessMessage(route: Route): string
  {
    match route
    case ListUsers => "Users retrieved from data service"
    case GetUser(_) => "User retrieved from data service"
    case CreateUser(_) => "User created via data service"
    case UpdateUser(_, _) => "User updated via data service"
    case DeleteUser(_) => "User deleted via data service"
    case UserProfile(_) => "Enhanced profile generated"
  }

  function FailureMessage(route: Route): string
  {
    match route
    case ListUsers => "Failed to fetch users from data service"
    case GetUser(_) => "Failed to fetch user from data service"
    case CreateUser(_) => "Failed to create user via data service"
    case UpdateUser(_, _) => "Failed to update user via data service"
    case DeleteUser(_) => "Failed to delete user via data service"
    case UserProfile(_) => "Failed to generate user profile"
  }

  /** `response.data.data`: throws on a `null` upstream body, is `undefined`
      when the body is not an object or has no `data` field. */
  function DataField(body: Json): (r: Result<Option<Json>, Fault>)
    ensures r.Failure? <==> body.JNull?
    ensures r.Success? ==> r.value == Get(body, "data")
  {
    if body.JNull? then Failure(BodyNullish) else Success(Get(body, "data"))
  }

  /** The `try` block of a handler once the upstream call has resolved with `body`. */
  function Handle(route: Route, body: Json, clock: string): (r: Result<Response, Caught>)
    // it throws exactly on a `null` body or, for the profile, a user it cannot derive from;
    // DELETE never reads the body
    ensures r.Failure? <==>
      !route.DeleteUser? && (body.JNull? || (route.UserProfile? && !Derivable(Get(body, "data"))))
    // what it throws is the handler's own `TypeError`, with no `error.response`
    ensures r.Failure? ==> r.error.status.None? && r.error.detail.Local?
    ensures r.Success? ==> r.value.envelope.success && r.value.envelope.error.None?
                           && r.value.envelope.message == SuccessMessage(route)
  {
    if route.DeleteUser? then
      Success(Response(200, Envelope(true, None, SuccessMessage(route), None)))
    else
      match DataField(body)
      case Failure(f) => Failure(Caught(None, Local(f)))
      case Success(data) =>
        if route.UserProfile? then
          match Derive(data, clock)
          case Failure(f) => Failure(Caught(None, Local(f)))
          case Success(profile) =>
            Success(Response(200, Envelope(true, Some(JObj(profile)), SuccessMessage(route), None)))
        else
          Success(Response(if route.CreateUser? then 201 else 200, Envelope(true, data, SuccessMessage(route), None)))
  }

  /** The whole `try` block: a rejected upstream call throws into the `catch`. */
  function Attempt(route: Route, outcome: Outcome, clock: string): (r: Result<Response, Caught>)
    // a rejected call always reaches the `catch`, carrying the upstream message
    ensures !outcome.Ok? ==> r.Failure? && r.error.detail == Upstream(outcome.message)
    // a status reaches the `catch` only from an upstream error response
    ensures r.Failure? && r.error.status.Some? ==> outcome.HttpErr? && r.error.status.value == outcome.status
    // a `TypeError` of the handler's own arises only after the call resolved
    ensures r.Failure? && r.error.detail.Local? ==> outcome.Ok? && r.error.status.None?
  {
    match outcome
    case Ok(body) => Handle(route, body, clock)
    case HttpErr(status, message) => Failure(Caught(Some(status), Upstream(message)))
    case TransportErr(message) => Failure(Caught(None, Upstream(message)))
  }

  /** The status a `catch` block answers with: always 500 for the list route,
      otherwise `error.response?.status || 500` (a missing or zero status falls
      back to 500). */
  function FailureStatus(route: Route, status: Option<int>): (r: int)
    ensures r != 0
    ensures r == 500 || (!route.ListUsers? && status == Some(r))
    ensures !route.ListUsers? && status.Some? && status.value != 0 ==> r == status.value
  {
    if route.ListUsers? then 500
    else match status
      case Some(s) => if s != 0 then s else 500
      case None => 500
  }

  /** The answer to `route` when the upstream call settled as `outcome`;
      `clock` is the current time text the profile route stamps. */
  function Respond(route: Route, outcome: Outcome, clock: string): (r: Response)
    // every envelope is either a success without `error` or a failure with an
    // `error` and no `data`, carrying the route's own message
    ensures r.envelope.success <==> r.envelope.error.None?
    ensures !r.envelope.success ==> r.envelope.data.None?
    ensures r.envelope.message == if r.envelope.success then SuccessMessage(route) else FailureMessage(route)
    ensures r.envelope.success ==> r.status == 200 || r.status == 201
  {
    match Attempt(route, outcome, clock)
    case Success(response) => response
    case Failure(caught) =>
      Response(FailureStatus(route, caught.status),
               Envelope(false, None, FailureMessage(route), Some(caught.detail)))
  }

  /** When the request succeeds: a resolved upstream call, and (except for DELETE,
      which never reads the body) a body that is not `null` and, for the profile, a
      user record with a string name and email. */
  lemma SuccessExactly(route: Route, outcome: Outcome, clock: string)
    ensures route.DeleteUser? ==> (Respond(route, outcome, clock).envelope.success <==> outcome.Ok?)
    ensures route.UserProfile? ==>
      (Respond(route, outcome, clock).envelope.success <==>
         outcome.Ok? && !outcome.body.JNull? && Derivable(Get(outcome.body, "data")))
    ensures !route.DeleteUser? && !route.UserProfile? ==>
      (Respond(route, outcome, clock).envelope.success <==> outcome.Ok? && !outcome.body.JNull?)
  {
  }

  /** A successful answer: 201 for POST and 200 otherwise; `data` is the upstream
      body's `data` field, the derived profile for the profile route, and absent
      for DELETE. */
  lemma SuccessEnvelope(route: Route, outcome: Outcome, clock: string)
    requires Respond(route, outcome, clock).envelope.success
    ensures Respond(route, outcome, clock).status == if route.CreateUser? then 201 else 200
    ensures outcome.Ok?
    ensures route.DeleteUser? ==> Respond(route, outcome, clock).envelope.data.None?
    ensures route.UserProfile? ==>
      Derive(Get(outcome.body, "data"), clock).Success? &&
      Respond(route, outcome, clock).envelope.data == Some(JObj(Derive(Get(outcome.body, "data"), clock).value))
    ensures !route.DeleteUser? && !route.UserProfile? ==>
      Respond(route, outcome, clock).envelope.data == Get(outcome.body, "data")
  {
  }

  /** For every route but the list, an upstream error status is passed through
      (a zero status falls back to 500), with the upstream message as `error`. */
  lemma HttpErrorPassesThrough(route: Route, status: int, message: string, clock: string)
    requires !route.ListUsers?
    ensures Respond(route, HttpErr(status, message), clock) ==
      Response(if status != 0 then status else 500,
               Envelope(false, None, FailureMessage(route), Some(Upstream(message))))
  {
  }

  /** An upstream call that got no response answers 500 on every route. */
  lemma TransportErrorIs500(route: Route, message: string, clock: string)
    ensures Respond(route, TransportErr(message), clock) ==
      Response(500, Envelope(false, None, FailureMessage(route), Some(Upstream(message))))
  {
  }

  /** The list route answers 500 on every failure, whatever the upstream status,
      with the upstream message as `error` when the call was rejected. */
  lemma ListUsersFailsWith500(outcome: Outcome, clock: string)
    ensures !outcome.Ok? ==> !Respond(ListUsers, outcome, clock).envelope.success
    ensures !Respond(ListUsers, outcome, clock).envelope.success ==> Respond(ListUsers, outcome, clock).status == 500
    ensures !outcome.Ok? ==> Respond(ListUsers, outcome, clock).envelope.error == Some(Upstream(outcome.message))
  {
  }

  /** Where a failure status comes from: 500, or the upstream status on a route
      other than the list. */
  lemma FailureStatusOrigin(route: Route, outcome: Outcome, clock: string)
    ensures var r := Respond(route, outcome, clock);
      !r.envelope.success ==>
        r.status == 500 || (outcome.HttpErr? && !route.ListUsers? && r.status == outcome.status)
  {
  }
}
