/** The request gate that wraps API handlers: authentication (401), a
    permission or minimum-role check (403), optional validation of the
    request data (400), and turning a failing handler into a 500. Each
    wrapper is a function from the session and the request to the response,
    together with whether the wrapped handler was called. */
module ApiMiddleware {
  import opened Common
  import opened Folds
  import opened AuthTypes
  import opened AuthUtils

  /** A JSON value; an object keeps its fields in insertion order. */
  datatype Json = JNull | JBool(b: bool) | JNum(n: int) | JStr(s: string)
                | JArr(items: seq<Json>) | JObj(fields: seq<(string, Json)>)

  /** JavaScript truthiness of a JSON value. */
  predicate Truthy(j: Json) {
    match j
    case JNull => false
    case JBool(b) => b
    case JNum(n) => n != 0
    case JStr(s) => s != ""
    case _ => true
  }

  /** The field k of a JSON object, if present. */
  function Field(j: Json, k: string): Option<Json> {
    if j.JObj? then Lookup(j.fields, k) else None
  }

  /** The user the session carries, copied onto the request. */
  datatype SessionUser = SessionUser(id: string, role: Role, department: Option<string>, email: string, name: string)

  datatype Response = Response(status: int, body: Json)

  /** What a handler does when called: it returns a response, or the promise
      it returns is rejected. */
  datatype Outcome = Returned(response: Response) | Threw

  /** The result of one layer inside the authentication wrapper, and whether
      the user's handler was called. */
  datatype Step = Step(outcome: Outcome, invoked: bool)

  /** The final response, and whether the user's handler was called. */
  datatype Dispatch = Dispatch(response: Response, invoked: bool)

  /** The request as the validation step sees it: its method, its query
      parameters as an object, and its body (None when it is not JSON). */
  datatype Request = Request(verb: string, query: Json, body: Option<Json>)

  /** A schema failure: the validation issues, if any, and a message. */
  datatype ParseError = ParseError(issues: Option<Json>, message: string)
  datatype Parsed<T> = Valid(value: T) | Invalid(error: ParseError)

  const DefaultErrorMessage: string := "Une erreur est survenue"

  /** createErrorResponse; status and details are absent when undefined. */
  function CreateErrorResponse(error: string, message: Option<string>, status: Option<int>,
                               details: Option<Json>, now: string): (r: Response)
    ensures r.status == status.GetOr(500)
    ensures Field(r.body, "error") == Some(JStr(error))
    ensures Field(r.body, "message") == Some(JStr(if TruthyStr(message) then message.value else DefaultErrorMessage))
    ensures Field(r.body, "details").Some? <==> details.Some? && Truthy(details.value)
  {
    var head := [("error", JStr(error)), ("message", JStr(OrStr(message, DefaultErrorMessage))), ("timestamp", JStr(now))];
    var tail := if details.Some? && Truthy(details.value) then [("details", details.value)] else [];
    LookupAppend(head, tail, "error");
    LookupAppend(head, tail, "message");
    LookupAppend(head, tail, "details");
    LookupMiss(head, "details");
    Response(status.GetOr(500), JObj(head + tail))
  }

  /** createSuccessResponse; an undefined message is left out of the body. */
  function CreateSuccessResponse(data: Json, message: Option<string>, status: Option<int>, now: string): (r: Response)
    ensures r.status == status.GetOr(200)
    ensures Field(r.body, "success") == Some(JBool(true))
    ensures Field(r.body, "data") == Some(data)
    ensures Field(r.body, "message").Some? <==> message.Some?
  {
    var head := [("success", JBool(true)), ("data", data)];
    var middle := if message.Some? then [("message", JStr(message.value))] else [];
    var tail := [("timestamp", JStr(now))];
    LookupAppend(head + middle, tail, "success");
    LookupAppend(head + middle, tail, "data");
    LookupAppend(head + middle, tail, "message");
    LookupAppend(head, middle, "success");
    LookupAppend(head, middle, "data");
    LookupAppend(head, middle, "message");
    LookupMiss(head, "message");
    LookupMiss(tail, "message");
    Response(status.GetOr(200), JObj(head + middle + tail))
  }

  const Unauthenticated: Response :=
    Response(401, JObj([("error", JStr("Authentication required")),
                        ("message", JStr("Vous devez être connecté pour accéder à cette ressource"))]))

  const InternalError: Response :=
    Response(500, JObj([("error", JStr("Internal server error")),
                        ("message", JStr("Une erreur interne est survenue"))]))

  /** withAuth: 401 without a session user; otherwise the inner layer runs,
      and a rejection becomes 500. */
  function WithAuth(session: Option<SessionUser>, inner: SessionUser -> Step): (d: Dispatch)
    ensures session.None? ==> d.response.status == 401 && !d.invoked
    ensures session.Some? ==> d.invoked == inner(session.value).invoked
    ensures session.Some? && inner(session.value).outcome.Returned? ==>
      d.response == inner(session.value).outcome.response
    ensures session.Some? && inner(session.value).outcome.Threw? ==> d.response.status == 500
  {
    match session
    case None => Dispatch(Unauthenticated, false)
    case Some(u) =>
      var s := inner(u);
      match s.outcome
      case Returned(r) => Dispatch(r, s.invoked)
      case Threw => Dispatch(InternalError, s.invoked)
  }

  /** The 403 body of withPermission. */
  function PermissionDenied(resource: string, action: string, role: Role): (r: Response)
    ensures r.status == 403
    ensures Field(r.body, "required") == Some(JStr(action + ":" + resource))
  {
    var head := [("error", JStr("Insufficient permissions")),
                 ("message", JStr("Vous n'avez pas les permissions pour " + action + " sur " + resource))];
    var tail := [("required", JStr(action + ":" + resource)), ("userRole", JStr(RoleName(role)))];
    LookupAppend(head, tail, "required");
    LookupMiss(head, "required");
    Response(403, JObj(head + tail))
  }

  /** The 403 body of withRole. */
  function RoleDenied(required: Role, role: Role): (r: Response)
    ensures r.status == 403
    ensures Field(r.body, "required") == Some(JStr(RoleName(required)))
  {
    var head := [("error", JStr("Insufficient role level")),
                 ("message", JStr("Cette action nécessite le rôle " + RoleName(required) + " minimum"))];
    var tail := [("required", JStr(RoleName(required))), ("userRole", JStr(RoleName(role)))];
    LookupAppend(head, tail, "required");
    LookupMiss(head, "required");
    Response(403, JObj(head + tail))
  }

  /** The inner layer of withPermission. */
  function PermissionGate(resource: string, action: string, next: SessionUser -> Step, u: SessionUser): Step {
    if !HasPermission(u.role, resource, action) then Step(Returned(PermissionDenied(resource, action, u.role)), false)
    else next(u)
  }

  /** withPermission */
  function WithPermission(resource: string, action: string, next: SessionUser -> Step,
                          session: Option<SessionUser>): (d: Dispatch)
    ensures session.Some? && !HasPermission(session.value.role, resource, action) ==>
      d == Dispatch(PermissionDenied(resource, action, session.value.role), false)
    ensures session.Some? && HasPermission(session.value.role, resource, action) ==>
      d.invoked == next(session.value).invoked
  {
    WithAuth(session, u => PermissionGate(resource, action, next, u))
  }

  /** The inner layer of withRole. */
  function RoleGate(required: Role, next: SessionUser -> Step, u: SessionUser): Step {
    if !HasRoleLevel(u.role, required) then Step(Returned(RoleDenied(required, u.role)), false)
    else next(u)
  }

  /** withRole */
  function WithRole(required: Role, next: SessionUser -> Step, session: Option<SessionUser>): (d: Dispatch)
    ensures session.Some? && !HasRoleLevel(session.value.role, required) ==>
      d == Dispatch(RoleDenied(required, session.value.role), false)
    ensures session.Some? && HasRoleLevel(session.value.role, required) ==>
      d.invoked == next(session.value).invoked
  {
    WithAuth(session, u => RoleGate(required, next, u))
  }

  /** The data a schema parses: the query parameters for GET, otherwise the
      JSON body, or `{}` when the body does not parse. */
  function ValidationInput(req: Request): Json {
    if req.verb == "GET" then req.query else req.body.GetOr(JObj([]))
  }

  /** `error.issues || error.message` */
  function Details(e: ParseError): Json {
    if e.issues.Some? && Truthy(e.issues.value) then e.issues.value else JStr(e.message)
  }

  /** The validation layer shared by withValidation and createAPIHandler:
      a parse failure answers 400 without calling the handler. A rejection
      of the handler's promise is not caught here (the handler's promise is
      returned, not awaited), so it surfaces as the outer 500. */
  function Validate<T>(parse: Json -> Parsed<T>, handler: (SessionUser, Option<T>) -> Outcome,
                       req: Request, now: string, u: SessionUser): (s: Step)
    ensures s.invoked <==> parse(ValidationInput(req)).Valid?
  {
    match parse(ValidationInput(req))
    case Valid(v) => Step(handler(u, Some(v)), true)
    case Invalid(e) =>
      Step(Returned(CreateErrorResponse("Validation error", Some("Données de requête invalides"), Some(400),
                                        Some(Details(e)), now)), false)
  }

  /** withValidation */
  function WithValidation<T>(parse: Json -> Parsed<T>, handler: (SessionUser, Option<T>) -> Outcome,
                             req: Request, now: string, session: Option<SessionUser>): (d: Dispatch)
    ensures d.invoked <==> session.Some? && parse(ValidationInput(req)).Valid?
    ensures session.Some? && parse(ValidationInput(req)).Invalid? ==> d.response.status == 400
  {
    WithAuth(session, u => Validate(parse, handler, req, now, u))
  }

  /** The options of createAPIHandler. */
  datatype HandlerConfig<!T> = HandlerConfig(
    resource: Option<string>,
    action: Option<string>,
    requiredRole: Option<Role>,
    schema: Option<Json -> Parsed<T>>,
    handler: (SessionUser, Option<T>) -> Outcome)

  /** baseHandler: validate when a schema is given, else call the handler
      with no data. */
  function BaseHandler<T>(c: HandlerConfig<T>, req: Request, now: string, u: SessionUser): Step {
    match c.schema
    case Some(parse) => Validate(parse, c.handler, req, now, u)
    case None => Step(c.handler(u, None), true)
  }

  /** The check createAPIHandler applies: a permission when both resource
      and action are given, else a minimum role when one is given, else
      authentication only. */
  predicate UsesPermission<T>(c: HandlerConfig<T>) {
    TruthyStr(c.resource) && TruthyStr(c.action)
  }

  /** createAPIHandler, applied to one request. */
  function CreateAPIHandler<T>(c: HandlerConfig<T>, req: Request, session: Option<SessionUser>, now: string): (d: Dispatch)
    ensures d.invoked ==> session.Some? && Authorised(c, session.value.role)
  {
    var base := u => BaseHandler(c, req, now, u);
    if UsesPermission(c) then WithPermission(c.resource.value, c.action.value, base, session)
    else if c.requiredRole.Some? then WithRole(c.requiredRole.value, base, session)
    else WithAuth(session, base)
  }

  /** The user's check passes under a configuration. */
  predicate Authorised<T>(c: HandlerConfig<T>, role: Role) {
    if UsesPermission(c) then HasPermission(role, c.resource.value, c.action.value)
    else c.requiredRole.Some? ==> HasRoleLevel(role, c.requiredRole.value)
  }

  /** The request data passes the schema, or there is none. */
  predicate Validated<T>(c: HandlerConfig<T>, req: Request) {
    c.schema.Some? ==> c.schema.value(ValidationInput(req)).Valid?
  }

  /** The handler is called exactly when there is a session user who passes
      the configured check and the data passes the schema. */
  lemma HandlerRunsIffAllowed<T>(c: HandlerConfig<T>, req: Request, session: Option<SessionUser>, now: string)
    ensures CreateAPIHandler(c, req, session, now).invoked
        <==> session.Some? && Authorised(c, session.value.role) && Validated(c, req)
  {
  }

  /** Without a session user the answer is 401, whatever the configuration. */
  lemma NoSessionIs401<T>(c: HandlerConfig<T>, req: Request, now: string)
    ensures CreateAPIHandler(c, req, None, now).response.status == 401
  {
  }

  /** A user who fails the check gets 403 before any validation: for a
      permission check the body names the missing `action:resource`. */
  lemma FailedCheckIs403<T>(c: HandlerConfig<T>, req: Request, u: SessionUser, now: string)
    requires !Authorised(c, u.role)
    ensures CreateAPIHandler(c, req, Some(u), now).response.status == 403
    ensures UsesPermission(c) ==>
      Field(CreateAPIHandler(c, req, Some(u), now).response.body, "required")
        == Some(JStr(c.action.value + ":" + c.resource.value))
  {
  }

  /** An authorised user whose data fails the schema gets 400. */
  lemma InvalidDataIs400<T>(c: HandlerConfig<T>, req: Request, u: SessionUser, now: string)
    requires Authorised(c, u.role) && !Validated(c, req)
    ensures CreateAPIHandler(c, req, Some(u), now).response.status == 400
  {
  }

  /** A handler whose promise is rejected yields 500, also after validation
      succeeded. */
  lemma HandlerFailureIs500<T>(c: HandlerConfig<T>, req: Request, u: SessionUser, now: string)
    requires Authorised(c, u.role) && Validated(c, req)
    requires c.schema.Some? ==> c.handler(u, Some(c.schema.value(ValidationInput(req)).value)).Threw?
    requires c.schema.None? ==> c.handler(u, None).Threw?
    ensures CreateAPIHandler(c, req, Some(u), now).response.status == 500
  {
  }

  /** When both a resource/action pair and a role are configured, the role
      is ignored: a permitted user below the role still reaches the handler. */
  lemma PermissionOverridesRole<T>(c: HandlerConfig<T>, req: Request, u: SessionUser, now: string)
    requires UsesPermission(c) && c.requiredRole.Some?
    requires HasPermission(u.role, c.resource.value, c.action.value) && Validated(c, req)
    ensures CreateAPIHandler(c, req, Some(u), now).invoked
  {
  }

  /** withPermission calls its handler iff the user holds the permission. */
  lemma WithPermissionRunsIffPermitted(resource: string, action: string, handler: SessionUser -> Outcome,
                                       session: Option<SessionUser>)
    ensures WithPermission(resource, action, u => Step(handler(u), true), session).invoked
        <==> session.Some? && HasPermission(session.value.role, resource, action)
  {
  }

  /** withRole calls its handler iff the user's level reaches the role's. */
  lemma WithRoleRunsIffLevel(required: Role, handler: SessionUser -> Outcome, session: Option<SessionUser>)
    ensures WithRole(required, u => Step(handler(u), true), session).invoked
        <==> session.Some? && Level(session.value.role) >= Level(required)
  {
  }
}
