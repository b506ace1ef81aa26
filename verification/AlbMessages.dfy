/** Configuration blocks of an ALB virtual host and the API messages built from them. A nested block
    is a list; an attribute that is not set holds its zero value, which Terraform does not tell from
    being set to zero. Sets of strings keep no order. */
module AlbMessages {
  import opened GoText

  // ---------- configuration ----------

  datatype StringMatchConfig = StringMatchConfig(exact: string, prefix: string, regex: string)

  datatype HeaderConfig = HeaderConfig(name: string, value: seq<StringMatchConfig>)

  datatype PrincipalConfig = PrincipalConfig(header: seq<HeaderConfig>, remoteIp: string, any: bool)

  datatype PrincipalsConfig = PrincipalsConfig(andPrincipals: seq<PrincipalConfig>)

  datatype RbacConfig = RbacConfig(action: string, principals: seq<PrincipalsConfig>)

  datatype RouteOptionsConfig = RouteOptionsConfig(rbac: seq<RbacConfig>, securityProfileId: string)

  datatype LimitConfig = LimitConfig(perSecond: int, perMinute: int)

  datatype RateLimitConfig = RateLimitConfig(allRequests: seq<LimitConfig>, requestsPerIp: seq<LimitConfig>)

  datatype HttpActionConfig = HttpActionConfig(
    backendGroupId: string, timeout: string, idleTimeout: string, prefixRewrite: string, upgradeTypes: set<string>,
    hostRewrite: string, autoHostRewrite: bool, rateLimit: seq<RateLimitConfig>)

  datatype RedirectConfig = RedirectConfig(
    replaceScheme: string, replaceHost: string, replacePort: int, removeQuery: bool,
    replacePath: string, replacePrefix: string, responseCode: string)

  datatype DirectConfig = DirectConfig(status: int, body: string)

  datatype HttpMatchConfig = HttpMatchConfig(httpMethod: set<string>, path: seq<StringMatchConfig>)

  datatype HttpRouteConfig = HttpRouteConfig(
    httpMatch: seq<HttpMatchConfig>, action: seq<HttpActionConfig>, redirect: seq<RedirectConfig>,
    direct: seq<DirectConfig>)

  datatype GrpcMatchConfig = GrpcMatchConfig(fqmn: seq<StringMatchConfig>)

  datatype GrpcActionConfig = GrpcActionConfig(
    backendGroupId: string, maxTimeout: string, idleTimeout: string, hostRewrite: string, autoHostRewrite: bool,
    rateLimit: seq<RateLimitConfig>)

  datatype GrpcRouteConfig = GrpcRouteConfig(
    grpcMatch: seq<GrpcMatchConfig>, action: seq<GrpcActionConfig>, status: seq<string>)

  datatype RouteConfig = RouteConfig(
    name: string, options: seq<RouteOptionsConfig>, http: seq<HttpRouteConfig>, grpc: seq<GrpcRouteConfig>)

  datatype ModificationConfig = ModificationConfig(name: string, replace: string, remove: bool, append: string)

  // ---------- messages ----------

  datatype StringMatch = NoMatch | Exact(s: string) | Prefix(s: string) | Regex(s: string)

  datatype HeaderMatcher = HeaderMatcher(name: string, value: Option<StringMatch>)

  datatype Principal = NoIdentifier | Header(header: HeaderMatcher) | RemoteIp(ip: string) | Any(any: bool)

  datatype Principals = Principals(andPrincipals: seq<Principal>)

  datatype Rbac = Rbac(action: int, principals: seq<Principals>)

  datatype RouteOptions = RouteOptions(rbac: Option<Rbac>, securityProfileId: string)

  datatype Limit = NoRate | PerSecond(n: int) | PerMinute(n: int)

  datatype RateLimit = RateLimit(allRequests: Option<Limit>, requestsPerIp: Option<Limit>)

  datatype HostRewrite = KeepHost | RewriteHost(host: string) | AutoRewriteHost(auto: bool)

  /** Durations are nanoseconds; None is the nil message. */
  datatype HttpAction = HttpAction(
    backendGroupId: string, timeout: Option<int>, idleTimeout: Option<int>, prefixRewrite: string,
    upgradeTypes: set<string>, rewrite: HostRewrite, rateLimit: Option<RateLimit>)

  datatype PathReplacement = KeepPath | ReplacePath(path: string) | ReplacePrefix(prefix: string)

  datatype Redirect = Redirect(
    replaceScheme: string, replaceHost: string, replacePort: int, removeQuery: bool, path: PathReplacement,
    responseCode: int)

  datatype Direct = Direct(status: int, body: Option<string>)

  datatype HttpMatch = HttpMatch(httpMethod: set<string>, path: Option<StringMatch>)

  datatype HttpChoice = NoHttpAction | RouteHttp(action: HttpAction) | RedirectTo(redirect: Redirect) | Respond(direct: Direct)

  datatype HttpRoute = HttpRoute(httpMatch: Option<HttpMatch>, choice: HttpChoice)

  datatype GrpcMatch = GrpcMatch(fqmn: Option<StringMatch>)

  datatype GrpcAction = GrpcAction(
    backendGroupId: string, maxTimeout: Option<int>, idleTimeout: Option<int>, rewrite: HostRewrite,
    rateLimit: Option<RateLimit>)

  datatype GrpcChoice = NoGrpcAction | RouteGrpc(action: GrpcAction) | RespondStatus(status: int)

  datatype GrpcRoute = GrpcRoute(grpcMatch: Option<GrpcMatch>, choice: GrpcChoice)

  datatype RouteChoice = NoRoute | Http(http: HttpRoute) | Grpc(grpc: GrpcRoute)

  datatype Route = Route(name: string, options: Option<RouteOptions>, choice: RouteChoice)

  datatype Operation = NoOperation | Replace(s: string) | Remove(b: bool) | Append(s: string)

  datatype HeaderModification = HeaderModification(name: string, operation: Operation)

  // ---------- surroundings ----------

  /** Duration text of Go and the generated enums. */
  datatype Env = Env(
    parseDuration: string -> Result<int>,
    formatDuration: int -> string,
    rbacAction: EnumTable,
    redirectCode: EnumTable,
    grpcStatus: EnumTable
  )

  predicate IsDuration(d: int) {
    0 <= d && Fits(W64, d)
  }

  /** parseDuration accepts no negative duration and reads what formatDuration prints; every enum has
      a zero value. */
  ghost predicate Lawful(env: Env) {
    && (forall s: string | env.parseDuration(s).Ok? :: IsDuration(env.parseDuration(s).value))
    && (forall d: int | IsDuration(d) ::
          env.formatDuration(d) != "" && env.parseDuration(env.formatDuration(d)) == Ok(d))
    && TableOk(env.rbacAction) && TableOk(env.redirectCode) && TableOk(env.grpcStatus)
    && 0 in env.rbacAction.names && 0 in env.redirectCode.names && 0 in env.grpcStatus.names
  }

  /** The laws can be met: spell a duration as its number of nanoseconds. */
  lemma LawfulEnvExists()
    ensures exists env :: Lawful(env)
  {
    TableExists();
    var e :| TableOk(e) && 0 in e.names;
    var env := Env(ReadNanoseconds, Itoa, e, e, e);
    forall d: int | IsDuration(d)
      ensures env.formatDuration(d) != "" && env.parseDuration(env.formatDuration(d)) == Ok(d)
    {
      AtoiInvertsItoa(d);
    }
    assert Lawful(env);
  }

  function ReadNanoseconds(s: string): Result<int> {
    match Atoi(s)
    case Some(n) => if n < 0 then Err(Other) else Ok(n)
    case None => Err(Other)
  }

  /** parseDuration of an attribute: nil when it is not set. */
  function ReadDuration(env: Env, s: string): Result<Option<int>> {
    if s == "" then Ok(None)
    else
      var d :- env.parseDuration(s);
      Ok(Some(d))
  }

  /** formatDuration */
  function DurationText(env: Env, d: Option<int>): string {
    if d.None? then "" else env.formatDuration(d.value)
  }

  function EnumValue(e: EnumTable, s: string): Result<int> {
    if Upper(s) in e.values then Ok(e.values[Upper(s)]) else Err(Other)
  }

  function One(b: bool): nat {
    if b then 1 else 0
  }
}
