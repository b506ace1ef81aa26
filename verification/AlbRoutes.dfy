/** Routes and header modifications of an ALB virtual host, to the API and back
    (yandex/alb_structures.go). */
module AlbRoutes {
  import opened GoText
  import opened AlbMessages

  // ---------- expanding ----------

  /** expandALBModification */
  function ExpandModification(c: ModificationConfig): Result<HeaderModification> {
    if One(c.replace != "") + One(c.remove) + One(c.append != "") > 1 then Err(Other)
    else
      Ok(HeaderModification(c.name,
                            if c.append != "" then Append(c.append)
                            else if c.remove then Remove(true)
                            else if c.replace != "" then Replace(c.replace)
                            else NoOperation))
  }

  function ExpandModifications(cs: seq<ModificationConfig>): Result<seq<HeaderModification>> {
    if cs == [] then Ok([])
    else
      var m :- ExpandModification(cs[0]);
      Chain([m], ExpandModifications(cs[1..]))
  }

  /** expandALBStringMatch */
  function ExpandStringMatch(c: StringMatchConfig): Result<StringMatch> {
    var set_ := One(c.exact != "") + One(c.prefix != "") + One(c.regex != "");
    if set_ != 1 then Err(Other)
    else if c.exact != "" then Ok(Exact(c.exact))
    else if c.prefix != "" then Ok(Prefix(c.prefix))
    else Ok(Regex(c.regex))
  }

  function ExpandOptionalMatch(cs: seq<StringMatchConfig>): Result<Option<StringMatch>> {
    if cs == [] then Ok(None)
    else
      var m :- ExpandStringMatch(cs[0]);
      Ok(Some(m))
  }

  /** expandALBPrincipal */
  function ExpandPrincipal(c: PrincipalConfig): Result<Principal> {
    var got := One(c.header != []) + One(c.remoteIp != "") + One(c.any);
    if got != 1 then Err(Other)
    else if c.header != [] then
      var value :- ExpandOptionalMatch(c.header[0].value);
      Ok(Header(HeaderMatcher(c.header[0].name, value)))
    else if c.remoteIp != "" then Ok(RemoteIp(c.remoteIp))
    else Ok(Any(true))
  }

  function ExpandAndPrincipals(cs: seq<PrincipalConfig>): Result<seq<Principal>> {
    if cs == [] then Ok([])
    else
      var p :- ExpandPrincipal(cs[0]);
      Chain([p], ExpandAndPrincipals(cs[1..]))
  }

  function ExpandPrincipals(cs: seq<PrincipalsConfig>): Result<seq<Principals>> {
    if cs == [] then Ok([])
    else
      var ps :- ExpandAndPrincipals(cs[0].andPrincipals);
      Chain([Principals(ps)], ExpandPrincipals(cs[1..]))
  }

  /** expandALBRBAC: an action that is not set stays at the enum's zero value. */
  function ExpandRbac(env: Env, c: RbacConfig): Result<Rbac> {
    var action :- if c.action != "" then EnumValue(env.rbacAction, c.action) else Ok(0);
    var principals :- ExpandPrincipals(c.principals);
    Ok(Rbac(action, principals))
  }

  /** expandALBRouteOptions of the first block, if there is one. */
  function ExpandRouteOptions(env: Env, cs: seq<RouteOptionsConfig>): Result<Option<RouteOptions>> {
    if cs == [] then Ok(None)
    else if cs[0].rbac == [] then Ok(Some(RouteOptions(None, cs[0].securityProfileId)))
    else
      var rbac :- ExpandRbac(env, cs[0].rbac[0]);
      Ok(Some(RouteOptions(Some(rbac), cs[0].securityProfileId)))
  }

  /** expandALBLimit: a rate per minute replaces one per second. */
  function ExpandLimit(cs: seq<LimitConfig>): Result<Option<Limit>> {
    if |cs| > 1 then Err(Other)
    else if cs == [] then Ok(None)
    else if cs[0].perMinute != 0 then Ok(Some(PerMinute(cs[0].perMinute)))
    else if cs[0].perSecond != 0 then Ok(Some(PerSecond(cs[0].perSecond)))
    else Ok(Some(NoRate))
  }

  /** expandALBRateLimit */
  function ExpandRateLimit(cs: seq<RateLimitConfig>): Result<Option<RateLimit>> {
    if |cs| > 1 then Err(Other)
    else if cs == [] then Ok(None)
    else
      var allRequests :- ExpandLimit(cs[0].allRequests);
      var requestsPerIp :- ExpandLimit(cs[0].requestsPerIp);
      Ok(Some(RateLimit(allRequests, requestsPerIp)))
  }

  /** expandALBHTTPRouteAction */
  function ExpandHttpAction(env: Env, c: HttpActionConfig): Result<HttpAction> {
    var timeout :- ReadDuration(env, c.timeout);
    var idleTimeout :- ReadDuration(env, c.idleTimeout);
    if c.hostRewrite != "" && c.autoHostRewrite then Err(Other)
    else
      var rateLimit :- ExpandRateLimit(c.rateLimit);
      Ok(HttpAction(c.backendGroupId, timeout, idleTimeout, c.prefixRewrite, c.upgradeTypes,
                    if c.autoHostRewrite then AutoRewriteHost(true)
                    else if c.hostRewrite != "" then RewriteHost(c.hostRewrite)
                    else KeepHost,
                    rateLimit))
  }

  /** expandALBRedirectAction: a response code that is not set stays at the enum's zero value. */
  function ExpandRedirect(env: Env, c: RedirectConfig): Result<Redirect> {
    if c.replacePath != "" && c.replacePrefix != "" then Err(Other)
    else
      var code :- if c.responseCode != "" then EnumValue(env.redirectCode, c.responseCode) else Ok(0);
      Ok(Redirect(c.replaceScheme, c.replaceHost, c.replacePort, c.removeQuery,
                  if c.replacePrefix != "" then ReplacePrefix(c.replacePrefix)
                  else if c.replacePath != "" then ReplacePath(c.replacePath)
                  else KeepPath,
                  code))
  }

  /** expandALBDirectResponseAction */
  function ExpandDirect(c: DirectConfig): Direct {
    Direct(c.status, if c.body != "" then Some(c.body) else None)
  }

  function ExpandHttpMatch(cs: seq<HttpMatchConfig>): Result<Option<HttpMatch>> {
    if cs == [] then Ok(None)
    else
      var path :- ExpandOptionalMatch(cs[0].path);
      Ok(Some(HttpMatch(cs[0].httpMethod, path)))
  }

  /** expandALBHTTPRoute */
  function ExpandHttpRoute(env: Env, c: HttpRouteConfig): Result<HttpRoute> {
    var m :- ExpandHttpMatch(c.httpMatch);
    if One(c.action != []) + One(c.redirect != []) + One(c.direct != []) != 1 then Err(Other)
    else if c.action != [] then
      var action :- ExpandHttpAction(env, c.action[0]);
      Ok(HttpRoute(m, RouteHttp(action)))
    else if c.redirect != [] then
      var redirect :- ExpandRedirect(env, c.redirect[0]);
      Ok(HttpRoute(m, RedirectTo(redirect)))
    else Ok(HttpRoute(m, Respond(ExpandDirect(c.direct[0]))))
  }

  /** A gRPC timeout that cannot be read is dropped without an error. */
  function LenientDuration(env: Env, s: string): Option<int> {
    var d := ReadDuration(env, s);
    if d.Ok? then d.value else None
  }

  /** expandALBGRPCRouteAction: automatic rewriting replaces a host rewrite. */
  function ExpandGrpcAction(env: Env, c: GrpcActionConfig): Result<GrpcAction> {
    var rateLimit :- ExpandRateLimit(c.rateLimit);
    Ok(GrpcAction(c.backendGroupId, LenientDuration(env, c.maxTimeout), LenientDuration(env, c.idleTimeout),
                  if c.autoHostRewrite then AutoRewriteHost(true)
                  else if c.hostRewrite != "" then RewriteHost(c.hostRewrite)
                  else KeepHost,
                  rateLimit))
  }

  function ExpandGrpcMatch(cs: seq<GrpcMatchConfig>): Result<Option<GrpcMatch>> {
    if cs == [] then Ok(None)
    else
      var fqmn :- ExpandOptionalMatch(cs[0].fqmn);
      Ok(Some(GrpcMatch(fqmn)))
  }

  /** expandALBGRPCRoute */
  function ExpandGrpcRoute(env: Env, c: GrpcRouteConfig): Result<GrpcRoute> {
    var m :- ExpandGrpcMatch(c.grpcMatch);
    if One(c.action != []) + One(c.status != []) != 1 then Err(Other)
    else if c.action != [] then
      var action :- ExpandGrpcAction(env, c.action[0]);
      Ok(GrpcRoute(m, RouteGrpc(action)))
    else
      var status :- EnumValue(env.grpcStatus, c.status[0]);
      Ok(GrpcRoute(m, RespondStatus(status)))
  }

  /** expandALBRoute */
  function ExpandRoute(env: Env, c: RouteConfig): Result<Route> {
    var options :- ExpandRouteOptions(env, c.options);
    if One(c.http != []) + One(c.grpc != []) != 1 then Err(Other)
    else if c.http != [] then
      var r :- ExpandHttpRoute(env, c.http[0]);
      Ok(Route(c.name, options, Http(r)))
    else
      var r :- ExpandGrpcRoute(env, c.grpc[0]);
      Ok(Route(c.name, options, Grpc(r)))
  }

  function ExpandRoutes(env: Env, cs: seq<RouteConfig>): Result<seq<Route>> {
    if cs == [] then Ok([])
    else
      var r :- ExpandRoute(env, cs[0]);
      Chain([r], ExpandRoutes(env, cs[1..]))
  }

  // ---------- flattening ----------

  /** One entry of flattenALBHeaderModification */
  function FlattenModification(m: HeaderModification): ModificationConfig {
    match m.operation
    case Append(s) => ModificationConfig(m.name, "", false, s)
    case Replace(s) => ModificationConfig(m.name, s, false, "")
    case Remove(b) => ModificationConfig(m.name, "", b, "")
    case NoOperation => ModificationConfig(m.name, "", false, "")
  }

  function FlattenModifications(ms: seq<HeaderModification>): seq<ModificationConfig> {
    if ms == [] then [] else [FlattenModification(ms[0])] + FlattenModifications(ms[1..])
  }

  /** flattenALBStringMatch, also of a nil match. */
  function FlattenStringMatch(m: Option<StringMatch>): seq<StringMatchConfig> {
    match m
    case Some(Exact(s)) => [StringMatchConfig(s, "", "")]
    case Some(Prefix(s)) => [StringMatchConfig("", s, "")]
    case Some(Regex(s)) => [StringMatchConfig("", "", s)]
    case _ => []
  }

  /** flattenALBPrincipal: a principal without an identifier is an error. */
  function FlattenPrincipal(p: Principal): Result<PrincipalConfig> {
    match p
    case Header(h) => Ok(PrincipalConfig([HeaderConfig(h.name, FlattenStringMatch(h.value))], "", false))
    case RemoteIp(ip) => Ok(PrincipalConfig([], ip, false))
    case Any(b) => Ok(PrincipalConfig([], "", b))
    case NoIdentifier => Err(Other)
  }

  function FlattenAndPrincipals(ps: seq<Principal>): Result<seq<PrincipalConfig>> {
    if ps == [] then Ok([])
    else
      var c :- FlattenPrincipal(ps[0]);
      Chain([c], FlattenAndPrincipals(ps[1..]))
  }

  function FlattenPrincipals(ps: seq<Principals>): Result<seq<PrincipalsConfig>> {
    if ps == [] then Ok([])
    else
      var c :- FlattenAndPrincipals(ps[0].andPrincipals);
      Chain([PrincipalsConfig(c)], FlattenPrincipals(ps[1..]))
  }

  /** flattenALBRouteOptions with flattenALBRBAC */
  function FlattenRouteOptions(env: Env, o: Option<RouteOptions>): Result<seq<RouteOptionsConfig>> {
    if o.None? then Ok([])
    else if o.value.rbac.None? then Ok([RouteOptionsConfig([], o.value.securityProfileId)])
    else
      var rbac := o.value.rbac.value;
      var principals :- FlattenPrincipals(rbac.principals);
      Ok([RouteOptionsConfig([RbacConfig(Lower(EnumText(env.rbacAction, rbac.action)), principals)],
                             o.value.securityProfileId)])
  }

  /** flattenALBLimit */
  function FlattenLimit(l: Option<Limit>): seq<LimitConfig> {
    match l
    case None => []
    case Some(NoRate) => [LimitConfig(0, 0)]
    case Some(PerSecond(n)) => [LimitConfig(n, 0)]
    case Some(PerMinute(n)) => [LimitConfig(0, n)]
  }

  /** flattenALBRateLimit */
  function FlattenRateLimit(r: Option<RateLimit>): seq<RateLimitConfig> {
    if r.None? then [] else [RateLimitConfig(FlattenLimit(r.value.allRequests), FlattenLimit(r.value.requestsPerIp))]
  }

  function RewrittenHost(r: HostRewrite): string {
    if r.RewriteHost? then r.host else ""
  }

  predicate RewritesAutomatically(r: HostRewrite) {
    r.AutoRewriteHost? && r.auto
  }

  function FlattenHttpAction(env: Env, a: HttpAction): HttpActionConfig {
    HttpActionConfig(a.backendGroupId, DurationText(env, a.timeout), DurationText(env, a.idleTimeout), a.prefixRewrite,
                     a.upgradeTypes, RewrittenHost(a.rewrite), RewritesAutomatically(a.rewrite),
                     FlattenRateLimit(a.rateLimit))
  }

  function FlattenRedirect(env: Env, r: Redirect): RedirectConfig {
    RedirectConfig(r.replaceScheme, r.replaceHost, r.replacePort, r.removeQuery,
                   if r.path.ReplacePath? then r.path.path else "",
                   if r.path.ReplacePrefix? then r.path.prefix else "",
                   Lower(EnumText(env.redirectCode, r.responseCode)))
  }

  function FlattenDirect(d: Direct): DirectConfig {
    DirectConfig(d.status, if d.body.Some? then d.body.value else "")
  }

  /** flattenALBHTTPRoute */
  function FlattenHttpRoute(env: Env, r: HttpRoute): HttpRouteConfig {
    var m := if r.httpMatch.None? then []
             else [HttpMatchConfig(r.httpMatch.value.httpMethod, FlattenStringMatch(r.httpMatch.value.path))];
    match r.choice
    case RouteHttp(a) => HttpRouteConfig(m, [FlattenHttpAction(env, a)], [], [])
    case RedirectTo(rd) => HttpRouteConfig(m, [], [FlattenRedirect(env, rd)], [])
    case Respond(d) => HttpRouteConfig(m, [], [], [FlattenDirect(d)])
    case NoHttpAction => HttpRouteConfig(m, [], [], [])
  }

  function FlattenGrpcAction(env: Env, a: GrpcAction): GrpcActionConfig {
    GrpcActionConfig(a.backendGroupId, DurationText(env, a.maxTimeout), DurationText(env, a.idleTimeout),
                     RewrittenHost(a.rewrite), RewritesAutomatically(a.rewrite), FlattenRateLimit(a.rateLimit))
  }

  /** flattenALBGRPCRoute */
  function FlattenGrpcRoute(env: Env, r: GrpcRoute): GrpcRouteConfig {
    var m := if r.grpcMatch.None? then [] else [GrpcMatchConfig(FlattenStringMatch(r.grpcMatch.value.fqmn))];
    match r.choice
    case RouteGrpc(a) => GrpcRouteConfig(m, [FlattenGrpcAction(env, a)], [])
    case RespondStatus(status) => GrpcRouteConfig(m, [], [Lower(EnumText(env.grpcStatus, status))])
    case NoGrpcAction => GrpcRouteConfig(m, [], [])
  }

  function FlattenRoute(env: Env, r: Route): Result<RouteConfig> {
    var options :- FlattenRouteOptions(env, r.options);
    match r.choice
    case Http(h) => Ok(RouteConfig(r.name, options, [FlattenHttpRoute(env, h)], []))
    case Grpc(g) => Ok(RouteConfig(r.name, options, [], [FlattenGrpcRoute(env, g)]))
    case NoRoute => Ok(RouteConfig(r.name, options, [], []))
  }

  function FlattenRoutes(env: Env, rs: seq<Route>): Result<seq<RouteConfig>> {
    if rs == [] then Ok([])
    else
      var c :- FlattenRoute(env, rs[0]);
      Chain([c], FlattenRoutes(env, rs[1..]))
  }

  // ---------- the loops ----------

  /** expandALBRoutes */
  method ExpandRoutesInTurn(env: Env, cs: seq<RouteConfig>) returns (r: Result<seq<Route>>)
    ensures r == ExpandRoutes(env, cs)
  {
    var routes: seq<Route> := [];
    ChainStart(ExpandRoutes(env, cs));
    assert cs[0..] == cs;
    for i := 0 to |cs|
      invariant ExpandRoutes(env, cs) == Chain(routes, ExpandRoutes(env, cs[i..]))
    {
      var route := ExpandRoute(env, cs[i]);
      if route.Err? {
        return Err(route.error);
      }
      assert cs[i..][1..] == cs[i + 1..];
      ChainStep(routes, route.value, ExpandRoutes(env, cs[i + 1..]));
      routes := routes + [route.value];
    }
    assert routes + [] == routes;
    return Ok(routes);
  }

  /** expandALBHeaderModification */
  method ExpandModificationsInTurn(cs: seq<ModificationConfig>) returns (r: Result<seq<HeaderModification>>)
    ensures r == ExpandModifications(cs)
  {
    var modifications: seq<HeaderModification> := [];
    ChainStart(ExpandModifications(cs));
    assert cs[0..] == cs;
    for i := 0 to |cs|
      invariant ExpandModifications(cs) == Chain(modifications, ExpandModifications(cs[i..]))
    {
      var m := ExpandModification(cs[i]);
      if m.Err? {
        return Err(m.error);
      }
      assert cs[i..][1..] == cs[i + 1..];
      ChainStep(modifications, m.value, ExpandModifications(cs[i + 1..]));
      modifications := modifications + [m.value];
    }
    assert modifications + [] == modifications;
    return Ok(modifications);
  }

  /** The two nested loops of expandALBRBAC and expandALBPrincipals. */
  method ExpandPrincipalsInTurn(cs: seq<PrincipalsConfig>) returns (r: Result<seq<Principals>>)
    ensures r == ExpandPrincipals(cs)
  {
    var principals: seq<Principals> := [];
    ChainStart(ExpandPrincipals(cs));
    assert cs[0..] == cs;
    for i := 0 to |cs|
      invariant ExpandPrincipals(cs) == Chain(principals, ExpandPrincipals(cs[i..]))
    {
      var ps := ExpandAndPrincipalsInTurn(cs[i].andPrincipals);
      if ps.Err? {
        return Err(ps.error);
      }
      assert cs[i..][1..] == cs[i + 1..];
      ChainStep(principals, Principals(ps.value), ExpandPrincipals(cs[i + 1..]));
      principals := principals + [Principals(ps.value)];
    }
    assert principals + [] == principals;
    return Ok(principals);
  }

  method ExpandAndPrincipalsInTurn(cs: seq<PrincipalConfig>) returns (r: Result<seq<Principal>>)
    ensures r == ExpandAndPrincipals(cs)
  {
    var principals: seq<Principal> := [];
    ChainStart(ExpandAndPrincipals(cs));
    assert cs[0..] == cs;
    for i := 0 to |cs|
      invariant ExpandAndPrincipals(cs) == Chain(principals, ExpandAndPrincipals(cs[i..]))
    {
      var p := ExpandPrincipal(cs[i]);
      if p.Err? {
        return Err(p.error);
      }
      assert cs[i..][1..] == cs[i + 1..];
      ChainStep(principals, p.value, ExpandAndPrincipals(cs[i + 1..]));
      principals := principals + [p.value];
    }
    assert principals + [] == principals;
    return Ok(principals);
  }

  /** flattenALBRoutes */
  method FlattenRoutesInTurn(env: Env, rs: seq<Route>) returns (r: Result<seq<RouteConfig>>)
    ensures r == FlattenRoutes(env, rs)
  {
    var result: seq<RouteConfig> := [];
    ChainStart(FlattenRoutes(env, rs));
    assert rs[0..] == rs;
    for i := 0 to |rs|
      invariant FlattenRoutes(env, rs) == Chain(result, FlattenRoutes(env, rs[i..]))
    {
      var c := FlattenRoute(env, rs[i]);
      if c.Err? {
        return Err(c.error);
      }
      assert rs[i..][1..] == rs[i + 1..];
      ChainStep(result, c.value, FlattenRoutes(env, rs[i + 1..]));
      result := result + [c.value];
    }
    assert result + [] == result;
    return Ok(result);
  }

  /** flattenALBHeaderModification */
  method FlattenModificationsInTurn(ms: seq<HeaderModification>) returns (r: seq<ModificationConfig>)
    ensures r == FlattenModifications(ms)
  {
    r := [];
    assert ms[0..] == ms;
    for i := 0 to |ms|
      invariant FlattenModifications(ms) == r + FlattenModifications(ms[i..])
    {
      assert ms[i..][1..] == ms[i + 1..];
      r := r + [FlattenModification(ms[i])];
    }
  }

  /** The two nested loops of flattenALBRBAC and flattenALBPrincipals. */
  method FlattenPrincipalsInTurn(ps: seq<Principals>) returns (r: Result<seq<PrincipalsConfig>>)
    ensures r == FlattenPrincipals(ps)
  {
    var result: seq<PrincipalsConfig> := [];
    ChainStart(FlattenPrincipals(ps));
    assert ps[0..] == ps;
    for i := 0 to |ps|
      invariant FlattenPrincipals(ps) == Chain(result, FlattenPrincipals(ps[i..]))
    {
      var c := FlattenAndPrincipalsInTurn(ps[i].andPrincipals);
      if c.Err? {
        return Err(c.error);
      }
      assert ps[i..][1..] == ps[i + 1..];
      ChainStep(result, PrincipalsConfig(c.value), FlattenPrincipals(ps[i + 1..]));
      result := result + [PrincipalsConfig(c.value)];
    }
    assert result + [] == result;
    return Ok(result);
  }

  method FlattenAndPrincipalsInTurn(ps: seq<Principal>) returns (r: Result<seq<PrincipalConfig>>)
    ensures r == FlattenAndPrincipals(ps)
  {
    var result: seq<PrincipalConfig> := [];
    ChainStart(FlattenAndPrincipals(ps));
    assert ps[0..] == ps;
    for i := 0 to |ps|
      invariant FlattenAndPrincipals(ps) == Chain(result, FlattenAndPrincipals(ps[i..]))
    {
      var c := FlattenPrincipal(ps[i]);
      if c.Err? {
        return Err(c.error);
      }
      assert ps[i..][1..] == ps[i + 1..];
      ChainStep(result, c.value, FlattenAndPrincipals(ps[i + 1..]));
      result := result + [c.value];
    }
    assert result + [] == result;
    return Ok(result);
  }
}
