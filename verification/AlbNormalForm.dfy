/** Which ALB messages the provider can write and read back: the normal forms. Every configuration
    that expands gives one, and a message survives flattening and expanding exactly when it is one. */
module AlbNormalForm {
  import opened GoText
  import opened AlbMessages
  import opened AlbRoutes

  // ---------- normal forms ----------

  predicate NormalModification(m: HeaderModification) {
    match m.operation
    case NoOperation => true
    case Replace(s) => s != ""
    case Remove(b) => b
    case Append(s) => s != ""
  }

  predicate NormalMatch(m: StringMatch) {
    !m.NoMatch? && m.s != ""
  }

  predicate NormalOptionalMatch(m: Option<StringMatch>) {
    m.Some? ==> NormalMatch(m.value)
  }

  predicate NormalPrincipal(p: Principal) {
    match p
    case NoIdentifier => false
    case Header(h) => NormalOptionalMatch(h.value)
    case RemoteIp(ip) => ip != ""
    case Any(b) => b
  }

  predicate NormalPrincipals(ps: seq<Principals>) {
    forall i | 0 <= i < |ps| :: forall j | 0 <= j < |ps[i].andPrincipals| :: NormalPrincipal(ps[i].andPrincipals[j])
  }

  predicate NormalOptions(env: Env, o: Option<RouteOptions>) {
    o.Some? && o.value.rbac.Some? ==>
      o.value.rbac.value.action in env.rbacAction.names && NormalPrincipals(o.value.rbac.value.principals)
  }

  predicate NormalLimit(l: Option<Limit>) {
    l.Some? && !l.value.NoRate? ==> l.value.n != 0
  }

  predicate NormalRateLimit(r: Option<RateLimit>) {
    r.Some? ==> NormalLimit(r.value.allRequests) && NormalLimit(r.value.requestsPerIp)
  }

  predicate NormalDuration(d: Option<int>) {
    d.Some? ==> IsDuration(d.value)
  }

  predicate NormalRewrite(r: HostRewrite) {
    match r
    case KeepHost => true
    case RewriteHost(h) => h != ""
    case AutoRewriteHost(b) => b
  }

  predicate NormalHttpAction(a: HttpAction) {
    && NormalDuration(a.timeout) && NormalDuration(a.idleTimeout)
    && NormalRewrite(a.rewrite) && NormalRateLimit(a.rateLimit)
  }

  predicate NormalRedirect(env: Env, r: Redirect) {
    && (r.path.ReplacePath? ==> r.path.path != "")
    && (r.path.ReplacePrefix? ==> r.path.prefix != "")
    && r.responseCode in env.redirectCode.names
  }

  predicate NormalHttpRoute(env: Env, r: HttpRoute) {
    && (r.httpMatch.Some? ==> NormalOptionalMatch(r.httpMatch.value.path))
    && match r.choice
       case NoHttpAction => false
       case RouteHttp(a) => NormalHttpAction(a)
       case RedirectTo(rd) => NormalRedirect(env, rd)
       case Respond(d) => d.body != Some("")
  }

  predicate NormalGrpcAction(a: GrpcAction) {
    && NormalDuration(a.maxTimeout) && NormalDuration(a.idleTimeout)
    && NormalRewrite(a.rewrite) && NormalRateLimit(a.rateLimit)
  }

  predicate NormalGrpcRoute(env: Env, r: GrpcRoute) {
    && (r.grpcMatch.Some? ==> NormalOptionalMatch(r.grpcMatch.value.fqmn))
    && match r.choice
       case NoGrpcAction => false
       case RouteGrpc(a) => NormalGrpcAction(a)
       case RespondStatus(status) => status in env.grpcStatus.names
  }

  predicate NormalRoute(env: Env, r: Route) {
    && NormalOptions(env, r.options)
    && match r.choice
       case NoRoute => false
       case Http(h) => NormalHttpRoute(env, h)
       case Grpc(g) => NormalGrpcRoute(env, g)
  }

  predicate NormalRoutes(env: Env, rs: seq<Route>) {
    forall i | 0 <= i < |rs| :: NormalRoute(env, rs[i])
  }

  // ---------- expanding gives normal forms ----------

  lemma {:induction false} AndPrincipalsNormal(cs: seq<PrincipalConfig>)
    requires ExpandAndPrincipals(cs).Ok?
    ensures forall j | 0 <= j < |ExpandAndPrincipals(cs).value| :: NormalPrincipal(ExpandAndPrincipals(cs).value[j])
  {
    if cs != [] {
      AndPrincipalsNormal(cs[1..]);
    }
  }

  lemma {:induction false} PrincipalsNormal(cs: seq<PrincipalsConfig>)
    requires ExpandPrincipals(cs).Ok?
    ensures NormalPrincipals(ExpandPrincipals(cs).value)
  {
    if cs != [] {
      AndPrincipalsNormal(cs[0].andPrincipals);
      PrincipalsNormal(cs[1..]);
    }
  }

  lemma OptionsNormal(env: Env, cs: seq<RouteOptionsConfig>)
    requires Lawful(env) && ExpandRouteOptions(env, cs).Ok?
    ensures NormalOptions(env, ExpandRouteOptions(env, cs).value)
  {
    if cs != [] && cs[0].rbac != [] {
      PrincipalsNormal(cs[0].rbac[0].principals);
    }
  }

  lemma RateLimitNormal(cs: seq<RateLimitConfig>)
    requires ExpandRateLimit(cs).Ok?
    ensures NormalRateLimit(ExpandRateLimit(cs).value)
  {
  }

  lemma HttpRouteNormal(env: Env, c: HttpRouteConfig)
    requires Lawful(env) && ExpandHttpRoute(env, c).Ok?
    ensures NormalHttpRoute(env, ExpandHttpRoute(env, c).value)
  {
    if c.action != [] {
      RateLimitNormal(c.action[0].rateLimit);
    }
  }

  lemma GrpcRouteNormal(env: Env, c: GrpcRouteConfig)
    requires Lawful(env) && ExpandGrpcRoute(env, c).Ok?
    ensures NormalGrpcRoute(env, ExpandGrpcRoute(env, c).value)
  {
    if c.action != [] {
      RateLimitNormal(c.action[0].rateLimit);
    }
  }

  lemma RouteNormal(env: Env, c: RouteConfig)
    requires Lawful(env) && ExpandRoute(env, c).Ok?
    ensures NormalRoute(env, ExpandRoute(env, c).value)
  {
    OptionsNormal(env, c.options);
    if c.http != [] {
      HttpRouteNormal(env, c.http[0]);
    } else {
      GrpcRouteNormal(env, c.grpc[0]);
    }
  }

  lemma {:induction false} RoutesNormal(env: Env, cs: seq<RouteConfig>)
    requires Lawful(env) && ExpandRoutes(env, cs).Ok?
    ensures NormalRoutes(env, ExpandRoutes(env, cs).value)
  {
    if cs != [] {
      RouteNormal(env, cs[0]);
      RoutesNormal(env, cs[1..]);
    }
  }

  // ---------- normal forms read back ----------

  lemma EnumTextExpands(e: EnumTable, v: int)
    requires TableOk(e) && v in e.names
    ensures Lower(EnumText(e, v)) != "" && EnumValue(e, Lower(EnumText(e, v))) == Ok(v)
  {
    EnumTextReadsBack(e, v);
    UpperOfLower(EnumText(e, v));
    assert |Lower(EnumText(e, v))| == |EnumText(e, v)|;
  }

  lemma MatchReadsBack(m: Option<StringMatch>)
    requires NormalOptionalMatch(m)
    ensures ExpandOptionalMatch(FlattenStringMatch(m)) == Ok(m)
  {
  }

  lemma PrincipalReadsBack(p: Principal)
    requires NormalPrincipal(p)
    ensures FlattenPrincipal(p).Ok? && ExpandPrincipal(FlattenPrincipal(p).value) == Ok(p)
  {
  }

  lemma {:induction false} AndPrincipalsReadBack(ps: seq<Principal>)
    requires forall j | 0 <= j < |ps| :: NormalPrincipal(ps[j])
    ensures FlattenAndPrincipals(ps).Ok? && ExpandAndPrincipals(FlattenAndPrincipals(ps).value) == Ok(ps)
  {
    if ps != [] {
      PrincipalReadsBack(ps[0]);
      AndPrincipalsReadBack(ps[1..]);
      var c, rest := FlattenPrincipal(ps[0]).value, FlattenAndPrincipals(ps[1..]).value;
      assert FlattenAndPrincipals(ps).value == [c] + rest;
      assert ([c] + rest)[1..] == rest;
      assert ps == [ps[0]] + ps[1..];
    }
  }

  lemma {:induction false} PrincipalsReadBack(ps: seq<Principals>)
    requires NormalPrincipals(ps)
    ensures FlattenPrincipals(ps).Ok? && ExpandPrincipals(FlattenPrincipals(ps).value) == Ok(ps)
  {
    if ps != [] {
      AndPrincipalsReadBack(ps[0].andPrincipals);
      PrincipalsReadBack(ps[1..]);
      var c := PrincipalsConfig(FlattenAndPrincipals(ps[0].andPrincipals).value);
      var rest := FlattenPrincipals(ps[1..]).value;
      assert FlattenPrincipals(ps).value == [c] + rest;
      assert ([c] + rest)[1..] == rest;
      assert ps == [ps[0]] + ps[1..];
    }
  }

  lemma OptionsReadBack(env: Env, o: Option<RouteOptions>)
    requires Lawful(env) && NormalOptions(env, o)
    ensures FlattenRouteOptions(env, o).Ok? && ExpandRouteOptions(env, FlattenRouteOptions(env, o).value) == Ok(o)
  {
    if o.Some? && o.value.rbac.Some? {
      PrincipalsReadBack(o.value.rbac.value.principals);
      EnumTextExpands(env.rbacAction, o.value.rbac.value.action);
    }
  }

  lemma LimitReadsBack(l: Option<Limit>)
    requires NormalLimit(l)
    ensures ExpandLimit(FlattenLimit(l)) == Ok(l)
  {
  }

  lemma RateLimitReadsBack(r: Option<RateLimit>)
    requires NormalRateLimit(r)
    ensures ExpandRateLimit(FlattenRateLimit(r)) == Ok(r)
  {
    if r.Some? {
      LimitReadsBack(r.value.allRequests);
      LimitReadsBack(r.value.requestsPerIp);
    }
  }

  lemma DurationReadsBack(env: Env, d: Option<int>)
    requires Lawful(env) && NormalDuration(d)
    ensures ReadDuration(env, DurationText(env, d)) == Ok(d) && LenientDuration(env, DurationText(env, d)) == d
  {
  }

  lemma HttpActionReadsBack(env: Env, a: HttpAction)
    requires Lawful(env) && NormalHttpAction(a)
    ensures ExpandHttpAction(env, FlattenHttpAction(env, a)) == Ok(a)
  {
    DurationReadsBack(env, a.timeout);
    DurationReadsBack(env, a.idleTimeout);
    RateLimitReadsBack(a.rateLimit);
  }

  lemma RedirectReadsBack(env: Env, r: Redirect)
    requires Lawful(env) && NormalRedirect(env, r)
    ensures ExpandRedirect(env, FlattenRedirect(env, r)) == Ok(r)
  {
    EnumTextExpands(env.redirectCode, r.responseCode);
  }

  lemma HttpRouteReadsBack(env: Env, r: HttpRoute)
    requires Lawful(env) && NormalHttpRoute(env, r)
    ensures ExpandHttpRoute(env, FlattenHttpRoute(env, r)) == Ok(r)
  {
    if r.httpMatch.Some? {
      MatchReadsBack(r.httpMatch.value.path);
    }
    match r.choice {
      case RouteHttp(a) => HttpActionReadsBack(env, a);
      case RedirectTo(rd) => RedirectReadsBack(env, rd);
      case _ =>
    }
  }

  lemma GrpcActionReadsBack(env: Env, a: GrpcAction)
    requires Lawful(env) && NormalGrpcAction(a)
    ensures ExpandGrpcAction(env, FlattenGrpcAction(env, a)) == Ok(a)
  {
    DurationReadsBack(env, a.maxTimeout);
    DurationReadsBack(env, a.idleTimeout);
    RateLimitReadsBack(a.rateLimit);
  }

  lemma GrpcRouteReadsBack(env: Env, r: GrpcRoute)
    requires Lawful(env) && NormalGrpcRoute(env, r)
    ensures ExpandGrpcRoute(env, FlattenGrpcRoute(env, r)) == Ok(r)
  {
    if r.grpcMatch.Some? {
      MatchReadsBack(r.grpcMatch.value.fqmn);
    }
    match r.choice {
      case RouteGrpc(a) => GrpcActionReadsBack(env, a);
      case RespondStatus(status) => EnumTextExpands(env.grpcStatus, status);
      case NoGrpcAction =>
    }
  }

  lemma RouteReadsBack(env: Env, r: Route)
    requires Lawful(env) && NormalRoute(env, r)
    ensures FlattenRoute(env, r).Ok? && ExpandRoute(env, FlattenRoute(env, r).value) == Ok(r)
  {
    OptionsReadBack(env, r.options);
    match r.choice {
      case Http(h) => HttpRouteReadsBack(env, h);
      case Grpc(g) => GrpcRouteReadsBack(env, g);
      case NoRoute =>
    }
  }

  lemma {:induction false} RoutesReadBack(env: Env, rs: seq<Route>)
    requires Lawful(env) && NormalRoutes(env, rs)
    ensures FlattenRoutes(env, rs).Ok? && ExpandRoutes(env, FlattenRoutes(env, rs).value) == Ok(rs)
  {
    if rs != [] {
      RouteReadsBack(env, rs[0]);
      RoutesReadBack(env, rs[1..]);
      RoutesConsReadBack(env, rs[0], rs[1..]);
      assert rs == [rs[0]] + rs[1..];
    }
  }

  lemma RoutesConsReadBack(env: Env, r: Route, rs: seq<Route>)
    requires FlattenRoute(env, r).Ok? && ExpandRoute(env, FlattenRoute(env, r).value) == Ok(r)
    requires FlattenRoutes(env, rs).Ok? && ExpandRoutes(env, FlattenRoutes(env, rs).value) == Ok(rs)
    ensures FlattenRoutes(env, [r] + rs).Ok?
    ensures ExpandRoutes(env, FlattenRoutes(env, [r] + rs).value) == Ok([r] + rs)
  {
  }

  // ---------- the main results ----------

  /** A list of routes survives flattening and expanding exactly when every route is in normal form. */
  lemma RoutesSurviveIffNormal(env: Env, rs: seq<Route>)
    requires Lawful(env)
    ensures FlattenRoutes(env, rs).Ok? && ExpandRoutes(env, FlattenRoutes(env, rs).value) == Ok(rs) <==>
            NormalRoutes(env, rs)
  {
    if NormalRoutes(env, rs) {
      RoutesReadBack(env, rs);
    }
    if FlattenRoutes(env, rs).Ok? && ExpandRoutes(env, FlattenRoutes(env, rs).value) == Ok(rs) {
      RoutesNormal(env, FlattenRoutes(env, rs).value);
    }
  }

  /** Any configuration of routes that expands normalises: flattening its messages does not fail, and
      the flattened form expands to the same messages. */
  lemma RoutesNormalise(env: Env, cs: seq<RouteConfig>)
    requires Lawful(env) && ExpandRoutes(env, cs).Ok?
    ensures var rs := ExpandRoutes(env, cs).value;
            FlattenRoutes(env, rs).Ok? && ExpandRoutes(env, FlattenRoutes(env, rs).value) == Ok(rs)
  {
    RoutesNormal(env, cs);
    RoutesReadBack(env, ExpandRoutes(env, cs).value);
  }

  lemma {:induction false} ModificationsNormal(cs: seq<ModificationConfig>)
    requires ExpandModifications(cs).Ok?
    ensures forall i | 0 <= i < |ExpandModifications(cs).value| :: NormalModification(ExpandModifications(cs).value[i])
  {
    if cs != [] {
      ModificationsNormal(cs[1..]);
    }
  }

  lemma {:induction false} ModificationsReadBack(ms: seq<HeaderModification>)
    requires forall i | 0 <= i < |ms| :: NormalModification(ms[i])
    ensures ExpandModifications(FlattenModifications(ms)) == Ok(ms)
  {
    if ms != [] {
      ModificationsReadBack(ms[1..]);
      ModificationReadsBack(ms[0]);
      ExpandModificationsCons(FlattenModification(ms[0]), FlattenModifications(ms[1..]));
      assert ms == [ms[0]] + ms[1..];
    }
  }

  lemma ModificationReadsBack(m: HeaderModification)
    requires NormalModification(m)
    ensures ExpandModification(FlattenModification(m)) == Ok(m)
  {
  }

  lemma ExpandModificationsCons(c: ModificationConfig, cs: seq<ModificationConfig>)
    requires ExpandModification(c).Ok? && ExpandModifications(cs).Ok?
    ensures ExpandModifications([c] + cs) == Ok([ExpandModification(c).value] + ExpandModifications(cs).value)
  {
  }

  /** Header modifications survive exactly in normal form, and every configuration of them that
      expands gives a normal form. */
  lemma ModificationsNormalise(cs: seq<ModificationConfig>, ms: seq<HeaderModification>)
    ensures ExpandModifications(FlattenModifications(ms)) == Ok(ms) <==>
            forall i | 0 <= i < |ms| :: NormalModification(ms[i])
    ensures ExpandModifications(cs).Ok? ==>
              ExpandModifications(FlattenModifications(ExpandModifications(cs).value)) == ExpandModifications(cs)
  {
    if forall i | 0 <= i < |ms| :: NormalModification(ms[i]) {
      ModificationsReadBack(ms);
    }
    if ExpandModifications(FlattenModifications(ms)) == Ok(ms) {
      ModificationsNormal(FlattenModifications(ms));
    }
    if ExpandModifications(cs).Ok? {
      ModificationsNormal(cs);
      ModificationsReadBack(ExpandModifications(cs).value);
    }
  }
}
