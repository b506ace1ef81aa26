/** Which configurations of ALB routes and header modifications expand, what the messages then say, and
    the normal form in which flattening gives the configuration back. */
module AlbConfigured {
  import opened GoText
  import opened AlbMessages
  import opened AlbRoutes
  import AlbNormalForm

  // ---------- which configurations expand ----------

  predicate Readable(env: Env, s: string) {
    s == "" || env.parseDuration(s).Ok?
  }

  /** A name of the enum in any letter case, or nothing. */
  predicate NameOk(e: EnumTable, s: string) {
    s == "" || Upper(s) in e.values
  }

  predicate ModificationOk(c: ModificationConfig) {
    One(c.replace != "") + One(c.remove) + One(c.append != "") <= 1
  }

  predicate MatchOk(cs: seq<StringMatchConfig>) {
    cs == [] || One(cs[0].exact != "") + One(cs[0].prefix != "") + One(cs[0].regex != "") == 1
  }

  predicate PrincipalOk(c: PrincipalConfig) {
    && One(c.header != []) + One(c.remoteIp != "") + One(c.any) == 1
    && (c.header != [] ==> MatchOk(c.header[0].value))
  }

  predicate AndPrincipalsOk(cs: seq<PrincipalConfig>) {
    forall i | 0 <= i < |cs| :: PrincipalOk(cs[i])
  }

  predicate PrincipalsOk(cs: seq<PrincipalsConfig>) {
    forall i | 0 <= i < |cs| :: AndPrincipalsOk(cs[i].andPrincipals)
  }

  predicate OptionsOk(env: Env, cs: seq<RouteOptionsConfig>) {
    cs == [] || cs[0].rbac == [] ||
    (NameOk(env.rbacAction, cs[0].rbac[0].action) && PrincipalsOk(cs[0].rbac[0].principals))
  }

  predicate RateLimitOk(cs: seq<RateLimitConfig>) {
    cs == [] || (|cs| == 1 && |cs[0].allRequests| <= 1 && |cs[0].requestsPerIp| <= 1)
  }

  predicate HttpActionOk(env: Env, c: HttpActionConfig) {
    && Readable(env, c.timeout) && Readable(env, c.idleTimeout)
    && !(c.hostRewrite != "" && c.autoHostRewrite) && RateLimitOk(c.rateLimit)
  }

  predicate RedirectOk(env: Env, c: RedirectConfig) {
    !(c.replacePath != "" && c.replacePrefix != "") && NameOk(env.redirectCode, c.responseCode)
  }

  predicate HttpRouteOk(env: Env, c: HttpRouteConfig) {
    && (c.httpMatch != [] ==> MatchOk(c.httpMatch[0].path))
    && One(c.action != []) + One(c.redirect != []) + One(c.direct != []) == 1
    && (c.action != [] ==> HttpActionOk(env, c.action[0]))
    && (c.redirect != [] ==> RedirectOk(env, c.redirect[0]))
  }

  /** The timeouts of a gRPC action need not be readable. */
  predicate GrpcRouteOk(env: Env, c: GrpcRouteConfig) {
    && (c.grpcMatch != [] ==> MatchOk(c.grpcMatch[0].fqmn))
    && One(c.action != []) + One(c.status != []) == 1
    && (c.action != [] ==> RateLimitOk(c.action[0].rateLimit))
    && (c.status != [] ==> Upper(c.status[0]) in env.grpcStatus.values)
  }

  predicate RouteOk(env: Env, c: RouteConfig) {
    && OptionsOk(env, c.options)
    && One(c.http != []) + One(c.grpc != []) == 1
    && (c.http != [] ==> HttpRouteOk(env, c.http[0]))
    && (c.grpc != [] ==> GrpcRouteOk(env, c.grpc[0]))
  }

  predicate RoutesOk(env: Env, cs: seq<RouteConfig>) {
    forall i | 0 <= i < |cs| :: RouteOk(env, cs[i])
  }

  // ---------- what the messages say ----------

  predicate SaysName(e: EnumTable, s: string, v: int) {
    if s == "" then v == 0 else v in e.names && e.names[v] == Upper(s)
  }

  predicate SaysDuration(env: Env, s: string, d: Option<int>) {
    if s == "" then d == None else d.Some? && env.parseDuration(s) == Ok(d.value)
  }

  predicate SaysModification(c: ModificationConfig, m: HeaderModification) {
    && m.name == c.name
    && match m.operation
       case NoOperation => c.replace == "" && !c.remove && c.append == ""
       case Replace(s) => s != "" && c == ModificationConfig(c.name, s, false, "")
       case Remove(b) => b && c == ModificationConfig(c.name, "", true, "")
       case Append(s) => s != "" && c == ModificationConfig(c.name, "", false, s)
  }

  predicate SaysMatch(cs: seq<StringMatchConfig>, o: Option<StringMatch>) {
    match o
    case None => cs == []
    case Some(m) =>
      cs != [] && !m.NoMatch? && m.s != "" &&
      cs[0] == if m.Exact? then StringMatchConfig(m.s, "", "")
               else if m.Prefix? then StringMatchConfig("", m.s, "")
               else StringMatchConfig("", "", m.s)
  }

  predicate SaysPrincipal(c: PrincipalConfig, p: Principal) {
    match p
    case NoIdentifier => false
    case Header(h) =>
      c.header != [] && c.remoteIp == "" && !c.any && h.name == c.header[0].name && SaysMatch(c.header[0].value, h.value)
    case RemoteIp(ip) => ip != "" && c == PrincipalConfig([], ip, false)
    case Any(b) => b && c == PrincipalConfig([], "", true)
  }

  predicate SaysAndPrincipals(cs: seq<PrincipalConfig>, ps: seq<Principal>) {
    |ps| == |cs| && forall i | 0 <= i < |cs| :: SaysPrincipal(cs[i], ps[i])
  }

  predicate SaysPrincipals(cs: seq<PrincipalsConfig>, ps: seq<Principals>) {
    |ps| == |cs| && forall i | 0 <= i < |cs| :: SaysAndPrincipals(cs[i].andPrincipals, ps[i].andPrincipals)
  }

  predicate SaysOptions(env: Env, cs: seq<RouteOptionsConfig>, o: Option<RouteOptions>) {
    if cs == [] then o == None
    else
      && o.Some? && o.value.securityProfileId == cs[0].securityProfileId
      && if cs[0].rbac == [] then o.value.rbac == None
         else
           && o.value.rbac.Some?
           && SaysName(env.rbacAction, cs[0].rbac[0].action, o.value.rbac.value.action)
           && SaysPrincipals(cs[0].rbac[0].principals, o.value.rbac.value.principals)
  }

  /** A rate per minute, where there is one, counts before a rate per second. */
  predicate SaysLimit(cs: seq<LimitConfig>, o: Option<Limit>) {
    if cs == [] then o == None
    else
      match o
      case None => false
      case Some(NoRate) => cs == [LimitConfig(0, 0)]
      case Some(PerSecond(n)) => n != 0 && cs == [LimitConfig(n, 0)]
      case Some(PerMinute(n)) => n != 0 && |cs| == 1 && cs[0].perMinute == n
  }

  predicate SaysRateLimit(cs: seq<RateLimitConfig>, o: Option<RateLimit>) {
    if cs == [] then o == None
    else
      && |cs| == 1 && o.Some?
      && SaysLimit(cs[0].allRequests, o.value.allRequests) && SaysLimit(cs[0].requestsPerIp, o.value.requestsPerIp)
  }

  /** Automatic rewriting, where it is asked for, counts before a host. */
  predicate SaysRewrite(host: string, auto: bool, r: HostRewrite) {
    match r
    case KeepHost => host == "" && !auto
    case RewriteHost(h) => h == host != "" && !auto
    case AutoRewriteHost(b) => b && auto
  }

  predicate SaysHttpAction(env: Env, c: HttpActionConfig, a: HttpAction) {
    && a.backendGroupId == c.backendGroupId && a.prefixRewrite == c.prefixRewrite && a.upgradeTypes == c.upgradeTypes
    && SaysDuration(env, c.timeout, a.timeout) && SaysDuration(env, c.idleTimeout, a.idleTimeout)
    && SaysRewrite(c.hostRewrite, c.autoHostRewrite, a.rewrite) && (c.autoHostRewrite ==> c.hostRewrite == "")
    && SaysRateLimit(c.rateLimit, a.rateLimit)
  }

  predicate SaysRedirect(env: Env, c: RedirectConfig, r: Redirect) {
    && r.replaceScheme == c.replaceScheme && r.replaceHost == c.replaceHost && r.replacePort == c.replacePort
    && r.removeQuery == c.removeQuery && SaysName(env.redirectCode, c.responseCode, r.responseCode)
    && match r.path
       case KeepPath => c.replacePath == "" && c.replacePrefix == ""
       case ReplacePath(s) => s == c.replacePath != "" && c.replacePrefix == ""
       case ReplacePrefix(s) => s == c.replacePrefix != "" && c.replacePath == ""
  }

  predicate SaysHttpRoute(env: Env, c: HttpRouteConfig, r: HttpRoute) {
    && (if c.httpMatch == [] then r.httpMatch == None
        else
          && r.httpMatch.Some? && r.httpMatch.value.httpMethod == c.httpMatch[0].httpMethod
          && SaysMatch(c.httpMatch[0].path, r.httpMatch.value.path))
    && match r.choice
       case NoHttpAction => false
       case RouteHttp(a) => c.action != [] && c.redirect == [] && c.direct == [] && SaysHttpAction(env, c.action[0], a)
       case RedirectTo(rd) => c.action == [] && c.redirect != [] && c.direct == [] && SaysRedirect(env, c.redirect[0], rd)
       case Respond(d) =>
         && c.action == [] && c.redirect == [] && c.direct != [] && d.status == c.direct[0].status
         && d.body == if c.direct[0].body == "" then None else Some(c.direct[0].body)
  }

  /** A timeout that cannot be read counts as none. */
  predicate SaysLeniently(env: Env, s: string, d: Option<int>) {
    if Readable(env, s) then SaysDuration(env, s, d) else d == None
  }

  predicate SaysGrpcAction(env: Env, c: GrpcActionConfig, a: GrpcAction) {
    && a.backendGroupId == c.backendGroupId
    && SaysLeniently(env, c.maxTimeout, a.maxTimeout) && SaysLeniently(env, c.idleTimeout, a.idleTimeout)
    && SaysRewrite(c.hostRewrite, c.autoHostRewrite, a.rewrite) && SaysRateLimit(c.rateLimit, a.rateLimit)
  }

  predicate SaysGrpcRoute(env: Env, c: GrpcRouteConfig, r: GrpcRoute) {
    && (if c.grpcMatch == [] then r.grpcMatch == None
        else r.grpcMatch.Some? && SaysMatch(c.grpcMatch[0].fqmn, r.grpcMatch.value.fqmn))
    && match r.choice
       case NoGrpcAction => false
       case RouteGrpc(a) => c.action != [] && c.status == [] && SaysGrpcAction(env, c.action[0], a)
       case RespondStatus(v) => c.action == [] && c.status != [] && c.status[0] != "" && SaysName(env.grpcStatus, c.status[0], v)
  }

  predicate SaysRoute(env: Env, c: RouteConfig, r: Route) {
    && r.name == c.name && SaysOptions(env, c.options, r.options)
    && match r.choice
       case NoRoute => false
       case Http(h) => c.http != [] && c.grpc == [] && SaysHttpRoute(env, c.http[0], h)
       case Grpc(g) => c.http == [] && c.grpc != [] && SaysGrpcRoute(env, c.grpc[0], g)
  }

  // ---------- expansion, exactly ----------

  lemma {:induction false} ModificationsExact(cs: seq<ModificationConfig>)
    ensures ExpandModifications(cs).Ok? <==> forall i | 0 <= i < |cs| :: ModificationOk(cs[i])
    ensures ExpandModifications(cs).Ok? ==>
              var ms := ExpandModifications(cs).value;
              && |ms| == |cs| && (forall i | 0 <= i < |cs| :: SaysModification(cs[i], ms[i]))
              && FlattenModifications(ms) == cs
  {
    if cs != [] {
      ModificationsExact(cs[1..]);
      assert cs == [cs[0]] + cs[1..];
      if ExpandModifications(cs).Ok? {
        var ms := ExpandModifications(cs).value;
        assert ms[1..] == ExpandModifications(cs[1..]).value;
      }
    }
  }

  lemma MatchExact(cs: seq<StringMatchConfig>)
    ensures ExpandOptionalMatch(cs).Ok? <==> MatchOk(cs)
    ensures ExpandOptionalMatch(cs).Ok? ==> SaysMatch(cs, ExpandOptionalMatch(cs).value)
  {
  }

  lemma {:induction false} AndPrincipalsExact(cs: seq<PrincipalConfig>)
    ensures ExpandAndPrincipals(cs).Ok? <==> AndPrincipalsOk(cs)
    ensures ExpandAndPrincipals(cs).Ok? ==> SaysAndPrincipals(cs, ExpandAndPrincipals(cs).value)
  {
    if cs != [] {
      AndPrincipalsExact(cs[1..]);
      if cs[0].header != [] {
        MatchExact(cs[0].header[0].value);
      }
      assert cs == [cs[0]] + cs[1..];
    }
  }

  lemma {:induction false} PrincipalsExact(cs: seq<PrincipalsConfig>)
    ensures ExpandPrincipals(cs).Ok? <==> PrincipalsOk(cs)
    ensures ExpandPrincipals(cs).Ok? ==> SaysPrincipals(cs, ExpandPrincipals(cs).value)
  {
    if cs != [] {
      PrincipalsExact(cs[1..]);
      AndPrincipalsExact(cs[0].andPrincipals);
      assert cs == [cs[0]] + cs[1..];
    }
  }

  lemma NameExact(e: EnumTable, s: string)
    requires TableOk(e) && s != ""
    ensures EnumValue(e, s).Ok? <==> NameOk(e, s)
    ensures EnumValue(e, s).Ok? ==> SaysName(e, s, EnumValue(e, s).value)
  {
  }

  lemma OptionsExact(env: Env, cs: seq<RouteOptionsConfig>)
    requires Lawful(env)
    ensures ExpandRouteOptions(env, cs).Ok? <==> OptionsOk(env, cs)
    ensures ExpandRouteOptions(env, cs).Ok? ==> SaysOptions(env, cs, ExpandRouteOptions(env, cs).value)
  {
    if cs != [] && cs[0].rbac != [] {
      PrincipalsExact(cs[0].rbac[0].principals);
      if cs[0].rbac[0].action != "" {
        NameExact(env.rbacAction, cs[0].rbac[0].action);
      }
    }
  }

  lemma RateLimitExact(cs: seq<RateLimitConfig>)
    ensures ExpandRateLimit(cs).Ok? <==> RateLimitOk(cs)
    ensures ExpandRateLimit(cs).Ok? ==> SaysRateLimit(cs, ExpandRateLimit(cs).value)
  {
    if |cs| == 1 {
      LimitExact(cs[0].allRequests);
      LimitExact(cs[0].requestsPerIp);
    }
  }

  lemma LimitExact(cs: seq<LimitConfig>)
    ensures ExpandLimit(cs).Ok? <==> |cs| <= 1
    ensures ExpandLimit(cs).Ok? ==> SaysLimit(cs, ExpandLimit(cs).value)
  {
  }

  lemma HttpActionExact(env: Env, c: HttpActionConfig)
    ensures ExpandHttpAction(env, c).Ok? <==> HttpActionOk(env, c)
    ensures ExpandHttpAction(env, c).Ok? ==> SaysHttpAction(env, c, ExpandHttpAction(env, c).value)
  {
    RateLimitExact(c.rateLimit);
  }

  lemma RedirectExact(env: Env, c: RedirectConfig)
    requires Lawful(env)
    ensures ExpandRedirect(env, c).Ok? <==> RedirectOk(env, c)
    ensures ExpandRedirect(env, c).Ok? ==> SaysRedirect(env, c, ExpandRedirect(env, c).value)
  {
    if c.responseCode != "" {
      NameExact(env.redirectCode, c.responseCode);
    }
  }

  lemma HttpRouteExact(env: Env, c: HttpRouteConfig)
    requires Lawful(env)
    ensures ExpandHttpRoute(env, c).Ok? <==> HttpRouteOk(env, c)
    ensures ExpandHttpRoute(env, c).Ok? ==> SaysHttpRoute(env, c, ExpandHttpRoute(env, c).value)
  {
    if c.httpMatch != [] {
      MatchExact(c.httpMatch[0].path);
    }
    if c.action != [] {
      HttpActionExact(env, c.action[0]);
    }
    if c.redirect != [] {
      RedirectExact(env, c.redirect[0]);
    }
  }

  lemma GrpcRouteExact(env: Env, c: GrpcRouteConfig)
    requires Lawful(env)
    ensures ExpandGrpcRoute(env, c).Ok? <==> GrpcRouteOk(env, c)
    ensures ExpandGrpcRoute(env, c).Ok? ==> SaysGrpcRoute(env, c, ExpandGrpcRoute(env, c).value)
  {
    if c.grpcMatch != [] {
      MatchExact(c.grpcMatch[0].fqmn);
    }
    if c.action != [] {
      RateLimitExact(c.action[0].rateLimit);
    }
    if c.status != [] {
      assert Upper("") == "";
    }
  }

  lemma RouteExact(env: Env, c: RouteConfig)
    requires Lawful(env)
    ensures ExpandRoute(env, c).Ok? <==> RouteOk(env, c)
    ensures ExpandRoute(env, c).Ok? ==> SaysRoute(env, c, ExpandRoute(env, c).value)
  {
    OptionsExact(env, c.options);
    if c.http != [] {
      HttpRouteExact(env, c.http[0]);
    }
    if c.grpc != [] {
      GrpcRouteExact(env, c.grpc[0]);
    }
  }

  /** The routes expand exactly when the rules hold at every level, and every message then says what its
      block says. */
  lemma RoutesExact(env: Env, cs: seq<RouteConfig>)
    requires Lawful(env)
    ensures ExpandRoutes(env, cs).Ok? <==> RoutesOk(env, cs)
    ensures ExpandRoutes(env, cs).Ok? ==>
              && |ExpandRoutes(env, cs).value| == |cs|
              && forall i | 0 <= i < |cs| :: SaysRoute(env, cs[i], ExpandRoutes(env, cs).value[i])
  {
    EachRouteExpands(env, cs);
    forall i | 0 <= i < |cs|
      ensures ExpandRoute(env, cs[i]).Ok? <==> RouteOk(env, cs[i])
      ensures ExpandRoute(env, cs[i]).Ok? ==> SaysRoute(env, cs[i], ExpandRoute(env, cs[i]).value)
    {
      RouteExact(env, cs[i]);
    }
  }

  lemma {:induction false} EachRouteExpands(env: Env, cs: seq<RouteConfig>)
    ensures ExpandRoutes(env, cs).Ok? <==> forall i | 0 <= i < |cs| :: ExpandRoute(env, cs[i]).Ok?
    ensures ExpandRoutes(env, cs).Ok? ==>
              && |ExpandRoutes(env, cs).value| == |cs|
              && forall i | 0 <= i < |cs| :: ExpandRoute(env, cs[i]) == Ok(ExpandRoutes(env, cs).value[i])
  {
    if cs != [] {
      EachRouteExpands(env, cs[1..]);
      assert forall i | 1 <= i < |cs| :: cs[i] == cs[1..][i - 1];
      assert forall i | 0 <= i < |cs[1..]| :: cs[1..][i] == cs[i + 1];
    }
  }

  // ---------- the normal form of a configuration ----------

  // What flattening gives back: only the first block counts where there may be one, enum names are in
  // small letters with the zero value's name for one that is not set, durations are spelled as the
  // formatter spells them, and of two settings of which one is ignored the other is left.

  function NormalName(e: EnumTable, s: string): string {
    Lower(if s == "" then EnumText(e, 0) else s)
  }

  function NormalText(env: Env, s: string): string {
    if s == "" then ""
    else
      match env.parseDuration(s)
      case Ok(d) => env.formatDuration(d)
      case Err(_) => ""
  }

  function First<T>(cs: seq<T>): seq<T> {
    if cs == [] then [] else [cs[0]]
  }

  function NormalAndPrincipals(cs: seq<PrincipalConfig>): seq<PrincipalConfig> {
    seq(|cs|, i requires 0 <= i < |cs| => NormalPrincipal(cs[i]))
  }

  function NormalPrincipal(c: PrincipalConfig): PrincipalConfig {
    if c.header == [] then c else c.(header := [HeaderConfig(c.header[0].name, First(c.header[0].value))])
  }

  function NormalPrincipals(cs: seq<PrincipalsConfig>): seq<PrincipalsConfig> {
    seq(|cs|, i requires 0 <= i < |cs| => PrincipalsConfig(NormalAndPrincipals(cs[i].andPrincipals)))
  }

  function NormalOptions(env: Env, cs: seq<RouteOptionsConfig>): seq<RouteOptionsConfig> {
    if cs == [] then []
    else if cs[0].rbac == [] then [cs[0]]
    else
      var rbac := cs[0].rbac[0];
      [cs[0].(rbac := [RbacConfig(NormalName(env.rbacAction, rbac.action), NormalPrincipals(rbac.principals))])]
  }

  function NormalLimit(cs: seq<LimitConfig>): seq<LimitConfig> {
    if cs == [] then [] else [if cs[0].perMinute != 0 then cs[0].(perSecond := 0) else cs[0]]
  }

  function NormalRateLimit(cs: seq<RateLimitConfig>): seq<RateLimitConfig> {
    if cs == [] then [] else [RateLimitConfig(NormalLimit(cs[0].allRequests), NormalLimit(cs[0].requestsPerIp))]
  }

  function NormalHttpAction(env: Env, c: HttpActionConfig): HttpActionConfig {
    c.(timeout := NormalText(env, c.timeout), idleTimeout := NormalText(env, c.idleTimeout),
       rateLimit := NormalRateLimit(c.rateLimit))
  }

  function NormalRedirect(env: Env, c: RedirectConfig): RedirectConfig {
    c.(responseCode := NormalName(env.redirectCode, c.responseCode))
  }

  function NormalHttpRoute(env: Env, c: HttpRouteConfig): HttpRouteConfig {
    HttpRouteConfig(if c.httpMatch == [] then [] else [c.httpMatch[0].(path := First(c.httpMatch[0].path))],
                    if c.action == [] then [] else [NormalHttpAction(env, c.action[0])],
                    if c.redirect == [] then [] else [NormalRedirect(env, c.redirect[0])],
                    First(c.direct))
  }

  function NormalGrpcAction(env: Env, c: GrpcActionConfig): GrpcActionConfig {
    c.(maxTimeout := NormalText(env, c.maxTimeout), idleTimeout := NormalText(env, c.idleTimeout),
       hostRewrite := if c.autoHostRewrite then "" else c.hostRewrite, rateLimit := NormalRateLimit(c.rateLimit))
  }

  function NormalGrpcRoute(env: Env, c: GrpcRouteConfig): GrpcRouteConfig {
    GrpcRouteConfig(if c.grpcMatch == [] then [] else [GrpcMatchConfig(First(c.grpcMatch[0].fqmn))],
                    if c.action == [] then [] else [NormalGrpcAction(env, c.action[0])],
                    if c.status == [] then [] else [Lower(c.status[0])])
  }

  function NormalRoute(env: Env, c: RouteConfig): RouteConfig {
    RouteConfig(c.name, NormalOptions(env, c.options),
                if c.http == [] then [] else [NormalHttpRoute(env, c.http[0])],
                if c.grpc == [] then [] else [NormalGrpcRoute(env, c.grpc[0])])
  }

  function NormalRoutes(env: Env, cs: seq<RouteConfig>): seq<RouteConfig> {
    seq(|cs|, i requires 0 <= i < |cs| => NormalRoute(env, cs[i]))
  }

  lemma NameFlattens(e: EnumTable, s: string, v: int)
    requires TableOk(e) && 0 in e.names && SaysName(e, s, v)
    ensures Lower(EnumText(e, v)) == NormalName(e, s)
  {
    assert Lower(Upper(s)) == Lower(s);
  }

  lemma MatchFlattens(cs: seq<StringMatchConfig>, o: Option<StringMatch>)
    requires SaysMatch(cs, o)
    ensures FlattenStringMatch(o) == First(cs)
  {
  }

  lemma PrincipalFlattens(c: PrincipalConfig, p: Principal)
    requires SaysPrincipal(c, p)
    ensures FlattenPrincipal(p) == Ok(NormalPrincipal(c))
  {
    if p.Header? {
      MatchFlattens(c.header[0].value, p.header.value);
    }
  }

  lemma {:induction false} AndPrincipalsFlatten(cs: seq<PrincipalConfig>, ps: seq<Principal>)
    requires SaysAndPrincipals(cs, ps)
    ensures FlattenAndPrincipals(ps) == Ok(NormalAndPrincipals(cs))
    decreases |cs|
  {
    if cs != [] {
      PrincipalFlattens(cs[0], ps[0]);
      AndPrincipalsFlatten(cs[1..], ps[1..]);
      assert NormalAndPrincipals(cs) == [NormalPrincipal(cs[0])] + NormalAndPrincipals(cs[1..]);
    }
  }

  lemma {:induction false} PrincipalsFlatten(cs: seq<PrincipalsConfig>, ps: seq<Principals>)
    requires SaysPrincipals(cs, ps)
    ensures FlattenPrincipals(ps) == Ok(NormalPrincipals(cs))
    decreases |cs|
  {
    if cs != [] {
      AndPrincipalsFlatten(cs[0].andPrincipals, ps[0].andPrincipals);
      PrincipalsFlatten(cs[1..], ps[1..]);
      assert NormalPrincipals(cs) ==
             [PrincipalsConfig(NormalAndPrincipals(cs[0].andPrincipals))] + NormalPrincipals(cs[1..]);
    }
  }

  lemma OptionsFlatten(env: Env, cs: seq<RouteOptionsConfig>, o: Option<RouteOptions>)
    requires Lawful(env) && SaysOptions(env, cs, o)
    ensures FlattenRouteOptions(env, o) == Ok(NormalOptions(env, cs))
  {
    if cs != [] && cs[0].rbac != [] {
      PrincipalsFlatten(cs[0].rbac[0].principals, o.value.rbac.value.principals);
      NameFlattens(env.rbacAction, cs[0].rbac[0].action, o.value.rbac.value.action);
    }
  }

  lemma RateLimitFlattens(cs: seq<RateLimitConfig>, o: Option<RateLimit>)
    requires SaysRateLimit(cs, o)
    ensures FlattenRateLimit(o) == NormalRateLimit(cs)
  {
    if cs != [] {
      LimitFlattens(cs[0].allRequests, o.value.allRequests);
      LimitFlattens(cs[0].requestsPerIp, o.value.requestsPerIp);
    }
  }

  lemma LimitFlattens(cs: seq<LimitConfig>, o: Option<Limit>)
    requires SaysLimit(cs, o)
    ensures FlattenLimit(o) == NormalLimit(cs)
  {
  }

  lemma DurationFlattens(env: Env, s: string, d: Option<int>)
    requires SaysLeniently(env, s, d)
    ensures DurationText(env, d) == NormalText(env, s)
  {
  }

  lemma HttpActionFlattens(env: Env, c: HttpActionConfig, a: HttpAction)
    requires SaysHttpAction(env, c, a)
    ensures FlattenHttpAction(env, a) == NormalHttpAction(env, c)
  {
    DurationFlattens(env, c.timeout, a.timeout);
    DurationFlattens(env, c.idleTimeout, a.idleTimeout);
    RateLimitFlattens(c.rateLimit, a.rateLimit);
  }

  lemma HttpRouteFlattens(env: Env, c: HttpRouteConfig, r: HttpRoute)
    requires Lawful(env) && SaysHttpRoute(env, c, r)
    ensures FlattenHttpRoute(env, r) == NormalHttpRoute(env, c)
  {
    if c.httpMatch != [] {
      MatchFlattens(c.httpMatch[0].path, r.httpMatch.value.path);
    }
    if r.choice.RouteHttp? {
      HttpActionFlattens(env, c.action[0], r.choice.action);
    }
    if r.choice.RedirectTo? {
      NameFlattens(env.redirectCode, c.redirect[0].responseCode, r.choice.redirect.responseCode);
      assert FlattenRedirect(env, r.choice.redirect) == NormalRedirect(env, c.redirect[0]);
    }
  }

  lemma GrpcRouteFlattens(env: Env, c: GrpcRouteConfig, r: GrpcRoute)
    requires Lawful(env) && SaysGrpcRoute(env, c, r)
    ensures FlattenGrpcRoute(env, r) == NormalGrpcRoute(env, c)
  {
    if c.grpcMatch != [] {
      MatchFlattens(c.grpcMatch[0].fqmn, r.grpcMatch.value.fqmn);
    }
    if r.choice.RouteGrpc? {
      DurationFlattens(env, c.action[0].maxTimeout, r.choice.action.maxTimeout);
      DurationFlattens(env, c.action[0].idleTimeout, r.choice.action.idleTimeout);
      RateLimitFlattens(c.action[0].rateLimit, r.choice.action.rateLimit);
    } else {
      NameFlattens(env.grpcStatus, c.status[0], r.choice.status);
    }
  }

  lemma RouteFlattens(env: Env, c: RouteConfig, r: Route)
    requires Lawful(env) && SaysRoute(env, c, r)
    ensures FlattenRoute(env, r) == Ok(NormalRoute(env, c))
  {
    OptionsFlatten(env, c.options, r.options);
    if r.choice.Http? {
      HttpRouteFlattens(env, c.http[0], r.choice.http);
    } else {
      GrpcRouteFlattens(env, c.grpc[0], r.choice.grpc);
    }
  }

  lemma SaidRoutesFlatten(env: Env, cs: seq<RouteConfig>, rs: seq<Route>)
    requires Lawful(env) && |rs| == |cs| && forall i | 0 <= i < |cs| :: SaysRoute(env, cs[i], rs[i])
    ensures FlattenRoutes(env, rs) == Ok(NormalRoutes(env, cs))
  {
    forall i | 0 <= i < |rs|
      ensures FlattenRoute(env, rs[i]) == Ok(NormalRoutes(env, cs)[i])
    {
      RouteFlattens(env, cs[i], rs[i]);
    }
    EachRouteFlattens(env, rs, NormalRoutes(env, cs));
  }

  lemma {:induction false} EachRouteFlattens(env: Env, rs: seq<Route>, ws: seq<RouteConfig>)
    requires |ws| == |rs| && forall i | 0 <= i < |rs| :: FlattenRoute(env, rs[i]) == Ok(ws[i])
    ensures FlattenRoutes(env, rs) == Ok(ws)
    decreases |rs|
  {
    if rs != [] {
      EachRouteFlattens(env, rs[1..], ws[1..]);
      FlattenRoutesCons(env, rs[0], rs[1..]);
      assert rs == [rs[0]] + rs[1..] && ws == [ws[0]] + ws[1..];
    }
  }

  lemma FlattenRoutesCons(env: Env, r: Route, rs: seq<Route>)
    requires FlattenRoute(env, r).Ok? && FlattenRoutes(env, rs).Ok?
    ensures FlattenRoutes(env, [r] + rs) == Ok([FlattenRoute(env, r).value] + FlattenRoutes(env, rs).value)
  {
    assert ([r] + rs)[1..] == rs;
  }

  /** Flattening the routes expanded from a configuration gives its normal form, which expands to the
      same routes and is its own normal form. */
  lemma RoutesGiveNormalForm(env: Env, cs: seq<RouteConfig>)
    requires Lawful(env) && ExpandRoutes(env, cs).Ok?
    ensures FlattenRoutes(env, ExpandRoutes(env, cs).value) == Ok(NormalRoutes(env, cs))
    ensures ExpandRoutes(env, NormalRoutes(env, cs)) == ExpandRoutes(env, cs)
    ensures NormalRoutes(env, NormalRoutes(env, cs)) == NormalRoutes(env, cs)
  {
    var rs := ExpandRoutes(env, cs).value;
    RoutesExact(env, cs);
    SaidRoutesFlatten(env, cs, rs);
    AlbNormalForm.RoutesNormalise(env, cs);
    RoutesExact(env, NormalRoutes(env, cs));
    SaidRoutesFlatten(env, NormalRoutes(env, cs), rs);
  }
}
