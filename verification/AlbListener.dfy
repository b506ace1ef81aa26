/** Listeners of an ALB load balancer (yandex/alb_structures.go). A sub-message is created only when
    something in its block is set, so that empty blocks are pruned. */
module AlbListener {
  import opened GoText
  import opened AlbMessages

  // ---------- configuration and messages ----------

  /** http2Options lists max_concurrent_streams, one per block. */
  datatype HttpHandlerConfig = HttpHandlerConfig(
    httpRouterId: string, rewriteRequestId: bool, allowHttp10: bool, http2Options: seq<int>)

  datatype StreamHandlerConfig = StreamHandlerConfig(backendGroupId: string, idleTimeout: string)

  datatype TlsHandlerConfig = TlsHandlerConfig(
    httpHandler: seq<HttpHandlerConfig>, streamHandler: seq<StreamHandlerConfig>, certificateIds: set<string>)

  datatype SniConfig = SniConfig(name: string, serverNames: set<string>, handler: seq<TlsHandlerConfig>)

  datatype TlsListenerConfig = TlsListenerConfig(defaultHandler: seq<TlsHandlerConfig>, sniHandler: seq<SniConfig>)

  /** redirects lists http_to_https, one per block. */
  datatype HttpListenerConfig = HttpListenerConfig(handler: seq<HttpHandlerConfig>, redirects: seq<bool>)

  datatype StreamListenerConfig = StreamListenerConfig(handler: seq<StreamHandlerConfig>)

  datatype AddressConfig = AddressConfig(externalIpv4: seq<string>, internalIpv4: seq<(string, string)>, externalIpv6: seq<string>)

  datatype EndpointConfig = EndpointConfig(address: seq<AddressConfig>, ports: seq<int>)

  datatype ListenerConfig = ListenerConfig(
    name: string, endpoint: seq<EndpointConfig>, http: seq<HttpListenerConfig>, tls: seq<TlsListenerConfig>,
    stream: seq<StreamListenerConfig>)

  datatype Protocol = NoProtocol | AllowHttp10(b: bool) | Http2(maxConcurrentStreams: int)

  datatype HttpHandler = HttpHandler(httpRouterId: string, rewriteRequestId: bool, protocol: Protocol)

  datatype StreamHandler = StreamHandler(backendGroupId: string, idleTimeout: Option<int>)

  datatype TlsChoice = NoHandler | ToHttp(http: HttpHandler) | ToStream(stream: StreamHandler)

  datatype TlsHandler = TlsHandler(choice: TlsChoice, certificateIds: set<string>)

  datatype SniMatch = SniMatch(name: string, serverNames: set<string>, handler: Option<TlsHandler>)

  datatype TlsListener = TlsListener(defaultHandler: Option<TlsHandler>, sniHandlers: seq<SniMatch>)

  datatype HttpListener = HttpListener(handler: Option<HttpHandler>, redirects: Option<bool>)

  datatype StreamListener = StreamListener(handler: Option<StreamHandler>)

  datatype Address = ExternalIpv4(address: string) | InternalIpv4(address: string, subnetId: string) | ExternalIpv6(address: string)

  datatype Endpoint = Endpoint(addresses: seq<Address>, ports: seq<int>)

  datatype Choice = Http(http: HttpListener) | Tls(tls: TlsListener) | Stream(stream: StreamListener)

  datatype Listener = Listener(name: string, endpoints: seq<Endpoint>, choice: Option<Choice>)

  datatype ListenerKind = HttpKind | TlsKind | StreamKind

  // ---------- what is set in a block ----------

  predicate HttpHandlerSet(c: HttpHandlerConfig) {
    c.httpRouterId != "" || c.rewriteRequestId || c.allowHttp10 || (c.http2Options != [] && c.http2Options[0] != 0)
  }

  predicate StreamHandlerSet(c: StreamHandlerConfig) {
    c.backendGroupId != "" || c.idleTimeout != ""
  }

  predicate TlsHandlerSet(c: TlsHandlerConfig) {
    || (c.httpHandler != [] && HttpHandlerSet(c.httpHandler[0]))
    || (c.streamHandler != [] && StreamHandlerSet(c.streamHandler[0]))
    || c.certificateIds != {}
  }

  predicate SniSet(c: SniConfig) {
    c.name != "" || c.serverNames != {} || (c.handler != [] && TlsHandlerSet(c.handler[0]))
  }

  predicate TlsListenerSet(c: TlsListenerConfig) {
    || (c.defaultHandler != [] && TlsHandlerSet(c.defaultHandler[0]))
    || exists i :: 0 <= i < |c.sniHandler| && SniSet(c.sniHandler[i])
  }

  predicate HttpListenerSet(c: HttpListenerConfig) {
    (c.handler != [] && HttpHandlerSet(c.handler[0])) || (c.redirects != [] && c.redirects[0])
  }

  predicate StreamListenerSet(c: StreamListenerConfig) {
    c.handler != [] && StreamHandlerSet(c.handler[0])
  }

  // ---------- the values of the messages ----------

  function Http10AndHttp2(c: HttpHandlerConfig): bool {
    c.allowHttp10 && c.http2Options != []
  }

  function HttpHandlerOf(c: HttpHandlerConfig): Result<Option<HttpHandler>> {
    if Http10AndHttp2(c) then Err(Other)
    else if !HttpHandlerSet(c) then Ok(None)
    else
      Ok(Some(HttpHandler(c.httpRouterId, c.rewriteRequestId,
                          if c.allowHttp10 then AllowHttp10(true)
                          else if c.http2Options != [] && c.http2Options[0] != 0 then Http2(c.http2Options[0])
                          else NoProtocol)))
  }

  function StreamHandlerOf(env: Env, c: StreamHandlerConfig): Result<Option<StreamHandler>> {
    var timeout :- ReadDuration(env, c.idleTimeout);
    if !StreamHandlerSet(c) then Ok(None) else Ok(Some(StreamHandler(c.backendGroupId, timeout)))
  }

  function FirstHttpHandler(cs: seq<HttpHandlerConfig>): Result<Option<HttpHandler>> {
    if cs == [] then Ok(None) else HttpHandlerOf(cs[0])
  }

  function FirstStreamHandler(env: Env, cs: seq<StreamHandlerConfig>): Result<Option<StreamHandler>> {
    if cs == [] then Ok(None) else StreamHandlerOf(env, cs[0])
  }

  function TlsHandlerOf(env: Env, c: TlsHandlerConfig): Result<Option<TlsHandler>> {
    if c.httpHandler == [] && c.streamHandler == [] then Err(Other)
    else
      var http :- FirstHttpHandler(c.httpHandler);
      var stream :- FirstStreamHandler(env, c.streamHandler);
      if http.Some? && stream.Some? then Err(Other)
      else if !TlsHandlerSet(c) then Ok(None)
      else
        Ok(Some(TlsHandler(if http.Some? then ToHttp(http.value)
                           else if stream.Some? then ToStream(stream.value)
                           else NoHandler,
                           c.certificateIds)))
  }

  function FirstTlsHandler(env: Env, cs: seq<TlsHandlerConfig>): Result<Option<TlsHandler>> {
    if cs == [] then Ok(None) else TlsHandlerOf(env, cs[0])
  }

  function SniMatchOf(env: Env, c: SniConfig): Result<Option<SniMatch>> {
    var handler :- FirstTlsHandler(env, c.handler);
    if !SniSet(c) then Ok(None) else Ok(Some(SniMatch(c.name, c.serverNames, handler)))
  }

  /** Only the matches with something set, in order. */
  function SniMatchesOf(env: Env, cs: seq<SniConfig>): Result<seq<SniMatch>> {
    if cs == [] then Ok([])
    else
      var m :- SniMatchOf(env, cs[0]);
      if m.None? then SniMatchesOf(env, cs[1..]) else Chain([m.value], SniMatchesOf(env, cs[1..]))
  }

  function TlsListenerOf(env: Env, c: TlsListenerConfig): Result<Option<TlsListener>> {
    var fallback :- FirstTlsHandler(env, c.defaultHandler);
    var matches :- SniMatchesOf(env, c.sniHandler);
    if !TlsListenerSet(c) then Ok(None) else Ok(Some(TlsListener(fallback, matches)))
  }

  function HttpListenerOf(c: HttpListenerConfig): Result<Option<HttpListener>> {
    var handler :- FirstHttpHandler(c.handler);
    if !HttpListenerSet(c) then Ok(None)
    else Ok(Some(HttpListener(handler, if c.redirects != [] && c.redirects[0] then Some(true) else None)))
  }

  function StreamListenerOf(env: Env, c: StreamListenerConfig): Result<Option<StreamListener>> {
    var handler :- FirstStreamHandler(env, c.handler);
    if !StreamListenerSet(c) then Ok(None) else Ok(Some(StreamListener(handler)))
  }

  /** expandALBEndpointAddress */
  function AddressOf(c: AddressConfig): Result<Address> {
    if One(c.externalIpv4 != []) + One(c.internalIpv4 != []) + One(c.externalIpv6 != []) != 1 then Err(Other)
    else if c.externalIpv4 != [] then Ok(ExternalIpv4(c.externalIpv4[0]))
    else if c.internalIpv4 != [] then Ok(InternalIpv4(c.internalIpv4[0].0, c.internalIpv4[0].1))
    else Ok(ExternalIpv6(c.externalIpv6[0]))
  }

  function AddressesOf(cs: seq<AddressConfig>): Result<seq<Address>> {
    if cs == [] then Ok([])
    else
      var a :- AddressOf(cs[0]);
      Chain([a], AddressesOf(cs[1..]))
  }

  function EndpointsOf(cs: seq<EndpointConfig>): Result<seq<Endpoint>> {
    if cs == [] then Ok([])
    else
      var addresses :- AddressesOf(cs[0].address);
      Chain([Endpoint(addresses, cs[0].ports)], EndpointsOf(cs[1..]))
  }

  /** The listener the block of kind t describes, if anything in it is set. */
  function BlockOf(env: Env, c: ListenerConfig, t: ListenerKind): Result<Option<Choice>> {
    match t
    case HttpKind =>
      if c.http == [] then Ok(None)
      else
        var l :- HttpListenerOf(c.http[0]);
        Ok(if l.None? then None else Some(Choice.Http(l.value)))
    case TlsKind =>
      if c.tls == [] then Ok(None)
      else
        var l :- TlsListenerOf(env, c.tls[0]);
        Ok(if l.None? then None else Some(Tls(l.value)))
    case StreamKind =>
      if c.stream == [] then Ok(None)
      else
        var l :- StreamListenerOf(env, c.stream[0]);
        Ok(if l.None? then None else Some(Stream(l.value)))
  }

  /** The listeners described, in the order of the kinds. */
  function ChoicesOf(env: Env, c: ListenerConfig, ts: seq<ListenerKind>): Result<seq<Choice>> {
    if ts == [] then Ok([])
    else
      var b :- BlockOf(env, c, ts[0]);
      if b.None? then ChoicesOf(env, c, ts[1..]) else Chain([b.value], ChoicesOf(env, c, ts[1..]))
  }

  function ListenerOf(env: Env, c: ListenerConfig): Result<Listener> {
    var endpoints :- EndpointsOf(c.endpoint);
    var choices :- ChoicesOf(env, c, [HttpKind, TlsKind, StreamKind]);
    if |choices| != 1 then Err(Other) else Ok(Listener(c.name, endpoints, Some(choices[0])))
  }

  // ---------- the expanders ----------

  /** maybeUsedObject: an object that comes into being, empty, when it is first written to. */
  class MaybeUsedObject<T> {
    var made: Option<T>
    const empty: T

    constructor (empty: T)
      ensures made == None && this.empty == empty
    {
      made := None;
      this.empty := empty;
    }

    /** One setter call on the object maybeCreate returns. */
    method Write(change: T -> T)
      modifies this
      ensures made == Some(change(if old(made).None? then empty else old(made).value))
    {
      if made.None? {
        made := Some(empty);
      }
      made := Some(change(made.value));
    }
  }

  /** expandALBHTTPHandler */
  method ExpandHttpHandler(c: HttpHandlerConfig) returns (r: Result<Option<HttpHandler>>)
    ensures r == HttpHandlerOf(c)
  {
    var handler := new MaybeUsedObject<HttpHandler>(HttpHandler("", false, NoProtocol));
    if c.httpRouterId != "" {
      handler.Write((h: HttpHandler) => h.(httpRouterId := c.httpRouterId));
    }
    if c.rewriteRequestId {
      handler.Write((h: HttpHandler) => h.(rewriteRequestId := true));
    }
    if One(c.allowHttp10) + One(c.http2Options != []) > 1 {
      return Err(Other);
    }
    if c.allowHttp10 {
      handler.Write((h: HttpHandler) => h.(protocol := AllowHttp10(true)));
    }
    if c.http2Options != [] {
      if c.http2Options[0] != 0 {
        handler.Write((h: HttpHandler) => h.(protocol := Http2(c.http2Options[0])));
      }
    }
    return Ok(handler.made);
  }

  /** expandALBStreamHandler */
  method ExpandStreamHandler(env: Env, c: StreamHandlerConfig) returns (r: Result<Option<StreamHandler>>)
    ensures r == StreamHandlerOf(env, c)
  {
    var handler := new MaybeUsedObject<StreamHandler>(StreamHandler("", None));
    if c.backendGroupId != "" {
      handler.Write((h: StreamHandler) => h.(backendGroupId := c.backendGroupId));
    }
    if c.idleTimeout != "" {
      var d := ReadDuration(env, c.idleTimeout);
      if d.Err? {
        return Err(d.error);
      }
      handler.Write((h: StreamHandler) => h.(idleTimeout := d.value));
    }
    return Ok(handler.made);
  }

  /** expandALBTLSHandler */
  method ExpandTlsHandler(env: Env, c: TlsHandlerConfig) returns (r: Result<Option<TlsHandler>>)
    ensures r == TlsHandlerOf(env, c)
  {
    if c.httpHandler == [] && c.streamHandler == [] {
      return Err(Other);
    }
    var handler := new MaybeUsedObject<TlsHandler>(TlsHandler(NoHandler, {}));
    var assignCount := 0;
    if c.httpHandler != [] {
      var http := ExpandHttpHandler(c.httpHandler[0]);
      if http.Err? {
        return Err(http.error);
      }
      if http.value.Some? {
        handler.Write((h: TlsHandler) => h.(choice := ToHttp(http.value.value)));
        assignCount := assignCount + 1;
      }
    }
    if c.streamHandler != [] {
      var stream := ExpandStreamHandler(env, c.streamHandler[0]);
      if stream.Err? {
        return Err(stream.error);
      }
      if stream.value.Some? {
        handler.Write((h: TlsHandler) => h.(choice := ToStream(stream.value.value)));
        assignCount := assignCount + 1;
      }
    }
    if assignCount > 1 {
      return Err(Other);
    }
    if c.certificateIds != {} {
      handler.Write((h: TlsHandler) => h.(certificateIds := c.certificateIds));
    }
    return Ok(handler.made);
  }

  /** expandALBSNIMatch */
  method ExpandSniMatch(env: Env, c: SniConfig) returns (r: Result<Option<SniMatch>>)
    ensures r == SniMatchOf(env, c)
  {
    var m := new MaybeUsedObject<SniMatch>(SniMatch("", {}, None));
    if c.name != "" {
      m.Write((s: SniMatch) => s.(name := c.name));
    }
    if c.serverNames != {} {
      m.Write((s: SniMatch) => s.(serverNames := c.serverNames));
    }
    if c.handler != [] {
      var handler := ExpandTlsHandler(env, c.handler[0]);
      if handler.Err? {
        return Err(handler.error);
      }
      if handler.value.Some? {
        m.Write((s: SniMatch) => s.(handler := handler.value));
      }
    }
    return Ok(m.made);
  }

  /** expandALBSNIMatches; the empty list stands for nil. */
  method ExpandSniMatches(env: Env, cs: seq<SniConfig>) returns (r: Result<seq<SniMatch>>)
    ensures r == SniMatchesOf(env, cs)
  {
    var matches: seq<SniMatch> := [];
    assert cs[0..] == cs;
    ChainStart(SniMatchesOf(env, cs));
    for i := 0 to |cs|
      invariant SniMatchesOf(env, cs) == Chain(matches, SniMatchesOf(env, cs[i..]))
    {
      var m := ExpandSniMatch(env, cs[i]);
      if m.Err? {
        return Err(m.error);
      }
      assert cs[i..][1..] == cs[i + 1..];
      if m.value.Some? {
        ChainStep(matches, m.value.value, SniMatchesOf(env, cs[i + 1..]));
        matches := matches + [m.value.value];
      }
    }
    assert matches + [] == matches;
    return Ok(matches);
  }

  /** expandALBTLSListener */
  method ExpandTlsListener(env: Env, c: TlsListenerConfig) returns (r: Result<Option<TlsListener>>)
    ensures r == TlsListenerOf(env, c)
  {
    SniMatchesExact(env, c.sniHandler);
    var listener := new MaybeUsedObject<TlsListener>(TlsListener(None, []));
    if c.defaultHandler != [] {
      var handler := ExpandTlsHandler(env, c.defaultHandler[0]);
      if handler.Err? {
        return Err(handler.error);
      }
      if handler.value.Some? {
        listener.Write((l: TlsListener) => l.(defaultHandler := handler.value));
      }
    }
    if c.sniHandler != [] {
      var matches := ExpandSniMatches(env, c.sniHandler);
      if matches.Err? {
        return Err(matches.error);
      }
      if matches.value != [] {
        listener.Write((l: TlsListener) => l.(sniHandlers := matches.value));
      }
    }
    return Ok(listener.made);
  }

  /** expandALBHTTPListener */
  method ExpandHttpListener(c: HttpListenerConfig) returns (r: Result<Option<HttpListener>>)
    ensures r == HttpListenerOf(c)
  {
    var listener := new MaybeUsedObject<HttpListener>(HttpListener(None, None));
    if c.handler != [] {
      var handler := ExpandHttpHandler(c.handler[0]);
      if handler.Err? {
        return Err(handler.error);
      }
      if handler.value.Some? {
        listener.Write((l: HttpListener) => l.(handler := handler.value));
      }
    }
    if c.redirects != [] {
      if c.redirects[0] {
        listener.Write((l: HttpListener) => l.(redirects := Some(true)));
      }
    }
    return Ok(listener.made);
  }

  /** expandALBStreamListener */
  method ExpandStreamListener(env: Env, c: StreamListenerConfig) returns (r: Result<Option<StreamListener>>)
    ensures r == StreamListenerOf(env, c)
  {
    var listener := new MaybeUsedObject<StreamListener>(StreamListener(None));
    if c.handler != [] {
      var handler := ExpandStreamHandler(env, c.handler[0]);
      if handler.Err? {
        return Err(handler.error);
      }
      if handler.value.Some? {
        listener.Write((l: StreamListener) => l.(handler := handler.value));
      }
    }
    return Ok(listener.made);
  }

  /** expandALBEndpointAddresses */
  method ExpandAddresses(cs: seq<AddressConfig>) returns (r: Result<seq<Address>>)
    ensures r == AddressesOf(cs)
  {
    var addresses: seq<Address> := [];
    ChainStart(AddressesOf(cs));
    assert cs[0..] == cs;
    for i := 0 to |cs|
      invariant AddressesOf(cs) == Chain(addresses, AddressesOf(cs[i..]))
    {
      var address := AddressOf(cs[i]);
      if address.Err? {
        return Err(address.error);
      }
      assert cs[i..][1..] == cs[i + 1..];
      ChainStep(addresses, address.value, AddressesOf(cs[i + 1..]));
      addresses := addresses + [address.value];
    }
    assert addresses + [] == addresses;
    return Ok(addresses);
  }

  /** expandALBEndpoints */
  method ExpandEndpoints(cs: seq<EndpointConfig>) returns (r: Result<seq<Endpoint>>)
    ensures r == EndpointsOf(cs)
  {
    var endpoints: seq<Endpoint> := [];
    ChainStart(EndpointsOf(cs));
    assert cs[0..] == cs;
    for i := 0 to |cs|
      invariant EndpointsOf(cs) == Chain(endpoints, EndpointsOf(cs[i..]))
    {
      var addresses := ExpandAddresses(cs[i].address);
      if addresses.Err? {
        return Err(addresses.error);
      }
      assert cs[i..][1..] == cs[i + 1..];
      ChainStep(endpoints, Endpoint(addresses.value, cs[i].ports), EndpointsOf(cs[i + 1..]));
      endpoints := endpoints + [Endpoint(addresses.value, cs[i].ports)];
    }
    assert endpoints + [] == endpoints;
    return Ok(endpoints);
  }

  /** The block of one kind, as setListener reads it. */
  method ExpandBlock(env: Env, c: ListenerConfig, t: ListenerKind) returns (r: Result<Option<Choice>>)
    ensures r == BlockOf(env, c, t)
  {
    if t == HttpKind && c.http != [] {
      var http := ExpandHttpListener(c.http[0]);
      if http.Err? {
        return Err(http.error);
      }
      if http.value.Some? {
        return Ok(Some(Choice.Http(http.value.value)));
      }
    } else if t == TlsKind && c.tls != [] {
      var tls := ExpandTlsListener(env, c.tls[0]);
      if tls.Err? {
        return Err(tls.error);
      }
      if tls.value.Some? {
        return Ok(Some(Tls(tls.value.value)));
      }
    } else if t == StreamKind && c.stream != [] {
      var stream := ExpandStreamListener(env, c.stream[0]);
      if stream.Err? {
        return Err(stream.error);
      }
      if stream.value.Some? {
        return Ok(Some(Stream(stream.value.value)));
      }
    }
    return Ok(None);
  }

  /** expandALBListener: the kinds are tried in turn; each one that is not nil is counted and
      replaces the one before it. */
  method ExpandListener(env: Env, c: ListenerConfig) returns (r: Result<Listener>)
    ensures r == ListenerOf(env, c)
  {
    var endpoints := ExpandEndpoints(c.endpoint);
    if endpoints.Err? {
      return Err(endpoints.error);
    }
    var listener := Listener(c.name, endpoints.value, None);
    var nonNilCount := 0;
    var kinds := [HttpKind, TlsKind, StreamKind];
    ghost var choices: seq<Choice> := [];
    ChainStart(ChoicesOf(env, c, kinds));
    assert kinds[0..] == kinds;
    for i := 0 to |kinds|
      invariant ChoicesOf(env, c, kinds) == Chain(choices, ChoicesOf(env, c, kinds[i..]))
      invariant nonNilCount == |choices|
      invariant listener ==
        Listener(c.name, endpoints.value, if choices == [] then None else Some(choices[|choices| - 1]))
    {
      var block := ExpandBlock(env, c, kinds[i]);
      if block.Err? {
        return Err(block.error);
      }
      assert kinds[i..][1..] == kinds[i + 1..];
      if block.value.Some? {
        ChainStep(choices, block.value.value, ChoicesOf(env, c, kinds[i + 1..]));
        nonNilCount := nonNilCount + 1;
        listener := listener.(choice := block.value);
        choices := choices + [block.value.value];
      }
    }
    assert choices + [] == choices;
    if nonNilCount == 0 || nonNilCount > 1 {
      return Err(Other);
    }
    return Ok(listener);
  }

  // ---------- which listeners expand ----------

  predicate Readable(env: Env, s: string) {
    s == "" || env.parseDuration(s).Ok?
  }

  predicate HttpPartSet(c: TlsHandlerConfig) {
    c.httpHandler != [] && HttpHandlerSet(c.httpHandler[0])
  }

  predicate StreamPartSet(c: TlsHandlerConfig) {
    c.streamHandler != [] && StreamHandlerSet(c.streamHandler[0])
  }

  predicate HttpHandlersOk(cs: seq<HttpHandlerConfig>) {
    cs == [] || !cs[0].allowHttp10 || cs[0].http2Options == []
  }

  predicate StreamHandlersOk(env: Env, cs: seq<StreamHandlerConfig>) {
    cs == [] || Readable(env, cs[0].idleTimeout)
  }

  /** Some handler block is there, each can be built, and at most one has something set. */
  predicate TlsHandlerOk(env: Env, c: TlsHandlerConfig) {
    && (c.httpHandler != [] || c.streamHandler != [])
    && HttpHandlersOk(c.httpHandler) && StreamHandlersOk(env, c.streamHandler)
    && !(HttpPartSet(c) && StreamPartSet(c))
  }

  predicate TlsHandlersOk(env: Env, cs: seq<TlsHandlerConfig>) {
    cs == [] || TlsHandlerOk(env, cs[0])
  }

  predicate SniMatchesOk(env: Env, cs: seq<SniConfig>) {
    forall i :: 0 <= i < |cs| ==> TlsHandlersOk(env, cs[i].handler)
  }

  predicate BlockOk(env: Env, c: ListenerConfig, t: ListenerKind) {
    match t
    case HttpKind => c.http == [] || HttpHandlersOk(c.http[0].handler)
    case TlsKind => c.tls == [] || (TlsHandlersOk(env, c.tls[0].defaultHandler) && SniMatchesOk(env, c.tls[0].sniHandler))
    case StreamKind => c.stream == [] || StreamHandlersOk(env, c.stream[0].handler)
  }

  predicate BlockSet(c: ListenerConfig, t: ListenerKind) {
    match t
    case HttpKind => c.http != [] && HttpListenerSet(c.http[0])
    case TlsKind => c.tls != [] && TlsListenerSet(c.tls[0])
    case StreamKind => c.stream != [] && StreamListenerSet(c.stream[0])
  }

  predicate OneKind(c: AddressConfig) {
    One(c.externalIpv4 != []) + One(c.internalIpv4 != []) + One(c.externalIpv6 != []) == 1
  }

  predicate EndpointsOk(cs: seq<EndpointConfig>) {
    forall i, j :: 0 <= i < |cs| && 0 <= j < |cs[i].address| ==> OneKind(cs[i].address[j])
  }

  // ---------- what a listener says ----------

  // Each message, or its absence, against its blocks, of which the first counts: every leaf of the
  // message is the leaf of the block, and a missing message leaves no leaf of the block set.

  predicate DescribesHttp(cs: seq<HttpHandlerConfig>, o: Option<HttpHandler>) {
    var c := if cs == [] then HttpHandlerConfig("", false, false, []) else cs[0];
    var h := if o.None? then HttpHandler("", false, NoProtocol) else o.value;
    && h.httpRouterId == c.httpRouterId && h.rewriteRequestId == c.rewriteRequestId
    && match h.protocol
       case AllowHttp10(b) => b && c.allowHttp10
       case Http2(n) => !c.allowHttp10 && n != 0 && c.http2Options != [] && c.http2Options[0] == n
       case NoProtocol => !c.allowHttp10 && (c.http2Options == [] || c.http2Options[0] == 0)
  }

  predicate DescribesStream(env: Env, cs: seq<StreamHandlerConfig>, o: Option<StreamHandler>) {
    var c := if cs == [] then StreamHandlerConfig("", "") else cs[0];
    var h := if o.None? then StreamHandler("", None) else o.value;
    && h.backendGroupId == c.backendGroupId
    && if c.idleTimeout == "" then h.idleTimeout == None
       else h.idleTimeout.Some? && env.parseDuration(c.idleTimeout) == Ok(h.idleTimeout.value)
  }

  predicate DescribesTls(env: Env, cs: seq<TlsHandlerConfig>, o: Option<TlsHandler>) {
    var c := if cs == [] then TlsHandlerConfig([], [], {}) else cs[0];
    var h := if o.None? then TlsHandler(NoHandler, {}) else o.value;
    && DescribesHttp(c.httpHandler, if h.choice.ToHttp? then Some(h.choice.http) else None)
    && DescribesStream(env, c.streamHandler, if h.choice.ToStream? then Some(h.choice.stream) else None)
    && h.certificateIds == c.certificateIds
  }

  predicate DescribesSni(env: Env, c: SniConfig, o: Option<SniMatch>) {
    var m := if o.None? then SniMatch("", {}, None) else o.value;
    m.name == c.name && m.serverNames == c.serverNames && DescribesTls(env, c.handler, m.handler)
  }

  /** The matches are those of the blocks, in order, but for blocks that say nothing. */
  predicate DescribesSnis(env: Env, cs: seq<SniConfig>, ms: seq<SniMatch>) {
    if cs == [] then ms == []
    else
      || (DescribesSni(env, cs[0], None) && DescribesSnis(env, cs[1..], ms))
      || (ms != [] && DescribesSni(env, cs[0], Some(ms[0])) && DescribesSnis(env, cs[1..], ms[1..]))
  }

  predicate DescribesTlsListener(env: Env, cs: seq<TlsListenerConfig>, o: Option<TlsListener>) {
    var c := if cs == [] then TlsListenerConfig([], []) else cs[0];
    var l := if o.None? then TlsListener(None, []) else o.value;
    DescribesTls(env, c.defaultHandler, l.defaultHandler) && DescribesSnis(env, c.sniHandler, l.sniHandlers)
  }

  predicate DescribesHttpListener(cs: seq<HttpListenerConfig>, o: Option<HttpListener>) {
    var c := if cs == [] then HttpListenerConfig([], []) else cs[0];
    var l := if o.None? then HttpListener(None, None) else o.value;
    && DescribesHttp(c.handler, l.handler)
    && l.redirects == if c.redirects != [] && c.redirects[0] then Some(true) else None
  }

  predicate DescribesStreamListener(env: Env, cs: seq<StreamListenerConfig>, o: Option<StreamListener>) {
    var c := if cs == [] then StreamListenerConfig([]) else cs[0];
    var l := if o.None? then StreamListener(None) else o.value;
    DescribesStream(env, c.handler, l.handler)
  }

  /** The choice describes the blocks of its kind, and the blocks of the other kinds say nothing. */
  predicate DescribesChoice(env: Env, c: ListenerConfig, choice: Choice) {
    && DescribesHttpListener(c.http, if choice.Http? then Some(choice.http) else None)
    && DescribesTlsListener(env, c.tls, if choice.Tls? then Some(choice.tls) else None)
    && DescribesStreamListener(env, c.stream, if choice.Stream? then Some(choice.stream) else None)
  }

  lemma TlsContents(env: Env, cs: seq<TlsHandlerConfig>)
    requires FirstTlsHandler(env, cs).Ok?
    ensures DescribesTls(env, cs, FirstTlsHandler(env, cs).value)
  {
  }

  lemma {:induction false} SnisContents(env: Env, cs: seq<SniConfig>)
    requires SniMatchesOf(env, cs).Ok?
    ensures DescribesSnis(env, cs, SniMatchesOf(env, cs).value)
  {
    if cs != [] {
      TlsContents(env, cs[0].handler);
      SnisContents(env, cs[1..]);
      var m := SniMatchOf(env, cs[0]).value;
      assert DescribesSni(env, cs[0], m);
      if m.Some? {
        assert SniMatchesOf(env, cs).value[1..] == SniMatchesOf(env, cs[1..]).value;
      }
    }
  }

  lemma BlockContents(env: Env, c: ListenerConfig, t: ListenerKind)
    requires BlockOf(env, c, t).Ok?
    ensures var b := BlockOf(env, c, t).value;
            match t
            case HttpKind => DescribesHttpListener(c.http, if b.Some? && b.value.Http? then Some(b.value.http) else None)
            case TlsKind => DescribesTlsListener(env, c.tls, if b.Some? && b.value.Tls? then Some(b.value.tls) else None)
            case StreamKind =>
              DescribesStreamListener(env, c.stream, if b.Some? && b.value.Stream? then Some(b.value.stream) else None)
  {
    if t == TlsKind && c.tls != [] {
      TlsContents(env, c.tls[0].defaultHandler);
      SnisContents(env, c.tls[0].sniHandler);
      SniMatchesExact(env, c.tls[0].sniHandler);
    }
  }

  // ---------- pruning ----------

  lemma TlsHandlerExact(env: Env, c: TlsHandlerConfig)
    ensures TlsHandlerOf(env, c).Ok? <==> TlsHandlerOk(env, c)
    ensures TlsHandlerOf(env, c).Ok? ==>
              var h := TlsHandlerOf(env, c).value;
              && (h.Some? <==> TlsHandlerSet(c))
              && (h.Some? ==>
                    && (h.value.choice.ToHttp? <==> HttpPartSet(c))
                    && (h.value.choice.ToStream? <==> StreamPartSet(c))
                    && TlsHandlerUsed(h.value))
  {
  }

  lemma {:induction false} SniMatchesExact(env: Env, cs: seq<SniConfig>)
    ensures SniMatchesOf(env, cs).Ok? <==> SniMatchesOk(env, cs)
    ensures SniMatchesOf(env, cs).Ok? ==>
              && (SniMatchesOf(env, cs).value != [] <==> exists i :: 0 <= i < |cs| && SniSet(cs[i]))
              && forall m <- SniMatchesOf(env, cs).value :: SniMatchUsed(m)
  {
    if cs != [] {
      SniMatchesExact(env, cs[1..]);
      if cs[0].handler != [] {
        TlsHandlerExact(env, cs[0].handler[0]);
      }
      assert forall i :: 0 <= i < |cs[1..]| ==> cs[1..][i] == cs[i + 1];
      assert forall i :: 1 <= i < |cs| ==> cs[i] == cs[1..][i - 1];
    }
  }

  /** The address holds what the one block of its kind says. */
  predicate Describes(c: AddressConfig, address: Address) {
    match address
    case ExternalIpv4(ip) => c.externalIpv4 != [] && c.externalIpv4[0] == ip
    case InternalIpv4(ip, subnetId) => c.internalIpv4 != [] && c.internalIpv4[0] == (ip, subnetId)
    case ExternalIpv6(ip) => c.externalIpv6 != [] && c.externalIpv6[0] == ip
  }

  predicate DescribesEndpoint(c: EndpointConfig, e: Endpoint) {
    && e.ports == c.ports && |e.addresses| == |c.address|
    && forall j :: 0 <= j < |e.addresses| ==> Describes(c.address[j], e.addresses[j])
  }

  predicate DescribesEndpoints(cs: seq<EndpointConfig>, es: seq<Endpoint>) {
    |es| == |cs| && forall i :: 0 <= i < |es| ==> DescribesEndpoint(cs[i], es[i])
  }

  lemma {:induction false} AddressesExact(cs: seq<AddressConfig>)
    ensures AddressesOf(cs).Ok? <==> forall j :: 0 <= j < |cs| ==> OneKind(cs[j])
    ensures AddressesOf(cs).Ok? ==>
              && |AddressesOf(cs).value| == |cs|
              && forall j :: 0 <= j < |cs| ==> Describes(cs[j], AddressesOf(cs).value[j])
  {
    if cs != [] {
      AddressesExact(cs[1..]);
      assert forall j :: 1 <= j < |cs| ==> cs[j] == cs[1..][j - 1];
    }
  }

  lemma {:induction false} EndpointsExact(cs: seq<EndpointConfig>)
    ensures EndpointsOf(cs).Ok? <==> EndpointsOk(cs)
    ensures EndpointsOf(cs).Ok? ==> DescribesEndpoints(cs, EndpointsOf(cs).value)
  {
    if cs != [] {
      EndpointsExact(cs[1..]);
      AddressesExact(cs[0].address);
      assert forall i :: 0 <= i < |cs[1..]| ==> cs[1..][i] == cs[i + 1];
      assert forall i :: 1 <= i < |cs| ==> cs[i] == cs[1..][i - 1];
    }
  }

  lemma BlockExact(env: Env, c: ListenerConfig, t: ListenerKind)
    ensures BlockOf(env, c, t).Ok? <==> BlockOk(env, c, t)
    ensures BlockOf(env, c, t).Ok? ==>
              var b := BlockOf(env, c, t).value;
              && (b.Some? <==> BlockSet(c, t))
              && (b.Some? ==> KindOf(b.value) == t && ChoiceUsed(b.value))
  {
    if t == TlsKind && c.tls != [] {
      SniMatchesExact(env, c.tls[0].sniHandler);
      if c.tls[0].defaultHandler != [] {
        TlsHandlerExact(env, c.tls[0].defaultHandler[0]);
      }
    }
  }

  function KindOf(choice: Choice): ListenerKind {
    match choice
    case Http(_) => HttpKind
    case Tls(_) => TlsKind
    case Stream(_) => StreamKind
  }

  /** No message below the listener is empty. */
  predicate ChoiceUsed(choice: Choice) {
    match choice
    case Http(l) =>
      && (l.handler.Some? || l.redirects.Some?)
      && (l.handler.Some? ==> HttpHandlerUsed(l.handler.value))
    case Tls(l) =>
      && (l.defaultHandler.Some? || l.sniHandlers != [])
      && (l.defaultHandler.Some? ==> TlsHandlerUsed(l.defaultHandler.value))
      && forall m <- l.sniHandlers :: SniMatchUsed(m)
    case Stream(l) => l.handler.Some? && StreamHandlerUsed(l.handler.value)
  }

  predicate HttpHandlerUsed(h: HttpHandler) {
    h != HttpHandler("", false, NoProtocol)
  }

  predicate StreamHandlerUsed(h: StreamHandler) {
    h != StreamHandler("", None)
  }

  predicate TlsHandlerUsed(h: TlsHandler) {
    && h != TlsHandler(NoHandler, {})
    && (h.choice.ToHttp? ==> HttpHandlerUsed(h.choice.http))
    && (h.choice.ToStream? ==> StreamHandlerUsed(h.choice.stream))
  }

  predicate SniMatchUsed(m: SniMatch) {
    m != SniMatch("", {}, None) && (m.handler.Some? ==> TlsHandlerUsed(m.handler.value))
  }

  /** The configurations that expand are exactly those whose blocks can be built and of which exactly
      one kind has something set; the listener is of that kind, says what its blocks say and holds no
      empty message. */
  lemma ListenerExact(env: Env, c: ListenerConfig)
    ensures ListenerOf(env, c).Ok? <==>
            && EndpointsOk(c.endpoint)
            && BlockOk(env, c, HttpKind) && BlockOk(env, c, TlsKind) && BlockOk(env, c, StreamKind)
            && One(BlockSet(c, HttpKind)) + One(BlockSet(c, TlsKind)) + One(BlockSet(c, StreamKind)) == 1
    ensures ListenerOf(env, c).Ok? ==>
              var l := ListenerOf(env, c).value;
              && l.name == c.name && DescribesEndpoints(c.endpoint, l.endpoints)
              && l.choice.Some? && ChoiceUsed(l.choice.value) && DescribesChoice(env, c, l.choice.value)
              && forall t :: BlockSet(c, t) <==> KindOf(l.choice.value) == t
  {
    EndpointsExact(c.endpoint);
    BlockExact(env, c, HttpKind);
    BlockExact(env, c, TlsKind);
    BlockExact(env, c, StreamKind);
    ChoicesOfAllKinds(env, c);
    if ListenerOf(env, c).Ok? {
      BlockContents(env, c, HttpKind);
      BlockContents(env, c, TlsKind);
      BlockContents(env, c, StreamKind);
    }
  }

  function Found<T>(o: Option<T>): seq<T> {
    if o.None? then [] else [o.value]
  }

  lemma ChoicesOfAllKinds(env: Env, c: ListenerConfig)
    ensures var h, t, s := BlockOf(env, c, HttpKind), BlockOf(env, c, TlsKind), BlockOf(env, c, StreamKind);
            var all := ChoicesOf(env, c, [HttpKind, TlsKind, StreamKind]);
            && (all.Ok? <==> h.Ok? && t.Ok? && s.Ok?)
            && (all.Ok? ==> all.value == Found(h.value) + Found(t.value) + Found(s.value))
  {
    assert [HttpKind, TlsKind, StreamKind] == [HttpKind] + ([TlsKind] + ([StreamKind] + []));
    ChoicesOfCons(env, c, StreamKind, []);
    ChoicesOfCons(env, c, TlsKind, [StreamKind] + []);
    ChoicesOfCons(env, c, HttpKind, [TlsKind] + ([StreamKind] + []));
  }

  lemma ChoicesOfCons(env: Env, c: ListenerConfig, t: ListenerKind, ts: seq<ListenerKind>)
    ensures var b, rest := BlockOf(env, c, t), ChoicesOf(env, c, ts);
            var all := ChoicesOf(env, c, [t] + ts);
            && (all.Ok? <==> b.Ok? && rest.Ok?)
            && (all.Ok? ==> all.value == Found(b.value) + rest.value)
  {
  }
}
