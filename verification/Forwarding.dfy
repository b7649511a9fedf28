/** From a request to the upstream server: extractMCPInfo, evaluate and handleHTTP (proxy/mcp.go, proxy/server.go). */
module Forwarding {
  import opened Text
  import opened Wire
  import opened Readers
  import opened Inspector
  import opened Policy
  import opened TenantDecide

  // ---------- MCP detection ----------

  /** What json.Unmarshal makes of a body: nothing, or an envelope with its version and method. */
  datatype Envelope = NotJson | Envelope(jsonrpc: string, rpcMethod: string)

  datatype McpInfo = McpInfo(isMcp: bool, invalid: bool, reason: string)

  const SUPPORTED: set<string> := {
    "tools/call", "tools/list", "resources/read", "resources/list", "prompts/get", "initialize", "context/upload"
  }

  /** The branches of extractMCPInfo once the body, if any, has been read. */
  function McpOf(body: Option<seq<byte>>, hasHeader: bool, parse: seq<byte> -> Envelope): McpInfo {
    var none, bad := McpInfo(false, false, ""), (reason: string) => McpInfo(true, true, reason);
    if body.None? || body.value == [] then if hasHeader then bad("missing MCP JSON body") else none
    else
      match parse(body.value)
      case NotJson => if hasHeader then bad("failed to parse MCP JSON body") else none
      case Envelope(version, name) =>
        if version == "2.0" && name != "" then
          if name in SUPPORTED then McpInfo(true, false, "")
          else if hasHeader then bad("unsupported MCP method") else none
        else if hasHeader then bad("invalid MCP JSON-RPC envelope") else none
  }

  const UNREADABLE := McpInfo(false, true, "failed to read MCP JSON body")

  /** The body is a JSON-RPC 2.0 envelope of one of the seven methods. */
  predicate IsCall(body: Option<seq<byte>>, parse: seq<byte> -> Envelope) {
    && body.Some? && body.value != [] && parse(body.value).Envelope? && parse(body.value).jsonrpc == "2.0"
    && var name := parse(body.value).rpcMethod;
       || name == "tools/call" || name == "tools/list" || name == "resources/read" || name == "resources/list"
       || name == "prompts/get" || name == "initialize" || name == "context/upload"
  }

  /** Why a request that says it is MCP is malformed. */
  lemma McpReasons(body: Option<seq<byte>>, parse: seq<byte> -> Envelope)
    requires !IsCall(body, parse)
    ensures
      var reason := McpOf(body, true, parse).reason;
      if body.None? || body.value == [] then reason == "missing MCP JSON body"
      else if parse(body.value).NotJson? then reason == "failed to parse MCP JSON body"
      else if parse(body.value).jsonrpc != "2.0" || parse(body.value).rpcMethod == "" then
        reason == "invalid MCP JSON-RPC envelope"
      else reason == "unsupported MCP method"
  {}

  /** A request counts as MCP when it says so or is a supported call, and as malformed when it says so and is not. */
  lemma McpMeans(body: Option<seq<byte>>, hasHeader: bool, parse: seq<byte> -> Envelope)
    ensures
      var call, m := IsCall(body, parse), McpOf(body, hasHeader, parse);
      (m.isMcp <==> hasHeader || call) && (m.invalid <==> hasHeader && !call) && (m.invalid ==> m.isMcp)
  {}

  /** The body is read to its end and put back as a buffer; when reading fails it is left as the failure left it. */
  method ExtractMcpInfo(r: Message, hasHeader: bool, parse: seq<byte> -> Envelope) returns (m: McpInfo)
    requires r.Valid()
    modifies r, if r.body == null then {} else r.body.Repr
    ensures r.Valid() && (r.body == null <==> old(r.body) == null)
    ensures Clean(old(r.Stream())) ==> r.Stream() == old(r.Stream())
    ensures Clean(old(r.Stream())) ==>
      m == McpOf(if old(r.body) == null then None else Some(Bytes(old(r.Stream()))), hasHeader, parse)
    ensures !Clean(old(r.Stream())) ==> r.Stream() == After(old(r.Stream())) && m == UNREADABLE
    ensures r.body != null ==> fresh(r.body.Repr - (if old(r.body) == null then {} else old(r.body).Repr))
  {
    if r.body == null { return McpOf(None, hasHeader, parse); }
    ghost var s := r.Stream();
    BreakIsClean(s);
    var d, ok := ReadAll(r.body);
    if !ok { return UNREADABLE; }
    assert s[..|s|] == s;
    BytesOf(d);
    var restored := new Reader.FromBytes(d);
    r.body := restored;
    m := McpOf(Some(d), hasHeader, parse);
  }

  // ---------- the decision ----------

  /** What identity extraction yields. */
  datatype Identity = Known(tenant: int) | MissingTenant | UnknownTenant | OtherError

  /** What Policy.Decide returns. */
  datatype Verdict = Verdict(action: Action, message: string, failed: bool)

  datatype Settings = Settings(max: int, detectors: Detectors)

  datatype Reply = Forwarded | Page(status: int)

  /** The tenant evaluate asks about: zero when identity extraction failed in a way it does not stop at. */
  function TenantOf(id: Identity): int {
    if id.Known? then id.tenant else 0
  }

  /** evaluate up to the inspection: whether it lets the request through. There may be no policy engine to ask. */
  predicate Gate(id: Identity, policy: Option<Verdict>) {
    !id.MissingTenant? && !id.UnknownTenant? && policy.Some? && !policy.value.failed && policy.value.action != BLOCK
  }

  /** The policy engine answered, not with BLOCK, and the tenant was neither missing nor unknown. */
  ghost predicate Permits(id: Identity, policy: Option<Verdict>) {
    && (id.Known? || id.OtherError?)
    && exists action, message :: policy == Some(Verdict(action, message, false)) && action != "block"
  }

  /** Nothing fails within the first octets of a stream, up to the limit, and neither detector finds anything there. */
  ghost predicate NothingFound(g: Settings, s: seq<Item>) {
    var n := if g.max <= 0 then 0 else if g.max < |s| then g.max else |s|;
    Clean(s[..n]) && !g.detectors.card(Bytes(s[..n])) && !g.detectors.secret(Bytes(s[..n]))
  }

  lemma GateMeans(id: Identity, policy: Option<Verdict>)
    ensures Gate(id, policy) <==> Permits(id, policy)
  {
    if policy.Some? {
      assert policy == Some(Verdict(policy.value.action, policy.value.message, policy.value.failed));
    }
  }

  /**
   * handleHTTP up to RoundTrip. A request whose body can be read reaches the upstream server exactly when it is not
   * malformed MCP, its tenant and its policy permit it and its inspected octets show no violation, and then the server
   * is sent every octet the client sent. One whose body failed to be read on the first pass is sent what the failure
   * left of it.
   */
  method HandleHttp(r: Message, hasHeader: bool, parse: seq<byte> -> Envelope, g: Settings, id: Identity,
                    policy: Option<Verdict>)
    returns (reply: Reply)
    requires r.Valid()
    modifies r, if r.body == null then {} else r.body.Repr
    ensures r.Valid()
    ensures reply.Forwarded? ==> Permits(id, policy)
    ensures Clean(old(r.Stream())) ==>
      var malformed := hasHeader && !IsCall(if old(r.body) == null then None else Some(Bytes(old(r.Stream()))), parse);
      && (reply.Forwarded? <==>
          !malformed && Permits(id, policy) && (old(r.body) == null || NothingFound(g, old(r.Stream()))))
      && (reply.Forwarded? ==> r.Stream() == old(r.Stream()) && (r.body == null <==> old(r.body) == null))
      && (malformed <==> reply == Page(400))
    ensures !Clean(old(r.Stream())) ==>
      && (reply.Forwarded? <==> Permits(id, policy) && NothingFound(g, After(old(r.Stream()))))
      && (reply.Forwarded? ==> r.Stream() == After(old(r.Stream()))) && reply != Page(400)
    ensures reply.Page? ==> reply.status == 400 || reply.status == 403
  {
    var m := ExtractMcpInfo(r, hasHeader, parse);
    if old(r.body) == null { McpMeans(None, hasHeader, parse); }
    if Clean(old(r.Stream())) { McpMeans(Some(Bytes(old(r.Stream()))), hasHeader, parse); }
    if m.isMcp && m.invalid { return Page(400); }
    GateMeans(id, policy);
    // handleHTTP writes 403 for every request evaluate blocks, whatever status evaluate returns
    if !Gate(id, policy) { return Page(403); }
    ghost var s := r.Stream();
    var viol, count, ok := r.Inspect(g.max, g.detectors);
    if !ok { return Page(403); }
    if |viol| > 0 { return Page(403); }
    reply := Forwarded;
  }

  /**
   * When a body that cannot be read reaches the upstream server. If anything is inspected at all, exactly when its
   * first failure passes and what comes after that failure shows nothing; if nothing is, whenever the detectors
   * find nothing in no octets.
   */
  lemma BrokenBodies(g: Settings, s: seq<Item>)
    requires !Clean(s)
    ensures var k := Break(s);
      k < |s| && (g.max > 0 ==> (NothingFound(g, After(s)) <==> !s[k].sticky && NothingFound(g, s[k + 1..])))
    ensures g.max <= 0 ==> (NothingFound(g, After(s)) <==> InspectBytes(g.detectors, []) == [])
  {
    BreakIsClean(s);
    var k := Break(s);
    if s[k].sticky && g.max > 0 {
      assert After(s)[0] == s[k];
      assert After(s)[..Inspected(g.max, After(s))][0] == s[k];
    }
    if g.max <= 0 {
      assert After(s)[..0] == [];
      assert Bytes([]) == [];
    }
  }

  /** A body cut short after any octets by a failure that passes: whatever they were, nothing of it is inspected. */
  lemma CutShort(g: Settings, d: seq<byte>)
    requires InspectBytes(g.detectors, []) == []
    ensures var s := Octets(d) + [Broken(false)];
      !Clean(s) && After(s) == [] && NothingFound(g, After(s))
  {
    var s := Octets(d) + [Broken(false)];
    BreakAfter(d, [Broken(false)]);
    assert s[|d|] == Broken(false);
    assert After([Broken(false)]) == [] && Bytes([]) == [];
  }
}
