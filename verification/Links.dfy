/** The share links of one client (`BuildLinks` and `customLink`, internal/xray/links.go):
    first as structured records, then as the text that is handed out. */
module Links {
  import opened Wrappers
  import opened Decimal
  import opened Encoding
  import opened Names
  import opened Policy
  import opened ServerConfig

  /** Everything one client's links depend on; `ClientJSON` receives a copy of the same
      fields (internal/api/handlers.go:154-162). */
  datatype LinkOpts = LinkOpts(
    clientId: string, clientName: string, overrides: seq<string>,
    addr: string, sni: string, cfgFmt: string, date: string,
    global: Toggles, pub: string, sid: string, cfg: Config, customs: seq<CustomInbound>)
  {
    /** The main Reality TCP proxy is publicly reachable. */
    predicate TcpReady() { cfg.tcpHost != "" && cfg.tcpPort != "" && pub != "" }

    function Uuid8(): string { if |clientId| > 8 then clientId[..8] else clientId }

    function Name(caption: string, proto: string, net: string, sec: string, server: string): string {
      FmtName(cfgFmt, Naming(clientName, caption, proto, net, sec, server, Uuid8(), date))
    }
  }

  /** `linkContext`: one snapshot, one client, the public address. */
  function LinkContext(cfg: Config, snap: Snapshot, client: Client, addr: string, cfgFmt: string, date: string): LinkOpts {
    LinkOpts(client.id, client.name, client.protocols, addr, snap.Sni(cfg), cfgFmt, date,
             snap.Global(), snap.keys.pub, snap.keys.sid, cfg, snap.customs)
  }

  // ---------- structured links ----------

  /** Query parameters of a share link. */
  datatype Field = Encryption | Security | Sni | Fp | Pbk | Sid | Alpn | Type | Host | Path | Service | Mode | Flow | HeaderType | Spx

  /** A parameter printed as it is, or percent-encoded. */
  datatype Param = Plain(field: Field, value: string) | Quoted(field: Field, value: string)

  datatype VMessFields = VMessFields(
    ps: string, add: string, port: string, id: string, net: string, kind: string, host: string,
    path: string, service: string, sni: string, alpn: string)

  datatype Share =
    | Uri(scheme: string, id: string, host: string, port: string, params: seq<Param>, name: string)
    | VMess(fields: VMessFields)

  datatype Link = Link(key: string, caption: string, share: Share)

  const ED := "?ed=2048"

  /** The parameters every TLS link starts with. */
  function TlsHead(vless: bool, addr: string, alpn: string, network: string): seq<Param> {
    IfThen(vless, Plain(Encryption, "none"))
    + [Plain(Security, "tls"), Quoted(Sni, addr), Plain(Fp, "chrome"), Quoted(Alpn, alpn), Plain(Type, network), Quoted(Host, addr)]
  }

  function WsLink(o: LinkOpts): Link {
    Link(VLESS_WS, "VLESS \U{B7} WebSocket",
      Uri("vless", o.clientId, o.addr, "443",
        TlsHead(true, o.addr, "http/1.1", "ws") + [Quoted(Path, o.cfg.wsPath + ED)],
        o.Name("VLESS-WS", "VLESS", "WS", "TLS", o.addr)))
  }

  function XhttpLink(o: LinkOpts): Link {
    Link(VLESS_XHTTP, "VLESS \U{B7} XHTTP",
      Uri("vless", o.clientId, o.addr, "443",
        TlsHead(true, o.addr, "h2,http/1.1", "xhttp") + [Quoted(Path, o.cfg.xhttpPath), Plain(Mode, "packet-up")],
        o.Name("VLESS-XHTTP", "VLESS", "XHTTP", "TLS", o.addr)))
  }

  function HuLink(o: LinkOpts): Link {
    Link(VLESS_HU, "VLESS \U{B7} HTTPUpgrade",
      Uri("vless", o.clientId, o.addr, "443",
        TlsHead(true, o.addr, "http/1.1", "httpupgrade") + [Quoted(Path, o.cfg.huPath)],
        o.Name("VLESS-HTTPUpgrade", "VLESS", "HTTPUpgrade", "TLS", o.addr)))
  }

  function VmessLink(o: LinkOpts): Link {
    Link(VMESS_WS, "VMess \U{B7} WebSocket",
      VMess(VMessFields(o.Name("VMess-WS", "VMESS", "WS", "TLS", o.addr), o.addr, "443", o.clientId,
                        "ws", "none", o.addr, o.cfg.vmessPath + ED, "", o.addr, "http/1.1")))
  }

  function TrojanLink(o: LinkOpts): Link {
    Link(TROJAN_WS, "Trojan \U{B7} WebSocket",
      Uri("trojan", o.clientId, o.addr, "443",
        TlsHead(false, o.addr, "http/1.1", "ws") + [Quoted(Path, o.cfg.trojanPath + ED)],
        o.Name("Trojan-WS", "TROJAN", "WS", "TLS", o.addr)))
  }

  function RealityHead(o: LinkOpts, sni: string): seq<Param> {
    [Plain(Encryption, "none"), Plain(Security, "reality"), Quoted(Sni, sni), Plain(Fp, "chrome"),
     Quoted(Pbk, o.pub), Quoted(Sid, o.sid)]
  }

  function BuiltinRealityTail(net: string, service: string): seq<Param> {
    if net == "grpc" then [Plain(Type, "grpc"), Quoted(Service, service), Plain(Mode, "gun")]
    else [Plain(Flow, VISION), Quoted(Spx, "/"), Plain(Type, "tcp"), Plain(HeaderType, "none")]
  }

  function RealityLink(o: LinkOpts): Link {
    var net := RealityNet(o.cfg.realityNet);
    var kind := if net == "grpc" then "gRPC" else "TCP";
    Link(VLESS_REALITY, "VLESS \U{B7} Reality (" + kind + ")",
      Uri("vless", o.clientId, o.cfg.tcpHost, o.cfg.tcpPort,
        RealityHead(o, o.sni) + BuiltinRealityTail(net, o.cfg.realitySvc),
        o.Name("VLESS-Reality-" + kind, "VLESS", net, "REALITY", o.cfg.tcpHost)))
  }

  // ---------- custom links ----------

  /** `resolveRealityEndpoint`, shared by links and client JSON: the second proxy when the
      port is mapped, the inbound's own port without a main proxy, otherwise unreachable. */
  function RealityEndpoint(ib: CustomInbound, cfg: Config, addr: string): Option<(string, string)> {
    if cfg.tcp2Host != "" && cfg.tcp2Port != "" && ib.port == cfg.tcp2AppPort then Some((cfg.tcp2Host, cfg.tcp2Port))
    else if cfg.tcpHost == "" || cfg.tcpPort == "" then Some((addr, PortText(ib.port)))
    else None
  }

  /** `strconv.Itoa`. */
  function PortText(n: int): string { if n < 0 then "-" + DecimalText(-n) else DecimalText(n) }

  /** The inbound has a public address for this client. */
  predicate Reachable(ib: CustomInbound, o: LinkOpts) {
    ib.security == "reality" ==> o.pub != "" && RealityEndpoint(ib, o.cfg, o.addr).Some?
  }

  function AlpnText(network: string): string {
    if network == "ws" || network == "httpupgrade" then "http/1.1"
    else if network == "xhttp" then "h2,http/1.1"
    else if network == "grpc" then "h2" else ""
  }

  function RealityTail(ib: CustomInbound): seq<Param> {
    if ib.network == "tcp" then [Plain(Type, ib.network), Plain(Flow, VISION), Plain(HeaderType, "none")]
    else if ib.network == "xhttp" then [Plain(Type, ib.network), Quoted(Path, ib.path), Plain(Mode, "auto")]
    else if ib.network == "grpc" then [Plain(Type, ib.network), Quoted(Service, Unslashed(ib.path)), Plain(Mode, "gun")]
    else [Plain(Type, ib.network)]
  }

  function TlsTail(ib: CustomInbound): seq<Param> {
    if ib.network == "grpc" then [Quoted(Service, Unslashed(ib.path)), Plain(Mode, "gun")]
    else if ib.network == "xhttp" then [Quoted(Path, ib.path), Plain(Mode, "packet-up")]
    else [Quoted(Path, ib.path)]
  }

  function CustomShare(ib: CustomInbound, o: LinkOpts): Share
    requires Reachable(ib, o)
  {
    var name := o.Name(ib.name, Upper(ib.protocol), Upper(ib.network), Upper(ib.security), o.addr);
    if ib.security == "reality" then
      var (host, port) := RealityEndpoint(ib, o.cfg, o.addr).value;
      Uri("vless", o.clientId, host, port, RealityHead(o, ib.sni) + RealityTail(ib), name)
    else if ib.protocol == "vmess" then
      var grpc := ib.network == "grpc";
      VMess(VMessFields(name, o.addr, "443", o.clientId, ib.network, if grpc then "gun" else "none", o.addr,
                        if grpc then Unslashed(ib.path) else ib.path, if grpc then Unslashed(ib.path) else "",
                        o.addr, AlpnText(ib.network)))
    else
      Uri(ib.protocol, o.clientId, o.addr, "443",
          TlsHead(ib.protocol == "vless", o.addr, AlpnText(ib.network), ib.network) + TlsTail(ib), name)
  }

  function UpperChar(c: char): char { if 'a' <= c <= 'z' then (c as int - 32) as char else c }

  /** `strings.ToUpper` on ASCII text. */
  function Upper(s: string): string { seq(|s|, i requires 0 <= i < |s| => UpperChar(s[i])) }

  /** A custom inbound gets a link when it is granted and reachable. */
  predicate Linked(ib: CustomInbound, o: LinkOpts) {
    GrantedCustom(o.overrides, ib.tag) && Reachable(ib, o)
  }

  function CustomLink(ib: CustomInbound, o: LinkOpts): Link
    requires Reachable(ib, o)
  {
    Link(ib.tag, ib.name, CustomShare(ib, o))
  }

  function CustomLinks(o: LinkOpts, customs: seq<CustomInbound>): seq<Link> {
    if customs == [] then []
    else
      var last := customs[|customs| - 1];
      CustomLinks(o, customs[..|customs| - 1]) + if Linked(last, o) then [CustomLink(last, o)] else []
  }

  /** Which built-in links a client gets, in link order, and those links. */
  function LinkGrants(o: LinkOpts): seq<bool> {
    [Granted(o.global, o.overrides, VLESS_WS), Granted(o.global, o.overrides, VLESS_XHTTP),
     Granted(o.global, o.overrides, VLESS_HU), Granted(o.global, o.overrides, VMESS_WS),
     Granted(o.global, o.overrides, TROJAN_WS), o.TcpReady() && Granted(o.global, o.overrides, VLESS_REALITY)]
  }

  function BuiltinCandidates(o: LinkOpts): seq<Link> {
    [WsLink(o), XhttpLink(o), HuLink(o), VmessLink(o), TrojanLink(o), RealityLink(o)]
  }

  function BuiltinLinks(o: LinkOpts): seq<Link> { Chosen(LinkGrants(o), BuiltinCandidates(o)) }

  function AllLinks(o: LinkOpts): seq<Link> { BuiltinLinks(o) + CustomLinks(o, o.customs) }

  // ---------- the code ----------

  /** `BuildLinks`, the built-in part. */
  method BuildBuiltinLinks(o: LinkOpts) returns (links: seq<Link>)
    ensures links == BuiltinLinks(o)
  {
    var allowed := UserProtocols(o.overrides, o.global);
    var on := [On(allowed, VLESS_WS), On(allowed, VLESS_XHTTP), On(allowed, VLESS_HU),
               On(allowed, VMESS_WS), On(allowed, TROJAN_WS), o.TcpReady() && On(allowed, VLESS_REALITY)];
    assert on == LinkGrants(o);
    links := AppendSix(on, BuiltinCandidates(o));
  }

  /** `BuildLinks`, the custom part: skip what is not granted or not reachable. */
  method AppendCustomLinks(o: LinkOpts, builtins: seq<Link>) returns (links: seq<Link>)
    ensures links == builtins + CustomLinks(o, o.customs)
  {
    links := builtins;
    for i := 0 to |o.customs|
      invariant links == builtins + CustomLinks(o, o.customs[..i])
    {
      assert o.customs[..i + 1][..i] == o.customs[..i];
      var ib := o.customs[i];
      var denied := Denied(o.overrides, ib.tag);
      if denied { continue; }
      if ib.security == "reality" && (o.pub == "" || RealityEndpoint(ib, o.cfg, o.addr).None?) { continue; }
      links := links + [CustomLink(ib, o)];
    }
    assert o.customs[..|o.customs|] == o.customs;
  }

  method BuildLinks(o: LinkOpts) returns (links: seq<Link>)
    ensures links == AllLinks(o)
  {
    links := BuildBuiltinLinks(o);
    links := AppendCustomLinks(o, links);
  }

  // ---------- text ----------

  function FieldText(f: Field): string {
    match f
    case Encryption => "encryption" case Security => "security" case Sni => "sni" case Fp => "fp"
    case Pbk => "pbk" case Sid => "sid" case Alpn => "alpn" case Type => "type" case Host => "host"
    case Path => "path" case Service => "serviceName" case Mode => "mode" case Flow => "flow"
    case HeaderType => "headerType" case Spx => "spx"
  }

  function ParamText(p: Param): string {
    FieldText(p.field) + "=" + match p case Plain(_, v) => v case Quoted(_, v) => Quote(v)
  }

  function ParamTexts(ps: seq<Param>): seq<string> { seq(|ps|, i requires 0 <= i < |ps| => ParamText(ps[i])) }

  function QueryText(ps: seq<Param>): string { Join(ParamTexts(ps), '&') }

  /** The link as it is handed out; the JSON text of a VMess record is a parameter. */
  function Text(share: Share, json: VMessFields -> string): string {
    match share
    case Uri(scheme, id, host, port, params, name) =>
      scheme + "://" + id + "@" + host + ":" + port + "?" + QueryText(params) + "#" + Quote(name)
    case VMess(fields) => "vmess://" + Base64(Utf8(json(fields)))
  }

  function Texts(links: seq<Link>, json: VMessFields -> string): (r: seq<string>)
    ensures |r| == |links| && forall i :: 0 <= i < |links| ==> r[i] == Text(links[i].share, json)
  {
    seq(|links|, i requires 0 <= i < |links| => Text(links[i].share, json))
  }

  /** `SubBody`: collect the URLs, join them by newlines, encode. */
  method SubBody(links: seq<Link>, json: VMessFields -> string) returns (body: string)
    ensures body == Base64(Utf8(Join(Texts(links, json), '\n')))
  {
    hide Text;
    var urls: seq<string> := [];
    for i := 0 to |links|
      invariant urls == Texts(links[..i], json)
    {
      urls := urls + [Text(links[i].share, json)];
    }
    assert links[..|links|] == links;
    body := Base64(Utf8(Join(urls, '\n')));
  }
}
