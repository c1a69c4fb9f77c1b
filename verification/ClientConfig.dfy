/** The full client config (`ClientJSON` and `customOutbound`, internal/xray/clientjson.go),
    reduced to its proxy outbounds. */
module ClientConfig {
  import opened Wrappers
  import opened Decimal
  import opened Policy
  import opened ServerConfig
  import opened Links

  datatype ClientStream = ClientStream(
    network: string, security: string, path: string, service: string, serverName: string,
    host: string, mode: string, alpn: seq<string>)

  /** A proxy outbound without its tag; `key` is the base handed to `nextTag`. */
  datatype Proxy = Proxy(key: string, protocol: string, address: string, port: int, id: string, flow: string, stream: ClientStream)

  datatype Outbound = Outbound(tag: string, proxy: Proxy)

  /** `{"error": ...}` or the outbounds in front of "direct" and "block". */
  datatype ClientResult = NoProtocol | Full(proxies: seq<Outbound>)

  // ---------- specification ----------

  function TlsStream(network: string, path: string, service: string, addr: string, mode: string, alpn: seq<string>): ClientStream {
    ClientStream(network, "tls", path, service, addr, if network == "grpc" then "" else addr, mode, alpn)
  }

  function WsProxy(o: LinkOpts): Proxy {
    Proxy(VLESS_WS, "vless", o.addr, 443, o.clientId, "", TlsStream("ws", o.cfg.wsPath + ED, "", o.addr, "", ["http/1.1"]))
  }

  function HuProxy(o: LinkOpts): Proxy {
    Proxy(VLESS_HU, "vless", o.addr, 443, o.clientId, "", TlsStream("httpupgrade", o.cfg.huPath, "", o.addr, "", ["http/1.1"]))
  }

  function XhttpProxy(o: LinkOpts): Proxy {
    Proxy(VLESS_XHTTP, "vless", o.addr, 443, o.clientId, "", TlsStream("xhttp", o.cfg.xhttpPath, "", o.addr, "packet-up", ["h2", "http/1.1"]))
  }

  function VmessProxy(o: LinkOpts): Proxy {
    Proxy(VMESS_WS, "vmess", o.addr, 443, o.clientId, "", TlsStream("ws", o.cfg.vmessPath + ED, "", o.addr, "", ["http/1.1"]))
  }

  function TrojanProxy(o: LinkOpts): Proxy {
    Proxy(TROJAN_WS, "trojan", o.addr, 443, o.clientId, "", TlsStream("ws", o.cfg.trojanPath + ED, "", o.addr, "", ["http/1.1"]))
  }

  function RealityStream(network: string, path: string, service: string, sni: string, host: string, mode: string): ClientStream {
    ClientStream(network, "reality", path, service, sni, host, mode, [])
  }

  function RealityProxy(o: LinkOpts): Proxy {
    var net := RealityNet(o.cfg.realityNet);
    Proxy(VLESS_REALITY, "vless", o.cfg.tcpHost, JsonPort(o.cfg.tcpPort), o.clientId, FlowFor(net),
          RealityStream(net, "", if net == "grpc" then o.cfg.realitySvc else "", o.sni, "", ""))
  }

  /** A Reality transport other than tcp, grpc and xhttp leaves the stream without network. */
  function CustomRealityStream(ib: CustomInbound): ClientStream {
    if ib.network == "tcp" then RealityStream("tcp", "", "", ib.sni, "", "")
    else if ib.network == "grpc" then RealityStream("grpc", "", Unslashed(ib.path), ib.sni, "", "")
    else if ib.network == "xhttp" then RealityStream("xhttp", ib.path, "", ib.sni, ib.sni, "packet-up")
    else RealityStream("", "", "", ib.sni, "", "")
  }

  /** Any TLS transport other than grpc, httpupgrade and xhttp is rendered as ws; the ALPN is
      one string, even where it names two protocols. */
  function CustomTlsStream(ib: CustomInbound, addr: string): ClientStream {
    if ib.network == "grpc" then TlsStream("grpc", "", Unslashed(ib.path), addr, "", [AlpnText(ib.network)])
    else if ib.network == "httpupgrade" then TlsStream("httpupgrade", ib.path, "", addr, "", [AlpnText(ib.network)])
    else if ib.network == "xhttp" then TlsStream("xhttp", ib.path, "", addr, "packet-up", [AlpnText(ib.network)])
    else TlsStream("ws", ib.path, "", addr, "", [AlpnText(ib.network)])
  }

  function CustomProxy(ib: CustomInbound, o: LinkOpts): Proxy
    requires Reachable(ib, o)
  {
    if ib.security == "reality" then
      var (host, port) := RealityEndpoint(ib, o.cfg, o.addr).value;
      Proxy(ib.tag, "vless", host, JsonPort(port), o.clientId, FlowFor(ib.network), CustomRealityStream(ib))
    else
      var protocol := if ib.protocol == "vmess" || ib.protocol == "trojan" then ib.protocol else "vless";
      Proxy(ib.tag, protocol, o.addr, 443, o.clientId, "", CustomTlsStream(ib, o.addr))
  }

  function JsonGrants(o: LinkOpts): seq<bool> {
    [o.TcpReady() && Granted(o.global, o.overrides, VLESS_REALITY), Granted(o.global, o.overrides, VLESS_WS),
     Granted(o.global, o.overrides, VLESS_HU), Granted(o.global, o.overrides, VLESS_XHTTP),
     Granted(o.global, o.overrides, VMESS_WS), Granted(o.global, o.overrides, TROJAN_WS)]
  }

  function JsonCandidates(o: LinkOpts): seq<Proxy> {
    [RealityProxy(o), WsProxy(o), HuProxy(o), XhttpProxy(o), VmessProxy(o), TrojanProxy(o)]
  }

  function BuiltinProxies(o: LinkOpts): seq<Proxy> { Chosen(JsonGrants(o), JsonCandidates(o)) }

  /** `nextTag`: the first call says "proxy", every later one "alt-" and the base. */
  function TagFor(order: nat, base: string): string { if order == 0 then "proxy" else "alt-" + base }

  function Tagged(proxies: seq<Proxy>): seq<Outbound> {
    seq(|proxies|, i requires 0 <= i < |proxies| => Outbound(TagFor(i, proxies[i].key), proxies[i]))
  }

  /** The granted custom inbounds, each of which consumes a tag, reachable or not. */
  function GrantedCustoms(overrides: seq<string>, customs: seq<CustomInbound>): seq<CustomInbound> {
    if customs == [] then []
    else
      GrantedCustoms(overrides, customs[..|customs| - 1])
      + IfThen(GrantedCustom(overrides, customs[|customs| - 1].tag), customs[|customs| - 1])
  }

  /** What one granted custom inbound adds when `order` tags are used up. */
  function CustomOutbound(o: LinkOpts, ib: CustomInbound, order: nat): seq<Outbound> {
    if Reachable(ib, o) then [Outbound(TagFor(order, ib.tag), CustomProxy(ib, o))] else []
  }

  /** Outbounds of the granted custom inbounds, after `used` tags. */
  function CustomOutbounds(o: LinkOpts, granted: seq<CustomInbound>, used: nat): seq<Outbound> {
    if granted == [] then []
    else
      var k := |granted| - 1;
      CustomOutbounds(o, granted[..k], used) + CustomOutbound(o, granted[k], used + k)
  }

  lemma CustomOutboundsStep(o: LinkOpts, granted: seq<CustomInbound>, ib: CustomInbound, used: nat)
    ensures CustomOutbounds(o, granted + [ib], used)
         == CustomOutbounds(o, granted, used) + CustomOutbound(o, ib, used + |granted|)
  {
    assert (granted + [ib])[..|granted|] == granted;
  }

  lemma GrantedStep(overrides: seq<string>, customs: seq<CustomInbound>, i: nat)
    requires i < |customs|
    ensures GrantedCustoms(overrides, customs[..i + 1])
         == GrantedCustoms(overrides, customs[..i]) + IfThen(GrantedCustom(overrides, customs[i].tag), customs[i])
  {
    assert customs[..i + 1][..i] == customs[..i];
  }

  function AllOutbounds(o: LinkOpts): seq<Outbound> {
    Tagged(BuiltinProxies(o))
    + CustomOutbounds(o, GrantedCustoms(o.overrides, o.customs), |BuiltinProxies(o)|)
  }

  // ---------- the code ----------

  /** `customOutbound`: `None` when the inbound has no public endpoint. */
  method RenderOutbound(ib: CustomInbound, o: LinkOpts) returns (p: Option<Proxy>)
    ensures p == if Reachable(ib, o) then Some(CustomProxy(ib, o)) else None
  {
    if ib.security == "reality" {
      if o.pub == "" { return None; }
      var endpoint := RealityEndpoint(ib, o.cfg, o.addr);
      if endpoint.None? { return None; }
      var flow := "";
      var stream := RealityStream("", "", "", ib.sni, "", "");
      if ib.network == "tcp" {
        flow := VISION;
        stream := stream.(network := "tcp");
      } else if ib.network == "grpc" {
        var service := TrimSlash(ib.path);
        stream := stream.(network := "grpc", service := service);
      } else if ib.network == "xhttp" {
        stream := stream.(network := "xhttp", path := ib.path, host := ib.sni, mode := "packet-up");
      }
      var port := 443;
      var v := Atoi(endpoint.value.1);
      if v > 0 { port := v; }
      return Some(Proxy(ib.tag, "vless", endpoint.value.0, port, o.clientId, flow, stream));
    }
    var service := TrimSlash(ib.path);
    var alpn := [AlpnText(ib.network)];
    var stream :=
      if ib.network == "grpc" then TlsStream("grpc", "", service, o.addr, "", alpn)
      else if ib.network == "httpupgrade" then TlsStream("httpupgrade", ib.path, "", o.addr, "", alpn)
      else if ib.network == "xhttp" then TlsStream("xhttp", ib.path, "", o.addr, "packet-up", alpn)
      else TlsStream("ws", ib.path, "", o.addr, "", alpn);
    var protocol := if ib.protocol == "vmess" then "vmess" else if ib.protocol == "trojan" then "trojan" else "vless";
    return Some(Proxy(ib.tag, protocol, o.addr, 443, o.clientId, "", stream));
  }

  /** `if allowed { outbounds = append(outbounds, render(nextTag(base))) }`. */
  method AppendTagged(outbounds: seq<Outbound>, order: nat, on: bool, p: Proxy, ghost sofar: seq<Proxy>)
      returns (r: seq<Outbound>, next: nat)
    requires outbounds == Tagged(sofar) && order == |sofar|
    ensures r == Tagged(Pick(sofar, on, p)) && next == |Pick(sofar, on, p)|
  {
    r, next := outbounds, order;
    if on {
      r := r + [Outbound(TagFor(order, p.key), p)];
      next := next + 1;
    }
  }

  method TagSix(on: seq<bool>, items: seq<Proxy>) returns (r: seq<Outbound>, order: nat)
    requires |on| == |items| == 6
    ensures r == Tagged(Chosen(on, items)) && order == |Chosen(on, items)|
  {
    ghost var ps: seq<Proxy> := [];
    r, order := AppendTagged([], 0, on[0], items[0], ps);
    ps := Pick(ps, on[0], items[0]);
    r, order := AppendTagged(r, order, on[1], items[1], ps);
    ps := Pick(ps, on[1], items[1]);
    r, order := AppendTagged(r, order, on[2], items[2], ps);
    ps := Pick(ps, on[2], items[2]);
    r, order := AppendTagged(r, order, on[3], items[3], ps);
    ps := Pick(ps, on[3], items[3]);
    r, order := AppendTagged(r, order, on[4], items[4], ps);
    ps := Pick(ps, on[4], items[4]);
    r, order := AppendTagged(r, order, on[5], items[5], ps);
  }

  /** `ClientJSON`, the built-in outbounds; every append goes through `nextTag`. */
  method RenderBuiltins(o: LinkOpts) returns (outbounds: seq<Outbound>, order: nat)
    ensures outbounds == Tagged(BuiltinProxies(o)) && order == |BuiltinProxies(o)|
  {
    var allowed := UserProtocols(o.overrides, o.global);
    var on := [o.TcpReady() && On(allowed, VLESS_REALITY), On(allowed, VLESS_WS), On(allowed, VLESS_HU),
               On(allowed, VLESS_XHTTP), On(allowed, VMESS_WS), On(allowed, TROJAN_WS)];
    assert on == JsonGrants(o);
    outbounds, order := TagSix(on, JsonCandidates(o));
  }

  /** `customOutbound(ib, o, nextTag(ib.Tag))` and the append behind its nil check. */
  method RenderTagged(ib: CustomInbound, o: LinkOpts, order: nat) returns (added: seq<Outbound>)
    ensures added == CustomOutbound(o, ib, order)
  {
    var tag := TagFor(order, ib.tag);
    var p := RenderOutbound(ib, o);
    added := if p.Some? then [Outbound(tag, p.value)] else [];
  }

  /** `ClientJSON`, the custom outbounds: an unreachable inbound still consumes its tag. */
  method AppendCustoms(o: LinkOpts, builtins: seq<Outbound>, used: nat) returns (outbounds: seq<Outbound>)
    ensures outbounds == builtins + CustomOutbounds(o, GrantedCustoms(o.overrides, o.customs), used)
  {
    outbounds := builtins;
    var order := used;
    ghost var granted: seq<CustomInbound> := [];
    for i := 0 to |o.customs|
      invariant granted == GrantedCustoms(o.overrides, o.customs[..i]) && order == used + |granted|
      invariant outbounds == builtins + CustomOutbounds(o, granted, used)
    {
      GrantedStep(o.overrides, o.customs, i);
      var ib := o.customs[i];
      var denied := Denied(o.overrides, ib.tag);
      if denied { continue; }
      CustomOutboundsStep(o, granted, ib, used);
      granted := granted + [ib];
      var added := RenderTagged(ib, o, order);
      order := order + 1;
      outbounds := outbounds + added;
    }
    assert o.customs[..|o.customs|] == o.customs;
  }

  /** `ClientJSON`. */
  method ClientJSON(o: LinkOpts) returns (r: ClientResult)
    ensures r == if AllOutbounds(o) == [] then NoProtocol else Full(AllOutbounds(o))
  {
    var outbounds, order := RenderBuiltins(o);
    outbounds := AppendCustoms(o, outbounds, order);
    r := if |outbounds| == 0 then NoProtocol else Full(outbounds);
  }
}
