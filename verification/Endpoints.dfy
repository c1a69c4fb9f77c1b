/** The three renderings of one policy: a key that a client is given names the same endpoint
    in the link and in the client JSON, and an inbound of the server that accepts it. */
module Endpoints {
  import opened Decimal
  import opened Policy
  import opened ServerConfig
  import opened Links
  import opened ClientConfig

  // ---------- link and client JSON ----------

  /** Whoever reads field `f` of the link gets `v`; an empty value may be left out. */
  predicate Reads(ps: seq<Param>, f: Field, v: string) {
    && (forall i :: 0 <= i < |ps| && ps[i].field == f ==> ps[i].value == v)
    && (v != "" ==> exists i :: 0 <= i < |ps| && ps[i].field == f)
  }

  predicate SameStream(ps: seq<Param>, s: ClientStream, flow: string) {
    && Reads(ps, Type, s.network) && Reads(ps, Security, s.security) && Reads(ps, Path, s.path)
    && Reads(ps, Service, s.service) && Reads(ps, Sni, s.serverName) && Reads(ps, Flow, flow)
  }

  /** Same protocol, credential, host, numeric port, transport, path or service, SNI, flow. */
  predicate SameEndpoint(share: Share, p: Proxy) {
    match share
    case Uri(scheme, id, host, port, ps, _) =>
      scheme == p.protocol && id == p.id && host == p.address && PortNumber(port) == p.port && SameStream(ps, p.stream, p.flow)
    case VMess(f) =>
      && p.protocol == "vmess" && f.id == p.id && f.add == p.address && PortNumber(f.port) == p.port
      && f.net == p.stream.network && p.stream.security == "tls" && f.sni == p.stream.serverName && p.flow == ""
      && f.service == p.stream.service && (f.net != "grpc" ==> f.path == p.stream.path)
  }

  predicate Pair(l: Link, p: Proxy) { l.key == p.key && SameEndpoint(l.share, p) }

  lemma Port443()
    ensures PortNumber("443") == 443
  {
    assert "443"[..2] == "44" && "44"[..1] == "4" && "4"[..0] == "";
    assert Value("443") == 443;
    assert IsDigit("443"[0]);
  }

  predicate Silent(ps: seq<Param>, f: Field) { forall i :: 0 <= i < |ps| ==> ps[i].field != f }

  lemma ReadsLeft(a: seq<Param>, b: seq<Param>, f: Field, v: string)
    requires Reads(a, f, v) && Silent(b, f)
    ensures Reads(a + b, f, v)
  {
    if i :| 0 <= i < |a| && a[i].field == f { assert (a + b)[i] == a[i]; }
  }

  lemma ReadsRight(a: seq<Param>, b: seq<Param>, f: Field, v: string)
    requires Silent(a, f) && Reads(b, f, v)
    ensures Reads(a + b, f, v)
  {
    if i :| 0 <= i < |b| && b[i].field == f { assert (a + b)[|a| + i] == b[i]; }
  }

  lemma TlsHeadReads(vless: bool, addr: string, alpn: string, network: string)
    ensures
      var ps := TlsHead(vless, addr, alpn, network);
      && Reads(ps, Security, "tls") && Reads(ps, Sni, addr) && Reads(ps, Type, network)
      && Silent(ps, Path) && Silent(ps, Service) && Silent(ps, Flow)
  {
    if vless { VlessHeadReads(addr, alpn, network); } else { PlainHeadReads(addr, alpn, network); }
  }

  lemma VlessHeadReads(addr: string, alpn: string, network: string)
    ensures
      var ps := TlsHead(true, addr, alpn, network);
      && Reads(ps, Security, "tls") && Reads(ps, Sni, addr) && Reads(ps, Type, network)
      && Silent(ps, Path) && Silent(ps, Service) && Silent(ps, Flow)
  {
    PlainHeadReads(addr, alpn, network);
    var rest := TlsHead(false, addr, alpn, network);
    var head := [Plain(Encryption, "none")];
    assert TlsHead(true, addr, alpn, network) == head + rest;
    hide TlsHead;
    ReadsRight(head, rest, Security, "tls");
    ReadsRight(head, rest, Sni, addr);
    ReadsRight(head, rest, Type, network);
  }

  lemma PlainHeadReads(addr: string, alpn: string, network: string)
    ensures
      var ps := TlsHead(false, addr, alpn, network);
      && Reads(ps, Security, "tls") && Reads(ps, Sni, addr) && Reads(ps, Type, network)
      && Silent(ps, Path) && Silent(ps, Service) && Silent(ps, Flow)
  {
    PlainHead(addr, alpn, network);
    var ps := TlsHead(false, addr, alpn, network);
    hide TlsHead, Reads, Silent;
    SixReads(ps, ps[0], ps[1], ps[2], ps[3], ps[4], ps[5]);
  }

  lemma PlainHead(addr: string, alpn: string, network: string)
    ensures TlsHead(false, addr, alpn, network)
         == [Plain(Security, "tls"), Quoted(Sni, addr), Plain(Fp, "chrome"), Quoted(Alpn, alpn), Plain(Type, network), Quoted(Host, addr)]
  {
  }

  /** Six parameters in the order of a TLS link. */
  lemma SixReads(ps: seq<Param>, a: Param, b: Param, c: Param, d: Param, e: Param, f: Param)
    requires ps == [a, b, c, d, e, f]
    requires a.field == Security && b.field == Sni && c.field == Fp && d.field == Alpn && e.field == Type && f.field == Host
    ensures Reads(ps, Security, a.value) && Reads(ps, Sni, b.value) && Reads(ps, Type, e.value)
    ensures Silent(ps, Path) && Silent(ps, Service) && Silent(ps, Flow)
  {
    hide Reads;
    ReadsAt(ps, 0);
    ReadsAt(ps, 1);
    ReadsAt(ps, 4);
  }

  /** A field that occurs once is read there. */
  lemma ReadsAt(ps: seq<Param>, i: nat)
    requires i < |ps| && forall j :: 0 <= j < |ps| && j != i ==> ps[j].field != ps[i].field
    ensures Reads(ps, ps[i].field, ps[i].value)
  {
  }

  /** A TLS link and a TLS stream agree when their tails do. */
  lemma TlsAgrees(vless: bool, addr: string, alpn: string, network: string, tail: seq<Param>, s: ClientStream)
    requires s.network == network && s.security == "tls" && s.serverName == addr
    requires Reads(tail, Path, s.path) && Reads(tail, Service, s.service)
    requires Silent(tail, Security) && Silent(tail, Sni) && Silent(tail, Type) && Silent(tail, Flow)
    ensures SameStream(TlsHead(vless, addr, alpn, network) + tail, s, "")
  {
    var head := TlsHead(vless, addr, alpn, network);
    TlsHeadReads(vless, addr, alpn, network);
    ReadsLeft(head, tail, Security, "tls");
    ReadsLeft(head, tail, Sni, addr);
    ReadsLeft(head, tail, Type, network);
    ReadsRight(head, tail, Path, s.path);
    ReadsRight(head, tail, Service, s.service);
    ReadsRight(head, tail, Flow, "");
  }

  lemma RealityHeadReads(o: LinkOpts, sni: string)
    ensures
      var ps := RealityHead(o, sni);
      && Reads(ps, Security, "reality") && Reads(ps, Sni, sni)
      && Silent(ps, Path) && Silent(ps, Service) && Silent(ps, Flow) && Silent(ps, Type)
  {
    hide Reads;
    var ps := RealityHead(o, sni);
    ReadsAt(ps, 1);
    ReadsAt(ps, 2);
  }

  lemma RealityAgrees(o: LinkOpts, tail: seq<Param>, s: ClientStream, flow: string)
    requires s.security == "reality"
    requires Reads(tail, Path, s.path) && Reads(tail, Service, s.service) && Reads(tail, Type, s.network) && Reads(tail, Flow, flow)
    requires Silent(tail, Security) && Silent(tail, Sni)
    ensures SameStream(RealityHead(o, s.serverName) + tail, s, flow)
  {
    var head := RealityHead(o, s.serverName);
    RealityHeadReads(o, s.serverName);
    ReadsLeft(head, tail, Security, "reality");
    ReadsLeft(head, tail, Sni, s.serverName);
    ReadsRight(head, tail, Type, s.network);
    ReadsRight(head, tail, Path, s.path);
    ReadsRight(head, tail, Service, s.service);
    ReadsRight(head, tail, Flow, flow);
  }

  lemma PathTail(path: string, mode: seq<Param>)
    requires mode == [] || (|mode| == 1 && mode[0].field == Mode)
    ensures
      var ps := [Quoted(Path, path)] + mode;
      && Reads(ps, Path, path) && Reads(ps, Service, "")
      && Silent(ps, Security) && Silent(ps, Sni) && Silent(ps, Type) && Silent(ps, Flow)
  {
    var ps := [Quoted(Path, path)] + mode;
    assert ps[0].field == Path;
  }

  lemma PairWs(o: LinkOpts)
    ensures Pair(WsLink(o), WsProxy(o))
  {
    Port443();
    PathTail(o.cfg.wsPath + ED, []);
    assert [Quoted(Path, o.cfg.wsPath + ED)] + [] == [Quoted(Path, o.cfg.wsPath + ED)];
    TlsAgrees(true, o.addr, "http/1.1", "ws", [Quoted(Path, o.cfg.wsPath + ED)], WsProxy(o).stream);
  }

  lemma PairXhttp(o: LinkOpts)
    ensures Pair(XhttpLink(o), XhttpProxy(o))
  {
    Port443();
    var tail := [Quoted(Path, o.cfg.xhttpPath), Plain(Mode, "packet-up")];
    PathTail(o.cfg.xhttpPath, [Plain(Mode, "packet-up")]);
    assert tail == [Quoted(Path, o.cfg.xhttpPath)] + [Plain(Mode, "packet-up")];
    TlsAgrees(true, o.addr, "h2,http/1.1", "xhttp", tail, XhttpProxy(o).stream);
  }

  lemma PairHu(o: LinkOpts)
    ensures Pair(HuLink(o), HuProxy(o))
  {
    Port443();
    PathTail(o.cfg.huPath, []);
    assert [Quoted(Path, o.cfg.huPath)] + [] == [Quoted(Path, o.cfg.huPath)];
    TlsAgrees(true, o.addr, "http/1.1", "httpupgrade", [Quoted(Path, o.cfg.huPath)], HuProxy(o).stream);
  }

  lemma PairVmess(o: LinkOpts)
    ensures Pair(VmessLink(o), VmessProxy(o))
  {
    Port443();
  }

  lemma PairTrojan(o: LinkOpts)
    ensures Pair(TrojanLink(o), TrojanProxy(o))
  {
    Port443();
    PathTail(o.cfg.trojanPath + ED, []);
    assert [Quoted(Path, o.cfg.trojanPath + ED)] + [] == [Quoted(Path, o.cfg.trojanPath + ED)];
    TlsAgrees(false, o.addr, "http/1.1", "ws", [Quoted(Path, o.cfg.trojanPath + ED)], TrojanProxy(o).stream);
  }

  lemma SilentReads(ps: seq<Param>)
    ensures forall f :: Silent(ps, f) ==> Reads(ps, f, "")
  {
  }

  lemma BuiltinRealityTailReads(net: string, service: string)
    ensures
      var ps := BuiltinRealityTail(net, service);
      var grpc := net == "grpc";
      && Reads(ps, Path, "") && Reads(ps, Service, if grpc then service else "")
      && Reads(ps, Type, if grpc then "grpc" else "tcp") && Reads(ps, Flow, if grpc then "" else VISION)
      && Silent(ps, Security) && Silent(ps, Sni)
  {
    hide Reads;
    var ps := BuiltinRealityTail(net, service);
    SilentReads(ps);
    if net == "grpc" {
      ReadsAt(ps, 0);
      ReadsAt(ps, 1);
    } else {
      ReadsAt(ps, 0);
      ReadsAt(ps, 2);
    }
  }

  lemma PairReality(o: LinkOpts)
    requires JsonPort(o.cfg.tcpPort) == PortNumber(o.cfg.tcpPort)
    ensures Pair(RealityLink(o), RealityProxy(o))
  {
    var net := RealityNet(o.cfg.realityNet);
    BuiltinRealityTailReads(net, o.cfg.realitySvc);
    RealityAgrees(o, BuiltinRealityTail(net, o.cfg.realitySvc), RealityProxy(o).stream, RealityProxy(o).flow);
  }

  lemma CustomTailReads(ib: CustomInbound)
    requires ib.security == "reality" && RealityShape(ib.protocol, ib.network)
    ensures
      var ps, s := RealityTail(ib), CustomRealityStream(ib);
      && Reads(ps, Path, s.path) && Reads(ps, Service, s.service) && Reads(ps, Type, s.network)
      && Reads(ps, Flow, FlowFor(ib.network)) && Silent(ps, Security) && Silent(ps, Sni)
  {
    hide Unslashed, Reads, Silent;
    var ps := RealityTail(ib);
    if ib.network == "tcp" {
      assert ps == [Plain(Type, "tcp"), Plain(Flow, VISION), Plain(HeaderType, "none")];
      TailReads(ps, ps[0], ps[1], ps[2]);
    } else if ib.network == "xhttp" {
      assert ps == [Plain(Type, "xhttp"), Quoted(Path, ib.path), Plain(Mode, "auto")];
      TailReads(ps, ps[0], ps[1], ps[2]);
    } else {
      assert ps == [Plain(Type, "grpc"), Quoted(Service, Unslashed(ib.path)), Plain(Mode, "gun")];
      TailReads(ps, ps[0], ps[1], ps[2]);
    }
  }

  /** Three different parameters: each is read, and nothing else is there. */
  lemma TailReads(ps: seq<Param>, a: Param, b: Param, c: Param)
    requires ps == [a, b, c] && a.field != b.field && a.field != c.field && b.field != c.field
    ensures Reads(ps, a.field, a.value) && Reads(ps, b.field, b.value)
    ensures forall f :: f != a.field && f != b.field && f != c.field ==> Silent(ps, f) && Reads(ps, f, "")
  {
    assert ps[0] == a && ps[1] == b;
  }

  lemma TlsTailReads(ib: CustomInbound, addr: string)
    requires TlsShape(ib.protocol, ib.network)
    ensures
      var ps, s := TlsTail(ib), CustomTlsStream(ib, addr);
      && s.network == ib.network && s.security == "tls" && s.serverName == addr
      && Reads(ps, Path, s.path) && Reads(ps, Service, s.service)
      && Silent(ps, Security) && Silent(ps, Sni) && Silent(ps, Type) && Silent(ps, Flow)
  {
    hide Reads, Unslashed, AlpnText;
    var ps := TlsTail(ib);
    SilentReads(ps);
    ReadsAt(ps, 0);
  }

  lemma PairCustomReality(ib: CustomInbound, o: LinkOpts)
    requires WellFormed(ib) && ib.security == "reality" && Reachable(ib, o) && PortsPlain(o)
    ensures SameEndpoint(CustomShare(ib, o), CustomProxy(ib, o))
  {
    CustomTailReads(ib);
    RealityAgrees(o, RealityTail(ib), CustomRealityStream(ib), FlowFor(ib.network));
    RealityPortAgrees(ib, o);
  }

  lemma PairCustomTls(ib: CustomInbound, o: LinkOpts)
    requires WellFormed(ib) && ib.security != "reality" && ib.protocol != "vmess"
    ensures SameEndpoint(CustomShare(ib, o), CustomProxy(ib, o))
  {
    hide TlsHead, TlsTail, SameStream;
    Port443();
    CustomTlsAgrees(ib, o.addr);
  }

  lemma CustomTlsAgrees(ib: CustomInbound, addr: string)
    requires TlsShape(ib.protocol, ib.network)
    ensures SameStream(TlsHead(ib.protocol == "vless", addr, AlpnText(ib.network), ib.network) + TlsTail(ib), CustomTlsStream(ib, addr), "")
  {
    TlsTailReads(ib, addr);
    TlsAgrees(ib.protocol == "vless", addr, AlpnText(ib.network), ib.network, TlsTail(ib), CustomTlsStream(ib, addr));
  }

  lemma PairCustomVmess(ib: CustomInbound, o: LinkOpts)
    requires WellFormed(ib) && ib.security != "reality" && ib.protocol == "vmess"
    ensures SameEndpoint(CustomShare(ib, o), CustomProxy(ib, o))
  {
    Port443();
    TlsTailReads(ib, o.addr);
  }

  /** Every custom inbound the panel can store, provided its public port means the same
      number to both readers. */
  lemma PairCustom(ib: CustomInbound, o: LinkOpts)
    requires WellFormed(ib) && Reachable(ib, o) && PortsPlain(o)
    ensures Pair(CustomLink(ib, o), CustomProxy(ib, o))
  {
    if ib.security == "reality" { PairCustomReality(ib, o); }
    else if ib.protocol == "vmess" { PairCustomVmess(ib, o); }
    else { PairCustomTls(ib, o); }
  }

  // ---------- ports ----------

  /** A port text that passed `portOrEmpty` and carries no plus sign. */
  predicate PlainPort(v: string) { v == "" || (PortOrEmpty(v) == v && v[0] != '+') }

  predicate PortsPlain(o: LinkOpts) { PlainPort(o.cfg.tcpPort) && PlainPort(o.cfg.tcp2Port) }

  lemma RealityPortAgrees(ib: CustomInbound, o: LinkOpts)
    requires ib.security == "reality" && 1024 <= ib.port <= 65535 && Reachable(ib, o) && PortsPlain(o)
    ensures var port := RealityEndpoint(ib, o.cfg, o.addr).value.1; JsonPort(port) == PortNumber(port)
  {
    var port := RealityEndpoint(ib, o.cfg, o.addr).value.1;
    if port == o.cfg.tcp2Port {
      if port != "" { PortsAgreeExactly(port); }
    }
    ValueOfDecimal(ib.port);
    AtoiOfText(ib.port);
    StrconvOfDigits(DecimalText(ib.port), false);
  }

  // ---------- every link, every outbound ----------

  predicate AllWellFormed(customs: seq<CustomInbound>) { forall i :: 0 <= i < |customs| ==> WellFormed(customs[i]) }

  lemma BuiltinPorts(o: LinkOpts)
    requires PortsPlain(o) && o.TcpReady()
    ensures JsonPort(o.cfg.tcpPort) == PortNumber(o.cfg.tcpPort)
  {
    PortsAgreeExactly(o.cfg.tcpPort);
  }

  /** The position of a link's protocol among the outbounds of the client JSON. */
  function JsonSlot(i: nat): (j: nat)
    requires i < 6
    ensures j < 6
  {
    if i == 0 then 1 else if i == 1 then 3 else if i == 2 then 2 else if i == 3 then 4 else if i == 4 then 5 else 0
  }

  lemma BuiltinSlots(o: LinkOpts, i: nat)
    requires i < 6 && LinkGrants(o)[i] && PortsPlain(o)
    ensures JsonGrants(o)[JsonSlot(i)]
    ensures Pair(BuiltinCandidates(o)[i], JsonCandidates(o)[JsonSlot(i)])
  {
    hide WsLink, XhttpLink, HuLink, VmessLink, TrojanLink, RealityLink;
    hide WsProxy, XhttpProxy, HuProxy, VmessProxy, TrojanProxy, RealityProxy, Pair, PortsPlain, JsonPort, PortNumber;
    if i == 0 { PairWs(o); }
    else if i == 1 { PairXhttp(o); }
    else if i == 2 { PairHu(o); }
    else if i == 3 { PairVmess(o); }
    else if i == 4 { PairTrojan(o); }
    else { BuiltinPorts(o); PairReality(o); }
  }

  lemma {:induction false} CustomLinkSound(o: LinkOpts, customs: seq<CustomInbound>, l: Link) returns (ib: CustomInbound)
    requires l in CustomLinks(o, customs)
    ensures ib in customs && Linked(ib, o) && l == CustomLink(ib, o)
  {
    var rest, last := customs[..|customs| - 1], customs[|customs| - 1];
    assert customs == rest + [last];
    if l in CustomLinks(o, rest) { ib := CustomLinkSound(o, rest, l); } else { ib := last; }
  }

  lemma {:induction false} CustomLinkComplete(o: LinkOpts, customs: seq<CustomInbound>, ib: CustomInbound)
    requires ib in customs && Linked(ib, o)
    ensures CustomLink(ib, o) in CustomLinks(o, customs)
  {
    var rest, last := customs[..|customs| - 1], customs[|customs| - 1];
    assert customs == rest + [last];
    if ib in rest { CustomLinkComplete(o, rest, ib); }
  }

  lemma {:induction false} GrantedIn(overrides: seq<string>, customs: seq<CustomInbound>, ib: CustomInbound)
    ensures ib in GrantedCustoms(overrides, customs) <==> ib in customs && GrantedCustom(overrides, ib.tag)
  {
    if customs != [] {
      var rest, last := customs[..|customs| - 1], customs[|customs| - 1];
      GrantedIn(overrides, rest, ib);
      assert customs == rest + [last];
    }
  }

  lemma {:induction false} CustomOutboundComplete(o: LinkOpts, granted: seq<CustomInbound>, used: nat, ib: CustomInbound) returns (b: Outbound)
    requires ib in granted && Reachable(ib, o)
    ensures b in CustomOutbounds(o, granted, used) && b.proxy == CustomProxy(ib, o)
  {
    var k := |granted| - 1;
    assert granted == granted[..k] + [granted[k]];
    if ib in granted[..k] {
      b := CustomOutboundComplete(o, granted[..k], used, ib);
    } else {
      b := Outbound(TagFor(used + k, ib.tag), CustomProxy(ib, o));
    }
  }

  lemma {:induction false} CustomOutboundSound(o: LinkOpts, granted: seq<CustomInbound>, used: nat, b: Outbound) returns (ib: CustomInbound)
    requires b in CustomOutbounds(o, granted, used)
    ensures ib in granted && Reachable(ib, o) && b.proxy == CustomProxy(ib, o)
  {
    var k := |granted| - 1;
    assert granted == granted[..k] + [granted[k]];
    if b in CustomOutbounds(o, granted[..k], used) {
      ib := CustomOutboundSound(o, granted[..k], used, b);
    } else {
      ib := granted[k];
    }
  }

  lemma TaggedComplete(ps: seq<Proxy>, p: Proxy) returns (b: Outbound)
    requires p in ps
    ensures b in Tagged(ps) && b.proxy == p
  {
    var i :| 0 <= i < |ps| && ps[i] == p;
    b := Tagged(ps)[i];
  }

  /** Every link has an outbound in the client JSON with the same key and endpoint ... */
  lemma EveryLinkHasOutbound(o: LinkOpts, l: Link) returns (b: Outbound)
    requires l in AllLinks(o) && PortsPlain(o) && AllWellFormed(o.customs)
    ensures b in AllOutbounds(o) && Pair(l, b.proxy)
  {
    hide WsLink, XhttpLink, HuLink, VmessLink, TrojanLink, RealityLink;
    hide WsProxy, XhttpProxy, HuProxy, VmessProxy, TrojanProxy, RealityProxy;
    if l in BuiltinLinks(o) {
      ChosenExactly(LinkGrants(o), BuiltinCandidates(o), l);
      var i: nat :| i < 6 && LinkGrants(o)[i] && BuiltinCandidates(o)[i] == l;
      BuiltinSlots(o, i);
      var p := JsonCandidates(o)[JsonSlot(i)];
      ChosenExactly(JsonGrants(o), JsonCandidates(o), p);
      b := TaggedComplete(BuiltinProxies(o), p);
    } else {
      var ib := CustomLinkSound(o, o.customs, l);
      var i :| 0 <= i < |o.customs| && o.customs[i] == ib;
      GrantedIn(o.overrides, o.customs, ib);
      b := CustomOutboundComplete(o, GrantedCustoms(o.overrides, o.customs), |BuiltinProxies(o)|, ib);
      PairCustom(ib, o);
    }
  }

  /** ... and the other way round. */
  lemma EveryOutboundHasLink(o: LinkOpts, b: Outbound) returns (l: Link)
    requires b in AllOutbounds(o) && PortsPlain(o) && AllWellFormed(o.customs)
    ensures l in AllLinks(o) && Pair(l, b.proxy)
  {
    hide Pair, BuiltinProxies, BuiltinLinks, CustomOutbounds, GrantedCustoms, CustomLinks, CustomLink, CustomProxy, PortsPlain, WellFormed;
    if b in Tagged(BuiltinProxies(o)) {
      l := BuiltinLinkFor(o, b.proxy);
    } else {
      var ib := CustomOutboundSound(o, GrantedCustoms(o.overrides, o.customs), |BuiltinProxies(o)|, b);
      GrantedIn(o.overrides, o.customs, ib);
      var i :| 0 <= i < |o.customs| && o.customs[i] == ib;
      CustomLinkComplete(o, o.customs, ib);
      l := CustomLink(ib, o);
      PairCustom(ib, o);
    }
  }

  lemma BuiltinLinkFor(o: LinkOpts, p: Proxy) returns (l: Link)
    requires p in BuiltinProxies(o) && PortsPlain(o)
    ensures l in BuiltinLinks(o) && Pair(l, p)
  {
    hide WsLink, XhttpLink, HuLink, VmessLink, TrojanLink, RealityLink;
    hide WsProxy, XhttpProxy, HuProxy, VmessProxy, TrojanProxy, RealityProxy, Chosen, Pair, PortsPlain, Granted;
    ChosenExactly(JsonGrants(o), JsonCandidates(o), p);
    var j: nat :| j < 6 && JsonGrants(o)[j] && JsonCandidates(o)[j] == p;
    var i: nat := if j == 0 then 5 else if j == 1 then 0 else if j == 2 then 2 else if j == 3 then 1 else if j == 4 then 3 else 4;
    assert LinkGrants(o)[i] && JsonSlot(i) == j;
    BuiltinSlots(o, i);
    l := BuiltinCandidates(o)[i];
    ChosenExactly(LinkGrants(o), BuiltinCandidates(o), l);
  }

  /** Endpoint agreement: links and outbounds pair up, key by key. */
  lemma EndpointsAgree(o: LinkOpts)
    requires PortsPlain(o) && AllWellFormed(o.customs)
    ensures forall l :: l in AllLinks(o) ==> exists b :: b in AllOutbounds(o) && Pair(l, b.proxy)
    ensures forall b :: b in AllOutbounds(o) ==> exists l :: l in AllLinks(o) && Pair(l, b.proxy)
  {
    hide *;
    forall l | l in AllLinks(o) ensures exists b :: b in AllOutbounds(o) && Pair(l, b.proxy) {
      var b := EveryLinkHasOutbound(o, l);
    }
    forall b | b in AllOutbounds(o) ensures exists l :: l in AllLinks(o) && Pair(l, b.proxy) {
      var l := EveryOutboundHasLink(o, b);
    }
  }
}
