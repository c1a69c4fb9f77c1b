/** What a client is given, by the names that settings and clients use: which link exists when,
    and which transport, path and port stands behind each key. */
module Access {
  import opened Wrappers
  import opened Decimal
  import opened Names
  import opened Policy
  import opened ServerConfig
  import opened Links
  import opened ClientConfig

  // ---------- which links there are ----------

  /** On for everybody, and on the client's list if there is one. */
  predicate Given(o: LinkOpts, key: string) {
    key in o.global && o.global[key] && (o.overrides != [] ==> key in o.overrides)
  }

  /** The built-in links, in order: each exactly when its protocol is given; Reality also needs
      a public host, port and key. */
  lemma BuiltinLinksExactly(o: LinkOpts)
    ensures WsLink(o) in BuiltinLinks(o) <==> Given(o, "vless-ws")
    ensures XhttpLink(o) in BuiltinLinks(o) <==> Given(o, "vless-xhttp")
    ensures HuLink(o) in BuiltinLinks(o) <==> Given(o, "vless-hu")
    ensures VmessLink(o) in BuiltinLinks(o) <==> Given(o, "vmess-ws")
    ensures TrojanLink(o) in BuiltinLinks(o) <==> Given(o, "trojan-ws")
    ensures RealityLink(o) in BuiltinLinks(o) <==>
              Given(o, "vless-reality") && o.cfg.tcpHost != "" && o.cfg.tcpPort != "" && o.pub != ""
  {
    KeysOfLinks(o);
    hide WsLink, XhttpLink, HuLink, VmessLink, TrojanLink, RealityLink, Chosen;
    var items := BuiltinCandidates(o);
    forall i, j | 0 <= i < 6 && 0 <= j < 6 && i != j ensures items[i] != items[j] { assert items[i].key != items[j].key; }
    forall i | 0 <= i < 6 ensures items[i] in BuiltinLinks(o) <==> LinkGrants(o)[i] { ChosenExactly(LinkGrants(o), items, items[i]); }
    assert items[0] == WsLink(o) && items[1] == XhttpLink(o) && items[2] == HuLink(o);
    assert items[3] == VmessLink(o) && items[4] == TrojanLink(o) && items[5] == RealityLink(o);
  }

  lemma KeysOfLinks(o: LinkOpts)
    ensures WsLink(o).key == "vless-ws" && XhttpLink(o).key == "vless-xhttp" && HuLink(o).key == "vless-hu"
    ensures VmessLink(o).key == "vmess-ws" && TrojanLink(o).key == "trojan-ws" && RealityLink(o).key == "vless-reality"
  {
    hide FmtName, TlsHead, RealityHead, BuiltinRealityTail;
  }

  /** The port is the one the second TCP proxy forwards to. */
  predicate Mapped(ib: CustomInbound, cfg: Config) { cfg.tcp2Host != "" && cfg.tcp2Port != "" && ib.port == cfg.tcp2AppPort }

  /** No main TCP proxy is set. */
  predicate Direct(cfg: Config) { cfg.tcpHost == "" || cfg.tcpPort == "" }

  /** A custom inbound has a link exactly when the client has no list or its tag is on it, and,
      for Reality, the public key is set and its port is mapped or reached directly. */
  lemma {:induction false} CustomLinkExactly(o: LinkOpts, customs: seq<CustomInbound>, l: Link)
    ensures l in CustomLinks(o, customs) <==>
      exists i :: 0 <= i < |customs|
        && (o.overrides != [] ==> customs[i].tag in o.overrides)
        && (customs[i].security == "reality" ==> o.pub != "" && (Mapped(customs[i], o.cfg) || Direct(o.cfg)))
        && l == CustomLink(customs[i], o)
  {
    hide CustomShare, PortText;
    if customs != [] {
      var n := |customs| - 1;
      CustomLinkExactly(o, customs[..n], l);
      assert forall i :: 0 <= i < n ==> customs[..n][i] == customs[i];
    }
  }

  /** Where a Reality inbound is reached. */
  lemma RealityEndpointExactly(ib: CustomInbound, cfg: Config, addr: string)
    requires ib.port >= 0
    ensures Mapped(ib, cfg) ==> RealityEndpoint(ib, cfg, addr) == Some((cfg.tcp2Host, cfg.tcp2Port))
    ensures !Mapped(ib, cfg) && Direct(cfg) ==> RealityEndpoint(ib, cfg, addr) == Some((addr, DecimalText(ib.port)))
    ensures !Mapped(ib, cfg) && !Direct(cfg) ==> RealityEndpoint(ib, cfg, addr) == None
  {
  }

  // ---------- what stands behind a key ----------

  predicate Behind(p: Proxy, key: string, protocol: string, network: string, path: string, service: string) {
    && p.key == key && p.protocol == protocol && p.stream.network == network && p.stream.path == path && p.stream.service == service
  }

  /** The built-in outbounds: transport and path by key, all over TLS at the public address. */
  lemma BuiltinsBehind(o: LinkOpts)
    ensures Behind(WsProxy(o), "vless-ws", "vless", "ws", o.cfg.wsPath + "?ed=2048", "")
    ensures Behind(XhttpProxy(o), "vless-xhttp", "vless", "xhttp", o.cfg.xhttpPath, "")
    ensures Behind(HuProxy(o), "vless-hu", "vless", "httpupgrade", o.cfg.huPath, "")
    ensures Behind(VmessProxy(o), "vmess-ws", "vmess", "ws", o.cfg.vmessPath + "?ed=2048", "")
    ensures Behind(TrojanProxy(o), "trojan-ws", "trojan", "ws", o.cfg.trojanPath + "?ed=2048", "")
    ensures o.cfg.realityNet == "grpc" ==> Behind(RealityProxy(o), "vless-reality", "vless", "grpc", "", o.cfg.realitySvc)
    ensures o.cfg.realityNet != "grpc" ==> Behind(RealityProxy(o), "vless-reality", "vless", "tcp", "", "")
    ensures RealityProxy(o).stream.serverName == o.sni && RealityProxy(o).address == o.cfg.tcpHost
    ensures forall p :: p in [WsProxy(o), XhttpProxy(o), HuProxy(o), VmessProxy(o), TrojanProxy(o)] ==>
              p.stream.security == "tls" && p.stream.serverName == o.addr && p.address == o.addr && p.port == 443 && p.id == o.clientId
              && p.stream.mode == (if p.stream.network == "xhttp" then "packet-up" else "") && p.flow == ""
    ensures RealityProxy(o).stream.mode == "" && RealityProxy(o).stream.security == "reality" && RealityProxy(o).id == o.clientId
  {
    hide JsonPort;
  }

  /** The custom outbounds, for every combination that can be stored. */
  lemma CustomBehind(ib: CustomInbound, o: LinkOpts)
    requires WellFormed(ib) && Reachable(ib, o)
    ensures
      var p := CustomProxy(ib, o);
      && Behind(p, ib.tag, ib.protocol, ib.network, if ib.network == "grpc" || ib.network == "tcp" then "" else ib.path,
                if ib.network == "grpc" then Unslashed(ib.path) else "")
      && p.id == o.clientId && p.stream.security == ib.security
      && p.stream.serverName == (if ib.security == "reality" then ib.sni else o.addr)
      && (ib.security == "tls" ==> p.address == o.addr && p.port == 443)
      && p.stream.mode == (if ib.network == "xhttp" then "packet-up" else "")
  {
    hide RealityEndpoint, JsonPort, Unslashed, AlpnText;
  }

  /** The port each built-in inbound listens on, by tag. */
  lemma BuiltinListeners(cfg: Config, snap: Snapshot)
    ensures WsInbound(cfg, snap).tag == "vless-ws" && WsInbound(cfg, snap).port == 10001
    ensures XhttpInbound(cfg, snap).tag == "vless-xhttp" && XhttpInbound(cfg, snap).port == 10002
    ensures VmessInbound(cfg, snap).tag == "vmess-ws" && VmessInbound(cfg, snap).port == 10004
    ensures TrojanInbound(cfg, snap).tag == "trojan-ws" && TrojanInbound(cfg, snap).port == 10005
    ensures HuInbound(cfg, snap).tag == "vless-hu" && HuInbound(cfg, snap).port == 10006
    ensures RealityInbound(cfg, snap).tag == "vless-reality" && RealityInbound(cfg, snap).port == cfg.appPort
    ensures ApiInbound(cfg).port == cfg.apiPort && ApiInbound(cfg).accounts == [] && ApiInbound(cfg).tag == "api"
    ensures ApiInbound(cfg).protocol == "dokodemo-door" && ApiInbound(cfg).stream == ServerStream("", "", "", "", "")
  {
    hide AccountsFor;
  }

  // ---------- tags ----------

  predicate TagOf(b: Outbound) { b.tag == "proxy" || b.tag == "alt-" + b.proxy.key }

  predicate OneMain(bs: seq<Outbound>) { forall j :: 1 <= j < |bs| ==> bs[j].tag != "proxy" }

  lemma {:induction false} CustomTags(o: LinkOpts, granted: seq<CustomInbound>, used: nat)
    ensures var bs := CustomOutbounds(o, granted, used);
            && (forall i :: 0 <= i < |bs| ==> TagOf(bs[i])) && OneMain(bs)
            && (used > 0 ==> forall i :: 0 <= i < |bs| ==> bs[i].tag != "proxy")
  {
    hide CustomProxy;
    if granted != [] {
      var k := |granted| - 1;
      CustomTags(o, granted[..k], used);
      AltTag(used + k, granted[k].tag);
      KeyOfCustom(granted[k], o);
    }
  }

  lemma AltTag(order: nat, base: string)
    ensures TagFor(order, base) == if order == 0 then "proxy" else "alt-" + base
    ensures order > 0 ==> TagFor(order, base) != "proxy"
  {
    if order > 0 { assert TagFor(order, base)[0] == 'a'; }
  }

  lemma KeyOfCustom(ib: CustomInbound, o: LinkOpts)
    ensures Reachable(ib, o) ==> CustomProxy(ib, o).key == ib.tag
  {
    hide RealityEndpoint, CustomRealityStream, CustomTlsStream, JsonPort;
  }

  /** Xray needs different tags: at most one outbound is "proxy", every other one is named after
      its key, so outbounds with different keys have different tags. */
  lemma TagsApart(o: LinkOpts, i: nat, j: nat)
    requires i < j < |AllOutbounds(o)| && AllOutbounds(o)[i].proxy.key != AllOutbounds(o)[j].proxy.key
    ensures AllOutbounds(o)[i].tag != AllOutbounds(o)[j].tag && TagOf(AllOutbounds(o)[i]) && TagOf(AllOutbounds(o)[j])
    ensures AllOutbounds(o)[j].tag != "proxy"
  {
    hide BuiltinProxies, CustomOutbounds, GrantedCustoms, TagFor;
    var ps, granted := BuiltinProxies(o), GrantedCustoms(o.overrides, o.customs);
    CustomTags(o, granted, |ps|);
    forall k | 0 <= k < |ps| ensures TagOf(Tagged(ps)[k]) && (k > 0 ==> Tagged(ps)[k].tag != "proxy") { AltTag(k, ps[k].key); }
    var x, y := AllOutbounds(o)[i], AllOutbounds(o)[j];
    assert TagOf(x) && TagOf(y) && y.tag != "proxy";
    if x.tag == "alt-" + x.proxy.key { assert x.tag[4..] == x.proxy.key && y.tag[4..] == y.proxy.key; }
  }

  // ---------- display names ----------

  /** The first eight characters of the client id. */
  predicate ShortId(o: LinkOpts, s: string) { s <= o.clientId && |s| == if |o.clientId| < 8 then |o.clientId| else 8 }

  /** The display name is the template, filled in with these values. */
  ghost predicate Filled(o: LinkOpts, name: string, caption: string, proto: string, net: string, sec: string, server: string) {
    exists short :: ShortId(o, short) && name == FmtName(o.cfgFmt, Naming(o.clientName, caption, proto, net, sec, server, short, o.date))
  }

  lemma NameFilled(o: LinkOpts, caption: string, proto: string, net: string, sec: string, server: string)
    ensures Filled(o, o.Name(caption, proto, net, sec, server), caption, proto, net, sec, server)
  {
    hide FmtName;
    assert ShortId(o, o.Uuid8());
  }

  /** What the built-in links are called. */
  lemma BuiltinNamesFilled(o: LinkOpts)
    ensures Filled(o, WsLink(o).share.name, "VLESS-WS", "VLESS", "WS", "TLS", o.addr)
    ensures Filled(o, XhttpLink(o).share.name, "VLESS-XHTTP", "VLESS", "XHTTP", "TLS", o.addr)
    ensures Filled(o, HuLink(o).share.name, "VLESS-HTTPUpgrade", "VLESS", "HTTPUpgrade", "TLS", o.addr)
    ensures VmessLink(o).share.VMess? && Filled(o, VmessLink(o).share.fields.ps, "VMess-WS", "VMESS", "WS", "TLS", o.addr)
    ensures Filled(o, TrojanLink(o).share.name, "Trojan-WS", "TROJAN", "WS", "TLS", o.addr)
    ensures o.cfg.realityNet == "grpc" ==> Filled(o, RealityLink(o).share.name, "VLESS-Reality-gRPC", "VLESS", "grpc", "REALITY", o.cfg.tcpHost)
    ensures o.cfg.realityNet != "grpc" ==> Filled(o, RealityLink(o).share.name, "VLESS-Reality-TCP", "VLESS", "tcp", "REALITY", o.cfg.tcpHost)
  {
    hide Filled, FmtName, TlsHead, RealityHead, BuiltinRealityTail;
    NameFilled(o, "VLESS-WS", "VLESS", "WS", "TLS", o.addr);
    NameFilled(o, "VLESS-XHTTP", "VLESS", "XHTTP", "TLS", o.addr);
    NameFilled(o, "VLESS-HTTPUpgrade", "VLESS", "HTTPUpgrade", "TLS", o.addr);
    NameFilled(o, "VMess-WS", "VMESS", "WS", "TLS", o.addr);
    NameFilled(o, "Trojan-WS", "TROJAN", "WS", "TLS", o.addr);
    assert "VLESS-Reality-" + "gRPC" == "VLESS-Reality-gRPC" && "VLESS-Reality-" + "TCP" == "VLESS-Reality-TCP";
    NameFilled(o, "VLESS-Reality-gRPC", "VLESS", "grpc", "REALITY", o.cfg.tcpHost);
    NameFilled(o, "VLESS-Reality-TCP", "VLESS", "tcp", "REALITY", o.cfg.tcpHost);
  }

  /** The same letters in upper case. */
  predicate Capitals(s: string, t: string) {
    |s| == |t| && forall i :: 0 <= i < |s| ==> t[i] == if 'a' <= s[i] <= 'z' then (s[i] as int - 32) as char else s[i]
  }

  /** A custom link is called after its inbound, in capitals. */
  lemma CustomNameFilled(ib: CustomInbound, o: LinkOpts)
    requires Reachable(ib, o)
    ensures
      var s := CustomShare(ib, o);
      var name := match s case Uri(_, _, _, _, _, n) => n case VMess(f) => f.ps;
      exists proto, net, sec :: Capitals(ib.protocol, proto) && Capitals(ib.network, net) && Capitals(ib.security, sec)
        && Filled(o, name, ib.name, proto, net, sec, o.addr)
  {
    hide Filled, FmtName, TlsHead, RealityHead, RealityTail, TlsTail, RealityEndpoint;
    NameFilled(o, ib.name, Upper(ib.protocol), Upper(ib.network), Upper(ib.security), o.addr);
    assert Capitals(ib.protocol, Upper(ib.protocol)) && Capitals(ib.network, Upper(ib.network)) && Capitals(ib.security, Upper(ib.security));
  }
}
