/** Where link and client JSON do differ, and exactly when; each time with an input. */
module Divergence {
  import opened Decimal
  import opened Encoding
  import opened Names
  import opened Policy
  import opened ServerConfig
  import opened Links
  import opened ClientConfig
  import opened Endpoints

  /** Whoever reads this field of the share gets `v`; VMess keeps it in its record. */
  predicate SaysAlpn(share: Share, v: string) {
    match share case Uri(_, _, _, _, ps, _) => Reads(ps, Alpn, v) case VMess(f) => f.alpn == v
  }

  predicate SaysHost(share: Share, v: string) {
    match share case Uri(_, _, _, _, ps, _) => Reads(ps, Host, v) case VMess(f) => f.host == v
  }

  // ---------- xhttp mode ----------

  /** The xhttp mode: links of Reality inbounds say "auto", the client JSON "packet-up". */
  lemma XhttpModeAgreesExactly(ib: CustomInbound, o: LinkOpts)
    requires WellFormed(ib) && Reachable(ib, o) && ib.network == "xhttp"
    ensures CustomShare(ib, o).Uri?
    ensures Reads(CustomShare(ib, o).params, Mode, CustomProxy(ib, o).stream.mode) <==> ib.security != "reality"
  {
    hide FmtName, TlsHead, RealityHead;
    if ib.security == "reality" {
      var head, tail := RealityHead(o, ib.sni), RealityTail(ib);
      assert (head + tail)[|head| + 2] == tail[2];
    } else {
      var head, tail := TlsHead(ib.protocol == "vless", o.addr, AlpnText("xhttp"), "xhttp"), TlsTail(ib);
      HeadSilent(ib.protocol == "vless", o.addr, AlpnText("xhttp"), "xhttp");
      assert tail[1].field == Mode;
      ReadsRight(head, tail, Mode, "packet-up");
    }
  }

  lemma HeadSilent(vless: bool, addr: string, alpn: string, network: string)
    ensures Silent(TlsHead(vless, addr, alpn, network), Mode)
    ensures Reads(TlsHead(vless, addr, alpn, network), Alpn, alpn)
    ensures Reads(TlsHead(vless, addr, alpn, network), Host, addr)
  {
    var ps := TlsHead(vless, addr, alpn, network);
    assert ps[if vless then 4 else 3].field == Alpn && ps[|ps| - 1].field == Host;
  }

  // ---------- ALPN ----------

  lemma TwoProtocols()
    ensures Split("h2,http/1.1", ',') == ["h2", "http/1.1"]
  {
    hide Split;
    SplitPrefix("h2", "http/1.1", ',');
    SplitClean("http/1.1", ',');
    assert "h2" + [','] + "http/1.1" == "h2,http/1.1";
  }

  lemma AlpnList(network: string)
    requires OneOf(network, ["ws", "xhttp", "httpupgrade", "grpc"])
    ensures [AlpnText(network)] == Split(AlpnText(network), ',') <==> network != "xhttp"
  {
    if network == "xhttp" {
      TwoProtocols();
    } else {
      SplitClean(AlpnText(network), ',');
    }
  }

  /** What a TLS link says besides its transport: the protocol list and the host. */
  lemma TlsLinkSays(ib: CustomInbound, o: LinkOpts)
    requires WellFormed(ib) && ib.security == "tls"
    ensures SaysAlpn(CustomShare(ib, o), AlpnText(ib.network)) && SaysHost(CustomShare(ib, o), o.addr)
  {
    hide FmtName, TlsHead, AlpnText;
    if ib.protocol != "vmess" {
      var head, tail := TlsHead(ib.protocol == "vless", o.addr, AlpnText(ib.network), ib.network), TlsTail(ib);
      HeadSilent(ib.protocol == "vless", o.addr, AlpnText(ib.network), ib.network);
      ReadsLeft(head, tail, Alpn, AlpnText(ib.network));
      ReadsLeft(head, tail, Host, o.addr);
    }
  }

  /** The protocols a client offers: a link lists them with commas, the client JSON of a
      custom inbound puts the whole list into one string. */
  lemma AlpnAgreesExactly(ib: CustomInbound, o: LinkOpts)
    requires WellFormed(ib) && ib.security == "tls"
    ensures SaysAlpn(CustomShare(ib, o), AlpnText(ib.network))
    ensures CustomProxy(ib, o).stream.alpn == Split(AlpnText(ib.network), ',') <==> ib.network != "xhttp"
  {
    hide CustomShare, SaysAlpn, AlpnText, Split;
    TlsLinkSays(ib, o);
    AlpnList(ib.network);
  }

  /** The built-in xhttp outbound offers the same protocols as its link. */
  lemma BuiltinAlpnAgrees(o: LinkOpts)
    ensures SaysAlpn(XhttpLink(o).share, "h2,http/1.1")
    ensures XhttpProxy(o).stream.alpn == Split("h2,http/1.1", ',')
  {
    hide FmtName, TlsHead, Split;
    var tail := [Quoted(Path, o.cfg.xhttpPath), Plain(Mode, "packet-up")];
    HeadSilent(true, o.addr, "h2,http/1.1", "xhttp");
    ReadsLeft(TlsHead(true, o.addr, "h2,http/1.1", "xhttp"), tail, Alpn, "h2,http/1.1");
    TwoProtocols();
  }

  // ---------- host ----------

  lemma RealityHasNoHost(o: LinkOpts, sni: string, tail: seq<Param>)
    requires Silent(tail, Host)
    ensures Silent(RealityHead(o, sni) + tail, Host)
  {
    assert Silent(RealityHead(o, sni), Host);
  }

  /** The HTTP host: the link of a Reality xhttp inbound has none where the JSON has the SNI,
      and the link of a TLS gRPC inbound has one where the JSON has none. */
  lemma HostAgreesExactly(ib: CustomInbound, o: LinkOpts)
    requires WellFormed(ib) && Reachable(ib, o)
    ensures SaysHost(CustomShare(ib, o), CustomProxy(ib, o).stream.host)
       <==> !(ib.security == "reality" && ib.network == "xhttp" && ib.sni != "")
            && !(ib.security == "tls" && ib.network == "grpc" && o.addr != "")
  {
    hide FmtName, RealityHead, TlsHead, TlsTail, AlpnText;
    if ib.security == "reality" {
      RealityHasNoHost(o, ib.sni, RealityTail(ib));
    } else {
      TlsLinkSays(ib, o);
      if ib.protocol != "vmess" { OneValue(CustomShare(ib, o).params, Host, o.addr, CustomProxy(ib, o).stream.host); }
    }
  }

  /** A field that is present reads as one value only. */
  lemma OneValue(ps: seq<Param>, f: Field, v: string, w: string)
    requires Reads(ps, f, v)
    ensures v != "" ==> (Reads(ps, f, w) <==> v == w)
    ensures v == w ==> Reads(ps, f, w)
  {
  }

  /** All built-in links and outbounds name the same host. */
  lemma BuiltinHostsAgree(o: LinkOpts)
    ensures SaysHost(WsLink(o).share, WsProxy(o).stream.host) && SaysHost(XhttpLink(o).share, XhttpProxy(o).stream.host)
    ensures SaysHost(HuLink(o).share, HuProxy(o).stream.host) && SaysHost(VmessLink(o).share, VmessProxy(o).stream.host)
    ensures SaysHost(TrojanLink(o).share, TrojanProxy(o).stream.host) && SaysHost(RealityLink(o).share, RealityProxy(o).stream.host)
  {
    hide FmtName, TlsHead, RealityHead, JsonPort;
    TlsHost(true, o.addr, "http/1.1", "ws", [Quoted(Path, o.cfg.wsPath + ED)]);
    TlsHost(true, o.addr, "h2,http/1.1", "xhttp", [Quoted(Path, o.cfg.xhttpPath), Plain(Mode, "packet-up")]);
    TlsHost(true, o.addr, "http/1.1", "httpupgrade", [Quoted(Path, o.cfg.huPath)]);
    TlsHost(false, o.addr, "http/1.1", "ws", [Quoted(Path, o.cfg.trojanPath + ED)]);
    var net := RealityNet(o.cfg.realityNet);
    RealityHasNoHost(o, o.sni, BuiltinRealityTail(net, o.cfg.realitySvc));
  }

  lemma TlsHost(vless: bool, addr: string, alpn: string, network: string, tail: seq<Param>)
    requires Silent(tail, Host)
    ensures Reads(TlsHead(vless, addr, alpn, network) + tail, Host, addr)
  {
    hide TlsHead;
    HeadSilent(vless, addr, alpn, network);
    ReadsLeft(TlsHead(vless, addr, alpn, network), tail, Host, addr);
  }

  // ---------- inputs that differ ----------

  /** A panel without TCP proxies, and inbounds that `createInbound` stores. */
  function SampleOpts(): LinkOpts {
    LinkOpts("id", "name", [], "host.example", "sni.example", "", "", map[], "pub", "sid",
             Config(443, 10085, "8080", "/ws", "/xh", "/hu", "/vm", "/tr", "tcp", "svc", "sni.example", "", "", "", "", 0), [])
  }

  function RealityXhttp(): CustomInbound {
    CustomInbound("ib-1", "a", "vless", "xhttp", "reality", 8443, 0, "/abc", "sni.example")
  }

  function TlsOver(network: string): CustomInbound { CustomInbound("ib-2", "b", "vless", network, "tls", 0, 10100, "/abc", "") }

  lemma XhttpModeDiverges()
    ensures var ib, o := RealityXhttp(), SampleOpts();
            WellFormed(ib) && Reachable(ib, o) && CustomShare(ib, o).Uri?
            && !Reads(CustomShare(ib, o).params, Mode, CustomProxy(ib, o).stream.mode)
  {
    hide CustomShare, CustomProxy, Reads, PortText;
    XhttpModeAgreesExactly(RealityXhttp(), SampleOpts());
  }

  lemma AlpnDiverges()
    ensures var ib, o := TlsOver("xhttp"), SampleOpts();
            WellFormed(ib) && SaysAlpn(CustomShare(ib, o), "h2,http/1.1") && CustomProxy(ib, o).stream.alpn != Split("h2,http/1.1", ',')
  {
    hide CustomShare, CustomProxy, SaysAlpn, Split;
    AlpnAgreesExactly(TlsOver("xhttp"), SampleOpts());
  }

  lemma HostDiverges()
    ensures forall ib :: ib == RealityXhttp() || ib == TlsOver("grpc") ==>
              var o := SampleOpts();
              WellFormed(ib) && Reachable(ib, o) && !SaysHost(CustomShare(ib, o), CustomProxy(ib, o).stream.host)
  {
    hide CustomShare, CustomProxy, SaysHost, PortText;
    HostAgreesExactly(RealityXhttp(), SampleOpts());
    HostAgreesExactly(TlsOver("grpc"), SampleOpts());
  }
}
