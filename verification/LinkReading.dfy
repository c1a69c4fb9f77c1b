/** The reading lemmas applied to the links that `BuildLinks` hands out. */
module LinkReading {
  import opened Wrappers
  import opened Decimal
  import opened Encoding
  import opened Names
  import opened Policy
  import opened ServerConfig
  import opened Links
  import opened Endpoints
  import opened LinkText

  /** Ids are UUIDs and hosts are DNS names or IPv4 addresses: unreserved characters only.
      Port settings have passed `portOrEmpty`. Names, templates and paths are arbitrary. */
  predicate Clean(o: LinkOpts) {
    && o.clientId != "" && Unreserved(o.clientId) && o.addr != "" && Unreserved(o.addr)
    && Unreserved(o.cfg.tcpHost) && Unreserved(o.cfg.tcp2Host)
    && PortOrEmpty(o.cfg.tcpPort) == o.cfg.tcpPort && PortOrEmpty(o.cfg.tcp2Port) == o.cfg.tcp2Port
    && AllWellFormed(o.customs)
  }

  /** Digits, and maybe a sign. */
  predicate SignedDigits(v: string) { forall i :: 0 <= i < |v| ==> IsDigit(v[i]) || v[i] == '+' || v[i] == '-' }

  predicate CleanShare(s: Share) {
    s.Uri? ==>
      && (s.scheme == "vless" || s.scheme == "trojan")
      && s.id != "" && Unreserved(s.id) && s.host != "" && Unreserved(s.host)
      && s.port != "" && SignedDigits(s.port) && ParamsOk(s.params) && |s.params| >= 1
  }

  lemma PlainWords()
    ensures Unreserved("none") && Unreserved("tls") && Unreserved("reality") && Unreserved("chrome") && Unreserved(VISION)
    ensures Unreserved("packet-up") && Unreserved("auto") && Unreserved("gun")
    ensures Unreserved("ws") && Unreserved("xhttp") && Unreserved("httpupgrade") && Unreserved("grpc") && Unreserved("tcp")
  {
  }

  lemma ParamsConcat(a: seq<Param>, b: seq<Param>)
    requires ParamsOk(a) && ParamsOk(b)
    ensures ParamsOk(a + b)
  {
  }

  lemma TlsHeadOk(vless: bool, addr: string, alpn: string, network: string)
    requires Unreserved(network)
    ensures ParamsOk(TlsHead(vless, addr, alpn, network))
  {
    PlainWords();
  }

  lemma RealityHeadOk(o: LinkOpts, sni: string)
    ensures ParamsOk(RealityHead(o, sni))
  {
    PlainWords();
  }

  lemma NetworkOk(ib: CustomInbound)
    requires WellFormed(ib)
    ensures Unreserved(ib.network)
  {
    PlainWords();
  }

  lemma TailsOk(ib: CustomInbound)
    requires WellFormed(ib)
    ensures ParamsOk(RealityTail(ib)) && ParamsOk(TlsTail(ib))
  {
    PlainWords();
    NetworkOk(ib);
  }

  lemma BuiltinTailOk(net: string, service: string)
    ensures ParamsOk(BuiltinRealityTail(net, service))
  {
    PlainWords();
  }

  lemma AcceptedPortText(v: string)
    requires PortOrEmpty(v) == v
    ensures SignedDigits(v)
  {
    if v != "" && (v[0] == '+' || v[0] == '-') { assert v == [v[0]] + v[1..]; }
  }

  lemma DigitsClean(n: nat)
    ensures SignedDigits(DecimalText(n)) && DecimalText(n) != ""
  {
  }

  lemma Port443Digits()
    ensures SignedDigits("443")
  {
  }

  lemma HeadAndTail(vless: bool, o: LinkOpts, network: string, alpn: string, tail: seq<Param>)
    requires Unreserved(network) && ParamsOk(tail)
    ensures ParamsOk(TlsHead(vless, o.addr, alpn, network) + tail) && |TlsHead(vless, o.addr, alpn, network) + tail| >= 1
  {
    TlsHeadOk(vless, o.addr, alpn, network);
    ParamsConcat(TlsHead(vless, o.addr, alpn, network), tail);
  }

  lemma BuiltinTlsClean(o: LinkOpts)
    requires Clean(o)
    ensures CleanShare(WsLink(o).share) && CleanShare(XhttpLink(o).share) && CleanShare(HuLink(o).share)
    ensures CleanShare(VmessLink(o).share) && CleanShare(TrojanLink(o).share)
  {
    hide FmtName, TlsHead;
    PlainWords();
    Port443Digits();
    HeadAndTail(true, o, "ws", "http/1.1", [Quoted(Path, o.cfg.wsPath + ED)]);
    HeadAndTail(true, o, "xhttp", "h2,http/1.1", [Quoted(Path, o.cfg.xhttpPath), Plain(Mode, "packet-up")]);
    HeadAndTail(true, o, "httpupgrade", "http/1.1", [Quoted(Path, o.cfg.huPath)]);
    HeadAndTail(false, o, "ws", "http/1.1", [Quoted(Path, o.cfg.trojanPath + ED)]);
  }

  lemma RealityClean(o: LinkOpts)
    requires Clean(o) && o.TcpReady()
    ensures CleanShare(RealityLink(o).share)
  {
    hide FmtName, RealityHead, BuiltinRealityTail;
    var net := RealityNet(o.cfg.realityNet);
    RealityHeadOk(o, o.sni);
    BuiltinTailOk(net, o.cfg.realitySvc);
    ParamsConcat(RealityHead(o, o.sni), BuiltinRealityTail(net, o.cfg.realitySvc));
    AcceptedPortText(o.cfg.tcpPort);
    HeadLength(o, o.sni);
  }

  lemma HeadLength(o: LinkOpts, sni: string)
    ensures |RealityHead(o, sni)| == 6
  {
  }

  lemma BuiltinClean(o: LinkOpts, i: nat)
    requires Clean(o) && i < 6 && LinkGrants(o)[i]
    ensures CleanShare(BuiltinCandidates(o)[i].share)
  {
    hide Clean, CleanShare, WsLink, XhttpLink, HuLink, VmessLink, TrojanLink, RealityLink;
    if i < 5 { BuiltinTlsClean(o); } else { RealityClean(o); }
  }

  lemma CustomRealityClean(ib: CustomInbound, o: LinkOpts)
    requires Clean(o) && WellFormed(ib) && Reachable(ib, o) && ib.security == "reality"
    ensures CleanShare(CustomShare(ib, o))
  {
    hide FmtName, RealityHead, RealityTail;
    RealityHeadOk(o, ib.sni);
    TailsOk(ib);
    ParamsConcat(RealityHead(o, ib.sni), RealityTail(ib));
    HeadLength(o, ib.sni);
    AcceptedPortText(o.cfg.tcp2Port);
    DigitsClean(ib.port);
  }

  lemma CustomTlsClean(ib: CustomInbound, o: LinkOpts)
    requires Clean(o) && WellFormed(ib) && ib.security != "reality"
    ensures CleanShare(CustomShare(ib, o))
  {
    hide FmtName, TlsHead, TlsTail;
    NetworkOk(ib);
    TailsOk(ib);
    Port443Digits();
    HeadAndTail(ib.protocol == "vless", o, ib.network, AlpnText(ib.network), TlsTail(ib));
  }

  /** Every link that is not VMess has a clean scheme, id, host, port and parameter list. */
  lemma LinksAreClean(o: LinkOpts, l: Link)
    requires Clean(o) && l in AllLinks(o)
    ensures CleanShare(l.share)
  {
    hide CleanShare, WsLink, XhttpLink, HuLink, VmessLink, TrojanLink, RealityLink, CustomShare;
    if l in BuiltinLinks(o) {
      ChosenExactly(LinkGrants(o), BuiltinCandidates(o), l);
      var i: nat :| i < 6 && LinkGrants(o)[i] && BuiltinCandidates(o)[i] == l;
      BuiltinClean(o, i);
    } else {
      var ib := CustomLinkSound(o, o.customs, l);
      var i :| 0 <= i < |o.customs| && o.customs[i] == ib;
      if ib.security == "reality" { CustomRealityClean(ib, o); } else { CustomTlsClean(ib, o); }
    }
  }

  // ---------- what readers get ----------

  lemma CleanIsReadable(s: Share)
    requires CleanShare(s) && s.Uri?
    ensures Printable(s)
    ensures |s.scheme| > 0 && Every(s.scheme, Lower) && |s.id| > 0 && Every(s.id, UserChar)
    ensures |s.host| > 0 && Every(s.host, HostChar) && forall i :: 0 <= i < |s.port| ==> !Stop(s.port[i])
  {
    assert Every("vless", Lower) && Every("trojan", Lower);
    forall i | 0 <= i < |s.id| ensures s.id[i] != '@' && s.id[i] != '/' { assert QuoteSafe(s.id[i]); }
    forall i | 0 <= i < |s.host| ensures HostChar(s.host[i]) { assert QuoteSafe(s.host[i]); }
  }

  /** What a reader makes of the printed link is what was printed; `linkHost` shows a dash for
      a port with a sign. */
  predicate ReadsBack(s: Share, json: VMessFields -> string)
    requires s.Uri?
  {
    && ParseLink(Text(s, json)) == Some(Parsed(s.scheme, s.id, s.host, s.port, ParamPairs(s.params), Some(s.name)))
    && LinkHost(Text(s, json)) == (if AllDigits(s.port) then s.host + ":" + s.port else NO_HOST)
    && LinkLabel(Text(s, json)) == s.name
  }

  /** A link that `BuildLinks` prints reads back field by field, `linkHost` shows its host and
      port exactly when the port is all digits, and `linkLabel` its display name. */
  lemma LinksReadBack(o: LinkOpts, json: VMessFields -> string)
    requires Clean(o)
    ensures forall l :: l in AllLinks(o) && l.share.Uri? ==> ReadsBack(l.share, json)
  {
    forall l | l in AllLinks(o) && l.share.Uri? ensures ReadsBack(l.share, json) {
      hide Clean, AllLinks, CleanShare, Printable, Every, ParseLink, LinkHost, LinkLabel, Text, ParamPairs;
      LinksAreClean(o, l);
      CleanIsReadable(l.share);
      LinkRoundTrip(l.share, json);
      LinkHostOfText(l.share, json);
      LinkLabelOfText(l.share, json);
    }
  }

  lemma TextNewlineFree(s: Share, json: VMessFields -> string)
    requires CleanShare(s)
    ensures '\n' !in Text(s, json)
  {
    hide Quote, QueryText, Base64, Utf8;
    match s
    case Uri(scheme, id, host, port, params, name) =>
      assert '\n' !in id && '\n' !in host;
      QueryShape(params);
      QuoteHasNo(name, '\n');
      assert '\n' !in QueryText(params);
      assert '\n' !in scheme && '\n' !in port;
    case VMess(fields) =>
      Base64NewlineFree(Utf8(json(fields)));
  }

  /** For every client with at least one link, decoding the subscription body and splitting
      it on newlines returns exactly the links, in order; an empty list reads as one empty line. */
  lemma SubscriptionRoundTrip(o: LinkOpts, json: VMessFields -> string)
    requires Clean(o)
    ensures
      var urls := Texts(AllLinks(o), json);
      BodyLines(Base64(Utf8(Join(urls, '\n')))) == Some(urls) <==> AllLinks(o) != []
  {
    hide Text, CleanShare, AllLinks, BodyLines, Clean;
    var links := AllLinks(o);
    var urls := Texts(links, json);
    forall i | 0 <= i < |urls| ensures '\n' !in urls[i] {
      LinksAreClean(o, links[i]);
      TextNewlineFree(links[i].share, json);
    }
    BodyRoundTripExactly(urls);
  }
}
