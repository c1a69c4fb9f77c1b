/** What a client reads in a printed link, under the names clients know ("security", "type",
    "sni", ...): the endpoint of the outbound that the client JSON pairs it with. */
module LinkFields {
  import opened Wrappers
  import opened Decimal
  import opened Encoding
  import opened Names
  import opened Policy
  import opened ServerConfig
  import opened Links
  import opened ClientConfig
  import opened Endpoints
  import opened LinkText
  import opened LinkReading

  // ---------- reading by name ----------

  /** Whoever looks up `key` in the query of the link gets `v`; an empty value may be absent. */
  predicate Says(text: string, key: string, v: string) {
    match ParseLink(text)
    case None => false
    case Some(link) =>
      && (forall i :: 0 <= i < |link.query| && link.query[i].Some? && link.query[i].value.0 == key ==> link.query[i].value.1 == v)
      && (v != "" ==> exists i :: 0 <= i < |link.query| && link.query[i] == Some((key, v)))
  }

  lemma FieldsDiffer(f: Field, g: Field)
    requires FieldText(f) == FieldText(g)
    ensures f == g
  {
  }

  lemma ReadsSays(s: Share, json: VMessFields -> string, f: Field, v: string)
    requires Printable(s) && Reads(s.params, f, v)
    ensures Says(Text(s, json), FieldText(f), v)
  {
    hide FieldText, ParseLink, Text;
    LinkRoundTrip(s, json);
    var ps := ParamPairs(s.params);
    forall i | 0 <= i < |ps| && ps[i].value.0 == FieldText(f) ensures ps[i].value.1 == v {
      FieldsDiffer(s.params[i].field, f);
    }
    if v != "" {
      var i :| 0 <= i < |s.params| && s.params[i].field == f;
      assert ps[i] == Some((FieldText(f), v));
    }
  }

  // ---------- the endpoint ----------

  /** The text names this outbound's endpoint. */
  predicate NamesEndpoint(text: string, p: Proxy) {
    && ParseLink(text).Some?
    && (var link := ParseLink(text).value;
        link.scheme == p.protocol && link.id == p.id && link.host == p.address && PortNumber(link.port) == p.port)
    && Says(text, "security", p.stream.security) && Says(text, "type", p.stream.network) && Says(text, "sni", p.stream.serverName)
    && Says(text, "path", p.stream.path) && Says(text, "serviceName", p.stream.service) && Says(text, "flow", p.flow)
  }

  lemma TextNamesEndpoint(s: Share, json: VMessFields -> string, p: Proxy)
    requires s.Uri? && Printable(s) && SameEndpoint(s, p)
    ensures NamesEndpoint(Text(s, json), p)
  {
    hide ParseLink, Text, Says, Reads, Printable, PortNumber;
    ReadsSays(s, json, Security, p.stream.security);
    ReadsSays(s, json, Type, p.stream.network);
    ReadsSays(s, json, Sni, p.stream.serverName);
    ReadsSays(s, json, Path, p.stream.path);
    ReadsSays(s, json, Service, p.stream.service);
    ReadsSays(s, json, Flow, p.flow);
    LinkRoundTrip(s, json);
  }

  // ---------- everything else ----------

  function AlpnOf(network: string): string {
    if network == "xhttp" then "h2,http/1.1" else if network == "grpc" then "h2" else "http/1.1"
  }

  function ModeOf(security: string, network: string): string {
    if network == "grpc" then "gun" else if network == "xhttp" then (if security == "tls" then "packet-up" else "auto") else ""
  }

  function HeaderTypeOf(security: string, network: string): string {
    if security == "reality" && network == "tcp" then "none" else ""
  }

  /** The parameters without a counterpart in `SameEndpoint`: browser fingerprint, VLESS
      encryption, mode, header type; keys for Reality; host and protocol list for TLS. */
  predicate Extras(ps: seq<Param>, o: LinkOpts, scheme: string, security: string, network: string) {
    && Reads(ps, Fp, "chrome") && Reads(ps, Encryption, if scheme == "vless" then "none" else "")
    && Reads(ps, Mode, ModeOf(security, network)) && Reads(ps, HeaderType, HeaderTypeOf(security, network))
    && Reads(ps, Pbk, if security == "reality" then o.pub else "") && Reads(ps, Sid, if security == "reality" then o.sid else "")
    && Reads(ps, Host, if security == "tls" then o.addr else "") && Reads(ps, Alpn, if security == "tls" then AlpnOf(network) else "")
  }

  predicate NamesExtras(text: string, o: LinkOpts, p: Proxy) {
    && Says(text, "fp", "chrome") && Says(text, "encryption", if p.protocol == "vless" then "none" else "")
    && Says(text, "mode", ModeOf(p.stream.security, p.stream.network))
    && Says(text, "headerType", HeaderTypeOf(p.stream.security, p.stream.network))
    && Says(text, "pbk", if p.stream.security == "reality" then o.pub else "")
    && Says(text, "sid", if p.stream.security == "reality" then o.sid else "")
    && Says(text, "host", if p.stream.security == "tls" then o.addr else "")
    && Says(text, "alpn", if p.stream.security == "tls" then AlpnOf(p.stream.network) else "")
  }

  lemma TextNamesExtras(s: Share, json: VMessFields -> string, o: LinkOpts, p: Proxy)
    requires s.Uri? && Printable(s) && s.scheme == p.protocol && Extras(s.params, o, s.scheme, p.stream.security, p.stream.network)
    ensures NamesExtras(Text(s, json), o, p)
  {
    hide ParseLink, Text, Says, Reads, Printable, AlpnOf, ModeOf, HeaderTypeOf;
    var sec, net := p.stream.security, p.stream.network;
    ReadsSays(s, json, Fp, "chrome");
    ReadsSays(s, json, Encryption, if s.scheme == "vless" then "none" else "");
    ReadsSays(s, json, Mode, ModeOf(sec, net));
    ReadsSays(s, json, HeaderType, HeaderTypeOf(sec, net));
    ReadsSays(s, json, Pbk, if sec == "reality" then o.pub else "");
    ReadsSays(s, json, Sid, if sec == "reality" then o.sid else "");
    ReadsSays(s, json, Host, if sec == "tls" then o.addr else "");
    ReadsSays(s, json, Alpn, if sec == "tls" then AlpnOf(net) else "");
  }

  // ---------- where the parameters come from ----------

  predicate SilentTail(tail: seq<Param>) {
    && Silent(tail, Fp) && Silent(tail, Encryption) && Silent(tail, Pbk) && Silent(tail, Sid) && Silent(tail, Host) && Silent(tail, Alpn)
    && Silent(tail, Security)
  }

  lemma TlsExtras(vless: bool, o: LinkOpts, network: string, tail: seq<Param>)
    requires SilentTail(tail) && Silent(tail, Type) && Silent(tail, HeaderType) && Reads(tail, Mode, ModeOf("tls", network))
    ensures var ps := TlsHead(vless, o.addr, AlpnOf(network), network) + tail;
            Extras(ps, o, if vless then "vless" else "trojan", "tls", network) && Reads(ps, Security, "tls") && Reads(ps, Type, network)
  {
    var head := TlsHead(vless, o.addr, AlpnOf(network), network);
    TlsHeadExtras(vless, o.addr, AlpnOf(network), network);
    TlsHeadReads(vless, o.addr, AlpnOf(network), network);
    hide TlsHead, Reads, Silent, AlpnOf, ModeOf;
    ReadsLeft(head, tail, Fp, "chrome");
    ReadsLeft(head, tail, Encryption, if vless then "none" else "");
    ReadsRight(head, tail, Mode, ModeOf("tls", network));
    ReadsLeft(head, tail, Pbk, "");
    ReadsLeft(head, tail, Sid, "");
    ReadsLeft(head, tail, Host, o.addr);
    ReadsLeft(head, tail, HeaderType, "");
    ReadsLeft(head, tail, Alpn, AlpnOf(network));
    ReadsLeft(head, tail, Security, "tls");
    ReadsLeft(head, tail, Type, network);
  }

  lemma TlsHeadExtras(vless: bool, addr: string, alpn: string, network: string)
    ensures
      var ps := TlsHead(vless, addr, alpn, network);
      && Reads(ps, Fp, "chrome") && Reads(ps, Encryption, if vless then "none" else "") && Silent(ps, Mode)
      && Reads(ps, Pbk, "") && Reads(ps, Sid, "") && Reads(ps, HeaderType, "") && Reads(ps, Host, addr) && Reads(ps, Alpn, alpn)
  {
    PlainHeadExtras(addr, alpn, network);
    var rest, head := TlsHead(false, addr, alpn, network), [Plain(Encryption, "none")];
    assert vless ==> TlsHead(vless, addr, alpn, network) == head + rest;
    hide TlsHead, Reads;
    if vless {
      ReadsAt(head, 0);
      ReadsLeft(head, rest, Encryption, "none");
      ReadsRight(head, rest, Fp, "chrome");
      ReadsRight(head, rest, Pbk, "");
      ReadsRight(head, rest, Sid, "");
      ReadsRight(head, rest, HeaderType, "");
      ReadsRight(head, rest, Host, addr);
      ReadsRight(head, rest, Alpn, alpn);
    }
  }

  lemma PlainHeadExtras(addr: string, alpn: string, network: string)
    ensures
      var ps := TlsHead(false, addr, alpn, network);
      && Reads(ps, Fp, "chrome") && Silent(ps, Encryption) && Silent(ps, Mode) && Reads(ps, Encryption, "")
      && Reads(ps, Pbk, "") && Reads(ps, Sid, "") && Reads(ps, HeaderType, "") && Reads(ps, Host, addr) && Reads(ps, Alpn, alpn)
  {
    PlainHead(addr, alpn, network);
    var ps := TlsHead(false, addr, alpn, network);
    hide TlsHead, Reads;
    SilentReads(ps);
    ReadsAt(ps, 2);
    ReadsAt(ps, 3);
    ReadsAt(ps, 5);
  }

  lemma RealityExtras(o: LinkOpts, sni: string, network: string, tail: seq<Param>)
    requires SilentTail(tail) && Reads(tail, Mode, ModeOf("reality", network)) && Reads(tail, Type, network)
    requires Reads(tail, HeaderType, HeaderTypeOf("reality", network))
    ensures var ps := RealityHead(o, sni) + tail;
            Extras(ps, o, "vless", "reality", network) && Reads(ps, Security, "reality") && Reads(ps, Type, network)
  {
    var head := RealityHead(o, sni);
    RealityHeadExtras(o, sni);
    RealityHeadReads(o, sni);
    hide RealityHead, Reads, Silent, AlpnOf, ModeOf;
    ReadsLeft(head, tail, Fp, "chrome");
    ReadsLeft(head, tail, Encryption, "none");
    ReadsRight(head, tail, Mode, ModeOf("reality", network));
    ReadsRight(head, tail, HeaderType, HeaderTypeOf("reality", network));
    ReadsLeft(head, tail, Pbk, o.pub);
    ReadsLeft(head, tail, Sid, o.sid);
    ReadsLeft(head, tail, Host, "");
    ReadsLeft(head, tail, Alpn, "");
    ReadsLeft(head, tail, Security, "reality");
    ReadsRight(head, tail, Type, network);
  }

  lemma RealityHeadExtras(o: LinkOpts, sni: string)
    ensures
      var ps := RealityHead(o, sni);
      && Reads(ps, Fp, "chrome") && Reads(ps, Encryption, "none") && Silent(ps, Mode) && Silent(ps, HeaderType) && Reads(ps, Host, "") && Reads(ps, Alpn, "")
      && Reads(ps, Pbk, o.pub) && Reads(ps, Sid, o.sid)
  {
    hide Reads;
    var ps := RealityHead(o, sni);
    SilentReads(ps);
    ReadsAt(ps, 0);
    ReadsAt(ps, 3);
    ReadsAt(ps, 4);
    ReadsAt(ps, 5);
  }

  lemma TailMode(tail: seq<Param>, security: string, network: string)
    requires Silent(tail, Mode) && network != "grpc" && network != "xhttp"
    ensures Reads(tail, Mode, ModeOf(security, network))
  {
  }

  lemma LastMode(tail: seq<Param>, i: nat, security: string, network: string)
    requires i < |tail| && tail[i].field == Mode && tail[i].value == ModeOf(security, network)
    requires forall j :: 0 <= j < |tail| && j != i ==> tail[j].field != Mode
    ensures Reads(tail, Mode, ModeOf(security, network))
  {
  }

  lemma HeaderTypeRead(tail: seq<Param>, network: string, i: nat)
    requires network == "tcp" ==> i < |tail| && tail[i] == Plain(HeaderType, "none") && forall j :: 0 <= j < |tail| && j != i ==> tail[j].field != HeaderType
    requires network != "tcp" ==> Silent(tail, HeaderType)
    ensures Reads(tail, HeaderType, HeaderTypeOf("reality", network))
  {
  }

  // ---------- every link ----------

  /** Security and transport that a link's own parameters name, and all the rest with them. */
  predicate Complete(l: Link, o: LinkOpts, security: string, network: string) {
    l.share.Uri? ==>
      && security != "" && network != ""
      && Reads(l.share.params, Security, security) && Reads(l.share.params, Type, network)
      && Extras(l.share.params, o, l.share.scheme, security, network)
  }

  lemma WebSocketComplete(o: LinkOpts)
    ensures Complete(WsLink(o), o, "tls", "ws") && Complete(TrojanLink(o), o, "tls", "ws")
  {
    hide FmtName, TlsHead, Extras, Reads;
    var ws, tr := [Quoted(Path, o.cfg.wsPath + ED)], [Quoted(Path, o.cfg.trojanPath + ED)];
    TailMode(ws, "tls", "ws");
    TailMode(tr, "tls", "ws");
    TlsExtras(true, o, "ws", ws);
    TlsExtras(false, o, "ws", tr);
  }

  lemma HttpComplete(o: LinkOpts)
    ensures Complete(XhttpLink(o), o, "tls", "xhttp") && Complete(HuLink(o), o, "tls", "httpupgrade")
  {
    hide FmtName, TlsHead, Extras, Reads;
    var xh, hu := [Quoted(Path, o.cfg.xhttpPath), Plain(Mode, "packet-up")], [Quoted(Path, o.cfg.huPath)];
    TailMode(hu, "tls", "httpupgrade");
    LastMode(xh, 1, "tls", "xhttp");
    TlsExtras(true, o, "xhttp", xh);
    TlsExtras(true, o, "httpupgrade", hu);
  }

  lemma BuiltinRealityComplete(o: LinkOpts)
    ensures Complete(RealityLink(o), o, "reality", RealityNet(o.cfg.realityNet))
  {
    hide FmtName, RealityHead, Extras, Reads;
    var net := RealityNet(o.cfg.realityNet);
    var tail := BuiltinRealityTail(net, o.cfg.realitySvc);
    BuiltinRealityTailReads(net, o.cfg.realitySvc);
    if net == "grpc" { LastMode(tail, 2, "reality", "grpc"); } else { TailMode(tail, "reality", net); }
    HeaderTypeRead(tail, net, 3);
    RealityExtras(o, o.sni, net, tail);
  }

  lemma TlsTailParts(ib: CustomInbound)
    requires TlsShape(ib.protocol, ib.network)
    ensures SilentTail(TlsTail(ib)) && Silent(TlsTail(ib), Type) && Silent(TlsTail(ib), HeaderType)
    ensures Reads(TlsTail(ib), Mode, ModeOf("tls", ib.network))
    ensures AlpnText(ib.network) == AlpnOf(ib.network)
  {
    hide Unslashed, ModeOf, Reads;
    var tail := TlsTail(ib);
    if ib.network == "grpc" || ib.network == "xhttp" {
      assert tail[1].value == ModeOf("tls", ib.network) by { ModeValue(ib.network); }
      LastMode(tail, 1, "tls", ib.network);
    } else {
      TailMode(tail, "tls", ib.network);
    }
  }

  lemma ModeValue(network: string)
    ensures network == "grpc" ==> ModeOf("tls", network) == "gun"
    ensures network == "xhttp" ==> ModeOf("tls", network) == "packet-up"
  {
  }

  lemma CustomTlsComplete(ib: CustomInbound, o: LinkOpts)
    requires WellFormed(ib) && ib.security == "tls"
    ensures Complete(CustomLink(ib, o), o, "tls", ib.network)
  {
    hide FmtName, TlsHead, TlsTail, Extras, Reads, AlpnText, AlpnOf, ModeOf, SilentTail, Silent;
    TlsTailParts(ib);
    TlsExtras(ib.protocol == "vless", o, ib.network, TlsTail(ib));
  }

  lemma RealityTailParts(ib: CustomInbound)
    requires ib.security == "reality" && RealityShape(ib.protocol, ib.network)
    ensures SilentTail(RealityTail(ib)) && Reads(RealityTail(ib), Type, ib.network)
    ensures Reads(RealityTail(ib), Mode, ModeOf("reality", ib.network))
    ensures Reads(RealityTail(ib), HeaderType, HeaderTypeOf("reality", ib.network))
  {
    hide Unslashed, Reads;
    if ib.network == "tcp" {
      RealityTailOf(RealityTail(ib), "tcp", Flow, VISION, HeaderType, "none");
    } else if ib.network == "xhttp" {
      RealityTailOf(RealityTail(ib), "xhttp", Path, ib.path, Mode, "auto");
    } else {
      RealityTailOf(RealityTail(ib), "grpc", Service, Unslashed(ib.path), Mode, "gun");
    }
  }

  lemma RealityTailOf(tail: seq<Param>, network: string, f: Field, v: string, g: Field, w: string)
    requires |tail| == 3 && tail[0] == Plain(Type, network) && tail[1].field == f && tail[1].value == v && tail[2] == Plain(g, w)
    requires f == Flow || f == Path || f == Service
    requires if network == "tcp" then g == HeaderType && w == "none" else g == Mode && w == (if network == "grpc" then "gun" else "auto")
    requires network == "tcp" || network == "xhttp" || network == "grpc"
    ensures SilentTail(tail) && Reads(tail, Type, network)
    ensures Reads(tail, Mode, ModeOf("reality", network)) && Reads(tail, HeaderType, HeaderTypeOf("reality", network))
  {
    hide Reads;
    SilentReads(tail);
    ReadsAt(tail, 0);
    ReadsAt(tail, 2);
  }

  lemma CustomRealityComplete(ib: CustomInbound, o: LinkOpts)
    requires WellFormed(ib) && ib.security == "reality" && Reachable(ib, o)
    ensures Complete(CustomLink(ib, o), o, "reality", ib.network)
  {
    hide FmtName, RealityHead, RealityTail, Extras, Reads, RealityEndpoint, ModeOf, HeaderTypeOf, SilentTail;
    RealityTailParts(ib);
    RealityExtras(o, ib.sni, ib.network, RealityTail(ib));
  }

  lemma VmessComplete(o: LinkOpts)
    ensures Complete(VmessLink(o), o, "", "")
  {
  }

  lemma BuiltinComplete(o: LinkOpts, i: nat) returns (security: string, network: string)
    requires i < 6
    ensures Complete(BuiltinCandidates(o)[i], o, security, network)
  {
    hide Complete, WsLink, XhttpLink, HuLink, VmessLink, TrojanLink, RealityLink, RealityNet;
    WebSocketComplete(o);
    HttpComplete(o);
    BuiltinRealityComplete(o);
    VmessComplete(o);
    security := if i == 3 then "" else if i == 5 then "reality" else "tls";
    network := if i == 0 || i == 4 then "ws" else if i == 1 then "xhttp" else if i == 2 then "httpupgrade"
               else if i == 3 then "" else RealityNet(o.cfg.realityNet);
  }

  lemma EveryLinkComplete(o: LinkOpts, l: Link) returns (security: string, network: string)
    requires l in AllLinks(o) && AllWellFormed(o.customs)
    ensures Complete(l, o, security, network)
  {
    assert |LinkGrants(o)| == |BuiltinCandidates(o)| == 6 && BuiltinLinks(o) == Chosen(LinkGrants(o), BuiltinCandidates(o));
    hide Complete, BuiltinCandidates, BuiltinLinks, Chosen, LinkGrants, CustomLinks, CustomShare, WellFormed, Reachable;
    if l in BuiltinLinks(o) {
      ChosenExactly(LinkGrants(o), BuiltinCandidates(o), l);
      var i: nat :| i < 6 && LinkGrants(o)[i] && BuiltinCandidates(o)[i] == l;
      security, network := BuiltinComplete(o, i);
    } else {
      var ib := CustomLinkSound(o, o.customs, l);
      var i :| 0 <= i < |o.customs| && o.customs[i] == ib;
      security, network := ib.security, ib.network;
      if ib.security == "reality" { CustomRealityComplete(ib, o); } else { SecurityOf(ib); CustomTlsComplete(ib, o); }
    }
  }

  lemma SecurityOf(ib: CustomInbound)
    requires WellFormed(ib) && ib.security != "reality"
    ensures ib.security == "tls"
  {
  }

  /** For every link that is printed as parameters: its text names the endpoint of an outbound
      of the client JSON with the same key, and everything that goes with it. */
  lemma TextsNameEndpoints(o: LinkOpts, json: VMessFields -> string)
    requires Clean(o) && PortsPlain(o)
    ensures forall l :: l in AllLinks(o) && l.share.Uri? ==>
              exists b :: b in AllOutbounds(o) && b.proxy.key == l.key
                && NamesEndpoint(Text(l.share, json), b.proxy) && NamesExtras(Text(l.share, json), o, b.proxy)
  {
    assert AllWellFormed(o.customs);
    forall l | l in AllLinks(o) && l.share.Uri?
      ensures exists b :: b in AllOutbounds(o) && b.proxy.key == l.key
                && NamesEndpoint(Text(l.share, json), b.proxy) && NamesExtras(Text(l.share, json), o, b.proxy)
    {
      hide *;
      var b := EveryLinkHasOutbound(o, l);
      var security, network := EveryLinkComplete(o, l);
      LinksAreClean(o, l);
      CleanIsReadable(l.share);
      OneLink(o, l, b, security, network, json);
    }
  }

  lemma OneLink(o: LinkOpts, l: Link, b: Outbound, security: string, network: string, json: VMessFields -> string)
    requires l.share.Uri? && Printable(l.share) && Pair(l, b.proxy) && Complete(l, o, security, network)
    ensures b.proxy.key == l.key
    ensures NamesEndpoint(Text(l.share, json), b.proxy) && NamesExtras(Text(l.share, json), o, b.proxy)
  {
    hide Text, NamesEndpoint, NamesExtras, Extras, Printable, Reads;
    SameValue(l.share.params, Security, security, b.proxy.stream.security);
    SameValue(l.share.params, Type, network, b.proxy.stream.network);
    TextNamesEndpoint(l.share, json, b.proxy);
    TextNamesExtras(l.share, json, o, b.proxy);
  }

  lemma SameValue(ps: seq<Param>, f: Field, v: string, w: string)
    requires Reads(ps, f, v) && Reads(ps, f, w) && v != ""
    ensures v == w
  {
  }

  /** VMess links carry the same in their record. */
  predicate RecordComplete(f: VMessFields, o: LinkOpts) {
    && f.kind == (if f.net == "grpc" then "gun" else "none") && f.host == o.addr && f.alpn == AlpnOf(f.net)
    && f.sni == o.addr && f.add == o.addr && f.port == "443" && f.id == o.clientId && (f.net == "grpc" ==> f.path == f.service)
  }

  lemma RecordsComplete(o: LinkOpts)
    requires AllWellFormed(o.customs)
    ensures forall l :: l in AllLinks(o) && l.share.VMess? ==> RecordComplete(l.share.fields, o)
  {
    hide AlpnOf, RecordComplete, WsLink, XhttpLink, HuLink, TrojanLink, RealityLink, VmessLink, CustomShare, WellFormed, Reachable;
    forall l | l in AllLinks(o) && l.share.VMess? ensures RecordComplete(l.share.fields, o) {
      BuiltinShares(o);
      if l in BuiltinLinks(o) {
        ChosenExactly(LinkGrants(o), BuiltinCandidates(o), l);
      } else {
        var ib := CustomLinkSound(o, o.customs, l);
        var i :| 0 <= i < |o.customs| && o.customs[i] == ib;
        CustomRecord(ib, o);
      }
    }
  }

  lemma BuiltinShares(o: LinkOpts)
    ensures WsLink(o).share.Uri? && XhttpLink(o).share.Uri? && HuLink(o).share.Uri? && TrojanLink(o).share.Uri? && RealityLink(o).share.Uri?
    ensures VmessLink(o).share.VMess? && RecordComplete(VmessLink(o).share.fields, o)
  {
    hide FmtName, TlsHead, RealityHead, BuiltinRealityTail;
  }

  lemma CustomRecord(ib: CustomInbound, o: LinkOpts)
    requires WellFormed(ib) && Reachable(ib, o)
    ensures CustomShare(ib, o).VMess? ==> RecordComplete(CustomShare(ib, o).fields, o)
  {
    hide FmtName, TlsHead, RealityHead, RealityTail, TlsTail, Unslashed;
  }
}
