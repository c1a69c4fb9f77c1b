/** The third side: what a client is given, the server accepts; what the server accepts is
    missing from the links only when it cannot be reached. */
module ThreeWay {
  import opened Decimal
  import opened Names
  import opened Policy
  import opened ServerConfig
  import opened Links
  import opened ClientConfig
  import opened Endpoints

  /** The server inbound accepts this outbound: credential with the same flow, protocol,
      transport, service, SNI, and path up to the early-data suffix `ed`. */
  predicate Serves(inb: Inbound, p: Proxy, ed: string) {
    && inb.tag == p.key && inb.protocol == p.protocol
    && inb.stream.network == p.stream.network && inb.stream.service == p.stream.service
    && p.stream.path == inb.stream.path + ed
    && (inb.stream.security == "reality" <==> p.stream.security == "reality")
    && (inb.stream.security == "reality" ==> inb.stream.serverName == p.stream.serverName)
    && Account(p.id, p.id, p.protocol == "trojan", p.flow) in inb.accounts
  }

  /** Built-in WebSocket outbounds ask for early data, custom ones never do. */
  function EarlyData(network: string): string { if network == "ws" then ED else "" }

  ghost predicate ServedBy(cfg: Config, snap: Snapshot, inb: Inbound, p: Proxy) {
    || (inb in BuiltinInbounds(cfg, snap) && Serves(inb, p, EarlyData(p.stream.network)))
    || (inb in CustomInbounds(snap.customs, snap.clients, snap.keys.priv) && Serves(inb, p, ""))
  }

  /** Vision is requested exactly for Reality over TCP. */
  predicate VisionRule(p: Proxy) {
    (p.flow == VISION <==> p.stream.security == "reality" && p.stream.network == "tcp") && (p.flow == VISION || p.flow == "")
  }

  /** Private and public key are stored together. */
  predicate KeysPaired(snap: Snapshot) { snap.keys.priv == "" <==> snap.keys.pub == "" }

  /** The context a client's links are rendered in comes from this snapshot. */
  predicate FromSnapshot(o: LinkOpts, cfg: Config, snap: Snapshot, client: Client) {
    && client in snap.clients && o.clientId == client.id && o.overrides == client.protocols
    && o.global == snap.Global() && o.cfg == cfg && o.customs == snap.customs
    && o.pub == snap.keys.pub && o.sni == snap.Sni(cfg)
  }

  lemma ContextIsFromSnapshot(cfg: Config, snap: Snapshot, client: Client, addr: string, cfgFmt: string, date: string)
    requires client in snap.clients
    ensures FromSnapshot(LinkContext(cfg, snap, client, addr, cfgFmt, date), cfg, snap, client)
    ensures var o := LinkContext(cfg, snap, client, addr, cfgFmt, date);
            o.sid == snap.keys.sid && o.clientName == client.name && o.addr == addr && o.cfgFmt == cfgFmt && o.date == date
  {
  }

  lemma GrantGivesAccount(snap: Snapshot, client: Client, key: string, password: bool, flow: string)
    requires client in snap.clients && Granted(snap.Global(), client.protocols, key)
    ensures Account(client.id, client.id, password, flow) in AccountsFor(snap.clients, snap.Global(), key, password, flow)
  {
    AccountsExactly(snap.clients, snap.Global(), key, password, flow, Account(client.id, client.id, password, flow));
  }

  /** The position of a client-JSON protocol among the server's built-in inbounds. */
  function ServerSlot(j: nat): (k: nat)
    requires j < 6
    ensures k < 6
  {
    if j == 0 then 5 else if j == 1 then 2 else if j == 2 then 1 else if j == 3 then 0 else if j == 4 then 3 else 4
  }

  lemma ServedWs(o: LinkOpts, cfg: Config, snap: Snapshot, client: Client)
    requires FromSnapshot(o, cfg, snap, client) && Granted(snap.Global(), client.protocols, VLESS_WS)
    ensures Serves(WsInbound(cfg, snap), WsProxy(o), EarlyData(WsProxy(o).stream.network)) && VisionRule(WsProxy(o))
  {
    hide AccountsFor;
    GrantGivesAccount(snap, client, VLESS_WS, false, "");
  }

  lemma ServedHu(o: LinkOpts, cfg: Config, snap: Snapshot, client: Client)
    requires FromSnapshot(o, cfg, snap, client) && Granted(snap.Global(), client.protocols, VLESS_HU)
    ensures Serves(HuInbound(cfg, snap), HuProxy(o), EarlyData(HuProxy(o).stream.network)) && VisionRule(HuProxy(o))
  {
    hide AccountsFor;
    GrantGivesAccount(snap, client, VLESS_HU, false, "");
  }

  lemma ServedXhttp(o: LinkOpts, cfg: Config, snap: Snapshot, client: Client)
    requires FromSnapshot(o, cfg, snap, client) && Granted(snap.Global(), client.protocols, VLESS_XHTTP)
    ensures Serves(XhttpInbound(cfg, snap), XhttpProxy(o), EarlyData(XhttpProxy(o).stream.network)) && VisionRule(XhttpProxy(o))
  {
    hide AccountsFor;
    GrantGivesAccount(snap, client, VLESS_XHTTP, false, "");
  }

  lemma ServedVmess(o: LinkOpts, cfg: Config, snap: Snapshot, client: Client)
    requires FromSnapshot(o, cfg, snap, client) && Granted(snap.Global(), client.protocols, VMESS_WS)
    ensures Serves(VmessInbound(cfg, snap), VmessProxy(o), EarlyData(VmessProxy(o).stream.network)) && VisionRule(VmessProxy(o))
  {
    hide AccountsFor;
    GrantGivesAccount(snap, client, VMESS_WS, false, "");
  }

  lemma ServedTrojan(o: LinkOpts, cfg: Config, snap: Snapshot, client: Client)
    requires FromSnapshot(o, cfg, snap, client) && Granted(snap.Global(), client.protocols, TROJAN_WS)
    ensures Serves(TrojanInbound(cfg, snap), TrojanProxy(o), EarlyData(TrojanProxy(o).stream.network)) && VisionRule(TrojanProxy(o))
  {
    hide AccountsFor;
    GrantGivesAccount(snap, client, TROJAN_WS, true, "");
  }

  lemma ServedReality(o: LinkOpts, cfg: Config, snap: Snapshot, client: Client)
    requires FromSnapshot(o, cfg, snap, client) && Granted(snap.Global(), client.protocols, VLESS_REALITY)
    ensures Serves(RealityInbound(cfg, snap), RealityProxy(o), EarlyData(RealityProxy(o).stream.network)) && VisionRule(RealityProxy(o))
  {
    hide AccountsFor;
    GrantGivesAccount(snap, client, VLESS_REALITY, false, FlowFor(RealityNet(cfg.realityNet)));
  }

  lemma BuiltinServed(o: LinkOpts, cfg: Config, snap: Snapshot, client: Client, j: nat)
    requires FromSnapshot(o, cfg, snap, client) && KeysPaired(snap)
    requires j < 6 && JsonGrants(o)[j]
    ensures ServerGrants(snap)[ServerSlot(j)]
    ensures
      var inb, p := ServerCandidates(cfg, snap)[ServerSlot(j)], JsonCandidates(o)[j];
      Serves(inb, p, EarlyData(p.stream.network)) && VisionRule(p)
  {
    hide EarlyData;
    hide WsInbound, XhttpInbound, HuInbound, VmessInbound, TrojanInbound, RealityInbound;
    hide WsProxy, XhttpProxy, HuProxy, VmessProxy, TrojanProxy, RealityProxy, Serves, VisionRule;
    if j == 0 { ServedReality(o, cfg, snap, client); }
    else if j == 1 { ServedWs(o, cfg, snap, client); }
    else if j == 2 { ServedHu(o, cfg, snap, client); }
    else if j == 3 { ServedXhttp(o, cfg, snap, client); }
    else if j == 4 { ServedVmess(o, cfg, snap, client); }
    else { ServedTrojan(o, cfg, snap, client); }
  }

  lemma CustomServed(o: LinkOpts, cfg: Config, snap: Snapshot, client: Client, ib: CustomInbound)
    requires FromSnapshot(o, cfg, snap, client) && KeysPaired(snap)
    requires WellFormed(ib) && Linked(ib, o)
    ensures Renderable(ib, snap.keys.priv)
    ensures Serves(CustomServer(ib, snap.clients), CustomProxy(ib, o), "") && VisionRule(CustomProxy(ib, o))
  {
    hide CustomAccounts, CustomProxy, CustomServer, Serves, VisionRule;
    if ib.security == "reality" { CustomRealityServed(o, snap, client, ib); } else { CustomTlsServed(o, snap, client, ib); }
  }

  lemma CustomGrant(snap: Snapshot, client: Client, tag: string, password: bool, flow: string)
    requires client in snap.clients && GrantedCustom(client.protocols, tag)
    ensures Account(client.id, client.id, password, flow) in CustomAccounts(snap.clients, tag, password, flow)
  {
    CustomAccountsExactly(snap.clients, tag, password, flow, Account(client.id, client.id, password, flow));
  }

  lemma CustomRealityServed(o: LinkOpts, snap: Snapshot, client: Client, ib: CustomInbound)
    requires client in snap.clients && o.clientId == client.id && GrantedCustom(client.protocols, ib.tag)
    requires ib.security == "reality" && RealityShape(ib.protocol, ib.network) && Reachable(ib, o)
    ensures Serves(CustomServer(ib, snap.clients), CustomProxy(ib, o), "") && VisionRule(CustomProxy(ib, o))
  {
    hide CustomAccounts, RealityEndpoint, JsonPort, Unslashed;
    CustomGrant(snap, client, ib.tag, false, FlowFor(ib.network));
  }

  lemma CustomTlsServed(o: LinkOpts, snap: Snapshot, client: Client, ib: CustomInbound)
    requires client in snap.clients && o.clientId == client.id && GrantedCustom(client.protocols, ib.tag)
    requires ib.security == "tls" && TlsShape(ib.protocol, ib.network)
    ensures Serves(CustomServer(ib, snap.clients), CustomProxy(ib, o), "") && VisionRule(CustomProxy(ib, o))
  {
    hide CustomAccounts, Unslashed, AlpnText;
    CustomGrant(snap, client, ib.tag, ib.protocol == "trojan", "");
  }

  /** Without a proxy in front, the port that is dialled is the port the inbound listens on;
      a mapped inbound listens on the port the second proxy forwards to. */
  lemma CustomRealityPort(o: LinkOpts, ib: CustomInbound)
    requires WellFormed(ib) && ib.security == "reality" && Reachable(ib, o)
    ensures
      var p := CustomProxy(ib, o);
      || (p.address == o.addr && p.port == ib.port)
      || (p.address == o.cfg.tcp2Host && ib.port == o.cfg.tcp2AppPort)
  {
    AtoiOfText(ib.port);
  }

  /** Every proxy outbound of an admitted client is served by an inbound of the config built
      from the same snapshot; by `EveryLinkHasOutbound` so is every link. */
  lemma EveryOutboundIsServed(o: LinkOpts, cfg: Config, snap: Snapshot, client: Client, b: Outbound) returns (inb: Inbound)
    requires FromSnapshot(o, cfg, snap, client) && KeysPaired(snap) && AllWellFormed(snap.customs)
    requires b in AllOutbounds(o)
    ensures inb in ServerInbounds(cfg, snap) && ServedBy(cfg, snap, inb, b.proxy) && VisionRule(b.proxy)
  {
    hide WsInbound, XhttpInbound, HuInbound, VmessInbound, TrojanInbound, RealityInbound, CustomServer;
    hide WsProxy, XhttpProxy, HuProxy, VmessProxy, TrojanProxy, RealityProxy, CustomProxy, Serves, VisionRule;
    if b in Tagged(BuiltinProxies(o)) {
      ChosenExactly(JsonGrants(o), JsonCandidates(o), b.proxy);
      var j: nat :| j < 6 && JsonGrants(o)[j] && JsonCandidates(o)[j] == b.proxy;
      BuiltinServed(o, cfg, snap, client, j);
      inb := ServerCandidates(cfg, snap)[ServerSlot(j)];
      ChosenExactly(ServerGrants(snap), ServerCandidates(cfg, snap), inb);
    } else {
      var ib := CustomOutboundSound(o, GrantedCustoms(o.overrides, o.customs), |BuiltinProxies(o)|, b);
      GrantedIn(o.overrides, o.customs, ib);
      var i :| 0 <= i < |o.customs| && o.customs[i] == ib;
      CustomServed(o, cfg, snap, client, ib);
      inb := CustomServer(ib, snap.clients);
      CustomInboundsComplete(snap.customs, snap.clients, snap.keys.priv, ib);
    }
  }

  /** Client ids are unique. */
  predicate UniqueIds(clients: seq<Client>) {
    forall i, j :: 0 <= i < |clients| && 0 <= j < |clients| && clients[i].id == clients[j].id ==> i == j
  }

  lemma SameId(clients: seq<Client>, c: Client, d: Client)
    requires UniqueIds(clients) && c in clients && d in clients && c.id == d.id
    ensures c == d
  {
    var i :| 0 <= i < |clients| && clients[i] == c;
    var j :| 0 <= j < |clients| && clients[j] == d;
  }

  lemma AccountGivesGrant(snap: Snapshot, client: Client, key: string, password: bool, flow: string, a: Account)
    requires UniqueIds(snap.clients) && client in snap.clients && a.secret == client.id
    requires a in AccountsFor(snap.clients, snap.Global(), key, password, flow)
    ensures Granted(snap.Global(), client.protocols, key)
  {
    AccountsExactly(snap.clients, snap.Global(), key, password, flow, a);
    var c :| c in snap.clients && Granted(snap.Global(), c.protocols, key) && a == Account(c.id, c.id, password, flow);
    SameId(snap.clients, c, client);
  }

  lemma CustomAccountGivesGrant(snap: Snapshot, client: Client, tag: string, password: bool, flow: string, a: Account)
    requires UniqueIds(snap.clients) && client in snap.clients && a.secret == client.id
    requires a in CustomAccounts(snap.clients, tag, password, flow)
    ensures GrantedCustom(client.protocols, tag)
  {
    CustomAccountsExactly(snap.clients, tag, password, flow, a);
    var c :| c in snap.clients && GrantedCustom(c.protocols, tag) && a == Account(c.id, c.id, password, flow);
    SameId(snap.clients, c, client);
  }

  /** The position of a server inbound's protocol among the links. */
  function LinkSlot(k: nat): (i: nat)
    requires k < 6
    ensures i < 6
  {
    if k == 0 then 1 else if k == 1 then 2 else if k == 2 then 0 else if k == 3 then 3 else if k == 4 then 4 else 5
  }

  const SERVER_KEYS := [VLESS_XHTTP, VLESS_HU, VLESS_WS, VMESS_WS, TROJAN_WS, VLESS_REALITY]

  lemma LinkKeyOf(o: LinkOpts, k: nat)
    requires k < 6
    ensures BuiltinCandidates(o)[LinkSlot(k)].key == SERVER_KEYS[k]
  {
    hide FmtName, TlsHead, RealityHead, BuiltinRealityTail;
    if k == 0 { assert XhttpLink(o).key == VLESS_XHTTP; }
    else if k == 1 { assert HuLink(o).key == VLESS_HU; }
    else if k == 2 { assert WsLink(o).key == VLESS_WS; }
    else if k == 3 { assert VmessLink(o).key == VMESS_WS; }
    else if k == 4 { assert TrojanLink(o).key == TROJAN_WS; }
    else { assert RealityLink(o).key == VLESS_REALITY; }
  }

  lemma BuiltinAccountLinked(o: LinkOpts, cfg: Config, snap: Snapshot, client: Client, k: nat, a: Account)
    requires FromSnapshot(o, cfg, snap, client) && UniqueIds(snap.clients) && a.secret == client.id
    requires k < 6 && a in ServerCandidates(cfg, snap)[k].accounts
    ensures BuiltinCandidates(o)[LinkSlot(k)].key == ServerCandidates(cfg, snap)[k].tag
    ensures LinkGrants(o)[LinkSlot(k)] || (k == 5 && !o.TcpReady())
  {
    hide AccountsFor, WsLink, XhttpLink, HuLink, VmessLink, TrojanLink, RealityLink;
    LinkKeyOf(o, k);
    AccountGivesGrant(snap, client, SERVER_KEYS[k], k == 4, if k == 5 then FlowFor(RealityNet(cfg.realityNet)) else "", a);
  }

  /** A link of the client carries this key. */
  ghost predicate HasLink(o: LinkOpts, key: string) { exists l :: l in AllLinks(o) && l.key == key }

  /** A Reality inbound without a public endpoint. */
  ghost predicate Unresolvable(o: LinkOpts, cfg: Config, snap: Snapshot, inb: Inbound) {
    || (inb == RealityInbound(cfg, snap) && !o.TcpReady())
    || (exists ib :: ib in snap.customs && inb == CustomServer(ib, snap.clients) && ib.security == "reality" && !Reachable(ib, o))
  }

  /** An inbound that holds the client's credential is missing from the client's links only
      when it is a Reality inbound without a public endpoint. */
  lemma MissingOnlyUnreachable(o: LinkOpts, cfg: Config, snap: Snapshot, client: Client, inb: Inbound, a: Account)
    requires FromSnapshot(o, cfg, snap, client) && UniqueIds(snap.clients)
    requires inb in ServerInbounds(cfg, snap) && a in inb.accounts && a.secret == client.id
    ensures HasLink(o, inb.tag) || Unresolvable(o, cfg, snap, inb)
  {
    hide WsInbound, XhttpInbound, HuInbound, VmessInbound, TrojanInbound, RealityInbound, CustomAccounts, CustomStream;
    hide WsLink, XhttpLink, HuLink, VmessLink, TrojanLink, RealityLink, CustomShare, CustomLinks, CustomInbounds;
    if inb in BuiltinInbounds(cfg, snap) {
      ChosenExactly(ServerGrants(snap), ServerCandidates(cfg, snap), inb);
      var k: nat :| k < 6 && ServerGrants(snap)[k] && ServerCandidates(cfg, snap)[k] == inb;
      BuiltinAccountLinked(o, cfg, snap, client, k, a);
      if LinkGrants(o)[LinkSlot(k)] {
        var l := BuiltinCandidates(o)[LinkSlot(k)];
        ChosenExactly(LinkGrants(o), BuiltinCandidates(o), l);
        assert l in AllLinks(o);
      }
    } else if inb in CustomInbounds(snap.customs, snap.clients, snap.keys.priv) {
      var ib := CustomInboundsSound(snap.customs, snap.clients, snap.keys.priv, inb);
      CustomAccountGivesGrant(snap, client, ib.tag, ib.protocol == "trojan", if ib.security == "reality" then FlowFor(ib.network) else "", a);
      if Reachable(ib, o) {
        CustomLinkComplete(o, snap.customs, ib);
        assert CustomLink(ib, o) in AllLinks(o);
      }
    } else {
      assert false; // the statistics API has no accounts
    }
  }

  /** Three-way agreement for every admitted client: what links and client JSON offer, the
      server accepts, and what the server accepts, they offer unless it cannot be reached. */
  lemma ThreeWayAgreement(o: LinkOpts, cfg: Config, snap: Snapshot, client: Client)
    requires FromSnapshot(o, cfg, snap, client) && KeysPaired(snap) && AllWellFormed(snap.customs) && UniqueIds(snap.clients)
    ensures forall b :: b in AllOutbounds(o) ==>
              VisionRule(b.proxy) && exists inb :: inb in ServerInbounds(cfg, snap) && ServedBy(cfg, snap, inb, b.proxy)
    ensures forall inb, a :: inb in ServerInbounds(cfg, snap) && a in inb.accounts && a.secret == client.id ==>
              HasLink(o, inb.tag) || Unresolvable(o, cfg, snap, inb)
  {
    hide *;
    forall b | b in AllOutbounds(o)
      ensures VisionRule(b.proxy) && exists inb :: inb in ServerInbounds(cfg, snap) && ServedBy(cfg, snap, inb, b.proxy)
    {
      var inb := EveryOutboundIsServed(o, cfg, snap, client, b);
    }
    forall inb, a | inb in ServerInbounds(cfg, snap) && a in inb.accounts && a.secret == client.id
      ensures HasLink(o, inb.tag) || Unresolvable(o, cfg, snap, inb)
    {
      MissingOnlyUnreachable(o, cfg, snap, client, inb, a);
    }
  }
}
