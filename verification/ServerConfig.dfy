/** The Xray server config (`Build` and `customInbound`, internal/xray/config.go), reduced to
    who listens where, for which credentials, over which transport. */
module ServerConfig {
  import opened Wrappers
  import opened Policy

  /** One credential entry; trojan stores the id as a password. */
  datatype Account = Account(secret: string, email: string, password: bool, flow: string)

  datatype ServerStream = ServerStream(network: string, security: string, path: string, service: string, serverName: string)

  datatype Inbound = Inbound(
    tag: string, listen: string, port: int, protocol: string, accounts: seq<Account>, stream: ServerStream)

  const PORT_WS := 10001
  const PORT_XHTTP := 10002
  const PORT_VMESS := 10004
  const PORT_TROJAN := 10005
  const PORT_HU := 10006

  // ---------- specification ----------

  function AccountOf(id: string, password: bool, flow: string): Account { Account(id, id, password, flow) }

  /** The credentials of a built-in inbound, in client order. */
  function AccountsFor(clients: seq<Client>, global: Toggles, key: string, password: bool, flow: string): seq<Account> {
    if clients == [] then []
    else
      AccountsFor(clients[..|clients| - 1], global, key, password, flow)
      + IfThen(Granted(global, clients[|clients| - 1].protocols, key), AccountOf(clients[|clients| - 1].id, password, flow))
  }

  /** The credentials of a custom inbound, in client order. */
  function CustomAccounts(clients: seq<Client>, tag: string, password: bool, flow: string): seq<Account> {
    if clients == [] then []
    else
      CustomAccounts(clients[..|clients| - 1], tag, password, flow)
      + IfThen(GrantedCustom(clients[|clients| - 1].protocols, tag), AccountOf(clients[|clients| - 1].id, password, flow))
  }

  function WsStream(path: string): ServerStream { ServerStream("ws", "", path, "", "") }

  function Local(tag: string, port: int, protocol: string, accounts: seq<Account>, stream: ServerStream): Inbound {
    Inbound(tag, "127.0.0.1", port, protocol, accounts, stream)
  }

  /** Anything but "grpc" means "tcp". */
  function RealityNet(setting: string): string { if setting == "grpc" then "grpc" else "tcp" }

  function FlowFor(network: string): string { if network == "tcp" then VISION else "" }

  function RealityInbound(cfg: Config, snap: Snapshot): Inbound {
    var net := RealityNet(cfg.realityNet);
    Inbound(VLESS_REALITY, "0.0.0.0", cfg.appPort, "vless",
            AccountsFor(snap.clients, snap.Global(), VLESS_REALITY, false, FlowFor(net)),
            ServerStream(net, "reality", "", if net == "grpc" then cfg.realitySvc else "", snap.Sni(cfg)))
  }

  function CustomStream(ib: CustomInbound): ServerStream {
    ServerStream(ib.network, if ib.security == "reality" then "reality" else "",
                 if ib.network == "ws" || ib.network == "xhttp" || ib.network == "httpupgrade" then ib.path else "",
                 if ib.network == "grpc" then Unslashed(ib.path) else "",
                 if ib.security == "reality" then ib.sni else "")
  }

  /** Reality inbounds are skipped while the key is missing. */
  predicate Renderable(ib: CustomInbound, priv: string) { ib.security == "reality" ==> priv != "" }

  function CustomServer(ib: CustomInbound, clients: seq<Client>): Inbound {
    var reality := ib.security == "reality";
    Inbound(ib.tag, if reality then "0.0.0.0" else "127.0.0.1", if reality then ib.port else ib.lport, ib.protocol,
            CustomAccounts(clients, ib.tag, ib.protocol == "trojan", if reality then FlowFor(ib.network) else ""),
            CustomStream(ib))
  }

  function CustomInbounds(customs: seq<CustomInbound>, clients: seq<Client>, priv: string): seq<Inbound> {
    if customs == [] then []
    else
      CustomInbounds(customs[..|customs| - 1], clients, priv)
      + IfThen(Renderable(customs[|customs| - 1], priv), CustomServer(customs[|customs| - 1], clients))
  }

  function XhttpInbound(cfg: Config, snap: Snapshot): Inbound {
    Local(VLESS_XHTTP, PORT_XHTTP, "vless", AccountsFor(snap.clients, snap.Global(), VLESS_XHTTP, false, ""),
          ServerStream("xhttp", "", cfg.xhttpPath, "", ""))
  }

  function HuInbound(cfg: Config, snap: Snapshot): Inbound {
    Local(VLESS_HU, PORT_HU, "vless", AccountsFor(snap.clients, snap.Global(), VLESS_HU, false, ""),
          ServerStream("httpupgrade", "", cfg.huPath, "", ""))
  }

  function WsInbound(cfg: Config, snap: Snapshot): Inbound {
    Local(VLESS_WS, PORT_WS, "vless", AccountsFor(snap.clients, snap.Global(), VLESS_WS, false, ""), WsStream(cfg.wsPath))
  }

  function VmessInbound(cfg: Config, snap: Snapshot): Inbound {
    Local(VMESS_WS, PORT_VMESS, "vmess", AccountsFor(snap.clients, snap.Global(), VMESS_WS, false, ""), WsStream(cfg.vmessPath))
  }

  function TrojanInbound(cfg: Config, snap: Snapshot): Inbound {
    Local(TROJAN_WS, PORT_TROJAN, "trojan", AccountsFor(snap.clients, snap.Global(), TROJAN_WS, true, ""), WsStream(cfg.trojanPath))
  }

  /** Which built-in inbounds are rendered, in config order, and those inbounds. */
  function ServerGrants(snap: Snapshot): seq<bool> {
    var g := snap.Global();
    [On(g, VLESS_XHTTP), On(g, VLESS_HU), On(g, VLESS_WS), On(g, VMESS_WS), On(g, TROJAN_WS),
     snap.keys.priv != "" && On(g, VLESS_REALITY)]
  }

  function ServerCandidates(cfg: Config, snap: Snapshot): seq<Inbound> {
    [XhttpInbound(cfg, snap), HuInbound(cfg, snap), WsInbound(cfg, snap), VmessInbound(cfg, snap),
     TrojanInbound(cfg, snap), RealityInbound(cfg, snap)]
  }

  function BuiltinInbounds(cfg: Config, snap: Snapshot): seq<Inbound> {
    Chosen(ServerGrants(snap), ServerCandidates(cfg, snap))
  }

  function ApiInbound(cfg: Config): Inbound {
    Inbound("api", "127.0.0.1", cfg.apiPort, "dokodemo-door", [], ServerStream("", "", "", "", ""))
  }

  function ServerInbounds(cfg: Config, snap: Snapshot): seq<Inbound> {
    BuiltinInbounds(cfg, snap) + CustomInbounds(snap.customs, snap.clients, snap.keys.priv) + [ApiInbound(cfg)]
  }

  function Ids(clients: seq<Client>): seq<string> { seq(|clients|, i requires 0 <= i < |clients| => clients[i].id) }

  // ---------- the code ----------

  /** `idsFor`. */
  method IdsFor(clients: seq<Client>, global: Toggles, key: string, trojan: bool) returns (out: seq<Account>)
    ensures out == AccountsFor(clients, global, key, trojan, "")
  {
    out := [];
    for i := 0 to |clients|
      invariant out == AccountsFor(clients[..i], global, key, trojan, "")
    {
      assert clients[..i + 1][..i] == clients[..i];
      var allowed := UserProtocols(clients[i].protocols, global);
      if On(allowed, key) { out := out + [AccountOf(clients[i].id, trojan, "")]; }
    }
    assert clients[..|clients|] == clients;
  }

  function WithFlow(accounts: seq<Account>, flow: string): seq<Account> {
    seq(|accounts|, i requires 0 <= i < |accounts| => accounts[i].(flow := flow))
  }

  /** The loops that patch the vision flow into credentials already listed. */
  method PatchVision(accounts: seq<Account>) returns (patched: seq<Account>)
    ensures patched == WithFlow(accounts, VISION)
  {
    patched := accounts;
    for i := 0 to |accounts|
      invariant patched == WithFlow(accounts[..i], VISION) + accounts[i..]
    {
      patched := patched[i := patched[i].(flow := VISION)];
    }
  }

  lemma {:induction false} PatchedAccounts(clients: seq<Client>, global: Toggles, key: string, password: bool, flow: string)
    ensures WithFlow(AccountsFor(clients, global, key, password, ""), flow) == AccountsFor(clients, global, key, password, flow)
  {
    if clients != [] { PatchedAccounts(clients[..|clients| - 1], global, key, password, flow); }
  }

  lemma {:induction false} PatchedCustom(clients: seq<Client>, tag: string, password: bool, flow: string)
    ensures WithFlow(CustomAccounts(clients, tag, password, ""), flow) == CustomAccounts(clients, tag, password, flow)
  {
    if clients != [] { PatchedCustom(clients[..|clients| - 1], tag, password, flow); }
  }

  /** `customInbound`; `None` is its error, a missing Reality key. */
  method RenderCustom(ib: CustomInbound, clients: seq<Client>, priv: string) returns (inb: Option<Inbound>)
    ensures inb == if Renderable(ib, priv) then Some(CustomServer(ib, clients)) else None
  {
    var accounts: seq<Account> := [];
    for i := 0 to |clients|
      invariant accounts == CustomAccounts(clients[..i], ib.tag, ib.protocol == "trojan", "")
    {
      assert clients[..i + 1][..i] == clients[..i];
      var denied := Denied(clients[i].protocols, ib.tag);
      if !denied { accounts := accounts + [AccountOf(clients[i].id, ib.protocol == "trojan", "")]; }
    }
    assert clients[..|clients|] == clients;
    var stream := ServerStream(ib.network, "", "", "", "");
    if ib.network == "ws" || ib.network == "xhttp" || ib.network == "httpupgrade" {
      stream := stream.(path := ib.path);
    } else if ib.network == "grpc" {
      var service := TrimSlash(ib.path);
      stream := stream.(service := service);
    }
    var listen, port := "127.0.0.1", ib.lport;
    if ib.security == "reality" {
      if priv == "" { return None; }
      stream := stream.(security := "reality", serverName := ib.sni);
      listen, port := "0.0.0.0", ib.port;
      if ib.network == "tcp" {
        accounts := PatchVision(accounts);
        PatchedCustom(clients, ib.tag, ib.protocol == "trojan", VISION);
      }
    }
    return Some(Inbound(ib.tag, listen, port, ib.protocol, accounts, stream));
  }

  /** `if global[key] { inbounds = append(inbounds, local(key, port, ...)) }`. */
  method AppendLocal(inbounds: seq<Inbound>, snap: Snapshot, key: string, port: int, protocol: string, trojan: bool, stream: ServerStream)
      returns (r: seq<Inbound>)
    ensures r == Pick(inbounds, On(snap.Global(), key),
                      Local(key, port, protocol, AccountsFor(snap.clients, snap.Global(), key, trojan, ""), stream))
  {
    r := inbounds;
    if On(snap.Global(), key) {
      var a := IdsFor(snap.clients, snap.Global(), key, trojan);
      r := r + [Local(key, port, protocol, a, stream)];
    }
  }

  method AppendReality(inbounds: seq<Inbound>, cfg: Config, snap: Snapshot) returns (r: seq<Inbound>)
    ensures r == Pick(inbounds, snap.keys.priv != "" && On(snap.Global(), VLESS_REALITY), RealityInbound(cfg, snap))
  {
    r := inbounds;
    if snap.keys.priv != "" && On(snap.Global(), VLESS_REALITY) {
      var inb := RenderReality(cfg, snap);
      r := r + [inb];
    }
  }

  /** `Build`, the built-in part: append each enabled inbound. */
  method BuildBuiltins(cfg: Config, snap: Snapshot) returns (inbounds: seq<Inbound>)
    ensures inbounds == BuiltinInbounds(cfg, snap)
  {
    inbounds := AppendLocal([], snap, VLESS_XHTTP, PORT_XHTTP, "vless", false, ServerStream("xhttp", "", cfg.xhttpPath, "", ""));
    inbounds := AppendLocal(inbounds, snap, VLESS_HU, PORT_HU, "vless", false, ServerStream("httpupgrade", "", cfg.huPath, "", ""));
    inbounds := AppendLocal(inbounds, snap, VLESS_WS, PORT_WS, "vless", false, WsStream(cfg.wsPath));
    inbounds := AppendLocal(inbounds, snap, VMESS_WS, PORT_VMESS, "vmess", false, WsStream(cfg.vmessPath));
    inbounds := AppendLocal(inbounds, snap, TROJAN_WS, PORT_TROJAN, "trojan", true, WsStream(cfg.trojanPath));
    inbounds := AppendReality(inbounds, cfg, snap);
  }

  /** `Build`, the custom part: broken inbounds are skipped instead of failing the config. */
  method AppendCustoms(builtins: seq<Inbound>, customs: seq<CustomInbound>, clients: seq<Client>, priv: string)
      returns (inbounds: seq<Inbound>)
    ensures inbounds == builtins + CustomInbounds(customs, clients, priv)
  {
    inbounds := builtins;
    assert builtins + CustomInbounds(customs[..0], clients, priv) == builtins;
    for i := 0 to |customs|
      invariant inbounds == builtins + CustomInbounds(customs[..i], clients, priv)
    {
      hide CustomInbounds, CustomServer, Renderable;
      CustomInboundsNext(builtins, customs, i, clients, priv);
      var inb := RenderCustom(customs[i], clients, priv);
      inbounds := inbounds + if inb.Some? then [inb.value] else [];
    }
    assert customs[..|customs|] == customs;
  }

  lemma CustomInboundsNext(builtins: seq<Inbound>, customs: seq<CustomInbound>, i: nat, clients: seq<Client>, priv: string)
    requires i < |customs|
    ensures builtins + CustomInbounds(customs[..i + 1], clients, priv)
         == builtins + CustomInbounds(customs[..i], clients, priv)
            + if Renderable(customs[i], priv) then [CustomServer(customs[i], clients)] else []
  {
    hide CustomServer, Renderable;
    assert customs[..i + 1][..i] == customs[..i];
  }

  /** `Build`: the built-ins, the custom inbounds that render, and the statistics API. */
  method Build(cfg: Config, snap: Snapshot) returns (inbounds: seq<Inbound>, active: seq<string>)
    ensures inbounds == ServerInbounds(cfg, snap)
    ensures active == Ids(snap.clients)
  {
    active := [];
    for i := 0 to |snap.clients|
      invariant active == Ids(snap.clients[..i])
    {
      active := active + [snap.clients[i].id];
    }
    assert snap.clients[..|snap.clients|] == snap.clients;
    inbounds := BuildBuiltins(cfg, snap);
    inbounds := AppendCustoms(inbounds, snap.customs, snap.clients, snap.keys.priv);
    inbounds := inbounds + [ApiInbound(cfg)];
  }

  /** The built-in Reality inbound: its credentials get the vision flow over TCP only. */
  method RenderReality(cfg: Config, snap: Snapshot) returns (inb: Inbound)
    ensures inb == RealityInbound(cfg, snap)
  {
    var net := cfg.realityNet;
    if net != "grpc" { net := "tcp"; }
    var accounts := IdsFor(snap.clients, snap.Global(), VLESS_REALITY, false);
    if net == "tcp" {
      accounts := PatchVision(accounts);
      PatchedAccounts(snap.clients, snap.Global(), VLESS_REALITY, false, VISION);
    }
    var stream := ServerStream(net, "reality", "", "", snap.Sni(cfg));
    if net == "grpc" { stream := stream.(service := cfg.realitySvc); }
    inb := Inbound(VLESS_REALITY, "0.0.0.0", cfg.appPort, "vless", accounts, stream);
  }

  // ---------- who is let in ----------

  predicate Admits(inb: Inbound, id: string) {
    exists i :: 0 <= i < |inb.accounts| && inb.accounts[i].secret == id
  }

  /** Credentials are granted exactly: an id is accepted by a built-in inbound when some
      client with that id is granted its key. */
  lemma {:induction false} AccountsExactly(clients: seq<Client>, global: Toggles, key: string, password: bool, flow: string, a: Account)
    ensures a in AccountsFor(clients, global, key, password, flow)
       <==> exists c :: c in clients && Granted(global, c.protocols, key) && a == Account(c.id, c.id, password, flow)
  {
    if clients != [] {
      var rest, last := clients[..|clients| - 1], clients[|clients| - 1];
      AccountsExactly(rest, global, key, password, flow, a);
      assert clients == rest + [last];
    }
  }

  lemma {:induction false} CustomAccountsExactly(clients: seq<Client>, tag: string, password: bool, flow: string, a: Account)
    ensures a in CustomAccounts(clients, tag, password, flow)
       <==> exists c :: c in clients && GrantedCustom(c.protocols, tag) && a == Account(c.id, c.id, password, flow)
  {
    if clients != [] {
      var rest, last := clients[..|clients| - 1], clients[|clients| - 1];
      CustomAccountsExactly(rest, tag, password, flow, a);
      assert clients == rest + [last];
    }
  }

  lemma {:induction false} CustomInboundsSound(customs: seq<CustomInbound>, clients: seq<Client>, priv: string, inb: Inbound)
      returns (ib: CustomInbound)
    requires inb in CustomInbounds(customs, clients, priv)
    ensures ib in customs && Renderable(ib, priv) && inb == CustomServer(ib, clients)
  {
    hide CustomServer;
    var rest, last := customs[..|customs| - 1], customs[|customs| - 1];
    assert customs == rest + [last];
    if inb in CustomInbounds(rest, clients, priv) {
      ib := CustomInboundsSound(rest, clients, priv, inb);
    } else {
      ib := last;
    }
  }

  lemma {:induction false} CustomInboundsComplete(customs: seq<CustomInbound>, clients: seq<Client>, priv: string, ib: CustomInbound)
    requires ib in customs && Renderable(ib, priv)
    ensures CustomServer(ib, clients) in CustomInbounds(customs, clients, priv)
  {
    hide CustomServer;
    var rest, last := customs[..|customs| - 1], customs[|customs| - 1];
    assert customs == rest + [last];
    if ib in rest { CustomInboundsComplete(rest, clients, priv, ib); }
  }

  predicate OnlyListed(accounts: seq<Account>, clients: seq<Client>) {
    forall a :: a in accounts ==> a.secret in Ids(clients) && a.email == a.secret
  }

  lemma ListedId(clients: seq<Client>, c: Client)
    requires c in clients
    ensures c.id in Ids(clients)
  {
    var i :| 0 <= i < |clients| && clients[i] == c;
    assert Ids(clients)[i] == c.id;
  }

  lemma AccountsListed(clients: seq<Client>, global: Toggles, key: string, password: bool, flow: string)
    ensures OnlyListed(AccountsFor(clients, global, key, password, flow), clients)
  {
    forall a | a in AccountsFor(clients, global, key, password, flow) ensures a.secret in Ids(clients) && a.email == a.secret {
      AccountsExactly(clients, global, key, password, flow, a);
      var c :| c in clients && Granted(global, c.protocols, key) && a == Account(c.id, c.id, password, flow);
      ListedId(clients, c);
    }
  }

  lemma CustomAccountsListed(clients: seq<Client>, tag: string, password: bool, flow: string)
    ensures OnlyListed(CustomAccounts(clients, tag, password, flow), clients)
  {
    forall a | a in CustomAccounts(clients, tag, password, flow) ensures a.secret in Ids(clients) && a.email == a.secret {
      CustomAccountsExactly(clients, tag, password, flow, a);
      var c :| c in clients && GrantedCustom(c.protocols, tag) && a == Account(c.id, c.id, password, flow);
      ListedId(clients, c);
    }
  }

  /** No credential without an admitted client: whoever any inbound accepts is listed. */
  lemma OnlyAdmittedIds(cfg: Config, snap: Snapshot, inb: Inbound)
    requires inb in ServerInbounds(cfg, snap)
    ensures OnlyListed(inb.accounts, snap.clients)
  {
    var clients, g := snap.clients, snap.Global();
    if inb in BuiltinInbounds(cfg, snap) {
      AccountsListed(clients, g, VLESS_XHTTP, false, "");
      AccountsListed(clients, g, VLESS_HU, false, "");
      AccountsListed(clients, g, VLESS_WS, false, "");
      AccountsListed(clients, g, VMESS_WS, false, "");
      AccountsListed(clients, g, TROJAN_WS, true, "");
      AccountsListed(clients, g, VLESS_REALITY, false, FlowFor(RealityNet(cfg.realityNet)));
    } else if inb in CustomInbounds(snap.customs, clients, snap.keys.priv) {
      var ib := CustomInboundsSound(snap.customs, clients, snap.keys.priv, inb);
      CustomAccountsListed(clients, ib.tag, ib.protocol == "trojan", if ib.security == "reality" then FlowFor(ib.network) else "");
    } else {
      assert inb == ApiInbound(cfg);
    }
  }

  // ---------- where and how it listens ----------

  /** Reality faces the public, everything else hides behind the panel without encryption of
      its own; a service name belongs to gRPC, and gRPC and TCP have no path; trojan credentials are
      passwords, and the vision flow goes with Reality over TCP. */
  predicate Shaped(inb: Inbound) {
    && inb.listen == (if inb.stream.security == "reality" then "0.0.0.0" else "127.0.0.1")
    && (inb.stream.security == "reality" || (inb.stream.security == "" && inb.stream.serverName == ""))
    && (inb.stream.network == "grpc" || inb.stream.service == "")
    && (inb.stream.network == "grpc" || inb.stream.network == "tcp" ==> inb.stream.path == "")
    && forall i :: 0 <= i < |inb.accounts| ==>
         var a := inb.accounts[i];
         && a.email == a.secret && a.password == (inb.protocol == "trojan")
         && a.flow == if inb.stream.security == "reality" && inb.stream.network == "tcp" then "xtls-rprx-vision" else ""
  }

  predicate Uniform(accounts: seq<Account>, password: bool, flow: string) {
    forall i :: 0 <= i < |accounts| ==>
      accounts[i].email == accounts[i].secret && accounts[i].password == password && accounts[i].flow == flow
  }

  lemma {:induction false} AccountsUniform(clients: seq<Client>, global: Toggles, key: string, password: bool, flow: string)
    ensures Uniform(AccountsFor(clients, global, key, password, flow), password, flow)
  {
    if clients != [] { AccountsUniform(clients[..|clients| - 1], global, key, password, flow); }
  }

  lemma {:induction false} CustomUniform(clients: seq<Client>, tag: string, password: bool, flow: string)
    ensures Uniform(CustomAccounts(clients, tag, password, flow), password, flow)
  {
    if clients != [] { CustomUniform(clients[..|clients| - 1], tag, password, flow); }
  }

  lemma CustomShaped(ib: CustomInbound, clients: seq<Client>)
    ensures Shaped(CustomServer(ib, clients))
  {
    hide CustomAccounts;
    CustomUniform(clients, ib.tag, ib.protocol == "trojan", if ib.security == "reality" then FlowFor(ib.network) else "");
  }

  lemma BuiltinsShaped(cfg: Config, snap: Snapshot)
    ensures forall k :: 0 <= k < 6 ==> Shaped(ServerCandidates(cfg, snap)[k])
  {
    hide AccountsFor;
    var clients, g := snap.clients, snap.Global();
    AccountsUniform(clients, g, VLESS_XHTTP, false, "");
    AccountsUniform(clients, g, VLESS_HU, false, "");
    AccountsUniform(clients, g, VLESS_WS, false, "");
    AccountsUniform(clients, g, VMESS_WS, false, "");
    AccountsUniform(clients, g, TROJAN_WS, true, "");
    AccountsUniform(clients, g, VLESS_REALITY, false, FlowFor(RealityNet(cfg.realityNet)));
  }

  /** Every inbound of every built config is so. */
  lemma EveryInboundShaped(cfg: Config, snap: Snapshot, inb: Inbound)
    requires inb in ServerInbounds(cfg, snap)
    ensures Shaped(inb)
  {
    assert |ServerGrants(snap)| == |ServerCandidates(cfg, snap)| == 6;
    hide Shaped, CustomServer, CustomInbounds, XhttpInbound, HuInbound, WsInbound, VmessInbound, TrojanInbound, RealityInbound;
    if inb in BuiltinInbounds(cfg, snap) {
      ChosenExactly(ServerGrants(snap), ServerCandidates(cfg, snap), inb);
      BuiltinsShaped(cfg, snap);
    } else if inb in CustomInbounds(snap.customs, snap.clients, snap.keys.priv) {
      var ib := CustomInboundsSound(snap.customs, snap.clients, snap.keys.priv, inb);
      CustomShaped(ib, snap.clients);
    } else {
      ApiShaped(cfg);
    }
  }

  lemma ApiShaped(cfg: Config)
    ensures Shaped(ApiInbound(cfg))
  {
  }
}
