/** End to end: the table of custom inbounds, the server config built from it and the routes
    in front of it agree on ports (internal/api/handlers.go, proxy.go; internal/xray/config.go). */
module PortsAndRoutes {
  import opened Wrappers
  import opened Decimal
  import opened Policy
  import opened ServerConfig
  import opened Inbounds
  import opened Routing
  import Endpoints

  predicate DistinctPorts(s: seq<Inbound>) {
    forall i, j :: 0 <= i < j < |s| ==> s[i].port != s[j].port
  }

  predicate Fixed(p: int) { p == PORT_WS || p == PORT_XHTTP || p == PORT_VMESS || p == PORT_TROJAN || p == PORT_HU }

  /** Ports neither the built-in inbounds nor `freeLocalPort` hand out. */
  predicate Spare(p: int) { !Fixed(p) && !(FIRST_LOCAL <= p <= LAST_LOCAL) }

  /** The panel itself listens on `h`. */
  predicate HttpPort(cfg: Config, h: int) { cfg.httpPort != "" && AllDigits(cfg.httpPort) && h == AtoiValue(cfg.httpPort) }

  predicate ConfigOk(cfg: Config) { Spare(cfg.appPort) && Spare(cfg.apiPort) && cfg.appPort != cfg.apiPort }

  /** Every config ever built from a valid table listens on pairwise distinct ports. */
  ghost predicate AlwaysDistinct(cfg: Config) {
    forall table, snap: Snapshot :: TableOk(cfg, table) && snap.customs == LoadCustoms(table)
      ==> DistinctPorts(ServerInbounds(cfg, snap))
  }

  // ---------- built-in ports ----------

  predicate From(c: seq<Inbound>, items: seq<Inbound>, k: nat)
    requires k <= |items|
  {
    forall i :: 0 <= i < |c| ==> exists j :: 0 <= j < k && c[i] == items[j]
  }

  lemma ChosenDistinct(on: seq<bool>, items: seq<Inbound>)
    requires |on| == |items| == 6 && DistinctPorts(items)
    ensures DistinctPorts(Chosen(on, items)) && From(Chosen(on, items), items, 6)
  {
    var c0: seq<Inbound> := [];
    assert DistinctPorts(c0) && From(c0, items, 0);
    hide DistinctPorts, From, Pick;
    var c1 := PickNext(c0, items, 0, on);
    var c2 := PickNext(c1, items, 1, on);
    var c3 := PickNext(c2, items, 2, on);
    var c4 := PickNext(c3, items, 3, on);
    var c5 := PickNext(c4, items, 4, on);
    var c6 := PickNext(c5, items, 5, on);
  }

  lemma PickNext(c: seq<Inbound>, items: seq<Inbound>, k: nat, on: seq<bool>) returns (d: seq<Inbound>)
    requires k < |items| == |on| && DistinctPorts(items) && DistinctPorts(c) && From(c, items, k)
    ensures d == Pick(c, on[k], items[k]) && DistinctPorts(d) && From(d, items, k + 1)
  {
    d := Pick(c, on[k], items[k]);
  }

  /** The built-in inbounds listen on distinct ports, each of them fixed or `AppPort`. */
  lemma BuiltinPorts(cfg: Config, snap: Snapshot)
    requires Spare(cfg.appPort)
    ensures DistinctPorts(BuiltinInbounds(cfg, snap))
    ensures forall i :: 0 <= i < |BuiltinInbounds(cfg, snap)| ==>
              var p := BuiltinInbounds(cfg, snap)[i].port; p == cfg.appPort || Fixed(p)
  {
    hide AccountsFor, Chosen, Pick;
    var items := ServerCandidates(cfg, snap);
    assert DistinctPorts(items);
    ChosenDistinct(ServerGrants(snap), items);
  }

  // ---------- custom ports ----------

  /** Every custom inbound of the config comes from a row and listens on that row's port. */
  lemma CustomFromRow(cfg: Config, table: seq<Row>, clients: seq<Client>, priv: string, inb: Inbound) returns (k: nat)
    requires RowsOk(cfg, table) && inb in CustomInbounds(LoadCustoms(table), clients, priv)
    ensures k < |table| && RowOk(cfg, table[k]) && inb == CustomServer(table[k].ib, clients)
    ensures inb.port == ListenPort(table[k].ib)
  {
    hide RowsOk, CustomInbounds;
    var ib := CustomInboundsSound(LoadCustoms(table), clients, priv, inb);
    k :| 0 <= k < |table| && LoadCustoms(table)[k] == ib;
    RowAt(cfg, table, k);
  }

  lemma {:induction false} CustomPortsDistinct(cfg: Config, table: seq<Row>, clients: seq<Client>, priv: string)
    requires RowsOk(cfg, table)
    ensures DistinctPorts(CustomInbounds(LoadCustoms(table), clients, priv))
  {
    hide CustomServer, RowOk, Renderable;
    if table != [] {
      var n := |table| - 1;
      var rest, last := table[..n], table[n];
      CustomPortsDistinct(cfg, rest, clients, priv);
      assert LoadCustoms(table)[..n] == LoadCustoms(rest);
      var c := CustomInbounds(LoadCustoms(rest), clients, priv);
      var newest := CustomServer(Loaded(last), clients);
      forall i | 0 <= i < |c| ensures c[i].port != newest.port {
        var k := CustomFromRow(cfg, rest, clients, priv, c[i]);
        LastPort(cfg, rest, last, clients, k);
      }
      AddDistinct(c, Renderable(Loaded(last), priv), newest);
    }
  }

  lemma LastPort(cfg: Config, rest: seq<Row>, last: Row, clients: seq<Client>, k: nat)
    requires Admissible(cfg, rest, last) && k < |rest|
    ensures ListenPort(rest[k].ib) != CustomServer(Loaded(last), clients).port
  {
    hide CustomAccounts, CustomStream, WellFormed, Collides, BuiltinPort;
  }

  lemma AddDistinct(c: seq<Inbound>, on: bool, x: Inbound)
    requires DistinctPorts(c) && forall i :: 0 <= i < |c| ==> c[i].port != x.port
    ensures DistinctPorts(c + IfThen(on, x))
  {
  }

  /** A row's port is neither built in, nor the API's, nor the panel's own. */
  lemma RowPortFree(cfg: Config, r: Row, h: int)
    requires RowOk(cfg, r) && ConfigOk(cfg)
    ensures ListenPort(r.ib) != cfg.appPort && ListenPort(r.ib) != cfg.apiPort && !Fixed(ListenPort(r.ib))
    ensures Spare(h) && HttpPort(cfg, h) ==> ListenPort(r.ib) != h
  {
    hide Loaded, Collides, AllDigits, AtoiValue;
  }

  /** The customs that the renderers load from a valid table are the combinations their
      agreement is proved for. */
  lemma LoadedWellFormed(cfg: Config, table: seq<Row>)
    requires TableOk(cfg, table)
    ensures Endpoints.AllWellFormed(LoadCustoms(table))
  {
    hide RowsOk, WellFormed, Collides, BuiltinPort;
    forall i | 0 <= i < |table| ensures WellFormed(LoadCustoms(table)[i]) { RowAt(cfg, table, i); }
  }

  // ---------- all ports ----------

  lemma ThreeParts(b: seq<Inbound>, c: seq<Inbound>, x: Inbound)
    requires DistinctPorts(b) && DistinctPorts(c)
    requires forall i :: 0 <= i < |b| ==> b[i].port != x.port
    requires forall i :: 0 <= i < |c| ==> c[i].port != x.port
    requires forall i, j :: 0 <= i < |b| && 0 <= j < |c| ==> b[i].port != c[j].port
    ensures DistinctPorts(b + c + [x])
  {
  }

  /** With spare, distinct panel ports no two inbounds of the config share a port, and none
      takes the panel's own. */
  lemma PortsDistinct(cfg: Config, table: seq<Row>, snap: Snapshot, h: int)
    requires ConfigOk(cfg) && TableOk(cfg, table) && snap.customs == LoadCustoms(table)
    ensures DistinctPorts(ServerInbounds(cfg, snap))
    ensures HttpPort(cfg, h) && Spare(h) && h != cfg.appPort && h != cfg.apiPort
        ==> forall i :: 0 <= i < |ServerInbounds(cfg, snap)| ==> ServerInbounds(cfg, snap)[i].port != h
  {
    hide BuiltinInbounds, CustomInbounds, RowsOk, CustomServer, RowOk, DistinctPorts, ListenPort, BuiltinPort;
    var b, c := BuiltinInbounds(cfg, snap), CustomInbounds(snap.customs, snap.clients, snap.keys.priv);
    BuiltinPorts(cfg, snap);
    CustomPortsDistinct(cfg, table, snap.clients, snap.keys.priv);
    forall j | 0 <= j < |c|
      ensures c[j].port != cfg.appPort && c[j].port != cfg.apiPort && !Fixed(c[j].port)
        && (Spare(h) && HttpPort(cfg, h) ==> c[j].port != h)
    {
      var k := CustomFromRow(cfg, table, snap.clients, snap.keys.priv, c[j]);
      RowPortFree(cfg, table[k], h);
    }
    ThreeParts(b, c, ApiInbound(cfg));
  }

  // ---------- and exactly then ----------

  /** A snapshot that renders every built-in inbound. */
  function Everything(customs: seq<CustomInbound>): Snapshot {
    Snapshot(map[], "", RealityKeys("k", "", ""), [], customs)
  }

  lemma EverythingRendered(cfg: Config, customs: seq<CustomInbound>)
    ensures BuiltinInbounds(cfg, Everything(customs)) == ServerCandidates(cfg, Everything(customs))
    ensures ServerInbounds(cfg, Everything(customs))
         == ServerCandidates(cfg, Everything(customs)) + CustomInbounds(customs, [], "k") + [ApiInbound(cfg)]
  {
    var snap := Everything(customs);
    assert |ServerCandidates(cfg, snap)| == 6;
    hide AccountsFor, ServerCandidates, CustomInbounds;
    assert ServerGrants(snap) == [true, true, true, true, true, true];
  }

  function LongPath(cfg: Config): string {
    ['/'] + seq(1 + |cfg.wsPath| + |cfg.xhttpPath| + |cfg.huPath| + |cfg.vmessPath| + |cfg.trojanPath|, _ => 'z')
  }

  function LocalRow(cfg: Config, p: int): Row {
    Row(CustomInbound("t", "", "vless", "ws", "tls", 0, p, LongPath(cfg), ""), "")
  }

  lemma LongPathFree(cfg: Config)
    ensures PathShape(LongPath(cfg)) && !Collides(cfg, LongPath(cfg))
  {
    var path := LongPath(cfg);
    assert path[1] == 'z' && path[|path| - 1] == 'z' && PathOk(path);
    assert Lowered(path)[1] == 'z' && |Lowered(path)| == |path|;
  }

  lemma LocalRowOk(cfg: Config, p: int)
    requires FIRST_LOCAL <= p <= LAST_LOCAL
    ensures TableOk(cfg, [LocalRow(cfg, p)])
  {
    var r := LocalRow(cfg, p);
    LongPathFree(cfg);
    assert RowOk(cfg, r) by { hide Collides, PathShape, LongPath; }
    hide RowOk, LongPath;
    var t := [r];
    assert t[..|t| - 1] == [] && RowsOk(cfg, []) && Admissible(cfg, [], t[|t| - 1]);
    assert RowsOk(cfg, t);
  }

  /** A local row on the port of a panel service clashes with it. */
  lemma LocalClash(cfg: Config, p: int)
    requires FIRST_LOCAL <= p <= LAST_LOCAL && (p == cfg.appPort || p == cfg.apiPort)
    ensures !AlwaysDistinct(cfg)
  {
    hide TableOk, CustomAccounts;
    var table := [LocalRow(cfg, p)];
    LocalRowOk(cfg, p);
    var snap := Everything(LoadCustoms(table));
    EverythingRendered(cfg, snap.customs);
    assert snap.customs[..0] == [] && snap.customs[0] == LocalRow(cfg, p).ib;
    var c := CustomInbounds(snap.customs, [], "k");
    assert c == [CustomServer(snap.customs[0], [])];
    var all := ServerInbounds(cfg, snap);
    assert all[5] == RealityInbound(cfg, snap) && all[6] == c[0] && all[7] == ApiInbound(cfg);
    assert !DistinctPorts(all);
  }

  lemma PanelClash(cfg: Config)
    requires Fixed(cfg.appPort) || Fixed(cfg.apiPort) || cfg.appPort == cfg.apiPort
    ensures !AlwaysDistinct(cfg)
  {
    hide AccountsFor;
    var table: seq<Row> := [];
    var snap := Everything(LoadCustoms(table));
    EverythingRendered(cfg, snap.customs);
    assert LoadCustoms(table) == [];
    var all := ServerInbounds(cfg, snap);
    assert all[6] == ApiInbound(cfg);
    assert all[0].port == PORT_XHTTP && all[1].port == PORT_HU && all[2].port == PORT_WS
        && all[3].port == PORT_VMESS && all[4].port == PORT_TROJAN && all[5].port == cfg.appPort;
    assert !DistinctPorts(all);
  }

  /** All listen ports of all built configs are distinct exactly when the two configured
      panel ports are different and spare. */
  lemma PortsDistinctExactly(cfg: Config)
    ensures AlwaysDistinct(cfg) <==> ConfigOk(cfg)
  {
    hide ServerInbounds, TableOk, DistinctPorts, LoadCustoms;
    if ConfigOk(cfg) {
      forall table, snap: Snapshot | TableOk(cfg, table) && snap.customs == LoadCustoms(table)
        ensures DistinctPorts(ServerInbounds(cfg, snap))
      {
        PortsDistinct(cfg, table, snap, 0);
      }
    } else if FIRST_LOCAL <= cfg.appPort <= LAST_LOCAL {
      LocalClash(cfg, cfg.appPort);
    } else if FIRST_LOCAL <= cfg.apiPort <= LAST_LOCAL {
      LocalClash(cfg, cfg.apiPort);
    } else {
      PanelClash(cfg);
    }
  }

  // ---------- from a request path to an inbound ----------

  lemma TableStored(cfg: Config, table: seq<Row>)
    requires RowsOk(cfg, table)
    ensures Stored(table)
  {
    hide RowsOk, WellFormed, Loaded, Collides, BuiltinPort;
    forall i | 0 <= i < |table| ensures -0x8000_0000 <= table[i].ib.lport < 0x8000_0000 { RowAt(cfg, table, i); }
  }

  predicate TlsRow(table: seq<Row>, i: int) { 0 <= i < |table| && table[i].ib.security == "tls" }

  /** The registry holds the TLS rows, each under its own path. */
  lemma {:induction false} RoutesExactly(cfg: Config, table: seq<Row>, i: nat)
    requires RowsOk(cfg, table) && TlsRow(table, i)
    ensures Stored(table)
    ensures table[i].ib.path in Routes(cfg, table)
    ensures IsInt64(table[i].ib.lport) && Routes(cfg, table)[table[i].ib.path] == RouteTo(table[i].ib.lport, table[i].ib.network)
    decreases |table|
  {
    hide WellFormed, Loaded, Collides, BuiltinPort, PathOk, RouteTo;
    var n := |table| - 1;
    TableStored(cfg, table);
    RowAt(cfg, table, i);
    if i < n {
      RowsApart(cfg, table, i, n);
      RoutesExactly(cfg, table[..n], i);
      assert table[n].ib.security == "tls" ==> table[i].ib.path != table[n].ib.path;
    }
  }

  lemma {:induction false} RoutesFromRows(cfg: Config, table: seq<Row>, k: string) returns (i: nat)
    requires Stored(table) && k in Routes(cfg, table)
    ensures TlsRow(table, i) && table[i].ib.path == k
  {
    hide Collides, RouteTo;
    var n := |table| - 1;
    if Registered(cfg, table[n].ib) && table[n].ib.path == k {
      i := n;
    } else {
      i := RoutesFromRows(cfg, table[..n], k);
    }
  }

  /** Row `i` has the longest TLS path that is a whole-segment prefix of the request. */
  ghost predicate BestRow(table: seq<Row>, i: int, p: string) {
    && TlsRow(table, i) && Matches(table[i].ib.path, p)
    && forall j :: TlsRow(table, j) && Matches(table[j].ib.path, p) ==> |table[j].ib.path| <= |table[i].ib.path|
  }

  /** For every request path: the best row's local port is dialled, and without a matching
      row the panel answers itself. */
  lemma EveryRequestRouted(cfg: Config, table: seq<Row>, p: string)
    requires RowsOk(cfg, table)
    ensures Stored(table)
    ensures forall i :: BestRow(table, i, p) ==> IsInt64(table[i].ib.lport)
    ensures forall i :: BestRow(table, i, p) ==>
              LongestMatch(Routes(cfg, table), p) == Some(RouteTo(table[i].ib.lport, table[i].ib.network))
    ensures (forall i :: TlsRow(table, i) ==> !Matches(table[i].ib.path, p)) ==> LongestMatch(Routes(cfg, table), p) == None
  {
    hide RouteTo, Matches, RowsOk, Routes;
    TableStored(cfg, table);
    forall i | BestRow(table, i, p)
      ensures IsInt64(table[i].ib.lport)
      ensures LongestMatch(Routes(cfg, table), p) == Some(RouteTo(table[i].ib.lport, table[i].ib.network))
    {
      BestIsLongest(cfg, table, p, i);
    }
    if forall i :: TlsRow(table, i) ==> !Matches(table[i].ib.path, p) {
      forall k | IsLongest(Routes(cfg, table), p, k) ensures false { var i := RoutesFromRows(cfg, table, k); }
    }
  }

  /** A registry read from a stream that broke, or without some rows, sends a request at most
      to a row whose path it has; the longest such row among those that arrived. */
  lemma PartialRegistryRoutes(cfg: Config, table: seq<Row>, r: Reading, p: string)
    requires TableOk(cfg, table)
    ensures Stored(Delivered(table, r))
    ensures forall i :: BestRow(Delivered(table, r), i, p) ==>
              Delivered(table, r)[i] in table && IsInt64(Delivered(table, r)[i].ib.lport)
    ensures forall i :: BestRow(Delivered(table, r), i, p) ==>
              LongestMatch(Routes(cfg, Delivered(table, r)), p)
              == Some(RouteTo(Delivered(table, r)[i].ib.lport, Delivered(table, r)[i].ib.network))
    ensures (forall i :: TlsRow(Delivered(table, r), i) ==> !Matches(Delivered(table, r)[i].ib.path, p))
        ==> LongestMatch(Routes(cfg, Delivered(table, r)), p) == None
  {
    hide RowsOk, Routes, Matches, RouteTo;
    DeliveredKeepsRows(cfg, table, r);
    EveryRequestRouted(cfg, Delivered(table, r), p);
  }

  lemma BestIsLongest(cfg: Config, table: seq<Row>, p: string, i: nat)
    requires RowsOk(cfg, table) && BestRow(table, i, p)
    ensures Stored(table) && IsInt64(table[i].ib.lport)
    ensures LongestMatch(Routes(cfg, table), p) == Some(RouteTo(table[i].ib.lport, table[i].ib.network))
  {
    hide RouteTo, Matches, RowsOk, Routes;
    RoutesExactly(cfg, table, i);
    var m, k := Routes(cfg, table), table[i].ib.path;
    RoutesSound(cfg, table, k);
    forall other | other in m && Matches(other, p) ensures |other| <= |k| { var j := RoutesFromRows(cfg, table, other); }
    assert IsLongest(m, p, k);
  }

  /** The port in the address a route dials. */
  function DialledPort(r: Route): Option<int> {
    if LOOPBACK <= r.target then Strconv(r.target[|LOOPBACK|..]) else None
  }

  /** The inbound is listed once, and no other one has its port. */
  ghost predicate OnlyListener(s: seq<Inbound>, inb: Inbound) {
    exists i :: 0 <= i < |s| && s[i] == inb && NoOther(s, i)
  }

  predicate NoOther(s: seq<Inbound>, i: nat)
    requires i < |s|
  {
    forall j :: 0 <= j < |s| && j != i ==> s[j].port != s[i].port
  }

  /** A request for a TLS inbound's own path reaches that inbound: the route dials its local
      port, where exactly this inbound listens. */
  lemma OwnPathReachesInbound(cfg: Config, table: seq<Row>, snap: Snapshot, i: nat)
    requires ConfigOk(cfg) && TableOk(cfg, table) && snap.customs == LoadCustoms(table) && TlsRow(table, i)
    ensures Stored(table)
    ensures var r := LongestMatch(Routes(cfg, table), table[i].ib.path);
            r.Some? && DialledPort(r.value) == Some(table[i].ib.lport) && r.value.network == table[i].ib.network
    ensures OnlyListener(ServerInbounds(cfg, snap), CustomServer(table[i].ib, snap.clients))
         && CustomServer(table[i].ib, snap.clients).port == table[i].ib.lport
  {
    hide RowsOk, Routes, Collides, BuiltinPort, PathShape, WellFormed, ServerInbounds;
    var ib := table[i].ib;
    RowAt(cfg, table, i);
    assert BestRow(table, i, ib.path);
    EveryRequestRouted(cfg, table, ib.path);
    Int64RoundTrip(ib.lport);
    assert (LOOPBACK + Int64Text(ib.lport))[|LOOPBACK|..] == Int64Text(ib.lport);
    Listens(cfg, table, snap, i);
  }

  lemma Listens(cfg: Config, table: seq<Row>, snap: Snapshot, i: nat)
    requires ConfigOk(cfg) && TableOk(cfg, table) && snap.customs == LoadCustoms(table) && TlsRow(table, i)
    ensures OnlyListener(ServerInbounds(cfg, snap), CustomServer(table[i].ib, snap.clients))
  {
    hide RowsOk, Collides, BuiltinPort, PathShape, WellFormed, CustomServer, BuiltinInbounds, CustomInbounds;
    var ib := table[i].ib;
    RowAt(cfg, table, i);
    PortsDistinct(cfg, table, snap, 0);
    assert LoadCustoms(table)[i] == ib;
    CustomInboundsComplete(snap.customs, snap.clients, snap.keys.priv, ib);
    var s, inb := ServerInbounds(cfg, snap), CustomServer(ib, snap.clients);
    assert inb in s;
    UniqueListener(s, inb);
  }

  lemma UniqueListener(s: seq<Inbound>, inb: Inbound)
    requires DistinctPorts(s) && inb in s
    ensures OnlyListener(s, inb)
  {
    var i :| 0 <= i < |s| && s[i] == inb;
    assert NoOther(s, i);
  }
}
