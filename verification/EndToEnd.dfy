/** From a link to the inbound that accepts it: the three renderings, the router in front of
    them and the table behind them, put together (`registerBuiltins`, `serveMuxWithCustoms`,
    internal/api/proxy.go). */
module EndToEnd {
  import opened Wrappers
  import opened Decimal
  import opened Policy
  import opened ServerConfig
  import opened Links
  import opened ClientConfig
  import opened Endpoints
  import opened ThreeWay
  import opened Inbounds
  import opened Routing
  import opened PortsAndRoutes
  import LinkText

  // ---------- the fixed routes ----------

  datatype Fixture = Fixture(path: string, route: Route)

  /** `registerBuiltins`: the five built-in paths and where they lead. */
  function Fixtures(cfg: Config): seq<Fixture> {
    [Fixture(cfg.wsPath, Route(LOOPBACK + "10001", "ws")), Fixture(cfg.xhttpPath, Route(LOOPBACK + "10002", "xhttp")),
     Fixture(cfg.vmessPath, Route(LOOPBACK + "10004", "ws")), Fixture(cfg.trojanPath, Route(LOOPBACK + "10005", "ws")),
     Fixture(cfg.huPath, Route(LOOPBACK + "10006", "httpupgrade"))]
  }

  /** Each path is a pattern by itself and, with a slash, for the subtree below. */
  predicate Under(b: string, p: string) {
    p == b || (if b != "" && b[|b| - 1] == '/' then b <= p else b + ['/'] <= p)
  }

  /** The mux prefers the longest pattern. */
  ghost predicate Wins(fs: seq<Fixture>, p: string, i: nat) {
    && i < |fs| && Under(fs[i].path, p)
    && forall j :: 0 <= j < |fs| && Under(fs[j].path, p) ==> |fs[j].path| <= |fs[i].path|
  }

  /** No pattern is registered twice, with or without the slash; the program would stop at
      its start. */
  predicate NoneTwice(fs: seq<Fixture>) {
    forall i, j :: 0 <= i < |fs| && 0 <= j < |fs| && i != j ==> fs[i].path != fs[j].path && fs[i].path + ['/'] != fs[j].path
  }

  ghost function FixedRoute(fs: seq<Fixture>, p: string): (r: Option<Route>)
    requires NoneTwice(fs)
    ensures forall i: nat :: Wins(fs, p, i) ==> r == Some(fs[i].route)
  {
    if i: nat :| Wins(fs, p, i) then
      assert forall j: nat :: Wins(fs, p, j) ==> j == i by {
        forall j: nat | Wins(fs, p, j) ensures j == i {
          assert |fs[i].path| == |fs[j].path| && fs[i].path == p[..|fs[i].path|] && fs[j].path == p[..|fs[j].path|];
        }
      }
      Some(fs[i].route)
    else None
  }

  /** `serveMuxWithCustoms`: custom routes first, then the fixed ones. */
  ghost function Dispatch(cfg: Config, table: seq<Row>, p: string): Option<Route>
    requires Stored(table) && NoneTwice(Fixtures(cfg))
  {
    var custom := LongestMatch(Routes(cfg, table), p);
    if custom.Some? then custom else FixedRoute(Fixtures(cfg), p)
  }

  /** A path that the mux reads as a literal path: no host in front, no method, no wildcard. */
  predicate LiteralPath(b: string) {
    b != "" && b[0] == '/' && forall i :: 0 <= i < |b| ==> b[i] != '?' && b[i] != ' ' && b[i] != '{'
  }

  /** The built-in paths can serve: different, literal, and with no inner slash behind which a
      custom path could be registered. */
  ghost predicate RouterOk(cfg: Config) {
    && NoneTwice(Fixtures(cfg))
    && (forall i :: 0 <= i < 5 ==> LiteralPath(Fixtures(cfg)[i].path))
    && forall b, i :: IsBuiltinPath(cfg, b) ==> !OpenPrefix(cfg, b, i)
  }

  predicate OneSegment(b: string) { forall i :: 1 <= i < |b| ==> b[i] != '/' }

  /** Different literal paths of one segment always serve. */
  lemma SimplePathsServe(cfg: Config)
    requires NoneTwice(Fixtures(cfg))
    requires forall i :: 0 <= i < 5 ==> LiteralPath(Fixtures(cfg)[i].path) && OneSegment(Fixtures(cfg)[i].path)
    ensures RouterOk(cfg)
  {
    hide Collides, LiteralPath;
    forall b, i | IsBuiltinPath(cfg, b) ensures !OpenPrefix(cfg, b, i) {
      var fs := Fixtures(cfg);
      assert b == fs[0].path || b == fs[1].path || b == fs[2].path || b == fs[3].path || b == fs[4].path;
    }
  }

  /** A request for a built-in path is not captured and takes its fixed route. */
  lemma FixedPathDispatched(cfg: Config, table: seq<Row>, i: nat)
    requires RouterOk(cfg) && Stored(table) && i < 5
    ensures Dispatch(cfg, table, Fixtures(cfg)[i].path) == Some(Fixtures(cfg)[i].route)
  {
    hide OpenPrefix, Routes;
    var fs := Fixtures(cfg);
    var b := fs[i].path;
    assert IsBuiltinPath(cfg, b);
    BuiltinCapturedExactly(cfg, b);
    assert Wins(fs, b, i);
  }

  // ---------- what a client requests ----------

  /** The path of a URL; what follows the question mark is a query. */
  function UrlPath(s: string): string {
    match LinkText.Cut(s, '?') case None => s case Some((path, _)) => path
  }

  /** The path a client's requests start from: that of its stream, or the gRPC service.
      WebSocket and HTTPUpgrade clients request it as it is, XHTTP clients a session below it,
      and a gRPC call a method below it. */
  function BasePath(s: ClientStream): string {
    if s.network == "grpc" then "/" + s.service else UrlPath(s.path)
  }

  lemma {:induction false} NoQuery(s: string)
    requires '?' !in s
    ensures LinkText.Cut(s, '?') == None
  {
    if s != "" { NoQuery(s[1..]); }
  }

  lemma PathOfUrl(path: string)
    requires '?' !in path
    ensures UrlPath(path) == path && UrlPath(path + ED) == path
  {
    NoQuery(path);
    assert path + ED == path + ['?'] + "ed=2048";
    LinkText.CutAt(path, '?', "ed=2048");
  }

  // ---------- requests at and below a path ----------

  /** No TLS row has the request, or none with a longer path. */
  ghost predicate NoRow(table: seq<Row>, q: string) { forall j :: TlsRow(table, j) ==> !Matches(table[j].ib.path, q) }

  ghost predicate NoRowDeeper(table: seq<Row>, base: string, q: string) {
    forall j :: TlsRow(table, j) && Matches(table[j].ib.path, q) ==> |table[j].ib.path| <= |base|
  }

  predicate NoFixtureDeeper(fs: seq<Fixture>, base: string, q: string) {
    forall i :: 0 <= i < |fs| && Under(fs[i].path, q) ==> |fs[i].path| <= |base|
  }

  /** Some row is the longest of those that match. */
  lemma {:induction false} BestRowExists(table: seq<Row>, q: string, j: nat) returns (m: nat)
    requires TlsRow(table, j) && Matches(table[j].ib.path, q)
    ensures BestRow(table, m, q) && |table[m].ib.path| >= |table[j].ib.path|
    decreases |q| - |table[j].ib.path|
  {
    if i :| TlsRow(table, i) && Matches(table[i].ib.path, q) && |table[i].ib.path| > |table[j].ib.path| {
      m := BestRowExists(table, q, i);
    } else {
      m := j;
    }
  }

  lemma {:induction false} WinnerExists(fs: seq<Fixture>, q: string, j: nat) returns (m: nat)
    requires j < |fs| && Under(fs[j].path, q)
    ensures Wins(fs, q, m) && |fs[m].path| >= |fs[j].path|
    decreases |q| - |fs[j].path|
  {
    if i :| 0 <= i < |fs| && Under(fs[i].path, q) && |fs[i].path| > |fs[j].path| {
      m := WinnerExists(fs, q, i);
    } else {
      m := j;
    }
  }

  lemma RouteDials(port: int, network: string)
    requires IsInt64(port) && port != MIN_INT64
    ensures DialledPort(RouteTo(port, network)) == Some(port)
  {
    Int64RoundTrip(port);
    assert (LOOPBACK + Int64Text(port))[|LOOPBACK|..] == Int64Text(port);
  }

  /** A matching TLS row takes the request to the local port of some row of at least its length. */
  lemma RowTakes(cfg: Config, table: seq<Row>, q: string, j: nat) returns (m: nat)
    requires RowsOk(cfg, table) && NoneTwice(Fixtures(cfg)) && TlsRow(table, j) && Matches(table[j].ib.path, q)
    ensures Stored(table) && BestRow(table, m, q) && |table[m].ib.path| >= |table[j].ib.path|
    ensures FIRST_LOCAL <= table[m].ib.lport <= LAST_LOCAL
    ensures Dispatch(cfg, table, q) == Some(RouteTo(table[m].ib.lport, table[m].ib.network))
    ensures DialledPort(RouteTo(table[m].ib.lport, table[m].ib.network)) == Some(table[m].ib.lport)
  {
    hide RowsOk, NoneTwice, Matches, Routes, RouteTo, FixedRoute, Collides, PathShape, WellFormed, DialledPort;
    m := BestRowExists(table, q, j);
    EveryRequestRouted(cfg, table, q);
    RowAt(cfg, table, m);
    RouteDials(table[m].ib.lport, table[m].ib.network);
  }

  /** For every request at or below a TLS row's path: it is dialled at that row's port exactly
      when no other TLS row with a longer path has it. */
  lemma CustomArrivesExactly(cfg: Config, table: seq<Row>, k: nat, q: string)
    requires RowsOk(cfg, table) && NoneTwice(Fixtures(cfg)) && TlsRow(table, k) && Matches(table[k].ib.path, q)
    ensures Stored(table)
    ensures var r, ib := Dispatch(cfg, table, q), table[k].ib;
            r.Some? && IsInt64(ib.lport) && (NoRowDeeper(table, ib.path, q) ==> r == Some(RouteTo(ib.lport, ib.network)))
            && (DialledPort(r.value) == Some(ib.lport) <==> NoRowDeeper(table, ib.path, q))
  {
    var m := RowTakes(cfg, table, q, k);
    SameRow(cfg, table, k, m, q);
  }

  lemma SameRow(cfg: Config, table: seq<Row>, k: nat, m: nat, q: string)
    requires RowsOk(cfg, table) && TlsRow(table, k) && Matches(table[k].ib.path, q) && BestRow(table, m, q)
    ensures NoRowDeeper(table, table[k].ib.path, q) <==> m == k
    ensures m != k ==> table[m].ib.lport != table[k].ib.lport
  {
    hide RowsOk, Lowered;
    if m < k { RowsApart(cfg, table, m, k); } else if k < m { RowsApart(cfg, table, k, m); }
    assert table[k].ib.path == q[..|table[k].ib.path|] && table[m].ib.path == q[..|table[m].ib.path|];
  }

  /** For every request at or below a built-in path: it takes the fixed route of that path
      exactly when no TLS row has it and no longer built-in path does. */
  lemma FixedArrivesExactly(cfg: Config, table: seq<Row>, i: nat, q: string)
    requires RowsOk(cfg, table) && NoneTwice(Fixtures(cfg)) && i < 5 && Matches(Fixtures(cfg)[i].path, q)
    ensures Stored(table)
    ensures var r, fs := Dispatch(cfg, table, q), Fixtures(cfg);
            r.Some? && (NoRow(table, q) && NoFixtureDeeper(fs, fs[i].path, q) ==> r == Some(fs[i].route))
            && (DialledPort(r.value) == DialledPort(fs[i].route) <==> NoRow(table, q) && NoFixtureDeeper(fs, fs[i].path, q))
  {
    var fs := Fixtures(cfg);
    assert |fs| == 5 && Under(fs[i].path, q);
    FixedDials(cfg);
    hide RowsOk, NoneTwice, Matches, Under, DialledPort, RouteTo, Fixtures;
    TableStored(cfg, table);
    if j :| TlsRow(table, j) && Matches(table[j].ib.path, q) {
      var m := RowTakes(cfg, table, q, j);
    } else {
      EveryRequestRouted(cfg, table, q);
      var m := WinnerExists(fs, q, i);
      assert Dispatch(cfg, table, q) == Some(fs[m].route);
      assert NoFixtureDeeper(fs, fs[i].path, q) ==> |fs[m].path| == |fs[i].path|;
      if |fs[m].path| == |fs[i].path| { assert Wins(fs, q, i); }
    }
  }

  // ---------- the fixed ports ----------

  lemma FiveDigits(s: string)
    requires |s| == 5 && AllDigits(s)
    ensures Value(s) == 10000 * DigitValue(s[0]) + 1000 * DigitValue(s[1]) + 100 * DigitValue(s[2]) + 10 * DigitValue(s[3]) + DigitValue(s[4])
  {
    assert s[..4][..3] == s[..3] && s[..3][..2] == s[..2] && s[..2][..1] == s[..1] && s[..1][..0] == "";
    assert Value(s[..1]) == DigitValue(s[0]);
    assert Value(s[..2]) == 10 * Value(s[..1]) + DigitValue(s[1]);
    assert Value(s[..3]) == 10 * Value(s[..2]) + DigitValue(s[2]);
    assert Value(s[..4]) == 10 * Value(s[..3]) + DigitValue(s[3]);
  }

  lemma Dialled(text: string, network: string)
    requires |text| == 5 && AllDigits(text)
    ensures DialledPort(Route(LOOPBACK + text, network)) == Some(Value(text))
  {
    FiveDigits(text);
    StrconvOfDigits(text, false);
    assert (LOOPBACK + text)[|LOOPBACK|..] == text;
  }

  lemma FixedPorts()
    ensures AllDigits("10001") && AllDigits("10002") && AllDigits("10004") && AllDigits("10005") && AllDigits("10006")
    ensures Value("10001") == PORT_WS && Value("10002") == PORT_XHTTP && Value("10004") == PORT_VMESS
    ensures Value("10005") == PORT_TROJAN && Value("10006") == PORT_HU
  {
    FiveDigits("10001");
    FiveDigits("10002");
    FiveDigits("10004");
    FiveDigits("10005");
    FiveDigits("10006");
  }

  /** The five routes dial five different ports, none of them local to a row. */
  lemma FixedDials(cfg: Config)
    ensures forall i, j :: 0 <= i < 5 && 0 <= j < 5 && i != j ==>
              DialledPort(Fixtures(cfg)[i].route) != DialledPort(Fixtures(cfg)[j].route)
    ensures forall i, p :: 0 <= i < 5 && FIRST_LOCAL <= p <= LAST_LOCAL ==> DialledPort(Fixtures(cfg)[i].route) != Some(p)
  {
    hide DialledPort;
    FixedPorts();
    Dialled("10001", "ws");
    Dialled("10002", "xhttp");
    Dialled("10004", "ws");
    Dialled("10005", "ws");
    Dialled("10006", "httpupgrade");
  }

  // ---------- end to end ----------

  /** The request is dispatched to the address and port of this inbound, over its transport. */
  ghost predicate Arrives(cfg: Config, table: seq<Row>, q: string, inb: Inbound)
    requires Stored(table) && NoneTwice(Fixtures(cfg))
  {
    var r := Dispatch(cfg, table, q);
    && r.Some? && inb.listen + ":" <= r.value.target && DialledPort(r.value) == Some(inb.port)
    && r.value.network == inb.stream.network
  }

  /** Nothing else takes a request at or below this path of the inbound: no longer custom path,
      and for a built-in inbound no custom path at all and no longer built-in one. */
  ghost predicate Uncontested(cfg: Config, table: seq<Row>, snap: Snapshot, inb: Inbound, base: string, q: string) {
    if inb in BuiltinInbounds(cfg, snap) then NoRow(table, q) && NoFixtureDeeper(Fixtures(cfg), base, q)
    else NoRowDeeper(table, base, q)
  }

  /** The requests of this outbound go to the port on which exactly one inbound listens, one
      that holds the client's credential: the request for the path itself always, and any
      request below it exactly when nothing else takes that. */
  ghost predicate Reaches(cfg: Config, table: seq<Row>, snap: Snapshot, p: Proxy, inb: Inbound)
    requires Stored(table) && NoneTwice(Fixtures(cfg))
  {
    var base := BasePath(p.stream);
    && inb in ServerInbounds(cfg, snap) && ServedBy(cfg, snap, inb, p) && OnlyListener(ServerInbounds(cfg, snap), inb)
    && Arrives(cfg, table, base, inb)
    && forall q :: Matches(base, q) ==> (Arrives(cfg, table, q, inb) <==> Uncontested(cfg, table, snap, inb, base, q))
  }

  /** The fixed route of a built-in inbound, in config order. */
  function FixtureOf(k: nat): (i: nat)
    requires k < 5
    ensures i < 5
  {
    if k == 0 then 1 else if k == 1 then 4 else if k == 2 then 0 else if k == 3 then 2 else 3
  }

  /** What the fixed route of a built-in inbound agrees on with it. */
  predicate Fits(f: Fixture, inb: Inbound) {
    && inb.stream.path == f.path && inb.stream.network == f.route.network && inb.stream.network != "grpc"
    && DialledPort(f.route) == Some(inb.port) && inb.listen + ":" == LOOPBACK
  }

  lemma FixtureFits(cfg: Config, snap: Snapshot, k: nat)
    requires k < 5
    ensures Fits(Fixtures(cfg)[FixtureOf(k)], ServerCandidates(cfg, snap)[k])
  {
    hide DialledPort, AccountsFor, RealityInbound;
    FixedPorts();
    Dialled("10001", "ws");
    Dialled("10002", "xhttp");
    Dialled("10004", "ws");
    Dialled("10005", "ws");
    Dialled("10006", "httpupgrade");
  }

  lemma BuiltinReached(cfg: Config, table: seq<Row>, snap: Snapshot, p: Proxy, inb: Inbound)
    requires RouterOk(cfg) && RowsOk(cfg, table) && Stored(table) && p.stream.security == "tls"
    requires inb in BuiltinInbounds(cfg, snap) && Serves(inb, p, EarlyData(p.stream.network))
    ensures var base := BasePath(p.stream);
            Arrives(cfg, table, base, inb)
            && forall q :: Matches(base, q) ==> (Arrives(cfg, table, q, inb) <==> Uncontested(cfg, table, snap, inb, base, q))
  {
    assert |Fixtures(cfg)| == 5 && |ServerGrants(snap)| == |ServerCandidates(cfg, snap)| == 6;
    assert BuiltinInbounds(cfg, snap) == Chosen(ServerGrants(snap), ServerCandidates(cfg, snap));
    hide XhttpInbound, HuInbound, WsInbound, VmessInbound, TrojanInbound, BasePath, Arrives, Matches, Fixtures, AccountsFor,
         RouterOk, RowsOk, BuiltinInbounds, Fits, Stored, NoRow, NoFixtureDeeper;
    ChosenExactly(ServerGrants(snap), ServerCandidates(cfg, snap), inb);
    var k: nat :| k < 6 && ServerGrants(snap)[k] && ServerCandidates(cfg, snap)[k] == inb;
    if k < 5 {
      FixtureFits(cfg, snap, k);
      FixtureReached(cfg, table, FixtureOf(k), p, inb);
    }
  }

  lemma FixtureReached(cfg: Config, table: seq<Row>, i: nat, p: Proxy, inb: Inbound)
    requires RouterOk(cfg) && RowsOk(cfg, table) && Stored(table) && i < 5 && |Fixtures(cfg)| == 5 && Fits(Fixtures(cfg)[i], inb)
    requires Serves(inb, p, EarlyData(p.stream.network))
    ensures var base := BasePath(p.stream);
            Arrives(cfg, table, base, inb) && base == Fixtures(cfg)[i].path
            && forall q :: Matches(base, q) ==>
                 (Arrives(cfg, table, q, inb) <==> NoRow(table, q) && NoFixtureDeeper(Fixtures(cfg), base, q))
  {
    PathOfFixture(cfg, i);
    FixedPathDispatched(cfg, table, i);
    assert NoneTwice(Fixtures(cfg));
    hide Dispatch, DialledPort, Fixtures, UrlPath, OpenPrefix, RouterOk, Matches, RowsOk, Stored, NoneTwice, NoRow, NoFixtureDeeper;
    var path := Fixtures(cfg)[i].path;
    assert path + "" == path;
    assert BasePath(p.stream) == path;
    forall q | Matches(path, q)
      ensures Arrives(cfg, table, q, inb) <==> NoRow(table, q) && NoFixtureDeeper(Fixtures(cfg), path, q)
    {
      FixedArrivesExactly(cfg, table, i, q);
    }
  }

  lemma PathOfFixture(cfg: Config, i: nat)
    requires RouterOk(cfg) && i < 5
    ensures |Fixtures(cfg)| == 5
    ensures var path := Fixtures(cfg)[i].path; UrlPath(path) == path && UrlPath(path + ED) == path
  {
    hide OpenPrefix;
    PathOfUrl(Fixtures(cfg)[i].path);
  }

  /** A stored path is where the client's requests start: it holds no question mark, and a gRPC path
      is its service behind one slash. */
  lemma RowPathIsBase(cfg: Config, r: Row)
    requires RowOk(cfg, r) && r.ib.security == "tls"
    ensures r.ib.network == "grpc" ==> "/" + Unslashed(r.ib.path) == r.ib.path
    ensures UrlPath(r.ib.path) == r.ib.path
  {
    hide Collides, WellFormed, UrlPath;
    if r.ib.network == "grpc" {
      var path := "/" + r.svc;
      assert r.ib.path == path && WordChar(r.svc[0]) && path[1..] == r.svc;
      assert Unslashed(r.svc) == r.svc;
    }
    forall i | 0 <= i < |r.ib.path| ensures r.ib.path[i] != '?' { assert PathChar(r.ib.path[i]); }
    PathOfUrl(r.ib.path);
  }

  lemma CustomReached(cfg: Config, table: seq<Row>, snap: Snapshot, p: Proxy, inb: Inbound)
    requires RouterOk(cfg) && ConfigOk(cfg) && TableOk(cfg, table) && snap.customs == LoadCustoms(table)
    requires p.stream.security == "tls"
    requires inb in CustomInbounds(snap.customs, snap.clients, snap.keys.priv) && Serves(inb, p, "")
    ensures Stored(table)
    ensures var base := BasePath(p.stream);
            Arrives(cfg, table, base, inb)
            && forall q :: Matches(base, q) ==> (Arrives(cfg, table, q, inb) <==> Uncontested(cfg, table, snap, inb, base, q))
  {
    assert NoneTwice(Fixtures(cfg));
    hide CustomInbounds, RouterOk, RowsOk, UrlPath, CustomAccounts, Collides, PathShape, Arrives, BuiltinInbounds, NoRowDeeper,
         Fixtures, NoneTwice, ConfigOk, BuiltinPort, WellFormed;
    var k := CustomFromRow(cfg, table, snap.clients, snap.keys.priv, inb);
    NotBuiltin(cfg, snap, table[k], inb);
    var ib := table[k].ib;
    assert ib.security == "tls" by { TlsOfRow(cfg, table[k], snap.clients); }
    RowPathIsBase(cfg, table[k]);
    assert BasePath(p.stream) == ib.path by { RowWellFormed(cfg, table[k]); CustomPath(ib, snap.clients, p); }
    hide CustomServer, Matches, RowOk;
    RowArrives(cfg, table, k, snap, inb);
  }

  lemma RowWellFormed(cfg: Config, r: Row)
    requires RowOk(cfg, r)
    ensures WellFormed(r.ib)
  {
  }

  lemma TlsOfRow(cfg: Config, r: Row, clients: seq<Client>)
    requires RowOk(cfg, r) && CustomServer(r.ib, clients).stream.security != "reality"
    ensures r.ib.security == "tls"
  {
    hide Collides, CustomAccounts;
  }

  /** A custom inbound is none of the built-in ones: its port is its own. */
  lemma NotBuiltin(cfg: Config, snap: Snapshot, r: Row, inb: Inbound)
    requires ConfigOk(cfg) && RowOk(cfg, r) && inb.port == ListenPort(r.ib)
    ensures inb !in BuiltinInbounds(cfg, snap)
  {
    hide BuiltinInbounds, RowOk, ListenPort;
    RowPortFree(cfg, r, 0);
    PortsAndRoutes.BuiltinPorts(cfg, snap);
  }

  lemma RowArrives(cfg: Config, table: seq<Row>, k: nat, snap: Snapshot, inb: Inbound)
    requires RowsOk(cfg, table) && NoneTwice(Fixtures(cfg)) && TlsRow(table, k)
    requires inb == CustomServer(table[k].ib, snap.clients) && inb.port == ListenPort(table[k].ib)
    ensures Stored(table)
    ensures Arrives(cfg, table, table[k].ib.path, inb)
    ensures forall q :: Matches(table[k].ib.path, q) ==>
              (Arrives(cfg, table, q, inb) <==> NoRowDeeper(table, table[k].ib.path, q))
  {
    hide RowsOk, NoneTwice, Dispatch, DialledPort, RouteTo, CustomAccounts;
    TableStored(cfg, table);
    var ib := table[k].ib;
    forall q | Matches(ib.path, q) ensures Arrives(cfg, table, q, inb) <==> NoRowDeeper(table, ib.path, q) {
      CustomArrivesExactly(cfg, table, k, q);
      NetworkOfRoute(ib.lport, ib.network);
      assert inb.listen + ":" == LOOPBACK;
    }
    assert Matches(ib.path, ib.path) && NoRowDeeper(table, ib.path, ib.path);
  }

  lemma NetworkOfRoute(port: int, network: string)
    requires IsInt64(port)
    ensures RouteTo(port, network).network == network && LOOPBACK <= RouteTo(port, network).target
  {
  }

  lemma CustomPath(ib: CustomInbound, clients: seq<Client>, p: Proxy)
    requires ib.security == "tls" && WellFormed(ib) && Serves(CustomServer(ib, clients), p, "")
    requires UrlPath(ib.path) == ib.path && (ib.network == "grpc" ==> "/" + Unslashed(ib.path) == ib.path)
    ensures BasePath(p.stream) == ib.path
  {
    hide UrlPath, CustomAccounts, Unslashed;
    assert CustomServer(ib, clients).stream.path + "" == CustomServer(ib, clients).stream.path;
  }

  /** Every outbound of an admitted client that goes through the panel's TLS front reaches an
      inbound with the client's credential, and no other inbound listens there. */
  lemma OutboundReaches(cfg: Config, table: seq<Row>, snap: Snapshot, client: Client, o: LinkOpts, b: Outbound)
      returns (inb: Inbound)
    requires ConfigOk(cfg) && RouterOk(cfg) && TableOk(cfg, table) && snap.customs == LoadCustoms(table)
    requires FromSnapshot(o, cfg, snap, client) && KeysPaired(snap)
    requires b in AllOutbounds(o) && b.proxy.stream.security == "tls"
    ensures Stored(table) && Reaches(cfg, table, snap, b.proxy, inb)
  {
    hide AllOutbounds, ConfigOk, RowsOk, ServerInbounds, BuiltinInbounds, CustomInbounds, Serves, Dispatch, DialledPort, BasePath,
         VisionRule, OnlyListener, DistinctPorts, LoadCustoms, OpenPrefix, Fixtures, Arrives, Uncontested, Matches;
    LoadedWellFormed(cfg, table);
    TableStored(cfg, table);
    inb := EveryOutboundIsServed(o, cfg, snap, client, b);
    PortsDistinct(cfg, table, snap, 0);
    UniqueListener(ServerInbounds(cfg, snap), inb);
    if inb in BuiltinInbounds(cfg, snap) && Serves(inb, b.proxy, EarlyData(b.proxy.stream.network)) {
      BuiltinReached(cfg, table, snap, b.proxy, inb);
    } else {
      CustomReached(cfg, table, snap, b.proxy, inb);
    }
  }

  /** Where a Reality outbound connects: the host of the main TCP proxy, which forwards to
      `AppPort`; the host of the second proxy, which forwards to its application port; or
      directly, and then the port is the one on which exactly this inbound listens. */
  ghost predicate Connects(cfg: Config, o: LinkOpts, snap: Snapshot, p: Proxy, inb: Inbound) {
    && inb in ServerInbounds(cfg, snap) && Serves(inb, p, "") && inb.listen == "0.0.0.0" && OnlyListener(ServerInbounds(cfg, snap), inb)
    && ((p.address == o.addr && p.port == inb.port)
        || (p.address == cfg.tcpHost && p.port == JsonPort(cfg.tcpPort) && inb.port == cfg.appPort)
        || (p.address == cfg.tcp2Host && p.port == JsonPort(cfg.tcp2Port) && inb.port == cfg.tcp2AppPort))
  }

  lemma CustomRealityConnects(cfg: Config, o: LinkOpts, snap: Snapshot, client: Client, ib: CustomInbound)
    requires FromSnapshot(o, cfg, snap, client) && KeysPaired(snap)
    requires ib in snap.customs && WellFormed(ib) && Linked(ib, o) && ib.security == "reality"
    requires DistinctPorts(ServerInbounds(cfg, snap))
    ensures Connects(cfg, o, snap, CustomProxy(ib, o), CustomServer(ib, snap.clients))
  {
    CustomRealityEndpoint(o, ib);
    hide BuiltinInbounds, CustomInbounds, DistinctPorts, OnlyListener, CustomProxy, Serves, RealityEndpoint, JsonPort;
    CustomServed(o, cfg, snap, client, ib);
    CustomInboundsComplete(snap.customs, snap.clients, snap.keys.priv, ib);
    assert CustomServer(ib, snap.clients).port == ib.port;
    UniqueListener(ServerInbounds(cfg, snap), CustomServer(ib, snap.clients));
  }

  lemma CustomRealityEndpoint(o: LinkOpts, ib: CustomInbound)
    requires WellFormed(ib) && ib.security == "reality" && Reachable(ib, o)
    ensures
      var p := CustomProxy(ib, o);
      || (p.address == o.addr && p.port == ib.port)
      || (p.address == o.cfg.tcp2Host && p.port == JsonPort(o.cfg.tcp2Port) && ib.port == o.cfg.tcp2AppPort)
  {
    CustomRealityPort(o, ib);
    AtoiOfText(ib.port);
  }

  lemma BuiltinRealityConnects(cfg: Config, o: LinkOpts, snap: Snapshot, client: Client)
    requires FromSnapshot(o, cfg, snap, client) && KeysPaired(snap) && JsonGrants(o)[0]
    requires DistinctPorts(ServerInbounds(cfg, snap))
    ensures Connects(cfg, o, snap, RealityProxy(o), RealityInbound(cfg, snap))
  {
    hide DistinctPorts, OnlyListener, JsonPort, AccountsFor, XhttpInbound, HuInbound, WsInbound, VmessInbound, TrojanInbound, CustomInbounds;
    ServedReality(o, cfg, snap, client);
    var inb := RealityInbound(cfg, snap);
    assert ServerGrants(snap)[5] && ServerCandidates(cfg, snap)[5] == inb;
    ChosenExactly(ServerGrants(snap), ServerCandidates(cfg, snap), inb);
    assert inb in ServerInbounds(cfg, snap);
    UniqueListener(ServerInbounds(cfg, snap), inb);
  }

  /** Every Reality outbound of an admitted client connects to an inbound that holds the
      client's credential. */
  lemma RealityConnects(cfg: Config, table: seq<Row>, snap: Snapshot, client: Client, o: LinkOpts, b: Outbound)
      returns (inb: Inbound)
    requires ConfigOk(cfg) && TableOk(cfg, table) && snap.customs == LoadCustoms(table)
    requires FromSnapshot(o, cfg, snap, client) && KeysPaired(snap)
    requires b in AllOutbounds(o) && b.proxy.stream.security == "reality"
    ensures Connects(cfg, o, snap, b.proxy, inb)
  {
    SecurityOfBuiltins(o);
    hide ConfigOk, TableOk, ServerInbounds, Connects, DistinctPorts, LoadCustoms, WellFormed, RealityInbound, CustomServer, CustomProxy,
         RealityProxy, WsProxy, HuProxy, XhttpProxy, VmessProxy, TrojanProxy, Reachable, GrantedCustom, CustomOutbounds, GrantedCustoms;
    LoadedWellFormed(cfg, table);
    PortsDistinct(cfg, table, snap, 0);
    if b in Tagged(BuiltinProxies(o)) {
      ChosenExactly(JsonGrants(o), JsonCandidates(o), b.proxy);
      var j: nat :| j < 6 && JsonGrants(o)[j] && JsonCandidates(o)[j] == b.proxy;
      assert j == 0;
      BuiltinRealityConnects(cfg, o, snap, client);
      inb := RealityInbound(cfg, snap);
    } else {
      var ib := CustomOutboundSound(o, GrantedCustoms(o.overrides, o.customs), |BuiltinProxies(o)|, b);
      GrantedIn(o.overrides, o.customs, ib);
      var i :| 0 <= i < |o.customs| && o.customs[i] == ib;
      SecurityOfCustom(o, ib);
      CustomRealityConnects(cfg, o, snap, client, ib);
      inb := CustomServer(ib, snap.clients);
    }
  }

  /** The link names the endpoint of this outbound, whose requests reach the inbound. */
  ghost predicate LeadsTo(cfg: Config, table: seq<Row>, snap: Snapshot, o: LinkOpts, l: Link, b: Outbound, inb: Inbound)
    requires Stored(table) && NoneTwice(Fixtures(cfg))
  {
    && b in AllOutbounds(o) && Pair(l, b.proxy)
    && (if b.proxy.stream.security == "tls" then Reaches(cfg, table, snap, b.proxy, inb) else Connects(cfg, o, snap, b.proxy, inb))
  }

  ghost predicate LinkReaches(cfg: Config, table: seq<Row>, snap: Snapshot, o: LinkOpts, l: Link)
    requires Stored(table) && NoneTwice(Fixtures(cfg))
  {
    exists b, inb :: LeadsTo(cfg, table, snap, o, l, b, inb)
  }

  lemma TlsOrReality(o: LinkOpts, b: Outbound)
    requires b in AllOutbounds(o)
    ensures b.proxy.stream.security == "tls" || b.proxy.stream.security == "reality"
  {
    hide TlsStream, RealityStream, JsonPort, AlpnText, RealityEndpoint;
    if b in Tagged(BuiltinProxies(o)) {
      ChosenExactly(JsonGrants(o), JsonCandidates(o), b.proxy);
      SecurityOfBuiltins(o);
    } else {
      var ib := CustomOutboundSound(o, GrantedCustoms(o.overrides, o.customs), |BuiltinProxies(o)|, b);
      SecurityOfCustom(o, ib);
    }
  }

  lemma SecurityOfBuiltins(o: LinkOpts)
    ensures |JsonGrants(o)| == |JsonCandidates(o)| == 6
    ensures forall j :: 0 <= j < 6 ==> JsonCandidates(o)[j].stream.security == if j == 0 then "reality" else "tls"
  {
  }

  lemma SecurityOfCustom(o: LinkOpts, ib: CustomInbound)
    requires Reachable(ib, o)
    ensures CustomProxy(ib, o).stream.security == if ib.security == "reality" then "reality" else "tls"
  {
    hide RealityEndpoint, JsonPort;
  }

  lemma LinkReachesInbound(cfg: Config, table: seq<Row>, snap: Snapshot, client: Client, o: LinkOpts, l: Link)
    requires ConfigOk(cfg) && RouterOk(cfg) && TableOk(cfg, table) && snap.customs == LoadCustoms(table)
    requires FromSnapshot(o, cfg, snap, client) && KeysPaired(snap) && PortsPlain(o) && l in AllLinks(o)
    ensures Stored(table) && LinkReaches(cfg, table, snap, o, l)
  {
    hide *;
    Premises(cfg, table, snap, client, o);
    var b := EveryLinkHasOutbound(o, l);
    var inb: Inbound;
    if b.proxy.stream.security == "tls" {
      inb := OutboundReaches(cfg, table, snap, client, o, b);
    } else {
      TlsOrReality(o, b);
      inb := RealityConnects(cfg, table, snap, client, o, b);
    }
    Leads(cfg, table, snap, o, l, b, inb);
  }

  lemma Premises(cfg: Config, table: seq<Row>, snap: Snapshot, client: Client, o: LinkOpts)
    requires RouterOk(cfg) && TableOk(cfg, table) && snap.customs == LoadCustoms(table) && FromSnapshot(o, cfg, snap, client)
    ensures Stored(table) && NoneTwice(Fixtures(cfg)) && AllWellFormed(o.customs)
  {
    hide RowsOk, OpenPrefix, AllWellFormed;
    TableStored(cfg, table);
    LoadedWellFormed(cfg, table);
  }

  lemma Leads(cfg: Config, table: seq<Row>, snap: Snapshot, o: LinkOpts, l: Link, b: Outbound, inb: Inbound)
    requires Stored(table) && NoneTwice(Fixtures(cfg)) && b in AllOutbounds(o) && Pair(l, b.proxy)
    requires if b.proxy.stream.security == "tls" then Reaches(cfg, table, snap, b.proxy, inb) else Connects(cfg, o, snap, b.proxy, inb)
    ensures LinkReaches(cfg, table, snap, o, l)
  {
    hide AllOutbounds, Pair, Reaches, Connects, Stored, NoneTwice, Fixtures;
    assert LeadsTo(cfg, table, snap, o, l, b, inb);
  }

  /** From link to inbound, for every valid table and every admitted client: a TLS link's
      requests go through the router to the port where exactly one inbound listens, one that
      holds the client's credential, unless a longer path contests them; a Reality link
      connects to such an inbound directly or through the proxy that forwards to it. */
  lemma LinksReachInbounds(cfg: Config, table: seq<Row>, snap: Snapshot, client: Client, o: LinkOpts)
    requires ConfigOk(cfg) && RouterOk(cfg) && TableOk(cfg, table) && snap.customs == LoadCustoms(table)
    requires FromSnapshot(o, cfg, snap, client) && KeysPaired(snap) && PortsPlain(o)
    ensures Stored(table)
    ensures forall l :: l in AllLinks(o) ==> LinkReaches(cfg, table, snap, o, l)
  {
    hide *;
    Premises(cfg, table, snap, client, o);
    forall l | l in AllLinks(o) ensures LinkReaches(cfg, table, snap, o, l) {
      LinkReachesInbound(cfg, table, snap, client, o, l);
    }
  }

  /** The same for the links a client is handed, in the context `linkContext` reads. */
  lemma ClientLinksReachInbounds(cfg: Config, table: seq<Row>, snap: Snapshot, client: Client, addr: string, cfgFmt: string, date: string)
    requires ConfigOk(cfg) && RouterOk(cfg) && TableOk(cfg, table) && snap.customs == LoadCustoms(table)
    requires client in snap.clients && KeysPaired(snap) && PlainPort(cfg.tcpPort) && PlainPort(cfg.tcp2Port)
    ensures Stored(table)
    ensures var o := LinkContext(cfg, snap, client, addr, cfgFmt, date);
            forall l :: l in AllLinks(o) ==> LinkReaches(cfg, table, snap, o, l)
  {
    hide ConfigOk, RouterOk, TableOk, LoadCustoms, KeysPaired, PlainPort, AllLinks, LinkReaches;
    var o := LinkContext(cfg, snap, client, addr, cfgFmt, date);
    ContextIsFromSnapshot(cfg, snap, client, addr, cfgFmt, date);
    LinksReachInbounds(cfg, table, snap, client, o);
  }

  // ---------- requests that are contested ----------

  /** The default paths and spare ports. */
  function Defaults(): Config {
    Config(443, 10085, "8080", "/ws", "/xhttp", "/hu", "/vmess", "/trojan", "tcp", "svc", "sni.example", "", "", "", "", 0)
  }

  /** A gRPC inbound, and a WebSocket inbound on the path of one of its methods. */
  function NestedTable(): seq<Row> {
    [Row(CustomInbound("ib-1", "a", "vless", "grpc", "tls", 0, 10100, "/abc", ""), "abc"),
     Row(CustomInbound("ib-2", "b", "vless", "ws", "tls", 0, 10101, "/abc/Tun", ""), "")]
  }

  /** A WebSocket inbound on a path below the built-in XHTTP one. */
  function SessionTable(): seq<Row> {
    [Row(CustomInbound("ib-1", "a", "vless", "ws", "tls", 0, 10100, "/xhttp/s1", ""), "")]
  }

  lemma DefaultsServe()
    ensures ConfigOk(Defaults()) && RouterOk(Defaults())
  {
    assert LiteralPath("/ws") && LiteralPath("/xhttp") && LiteralPath("/hu") && LiteralPath("/vmess") && LiteralPath("/trojan");
    DefaultPathsDiffer();
    hide NoneTwice, LiteralPath, RouterOk;
    SimplePathsServe(Defaults());
  }

  lemma DefaultPathsDiffer()
    ensures NoneTwice(Fixtures(Defaults()))
  {
    assert |"/ws"| == 3 && |"/xhttp"| == 6 && |"/hu"| == 3 && |"/vmess"| == 6 && |"/trojan"| == 7;
    assert "/ws"[1] == 'w' && "/hu"[1] == 'h' && "/xhttp"[1] == 'x' && "/vmess"[1] == 'v' && "/trojan"[1] == 't';
  }

  /** None of these paths is reserved or built in. */
  lemma NoCollision(p: string)
    requires p == "/abc" || p == "/abc/Tun" || p == "/xhttp/s1"
    ensures !Collides(Defaults(), p)
  {
    var low := Lowered(p);
    if p == "/xhttp/s1" { assert low[1] == 'x' && |low| == 9; } else { assert low[1] == 'a' && low[2] == 'b'; }
  }

  lemma NestedTableOk()
    ensures TableOk(Defaults(), NestedTable())
  {
    var cfg, t := Defaults(), NestedTable();
    NestedRowsOk();
    hide RowOk, Apart;
    assert t[..1][..0] == [] && t[..1] == [t[0]] && t[..1][0] == t[0];
    assert RowsOk(cfg, t[..1][..0]) && Admissible(cfg, t[..1][..0], t[..1][0]);
    assert RowsOk(cfg, t[..1]) && Admissible(cfg, t[..1], t[1]);
  }

  lemma NestedRowsOk()
    ensures var t := NestedTable(); RowOk(Defaults(), t[0]) && RowOk(Defaults(), t[1]) && Apart(t[0], t[1])
  {
    assert PathShape("/abc") && PathShape("/abc/Tun") && SvcOk("abc") && "/abc" == "/" + "abc";
    NoCollision("/abc");
    NoCollision("/abc/Tun");
    NestedApart();
    hide Collides, PathShape, SvcOk, Apart;
  }

  lemma NestedApart()
    ensures Apart(NestedTable()[0], NestedTable()[1])
  {
    assert |Lowered("/abc")| == 4 && |Lowered("/abc/Tun")| == 8;
  }

  lemma SessionTableOk()
    ensures TableOk(Defaults(), SessionTable())
  {
    var cfg, t := Defaults(), SessionTable();
    assert PathShape("/xhttp/s1");
    NoCollision("/xhttp/s1");
    hide Collides, PathShape;
    assert RowOk(cfg, t[0]);
    hide RowOk;
    assert t[..0] == [] && RowsOk(cfg, t[..0]) && Admissible(cfg, t[..0], t[0]);
  }

  /** On this valid table a gRPC call of the first inbound goes to the second. */
  lemma MethodTaken()
    ensures ConfigOk(Defaults()) && RouterOk(Defaults()) && TableOk(Defaults(), NestedTable()) && Stored(NestedTable())
    ensures Dispatch(Defaults(), NestedTable(), "/abc/Tun") == Some(RouteTo(10101, "ws"))
  {
    var t := NestedTable();
    assert TlsRow(t, 1) && t[1].ib.path == "/abc/Tun" && t[1].ib.lport == 10101 && t[1].ib.network == "ws";
    DefaultsServe();
    NestedTableOk();
    hide ConfigOk, RouterOk, RowsOk, Routes, RouteTo, Fixtures, FixedRoute, LongestMatch, NestedTable, Stored, NoneTwice;
    assert BestRow(t, 1, "/abc/Tun");
    EveryRequestRouted(Defaults(), t, "/abc/Tun");
  }

  /** On this one a session of the built-in XHTTP inbound goes to a custom inbound. */
  lemma SessionTaken()
    ensures ConfigOk(Defaults()) && RouterOk(Defaults()) && TableOk(Defaults(), SessionTable()) && Stored(SessionTable())
    ensures Dispatch(Defaults(), SessionTable(), "/xhttp/s1") == Some(RouteTo(10100, "ws"))
  {
    var t := SessionTable();
    assert TlsRow(t, 0) && t[0].ib.path == "/xhttp/s1" && t[0].ib.lport == 10100 && t[0].ib.network == "ws";
    DefaultsServe();
    SessionTableOk();
    hide ConfigOk, RouterOk, RowsOk, Routes, RouteTo, Fixtures, FixedRoute, LongestMatch, SessionTable, Stored, NoneTwice;
    assert BestRow(t, 0, "/xhttp/s1");
    EveryRequestRouted(Defaults(), t, "/xhttp/s1");
  }
}
