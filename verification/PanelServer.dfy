/** The handlers that change the table of custom inbounds, and the registry behind them
    (`createInbound`, `deleteInbound`, internal/api/handlers.go; `SyncCustomRoutes`,
    internal/api/proxy.go). */
module PanelServer {
  import opened Wrappers
  import opened Decimal
  import opened Policy
  import opened Inbounds
  import opened Routing
  import opened Names

  datatype Request = Request(name: string, protocol: string, network: string, security: string,
                             port: int, path: string, sni: string)

  /** What the handler gets from outside: two random tags, the stored Reality key and SNI
      (`None` when the query fails), and how the other database calls go. */
  datatype Env = Env(tag: string, pathTag: string, priv: Option<string>, storedSni: Option<string>,
                     countFails: bool, takenFails: bool, scanFails: int -> bool, pathFails: bool,
                     insertFails: bool, sync: Reading)

  datatype Reply = Created(ib: CustomInbound) | Rejected(code: int)

  /** `randTag`: eight hexadecimal digits. */
  predicate HexTag(s: string) { |s| == 8 && forall i :: 0 <= i < 8 ==> LowerAlnum(s[i]) }

  // ---------- what a request is turned into ----------

  function Field(s: string): string { Lowered(TrimSpace(s)) }

  /** The name, trimmed and cut to 30 characters. */
  function ShortName(s: string): string {
    var n := TrimSpace(s);
    if |n| > 30 then n[..30] else n
  }

  function Svc(path: string): string { TrimSlashes(TrimSpace(path)) }

  function RowFor(ib: CustomInbound): Row { Row(ib, if ib.network == "grpc" then TrimSlashes(ib.path) else "") }

  predicate TagTaken(table: seq<Row>, tag: string) { exists i :: 0 <= i < |table| && table[i].ib.tag == tag }

  predicate PathTaken(table: seq<Row>, path: string) {
    exists i :: 0 <= i < |table| && table[i].ib.security == "tls" && Lowered(table[i].ib.path) == Lowered(path)
  }

  /** The path of a TLS inbound: a service name, a normalised path, or a random one. */
  function TlsPath(req: Request, env: Env): Option<string> {
    if Field(req.network) == "grpc" then
      var svc := if Svc(req.path) == "" then env.pathTag else Svc(req.path);
      if SvcOk(svc) then Some("/" + svc) else None
    else
      var p := NormPath(req.path, "");
      var q := if p == "" then "/" + env.pathTag else p;
      if |q| < 3 then None else Some(q)
  }

  /** The path of a Reality inbound; TCP has none. */
  function RealityPath(req: Request, env: Env): Option<string> {
    if Field(req.network) == "tcp" then Some("")
    else if Field(req.network) == "grpc" then
      if SvcOk(Svc(req.path)) then Some("/" + Svc(req.path)) else None
    else
      var p := NormPath(req.path, "/" + env.pathTag);
      if |p| < 3 then None else Some(p)
  }

  function RealitySni(req: Request, env: Env): string {
    if Field(req.sni) != "" then Field(req.sni) else if env.storedSni.Some? then env.storedSni.value else ""
  }

  // ---------- which requests are accepted ----------

  predicate HasRoom(table: seq<Row>, req: Request, env: Env) {
    ShortName(req.name) != "" && !env.countFails && |table| < 20
  }

  predicate Stores(table: seq<Row>, env: Env) { !env.insertFails && !TagTaken(table, env.tag) }

  predicate LocalPortFree(table: seq<Row>, env: Env, p: int) {
    FIRST_LOCAL <= p <= LAST_LOCAL && Usable(table, env.scanFails, p)
  }

  ghost predicate AcceptsTls(cfg: Config, table: seq<Row>, req: Request, env: Env) {
    var path := TlsPath(req, env);
    && Field(req.security) == "tls" && TlsShape(Field(req.protocol), Field(req.network))
    && (exists p :: LocalPortFree(table, env, p))
    && path.Some? && !env.pathFails && !Collides(cfg, path.value) && !PathTaken(table, path.value)
  }

  predicate AcceptsReality(cfg: Config, table: seq<Row>, req: Request, env: Env) {
    && Field(req.security) == "reality" && RealityShape(Field(req.protocol), Field(req.network))
    && env.priv.Some? && env.priv.value != ""
    && 1024 <= req.port <= 65535 && !env.takenFails && !BuiltinPort(cfg, req.port) && !InUse(table, req.port)
    && HostOk(RealitySni(req, env))
    && RealityPath(req, env).Some?
  }

  ghost predicate Accepts(cfg: Config, table: seq<Row>, req: Request, env: Env) {
    HasRoom(table, req, env) && (AcceptsTls(cfg, table, req, env) || AcceptsReality(cfg, table, req, env)) && Stores(table, env)
  }

  /** A TLS request gets as far as the query for its path, which fails. */
  ghost predicate PathQueryFails(table: seq<Row>, req: Request, env: Env) {
    && Field(req.security) == "tls" && TlsShape(Field(req.protocol), Field(req.network))
    && (exists p :: LocalPortFree(table, env, p))
    && TlsPath(req, env).Some? && !Reserved(TlsPath(req, env).value) && env.pathFails
  }

  /** The status of a refusal: 500 for failing database calls, 400 for everything else. */
  ghost function Refusal(cfg: Config, table: seq<Row>, req: Request, env: Env): int {
    if ShortName(req.name) == "" then 400
    else if env.countFails then 500
    else if |table| >= 20 then 400
    else if PathQueryFails(table, req, env) || AcceptsTls(cfg, table, req, env) || AcceptsReality(cfg, table, req, env) then 500
    else 400
  }

  /** The stored inbound is what was asked for. */
  predicate Answers(ib: CustomInbound, req: Request, env: Env) {
    && ib.tag == env.tag && ib.name == ShortName(req.name)
    && ib.protocol == Field(req.protocol) && ib.network == Field(req.network) && ib.security == Field(req.security)
    && (if ib.security == "tls" then Some(ib.path) == TlsPath(req, env) && ib.sni == ""
        else ib.port == req.port && Some(ib.path) == RealityPath(req, env) && ib.sni == RealitySni(req, env))
  }

  // ---------- shapes of accepted rows ----------

  lemma SlashTrim(svc: string)
    requires SvcOk(svc)
    ensures TrimSlashes("/" + svc) == svc && PathShape("/" + svc)
  {
    var s := "/" + svc;
    assert s[1..] == svc && !IsSlash(svc[0]) && !IsSlash(svc[|svc| - 1]);
    assert TrimLeft(s, IsSlash) == svc;
  }

  lemma HexPath(tag: string)
    requires HexTag(tag)
    ensures PathShape("/" + tag) && SvcOk(tag)
  {
    forall i | 0 <= i < 8 ensures WordChar(tag[i]) { assert LowerAlnum(tag[i]); }
  }

  lemma TlsPathShape(req: Request, env: Env)
    requires HexTag(env.pathTag) && TlsPath(req, env).Some?
    ensures PathShape(TlsPath(req, env).value)
    ensures Field(req.network) == "grpc" ==> SvcOk(TrimSlashes(TlsPath(req, env).value))
    ensures Field(req.network) == "grpc" ==> "/" + TrimSlashes(TlsPath(req, env).value) == TlsPath(req, env).value
  {
    HexPath(env.pathTag);
    if Field(req.network) == "grpc" {
      SlashTrim(if Svc(req.path) == "" then env.pathTag else Svc(req.path));
    }
  }

  lemma TlsRowOk(cfg: Config, req: Request, env: Env, ib: CustomInbound)
    requires HexTag(env.pathTag) && Answers(ib, req, env) && ib.security == "tls" && TlsShape(ib.protocol, ib.network)
    requires ib.port == 0 && FIRST_LOCAL <= ib.lport <= LAST_LOCAL && !Collides(cfg, ib.path)
    ensures RowOk(cfg, RowFor(ib))
  {
    hide TlsPath, Collides, PathShape, TrimSlashes, SvcOk;
    TlsPathShape(req, env);
  }

  lemma RealityRowOk(cfg: Config, req: Request, env: Env, ib: CustomInbound)
    requires Answers(ib, req, env) && ib.security == "reality" && RealityShape(ib.protocol, ib.network)
    requires 1024 <= ib.port <= 65535 && ib.lport == 0 && !BuiltinPort(cfg, ib.port)
    ensures RowOk(cfg, RowFor(ib))
  {
    if ib.network == "grpc" { SlashTrim(Svc(req.path)); }
  }

  /** A fresh port, tag and path set the new row apart from every old one. */
  lemma NewRowApart(table: seq<Row>, ib: CustomInbound)
    requires ListenPort(ib) != 0 && !InUse(table, ListenPort(ib)) && !TagTaken(table, ib.tag)
    requires ib.security == "tls" ==> !PathTaken(table, ib.path)
    ensures forall i :: 0 <= i < |table| ==> Apart(table[i], RowFor(ib))
  {
  }

  lemma ExtendTable(cfg: Config, t: seq<Row>, r: Row)
    requires |t| < 20 && Admissible(cfg, t, r)
    ensures TableStep(cfg, t, t + [r], "")
    ensures TableOk(cfg, t) ==> TableOk(cfg, t + [r])
  {
    hide RowOk, Apart;
    assert (t + [r])[..|t|] == t;
  }

  /** The inbound before its port, path and SNI are settled. */
  function Blank(req: Request, env: Env): CustomInbound {
    CustomInbound(env.tag, ShortName(req.name), Field(req.protocol), Field(req.network), Field(req.security), 0, 0, "", "")
  }

  predicate KnownChoice(ib: CustomInbound) {
    && OneOf(ib.protocol, ["vless", "vmess", "trojan"]) && OneOf(ib.network, ["ws", "xhttp", "httpupgrade", "grpc", "tcp"])
    && OneOf(ib.security, ["tls", "reality"])
  }

  lemma NotChosen(cfg: Config, table: seq<Row>, req: Request, env: Env, ib: CustomInbound)
    requires ib == Blank(req, env) && !KnownChoice(ib)
    ensures !AcceptsTls(cfg, table, req, env) && !AcceptsReality(cfg, table, req, env) && !PathQueryFails(table, req, env)
  {
    hide TlsPath, RealityPath, RealitySni, Collides, HostOk, Usable, PathTaken, InUse, BuiltinPort, Field, ShortName;
  }

  lemma ReservedCollides(cfg: Config, p: string)
    requires Reserved(p)
    ensures Collides(cfg, p)
  {
  }

  lemma SameTable(cfg: Config, t: seq<Row>)
    ensures TableStep(cfg, t, t, "")
  {
  }

  /** The row of an accepted request may be appended. */
  lemma AcceptedRow(cfg: Config, table: seq<Row>, req: Request, env: Env, ib: CustomInbound)
    requires Stored(table) && HexTag(env.pathTag) && |table| < 20 && Answers(ib, req, env) && !TagTaken(table, env.tag)
    requires ib.security == "tls" ==> AcceptsTls(cfg, table, req, env) && ib.port == 0 && LocalPortFree(table, env, ib.lport)
    requires ib.security == "reality" ==> AcceptsReality(cfg, table, req, env) && ib.lport == 0
    requires OneOf(ib.security, ["tls", "reality"])
    ensures TableStep(cfg, table, table + [RowFor(ib)], "") && Stored(table + [RowFor(ib)])
    ensures TableOk(cfg, table) ==> TableOk(cfg, table + [RowFor(ib)])
  {
    hide TlsPath, RealityPath, RealitySni, Collides, HostOk, PathTaken, InUse, BuiltinPort, Field, ShortName, RowOk, Apart, TableStep, TableOk;
    if ib.security == "reality" { RealityRowOk(cfg, req, env, ib); } else { TlsRowOk(cfg, req, env, ib); }
    NewRowApart(table, ib);
    ExtendTable(cfg, table, RowFor(ib));
  }

  // ---------- what an accepted request gets ----------

  /** A requested text with blanks around it. */
  predicate Surrounded(s: string, a: string, core: string, b: string) {
    s == a + (core + b) && All(a, IsSpace) && All(b, IsSpace) && core != "" && !IsSpace(core[0]) && !IsSpace(core[|core| - 1])
  }

  /** A requested SNI is used, in lower case; only without one the stored SNI is. */
  lemma RequestedSni(req: Request, env: Env, a: string, core: string, b: string)
    ensures Surrounded(req.sni, a, core, b) ==> RealitySni(req, env) == Lowered(core)
    ensures All(req.sni, IsSpace) ==> RealitySni(req, env) == if env.storedSni.Some? then env.storedSni.value else ""
  {
    hide TrimSpace;
    if Surrounded(req.sni, a, core, b) { TrimExactly(a, core, b); }
    if All(req.sni, IsSpace) { AllTrimmed(req.sni); }
  }

  lemma {:induction false} AllTrimmed(s: string)
    requires All(s, IsSpace)
    ensures TrimSpace(s) == ""
  {
    if s != "" { AllTrimmed(s[1..]); }
  }

  /** The stored name is the requested one between its blanks, cut to 30 characters. */
  lemma RequestedName(name: string, a: string, core: string, b: string)
    requires Surrounded(name, a, core, b)
    ensures ShortName(name) <= core && |ShortName(name)| == if |core| < 30 then |core| else 30
  {
    TrimExactly(a, core, b);
  }

  /** A gRPC service is stored behind one slash, whatever blanks and slashes surround it. */
  lemma RequestedService(req: Request, env: Env, a: string, core: string, b: string, left: string, service: string, right: string)
    requires Surrounded(req.path, a, core, b) && core == left + (service + right) && All(left, IsSlash) && All(right, IsSlash)
    requires SvcOk(service)
    ensures Lowered(TrimSpace(req.network)) == "grpc" ==>
              TlsPath(req, env) == Some("/" + service) && RealityPath(req, env) == Some("/" + service)
  {
    hide SvcOk;
    TrimExactly(a, core, b);
    assert service != "" && service[0] != '/' && service[|service| - 1] != '/' by { ServiceEnds(service); }
    TrimExactly(left, service, right);
  }

  lemma ServiceEnds(service: string)
    requires SvcOk(service)
    ensures service != "" && service[0] != '/' && service[|service| - 1] != '/'
  {
    assert WordChar(service[0]) && WordChar(service[|service| - 1]);
  }

  /** A well-shaped path of at least three characters is stored as it is, up to slashes at its
      end; without one a random path is. */
  lemma RequestedPath(req: Request, env: Env, a: string, core: string, b: string, path: string)
    requires Lowered(TrimSpace(req.network)) != "grpc" && Lowered(TrimSpace(req.network)) != "tcp"
    requires Surrounded(req.path, a, core, b) && PathShape(path) && |path| >= 3 && path != "/" + env.pathTag
    requires path <= Slashed(core) && OnlySlashes(Slashed(core)[|path|..])
    ensures TlsPath(req, env) == Some(path) && RealityPath(req, env) == Some(path)
  {
    TrimExactly(a, core, b);
    hide PathShape, TrimSpace, NormPath, OnlySlashes;
    NormPathExactly(req.path, "", path);
    NormPathExactly(req.path, "/" + env.pathTag, path);
  }

  /** Without a path a TLS inbound gets a random one, as does Reality over XHTTP; Reality over
      gRPC is refused, and over TCP has none. */
  lemma NoPathRequested(req: Request, env: Env)
    requires All(req.path, IsSpace) && HexTag(env.pathTag)
    ensures TlsPath(req, env) == Some("/" + env.pathTag)
    ensures Lowered(TrimSpace(req.network)) == "xhttp" ==> RealityPath(req, env) == Some("/" + env.pathTag)
    ensures Lowered(TrimSpace(req.network)) == "grpc" ==> RealityPath(req, env) == None
    ensures Lowered(TrimSpace(req.network)) == "tcp" ==> RealityPath(req, env) == Some("")
  {
    AllTrimmed(req.path);
    HexPath(env.pathTag);
    assert TrimSlashes("") == "" && TrimRight("/", IsSlash) == TrimRight("", IsSlash);
    BlankPath(req.path, "/" + env.pathTag);
    hide NormPath, SvcOk, PathShape, HexTag, TrimSpace;
  }

  lemma BlankPath(v: string, def: string)
    requires TrimSpace(v) == "" && PathShape(def)
    ensures NormPath(v, "") == "" && NormPath(v, def) == def
  {
    assert Slashed(def) == def && def[|def|..] == "" && OnlySlashes(def[|def|..]);
    TrimRightExactly(def, def);
    assert TrimRight("/", IsSlash) == TrimRight("", IsSlash);
  }

  /** The stored service name is that of the path, and empty for other transports. */
  lemma StoredService(ib: CustomInbound, service: string)
    ensures ib.network == "grpc" && SvcOk(service) && ib.path == "/" + service ==> RowFor(ib).svc == service
    ensures ib.network != "grpc" ==> RowFor(ib).svc == ""
    ensures RowFor(ib).ib == ib
  {
    if ib.network == "grpc" && SvcOk(service) { SlashTrim(service); }
  }

  // ---------- every proper request is accepted ----------

  /** No database call fails. */
  predicate Healthy(env: Env) {
    !env.countFails && !env.takenFails && !env.pathFails && !env.insertFails
    && forall p :: FIRST_LOCAL <= p <= LAST_LOCAL ==> !env.scanFails(p)
  }

  /** A TLS request with a name, a supported combination, a free path and a fresh tag is
      accepted while there are fewer than 20 rows. */
  lemma TlsRequestAccepted(cfg: Config, table: seq<Row>, req: Request, env: Env, protocol: string, network: string, path: string)
    requires Healthy(env) && |table| < 20 && TrimSpace(req.name) != "" && !TagTaken(table, env.tag)
    requires Lowered(TrimSpace(req.protocol)) == protocol && Lowered(TrimSpace(req.network)) == network
    requires Lowered(TrimSpace(req.security)) == "tls"
    requires protocol in ["vless", "vmess", "trojan"] && network in ["ws", "xhttp", "httpupgrade", "grpc"]
    requires !(protocol == "vmess" && network == "xhttp")
    requires TlsPath(req, env) == Some(path) && !Collides(cfg, path) && !PathTaken(table, path)
    ensures Accepts(cfg, table, req, env)
  {
    hide TlsPath, Collides, PathTaken, AcceptsReality, TrimSpace, Lowered, Usable;
    var p := LocalPortExists(table, env.scanFails);
    assert LocalPortFree(table, env, p);
  }

  /** A Reality request with a name, VLESS over a supported transport, a key, a free port and a
      valid SNI is accepted while there are fewer than 20 rows. */
  lemma RealityRequestAccepted(cfg: Config, table: seq<Row>, req: Request, env: Env, network: string)
    requires Healthy(env) && |table| < 20 && TrimSpace(req.name) != "" && !TagTaken(table, env.tag)
    requires Lowered(TrimSpace(req.protocol)) == "vless" && Lowered(TrimSpace(req.network)) == network
    requires Lowered(TrimSpace(req.security)) == "reality" && network in ["tcp", "xhttp", "grpc"]
    requires env.priv.Some? && env.priv.value != "" && HostOk(RealitySni(req, env)) && RealityPath(req, env).Some?
    requires 1024 <= req.port <= 65535 && req.port !in [cfg.appPort, cfg.apiPort, 10001, 10002, 10003, 10004, 10005, 10006]
    requires !(cfg.httpPort != "" && AllDigits(cfg.httpPort) && AtoiValue(cfg.httpPort) == req.port)
    requires forall i :: 0 <= i < |table| ==> table[i].ib.port != req.port && table[i].ib.lport != req.port
    ensures Accepts(cfg, table, req, env)
  {
    hide RealityPath, RealitySni, HostOk, AcceptsTls, TrimSpace, Lowered, AllDigits, AtoiValue;
  }

  // ---------- the server ----------

  class Server {
    const cfg: Config
    var table: seq<Row>
    var customs: Registry

    constructor (cfg: Config)
      ensures this.cfg == cfg && table == [] && customs == map[]
    {
      this.cfg := cfg;
      table, customs := [], map[];
    }

    /** `portTaken`: built-in ports, and ports of other rows; a failed query counts as taken. */
    method PortTaken(port: int, fails: bool) returns (taken: bool)
      ensures taken <==> fails || BuiltinPort(cfg, port) || InUse(table, port)
      ensures port in [cfg.appPort, cfg.apiPort, 10001, 10002, 10003, 10004, 10005, 10006] ==> taken
      ensures forall i :: 0 <= i < |table| && port != 0 && port in [table[i].ib.port, table[i].ib.lport] ==> taken
    {
      var builtin := {cfg.appPort, cfg.apiPort, 10001, 10002, 10003, 10004, 10005, 10006};
      var n, ok := AtoiSafe(cfg.httpPort);
      if ok { builtin := builtin + {n}; }
      if fails { return true; }
      return port in builtin || InUse(table, port);
    }

    /** `checkPath`: reserved prefixes and taken paths are refused; 200 when there is neither. */
    method CheckPath(p: string, fails: bool) returns (code: int)
      ensures code == if fails && !Reserved(p) then 500 else if Collides(cfg, p) || PathTaken(table, p) then 400 else 200
      ensures code == 200 ==> forall i :: 0 <= i < |table| && table[i].ib.security == "tls" ==> Lowered(table[i].ib.path) != Lowered(p)
    {
      var low := Lowered(p);
      if "/panel" <= low || "/sub" <= low || "/api" <= low { return 400; }
      var used := {Lowered(cfg.wsPath), Lowered(cfg.xhttpPath), Lowered(cfg.huPath), Lowered(cfg.vmessPath), Lowered(cfg.trojanPath)};
      if fails { return 500; }
      return if low in used || PathTaken(table, p) then 400 else 200;
    }

    /** The Reality half of `createInbound`. */
    method CheckReality(req: Request, env: Env, ib0: CustomInbound) returns (ok: bool, ib: CustomInbound)
      requires ib0 == Blank(req, env)
      requires ib0.security == "reality"
      ensures ok <==> AcceptsReality(cfg, table, req, env)
      ensures ok ==> Answers(ib, req, env) && ib.lport == 0
    {
      ib := ib0;
      if ib.protocol != "vless" || !OneOf(ib.network, ["tcp", "xhttp", "grpc"]) { return false, ib; }
      if env.priv.None? || env.priv.value == "" { return false, ib; }
      if req.port < 1024 || req.port > 65535 { return false, ib; }
      var taken := PortTaken(req.port, env.takenFails);
      if taken { return false, ib; }
      var sni := Field(req.sni);
      if sni == "" && env.storedSni.Some? { sni := env.storedSni.value; }
      if !HostOk(sni) { return false, ib; }
      ib := ib.(port := req.port, sni := sni);
      if ib.network != "tcp" {
        if ib.network == "grpc" {
          var svc := Svc(req.path);
          if !SvcOk(svc) { return false, ib; }
          ib := ib.(path := "/" + svc);
        } else {
          var p := NormPath(req.path, "/" + env.pathTag);
          if |p| < 3 { return false, ib; }
          ib := ib.(path := p);
        }
      }
      return true, ib;
    }

    method ChooseTlsPath(req: Request, env: Env) returns (path: Option<string>)
      ensures path == TlsPath(req, env)
    {
      hide NormPath, TrimSpace, TrimSlashes, SvcOk;
      if Field(req.network) == "grpc" {
        var svc := Svc(req.path);
        if svc == "" { svc := env.pathTag; }
        if !SvcOk(svc) { return None; }
        return Some("/" + svc);
      }
      var p := NormPath(req.path, "");
      if p == "" { p := "/" + env.pathTag; }
      if |p| < 3 { return None; }
      return Some(p);
    }

    /** The TLS half of `createInbound`. */
    method CheckTls(req: Request, env: Env, ib0: CustomInbound) returns (code: int, ib: CustomInbound)
      requires ib0 == Blank(req, env)
      requires ib0.security == "tls" && OneOf(ib0.protocol, ["vless", "vmess", "trojan"])
      requires OneOf(ib0.network, ["ws", "xhttp", "httpupgrade", "grpc", "tcp"])
      ensures code == 200 <==> AcceptsTls(cfg, table, req, env)
      ensures code != 200 ==> code == if PathQueryFails(table, req, env) then 500 else 400
      ensures code == 200 ==> Answers(ib, req, env) && ib.port == 0 && LocalPortFree(table, env, ib.lport)
    {
      hide TlsPath, Collides, Reserved, Usable, PathTaken, Field, ShortName;
      ib := ib0;
      if ib.network == "tcp" { return 400, ib; }
      if ib.protocol == "vmess" && ib.network == "xhttp" { return 400, ib; }
      var lport := FreeLocalPort(table, env.scanFails);
      if lport == 0 { return 400, ib; }
      var path := ChooseTlsPath(req, env);
      assert LocalPortFree(table, env, lport);
      if path.None? { return 400, ib; }
      code := CheckPath(path.value, env.pathFails);
      if code == 200 { ib := ib.(lport := lport, path := path.value); }
      if Reserved(path.value) { ReservedCollides(cfg, path.value); }
    }

    /** `createInbound` up to the insert: the inbound to store, or the status of a refusal. */
    method Validate(req: Request, env: Env) returns (ok: bool, ib: CustomInbound, code: int)
      ensures ok <==> HasRoom(table, req, env) && (AcceptsTls(cfg, table, req, env) || AcceptsReality(cfg, table, req, env))
      ensures ok ==> Answers(ib, req, env) && OneOf(ib.security, ["tls", "reality"])
      ensures ok && ib.security == "tls" ==> AcceptsTls(cfg, table, req, env) && ib.port == 0 && LocalPortFree(table, env, ib.lport)
      ensures ok && ib.security == "reality" ==> AcceptsReality(cfg, table, req, env) && ib.lport == 0
      ensures !ok ==> code == Refusal(cfg, table, req, env)
    {
      hide TlsPath, RealityPath, RealitySni, Collides, Reserved, HostOk, Usable, PathTaken, InUse, BuiltinPort, Field, ShortName, TlsShape, RealityShape;
      var name := ShortName(req.name);
      ib, code := Blank(req, env), 400;
      if name == "" { return false, ib, 400; }
      if env.countFails { return false, ib, 500; }
      if |table| >= 20 { return false, ib, 400; }
      if !KnownChoice(ib) { NotChosen(cfg, table, req, env, ib); return false, ib, 400; }
      if ib.security == "reality" {
        ok, ib := CheckReality(req, env, ib);
      } else {
        code, ib := CheckTls(req, env, ib);
        ok := code == 200;
      }
    }

    /** `createInbound`: a request is accepted exactly when `Accepts` says so; an accepted one
        appends one admissible row that answers it, a rejected one changes nothing. */
    method CreateInbound(req: Request, env: Env) returns (reply: Reply)
      requires Stored(table) && HexTag(env.pathTag)
      modifies this
      ensures reply.Created? <==> Accepts(cfg, old(table), req, env)
      ensures reply.Created? ==> Answers(reply.ib, req, env) && table == old(table) + [RowFor(reply.ib)]
      ensures reply.Rejected? ==> table == old(table) && reply.code == Refusal(cfg, old(table), req, env)
      ensures TableStep(cfg, old(table), table, "")
      ensures Stored(table) && (TableOk(cfg, old(table)) ==> TableOk(cfg, table))
      ensures customs == if reply.Created? && !env.sync.fails then Routes(cfg, Delivered(table, env.sync)) else old(customs)
    {
      hide Answers, AcceptsTls, AcceptsReality, PathQueryFails, RowFor, Routes, TableOk, TableStep, TagTaken;
      var ok, ib, code := Validate(req, env);
      if !ok {
        SameTable(cfg, table);
        return Rejected(code);
      }
      if env.insertFails || TagTaken(table, env.tag) {
        SameTable(cfg, table);
        return Rejected(500);
      }
      AcceptedRow(cfg, table, req, env, ib);
      table := table + [RowFor(ib)];
      SyncCustomRoutes(env.sync);
      return Created(ib);
    }

    /** `deleteInbound`: the rows of the tag go, all others stay in their order; without a row
        of the tag the answer is 404. */
    method DeleteInbound(tag: string, fails: bool, sync: Reading) returns (code: int)
      requires Stored(table)
      modifies this
      ensures code == if fails then 500 else if TagTaken(old(table), tag) then 200 else 404
      ensures code != 200 ==> table == old(table)
      ensures code == 200 ==> exists kept :: Deleted(old(table), table, tag, kept)
      ensures code == 200 ==> forall r :: multiset(table)[r] == if r.ib.tag == tag then 0 else multiset(old(table))[r]
      ensures TableStep(cfg, old(table), table, tag)
      ensures Stored(table) && (TableOk(cfg, old(table)) ==> TableOk(cfg, table))
      ensures customs == if code == 200 && !sync.fails then Routes(cfg, Delivered(table, sync)) else old(customs)
    {
      hide RowOk, Apart, Routes;
      if fails { return 500; }
      if !TagTaken(table, tag) { return 404; }
      if TableOk(cfg, table) { WithoutKeepsRows(cfg, table, tag); }
      StoredWithout(table, tag);
      var kept := WithoutDeletes(table, tag);
      forall r: Row ensures multiset(Without(table, tag))[r] == if r.ib.tag == tag then 0 else multiset(table)[r] {
        WithoutCounts(table, tag, r);
      }
      table := Without(table, tag);
      SyncCustomRoutes(sync);
      return 200;
    }

    /** `SyncCustomRoutes`: replace the registry by that of the rows that arrive, or keep the
        old one when the query fails. */
    method SyncCustomRoutes(r: Reading)
      requires Stored(table)
      modifies this`customs
      ensures customs == if r.fails then old(customs) else Routes(cfg, Delivered(table, r))
      ensures Complete(table, r) ==> customs == Routes(cfg, table)
    {
      if r.fails { return; }
      var next := BuildRegistry(cfg, table, r);
      customs := next;
      if Complete(table, r) { AllDelivered(table, r); }
    }
  }

  lemma StoredWithout(table: seq<Row>, tag: string)
    requires Stored(table)
    ensures Stored(Without(table, tag))
  {
    var w := Without(table, tag);
    forall i | 0 <= i < |w| ensures -0x8000_0000 <= w[i].ib.lport < 0x8000_0000 {
      var k :| 0 <= k < |table| && table[k] == w[i];
    }
  }
}
