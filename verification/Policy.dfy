/** Who may use which inbound: the data that the three renderers share, and the rule they
    each apply (internal/xray/config.go, links.go, clientjson.go; internal/api/handlers.go). */
module Policy {

  const VLESS_REALITY := "vless-reality"
  const VLESS_WS := "vless-ws"
  const VLESS_XHTTP := "vless-xhttp"
  const VLESS_HU := "vless-hu"
  const VMESS_WS := "vmess-ws"
  const TROJAN_WS := "trojan-ws"

  const VISION := "xtls-rprx-vision"

  /** A client as the builder sees it; an empty override list follows the global toggles. */
  datatype Client = Client(id: string, name: string, protocols: seq<string>)

  datatype CustomInbound = CustomInbound(
    tag: string, name: string, protocol: string, network: string, security: string,
    port: int, lport: int, path: string, sni: string)

  /** The runtime configuration the renderers read. */
  datatype Config = Config(
    appPort: int, apiPort: int, httpPort: string,
    wsPath: string, xhttpPath: string, huPath: string, vmessPath: string, trojanPath: string,
    realityNet: string, realitySvc: string, realitySni: string,
    tcpHost: string, tcpPort: string, tcp2Host: string, tcp2Port: string, tcp2AppPort: int)

  type Toggles = map<string, bool>

  datatype RealityKeys = RealityKeys(priv: string, pub: string, sid: string)

  /** One reading of the database: panel settings, keys, admitted clients, custom inbounds. */
  datatype Snapshot = Snapshot(
    stored: Toggles, storedSni: string, keys: RealityKeys, clients: seq<Client>, customs: seq<CustomInbound>)
  {
    /** Without stored toggles every built-in protocol is on. */
    function Global(): Toggles {
      if |stored| > 0 then stored
      else map[VLESS_REALITY := true, VLESS_WS := true, VLESS_XHTTP := true,
               VLESS_HU := true, VMESS_WS := true, TROJAN_WS := true]
    }

    function Sni(cfg: Config): string { if storedSni == "" then cfg.realitySni else storedSni }
  }

  /** A Go map lookup: a missing key reads as false. */
  predicate On(toggles: Toggles, key: string) { key in toggles && toggles[key] }

  /** A built-in protocol is granted when it is on, and listed if the client has a list. */
  predicate Granted(global: Toggles, overrides: seq<string>, key: string) {
    On(global, key) && (overrides == [] || key in overrides)
  }

  /** A custom inbound is granted unless the client has a list without its tag. */
  predicate GrantedCustom(overrides: seq<string>, tag: string) {
    overrides == [] || tag in overrides
  }

  /** `userProtocols`, `clientAllowed` and the first lines of `BuildLinks`: the same loop. */
  method UserProtocols(overrides: seq<string>, global: Toggles) returns (allowed: Toggles)
    ensures forall key :: On(allowed, key) <==> Granted(global, overrides, key)
    ensures forall key :: On(allowed, key) <==> On(global, key) && (overrides != [] ==> key in overrides)
  {
    allowed := global;
    if |overrides| > 0 {
      allowed := map[];
      for i := 0 to |overrides|
        invariant forall key :: On(allowed, key) <==> On(global, key) && key in overrides[..i]
      {
        if On(global, overrides[i]) {
          allowed := allowed[overrides[i] := true];
        }
        assert overrides[..i + 1] == overrides[..i] + [overrides[i]];
      }
      assert overrides[..|overrides|] == overrides;
    }
  }

  /** The loop of `customInbound` and `containsString`. */
  method Contains(list: seq<string>, v: string) returns (found: bool)
    ensures found <==> v in list
  {
    for i := 0 to |list|
      invariant v !in list[..i]
    {
      if list[i] == v { return true; }
      assert list[..i + 1] == list[..i] + [list[i]];
    }
    assert list[..|list|] == list;
    return false;
  }

  /** `len(list) > 0 && !containsString(list, tag)`: the inbound is skipped for this client. */
  method Denied(overrides: seq<string>, tag: string) returns (denied: bool)
    ensures denied == !GrantedCustom(overrides, tag)
  {
    denied := false;
    if |overrides| > 0 {
      var listed := Contains(overrides, tag);
      denied := !listed;
    }
  }

  /** `p` without its leading slashes. */
  function Unslashed(p: string): string {
    if |p| > 0 && p[0] == '/' then Unslashed(p[1..]) else p
  }

  /** `trimSlash`: shorten the string one slash at a time. */
  method TrimSlash(p: string) returns (r: string)
    ensures r == Unslashed(p)
    ensures |r| == 0 || r[0] != '/'
  {
    r := p;
    while |r| > 0 && r[0] == '/'
      invariant Unslashed(r) == Unslashed(p)
    {
      r := r[1..];
    }
  }

  // ---------- transports ----------

  predicate OneOf(v: string, list: seq<string>) { v in list }

  predicate TlsShape(protocol: string, network: string) {
    && OneOf(protocol, ["vless", "vmess", "trojan"]) && OneOf(network, ["ws", "xhttp", "httpupgrade", "grpc"])
    && !(protocol == "vmess" && network == "xhttp")
  }

  predicate RealityShape(protocol: string, network: string) {
    protocol == "vless" && OneOf(network, ["tcp", "xhttp", "grpc"])
  }

  /** The combinations `createInbound` stores. */
  predicate WellFormed(ib: CustomInbound) {
    || (ib.security == "tls" && TlsShape(ib.protocol, ib.network))
    || (ib.security == "reality" && RealityShape(ib.protocol, ib.network) && 1024 <= ib.port <= 65535)
  }

  function IfThen<T>(c: bool, x: T): seq<T> { if c then [x] else [] }

  // ---------- six conditional appends ----------

  function Pick<T(!new)>(list: seq<T>, on: bool, item: T): (r: seq<T>)
    ensures forall x :: x in r <==> x in list || (on && x == item)
    ensures |r| == |list| + if on then 1 else 0
  {
    if on then list + [item] else list
  }

  /** `if allowed { list = append(list, item) }`. */
  method AppendIf<T(!new)>(list: seq<T>, on: bool, item: T) returns (r: seq<T>)
    ensures r == Pick(list, on, item)
  {
    r := list;
    if on { r := r + [item]; }
  }

  /** The items whose flag is set, in order: the six built-in protocols of a renderer. */
  function Chosen<T(!new)>(on: seq<bool>, items: seq<T>): seq<T>
    requires |on| == |items| == 6
  {
    Pick(Pick(Pick(Pick(Pick(Pick([], on[0], items[0]), on[1], items[1]), on[2], items[2]), on[3], items[3]), on[4], items[4]), on[5], items[5])
  }

  method AppendSix<T(!new)>(on: seq<bool>, items: seq<T>) returns (list: seq<T>)
    requires |on| == |items| == 6
    ensures list == Chosen(on, items)
  {
    list := AppendIf([], on[0], items[0]);
    list := AppendIf(list, on[1], items[1]);
    list := AppendIf(list, on[2], items[2]);
    list := AppendIf(list, on[3], items[3]);
    list := AppendIf(list, on[4], items[4]);
    list := AppendIf(list, on[5], items[5]);
  }

  lemma ChosenExactly<T(!new)>(on: seq<bool>, items: seq<T>, x: T)
    requires |on| == |items| == 6
    ensures x in Chosen(on, items) <==> exists i :: 0 <= i < 6 && on[i] && items[i] == x
  {
    var in6 := (on[0] && items[0] == x) || (on[1] && items[1] == x) || (on[2] && items[2] == x)
            || (on[3] && items[3] == x) || (on[4] && items[4] == x) || (on[5] && items[5] == x);
    assert x in Chosen(on, items) <==> in6;
  }

  // ---------- what the settings say ----------

  /** Stored toggles decide alone; without any, the six built-in protocols are on. A stored SNI
      wins over the configured one. */
  lemma SettingsRead(snap: Snapshot, cfg: Config, key: string)
    ensures snap.stored != map[] ==> (On(snap.Global(), key) <==> key in snap.stored && snap.stored[key])
    ensures snap.stored == map[] ==>
              (On(snap.Global(), key) <==> key in ["vless-reality", "vless-ws", "vless-xhttp", "vless-hu", "vmess-ws", "trojan-ws"])
    ensures snap.storedSni != "" ==> snap.Sni(cfg) == snap.storedSni
    ensures snap.storedSni == "" ==> snap.Sni(cfg) == cfg.realitySni
  {
    assert snap.stored != map[] ==> |snap.stored| > 0 by { if |snap.stored| == 0 { assert snap.stored.Keys == {}; assert snap.stored == map[]; } }
  }

  predicate Slashes(s: string) { forall i :: 0 <= i < |s| ==> s[i] == '/' }

  /** `trimSlash` returns what follows the leading slashes. */
  lemma {:induction false} UnslashedExactly(slashes: string, rest: string)
    requires Slashes(slashes) && (rest == "" || rest[0] != '/')
    ensures Unslashed(slashes + rest) == rest
  {
    if slashes == "" {
      assert slashes + rest == rest;
    } else {
      assert (slashes + rest)[1..] == slashes[1..] + rest;
      UnslashedExactly(slashes[1..], rest);
    }
  }
}
