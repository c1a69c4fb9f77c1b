/** Custom routes in front of the panel (`SyncCustomRoutes`, `pathCollides`, `lookupCustom`,
    internal/api/proxy.go). */
module Routing {
  import opened Wrappers
  import opened Decimal
  import opened Policy
  import opened Inbounds

  /** A reverse proxy to a local inbound. */
  datatype Route = Route(target: string, network: string)

  type Registry = map<string, Route>

  const LOOPBACK := "127.0.0.1:"

  function RouteTo(port: int, network: string): Route
    requires IsInt64(port)
  {
    Route(LOOPBACK + Int64Text(port), network)
  }

  /** Port columns are 32-bit integers. */
  predicate Stored(table: seq<Row>) {
    forall i :: 0 <= i < |table| ==> -0x8000_0000 <= table[i].ib.lport < 0x8000_0000
  }

  /** Rows that get a route: TLS, with a path that shadows nothing and a port that forms a
      valid proxy address. */
  predicate Registered(cfg: Config, ib: CustomInbound) {
    ib.security == "tls" && ib.path != "" && ib.lport > 0 && !Collides(cfg, ib.path)
  }

  /** The registry built from a table; a later row replaces an earlier one of the same path. */
  function Routes(cfg: Config, table: seq<Row>): Registry
    requires Stored(table)
  {
    if table == [] then map[]
    else
      var rest, ib := Routes(cfg, table[..|table| - 1]), table[|table| - 1].ib;
      if Registered(cfg, ib) then rest[ib.path := RouteTo(ib.lport, ib.network)] else rest
  }

  /** How the query of `SyncCustomRoutes` goes: it fails, or its rows stop coming after `upto`
      of them (an error the code does not look for), and some rows cannot be scanned. */
  datatype Reading = Reading(fails: bool, upto: nat, unreadable: int -> bool)

  predicate Complete(table: seq<Row>, r: Reading) {
    !r.fails && |table| <= r.upto && forall i :: 0 <= i < |table| ==> !r.unreadable(i)
  }

  /** The rows that reach the loop. */
  function Delivered(table: seq<Row>, r: Reading): (d: seq<Row>)
    ensures forall i :: 0 <= i < |d| ==> d[i] in table
    ensures Stored(table) ==> Stored(d)
  {
    if table == [] then []
    else
      var n := |table| - 1;
      Delivered(table[..n], r) + IfThen(n < r.upto && !r.unreadable(n), table[n])
  }

  lemma {:induction false} AllDelivered(table: seq<Row>, r: Reading)
    requires Complete(table, r)
    ensures Delivered(table, r) == table
  {
    hide Stored;
    if table != [] {
      var n := |table| - 1;
      AllDelivered(table[..n], r);
      assert n < r.upto && !r.unreadable(n);
      assert table == table[..n] + [table[n]];
    }
  }

  /** `SyncCustomRoutes`, after the query: the loop over the rows that arrive. */
  method BuildRegistry(cfg: Config, table: seq<Row>, r: Reading) returns (next: Registry)
    requires Stored(table)
    ensures next == Routes(cfg, Delivered(table, r))
  {
    next := map[];
    var i := 0;
    while i < |table| && i < r.upto
      invariant 0 <= i <= |table| && i <= r.upto
      invariant next == Routes(cfg, Delivered(table[..i], r))
    {
      hide Routes, Delivered;
      DeliveredNext(cfg, table, r, i);
      var ib := table[i].ib;
      i := i + 1;
      if r.unreadable(i - 1) { continue; }
      if ib.security != "tls" || ib.path == "" || ib.lport == 0 { continue; }
      if Collides(cfg, ib.path) { continue; }
      if ib.lport > 0 { // a negative port is no valid proxy address
        var port := Itoa(ib.lport);
        next := next[ib.path := Route(LOOPBACK + port, ib.network)];
      }
    }
    RestNotDelivered(table, r, i);
  }

  /** One more row of the table: one more route, or none. */
  lemma DeliveredNext(cfg: Config, table: seq<Row>, r: Reading, i: nat)
    requires Stored(table) && i < |table| && i < r.upto
    ensures Stored(table[..i]) && Stored(table[..i + 1])
    ensures
      var before, ib := Routes(cfg, Delivered(table[..i], r)), table[i].ib;
      Routes(cfg, Delivered(table[..i + 1], r)) ==
      if !r.unreadable(i) && ib.security == "tls" && ib.path != "" && ib.lport > 0 && !Collides(cfg, ib.path)
      then before[ib.path := RouteTo(ib.lport, ib.network)] else before
  {
    hide Collides, RouteTo, Delivered, Routes;
    DeliveredSnoc(table, r, i);
    assert Stored(table[..i]) && Stored(table[..i + 1]);
    if r.unreadable(i) {
      assert Delivered(table[..i], r) + [] == Delivered(table[..i], r);
    } else {
      RoutesSnoc(cfg, Delivered(table[..i], r), table[i]);
    }
  }

  lemma DeliveredSnoc(table: seq<Row>, r: Reading, i: nat)
    requires i < |table| && i < r.upto
    ensures Delivered(table[..i + 1], r) == Delivered(table[..i], r) + if r.unreadable(i) then [] else [table[i]]
  {
    hide Stored;
    assert table[..i + 1][..i] == table[..i];
  }

  lemma RoutesSnoc(cfg: Config, d: seq<Row>, row: Row)
    requires Stored(d) && Stored(d + [row])
    ensures IsInt64(row.ib.lport)
    ensures Routes(cfg, d + [row])
         == if Registered(cfg, row.ib) then Routes(cfg, d)[row.ib.path := RouteTo(row.ib.lport, row.ib.network)] else Routes(cfg, d)
  {
    hide RouteTo, Registered;
    var e := d + [row];
    assert e[..|e| - 1] == d && e[|d|] == row;
  }

  lemma {:induction false} RestNotDelivered(table: seq<Row>, r: Reading, i: nat)
    requires i <= |table| && (i == |table| || r.upto <= i)
    ensures Delivered(table, r) == Delivered(table[..i], r)
  {
    if i < |table| {
      var n := |table| - 1;
      RestNotDelivered(table[..n], r, i);
      assert table[..n][..i] == table[..i];
    } else {
      assert table[..i] == table;
    }
  }

  /** Whatever part of a valid table arrives is a valid table. */
  lemma {:induction false} DeliveredKeepsRows(cfg: Config, t: seq<Row>, r: Reading)
    requires RowsOk(cfg, t)
    ensures RowsOk(cfg, Delivered(t, r))
  {
    hide RowOk, Apart;
    if t != [] {
      var n := |t| - 1;
      var rest, last := t[..n], t[n];
      DeliveredKeepsRows(cfg, rest, r);
      var d := Delivered(rest, r);
      forall i | 0 <= i < |d| ensures Apart(d[i], last) {
        var k :| 0 <= k < |rest| && rest[k] == d[i];
      }
      if n < r.upto && !r.unreadable(n) {
        assert Delivered(t, r) == d + [last] && (d + [last])[..|d|] == d;
        assert Admissible(cfg, d, last);
      } else {
        assert Delivered(t, r) == d;
      }
    }
  }

  // ---------- lookup ----------

  /** Segment-boundary match: the path itself, or the path and a slash. */
  predicate Matches(path: string, p: string) { p == path || path + ['/'] <= p }

  ghost predicate IsLongest(m: Registry, p: string, k: string) {
    && k in m && k != "" && Matches(k, p)
    && forall other :: other in m && Matches(other, p) ==> |other| <= |k|
  }

  /** Two matches of equal length are the same path, so the winner does not depend on the
      order in which the map is walked. */
  lemma LongestIsUnique(m: Registry, p: string, j: string, k: string)
    requires IsLongest(m, p, j) && IsLongest(m, p, k)
    ensures j == k
  {
    assert |j| == |k|;
    assert j == p[..|j|] && k == p[..|k|];
  }

  ghost function LongestMatch(m: Registry, p: string): (r: Option<Route>)
    ensures forall k :: IsLongest(m, p, k) ==> r == Some(m[k])
    ensures r.Some? ==> exists k :: IsLongest(m, p, k)
  {
    if k :| IsLongest(m, p, k) then
      assert forall j :: IsLongest(m, p, j) ==> j == k by {
        forall j | IsLongest(m, p, j) ensures j == k { LongestIsUnique(m, p, j, k); }
      }
      Some(m[k])
    else None
  }

  /** `lookupCustom`: walk the map in whatever order, keep the longest match. */
  method LookupCustom(customs: Registry, p: string) returns (best: Option<Route>)
    ensures best == LongestMatch(customs, p)
  {
    best := None;
    var bestLen := 0;
    var keys := customs.Keys;
    ghost var bestKey := "";
    while keys != {}
      invariant keys <= customs.Keys && bestLen == |bestKey|
      invariant forall k :: k in customs && k !in keys && Matches(k, p) ==> |k| <= bestLen
      invariant if bestLen == 0 then best == None
                else bestKey in customs && Matches(bestKey, p) && best == Some(customs[bestKey])
      decreases |keys|
    {
      var path :| path in keys;
      keys := keys - {path};
      if Matches(path, p) && |path| > bestLen {
        best, bestLen, bestKey := Some(customs[path]), |path|, path;
      }
    }
    if bestLen > 0 { assert IsLongest(customs, p, bestKey); }
  }

  // ---------- what is never captured ----------

  lemma {:induction false} RoutesSound(cfg: Config, table: seq<Row>, k: string)
    requires Stored(table) && k in Routes(cfg, table)
    ensures k != "" && !Collides(cfg, k)
  {
    var n := |table| - 1;
    if k in Routes(cfg, table[..n]) { RoutesSound(cfg, table[..n], k); }
  }

  /** The panel's own prefixes, in any case. */
  predicate Reserved(p: string) {
    var low := Lowered(p);
    "/api" <= low || "/sub" <= low || "/panel" <= low
  }

  /** Exactly the paths whose first characters spell one of the three, in any case. */
  lemma ReservedExactly(p: string)
    ensures Reserved(p) <==> (|p| >= 4 && (Lowered(p[..4]) == "/api" || Lowered(p[..4]) == "/sub"))
                             || (|p| >= 6 && Lowered(p[..6]) == "/panel")
  {
    assert |p| >= 4 ==> Lowered(p)[..4] == Lowered(p[..4]);
    assert |p| >= 6 ==> Lowered(p)[..6] == Lowered(p[..6]);
    assert "/api" <= Lowered(p) ==> Lowered(p)[..4] == "/api";
    assert "/sub" <= Lowered(p) ==> Lowered(p)[..4] == "/sub";
    assert "/panel" <= Lowered(p) ==> Lowered(p)[..6] == "/panel";
  }

  /** A path that captures a request agrees with it up to its own length. */
  lemma LoweredPrefix(k: string, p: string, prefix: string)
    requires Matches(k, p) && prefix <= Lowered(p) && |prefix| <= |k|
    ensures prefix <= Lowered(k)
  {
    assert k == p[..|k|];
    forall i | 0 <= i < |prefix| ensures Lowered(k)[i] == prefix[i] { assert Lowered(p)[i] == prefix[i]; }
  }

  lemma SlashInside(k: string, p: string, prefix: string)
    requires Matches(k, p) && prefix <= Lowered(p) && 1 <= |k| < |prefix|
    ensures prefix[|k|] == '/'
  {
    assert p[|k|] == '/' && Lowered(p)[|k|] == prefix[|k|];
  }

  /** Whatever the table holds, legacy rows included, no custom route captures a request whose
      path begins with /api, /sub or /panel. */
  lemma ReservedNeverCaptured(cfg: Config, table: seq<Row>, p: string)
    requires Stored(table) && Reserved(p)
    ensures LongestMatch(Routes(cfg, table), p) == None
  {
    hide Collides, Lowered;
    var prefix := if "/api" <= Lowered(p) then "/api" else if "/sub" <= Lowered(p) then "/sub" else "/panel";
    forall k | k in Routes(cfg, table) && Matches(k, p) ensures false {
      RoutesSound(cfg, table, k);
      NoReservedRoute(cfg, k, p, prefix);
    }
  }

  lemma NoReservedRoute(cfg: Config, k: string, p: string, prefix: string)
    requires k != "" && Matches(k, p) && prefix <= Lowered(p)
    requires prefix == "/api" || prefix == "/sub" || prefix == "/panel"
    ensures Collides(cfg, k)
  {
    if |k| < |prefix| { SlashInside(k, p, prefix); } else { LoweredPrefix(k, p, prefix); }
  }

  /** One of the five built-in paths. */
  predicate IsBuiltinPath(cfg: Config, b: string) {
    b == cfg.wsPath || b == cfg.xhttpPath || b == cfg.huPath || b == cfg.vmessPath || b == cfg.trojanPath
  }

  /** A slash behind a prefix that is itself free to be registered. */
  predicate OpenPrefix(cfg: Config, b: string, i: int) {
    1 <= i < |b| && b[i] == '/' && !Collides(cfg, b[..i])
  }

  ghost predicate CapturedBySome(cfg: Config, b: string) {
    exists table :: Stored(table) && LongestMatch(Routes(cfg, table), b).Some?
  }

  /** A request equal to a built-in path can be captured by some table exactly when the path
      has an inner slash behind a prefix that may be registered; a single-segment path never. */
  lemma BuiltinCapturedExactly(cfg: Config, b: string)
    requires IsBuiltinPath(cfg, b)
    ensures CapturedBySome(cfg, b) <==> exists i :: OpenPrefix(cfg, b, i)
  {
    hide Collides;
    if table :| Stored(table) && LongestMatch(Routes(cfg, table), b).Some? {
      var k :| IsLongest(Routes(cfg, table), b, k);
      RoutesSound(cfg, table, k);
      if k == b {
        BuiltinCollides(cfg, b);
        assert false;
      } else {
        assert (k + ['/'])[|k|] == b[|k|] && b[..|k|] == k;
        assert OpenPrefix(cfg, b, |k|);
      }
    }
    if i :| OpenPrefix(cfg, b, i) { CapturingTable(cfg, b, i); }
  }

  lemma BuiltinCollides(cfg: Config, b: string)
    requires IsBuiltinPath(cfg, b)
    ensures Collides(cfg, b)
  {
  }

  lemma CapturingTable(cfg: Config, b: string, i: int)
    requires OpenPrefix(cfg, b, i)
    ensures CapturedBySome(cfg, b)
  {
    hide Collides;
    var k := b[..i];
    var table := [Row(CustomInbound("", "", "vless", "ws", "tls", 0, 1, k, ""), "")];
    var m := Routes(cfg, table);
    assert table[..|table| - 1] == [] && Registered(cfg, table[|table| - 1].ib);
    assert Routes(cfg, []) == map[];
    assert m == map[][k := RouteTo(1, "ws")];
    assert k + ['/'] == b[..i + 1];
    assert IsLongest(m, b, k);
  }

  /** A two-segment path is such a case, with a row the handler stores: "/ab" in front of
      "/ab/c". */
  lemma BuiltinCapturedOnce()
    ensures
      var cfg := Config(443, 10085, "8080", "/ab/c", "/xh", "/hu", "/vm", "/tr", "tcp", "svc", "", "", "", "", "", 0);
      var table := [Row(CustomInbound("ib-1", "a", "vless", "ws", "tls", 0, 10100, "/ab", ""), "")];
      IsBuiltinPath(cfg, "/ab/c") && TableOk(cfg, table) && Stored(table)
      && LongestMatch(Routes(cfg, table), "/ab/c") == Some(RouteTo(10100, "ws"))
  {
    var cfg := Config(443, 10085, "8080", "/ab/c", "/xh", "/hu", "/vm", "/tr", "tcp", "svc", "", "", "", "", "", 0);
    var ib := CustomInbound("ib-1", "a", "vless", "ws", "tls", 0, 10100, "/ab", "");
    var table := [Row(ib, "")];
    FreePath(cfg);
    hide Collides, RouteTo;
    assert RowOk(cfg, table[0]);
    OneRow(cfg, table);
    assert Registered(cfg, ib);
    assert "/ab" + ['/'] == "/ab/c"[..4];
    assert IsLongest(Routes(cfg, table), "/ab/c", "/ab");
  }

  lemma FreePath(cfg: Config)
    requires cfg.wsPath == "/ab/c" && cfg.xhttpPath == "/xh" && cfg.huPath == "/hu" && cfg.vmessPath == "/vm" && cfg.trojanPath == "/tr"
    ensures !Collides(cfg, "/ab") && PathShape("/ab")
  {
    var low := Lowered("/ab");
    assert low[1] == 'a' && low[2] == 'b' && |low| == 3;
    assert Lowered("/xh")[1] == 'x' && Lowered("/hu")[1] == 'h' && Lowered("/vm")[1] == 'v' && Lowered("/tr")[1] == 't';
  }

  lemma OneRow(cfg: Config, table: seq<Row>)
    requires |table| == 1 && RowOk(cfg, table[0]) && IsInt64(table[0].ib.lport)
    ensures TableOk(cfg, table)
    ensures Stored(table) && Registered(cfg, table[0].ib)
        ==> Routes(cfg, table) == map[table[0].ib.path := RouteTo(table[0].ib.lport, table[0].ib.network)]
  {
    hide RowOk, Registered, RouteTo;
    assert table[..0] == [] && RowsOk(cfg, table[..0]) && Admissible(cfg, table[..0], table[0]);
    assert RowsOk(cfg, table);
    if Stored(table) { assert Routes(cfg, table[..0]) == map[]; }
  }
}
