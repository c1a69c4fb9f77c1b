/** The table of custom inbounds: validation and allocation (`createInbound`,
    `deleteInbound`, `portTaken`, `freeLocalPort`, `normPath`, internal/api/handlers.go). */
module Inbounds {
  import opened Decimal
  import opened Encoding
  import opened Names
  import opened Policy

  // ---------- text ----------

  function LowerChar(c: char): char { if 'A' <= c <= 'Z' then (c as int + 32) as char else c }

  /** `strings.ToLower` on ASCII text. */
  function Lowered(s: string): (r: string)
    ensures |r| == |s| && forall i :: 0 <= i < |s| ==> r[i] == LowerChar(s[i])
  {
    seq(|s|, i requires 0 <= i < |s| => LowerChar(s[i]))
  }

  function TrimLeft(s: string, p: char -> bool): string {
    if s != "" && p(s[0]) then TrimLeft(s[1..], p) else s
  }

  function TrimRight(s: string, p: char -> bool): (r: string)
    ensures r == "" || !p(r[|r| - 1])
    ensures r <= s
  {
    if s != "" && p(s[|s| - 1]) then TrimRight(s[..|s| - 1], p) else s
  }

  predicate IsSlash(c: char) { c == '/' }

  /** `strings.TrimSpace` and `strings.Trim(s, "/")`. */
  function TrimSpace(s: string): string { TrimRight(TrimLeft(s, IsSpace), IsSpace) }
  function TrimSlashes(s: string): string { TrimRight(TrimLeft(s, IsSlash), IsSlash) }

  predicate WordChar(c: char) { 'A' <= c <= 'Z' || 'a' <= c <= 'z' || '0' <= c <= '9' || c == '_' || c == '-' }
  predicate PathChar(c: char) { WordChar(c) || c == '/' || c == '.' }

  predicate PathOk(p: string) { p != "" && forall i :: 0 <= i < |p| ==> PathChar(p[i]) }
  predicate SvcOk(s: string) { 3 <= |s| <= 40 && forall i :: 0 <= i < |s| ==> WordChar(s[i]) }

  predicate LowerAlnum(c: char) { 'a' <= c <= 'z' || '0' <= c <= '9' }

  predicate HostLabel(s: string) {
    && 1 <= |s| <= 63 && LowerAlnum(s[0]) && LowerAlnum(s[|s| - 1])
    && forall i :: 0 <= i < |s| ==> LowerAlnum(s[i]) || s[i] == '-'
  }

  predicate TopLabel(s: string) { 2 <= |s| <= 63 && forall i :: 0 <= i < |s| ==> 'a' <= s[i] <= 'z' }

  /** `hostRe`: dot-separated labels, the last one of letters only. */
  predicate HostOk(s: string) {
    var labels := Split(s, '.');
    |labels| >= 2 && TopLabel(labels[|labels| - 1]) && forall i :: 0 <= i < |labels| - 1 ==> HostLabel(labels[i])
  }

  /** A path a route can be registered under. */
  predicate PathShape(p: string) { |p| >= 2 && p[0] == '/' && p[|p| - 1] != '/' && PathOk(p) }

  /** `normPath`: the default, or a slash-led path without trailing slashes. */
  function NormPath(v: string, def: string): (r: string)
    ensures r == def || PathShape(r)
  {
    var p := TrimSpace(v);
    var p1 := if p == "" then def else p;
    var p2 := if ['/'] <= p1 then p1 else ['/'] + p1;
    var p3 := TrimRight(p2, IsSlash);
    var p4 := if p3 == "" then def else p3;
    if PathOk(p4) then p4 else def
  }

  /** The input with a leading slash. */
  function Slashed(t: string): string { if ['/'] <= t then t else ['/'] + t }

  predicate OnlySlashes(s: string) { forall i :: 0 <= i < |s| ==> s[i] == '/' }

  lemma {:induction false} TrimRightCuts(s: string)
    ensures OnlySlashes(s[|TrimRight(s, IsSlash)|..])
  {
    if s != "" && s[|s| - 1] == '/' {
      var rest := s[..|s| - 1];
      TrimRightCuts(rest);
      var n := |TrimRight(rest, IsSlash)|;
      assert s[n..] == rest[n..] + ['/'];
    } else {
      assert s[|s|..] == "";
    }
  }

  /** A trimmed text is the only one that differs by trailing slashes and has none itself. */
  lemma TrimRightExactly(s: string, p: string)
    requires p != "" && p[|p| - 1] != '/'
    ensures TrimRight(s, IsSlash) == p <==> p <= s && OnlySlashes(s[|p|..])
  {
    var t := TrimRight(s, IsSlash);
    TrimRightCuts(s);
    TailAt(s, |t|);
    if p <= s && OnlySlashes(s[|p|..]) {
      TailAt(s, |p|);
      assert s[|p| - 1] == p[|p| - 1];
      assert t != "" ==> s[|t| - 1] == t[|t| - 1];
      assert |t| == |p|;
      assert t == s[..|t|] && p == s[..|p|];
    }
  }

  lemma TailAt(s: string, n: nat)
    requires n <= |s| && OnlySlashes(s[n..])
    ensures forall k :: n <= k < |s| ==> s[k] == '/'
  {
    forall k | n <= k < |s| ensures s[k] == '/' { assert s[n..][k - n] == s[k]; }
  }

  /** Which path an input is normalised to: one that differs from the trimmed, slash-led
      input by trailing slashes only. Every other input, and a blank one, gets the default. */
  lemma NormPathExactly(v: string, def: string, p: string)
    requires PathShape(p) && p != def
    ensures TrimSpace(v) != "" ==>
              (NormPath(v, def) == p <==> p <= Slashed(TrimSpace(v)) && OnlySlashes(Slashed(TrimSpace(v))[|p|..]))
    ensures TrimSpace(v) == "" && (def == "" || PathShape(def)) ==> NormPath(v, def) == def
  {
    hide TrimSpace, PathOk;
    var t := TrimSpace(v);
    if t != "" {
      TrimRightExactly(Slashed(t), p);
    } else if def == "" {
      assert TrimRight("/", IsSlash) == TrimRight("", IsSlash);
    } else if PathShape(def) {
      assert Slashed(def) == def && def[|def|..] == "";
      TrimRightExactly(def, def);
    }
  }

  // ---------- the table ----------

  /** A row of the inbounds table; an absent port is stored as NULL and read as 0. */
  datatype Row = Row(ib: CustomInbound, svc: string)

  /** `LoadCustoms`: the path of a gRPC inbound is rebuilt from its service name. */
  function Loaded(r: Row): CustomInbound { if r.ib.network == "grpc" then r.ib.(path := "/" + r.svc) else r.ib }

  function LoadCustoms(table: seq<Row>): seq<CustomInbound> {
    seq(|table|, i requires 0 <= i < |table| => Loaded(table[i]))
  }

  function ListenPort(ib: CustomInbound): int { if ib.security == "reality" then ib.port else ib.lport }

  /** `pathCollides`: a reserved prefix or one of the five built-in paths, ignoring case. */
  predicate Collides(cfg: Config, p: string) {
    var low := Lowered(p);
    || "/api" <= low || "/sub" <= low || "/panel" <= low
    || low == Lowered(cfg.wsPath) || low == Lowered(cfg.xhttpPath) || low == Lowered(cfg.huPath)
    || low == Lowered(cfg.vmessPath) || low == Lowered(cfg.trojanPath)
  }

  /** The ports `portTaken` refuses without looking at the table. */
  predicate BuiltinPort(cfg: Config, port: int) {
    || port == cfg.appPort || port == cfg.apiPort || 10001 <= port <= 10006
    || (cfg.httpPort != "" && AllDigits(cfg.httpPort) && port == AtoiValue(cfg.httpPort))
  }

  predicate RowOk(cfg: Config, r: Row) {
    && WellFormed(r.ib) && Loaded(r) == r.ib && (r.ib.network == "grpc" ==> SvcOk(r.svc))
    && (if r.ib.security == "tls"
        then r.ib.port == 0 && 10100 <= r.ib.lport <= 10999 && PathShape(r.ib.path) && !Collides(cfg, r.ib.path)
        else r.ib.lport == 0 && !BuiltinPort(cfg, r.ib.port))
  }

  /** Two rows never share a port or a tag, nor two TLS rows a path up to case. */
  predicate Apart(x: Row, y: Row) {
    && ListenPort(x.ib) != ListenPort(y.ib) && x.ib.tag != y.ib.tag
    && (x.ib.security == "tls" && y.ib.security == "tls" ==> Lowered(x.ib.path) != Lowered(y.ib.path))
  }

  predicate Admissible(cfg: Config, table: seq<Row>, r: Row) {
    RowOk(cfg, r) && forall i :: 0 <= i < |table| ==> Apart(table[i], r)
  }

  predicate RowsOk(cfg: Config, table: seq<Row>) {
    table == [] || (RowsOk(cfg, table[..|table| - 1]) && Admissible(cfg, table[..|table| - 1], table[|table| - 1]))
  }

  /** The invariant of the table. */
  predicate TableOk(cfg: Config, table: seq<Row>) { |table| <= 20 && RowsOk(cfg, table) }

  function Without(table: seq<Row>, tag: string): (r: seq<Row>)
    ensures |r| <= |table|
    ensures forall i :: 0 <= i < |r| ==> r[i] in table
  {
    if table == [] then []
    else Without(table[..|table| - 1], tag) + IfThen(table[|table| - 1].ib.tag != tag, table[|table| - 1])
  }

  /** `kept` are the places whose rows do not have the tag, and the new table is those
      rows in their order. */
  ghost predicate Deleted(before: seq<Row>, after: seq<Row>, tag: string, kept: seq<nat>) {
    && |kept| == |after|
    && (forall i, j :: 0 <= i < j < |kept| ==> kept[i] < kept[j])
    && (forall i :: 0 <= i < |kept| ==> kept[i] < |before| && before[kept[i]].ib.tag != tag && after[i] == before[kept[i]])
    && forall k :: 0 <= k < |before| && before[k].ib.tag != tag ==> exists i :: 0 <= i < |kept| && kept[i] == k
  }

  /** Deletion by tag removes every row of the tag and no other, and keeps the order. */
  lemma {:induction false} WithoutDeletes(table: seq<Row>, tag: string) returns (kept: seq<nat>)
    ensures Deleted(table, Without(table, tag), tag, kept)
  {
    hide Deleted;
    if table == [] {
      kept := [];
      NothingDeleted(tag);
    } else {
      var n := |table| - 1;
      assert table == table[..n] + [table[n]];
      var before := WithoutDeletes(table[..n], tag);
      NextRow(table[..n], Without(table[..n], tag), tag, before, table[n]);
      kept := if table[n].ib.tag != tag then before + [n] else before;
    }
  }

  lemma NothingDeleted(tag: string)
    ensures Deleted([], [], tag, [])
  {
  }

  lemma NextRow(before: seq<Row>, after: seq<Row>, tag: string, kept: seq<nat>, r: Row)
    requires Deleted(before, after, tag, kept)
    ensures r.ib.tag == tag ==> Deleted(before + [r], after + IfThen(false, r), tag, kept)
    ensures r.ib.tag != tag ==> Deleted(before + [r], after + IfThen(true, r), tag, kept + [|before|])
  {
    assert forall i :: 0 <= i < |kept| ==> (kept + [|before|])[i] == kept[i];
    assert after + [] == after && (kept + [|before|])[|kept|] == |before|;
  }

  /** The same as a count: no row of the tag is left, every other row is there as often. */
  lemma {:induction false} WithoutCounts(table: seq<Row>, tag: string, r: Row)
    ensures multiset(Without(table, tag))[r] == if r.ib.tag == tag then 0 else multiset(table)[r]
  {
    if table != [] {
      var n := |table| - 1;
      WithoutCounts(table[..n], tag, r);
      assert table == table[..n] + [table[n]];
    }
  }

  /** What one request does to the table: nothing, one admissible row more, or the rows of
      one tag fewer. */
  predicate TableStep(cfg: Config, t: seq<Row>, u: seq<Row>, tag: string) {
    || u == t
    || (|t| < 20 && |u| == |t| + 1 && u[..|t|] == t && Admissible(cfg, t, u[|t|]))
    || u == Without(t, tag)
  }

  lemma {:induction false} WithoutKeepsRows(cfg: Config, t: seq<Row>, tag: string)
    requires RowsOk(cfg, t)
    ensures RowsOk(cfg, Without(t, tag))
  {
    hide RowOk, Apart;
    if t != [] {
      var rest, last := t[..|t| - 1], t[|t| - 1];
      WithoutKeepsRows(cfg, rest, tag);
      var w := Without(rest, tag);
      forall i | 0 <= i < |w| ensures Apart(w[i], last) {
        var k :| 0 <= k < |rest| && rest[k] == w[i];
      }
      if last.ib.tag != tag {
        assert Without(t, tag) == w + [last];
        assert (w + [last])[..|w|] == w;
        assert Admissible(cfg, w, last);
      } else {
        assert Without(t, tag) == w;
      }
    }
  }

  lemma StepKeepsTable(cfg: Config, t: seq<Row>, u: seq<Row>, tag: string)
    requires TableOk(cfg, t) && TableStep(cfg, t, u, tag)
    ensures TableOk(cfg, u)
  {
    hide RowOk, Apart;
    if u == Without(t, tag) { WithoutKeepsRows(cfg, t, tag); }
  }

  /** A history of tables, one request after another. */
  predicate History(cfg: Config, tables: seq<seq<Row>>, tags: seq<string>) {
    && |tables| == |tags| + 1 && tables[0] == []
    && forall i :: 0 <= i < |tags| ==> TableStep(cfg, tables[i], tables[i + 1], tags[i])
  }

  /** Over every run of creates and deletes the invariant holds. */
  lemma {:induction false} HistoryKeepsTable(cfg: Config, tables: seq<seq<Row>>, tags: seq<string>, n: nat)
    requires History(cfg, tables, tags) && n < |tables|
    ensures TableOk(cfg, tables[n])
    decreases n
  {
    if n > 0 {
      HistoryKeepsTable(cfg, tables, tags, n - 1);
      StepKeepsTable(cfg, tables[n - 1], tables[n], tags[n - 1]);
    }
  }

  lemma {:induction false} RowAt(cfg: Config, table: seq<Row>, i: nat)
    requires RowsOk(cfg, table) && i < |table|
    ensures RowOk(cfg, table[i])
    decreases |table|
  {
    if i < |table| - 1 { RowAt(cfg, table[..|table| - 1], i); }
  }

  lemma {:induction false} RowsApart(cfg: Config, table: seq<Row>, i: nat, j: nat)
    requires RowsOk(cfg, table) && i < j < |table|
    ensures Apart(table[i], table[j])
    decreases |table|
  {
    var k := |table| - 1;
    if j < k { RowsApart(cfg, table[..k], i, j); } else { assert table[..k][i] == table[i]; }
  }

  // ---------- allocation ----------

  /** `SELECT count(*) ... WHERE lport=$1 OR port=$1`; a stored 0 is NULL and matches nothing. */
  predicate InUse(table: seq<Row>, port: int) {
    exists i :: 0 <= i < |table| && port != 0 && (table[i].ib.port == port || table[i].ib.lport == port)
  }

  const FIRST_LOCAL := 10100
  const LAST_LOCAL := 10999

  /** The port whose query answered and found no row. */
  predicate Usable(table: seq<Row>, fails: int -> bool, p: int) { !fails(p) && !InUse(table, p) }

  /** `freeLocalPort`: the least usable port, or 0 when there is none. */
  method FreeLocalPort(table: seq<Row>, fails: int -> bool) returns (port: int)
    ensures port == 0 <==> forall p :: FIRST_LOCAL <= p <= LAST_LOCAL ==> !Usable(table, fails, p)
    ensures port != 0 ==> FIRST_LOCAL <= port <= LAST_LOCAL && Usable(table, fails, port)
    ensures port != 0 ==> forall p :: FIRST_LOCAL <= p < port ==> !Usable(table, fails, p)
  {
    var p := FIRST_LOCAL;
    while p <= LAST_LOCAL
      invariant FIRST_LOCAL <= p <= LAST_LOCAL + 1
      invariant forall q :: FIRST_LOCAL <= q < p ==> !Usable(table, fails, q)
    {
      if Usable(table, fails, p) { return p; }
      p := p + 1;
    }
    return 0;
  }

  function PortsIn(table: seq<Row>): (s: set<int>)
    ensures |s| <= 2 * |table|
    ensures forall i :: 0 <= i < |table| ==> table[i].ib.port in s && table[i].ib.lport in s
  {
    if table == [] then {}
    else
      var r := table[|table| - 1].ib;
      assert table == table[..|table| - 1] + [table[|table| - 1]];
      PortsIn(table[..|table| - 1]) + {r.port} + {r.lport}
  }

  function Interval(lo: int, hi: int): (s: set<int>)
    requires lo <= hi
    ensures |s| == hi - lo && forall p :: p in s <==> lo <= p < hi
    decreases hi - lo
  {
    if lo == hi then {} else Interval(lo, hi - 1) + {hi - 1}
  }

  lemma SubsetSize(a: set<int>, b: set<int>)
    requires a <= b
    ensures |a| <= |b|
  {
    assert b == a + (b - a);
  }

  /** With at most 20 rows and no database error some of the 900 ports is free, so the
      rejection for exhausted ports cannot happen. */
  lemma LocalPortExists(table: seq<Row>, fails: int -> bool) returns (p: int)
    requires |table| <= 20 && forall q :: FIRST_LOCAL <= q <= LAST_LOCAL ==> !fails(q)
    ensures FIRST_LOCAL <= p <= LAST_LOCAL && Usable(table, fails, p)
  {
    var range, used := Interval(FIRST_LOCAL, LAST_LOCAL + 1), PortsIn(table);
    if range <= used { SubsetSize(range, used); }
    p :| p in range && p !in used;
  }

  // ---------- case, blanks and slashes ----------

  /** The same letter in either case, or the same character. */
  predicate SameLetter(c: char, d: char) {
    c == d || ('A' <= c <= 'Z' && d as int == c as int + 32) || ('A' <= d <= 'Z' && c as int == d as int + 32)
  }

  /** Two ASCII texts are the same in lower case exactly when they differ in case only. */
  lemma FoldExactly(s: string, t: string)
    ensures Lowered(s) == Lowered(t) <==> |s| == |t| && forall i :: 0 <= i < |s| ==> SameLetter(s[i], t[i])
    ensures forall i :: 0 <= i < |s| ==> !('A' <= Lowered(s)[i] <= 'Z')
  {
    if Lowered(s) == Lowered(t) {
      assert |s| == |t|;
      forall i | 0 <= i < |s| ensures SameLetter(s[i], t[i]) { assert Lowered(s)[i] == Lowered(t)[i]; }
    }
  }

  predicate All(s: string, p: char -> bool) { forall i :: 0 <= i < |s| ==> p(s[i]) }

  lemma {:induction false} TrimLeftOf(a: string, m: string, p: char -> bool)
    requires All(a, p) && (m == "" || !p(m[0]))
    ensures TrimLeft(a + m, p) == m
  {
    if a == "" {
      assert a + m == m;
    } else {
      assert (a + m)[1..] == a[1..] + m;
      TrimLeftOf(a[1..], m, p);
    }
  }

  lemma {:induction false} TrimRightOf(m: string, b: string, p: char -> bool)
    requires All(b, p) && (m == "" || !p(m[|m| - 1]))
    ensures TrimRight(m + b, p) == m
  {
    if b == "" {
      assert m + b == m;
    } else {
      assert (m + b)[..|m + b| - 1] == m + b[..|b| - 1];
      TrimRightOf(m, b[..|b| - 1], p);
    }
  }

  /** Blanks, or slashes, are removed at both ends and nowhere else. */
  lemma TrimExactly(a: string, m: string, b: string)
    requires m != ""
    ensures All(a, IsSpace) && All(b, IsSpace) && !IsSpace(m[0]) && !IsSpace(m[|m| - 1]) ==> TrimSpace(a + (m + b)) == m
    ensures All(a, IsSlash) && All(b, IsSlash) && m[0] != '/' && m[|m| - 1] != '/' ==> TrimSlashes(a + (m + b)) == m
  {
    hide All, TrimLeft, TrimRight;
    if All(a, IsSpace) && All(b, IsSpace) && !IsSpace(m[0]) && !IsSpace(m[|m| - 1]) {
      TrimLeftOf(a, m + b, IsSpace);
      TrimRightOf(m, b, IsSpace);
    }
    if All(a, IsSlash) && All(b, IsSlash) && m[0] != '/' && m[|m| - 1] != '/' {
      TrimLeftOf(a, m + b, IsSlash);
      TrimRightOf(m, b, IsSlash);
    }
  }

  // ---------- the three patterns ----------

  predicate HostLetter(c: char) { 'a' <= c <= 'z' || '0' <= c <= '9' || c == '-' }

  predicate GoodLabel(s: string) { 1 <= |s| <= 63 && All(s, HostLetter) && s[0] != '-' && s[|s| - 1] != '-' }

  /** `hostRe`: at least two labels between dots; all but the last of one to 63 small letters,
      digits and inner hyphens, the last of two to 63 small letters. */
  lemma HostOkExactly(labels: seq<string>)
    requires |labels| >= 1 && forall i :: 0 <= i < |labels| ==> '.' !in labels[i]
    ensures HostOk(Join(labels, '.')) <==>
      && |labels| >= 2
      && (forall i :: 0 <= i < |labels| - 1 ==> GoodLabel(labels[i]))
      && (var top := labels[|labels| - 1]; 2 <= |top| <= 63 && All(top, (c: char) => 'a' <= c <= 'z'))
  {
    hide Split, Join;
    SplitOfJoin(labels, '.');
    forall i | 0 <= i < |labels| - 1
      ensures HostLabel(labels[i]) <==> GoodLabel(labels[i])
    {
      LabelExactly(labels[i]);
    }
  }

  lemma LabelExactly(s: string)
    ensures HostLabel(s) <==> GoodLabel(s)
  {
    if HostLabel(s) { assert LowerAlnum(s[0]) && LowerAlnum(s[|s| - 1]); }
  }

  predicate Letter(c: char) { 'a' <= c <= 'z' || 'A' <= c <= 'Z' || '0' <= c <= '9' || c == '-' || c == '_' }

  /** `svcRe` and `pathOKRe`. */
  lemma PatternsExactly(s: string)
    ensures SvcOk(s) <==> 3 <= |s| <= 40 && All(s, Letter)
    ensures PathOk(s) <==> |s| >= 1 && All(s, (c: char) => Letter(c) || c == '/' || c == '.')
    ensures PathShape(s) <==> |s| >= 2 && s[0] == '/' && s[|s| - 1] != '/' && PathOk(s)
  {
  }
}
