/** Reading Xray's counters and comparing client lists (`QueryStats`, `toInt64`,
    internal/xray/supervisor.go; `equalStringSets`, internal/api/traffic.go). */
module Statistics {
  import opened Wrappers
  import opened Decimal

  // ---------- client lists ----------

  function Tally(m: map<string, int>, s: string): int { if s in m then m[s] else 0 }

  lemma SameSizeSubset(a: multiset<string>, b: multiset<string>)
    requires b <= a && |a| == |b|
    ensures a == b
  {
    assert a == b + (a - b);
    assert |a - b| == 0;
  }

  function Occurs(a: seq<string>, s: string): int { multiset(a)[s] }

  /** The counters are the occurrences in `a` minus those in `b`. */
  ghost predicate Differences(counts: map<string, int>, a: seq<string>, b: seq<string>) {
    forall s :: Tally(counts, s) == Occurs(a, s) - Occurs(b, s)
  }

  lemma OccursNext(a: seq<string>, i: nat, s: string)
    requires i < |a|
    ensures Occurs(a[..i + 1], s) == Occurs(a[..i], s) + if a[i] == s then 1 else 0
  {
    assert a[..i + 1] == a[..i] + [a[i]];
  }

  lemma OccursWithin(a: seq<string>, i: nat, s: string)
    requires i <= |a|
    ensures Occurs(a[..i], s) <= Occurs(a, s)
  {
    assert a == a[..i] + a[i..];
  }

  /** One more element of `b`, or of `a`, is counted. */
  lemma DifferencesNext(counts: map<string, int>, a: seq<string>, b: seq<string>, i: nat, up: bool)
    requires if up then i < |a| && b == [] && Differences(counts, a[..i], b) else i < |b| && Differences(counts, a, b[..i])
    ensures up ==> Differences(counts[a[i] := Tally(counts, a[i]) + 1], a[..i + 1], b)
    ensures !up ==> Differences(counts[b[i] := Tally(counts, b[i]) - 1], a, b[..i + 1])
  {
    hide Occurs;
    if up {
      forall s ensures Tally(counts[a[i] := Tally(counts, a[i]) + 1], s) == Occurs(a[..i + 1], s) - Occurs(b, s) {
        OccursNext(a, i, s);
      }
    } else {
      forall s ensures Tally(counts[b[i] := Tally(counts, b[i]) - 1], s) == Occurs(a, s) - Occurs(b[..i + 1], s) {
        OccursNext(b, i, s);
      }
    }
  }

  lemma NoDifferences(counts: map<string, int>, a: seq<string>, b: seq<string>)
    requires |a| == |b| && Differences(counts, a, b)
    requires forall s :: Tally(counts, s) >= 0
    ensures multiset(a) == multiset(b)
  {
    forall s ensures multiset(b)[s] <= multiset(a)[s] { assert Tally(counts, s) == Occurs(a, s) - Occurs(b, s); }
    SameSizeSubset(multiset(a), multiset(b));
  }

  /** `equalStringSets`: count up over one list, down over the other. It compares the lists
      as multisets. */
  method EqualStringSets(a: seq<string>, b: seq<string>) returns (same: bool)
    ensures same <==> multiset(a) == multiset(b)
  {
    if |a| != |b| {
      assert |multiset(a)| == |a| && |multiset(b)| == |b|;
      return false;
    }
    var counts: map<string, int> := map[];
    assert a[..0] == [] && Differences(counts, a[..0], []);
    for i := 0 to |a|
      invariant Differences(counts, a[..i], []) && forall s :: Tally(counts, s) >= 0
    {
      hide Differences, Occurs;
      DifferencesNext(counts, a, [], i, true);
      counts := counts[a[i] := Tally(counts, a[i]) + 1];
    }
    assert a[..|a|] == a && b[..0] == [];
    same := CountDown(counts, a, b);
  }

  method CountDown(counts0: map<string, int>, a: seq<string>, b: seq<string>) returns (same: bool)
    requires |a| == |b| && Differences(counts0, a, []) && forall s :: Tally(counts0, s) >= 0
    ensures same <==> multiset(a) == multiset(b)
  {
    hide Differences, Occurs;
    var counts := counts0;
    assert b[..0] == [];
    for i := 0 to |b|
      invariant Differences(counts, a, b[..i]) && forall s :: Tally(counts, s) >= 0
    {
      ghost var prev := counts;
      DifferencesNext(counts, a, b, i, false);
      counts := counts[b[i] := Tally(counts, b[i]) - 1];
      assert forall s :: s != b[i] ==> Tally(counts, s) == Tally(prev, s);
      if Tally(counts, b[i]) < 0 {
        TooMany(counts, a, b, i + 1, b[i]);
        return false;
      }
    }
    assert b[..|b|] == b;
    NoDifferences(counts, a, b);
    return true;
  }

  lemma TooMany(counts: map<string, int>, a: seq<string>, b: seq<string>, i: nat, s: string)
    requires i <= |b| && Differences(counts, a, b[..i]) && Tally(counts, s) < 0
    ensures multiset(a) != multiset(b)
  {
    OccursWithin(b, i, s);
    assert Occurs(a, s) < Occurs(b, s);
  }

  // ---------- counter names ----------

  /** A value in the statistics JSON; numbers are given after their conversion to int64. */
  datatype Json = Number(n: int) | Text(s: string) | Other

  datatype Stat = Stat(name: string, value: Json)

  /** `toInt64`. */
  function ToInt64(v: Json): Option<int> {
    match v
    case Number(n) => Some(Wrap64(n))
    case Text(s) => Strconv(s)
    case Other => None
  }

  const SEP := ">>>"

  /** `strings.Split(s, ">>>")`; `pending` is the piece read so far. */
  function Pieces(s: string, pending: string): (r: seq<string>)
    ensures |r| >= 1
    decreases |s|
  {
    if s == "" then [pending]
    else if SEP <= s then [pending] + Pieces(s[3..], "")
    else Pieces(s[1..], pending + [s[0]])
  }

  /** The client and direction a counter belongs to. */
  function Counter(st: Stat): Option<(string, bool)> {
    var p := Pieces(st.name, "");
    if |p| != 4 || p[0] != "user" || ToInt64(st.value).None? then None else Some((p[1], p[3] == "uplink"))
  }

  function Share(st: Stat, email: string, up: bool): int {
    if Counter(st) == Some((email, up)) then ToInt64(st.value).value else 0
  }

  /** The sum of the counters of a client in one direction. */
  function Total(stats: seq<Stat>, email: string, up: bool): int {
    if stats == [] then 0 else Total(stats[..|stats| - 1], email, up) + Share(stats[|stats| - 1], email, up)
  }

  predicate Mentions(st: Stat, email: string) { Counter(st).Some? && Counter(st).value.0 == email }

  predicate MentionedIn(stats: seq<Stat>, email: string) {
    stats != [] && (MentionedIn(stats[..|stats| - 1], email) || Mentions(stats[|stats| - 1], email))
  }

  // ---------- aggregation ----------

  datatype Delta = Delta(up: int, down: int)

  type Deltas = map<string, Delta>

  function Found(m: Deltas, email: string): Delta { if email in m then m[email] else Delta(0, 0) }

  function Amount(m: Deltas, email: string, up: bool): int { if up then Found(m, email).up else Found(m, email).down }

  lemma WrapSum(x: int, v: int)
    ensures Wrap64(Wrap64(x) + v) == Wrap64(x + v)
  {
    var k := (x - MIN_INT64) / TWO_64;
    assert Wrap64(x) == x - k * TWO_64;
    WrapUnique(Wrap64(x) + v, x + v, -k);
  }

  ghost predicate Aggregates(m: Deltas, stats: seq<Stat>) {
    forall email: string, up: bool :: Amount(m, email, up) == Wrap64(Total(stats, email, up))
  }

  ghost predicate Keyed(m: Deltas, stats: seq<Stat>) {
    forall email :: email in m <==> MentionedIn(stats, email)
  }

  function Counted(m: Deltas, email: string, up: bool, v: int): Deltas {
    var cur := Found(m, email);
    m[email := if up then cur.(up := Wrap64(cur.up + v)) else cur.(down := Wrap64(cur.down + v))]
  }

  /** The loop of `QueryStats`: malformed names and values are skipped, the rest summed per
      client and direction in int64 arithmetic. */
  method Aggregate(stats: seq<Stat>) returns (res: Deltas)
    ensures forall email: string, up: bool :: Amount(res, email, up) == Wrap64(Total(stats, email, up))
    ensures forall email :: email in res <==> MentionedIn(stats, email)
  {
    res := map[];
    for n := 0 to |stats|
      invariant Aggregates(res, stats[..n]) && Keyed(res, stats[..n])
    {
      hide Aggregates, Keyed, Counted;
      var st, before := stats[n], res;
      var p := Pieces(st.name, "");
      if |p| != 4 || p[0] != "user" { Skipped(res, stats, n); continue; }
      var v := ToInt64(st.value);
      if v.None? { Skipped(res, stats, n); continue; }
      CountedAggregates(res, stats, n, p[1], p[3] == "uplink", v.value);
      res := Counted(res, p[1], p[3] == "uplink", v.value);
    }
    assert stats[..|stats|] == stats;
  }

  lemma Skipped(res: Deltas, stats: seq<Stat>, n: nat)
    requires n < |stats| && Counter(stats[n]).None? && Aggregates(res, stats[..n]) && Keyed(res, stats[..n])
    ensures Aggregates(res, stats[..n + 1]) && Keyed(res, stats[..n + 1])
  {
    hide Counter;
    var s := stats[..n + 1];
    assert s[..n] == stats[..n];
    forall email: string, up: bool ensures Amount(res, email, up) == Wrap64(Total(s, email, up)) {
      assert Total(s, email, up) == Total(stats[..n], email, up);
    }
  }

  lemma CountedAggregates(res: Deltas, stats: seq<Stat>, n: nat, email: string, up: bool, v: int)
    requires n < |stats| && Aggregates(res, stats[..n]) && Keyed(res, stats[..n])
    requires Counter(stats[n]) == Some((email, up)) && ToInt64(stats[n].value) == Some(v)
    ensures Aggregates(Counted(res, email, up, v), stats[..n + 1]) && Keyed(Counted(res, email, up, v), stats[..n + 1])
  {
    hide Counter, ToInt64;
    var s := stats[..n + 1];
    assert s[..n] == stats[..n] && s[n] == stats[n];
    forall e: string, u: bool ensures Amount(Counted(res, email, up, v), e, u) == Wrap64(Total(s, e, u)) {
      assert Amount(res, e, u) == Wrap64(Total(stats[..n], e, u));
      WrapSum(Total(stats[..n], e, u), v);
    }
  }

  // ---------- the names Xray prints ----------

  predicate NoArrow(s: string) { forall i :: 0 <= i < |s| ==> s[i] != '>' }

  lemma {:induction false} PieceEnds(s: string, rest: string, pending: string)
    requires NoArrow(s)
    ensures Pieces(s + SEP + rest, pending) == [pending + s] + Pieces(rest, "")
    decreases |s|
  {
    var t := s + SEP + rest;
    if s == "" {
      assert t[3..] == rest;
      assert pending + s == pending;
    } else {
      assert t[0] == s[0] && t[1..] == s[1..] + SEP + rest;
      PieceEnds(s[1..], rest, pending + [s[0]]);
      assert pending + [s[0]] + s[1..] == pending + s;
    }
  }

  lemma {:induction false} LastPiece(s: string, pending: string)
    requires NoArrow(s)
    ensures Pieces(s, pending) == [pending + s]
    decreases |s|
  {
    if s == "" {
      assert pending + s == pending;
    } else {
      LastPiece(s[1..], pending + [s[0]]);
      assert pending + [s[0]] + s[1..] == pending + s;
    }
  }

  function CounterName(email: string, up: bool): string {
    "user" + SEP + (email + SEP + ("traffic" + SEP + Direction(up)))
  }

  function Direction(up: bool): string { if up then "uplink" else "downlink" }

  lemma NamePieces(email: string, up: bool)
    requires NoArrow(email)
    ensures Pieces(CounterName(email, up), "") == ["user", email, "traffic", Direction(up)]
  {
    assert NoArrow("user");
    hide Pieces, NoArrow;
    var tail := "traffic" + SEP + Direction(up);
    TailPieces(up);
    PieceEnds(email, tail, "");
    PieceEnds("user", email + SEP + tail, "");
    assert "" + "user" == "user" && "" + email == email;
  }

  lemma TailPieces(up: bool)
    ensures Pieces("traffic" + SEP + Direction(up), "") == ["traffic", Direction(up)]
  {
    var dir := Direction(up);
    assert NoArrow("traffic") && NoArrow(dir);
    hide Pieces, NoArrow;
    PieceEnds("traffic", dir, "");
    LastPiece(dir, "");
    assert "" + "traffic" == "traffic" && "" + dir == dir;
  }

  /** The counters of clients are read back; client ids are UUIDs and hold no '>'. */
  lemma CounterReadsBack(email: string, up: bool, n: int)
    requires NoArrow(email) && IsInt64(n) && n != MIN_INT64
    ensures Counter(Stat(CounterName(email, up), Text(Int64Text(n)))) == Some((email, up))
    ensures ToInt64(Text(Int64Text(n))) == Some(n)
  {
    hide Pieces, CounterName, Strconv, Int64Text;
    Int64RoundTrip(n);
    NamePieces(email, up);
  }

  function JoinArrows(parts: seq<string>): string
    requires |parts| >= 1
  {
    if |parts| == 1 then parts[0] else parts[0] + SEP + JoinArrows(parts[1..])
  }

  lemma {:induction false} PiecesOfJoin(parts: seq<string>)
    requires |parts| >= 1 && forall i :: 0 <= i < |parts| ==> NoArrow(parts[i])
    ensures Pieces(JoinArrows(parts), "") == parts
  {
    hide Pieces, NoArrow;
    assert "" + parts[0] == parts[0];
    if |parts| == 1 {
      LastPiece(parts[0], "");
    } else {
      PieceEnds(parts[0], JoinArrows(parts[1..]), "");
      PiecesOfJoin(parts[1..]);
    }
  }

  /** A counter counts exactly when its name has four parts, the first of them "user", and its
      value is a number; then it belongs to the second part, in the direction of the fourth. */
  lemma CounterExactly(parts: seq<string>, value: Json)
    requires |parts| >= 1 && forall i :: 0 <= i < |parts| ==> NoArrow(parts[i])
    ensures Counter(Stat(JoinArrows(parts), value)) ==
              if |parts| == 4 && parts[0] == "user" && ToInt64(value).Some? then Some((parts[1], parts[3] == "uplink")) else None
  {
    hide Pieces, ToInt64, NoArrow;
    PiecesOfJoin(parts);
  }

  /** A printed counter adds its number to the total of its client and direction, and to no
      other total. */
  lemma CounterAdds(stats: seq<Stat>, email: string, up: bool, n: int, other: string, down: bool)
    requires NoArrow(email) && IsInt64(n) && n != MIN_INT64
    ensures Total([], other, down) == 0
    ensures Total(stats + [Stat(CounterName(email, up), Text(Int64Text(n)))], other, down)
         == Total(stats, other, down) + if other == email && down == up then n else 0
  {
    hide Counter, ToInt64, CounterName, NoArrow;
    CounterReadsBack(email, up, n);
    var st := Stat(CounterName(email, up), Text(Int64Text(n)));
    assert (stats + [st])[..|stats|] == stats;
  }
}
