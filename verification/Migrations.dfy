/** The migration runner (`Migrate`, internal/db/db.go): each script in its own transaction,
    in version order, with a failure possible at every statement. */
module Migrations {
  import opened Wrappers
  import opened Decimal

  datatype Mig = Mig(version: int, name: string)

  /** Committed state: the version table and the bodies applied, oldest first. */
  datatype Db = Db(versions: set<int>, bodies: seq<string>)

  const EMPTY := Db({}, [])

  /** Where one migration's statements stop: on the existence query, before the commit, at a
      commit that did not happen, or at one whose answer was lost. */
  datatype Fault = NoFault | AtExists | AtRead | AtBegin | AtBody | AtInsert | CommitFailed | AnswerLost

  /** One start of the program; a crash is a fault at the statement it hits. */
  datatype Start = Start(tableFails: bool, listFails: bool, faults: int -> Fault)

  function Apply(db: Db, m: Mig): Db { Db(db.versions + {m.version}, db.bodies + [m.name]) }

  // ---------- names and order ----------

  function DigitPrefix(s: string): (r: string)
    ensures AllDigits(r) && r <= s
  {
    if s != "" && IsDigit(s[0]) then [s[0]] + DigitPrefix(s[1..]) else ""
  }

  /** `fmt.Sscanf(name, "%d", &version)`: an optional sign and the leading digits. */
  function VersionOf(name: string): Option<int> {
    var signed := |name| > 0 && (name[0] == '+' || name[0] == '-');
    var digits := DigitPrefix(if signed then name[1..] else name);
    var magnitude: int := Value(digits);
    var v := if signed && name[0] == '-' then -magnitude else magnitude;
    if digits != "" && IsInt64(v) then Some(v) else None
  }

  function Numbered(names: seq<string>): seq<Mig> {
    if names == [] then []
    else
      var rest, name := Numbered(names[..|names| - 1]), names[|names| - 1];
      if VersionOf(name).Some? then rest + [Mig(VersionOf(name).value, name)] else rest
  }

  function Insert(s: seq<Mig>, m: Mig): (r: seq<Mig>)
    ensures multiset(r) == multiset(s) + multiset{m}
  {
    if s == [] then [m]
    else
      var last := s[|s| - 1];
      assert s == s[..|s| - 1] + [last];
      if last.version <= m.version then s + [m] else Insert(s[..|s| - 1], m) + [last]
  }

  function Sorted(s: seq<Mig>): (r: seq<Mig>)
    ensures multiset(r) == multiset(s)
  {
    if s == [] then []
    else
      assert s == s[..|s| - 1] + [s[|s| - 1]];
      Insert(Sorted(s[..|s| - 1]), s[|s| - 1])
  }

  predicate Ordered(s: seq<Mig>) { forall i, j :: 0 <= i < j < |s| ==> s[i].version <= s[j].version }

  predicate Distinct(s: seq<Mig>) { forall i, j :: 0 <= i < j < |s| ==> s[i].version != s[j].version }

  lemma {:induction false} InsertOrdered(s: seq<Mig>, m: Mig)
    requires Ordered(s)
    ensures Ordered(Insert(s, m))
  {
    if s != [] && s[|s| - 1].version > m.version {
      var rest, last := s[..|s| - 1], s[|s| - 1];
      InsertOrdered(rest, m);
      var r := Insert(rest, m);
      forall i | 0 <= i < |r| ensures r[i].version <= last.version {
        assert r[i] in multiset(r);
        assert r[i] in multiset(rest) + multiset{m};
        assert r[i] in rest || r[i] == m;
      }
    }
  }

  lemma {:induction false} SortedIsOrdered(s: seq<Mig>)
    ensures Ordered(Sorted(s))
  {
    if s != [] {
      SortedIsOrdered(s[..|s| - 1]);
      InsertOrdered(Sorted(s[..|s| - 1]), s[|s| - 1]);
    }
  }

  /** `sort.Slice` by version, as an insertion sort in place. */
  method SortByVersion(a: array<Mig>)
    modifies a
    ensures a[..] == Sorted(old(a[..]))
  {
    hide Sorted, Insert;
    ghost var was := a[..];
    NoneSorted();
    for i := 0 to a.Length
      invariant a[..i] == Sorted(was[..i]) && a[i..] == was[i..]
    {
      SortedNext(was, i);
      InsertAt(a, i);
    }
    assert was[..|was|] == was;
  }

  lemma NoneSorted()
    ensures Sorted([]) == []
  {
  }

  lemma SortedNext(s: seq<Mig>, i: nat)
    requires i < |s|
    ensures Sorted(s[..i + 1]) == Insert(Sorted(s[..i]), s[i])
  {
    assert s[..i + 1][..i] == s[..i];
  }

  method InsertAt(a: array<Mig>, i: nat)
    requires i < a.Length
    modifies a
    ensures a[..i + 1] == Insert(old(a[..i]), old(a[i])) && a[i + 1..] == old(a[i + 1..])
  {
    hide Insert;
    ghost var was := a[..];
    var x := a[i];
    var j := ShiftLater(a, i);
    a[j] := x;
    InsertPlace(was[..i], j, x, a[..i + 1]);
  }

  /** Move the later versions before `i` one place up; `j` is the place that is left free. */
  method ShiftLater(a: array<Mig>, i: nat) returns (j: nat)
    requires i < a.Length
    modifies a
    ensures j <= i && (j == 0 || a[j - 1].version <= old(a[i]).version)
    ensures forall k :: 0 <= k < j || i < k < a.Length ==> a[k] == old(a[k])
    ensures forall k :: j < k <= i ==> a[k] == old(a[k - 1]) && a[k].version > old(a[i]).version
  {
    var x := a[i];
    j := i;
    while j > 0 && a[j - 1].version > x.version
      invariant 0 <= j <= i
      invariant forall k :: 0 <= k < j || i < k < a.Length ==> a[k] == old(a[k])
      invariant forall k :: j < k <= i ==> a[k] == old(a[k - 1]) && a[k].version > x.version
    {
      a[j] := a[j - 1];
      j := j - 1;
    }
  }

  lemma InsertEnds(s: seq<Mig>, x: Mig)
    ensures s == [] || s[|s| - 1].version <= x.version ==> Insert(s, x) == s + [x]
    ensures s != [] && s[|s| - 1].version > x.version ==> Insert(s, x) == Insert(s[..|s| - 1], x) + [s[|s| - 1]]
  {
  }

  lemma {:induction false} InsertPlace(s: seq<Mig>, j: nat, x: Mig, r: seq<Mig>)
    requires j <= |s| && |r| == |s| + 1 && (j == 0 || s[j - 1].version <= x.version)
    requires r[j] == x && forall k :: 0 <= k < j ==> r[k] == s[k]
    requires forall k :: j < k < |r| ==> r[k] == s[k - 1] && r[k].version > x.version
    ensures Insert(s, x) == r
  {
    hide Insert;
    var n := |s|;
    InsertEnds(s, x);
    if j < n {
      assert r[n].version > x.version;
      InsertPlace(s[..n - 1], j, x, r[..n]);
      assert r == r[..n] + [s[n - 1]];
    } else {
      assert r == s + [x];
    }
  }

  // ---------- which number a name has ----------

  predicate DigitFirst(s: string) { s != "" && IsDigit(s[0]) }

  lemma {:induction false} DigitPrefixOf(d: string, rest: string)
    requires AllDigits(d) && !DigitFirst(rest)
    ensures DigitPrefix(d + rest) == d
  {
    if d == "" {
      assert d + rest == rest;
    } else {
      DigitPrefixOf(d[1..], rest);
      assert (d + rest)[1..] == d[1..] + rest && [d[0]] + d[1..] == d;
    }
  }

  /** The number in front of the name is its version, up to the int64 range. */
  lemma VersionOfNumber(d: string, rest: string)
    requires d != "" && AllDigits(d) && !DigitFirst(rest)
    ensures VersionOf(d + rest) == if Value(d) <= MAX_INT64 then Some(Value(d) as int) else None
    ensures VersionOf("+" + (d + rest)) == if Value(d) <= MAX_INT64 then Some(Value(d) as int) else None
    ensures VersionOf("-" + (d + rest)) == if Value(d) <= MAX_INT64 + 1 then Some(-(Value(d) as int)) else None
  {
    hide Value, DigitPrefix;
    DigitPrefixOf(d, rest);
    var s := d + rest;
    assert s[0] == d[0] && IsDigit(s[0]);
    assert ("+" + s)[1..] == s && ("-" + s)[1..] == s;
  }

  /** A name without a number in front is skipped. */
  lemma NoNumber(name: string)
    requires !DigitFirst(if name != "" && (name[0] == '+' || name[0] == '-') then name[1..] else name)
    ensures VersionOf(name) == None
  {
  }

  /** The numbered entries are the names that have a version, with it. */
  lemma {:induction false} NumberedExactly(names: seq<string>, m: Mig)
    ensures m in Numbered(names) <==> m.name in names && VersionOf(m.name) == Some(m.version)
  {
    hide VersionOf;
    if names != [] {
      var n := |names| - 1;
      NumberedExactly(names[..n], m);
      assert names == names[..n] + [names[n]];
    }
  }

  /** Of two listed names the one with the smaller number comes first, and both come. */
  lemma SmallerFirst(names: seq<string>, ms: seq<Mig>, d1: string, rest1: string, d2: string, rest2: string)
    requires ms == Sorted(Numbered(names))
    requires d1 != "" && AllDigits(d1) && !DigitFirst(rest1) && d2 != "" && AllDigits(d2) && !DigitFirst(rest2)
    requires Value(d1) < Value(d2) <= MAX_INT64 && d1 + rest1 in names && d2 + rest2 in names
    ensures Mig(Value(d1), d1 + rest1) in ms && Mig(Value(d2), d2 + rest2) in ms
    ensures forall i, j :: 0 <= i < |ms| && 0 <= j < |ms| && ms[i].name == d1 + rest1 && ms[j].name == d2 + rest2 ==> i < j
  {
    hide Value, VersionOf, Numbered, Sorted, DigitFirst;
    VersionOfNumber(d1, rest1);
    VersionOfNumber(d2, rest2);
    ListedExactly(names, Mig(Value(d1), d1 + rest1));
    ListedExactly(names, Mig(Value(d2), d2 + rest2));
    SortedIsOrdered(Numbered(names));
    forall i, j | 0 <= i < |ms| && 0 <= j < |ms| && ms[i].name == d1 + rest1 && ms[j].name == d2 + rest2 ensures i < j {
      ListedExactly(names, ms[i]);
      ListedExactly(names, ms[j]);
    }
  }

  /** The list holds the numbered names, each with its version. */
  lemma ListedExactly(names: seq<string>, m: Mig)
    ensures m in Sorted(Numbered(names)) <==> m.name in names && VersionOf(m.name) == Some(m.version)
  {
    hide VersionOf;
    NumberedExactly(names, m);
    assert m in multiset(Sorted(Numbered(names))) <==> m in multiset(Numbered(names));
  }

  /** Numbers, not letters, decide: "2_x" runs before "10_x". */
  lemma TwoBeforeTen(names: seq<string>, ms: seq<Mig>, i: nat, j: nat)
    requires ms == Sorted(Numbered(names)) && "2_x" in names && "10_x" in names && i < |ms| && j < |ms|
    requires ms[i].name == "2_x" && ms[j].name == "10_x"
    ensures i < j
  {
    hide Sorted, Numbered;
    assert "2" + "_x" == "2_x" && "10" + "_x" == "10_x" && "2"[..0] == "" && "10"[..1] == "1" && "1"[..0] == "";
    assert Value("2") == 2 && Value("10") == 10;
    SmallerFirst(names, ms, "2", "_x", "10", "_x");
  }

  // ---------- one run ----------

  /** The outcome of the loop over `ms`: the committed state, and whether it reached the end. */
  function RunFrom(db: Db, ms: seq<Mig>, faults: int -> Fault): (Db, bool)
    decreases |ms|
  {
    if ms == [] then (db, true)
    else
      var m, fault := ms[0], faults(ms[0].version);
      if fault == AtExists then (db, false)
      else if m.version in db.versions then RunFrom(db, ms[1..], faults)
      else if fault == NoFault then RunFrom(Apply(db, m), ms[1..], faults)
      else if fault == AnswerLost then (Apply(db, m), false)
      else (db, false)
  }

  function Run(db: Db, names: seq<string>, start: Start): (Db, bool) {
    if start.tableFails || start.listFails then (db, false) else RunFrom(db, Sorted(Numbered(names)), start.faults)
  }

  class Database {
    var db: Db

    constructor ()
      ensures db == EMPTY
    {
      db := EMPTY;
    }

    /** `Migrate`. */
    method Migrate(names: seq<string>, start: Start) returns (ok: bool)
      modifies this
      ensures (db, ok) == Run(old(db), names, start)
    {
      hide Listing, Sorted, Numbered;
      if start.tableFails { return false; }
      if start.listFails { return false; }
      var migs := ListMigrations(names);
      for i := 0 to |migs|
        invariant RunFrom(db, migs[i..], start.faults) == RunFrom(old(db), migs, start.faults)
      {
        assert migs[i..][0] == migs[i] && migs[i..][1..] == migs[i + 1..];
        var fault := start.faults(migs[i].version);
        if fault == AtExists { return false; }
        if migs[i].version in db.versions { continue; }
        if fault == AtRead || fault == AtBegin || fault == AtBody || fault == AtInsert { return false; }
        if fault == CommitFailed { return false; }
        db := Apply(db, migs[i]);
        if fault == AnswerLost { return false; }
      }
      return true;
    }
  }

  /** Exactly the names that have a version, each with it, in ascending order. */
  ghost predicate Listing(names: seq<string>, migs: seq<Mig>) {
    Ordered(migs) && forall m :: m in migs <==> m.name in names && VersionOf(m.name) == Some(m.version)
  }

  /** The directory listing, numbered and sorted. */
  method ListMigrations(names: seq<string>) returns (migs: seq<Mig>)
    ensures migs == Sorted(Numbered(names)) && Listing(names, migs)
  {
    migs := [];
    for i := 0 to |names|
      invariant migs == Numbered(names[..i])
    {
      assert names[..i + 1][..i] == names[..i];
      var version := VersionOf(names[i]);
      if version.None? { continue; }
      migs := migs + [Mig(version.value, names[i])];
    }
    assert names[..|names|] == names;
    var a := new Mig[|migs|](i requires 0 <= i < |migs| => migs[i]);
    assert a[..] == migs;
    SortByVersion(a);
    migs := a[..];
    SortedIsOrdered(Numbered(names));
    forall m: Mig ensures m in migs <==> m.name in names && VersionOf(m.name) == Some(m.version) { ListedExactly(names, m); }
  }

  // ---------- any number of runs ----------

  function Versions(ms: seq<Mig>): set<int> { set i | 0 <= i < |ms| :: ms[i].version }
  function Names(ms: seq<Mig>): seq<string> { seq(|ms|, i requires 0 <= i < |ms| => ms[i].name) }

  /** The committed state after the first `k` migrations. */
  function Done(ms: seq<Mig>, k: nat): Db
    requires k <= |ms|
  {
    Db(Versions(ms[..k]), Names(ms[..k]))
  }

  lemma DoneNext(ms: seq<Mig>, k: nat)
    requires k < |ms| && Distinct(ms)
    ensures Apply(Done(ms, k), ms[k]) == Done(ms, k + 1)
    ensures ms[k].version !in Done(ms, k).versions
  {
    assert ms[..k + 1] == ms[..k] + [ms[k]];
    assert Versions(ms[..k + 1]) == Versions(ms[..k]) + {ms[k].version} by {
      assert forall i :: 0 <= i < k ==> ms[..k + 1][i] == ms[..k][i];
      assert ms[..k + 1][k] == ms[k];
    }
  }

  lemma DoneHas(ms: seq<Mig>, k: nat, i: nat)
    requires i < k <= |ms|
    ensures ms[i].version in Done(ms, k).versions
  {
    assert ms[..k][i] == ms[i];
  }

  /** A run that finds the first `k` migrations committed leaves the first `j >= k` committed,
      all of them if it completes. */
  lemma {:induction false} RunExtends(ms: seq<Mig>, k: nat, at: nat, faults: int -> Fault) returns (j: nat)
    requires Distinct(ms) && at <= |ms| && k <= |ms|
    requires at <= k
    ensures k <= j <= |ms| && RunFrom(Done(ms, k), ms[at..], faults).0 == Done(ms, j)
    ensures RunFrom(Done(ms, k), ms[at..], faults).1 ==> j == |ms|
    decreases |ms| - at
  {
    hide Done, Apply;
    j := k;
    if at < |ms| {
      assert ms[at..][0] == ms[at] && ms[at..][1..] == ms[at + 1..];
      var fault := faults(ms[at].version);
      if fault == AtExists {
      } else if at < k {
        DoneHas(ms, k, at);
        j := RunExtends(ms, k, at + 1, faults);
      } else {
        DoneNext(ms, k);
        if fault == NoFault {
          j := RunExtends(ms, k + 1, at + 1, faults);
        } else if fault == AnswerLost {
          j := k + 1;
        }
      }
    }
  }

  /** A fault that ends the run at migration `i`, when the first `k` are committed. */
  predicate Ends(ms: seq<Mig>, k: nat, i: nat, faults: int -> Fault)
    requires i < |ms|
  {
    var fault := faults(ms[i].version);
    fault == AtExists || (i >= k && fault != NoFault)
  }

  /** Where a run stops: at the first migration whose statements fail. Nothing of that one is
      committed, except when only the answer to its commit was lost. */
  lemma {:induction false} RunStopsExactly(ms: seq<Mig>, k: nat, at: nat, faults: int -> Fault) returns (p: nat)
    requires Distinct(ms) && at <= k <= |ms|
    ensures at <= p <= |ms| && (forall i :: at <= i < p ==> !Ends(ms, k, i, faults)) && (p < |ms| ==> Ends(ms, k, p, faults))
    ensures RunFrom(Done(ms, k), ms[at..], faults).1 <==> p == |ms|
    ensures RunFrom(Done(ms, k), ms[at..], faults).0 ==
              Done(ms, if p < k then k else if p < |ms| && faults(ms[p].version) == AnswerLost then p + 1 else p)
    decreases |ms| - at
  {
    hide Done, Apply;
    p := at;
    if at < |ms| {
      assert ms[at..][0] == ms[at] && ms[at..][1..] == ms[at + 1..];
      var fault := faults(ms[at].version);
      if fault == AtExists {
      } else if at < k {
        DoneHas(ms, k, at);
        p := RunStopsExactly(ms, k, at + 1, faults);
      } else {
        DoneNext(ms, k);
        if fault == NoFault {
          p := RunStopsExactly(ms, k + 1, at + 1, faults);
          assert forall i :: at + 1 <= i < |ms| ==> (Ends(ms, k, i, faults) <==> Ends(ms, k + 1, i, faults));
        }
      }
    }
  }

  /** The committed state after a number of runs, each cut short anywhere or not. */
  function AfterRuns(names: seq<string>, starts: seq<Start>): Db {
    if starts == [] then EMPTY
    else Run(AfterRuns(names, starts[..|starts| - 1]), names, starts[|starts| - 1]).0
  }

  predicate Completes(names: seq<string>, before: seq<Start>, start: Start) {
    Run(AfterRuns(names, before), names, start).1
  }

  /** Over any sequence of runs the committed bodies are a prefix of the version-sorted list,
      each applied once; and a completed run has applied them all. */
  lemma {:induction false} CommittedIsPrefix(names: seq<string>, starts: seq<Start>) returns (k: nat)
    requires Distinct(Sorted(Numbered(names)))
    ensures var ms := Sorted(Numbered(names));
            && k <= |ms| && AfterRuns(names, starts) == Done(ms, k)
            && (starts != [] && Completes(names, starts[..|starts| - 1], starts[|starts| - 1]) ==> k == |ms|)
  {
    var ms := Sorted(Numbered(names));
    assert Done(ms, 0) == EMPTY;
    hide Done, Sorted, Numbered, RunFrom, Distinct;
    if starts == [] {
      k := 0;
    } else {
      k := CommittedIsPrefix(names, starts[..|starts| - 1]);
      var start := starts[|starts| - 1];
      if !start.tableFails && !start.listFails {
        k := RunExtends(ms, k, 0, start.faults);
        assert ms[0..] == ms;
      }
    }
  }

  /** Once a run completes, every later run changes nothing. */
  lemma {:induction false} CompletedIsFinal(names: seq<string>, before: seq<Start>, start: Start, later: seq<Start>)
    requires Distinct(Sorted(Numbered(names))) && Completes(names, before, start)
    ensures AfterRuns(names, before + [start] + later) == AfterRuns(names, before + [start])
         == Done(Sorted(Numbered(names)), |Sorted(Numbered(names))|)
  {
    hide Done, Sorted, Numbered, RunFrom, Distinct;
    var ms := Sorted(Numbered(names));
    var all := before + [start] + later;
    if later == [] {
      assert all == before + [start] && (before + [start])[..|before|] == before;
      var k := CommittedIsPrefix(names, before + [start]);
    } else {
      CompletedIsFinal(names, before, start, later[..|later| - 1]);
      assert all[..|all| - 1] == before + [start] + later[..|later| - 1];
      var last := all[|all| - 1];
      if !last.tableFails && !last.listFails {
        var j := RunExtends(ms, |ms|, 0, last.faults);
        assert ms[0..] == ms;
      }
    }
  }

  // ---------- distinct versions are needed ----------

  function Healthy(): int -> Fault { (v: int) => NoFault }

  /** A healthy first run applies every script exactly when no two share a version: of two
      scripts with one version the second is taken for applied. */
  lemma FirstRunAppliesAllExactly(ms: seq<Mig>)
    ensures RunFrom(EMPTY, ms, Healthy()).0.bodies == Names(ms) <==> Distinct(ms)
  {
    if Distinct(ms) {
      assert Done(ms, 0) == EMPTY;
      var j := RunExtends(ms, 0, 0, Healthy());
      assert ms[0..] == ms;
      HealthyCompletes(EMPTY, ms);
      assert ms[..|ms|] == ms;
    } else {
      HealthyShort(EMPTY, ms);
    }
  }

  lemma {:induction false} HealthyCompletes(db: Db, ms: seq<Mig>)
    ensures RunFrom(db, ms, Healthy()).1
    decreases |ms|
  {
    if ms != [] { HealthyCompletes(if ms[0].version in db.versions then db else Apply(db, ms[0]), ms[1..]); }
  }

  /** A healthy run adds one body per script, and fewer when a version repeats. */
  lemma {:induction false} HealthyShort(db: Db, ms: seq<Mig>)
    ensures |RunFrom(db, ms, Healthy()).0.bodies| <= |db.bodies| + |ms|
    ensures (exists i :: 0 <= i < |ms| && ms[i].version in db.versions) || !Distinct(ms)
        ==> |RunFrom(db, ms, Healthy()).0.bodies| < |db.bodies| + |ms|
    decreases |ms|
  {
    if ms != [] {
      var next := if ms[0].version in db.versions then db else Apply(db, ms[0]);
      HealthyShort(next, ms[1..]);
      if ms[0].version !in db.versions {
        if i :| 0 <= i < |ms| && ms[i].version in db.versions {
          assert ms[1..][i - 1].version in next.versions;
        }
        if !Distinct(ms) { Repeats(ms, next); }
      }
    }
  }

  lemma Repeats(ms: seq<Mig>, next: Db)
    requires ms != [] && !Distinct(ms) && ms[0].version in next.versions
    ensures (exists i :: 0 <= i < |ms[1..]| && ms[1..][i].version in next.versions) || !Distinct(ms[1..])
  {
    var i, j :| 0 <= i < j < |ms| && ms[i].version == ms[j].version;
    assert ms[1..][j - 1] == ms[j];
    if i > 0 { assert ms[1..][i - 1] == ms[i]; }
  }

  /** Two scripts with one number: the second body is never applied, and the run completes. */
  lemma SecondBodySkipped()
    ensures
      var ms := [Mig(1, "1_a.sql"), Mig(1, "1_b.sql")];
      RunFrom(EMPTY, ms, Healthy()) == (Db({1}, ["1_a.sql"]), true) && RunFrom(EMPTY, ms, Healthy()).0.bodies != Names(ms)
  {
    var ms := [Mig(1, "1_a.sql"), Mig(1, "1_b.sql")];
    var db := Apply(EMPTY, ms[0]);
    assert ms[1..] == [Mig(1, "1_b.sql")] && ms[1..][1..] == [];
    assert Healthy()(1) == NoFault && db == Db({1}, ["1_a.sql"]);
    assert RunFrom(db, [], Healthy()) == (db, true);
    assert RunFrom(db, ms[1..], Healthy()) == (db, true);
    assert RunFrom(EMPTY, ms, Healthy()) == RunFrom(db, ms[1..], Healthy());
    assert |Names(ms)| == 2;
  }
}
