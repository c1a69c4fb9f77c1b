/** Quota and expiry are enforced: what one failure-free tick achieves after any history. */
module Convergence {
  import opened Wrappers
  import opened Policy
  import opened ServerConfig
  import opened Enforcement

  /** The assumption behind skipping a restart: different configs print differently. */
  ghost predicate Injective(fp: Print) { forall a, b :: fp(a) == fp(b) ==> a == b }

  /** Whoever an inbound lets in is listed. */
  ghost predicate LetsInOnly(config: seq<Inbound>, ids: seq<string>) {
    forall inb :: inb in config ==> forall a :: a in inb.accounts ==> a.secret in ids
  }

  /** What holds between operations. */
  ghost predicate Consistent(fp: Print, v: View) {
    && (v.running <==> v.cur.Some?)
    && (v.running ==> v.fingerprint == Some(fp(v.cur.value)) && LetsInOnly(v.cur.value, v.active))
    && (!v.running ==> v.meters == map[])
  }

  // ---------- any history ----------

  datatype Op =
    | Restart(force: bool, rt: RestartTrouble)
    | Tick(t: Trouble)
    | Halt(ct: CollectTrouble)
    | InstallHook
    | ChildDies
    | Meter(id: string, bytes: Books.Traffic)

  /** One operation in a world that admins and the clock may have changed since. */
  function Step(fp: Print, w: World, v: View, op: Op): View {
    match op
    case Restart(force, t) => Restarted(fp, w, v, force, t).0
    case Tick(t) => Ticked(fp, w, v, t)
    case Halt(t) => Halted(w, v, t)
    case InstallHook => v.(hook := true)
    case ChildDies => Down(v) // the reaper runs
    case Meter(id, bytes) => if v.running then v.(meters := Books.AddEntry(v.meters, id, bytes)) else v
  }

  function After(fp: Print, worlds: seq<World>, ops: seq<Op>): View
    requires |worlds| == |ops|
  {
    if ops == [] then INIT
    else
      var n := |ops| - 1;
      Step(fp, worlds[n], After(fp, worlds[..n], ops[..n]), ops[n])
  }

  /** A freshly built config lets in exactly listed clients. */
  lemma BuiltLetsIn(w: World, usage: Books.Ledger)
    ensures LetsInOnly(ServerInbounds(w.cfg, Snap(w, usage)), Ids(Snap(w, usage).clients))
  {
    hide ServerInbounds, LoadClients;
    var snap := Snap(w, usage);
    forall inb | inb in ServerInbounds(w.cfg, snap) ensures forall a :: a in inb.accounts ==> a.secret in Ids(snap.clients) {
      OnlyAdmittedIds(w.cfg, snap, inb);
    }
  }

  lemma RestartedConsistent(fp: Print, w: World, v: View, force: bool, t: RestartTrouble)
    requires Injective(fp) && Consistent(fp, v)
    ensures Consistent(fp, Restarted(fp, w, v, force, t).0)
  {
    hide ServerInbounds, LoadClients, LetsInOnly, Kept;
    BuiltLetsIn(w, v.usage);
  }

  lemma TickedConsistent(fp: Print, w: World, v: View, t: Trouble)
    requires Injective(fp) && Consistent(fp, v)
    ensures Consistent(fp, Ticked(fp, w, v, t))
  {
    hide ServerInbounds, LoadClients, LetsInOnly, Kept, Restarted;
    if v.running && !t.collect.query && !t.collect.answer {
      RestartedConsistent(fp, w, Collected(w, v, t.collect), false, t.restart);
    }
  }

  lemma StepConsistent(fp: Print, w: World, v: View, op: Op)
    requires Injective(fp) && Consistent(fp, v)
    ensures Consistent(fp, Step(fp, w, v, op))
  {
    hide LetsInOnly, Kept, Restarted, Ticked;
    match op
    case Restart(force, t) => RestartedConsistent(fp, w, v, force, t);
    case Tick(t) => TickedConsistent(fp, w, v, t);
    case _ =>
  }

  lemma {:induction false} AfterConsistent(fp: Print, worlds: seq<World>, ops: seq<Op>)
    requires |worlds| == |ops| && Injective(fp)
    ensures Consistent(fp, After(fp, worlds, ops))
  {
    assert Consistent(fp, INIT);
    hide Consistent, Injective, Step;
    if ops != [] {
      var n := |ops| - 1;
      AfterConsistent(fp, worlds[..n], ops[..n]);
      StepConsistent(fp, worlds[n], After(fp, worlds[..n], ops[..n]), ops[n]);
    }
  }

  // ---------- admission ----------

  /** Not expired at this moment, and without a quota or with some of it left. */
  predicate Entitled(row: ClientRow, now: int, usage: Books.Ledger) {
    && (row.expireAt == None || now < row.expireAt.value)
    && (row.quota == 0 || Books.Amount(usage, row.id, true) + Books.Amount(usage, row.id, false) < row.quota)
  }

  /** The loaded clients are exactly the rows that are not expired and below their quota. */
  lemma {:induction false} LoadedExactly(rows: seq<ClientRow>, now: int, usage: Books.Ledger, id: string)
    ensures id in Ids(LoadClients(rows, now, usage))
       <==> exists i :: 0 <= i < |rows| && rows[i].id == id && Entitled(rows[i], now, usage)
  {
    assert forall i :: 0 <= i < |rows| ==> (Entitled(rows[i], now, usage) <==> Admitted(rows[i], now, usage));
    hide Admitted, Entitled;
    if rows != [] {
      var n := |rows| - 1;
      var before := LoadClients(rows[..n], now, usage);
      LoadedExactly(rows[..n], now, usage, id);
      IdsAppend(before, Admitted(rows[n], now, usage), Client(rows[n].id, rows[n].name, rows[n].protocols), id);
      assert forall i :: 0 <= i < n ==> rows[..n][i] == rows[i];
    }
  }

  /** `places` are the entitled rows, in table order, and the clients are those rows. */
  ghost predicate Loaded(rows: seq<ClientRow>, now: int, usage: Books.Ledger, clients: seq<Client>, places: seq<nat>) {
    && |places| == |clients| && (forall i, j :: 0 <= i < j < |places| ==> places[i] < places[j])
    && (forall i :: 0 <= i < |places| ==> places[i] < |rows| && Entitled(rows[places[i]], now, usage))
    && (forall i :: 0 <= i < |places| ==> clients[i] == Client(rows[places[i]].id, rows[places[i]].name, rows[places[i]].protocols))
    && forall k :: 0 <= k < |rows| && Entitled(rows[k], now, usage) ==> k in places
  }

  /** They come in the order of the rows, each with its own name and protocols. */
  lemma {:induction false} LoadedInOrder(rows: seq<ClientRow>, now: int, usage: Books.Ledger) returns (places: seq<nat>)
    ensures Loaded(rows, now, usage, LoadClients(rows, now, usage), places)
  {
    if rows == [] {
      places := [];
    } else {
      var n := |rows| - 1;
      var before := LoadedInOrder(rows[..n], now, usage);
      assert Entitled(rows[n], now, usage) <==> Admitted(rows[n], now, usage);
      assert rows == rows[..n] + [rows[n]];
      hide Admitted, Entitled, Loaded;
      places := if Entitled(rows[n], now, usage) then before + [n] else before;
      NextLoaded(rows[..n], now, usage, LoadClients(rows[..n], now, usage), before, rows[n]);
    }
  }

  lemma NextLoaded(rows: seq<ClientRow>, now: int, usage: Books.Ledger, clients: seq<Client>, places: seq<nat>, r: ClientRow)
    requires Loaded(rows, now, usage, clients, places)
    ensures var c := Client(r.id, r.name, r.protocols);
            if Entitled(r, now, usage) then Loaded(rows + [r], now, usage, clients + IfThen(true, c), places + [|rows|])
            else Loaded(rows + [r], now, usage, clients + IfThen(false, c), places)
  {
    hide Entitled;
    assert clients + [] == clients;
    assert forall i :: 0 <= i < |places| ==> (places + [|rows|])[i] == places[i];
  }

  lemma IdsAppend(clients: seq<Client>, on: bool, c: Client, id: string)
    ensures id in Ids(clients + IfThen(on, c)) <==> id in Ids(clients) || (on && c.id == id)
  {
    var all := Ids(clients + IfThen(on, c));
    assert all == Ids(clients) + if on then [c.id] else [];
  }

  predicate UniqueIds(rows: seq<ClientRow>) { forall i, j :: 0 <= i < j < |rows| ==> rows[i].id != rows[j].id }

  // ---------- the theorem ----------

  /** `active` is the list of admitted clients, and no inbound of the running child lets in a
      client that is expired or has used up its quota. */
  ghost predicate Enforced(w: World, v: View) {
    && v.running && v.cur.Some?
    && multiset(v.active) == multiset(Ids(LoadClients(w.rows, w.now, v.usage)))
    && forall i, inb :: 0 <= i < |w.rows| && inb in v.cur.value && !Entitled(w.rows[i], w.now, v.usage)
         ==> !Admits(inb, w.rows[i].id)
  }

  lemma SameMembers(a: seq<string>, b: seq<string>, s: string)
    requires multiset(a) == multiset(b) && s in a
    ensures s in b
  {
    assert s in multiset(a);
    assert s in multiset(b);
  }

  lemma EnforcedBy(fp: Print, w: World, v: View)
    requires UniqueIds(w.rows) && Consistent(fp, v) && v.running
    requires multiset(v.active) == multiset(Ids(LoadClients(w.rows, w.now, v.usage)))
    ensures Enforced(w, v)
  {
    hide LoadClients, Entitled;
    var ids := Ids(LoadClients(w.rows, w.now, v.usage));
    forall i, inb | 0 <= i < |w.rows| && inb in v.cur.value && !Entitled(w.rows[i], w.now, v.usage)
      ensures !Admits(inb, w.rows[i].id)
    {
      if k :| 0 <= k < |inb.accounts| && inb.accounts[k].secret == w.rows[i].id {
        assert inb.accounts[k] in inb.accounts;
        SameMembers(v.active, ids, w.rows[i].id);
        LoadedExactly(w.rows, w.now, v.usage, w.rows[i].id);
      }
    }
  }

  /** After a tick that syncs without a failure the active list is the admitted one. */
  lemma TickConverges(fp: Print, w: World, v: View, t: Trouble)
    requires Injective(fp) && Consistent(fp, v) && v.running && Healthy(t)
    ensures var u := Ticked(fp, w, v, t);
            u.running && u.meters == map[] && multiset(u.active) == multiset(Ids(LoadClients(w.rows, w.now, u.usage)))
  {
    hide ServerInbounds, LoadClients, LetsInOnly, Restarted;
    var u := Collected(w, v, t.collect);
    RestartConverges(fp, w, u, t);
  }

  /** A restart inside a tick finds the counters just read, so the hook changes nothing. */
  lemma RestartConverges(fp: Print, w: World, u: View, t: Trouble)
    requires u.running && u.cur.Some? && u.meters == map[] && Healthy(t)
    ensures var r := Restarted(fp, w, u, false, t.restart).0;
            r.running && r.meters == map[] && r.usage == u.usage && r.active == Ids(LoadClients(w.rows, w.now, u.usage))
  {
    hide ServerInbounds, LoadClients;
    NothingToStore(w, u, t.restart.hook);
  }

  lemma NothingToStore(w: World, v: View, t: CollectTrouble)
    requires v.meters == map[]
    ensures Collected(w, v, t) == v
  {
    assert Kept(w.rows, v.meters, t.upsert) == map[];
    assert Books.AddAll(v.usage, map[]) == v.usage;
  }

  /** A tick in the same world, without new traffic, changes nothing, whatever fails. */
  lemma NextTickIdle(fp: Print, w: World, v: View, t: Trouble)
    requires v.meters == map[] && multiset(v.active) == multiset(Ids(LoadClients(w.rows, w.now, v.usage)))
    ensures Ticked(fp, w, v, t) == v
  {
    hide LoadClients, Restarted, Collected;
    NothingToStore(w, v, t.collect);
  }

  /** Without a child a tick does nothing; there it is the watchdog's restart that enforces. */
  lemma RestartEnforces(fp: Print, w: World, v: View, force: bool, t: RestartTrouble)
    requires Injective(fp) && Consistent(fp, v) && !v.running && !t.build && !t.file && !t.spawn
    ensures var u := Restarted(fp, w, v, force, t).0;
            u.running && u.meters == map[] && u.usage == v.usage && u.active == Ids(LoadClients(w.rows, w.now, u.usage))
  {
    hide ServerInbounds, LoadClients, LetsInOnly, Kept;
  }

  /** The other half: when no child runs, after any history, ticks change nothing, and one
      restart that does not fail enforces the policy, for good in that world. */
  lemma RestartRecovers(fp: Print, worlds: seq<World>, ops: seq<Op>, w: World, force: bool, t: RestartTrouble, next: Trouble)
    requires Injective(fp) && |worlds| == |ops| && UniqueIds(w.rows) && !t.build && !t.file && !t.spawn
    requires !After(fp, worlds, ops).running
    ensures Ticked(fp, w, After(fp, worlds, ops), next) == After(fp, worlds, ops)
    ensures var u := Restarted(fp, w, After(fp, worlds, ops), force, t).0;
            Enforced(w, u) && Ticked(fp, w, u, next) == u
  {
    hide Consistent, Injective, After, Restarted, LoadClients, Enforced, Synced;
    var v := After(fp, worlds, ops);
    AfterConsistent(fp, worlds, ops);
    RestartEnforces(fp, w, v, force, t);
    RestartedConsistent(fp, w, v, force, t);
    var u := Restarted(fp, w, v, force, t).0;
    EnforcedBy(fp, w, u);
    NextTickIdle(fp, w, u, next);
  }

  /** Enforcement converges while a child runs: after any history of restarts, ticks, failures, child deaths,
      traffic, edits and clock changes, one tick whose sync does not fail leaves the admitted
      clients active and nobody else let in, and every later tick in that world is idle. */
  lemma EnforcementConverges(fp: Print, worlds: seq<World>, ops: seq<Op>, w: World, t: Trouble, next: Trouble)
    requires Injective(fp) && |worlds| == |ops| && UniqueIds(w.rows) && Healthy(t)
    requires After(fp, worlds, ops).running
    ensures var u := Ticked(fp, w, After(fp, worlds, ops), t);
            Enforced(w, u) && Ticked(fp, w, u, next) == u
  {
    hide Consistent, Injective, After, Ticked, LoadClients, Enforced;
    var v := After(fp, worlds, ops);
    AfterConsistent(fp, worlds, ops);
    TickConverges(fp, w, v, t);
    TickedConsistent(fp, w, v, t);
    var u := Ticked(fp, w, v, t);
    EnforcedBy(fp, w, u);
    NextTickIdle(fp, w, u, next);
  }
}
