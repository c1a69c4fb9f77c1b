/** Quota and expiry: the collector tick and the restarts it asks for, run one after another
    (`LoadClients`, internal/xray/config.go; `collectOnce`, internal/api/traffic.go;
    `restartLocked`, `Stop`, internal/xray/supervisor.go). Interleavings are in `Machine`. */
module Enforcement {
  import opened Wrappers
  import opened Policy
  import opened ServerConfig
  import Books = Machine
  import Statistics

  // ---------- the database ----------

  datatype ClientRow = ClientRow(id: string, name: string, protocols: seq<string>, expireAt: Option<int>, quota: int)

  /** What admins and the clock determine. */
  datatype World = World(
    cfg: Config, rows: seq<ClientRow>, stored: Toggles, storedSni: string, keys: RealityKeys,
    customs: seq<CustomInbound>, now: int)

  function Used(usage: Books.Ledger, id: string): nat { Books.Amount(usage, id, true) + Books.Amount(usage, id, false) }

  /** The WHERE clause of `LoadClients`. */
  predicate Admitted(row: ClientRow, now: int, usage: Books.Ledger) {
    && (row.expireAt.None? || row.expireAt.value > now)
    && (row.quota == 0 || row.quota > Used(usage, row.id))
  }

  function LoadClients(rows: seq<ClientRow>, now: int, usage: Books.Ledger): seq<Client> {
    if rows == [] then []
    else
      var last := rows[|rows| - 1];
      LoadClients(rows[..|rows| - 1], now, usage)
      + IfThen(Admitted(last, now, usage), Client(last.id, last.name, last.protocols))
  }

  function Snap(w: World, usage: Books.Ledger): Snapshot {
    Snapshot(w.stored, w.storedSni, w.keys, LoadClients(w.rows, w.now, usage), w.customs)
  }

  predicate HasRow(rows: seq<ClientRow>, id: string) { exists i :: 0 <= i < |rows| && rows[i].id == id }

  // ---------- failures ----------

  /** The statistics query fails before or after the counters are reset; upserts and the
      client query fail. */
  datatype CollectTrouble = CollectTrouble(query: bool, answer: bool, upsert: string -> bool, load: bool)

  datatype RestartTrouble = RestartTrouble(build: bool, file: bool, spawn: bool, hook: CollectTrouble)

  datatype Trouble = Trouble(collect: CollectTrouble, restart: RestartTrouble)

  /** Nothing that the sync depends on fails; upserts and the hook still may. */
  predicate Healthy(t: Trouble) {
    && !t.collect.query && !t.collect.answer && !t.collect.load
    && !t.restart.build && !t.restart.file && !t.restart.spawn
  }

  // ---------- specification ----------

  /** The supervisor's fields, the unread counters of its child, and the usage table. */
  datatype View = View(
    cur: Option<seq<Inbound>>, running: bool, stopped: bool, hook: bool, fingerprint: Option<string>,
    active: seq<string>, restarts: nat, meters: Books.Ledger, usage: Books.Ledger)

  const INIT := View(None, false, false, false, None, [], 0, map[], map[])

  type Print = seq<Inbound> -> string

  /** A delta that reaches the table: not zero, of an existing client, and stored. */
  predicate Good(rows: seq<ClientRow>, deltas: Books.Ledger, upsert: string -> bool, c: string) {
    c in deltas && deltas[c] != Books.Traffic(0, 0) && HasRow(rows, c) && !upsert(c)
  }

  function Kept(rows: seq<ClientRow>, deltas: Books.Ledger, upsert: string -> bool): Books.Ledger {
    map c | c in deltas && Good(rows, deltas, upsert, c) :: deltas[c]
  }

  /** `collectOnce` without the sync. */
  function Collected(w: World, v: View, t: CollectTrouble): View {
    if !v.running || t.query then v
    else if t.answer then v.(meters := map[])
    else v.(meters := map[], usage := Books.AddAll(v.usage, Kept(w.rows, v.meters, t.upsert)))
  }

  function Hooked(w: World, v: View, t: CollectTrouble): View { if v.hook then Collected(w, v, t) else v }

  /** `stopLocked`: the unread counters die with the child. */
  function Down(v: View): View { if v.cur.None? then v else v.(cur := None, running := false, meters := map[]) }

  /** `restartLocked`, and whether it returns without an error. */
  function Restarted(fp: Print, w: World, v: View, force: bool, t: RestartTrouble): (View, bool) {
    if t.build then (v, false)
    else
      var config, ids := ServerInbounds(w.cfg, Snap(w, v.usage)), Ids(Snap(w, v.usage).clients);
      if !force && v.fingerprint == Some(fp(config)) && v.running then (v.(active := ids), true)
      else
        var u := Hooked(w, v, t.hook);
        if t.file then (u, false)
        else if t.spawn then (Down(u), false)
        else
          (Down(u).(cur := Some(config), running := true, restarts := u.restarts + 1, fingerprint := Some(fp(config)),
                    active := ids, meters := map[]), true)
  }

  function Synced(fp: Print, w: World, v: View, t: Trouble): View {
    if t.collect.load || multiset(Ids(LoadClients(w.rows, w.now, v.usage))) == multiset(v.active) then v
    else Restarted(fp, w, v, false, t.restart).0
  }

  /** The collector tick: `collectOnce` with the sync. A failed query ends it early. */
  function Ticked(fp: Print, w: World, v: View, t: Trouble): View {
    if !v.running || t.collect.query || t.collect.answer then Collected(w, v, t.collect)
    else Synced(fp, w, Collected(w, v, t.collect), t)
  }

  function Halted(w: World, v: View, t: CollectTrouble): View { Down(Hooked(w, v, t).(stopped := true)) }

  // ---------- the code ----------

  /** The loop over the deltas, in any order. */
  method PersistAll(usage: Books.Ledger, rows: seq<ClientRow>, deltas: Books.Ledger, upsert: string -> bool)
      returns (after: Books.Ledger)
    ensures after == Books.AddAll(usage, Kept(rows, deltas, upsert))
  {
    hide Stored, Kept;
    after := usage;
    var todo := deltas.Keys;
    NothingStored(usage, rows, deltas, upsert);
    while todo != {}
      invariant todo <= deltas.Keys
      invariant Stored(after, usage, rows, deltas, upsert, todo)
      decreases |todo|
    {
      var c :| c in todo;
      StoredNext(after, usage, rows, deltas, upsert, todo, c);
      todo := todo - {c};
      if deltas[c] == Books.Traffic(0, 0) { continue; }
      if HasRow(rows, c) && !upsert(c) { after := Books.AddEntry(after, c, deltas[c]); }
    }
    AllStored(after, usage, rows, deltas, upsert);
  }

  function Sum(x: Books.Traffic, y: Books.Traffic): Books.Traffic { Books.Traffic(x.up + y.up, x.down + y.down) }

  /** All but the deltas in `todo` are in the table. */
  ghost predicate Stored(after: Books.Ledger, usage: Books.Ledger, rows: seq<ClientRow>, deltas: Books.Ledger,
                         upsert: string -> bool, todo: set<string>) {
    && (forall c :: c in after <==> c in usage || (Good(rows, deltas, upsert, c) && c !in todo))
    && (forall c :: Good(rows, deltas, upsert, c) && c !in todo ==> Books.Entry(after, c) == Sum(Books.Entry(usage, c), deltas[c]))
    && forall c :: !Good(rows, deltas, upsert, c) || c in todo ==> Books.Entry(after, c) == Books.Entry(usage, c)
  }

  lemma NothingStored(usage: Books.Ledger, rows: seq<ClientRow>, deltas: Books.Ledger, upsert: string -> bool)
    ensures Stored(usage, usage, rows, deltas, upsert, deltas.Keys)
  {
  }

  lemma GoodIsDelta(rows: seq<ClientRow>, deltas: Books.Ledger, upsert: string -> bool)
    ensures forall c :: Good(rows, deltas, upsert, c) ==> c in deltas
  {
  }

  lemma AllStored(after: Books.Ledger, usage: Books.Ledger, rows: seq<ClientRow>, deltas: Books.Ledger, upsert: string -> bool)
    requires Stored(after, usage, rows, deltas, upsert, {})
    ensures after == Books.AddAll(usage, Kept(rows, deltas, upsert))
  {
    hide Good;
    var all := Books.AddAll(usage, Kept(rows, deltas, upsert));
    assert forall c :: Good(rows, deltas, upsert, c) ==> c in deltas by { GoodIsDelta(rows, deltas, upsert); }
    assert all.Keys == after.Keys;
    forall c | c in after ensures after[c] == all[c] {
      assert after[c] == Books.Entry(after, c);
    }
  }

  lemma StoredNext(after: Books.Ledger, usage: Books.Ledger, rows: seq<ClientRow>, deltas: Books.Ledger,
                   upsert: string -> bool, todo: set<string>, c: string)
    requires c in todo && todo <= deltas.Keys && Stored(after, usage, rows, deltas, upsert, todo)
    ensures !Good(rows, deltas, upsert, c) ==> Stored(after, usage, rows, deltas, upsert, todo - {c})
    ensures Good(rows, deltas, upsert, c)
        ==> Stored(Books.AddEntry(after, c, deltas[c]), usage, rows, deltas, upsert, todo - {c})
  {
    hide Good;
  }

  class Supervisor {
    const fp: Print
    var cur: Option<seq<Inbound>>
    var running: bool
    var stopped: bool
    var hook: bool
    var fingerprint: Option<string>
    var active: seq<string>
    var restarts: nat
    var meters: Books.Ledger
    var usage: Books.Ledger

    constructor (fp: Print)
      ensures this.fp == fp && Now() == INIT
    {
      this.fp := fp;
      cur, running, stopped, hook, fingerprint, active := None, false, false, false, None, [];
      restarts, meters, usage := 0, map[], map[];
    }

    ghost function Now(): View
      reads this
    {
      View(cur, running, stopped, hook, fingerprint, active, restarts, meters, usage)
    }

    /** `collectOnce`; the hook passes `doSync == false`. */
    method CollectOnce(w: World, doSync: bool, t: Trouble)
      modifies this
      ensures Now() == if doSync then Ticked(fp, w, old(Now()), t) else Collected(w, old(Now()), t.collect)
      decreases if doSync then 4 else 0
    {
      hide ServerInbounds, LoadClients, Restarted, Kept;
      if !running || t.collect.query { return; }
      var stats := meters;
      meters := map[]; // reset on read
      if t.collect.answer { return; }
      usage := PersistAll(usage, w.rows, stats, t.collect.upsert);
      if doSync { Sync(w, t); }
    }

    method Sync(w: World, t: Trouble)
      modifies this
      ensures Now() == Synced(fp, w, old(Now()), t)
      decreases 3
    {
      hide ServerInbounds, LoadClients, Restarted;
      if t.collect.load { return; }
      var want := LoadClients(w.rows, w.now, usage);
      var ids := Ids(want);
      var same := Statistics.EqualStringSets(ids, active);
      if !same { var ok := RestartLocked(w, false, t.restart); }
    }

    /** `restartLocked`. */
    method RestartLocked(w: World, force: bool, t: RestartTrouble) returns (ok: bool)
      modifies this
      ensures (Now(), ok) == Restarted(fp, w, old(Now()), force, t)
      decreases 2
    {
      hide ServerInbounds, LoadClients, Collected;
      if t.build { return false; }
      var config, ids := Build(w.cfg, Snap(w, usage));
      if !force && fingerprint == Some(fp(config)) && running {
        active := ids;
        return true;
      }
      PersistUsage(w, t.hook);
      if t.file { return false; }
      StopLocked();
      if t.spawn { return false; }
      cur, running, restarts, meters := Some(config), true, restarts + 1, map[];
      fingerprint, active := Some(fp(config)), ids;
      return true;
    }

    method PersistUsage(w: World, t: CollectTrouble)
      modifies this
      ensures Now() == Hooked(w, old(Now()), t)
      decreases 1
    {
      if hook { CollectOnce(w, false, Trouble(t, RestartTrouble(false, false, false, t))); }
    }

    method StopLocked()
      modifies this
      ensures Now() == Down(old(Now()))
    {
      if cur == None { return; }
      cur, running, meters := None, false, map[];
    }

    /** `Stop`. */
    method Stop(w: World, t: CollectTrouble)
      modifies this
      ensures Now() == Halted(w, old(Now()), t)
    {
      PersistUsage(w, t);
      stopped := true;
      StopLocked();
    }

    /** `SetPersistUsage`. */
    method SetPersistUsage()
      modifies this`hook
      ensures Now() == old(Now()).(hook := true)
    {
      hook := true;
    }
  }
}
