/** Traffic is saved before a child goes: what ticks, restarts and `Stop` do to the usage table
    and to the unread counters, for every failure (`collectOnce`, internal/api/traffic.go;
    `restartLocked`, `Stop`, internal/xray/supervisor.go). */
module Persistence {
  import opened Wrappers
  import opened Policy
  import opened ServerConfig
  import opened Enforcement
  import opened Convergence
  import Books = Machine

  /** Bytes of a client that a reading moves from the counters to the table: all of them when
      a child runs, the query and its answer arrive, the client exists and its row is written. */
  function Saved(w: World, v: View, t: CollectTrouble, c: string, up: bool): nat {
    if v.running && !t.query && !t.answer && HasRow(w.rows, c) && !t.upsert(c) then Books.Amount(v.meters, c, up) else 0
  }

  lemma CollectedSaves(w: World, v: View, t: CollectTrouble, c: string, up: bool)
    ensures Books.Amount(Collected(w, v, t).usage, c, up) == Books.Amount(v.usage, c, up) + Saved(w, v, t, c, up)
    ensures Collected(w, v, t).meters == if v.running && !t.query then map[] else v.meters
    ensures Collected(w, v, t) == v.(usage := Collected(w, v, t).usage, meters := Collected(w, v, t).meters)
  {
    if v.running && !t.query && !t.answer { KeptAmount(w.rows, v.meters, t.upsert, c, up); }
  }

  /** A client has a row when some row has its id. */
  lemma RowExists(rows: seq<ClientRow>, i: nat)
    requires i < |rows|
    ensures HasRow(rows, rows[i].id)
  {
  }

  lemma KeptAmount(rows: seq<ClientRow>, deltas: Books.Ledger, upsert: string -> bool, c: string, up: bool)
    ensures Books.Amount(Kept(rows, deltas, upsert), c, up)
         == if HasRow(rows, c) && !upsert(c) then Books.Amount(deltas, c, up) else 0
  {
  }

  /** A tick saves what it reads, once: the restart it may ask for finds nothing more. */
  lemma TickSaves(fp: Print, w: World, v: View, t: Trouble, c: string, up: bool)
    ensures Books.Amount(Ticked(fp, w, v, t).usage, c, up) == Books.Amount(v.usage, c, up) + Saved(w, v, t.collect, c, up)
    ensures Ticked(fp, w, v, t).meters == if v.running && !t.collect.query then map[] else v.meters
  {
    CollectedSaves(w, v, t.collect, c, up);
    hide Collected, LoadClients, ServerInbounds, Saved;
    var u := Collected(w, v, t.collect);
    if v.running && !t.collect.query && !t.collect.answer {
      NothingToStore(w, u, t.restart.hook);
      SyncKeeps(fp, w, u, t);
    }
  }

  lemma SyncKeeps(fp: Print, w: World, u: View, t: Trouble)
    requires u.meters == map[] && Collected(w, u, t.restart.hook) == u
    ensures Synced(fp, w, u, t).usage == u.usage && Synced(fp, w, u, t).meters == map[]
  {
    hide Collected, LoadClients, ServerInbounds;
  }

  /** The restart leaves everything as it is: the build fails, or nothing has changed. */
  predicate Untouched(fp: Print, w: World, v: View, force: bool, t: RestartTrouble) {
    t.build || (!force && v.running && v.fingerprint == Some(fp(ServerInbounds(w.cfg, Snap(w, v.usage)))))
  }

  /** Every other restart first saves what the child has counted, if the hook is installed;
      only what could not be saved is gone with the child. */
  lemma RestartSaves(fp: Print, w: World, v: View, force: bool, t: RestartTrouble, c: string, up: bool)
    requires Consistent(fp, v)
    ensures var u := Restarted(fp, w, v, force, t).0;
            Books.Amount(u.usage, c, up) == Books.Amount(v.usage, c, up)
              + if !Untouched(fp, w, v, force, t) && v.hook then Saved(w, v, t.hook, c, up) else 0
    ensures var u := Restarted(fp, w, v, force, t).0;
            u.meters == if Untouched(fp, w, v, force, t) then v.meters
                        else if !t.file || (v.hook && v.running && !t.hook.query) then map[] else v.meters
  {
    CollectedSaves(w, v, t.hook, c, up);
    hide Collected, LoadClients, ServerInbounds, Saved, LetsInOnly;
  }

  /** `Stop` does the same. */
  lemma StopSaves(fp: Print, w: World, v: View, t: CollectTrouble, c: string, up: bool)
    requires Consistent(fp, v)
    ensures Books.Amount(Halted(w, v, t).usage, c, up) == Books.Amount(v.usage, c, up) + if v.hook then Saved(w, v, t, c, up) else 0
    ensures Halted(w, v, t).meters == map[] && Halted(w, v, t).stopped && !Halted(w, v, t).running && Halted(w, v, t).cur.None?
  {
    CollectedSaves(w, v, t, c, up);
    hide Collected, Saved, LetsInOnly;
  }

  /** Nothing is lost at a shutdown, or at a restart that replaces the child, when the hook is
      installed and its statements succeed: each existing client's row gains its counters. */
  lemma HealthyEndLosesNothing(fp: Print, w: World, v: View, force: bool, t: RestartTrouble, i: nat, c: string, up: bool)
    requires Consistent(fp, v) && v.running && v.hook && i < |w.rows| && w.rows[i].id == c
    requires !t.hook.query && !t.hook.answer && !t.hook.upsert(c)
    ensures Books.Amount(Halted(w, v, t.hook).usage, c, up) == Books.Amount(v.usage, c, up) + Books.Amount(v.meters, c, up)
    ensures !Untouched(fp, w, v, force, t) ==>
              Books.Amount(Restarted(fp, w, v, force, t).0.usage, c, up) == Books.Amount(v.usage, c, up) + Books.Amount(v.meters, c, up)
  {
    RowExists(w.rows, i);
    StopSaves(fp, w, v, t.hook, c, up);
    RestartSaves(fp, w, v, force, t, c, up);
    hide Halted, Restarted, Untouched, Consistent;
  }

  // ---------- what a restart leaves ----------

  /** A restart succeeds when it finds nothing to do, or when nothing fails. Then `active` is
      the list of the clients just loaded; a new child runs exactly the config rendered from
      this reading of the database, and is counted; otherwise the child stays as it was. */
  lemma RestartOutcome(fp: Print, w: World, v: View, force: bool, t: RestartTrouble)
    ensures var (u, ok) := Restarted(fp, w, v, force, t);
            var clients := LoadClients(w.rows, w.now, v.usage);
            var config := ServerInbounds(w.cfg, Snapshot(w.stored, w.storedSni, w.keys, clients, w.customs));
            && u.stopped == v.stopped && u.hook == v.hook
            && (ok <==> !t.build && (Untouched(fp, w, v, force, t) || (!t.file && !t.spawn)))
            && (t.build ==> u == v)
            && (ok && Untouched(fp, w, v, force, t) ==> u == v.(active := Ids(clients)))
            && (ok && !Untouched(fp, w, v, force, t) ==>
                  u.cur == Some(config) && u.running && u.restarts == v.restarts + 1 && u.active == Ids(clients)
                  && u.fingerprint == Some(fp(config)))
            && (!ok ==> u.restarts == v.restarts && u.active == v.active && u.fingerprint == v.fingerprint)
            && (!ok && !t.build && t.file ==> u.cur == v.cur && u.running == v.running)
  {
    hide LoadClients, ServerInbounds, Kept;
  }

  /** Ticks and `Stop` never change the hook, and a tick not the flag either. */
  lemma HookKept(fp: Print, w: World, v: View, t: Trouble)
    ensures Ticked(fp, w, v, t).hook == v.hook && Ticked(fp, w, v, t).stopped == v.stopped
    ensures Halted(w, v, t.collect).hook == v.hook && Halted(w, v, t.collect).active == v.active
    ensures Halted(w, v, t.collect).fingerprint == v.fingerprint && Halted(w, v, t.collect).restarts == v.restarts
  {
    var u := Collected(w, v, t.collect);
    CollectedSaves(w, v, t.collect, "", true);
    RestartOutcome(fp, w, u, false, t.restart);
    hide LoadClients, ServerInbounds, Collected, Restarted, Untouched;
  }
}
