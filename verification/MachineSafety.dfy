/** What every interleaving keeps: one live child, a truthful running flag, a fingerprint
    that describes the current child, and an exact account of every metered byte. */
module MachineSafety {
  import opened Wrappers
  import opened Machine

  // ---------- control ----------

  /** Spawning is split in steps; until its reaper is launched the child belongs to the holder. */
  predicate Owns(h: Holder, i: nat) {
    (h.Started? || h.Published? || h.Launching?) && h.i == i
  }

  predicate ChildOk(sup: Supervisor, i: nat)
    requires i < |sup.children|
  {
    var c := sup.children[i];
    && (c.alive ==> (sup.cur == Some(i) || (sup.holder.Started? && sup.holder.i == i)) && !c.Done())
    && (c.reaper.Unborn? ==> Owns(sup.holder, i))
  }

  predicate Known(sup: Supervisor, next: Next) { next.ThenSpawn? ==> next.b in sup.builds }

  /** Inside `stopLocked`: a restart has renamed its config into place, `Stop` has set its flag. */
  predicate OnDisk(sup: Supervisor, next: Next) {
    match next
    case ThenSpawn(b) => sup.file == Some(b) && b in sup.builds
    case ThenLeave => sup.stopped
  }

  predicate NewChild(sup: Supervisor, b: Build, i: nat) {
    b in sup.builds && i < |sup.children| && sup.children[i].reaper.Unborn? && sup.children[i].build == b
  }

  predicate HolderOk(sup: Supervisor) {
    match sup.holder
    case Comparing(_, b) => b in sup.builds
    case Hooking(next, run) =>
      Known(sup, next) && !run.doSync && !run.stage.Loading? && !run.stage.Reading? && !run.stage.Asking?
    case Writing(b) => b in sup.builds
    case Renaming(b) => b in sup.builds
    case Terminating(next) => OnDisk(sup, next)
    case Awaiting(i, next) => OnDisk(sup, next) && sup.cur == Some(i)
    case Dropping(i, next) => OnDisk(sup, next) && sup.cur == Some(i) && i < |sup.children| && sup.children[i].Done()
    case Dropped(next) => OnDisk(sup, next) && sup.cur.None?
    case Spawning(b) => OnDisk(sup, ThenSpawn(b)) && sup.cur.None?
    case Started(b, i) => NewChild(sup, b, i) && sup.cur.None?
    case Published(b, i) => NewChild(sup, b, i) && sup.cur == Some(i)
    case Launching(b, i) => NewChild(sup, b, i) && sup.cur == Some(i)
    case Recording(b) => b in sup.builds && sup.cur.Some? && sup.cur.value < |sup.children| && sup.children[sup.cur.value].build == b
    case Reaping(i) => i < |sup.children| && sup.children[i].reaper.Closed?
    case Reaped(i) => i < |sup.children| && sup.children[i].reaper.Closed? && sup.cur.None?
    case _ => true
  }

  /** `running` follows `cur`, except between the two assignments that change them. */
  predicate FlagOk(sup: Supervisor) {
    if sup.holder.Dropped? || sup.holder.Reaped? then sup.running
    else if sup.holder.Published? then !sup.running
    else sup.running == sup.cur.Some?
  }

  predicate Recorded(h: Holder) { !h.Published? && !h.Launching? && !h.Recording? }

  /** Outside the steps that record a new child, the fingerprint is that of the build the
      current child runs, and `active` is the client list of a build with that fingerprint. */
  predicate RecordOk(sup: Supervisor) {
    sup.cur.Some? && sup.cur.value < |sup.children| && Recorded(sup.holder) ==>
      var b := sup.children[sup.cur.value].build;
      && b in sup.builds && sup.fingerprint == Some(b.fp)
      && sup.source.Some? && sup.source.value in sup.builds
      && sup.source.value.fp == b.fp && sup.source.value.active == sup.active
  }

  /** The part of the invariant that speaks of the lock holder and the current child. */
  predicate Desk(sup: Supervisor) {
    (sup.cur.Some? ==> sup.cur.value < |sup.children|) && HolderOk(sup) && FlagOk(sup) && RecordOk(sup)
  }

  ghost predicate Control(sup: Supervisor) {
    Desk(sup) && forall i :: 0 <= i < |sup.children| ==> ChildOk(sup, i)
  }

  lemma ControlKill(sup: Supervisor, i: nat)
    requires Control(sup) && i < |sup.children|
    ensures Control(Kill(sup, i))
  {
    var t := Kill(sup, i);
    forall j | 0 <= j < |t.children| ensures ChildOk(t, j) { assert ChildOk(sup, j); }
  }

  lemma ControlLock(s: State, l: LockEvent)
    requires Control(s.sup) && LockEnabled(s, l)
    ensures Control(LockEffect(s.sup, l))
  {
    var t := LockEffect(s.sup, l);
    forall j | 0 <= j < |t.children| ensures ChildOk(t, j) { assert ChildOk(s.sup, j); }
  }

  lemma ControlPlan(sup: Supervisor, p: PlanEvent)
    requires Control(sup) && PlanEnabled(sup, p)
    ensures Control(PlanEffect(sup, p))
  {
    var t := PlanEffect(sup, p);
    forall j | 0 <= j < |t.children| ensures ChildOk(t, j) { assert ChildOk(sup, j); }
  }

  lemma ProcessHolder(sup: Supervisor, q: ProcessEvent)
    requires Desk(sup) && ProcessEnabled(sup, q)
    ensures
      var t := ProcessEffect(sup, q);
      (t.cur.Some? ==> t.cur.value < |t.children|) && HolderOk(t)
  {
    hide FlagOk, RecordOk;
  }

  lemma ProcessFlag(sup: Supervisor, q: ProcessEvent)
    requires Desk(sup) && ProcessEnabled(sup, q)
    ensures FlagOk(ProcessEffect(sup, q))
  {
    hide RecordOk;
  }

  lemma ProcessRecord(sup: Supervisor, q: ProcessEvent)
    requires Desk(sup) && ProcessEnabled(sup, q)
    ensures RecordOk(ProcessEffect(sup, q))
  {
    hide FlagOk;
  }

  lemma ProcessChild(sup: Supervisor, q: ProcessEvent, j: nat)
    requires Desk(sup) && ProcessEnabled(sup, q) && j < |ProcessEffect(sup, q).children|
    requires j < |sup.children| ==> ChildOk(sup, j)
    ensures ChildOk(ProcessEffect(sup, q), j)
  {
    hide FlagOk, RecordOk;
  }

  lemma ControlProcess(sup: Supervisor, q: ProcessEvent)
    requires Control(sup) && ProcessEnabled(sup, q)
    ensures Control(ProcessEffect(sup, q))
  {
    hide HolderOk, FlagOk, RecordOk, ChildOk, ProcessEffect, ProcessEnabled;
    var t := ProcessEffect(sup, q);
    ProcessHolder(sup, q);
    ProcessFlag(sup, q);
    ProcessRecord(sup, q);
    forall j | 0 <= j < |t.children| ensures ChildOk(t, j) { ProcessChild(sup, q, j); }
  }

  lemma ControlLoose(s: State, o: LooseEvent)
    requires Control(s.sup) && LooseEnabled(s, o)
    ensures Control(LooseEffect(s, o).sup)
  {
    var t := LooseEffect(s, o).sup;
    forall j | 0 <= j < |t.children| ensures ChildOk(t, j) { assert ChildOk(s.sup, j); }
  }

  lemma ControlStep(s: State, e: Event)
    requires Control(s.sup) && Enabled(s, e)
    ensures Control(Apply(s, e).sup)
  {
    match e
    case World(w) => if w.Die? { ControlKill(s.sup, w.i); }
    case Lock(l) => ControlLock(s, l);
    case Plan(p) => ControlPlan(s.sup, p);
    case Process(q) => ControlProcess(s.sup, q);
    case Loose(o) => ControlLoose(s, o);
  }

  // ---------- conservation ----------

  /** Unread bytes of a client in the counters of all children. */
  function Unread(meters: seq<Ledger>, c: Id, up: bool): nat {
    if |meters| == 0 then 0 else Unread(meters[..|meters| - 1], c, up) + Amount(meters[|meters| - 1], c, up)
  }

  /** Bytes read from a child and not yet handed to the database by this run. */
  function Flight(run: Option<Collect>): Ledger {
    if run.Some? && run.value.stage.Persisting? then run.value.stage.pending else map[]
  }

  function HookRun(sup: Supervisor): Option<Collect> {
    if sup.holder.Hooking? then Some(sup.holder.run) else None
  }

  /** Bytes of a client that rest somewhere: stored, unread, lost or erased with the client. */
  function Resting(b: Books, c: Id, up: bool): nat {
    Amount(b.db, c, up) + Unread(b.meters, c, up) + Amount(b.lost, c, up) + Amount(b.erased, c, up)
  }

  function InFlight(s: State, c: Id, up: bool): nat {
    Amount(Flight(s.tick), c, up) + Amount(Flight(HookRun(s.sup)), c, up)
  }

  /** Every metered byte is in exactly one place. */
  predicate Balanced(s: State, c: Id, up: bool) {
    Amount(s.books.metered, c, up) == Resting(s.books, c, up) + InFlight(s, c, up)
  }

  /** One counter file per child; usage rows reference clients; erased ids are never reused. */
  predicate Tidy(s: State) {
    && |s.books.meters| == |s.sup.children|
    && TidyBooks(s.books)
  }

  lemma {:induction false} UnreadUpdate(meters: seq<Ledger>, i: nat, l: Ledger, c: Id, up: bool)
    requires i < |meters|
    ensures Unread(meters[i := l], c, up) + Amount(meters[i], c, up) == Unread(meters, c, up) + Amount(l, c, up)
  {
    var k := |meters| - 1;
    if i == k {
      assert meters[i := l][..k] == meters[..k];
    } else {
      UnreadUpdate(meters[..k], i, l, c, up);
      assert meters[i := l][..k] == meters[..k][i := l];
    }
  }

  /** What one entry contributes to a client's account. */
  function Share(d: Id, t: Traffic, c: Id, up: bool): nat {
    if c != d then 0 else if up then t.up else t.down
  }

  lemma AmountAddEntry(l: Ledger, d: Id, t: Traffic, c: Id, up: bool)
    ensures Amount(AddEntry(l, d, t), c, up) == Amount(l, c, up) + Share(d, t, c, up)
  {
  }

  lemma AmountAddAll(l: Ledger, m: Ledger, c: Id, up: bool)
    ensures Amount(AddAll(l, m), c, up) == Amount(l, c, up) + Amount(m, c, up)
  {
  }

  lemma ReadMoves(b: Books, i: nat, c: Id, up: bool)
    requires i < |b.meters|
    ensures Resting(b.(meters := b.meters[i := map[]]), c, up) + Amount(b.meters[i], c, up) == Resting(b, c, up)
  {
    UnreadUpdate(b.meters, i, map[], c, up);
  }

  lemma LoseMoves(b: Books, i: nat, c: Id, up: bool)
    requires i < |b.meters|
    ensures Resting(b.(meters := b.meters[i := map[]], lost := AddAll(b.lost, b.meters[i])), c, up) == Resting(b, c, up)
  {
    UnreadUpdate(b.meters, i, map[], c, up);
    AmountAddAll(b.lost, b.meters[i], c, up);
  }

  lemma StoreMovesA(b: Books, d: Id, t: Traffic, c: Id, up: bool)
    ensures Resting(b.(db := AddEntry(b.db, d, t)), c, up) == Resting(b, c, up) + Share(d, t, c, up)
  {
    AmountAddEntry(b.db, d, t, c, up);
  }
  lemma StoreMovesB(b: Books, d: Id, t: Traffic, c: Id, up: bool)
    ensures Resting(b.(lost := AddEntry(b.lost, d, t)), c, up) == Resting(b, c, up) + Share(d, t, c, up)
  {
    AmountAddEntry(b.lost, d, t, c, up);
  }
  lemma StoreMoves(b: Books, d: Id, t: Traffic, stored: bool, c: Id, up: bool)
    ensures Resting(StoreDelta(b, d, t, stored), c, up) == Resting(b, c, up) + Share(d, t, c, up)
  {
    if t == Traffic(0, 0) {
      assert Share(d, t, c, up) == 0;
    } else if stored { StoreMovesA(b, d, t, c, up); }
    else { StoreMovesB(b, d, t, c, up); }
  }

  lemma MeterMoves(b: Books, i: nat, d: Id, t: Traffic, c: Id, up: bool)
    requires i < |b.meters|
    ensures Resting(WorldEffect(b, Meter(i, d, t)), c, up) == Resting(b, c, up) + Share(d, t, c, up)
    ensures Amount(WorldEffect(b, Meter(i, d, t)).metered, c, up) == Amount(b.metered, c, up) + Share(d, t, c, up)
  {
    UnreadUpdate(b.meters, i, AddEntry(b.meters[i], d, t), c, up);
    AmountAddEntry(b.meters[i], d, t, c, up);
    AmountAddEntry(b.metered, d, t, c, up);
  }

  lemma TakeEntry(l: Ledger, d: Id, c: Id, up: bool)
    ensures Amount(l, c, up) == Amount(l - {d}, c, up) + Share(d, Entry(l, d), c, up)
  {
  }

  lemma DeleteMoves(b: Books, d: Id, c: Id, up: bool)
    ensures Resting(WorldEffect(b, DeleteClient(d)), c, up) == Resting(b, c, up)
  {
    TakeEntry(b.db, d, c, up);
    AmountAddEntry(b.erased, d, Entry(b.db, d), c, up);
  }

  /** What a collector step moves: the books and the bytes in flight change together. */
  lemma CollectMoves(sup: Supervisor, b: Books, r: Collect, e: CollectEvent, c: Id, up: bool)
    requires CollectEnabled(sup, b, r, e)
    ensures Resting(CollectEffect(sup, b, r, e), c, up) + Amount(Flight(CollectNext(sup, b, r, e)), c, up)
         == Resting(b, c, up) + Amount(Flight(Some(r)), c, up)
  {
    match e
    case QueryOk(i) => ReadMoves(b, i, c, up);
    case QueryLost(i) => LoseMoves(b, i, c, up);
    case Upsert(d, stored) =>
      StoreMoves(b, d, r.stage.pending[d], stored, c, up);
      TakeEntry(r.stage.pending, d, c, up);
    case _ =>
  }

  lemma BirthMoves(b: Books, c: Id, up: bool)
    ensures Resting(b.(meters := b.meters + [map[]]), c, up) == Resting(b, c, up)
  {
    assert (b.meters + [map[]])[..|b.meters|] == b.meters;
  }

  lemma ProcessMoves(s: State, q: ProcessEvent, c: Id, up: bool)
    requires ProcessEnabled(s.sup, q) && Balanced(s, c, up)
    ensures Balanced(Apply(s, Process(q)), c, up)
  {
    BirthMoves(s.books, c, up);
    assert HookRun(s.sup).None? && HookRun(ProcessEffect(s.sup, q)).None?;
  }

  lemma WorldMoves(s: State, w: WorldEvent, c: Id, up: bool)
    requires WorldEnabled(s, w) && Balanced(s, c, up)
    ensures Balanced(Apply(s, World(w)), c, up)
  {
    match w
    case Meter(i, d, t) => MeterMoves(s.books, i, d, t, c, up);
    case Die(i) => LoseMoves(s.books, i, c, up);
    case CreateClient(_) =>
    case DeleteClient(d) => DeleteMoves(s.books, d, c, up);
  }

  lemma LooseMoves(s: State, o: LooseEvent, c: Id, up: bool)
    requires LooseEnabled(s, o) && Balanced(s, c, up)
    ensures Balanced(Apply(s, Loose(o)), c, up)
  {
    match o
    case TickStep(ce) => TickMoves(s, ce, c, up);
    case HookStep(ce) => HookMoves(s, ce, c, up);
    case _ =>
  }

  lemma TickMoves(s: State, ce: CollectEvent, c: Id, up: bool)
    requires LooseEnabled(s, TickStep(ce)) && Balanced(s, c, up)
    ensures Balanced(Apply(s, Loose(TickStep(ce))), c, up)
  {
    CollectMoves(s.sup, s.books, s.tick.value, ce, c, up);
  }

  lemma HookMoves(s: State, ce: CollectEvent, c: Id, up: bool)
    requires LooseEnabled(s, HookStep(ce)) && Balanced(s, c, up)
    ensures Balanced(Apply(s, Loose(HookStep(ce))), c, up)
  {
    CollectMoves(s.sup, s.books, s.sup.holder.run, ce, c, up);
  }

  lemma BalancedStep(s: State, e: Event, c: Id, up: bool)
    requires Enabled(s, e) && Balanced(s, c, up)
    ensures Balanced(Apply(s, e), c, up)
  {
    match e
    case World(w) => WorldMoves(s, w, c, up);
    case Loose(o) => LooseMoves(s, o, c, up);
    case Process(q) => ProcessMoves(s, q, c, up);
    case Lock(l) =>
    case Plan(p) =>
  }

  lemma TidyCollect(sup: Supervisor, b: Books, r: Collect, e: CollectEvent)
    requires CollectEnabled(sup, b, r, e) && TidyBooks(b)
    ensures
      var a := CollectEffect(sup, b, r, e);
      |a.meters| == |b.meters| && a.clients == b.clients && a.used == b.used && a.erased == b.erased && TidyBooks(a)
  {
  }

  predicate TidyBooks(b: Books) {
    && (forall c :: c in b.clients ==> c in b.used && c !in b.erased)
    && (forall c :: c in b.db ==> c in b.clients)
    && (forall c :: c in b.erased ==> c in b.used)
  }

  lemma TidyDelete(b: Books, c: Id)
    requires TidyBooks(b) && c in b.clients
    ensures TidyBooks(WorldEffect(b, DeleteClient(c)))
  {
    var a := WorldEffect(b, DeleteClient(c));
    forall d | d in a.db ensures d in a.clients { assert d in b.db && d != c; }
    forall d | d in a.erased ensures d in a.used && d !in a.clients { assert d in b.erased || d == c; }
    assert a.used == b.used;
  }

  lemma TidyWorld(b: Books, w: WorldEvent)
    requires TidyBooks(b)
    requires w.Meter? || w.Die? ==> w.i < |b.meters|
    requires (w.CreateClient? ==> w.c !in b.used) && (w.DeleteClient? ==> w.c in b.clients)
    ensures TidyBooks(WorldEffect(b, w)) && |WorldEffect(b, w).meters| == |b.meters|
  {
    match w
    case Meter(_, _, _) =>
    case Die(_) =>
    case CreateClient(_) =>
    case DeleteClient(c) => TidyDelete(b, c);
  }

  lemma TidyProcess(s: State, q: ProcessEvent)
    requires ProcessEnabled(s.sup, q) && Tidy(s)
    ensures Tidy(Apply(s, Process(q)))
  {
  }

  lemma TidyLoose(s: State, o: LooseEvent)
    requires LooseEnabled(s, o) && Tidy(s)
    ensures Tidy(Apply(s, Loose(o)))
  {
    hide CollectEffect, CollectNext;
    match o
    case TickStep(ce) => TidyCollect(s.sup, s.books, s.tick.value, ce);
    case HookStep(ce) => TidyCollect(s.sup, s.books, s.sup.holder.run, ce);
    case _ =>
  }

  lemma TidyStep(s: State, e: Event)
    requires Enabled(s, e) && Tidy(s)
    ensures Tidy(Apply(s, e))
  {
    hide CollectEffect, CollectNext, WorldEffect, ProcessEffect, LooseEffect;
    match e
    case World(w) => TidyWorld(s.books, w);
    case Loose(o) => TidyLoose(s, o);
    case Process(q) => TidyProcess(s, q);
    case Lock(_) =>
    case Plan(_) =>
  }
}
