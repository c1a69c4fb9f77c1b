/** The supervisor and the traffic collector as a machine of interleaved steps
    (internal/xray/supervisor.go, internal/api/traffic.go).

    HTTP handlers, the watchdog, the collector tick, shutdown and one reaper goroutine per
    child meet at the mutex `mu`. A step is one access to a variable that another goroutine
    can see, or one call into the outside world; calls may fail, and the Xray child may die
    at any step. */
module Machine {
  import opened Wrappers

  type Id = string

  // ---------- traffic ledgers ----------

  datatype Traffic = Traffic(up: nat, down: nat)

  type Ledger = map<Id, Traffic>

  /** Bytes recorded for client `c` in one direction. */
  function Amount(l: Ledger, c: Id, up: bool): nat {
    if c !in l then 0 else if up then l[c].up else l[c].down
  }

  function Entry(l: Ledger, c: Id): Traffic { Traffic(Amount(l, c, true), Amount(l, c, false)) }

  function AddEntry(l: Ledger, c: Id, t: Traffic): Ledger {
    l[c := Traffic(Amount(l, c, true) + t.up, Amount(l, c, false) + t.down)]
  }

  function AddAll(l: Ledger, m: Ledger): Ledger {
    map c | c in l.Keys + m.Keys :: Traffic(Amount(l, c, true) + Amount(m, c, true), Amount(l, c, false) + Amount(m, c, false))
  }

  // ---------- state ----------

  /** The outcome of one `Build`: the rendered config, its fingerprint, and the client ids. */
  datatype Build = Build(config: string, fp: string, active: seq<Id>)

  /** The goroutine that waits for a child: not launched yet, inside `cmd.Wait`, after
      `close(p.done)`, or gone. */
  datatype Reaper = Unborn | Waiting | Closed | Gone

  datatype Child = Child(alive: bool, build: Build, reaper: Reaper) {
    predicate Done() { reaper.Closed? || reaper.Gone? }
  }

  /** Where a run of `collectOnce` stands. */
  datatype Stage =
    | Checking | Querying | Persisting(pending: Ledger) | Totalling
    | Loading | Reading(want: seq<Id>) | Asking

  datatype Collect = Collect(doSync: bool, stage: Stage)

  /** What follows `PersistUsage` and `stopLocked`. */
  datatype Next = ThenSpawn(b: Build) | ThenLeave

  /** Who holds `mu`, and where it stands in its critical section. */
  datatype Holder =
    | Free
    | Building(force: bool) | Comparing(force: bool, b: Build)
    | Hooking(next: Next, run: Collect)
    | Writing(b: Build) | Renaming(b: Build)
    | Marking
    | Terminating(next: Next) | Awaiting(i: nat, next: Next) | Dropping(i: nat, next: Next) | Dropped(next: Next)
    | Spawning(b: Build) | Started(b: Build, i: nat) | Published(b: Build, i: nat) | Launching(b: Build, i: nat)
    | Recording(b: Build)
    | Reaping(i: nat) | Reaped(i: nat)

  /** The supervisor's fields, the children it ever spawned and the config file; `builds`
      and `source` are history: every build, and the one `active` came from. */
  datatype Supervisor = Supervisor(
    children: seq<Child>, cur: Option<nat>, running: bool, stopped: bool, hook: bool,
    fingerprint: Option<string>, active: seq<Id>, file: Option<Build>, holder: Holder,
    builds: set<Build>, source: Option<Build>)

  /** Where bytes are: in the usage table, in the counters of each child, or gone. */
  datatype Books = Books(
    clients: set<Id>, used: set<Id>, db: Ledger, meters: seq<Ledger>,
    metered: Ledger, lost: Ledger, erased: Ledger)

  /** `tick` is the collector goroutine, `watchdog` says it saw a dead child. */
  datatype State = State(sup: Supervisor, books: Books, tick: Option<Collect>, watchdog: bool)

  const INIT := State(
    Supervisor([], None, false, false, false, None, [], None, Free, {}, None),
    Books({}, {}, map[], [], map[], map[], map[]), None, false)

  // ---------- events ----------

  /** Steps of `collectOnce`. `Upsert(c, stored)` is one statement; `stored` says whether the
      row was written, whatever error the caller saw. */
  datatype CollectEvent =
    | CheckRunning
    | QueryOk(i: nat) | QueryFails | QueryLost(i: nat)
    | Upsert(c: Id, stored: bool) | UpsertsDone
    | Totals
    | LoadFails | Load(want: seq<Id>)
    | ReadActive

  /** The world: a live child meters traffic or dies, an admin edits clients. */
  datatype WorldEvent = Meter(i: nat, c: Id, t: Traffic) | Die(i: nat) | CreateClient(c: Id) | DeleteClient(c: Id)

  /** Taking the lock: a handler's `Restart`, `Stop`, `SetPersistUsage`, a reaper, the tick's
      sync, or the watchdog's `Restart`. */
  datatype LockEvent =
    AskRestart(force: bool) | AskStop | InstallHook | ReaperLock(i: nat) | TickRestart | WatchdogRestart

  /** The holder inside `restartLocked` and `Stop`, up to the child process. */
  datatype PlanEvent =
    | BuildFails | BuildDone(b: Build) | Compare
    | WriteFails | WriteDone | RenameFails | RenameDone
    | Mark

  /** The holder inside `stopLocked`, `spawnLocked` and the reaper's critical section. */
  datatype ProcessEvent =
    | Terminate | AwaitDone | Drop | ClearRunning
    | SpawnFails | Start | Publish | SetRunning | LaunchReaper | Record
    | Reap | ReapClear

  /** Steps taken without the lock, and the steps of the `PersistUsage` hook. */
  datatype LooseEvent =
    CloseDone(i: nat) | TickStart | TickStep(ce: CollectEvent) | HookStep(ce: CollectEvent) | WatchdogCheck

  datatype Event =
    | World(w: WorldEvent) | Lock(l: LockEvent) | Plan(p: PlanEvent) | Process(q: ProcessEvent) | Loose(o: LooseEvent)

  // ---------- collectOnce ----------

  predicate Alive(sup: Supervisor, i: nat) { i < |sup.children| && sup.children[i].alive }

  /** `equalStringSets`, by its meaning. */
  predicate SameIds(a: seq<Id>, b: seq<Id>) { multiset(a) == multiset(b) }

  predicate CollectEnabled(sup: Supervisor, books: Books, r: Collect, e: CollectEvent) {
    match e
    case CheckRunning => r.stage.Checking?
    case QueryOk(i) => r.stage.Querying? && Alive(sup, i) && i < |books.meters|
    case QueryFails => r.stage.Querying?
    case QueryLost(i) => r.stage.Querying? && Alive(sup, i) && i < |books.meters|
    case Upsert(c, stored) => r.stage.Persisting? && c in r.stage.pending && (stored ==> c in books.clients)
    case UpsertsDone => r.stage.Persisting? && r.stage.pending == map[]
    case Totals => r.stage.Totalling?
    case LoadFails => r.stage.Loading?
    case Load(_) => r.stage.Loading?
    case ReadActive => r.stage.Reading? && sup.holder.Free? // ActiveSet locks mu
  }

  /** The next position of the run; `None` when it returns. */
  function CollectNext(sup: Supervisor, books: Books, r: Collect, e: CollectEvent): Option<Collect>
    requires CollectEnabled(sup, books, r, e)
  {
    match e
    case CheckRunning => if sup.running then Some(r.(stage := Querying)) else None
    case QueryOk(i) => Some(r.(stage := Persisting(books.meters[i])))
    case QueryFails => None
    case QueryLost(_) => None
    case Upsert(c, _) => Some(r.(stage := Persisting(r.stage.pending - {c})))
    case UpsertsDone => Some(r.(stage := Totalling))
    case Totals => if r.doSync then Some(r.(stage := Loading)) else None
    case LoadFails => None
    case Load(want) => Some(r.(stage := Reading(want)))
    case ReadActive => if SameIds(r.stage.want, sup.active) then None else Some(r.(stage := Asking))
  }

  /** The effect of the step on the books: the counters are reset by the read. */
  function CollectEffect(sup: Supervisor, books: Books, r: Collect, e: CollectEvent): Books
    requires CollectEnabled(sup, books, r, e)
  {
    match e
    case QueryOk(i) => books.(meters := books.meters[i := map[]])
    case QueryLost(i) => books.(meters := books.meters[i := map[]], lost := AddAll(books.lost, books.meters[i]))
    case Upsert(c, stored) => StoreDelta(books, c, r.stage.pending[c], stored)
    case _ => books
  }

  /** One upsert into `client_usage`; zero deltas are skipped. */
  function StoreDelta(books: Books, c: Id, d: Traffic, stored: bool): Books {
    if d == Traffic(0, 0) then books
    else if stored then books.(db := AddEntry(books.db, c, d))
    else books.(lost := AddEntry(books.lost, c, d))
  }

  // ---------- the world ----------

  predicate WorldEnabled(s: State, w: WorldEvent) {
    match w
    case Meter(i, _, _) => Alive(s.sup, i) && i < |s.books.meters|
    case Die(i) => Alive(s.sup, i) && i < |s.books.meters|
    case CreateClient(c) => c !in s.books.used
    case DeleteClient(c) => c in s.books.clients
  }

  function WorldEffect(books: Books, w: WorldEvent): Books
    requires (w.Meter? || w.Die?) ==> w.i < |books.meters|
  {
    match w
    case Meter(i, c, t) =>
      books.(meters := books.meters[i := AddEntry(books.meters[i], c, t)], metered := AddEntry(books.metered, c, t))
    case Die(i) => books.(meters := books.meters[i := map[]], lost := AddAll(books.lost, books.meters[i]))
    case CreateClient(c) => books.(clients := books.clients + {c}, used := books.used + {c})
    case DeleteClient(c) => // client_usage cascades
      books.(clients := books.clients - {c}, db := books.db - {c}, erased := AddEntry(books.erased, c, Entry(books.db, c)))
  }

  function Kill(sup: Supervisor, i: nat): Supervisor
    requires i < |sup.children|
  {
    sup.(children := sup.children[i := sup.children[i].(alive := false)])
  }

  // ---------- the lock holder ----------

  /** Where the holder goes once `PersistUsage` returned (or is not installed). */
  function AfterHook(next: Next): Holder {
    match next case ThenSpawn(b) => Writing(b) case ThenLeave => Marking
  }

  function EnterHook(sup: Supervisor, next: Next): Holder {
    if sup.hook then Hooking(next, Collect(false, Checking)) else AfterHook(next)
  }

  /** Where the holder goes once `stopLocked` returned. */
  function AfterStop(next: Next): Holder {
    match next case ThenSpawn(b) => Spawning(b) case ThenLeave => Free
  }

  predicate LockEnabled(s: State, l: LockEvent) {
    && s.sup.holder.Free?
    && match l
       case ReaperLock(i) => i < |s.sup.children| && s.sup.children[i].reaper.Closed?
       case TickRestart => s.tick.Some? && s.tick.value.stage.Asking?
       case WatchdogRestart => s.watchdog
       case _ => true
  }

  function LockEffect(sup: Supervisor, l: LockEvent): Supervisor {
    match l
    case AskRestart(force) => sup.(holder := Building(force))
    case AskStop => sup.(holder := EnterHook(sup, ThenLeave))
    case InstallHook => sup.(hook := true)
    case ReaperLock(i) => sup.(holder := Reaping(i))
    case TickRestart => sup.(holder := Building(false))
    case WatchdogRestart => sup.(holder := Building(false))
  }

  predicate PlanEnabled(sup: Supervisor, p: PlanEvent) {
    match p
    case BuildFails => sup.holder.Building?
    case BuildDone(_) => sup.holder.Building?
    case Compare => sup.holder.Comparing?
    case WriteFails => sup.holder.Writing?
    case WriteDone => sup.holder.Writing?
    case RenameFails => sup.holder.Renaming?
    case RenameDone => sup.holder.Renaming?
    case Mark => sup.holder.Marking?
  }

  function PlanEffect(sup: Supervisor, p: PlanEvent): Supervisor
    requires PlanEnabled(sup, p)
  {
    match p
    case BuildFails => sup.(holder := Free)
    case BuildDone(b) => sup.(holder := Comparing(sup.holder.force, b), builds := sup.builds + {b})
    case Compare =>
      var b := sup.holder.b;
      if !sup.holder.force && sup.fingerprint == Some(b.fp) && sup.running
      then sup.(active := b.active, source := Some(b), holder := Free)
      else sup.(holder := EnterHook(sup, ThenSpawn(b)))
    case WriteFails => sup.(holder := Free)
    case WriteDone => sup.(holder := Renaming(sup.holder.b))
    case RenameFails => sup.(holder := Free)
    case RenameDone => sup.(file := Some(sup.holder.b), holder := Terminating(ThenSpawn(sup.holder.b)))
    case Mark => sup.(stopped := true, holder := Terminating(ThenLeave))
  }

  predicate ProcessEnabled(sup: Supervisor, q: ProcessEvent) {
    match q
    case Terminate => sup.holder.Terminating?
    case AwaitDone => sup.holder.Awaiting? && sup.holder.i < |sup.children| && sup.children[sup.holder.i].Done()
    case Drop => sup.holder.Dropping?
    case ClearRunning => sup.holder.Dropped?
    case SpawnFails => sup.holder.Spawning?
    case Start => sup.holder.Spawning? && sup.file.Some?
    case Publish => sup.holder.Started?
    case SetRunning => sup.holder.Published?
    case LaunchReaper => sup.holder.Launching? && sup.holder.i < |sup.children|
    case Record => sup.holder.Recording?
    case Reap => sup.holder.Reaping? && sup.holder.i < |sup.children|
    case ReapClear => sup.holder.Reaped? && sup.holder.i < |sup.children|
  }

  function SetReaper(sup: Supervisor, i: nat, r: Reaper): seq<Child>
    requires i < |sup.children|
  {
    sup.children[i := sup.children[i].(reaper := r)]
  }

  function ProcessEffect(sup: Supervisor, q: ProcessEvent): Supervisor
    requires ProcessEnabled(sup, q)
  {
    match q
    case Terminate =>
      sup.(holder := if sup.cur.None? then AfterStop(sup.holder.next) else Awaiting(sup.cur.value, sup.holder.next))
    case AwaitDone => sup.(holder := Dropping(sup.holder.i, sup.holder.next))
    case Drop =>
      if sup.cur == Some(sup.holder.i) then sup.(cur := None, holder := Dropped(sup.holder.next))
      else sup.(holder := AfterStop(sup.holder.next))
    case ClearRunning => sup.(running := false, holder := AfterStop(sup.holder.next))
    case SpawnFails => sup.(holder := Free)
    case Start => // the child runs whatever the config file holds
      sup.(children := sup.children + [Child(true, sup.file.value, Unborn)], holder := Started(sup.holder.b, |sup.children|))
    case Publish => sup.(cur := Some(sup.holder.i), holder := Published(sup.holder.b, sup.holder.i))
    case SetRunning => sup.(running := true, holder := Launching(sup.holder.b, sup.holder.i))
    case LaunchReaper => sup.(children := SetReaper(sup, sup.holder.i, Waiting), holder := Recording(sup.holder.b))
    case Record =>
      sup.(fingerprint := Some(sup.holder.b.fp), active := sup.holder.b.active, source := Some(sup.holder.b), holder := Free)
    case Reap =>
      if sup.cur == Some(sup.holder.i) then sup.(cur := None, holder := Reaped(sup.holder.i))
      else sup.(children := SetReaper(sup, sup.holder.i, Gone), holder := Free)
    case ReapClear => sup.(running := false, children := SetReaper(sup, sup.holder.i, Gone), holder := Free)
  }

  // ---------- steps without the lock ----------

  predicate LooseEnabled(s: State, o: LooseEvent) {
    match o
    case CloseDone(i) => i < |s.sup.children| && !s.sup.children[i].alive && s.sup.children[i].reaper.Waiting?
    case TickStart => s.tick.None?
    case TickStep(ce) => s.tick.Some? && CollectEnabled(s.sup, s.books, s.tick.value, ce)
    case HookStep(ce) => s.sup.holder.Hooking? && CollectEnabled(s.sup, s.books, s.sup.holder.run, ce)
    case WatchdogCheck => !s.watchdog
  }

  function HookNext(sup: Supervisor, next: Next, run: Option<Collect>): Supervisor {
    sup.(holder := if run.None? then AfterHook(next) else Hooking(next, run.value))
  }

  function LooseEffect(s: State, o: LooseEvent): State
    requires LooseEnabled(s, o)
  {
    match o
    case CloseDone(i) => s.(sup := s.sup.(children := SetReaper(s.sup, i, Closed)))
    case TickStart => s.(tick := Some(Collect(true, Checking)))
    case TickStep(ce) =>
      s.(books := CollectEffect(s.sup, s.books, s.tick.value, ce), tick := CollectNext(s.sup, s.books, s.tick.value, ce))
    case HookStep(ce) =>
      s.(books := CollectEffect(s.sup, s.books, s.sup.holder.run, ce),
         sup := HookNext(s.sup, s.sup.holder.next, CollectNext(s.sup, s.books, s.sup.holder.run, ce)))
    case WatchdogCheck => s.(watchdog := !s.sup.running && !s.sup.stopped)
  }

  // ---------- the whole machine ----------

  predicate Enabled(s: State, e: Event) {
    match e
    case World(w) => WorldEnabled(s, w)
    case Lock(l) => LockEnabled(s, l)
    case Plan(p) => PlanEnabled(s.sup, p)
    case Process(q) => ProcessEnabled(s.sup, q)
    case Loose(o) => LooseEnabled(s, o)
  }

  function Apply(s: State, e: Event): State
    requires Enabled(s, e)
  {
    match e
    case World(w) =>
      s.(books := WorldEffect(s.books, w), sup := if w.Die? then Kill(s.sup, w.i) else s.sup)
    case Lock(l) =>
      s.(sup := LockEffect(s.sup, l),
         tick := if l.TickRestart? then None else s.tick,
         watchdog := s.watchdog && !l.WatchdogRestart?)
    case Plan(p) => s.(sup := PlanEffect(s.sup, p))
    case Process(q) =>
      s.(sup := ProcessEffect(s.sup, q),
         books := if q.Start? then s.books.(meters := s.books.meters + [map[]]) else s.books)
    case Loose(o) => LooseEffect(s, o)
  }

  /** `t` is where the events lead from `s`, each enabled in turn. */
  ghost predicate Run(s: State, es: seq<Event>, t: State)
    decreases |es|
  {
    if |es| == 0 then s == t
    else Enabled(s, es[0]) && Run(Apply(s, es[0]), es[1..], t)
  }

  ghost predicate Reachable(t: State) { exists es :: Run(INIT, es, t) }
}
