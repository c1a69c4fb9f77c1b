/** The promises of the supervisor and the collector, over every interleaving. */
module MachineTheorems {
  import opened Wrappers
  import opened Machine
  import opened MachineSafety

  // ---------- invariants of reachable states ----------

  ghost predicate Invariant(s: State) {
    Control(s.sup) && Tidy(s) && forall c: Id, up: bool :: Balanced(s, c, up)
  }

  lemma InvariantStep(s: State, e: Event)
    requires Invariant(s) && Enabled(s, e)
    ensures Invariant(Apply(s, e))
  {
    ControlStep(s, e);
    TidyStep(s, e);
    forall c: Id, up: bool ensures Balanced(Apply(s, e), c, up) { BalancedStep(s, e, c, up); }
  }

  lemma {:induction false} RunKeeps(s: State, es: seq<Event>, t: State)
    requires Invariant(s) && Run(s, es, t)
    ensures Invariant(t)
    decreases |es|
  {
    if |es| > 0 {
      InvariantStep(s, es[0]);
      RunKeeps(Apply(s, es[0]), es[1..], t);
    }
  }

  lemma ReachableInvariant(s: State)
    requires Reachable(s)
    ensures Invariant(s)
  {
    var es :| Run(INIT, es, s);
    RunKeeps(INIT, es, s);
  }

  /** At most one Xray child is alive, it is the current one whenever `mu` is free, and
      `running` then says whether there is a current child. */
  lemma OneChild(s: State)
    requires Reachable(s)
    ensures forall i: nat, j: nat :: Alive(s.sup, i) && Alive(s.sup, j) ==> i == j
    ensures s.sup.holder.Free? ==> forall i: nat :: Alive(s.sup, i) ==> s.sup.cur == Some(i)
    ensures s.sup.holder.Free? ==> (s.sup.running <==> s.sup.cur.Some?)
  {
    ReachableInvariant(s);
    forall i: nat | Alive(s.sup, i)
      ensures s.sup.cur == Some(i) || (s.sup.holder.Started? && s.sup.holder.i == i && s.sup.cur.None?)
    {
      assert ChildOk(s.sup, i);
    }
  }

  /** A late reaper never takes the current child away from a living one. */
  lemma LateReaperHarmless(s: State, q: ProcessEvent, i: nat)
    requires Reachable(s) && ProcessEnabled(s.sup, q) && (q.Reap? || q.ReapClear?)
    requires Alive(s.sup, i)
    ensures Alive(ProcessEffect(s.sup, q), i) && ProcessEffect(s.sup, q).cur == Some(i) && ProcessEffect(s.sup, q).running
  {
    ReachableInvariant(s);
    assert ChildOk(s.sup, i);
    assert ChildOk(s.sup, s.sup.holder.i);
  }

  // ---------- conservation ----------

  /** Nothing is counted twice and nothing vanishes: for every existing client, what was
      metered is stored, still in a counter, being written, or accounted as lost. */
  lemma TrafficConserved(s: State, c: Id, up: bool)
    requires Reachable(s) && c in s.books.clients
    ensures Amount(s.books.metered, c, up) ==
      Amount(s.books.db, c, up) + Unread(s.books.meters, c, up) + InFlight(s, c, up) + Amount(s.books.lost, c, up)
  {
    ReachableInvariant(s);
    assert Balanced(s, c, up);
  }

  /** The bytes a collector step gives up: a failed upsert, or a read whose answer is lost. */
  function CollectLoss(b: Books, r: Collect, e: CollectEvent, c: Id, up: bool): nat {
    match e
    case QueryLost(i) => if i < |b.meters| then Amount(b.meters[i], c, up) else 0
    case Upsert(d, stored) =>
      if !stored && d == c && r.stage.Persisting? then Amount(r.stage.pending, c, up) else 0
    case _ => 0
  }

  /** The bytes a step gives up. */
  function Loss(s: State, e: Event, c: Id, up: bool): nat {
    match e
    case World(Die(i)) => if i < |s.books.meters| then Amount(s.books.meters[i], c, up) else 0
    case Loose(TickStep(ce)) => if s.tick.Some? then CollectLoss(s.books, s.tick.value, ce, c, up) else 0
    case Loose(HookStep(ce)) => if s.sup.holder.Hooking? then CollectLoss(s.books, s.sup.holder.run, ce, c, up) else 0
    case _ => 0
  }

  lemma CollectLosses(sup: Supervisor, b: Books, r: Collect, e: CollectEvent, c: Id, up: bool)
    requires CollectEnabled(sup, b, r, e)
    ensures Amount(CollectEffect(sup, b, r, e).lost, c, up) == Amount(b.lost, c, up) + CollectLoss(b, r, e, c, up)
  {
    match e
    case QueryLost(i) => AmountAddAll(b.lost, b.meters[i], c, up);
    case Upsert(d, stored) => AmountAddEntry(b.lost, d, r.stage.pending[d], c, up);
    case _ =>
  }

  /** Bytes are lost by a child's exit with unread counters, a read whose answer is lost and
      a failed upsert, by exactly the bytes concerned, and by no other step. */
  lemma LossesExactly(s: State, e: Event, c: Id, up: bool)
    requires Enabled(s, e)
    ensures Amount(Apply(s, e).books.lost, c, up) == Amount(s.books.lost, c, up) + Loss(s, e, c, up)
  {
    match e
    case World(w) =>
      match w {
        case Die(i) => AmountAddAll(s.books.lost, s.books.meters[i], c, up);
        case _ =>
      }
    case Loose(o) =>
      match o {
        case TickStep(ce) => CollectLosses(s.sup, s.books, s.tick.value, ce, c, up);
        case HookStep(ce) => CollectLosses(s.sup, s.books, s.sup.holder.run, ce, c, up);
        case _ =>
      }
    case _ =>
  }

  // ---------- the lock ----------

  /** A step of the lock holder, or of the child it waits for: the signalled child exits,
      and its reaper closes `done` (which needs no lock). */
  predicate OwnStep(s: State, e: Event) {
    match e
    case Plan(_) => true
    case Process(_) => true
    case Loose(HookStep(_)) => true
    case World(Die(i)) => s.sup.holder.Awaiting? && s.sup.holder.i == i
    case Loose(CloseDone(i)) => s.sup.holder.Awaiting? && s.sup.holder.i == i
    case _ => false
  }

  /** How far the holder is from releasing the lock, ... */
  function Distance(h: Holder): nat {
    match h
    case Free => 0
    case Building(_) => 30
    case Comparing(_, _) => 29
    case Hooking(_, run) =>
      (match run.stage case Checking => 28 case Querying => 27 case Persisting(_) => 26 case Totalling => 25 case _ => 24)
    case Writing(_) => 20
    case Renaming(_) => 19
    case Marking => 19
    case Terminating(_) => 18
    case Awaiting(_, _) => 17
    case Dropping(_, _) => 16
    case Dropped(_) => 15
    case Spawning(_) => 14
    case Started(_, _) => 13
    case Published(_, _) => 12
    case Launching(_, _) => 11
    case Recording(_) => 10
    case Reaping(_) => 2
    case Reaped(_) => 1
  }

  /** ... and what is left of the work it is doing there: rows to write, or the exit and the
      reaping of the child. */
  function Remaining(s: State): nat {
    match s.sup.holder
    case Hooking(_, run) => if run.stage.Persisting? then |run.stage.pending| else 0
    case Awaiting(i, _) =>
      if i >= |s.sup.children| || s.sup.children[i].Done() then 0 else if s.sup.children[i].alive then 2 else 1
    case _ => 0
  }

  predicate Closer(s: State, t: State) {
    || Distance(t.sup.holder) < Distance(s.sup.holder)
    || (Distance(t.sup.holder) == Distance(s.sup.holder) && Remaining(t) < Remaining(s))
  }

  /** Every step of the holder brings the release closer ... */
  lemma OwnStepsProgress(s: State, e: Event)
    requires Reachable(s) && Enabled(s, e) && OwnStep(s, e)
    ensures Closer(s, Apply(s, e))
  {
    ReachableInvariant(s);
    match e
    case World(w) => AwaitProgress(s, e);
    case Loose(o) => if o.HookStep? { HookProgress(s, o.ce); } else { AwaitProgress(s, e); }
    case Plan(p) => PlanProgress(s, p);
    case Process(q) => ProcessProgress(s, q);
    case Lock(_) =>
  }

  lemma AwaitProgress(s: State, e: Event)
    requires Control(s.sup) && Enabled(s, e) && OwnStep(s, e) && (e.World? || (e.Loose? && e.o.CloseDone?))
    ensures Closer(s, Apply(s, e))
  {
    assert ChildOk(s.sup, s.sup.holder.i);
  }

  lemma PlanProgress(s: State, p: PlanEvent)
    requires PlanEnabled(s.sup, p)
    ensures Closer(s, Apply(s, Plan(p)))
  {
  }

  lemma ProcessProgress(s: State, q: ProcessEvent)
    requires ProcessEnabled(s.sup, q)
    ensures Closer(s, Apply(s, Process(q)))
  {
  }

  lemma HookProgress(s: State, ce: CollectEvent)
    requires HolderOk(s.sup) && LooseEnabled(s, HookStep(ce))
    ensures Closer(s, Apply(s, Loose(HookStep(ce))))
  {
    hide CollectEffect;
    if ce.Upsert? {
      var p := s.sup.holder.run.stage.pending;
      assert (p - {ce.c}).Keys == p.Keys - {ce.c} && |p - {ce.c}| == |(p - {ce.c}).Keys|;
    }
  }

  /** ... no other step moves it away or releases the lock for it ... */
  lemma OtherStepsHarmless(s: State, e: Event)
    requires Reachable(s) && Enabled(s, e) && !OwnStep(s, e) && !s.sup.holder.Free?
    ensures Apply(s, e).sup.holder == s.sup.holder
    ensures Remaining(Apply(s, e)) == Remaining(s)
  {
    hide CollectEffect, CollectNext, WorldEffect, Reachable;
    match e
    case World(w) =>
    case Loose(o) =>
    case _ =>
  }

  /** ... and while the lock is held such a step is always possible. */
  lemma OwnStepPossible(s: State) returns (e: Event)
    requires Reachable(s) && !s.sup.holder.Free?
    ensures Enabled(s, e) && OwnStep(s, e)
  {
    ReachableInvariant(s);
    var h := s.sup.holder;
    assert HolderOk(s.sup);
    hide Control, Enabled, OwnStep, HolderOk;
    if h.Hooking? {
      e := HookStepPossible(s, h.run);
    } else if h.Awaiting? {
      e := AwaitStepPossible(s, h.i);
    } else {
      e := PlainStepPossible(s);
    }
  }

  lemma PlainStepPossible(s: State) returns (e: Event)
    requires HolderOk(s.sup) && !s.sup.holder.Free? && !s.sup.holder.Hooking? && !s.sup.holder.Awaiting?
    ensures Enabled(s, e) && OwnStep(s, e)
  {
    hide LooseEnabled, LockEnabled, WorldEnabled;
    match s.sup.holder
    case Building(_) => e := Plan(BuildFails);
    case Comparing(_, _) => e := Plan(Compare);
    case Writing(_) => e := Plan(WriteDone);
    case Renaming(_) => e := Plan(RenameDone);
    case Marking => e := Plan(Mark);
    case Terminating(_) => e := Process(Terminate);
    case Dropping(_, _) => e := Process(Drop);
    case Dropped(_) => e := Process(ClearRunning);
    case Spawning(_) => e := Process(Start);
    case Started(_, _) => e := Process(Publish);
    case Published(_, _) => e := Process(SetRunning);
    case Launching(_, _) => e := Process(LaunchReaper);
    case Recording(_) => e := Process(Record);
    case Reaping(_) => e := Process(Reap);
    case Reaped(_) => e := Process(ReapClear);
  }

  lemma HookStepPossible(s: State, run: Collect) returns (e: Event)
    requires HolderOk(s.sup) && s.sup.holder.Hooking? && s.sup.holder.run == run
    ensures Enabled(s, e) && OwnStep(s, e)
  {
    match run.stage
    case Checking => e := Loose(HookStep(CheckRunning));
    case Querying => e := Loose(HookStep(QueryFails));
    case Persisting(pending) =>
      if pending == map[] {
        e := Loose(HookStep(UpsertsDone));
      } else {
        var c :| c in pending;
        e := Loose(HookStep(Upsert(c, false)));
      }
    case Totalling => e := Loose(HookStep(Totals));
    case _ => assert false;
  }

  lemma AwaitStepPossible(s: State, i: nat) returns (e: Event)
    requires Control(s.sup) && |s.books.meters| == |s.sup.children| && s.sup.holder.Awaiting? && s.sup.holder.i == i
    ensures Enabled(s, e) && OwnStep(s, e)
  {
    assert ChildOk(s.sup, i);
    if s.sup.children[i].Done() { e := Process(AwaitDone); }
    else if s.sup.children[i].alive { e := World(Die(i)); }
    else { e := Loose(CloseDone(i)); }
  }

  lemma {:induction false} RunAppend(s: State, es: seq<Event>, t: State, e: Event)
    requires Run(s, es, t) && Enabled(t, e)
    ensures Run(s, es + [e], Apply(t, e))
    decreases |es|
  {
    if |es| == 0 {
      assert (es + [e])[1..] == [];
    } else {
      RunAppend(Apply(s, es[0]), es[1..], t, e);
      assert (es + [e])[1..] == es[1..] + [e];
    }
  }

  lemma ReachableStep(s: State, e: Event)
    requires Reachable(s) && Enabled(s, e)
    ensures Reachable(Apply(s, e))
  {
    var es :| Run(INIT, es, s);
    RunAppend(INIT, es, s, e);
  }

  /** The lock never gets stuck: from every reachable state the holder's own steps lead to a
      state where `mu` is free. */
  lemma {:induction false} LockIsReleased(s: State) returns (es: seq<Event>, t: State)
    requires Reachable(s)
    ensures Run(s, es, t) && t.sup.holder.Free?
    decreases Distance(s.sup.holder), Remaining(s)
  {
    if s.sup.holder.Free? {
      es, t := [], s;
    } else {
      var e := OwnStepPossible(s);
      OwnStepsProgress(s, e);
      ReachableStep(s, e);
      var rest;
      rest, t := LockIsReleased(Apply(s, e));
      es := [e] + rest;
      assert es[1..] == rest;
    }
  }

  /** The holder runs the hook, and the hook is at the sync: reading `active`, or asking for
      a restart. */
  predicate InSync(h: Holder) { h.Hooking? && (h.run.stage.Reading? || h.run.stage.Asking?) }

  lemma InSyncStays(s: State, e: Event)
    requires InSync(s.sup.holder) && Enabled(s, e)
    ensures Apply(s, e).sup.holder == s.sup.holder
  {
    hide CollectEffect, WorldEffect, CollectNext, PlanEffect, ProcessEffect, LockEffect;
    match e
    case World(_) =>
    case Loose(o) => assert !o.HookStep?;
    case _ => assert false;
  }

  /** Why the hook runs with doSync=false: at the sync it waits for the lock its own goroutine
      holds, and then no run, however long, ever frees the lock. */
  lemma {:induction false} SyncingHookDeadlocks(s: State, es: seq<Event>, t: State)
    requires InSync(s.sup.holder) && Run(s, es, t)
    ensures t.sup.holder == s.sup.holder
    decreases |es|
  {
    hide Apply, Enabled;
    if |es| > 0 {
      InSyncStays(s, es[0]);
      SyncingHookDeadlocks(Apply(s, es[0]), es[1..], t);
    }
  }

  /** And a hook started with doSync=true over a live child can get there. */
  lemma SyncingHookArrives(s: State, i: nat) returns (es: seq<Event>, t: State)
    requires s.sup.holder.Hooking? && s.sup.holder.run == Collect(true, Checking)
    requires s.sup.running && Alive(s.sup, i) && i < |s.books.meters|
    ensures Run(s, es, t) && InSync(t.sup.holder)
  {
    es, t := [], s;
    assert Run(s, es, t) && Unasked(es);
    hide Run, CollectEffect;
    es, t := Extend(s, es, t, Loose(HookStep(CheckRunning)));
    es, t := Extend(s, es, t, Loose(HookStep(QueryOk(i))));
    es, t := DrainHook(s, es, t);
    es, t := Extend(s, es, t, Loose(HookStep(Totals)));
    es, t := Extend(s, es, t, Loose(HookStep(Load([]))));
  }

  lemma {:induction false} DrainHook(s: State, es: seq<Event>, t: State) returns (es': seq<Event>, t': State)
    requires Run(s, es, t) && Unasked(es) && t.sup.holder.Hooking? && t.sup.holder.run.stage.Persisting?
    ensures Run(s, es', t') && Unasked(es')
    ensures t'.sup.holder == Hooking(t.sup.holder.next, t.sup.holder.run.(stage := Totalling))
    decreases |t.sup.holder.run.stage.pending|
  {
    hide Run, CollectEffect;
    var p := t.sup.holder.run.stage.pending;
    if p == map[] {
      es', t' := Extend(s, es, t, Loose(HookStep(UpsertsDone)));
    } else {
      var c :| c in p;
      assert (p - {c}).Keys == p.Keys - {c};
      es', t' := Extend(s, es, t, Loose(HookStep(Upsert(c, false))));
      es', t' := DrainHook(s, es', t');
    }
  }

  /** `SetPersistUsage` installs the hook for good. */
  lemma {:induction false} HookStays(s: State, es: seq<Event>, t: State)
    requires Run(s, es, t) && (s.sup.hook || (es != [] && es[0] == Lock(InstallHook)))
    ensures t.sup.hook
    decreases |es|
  {
    if |es| > 0 {
      InstalledStep(s, es[0]);
      HookStays(Apply(s, es[0]), es[1..], t);
    }
  }

  lemma InstalledStep(s: State, e: Event)
    requires Enabled(s, e)
    ensures s.sup.hook || e == Lock(InstallHook) ==> Apply(s, e).sup.hook
  {
    hide CollectEffect, CollectNext, WorldEffect, CollectEnabled;
  }

  /** Where the holder can be before it has decided to touch the child. */
  predicate Undecided(h: Holder) { h.Free? || h.Building? || h.Comparing? || h.Reaping? || h.Reaped? }

  ghost predicate PassesHook(s: State, es: seq<Event>) {
    exists k, m :: 0 <= k <= |es| && Run(s, es[..k], m) && m.sup.holder.Hooking?
  }

  lemma UndecidedStep(s: State, e: Event)
    requires s.sup.hook && Undecided(s.sup.holder) && Enabled(s, e)
    ensures Apply(s, e).sup.hook && (Undecided(Apply(s, e).sup.holder) || Apply(s, e).sup.holder.Hooking?)
  {
    hide CollectEffect, CollectNext, WorldEffect, CollectEnabled, SetReaper, WorldEnabled;
    match e
    case World(_) =>
    case Lock(_) =>
    case Plan(_) =>
    case Process(q) => assert q.Reap? || q.ReapClear?;
    case Loose(_) =>
  }

  /** With `PersistUsage` installed no child is signalled before the hook has run: every run
      from a state in which nothing is decided to one inside `stopLocked` passes the hook. */
  lemma {:induction false} HookComesFirst(s: State, es: seq<Event>, t: State)
    requires s.sup.hook && Undecided(s.sup.holder) && Run(s, es, t)
    requires !Undecided(t.sup.holder) && !t.sup.holder.Hooking?
    ensures PassesHook(s, es)
    decreases |es|
  {
    hide Apply, Enabled;
    if |es| > 0 {
      var s1 := Apply(s, es[0]);
      UndecidedStep(s, es[0]);
      var k, m;
      if s1.sup.holder.Hooking? {
        k, m := 0, s1;
        assert Run(s1, es[1..][..0], s1);
      } else {
        HookComesFirst(s1, es[1..], t);
        k, m :| 0 <= k <= |es[1..]| && Run(s1, es[1..][..k], m) && m.sup.holder.Hooking?;
      }
      assert es[..k + 1][1..] == es[1..][..k] && es[..k + 1][0] == es[0];
      assert Run(s, es[..k + 1], m);
    }
  }

  // ---------- restarts ----------

  /** The fingerprint tells the rendered configs of these builds apart. */
  ghost predicate Injective(builds: set<Build>) {
    forall a, b :: a in builds && b in builds && a.fp == b.fp ==> a.config == b.config
  }

  /** `Restart` returns success: by skipping, or after recording the new child. */
  predicate Succeeds(s: State, e: Event) {
    && Enabled(s, e)
    && (e == Process(Record) || (e == Plan(Compare) && Apply(s, e).sup.holder.Free?))
  }

  /** A `Restart` that returns success leaves a current child launched from the config it
      just built, even after failed writes, renames or spawns before it. */
  lemma RestartIsSound(s: State, e: Event)
    requires Reachable(s) && Succeeds(s, e) && Injective(s.sup.builds)
    ensures
      var b, t := s.sup.holder.b, Apply(s, e).sup;
      && t.running && t.cur.Some? && t.cur.value < |t.children|
      && t.children[t.cur.value].build.config == b.config
      && t.fingerprint == Some(b.fp) && t.active == b.active
  {
    ReachableInvariant(s);
  }

  /** At every release the fingerprint describes the running child, and `active` is the
      client list of a build with that fingerprint. */
  lemma FingerprintDescribesChild(s: State)
    requires Reachable(s) && s.sup.holder.Free? && s.sup.running
    ensures s.sup.cur.Some? && s.sup.cur.value < |s.sup.children|
    ensures s.sup.fingerprint == Some(s.sup.children[s.sup.cur.value].build.fp)
    ensures exists b :: b in s.sup.builds && s.sup.fingerprint == Some(b.fp) && b.active == s.sup.active
  {
    ReachableInvariant(s);
    assert s.sup.source.value in s.sup.builds;
  }

  /** A restart that nobody forces (the tick's and the watchdog's never are) and whose build
      shows nothing new leaves the running child alone ... */
  lemma UnchangedIsSkipped(s: State, l: LockEvent, b: Build) returns (t: State)
    requires LockEnabled(s, l) && (l == AskRestart(false) || l.TickRestart? || l.WatchdogRestart?)
    requires s.sup.running && s.sup.fingerprint == Some(b.fp)
    ensures Run(s, [Lock(l), Plan(BuildDone(b)), Plan(Compare)], t)
    ensures t.sup.holder.Free? && t.sup.children == s.sup.children && t.sup.cur == s.sup.cur && t.sup.running && t.sup.active == b.active
  {
    var s1 := Apply(s, Lock(l));
    var s2 := Apply(s1, Plan(BuildDone(b)));
    t := Apply(s2, Plan(Compare));
    ThreeSteps(s, Lock(l), Plan(BuildDone(b)), Plan(Compare), t);
  }

  /** ... while a forced one, and one that shows something new, goes on to replace it. */
  lemma ChangedIsReplaced(s: State, l: LockEvent, b: Build) returns (t: State)
    requires LockEnabled(s, l) && (l.AskRestart? || l.TickRestart? || l.WatchdogRestart?)
    requires l == AskRestart(true) || !s.sup.running || s.sup.fingerprint != Some(b.fp)
    ensures Run(s, [Lock(l), Plan(BuildDone(b)), Plan(Compare)], t)
    ensures t.sup.holder == if s.sup.hook then Hooking(ThenSpawn(b), Collect(false, Checking)) else Writing(b)
  {
    var s1 := Apply(s, Lock(l));
    var s2 := Apply(s1, Plan(BuildDone(b)));
    t := Apply(s2, Plan(Compare));
    ThreeSteps(s, Lock(l), Plan(BuildDone(b)), Plan(Compare), t);
  }

  lemma ThreeSteps(s: State, a: Event, b: Event, c: Event, t: State)
    requires Enabled(s, a) && Enabled(Apply(s, a), b) && Enabled(Apply(Apply(s, a), b), c)
    requires t == Apply(Apply(Apply(s, a), b), c)
    ensures Run(s, [a, b, c], t)
  {
    hide Enabled, Apply;
    assert [a, b, c][1..] == [b, c] && [b, c][1..] == [c] && [c][1..] == [];
    assert Run(t, [], t);
    assert Run(Apply(Apply(s, a), b), [c], t);
    assert Run(Apply(s, a), [b, c], t);
  }

  // ---------- shutdown ----------

  /** `Stop` inside `stopLocked`. */
  predicate Stopping(h: Holder) {
    match h
    case Terminating(next) => next.ThenLeave?
    case Dropping(_, next) => next.ThenLeave?
    case Dropped(next) => next.ThenLeave?
    case _ => false
  }

  /** When `Stop` releases the lock the flag is set and no child is left, alive or current. */
  lemma StopLeavesNothing(s: State, q: ProcessEvent)
    requires Reachable(s) && ProcessEnabled(s.sup, q) && Stopping(s.sup.holder)
    requires ProcessEffect(s.sup, q).holder.Free?
    ensures
      var t := ProcessEffect(s.sup, q);
      t.stopped && t.cur.None? && !t.running && forall i: nat :: !Alive(t, i)
  {
    ReachableInvariant(s);
    forall i: nat ensures !Alive(ProcessEffect(s.sup, q), i) {
      if i < |s.sup.children| { assert ChildOk(s.sup, i); }
    }
  }

  /** Runs in which no handler asks for a restart: only the program's own goroutines go on. */
  predicate Unasked(es: seq<Event>) { forall i :: 0 <= i < |es| ==> !(es[i].Lock? && es[i].l.AskRestart?) }

  /** A collector tick that is past its `Running` test and its query, and can still find that
      the admitted clients differ from the active ones. */
  predicate MayAsk(s: State) {
    && s.tick.Some?
    && match s.tick.value.stage
       case Persisting(_) => s.tick.value.doSync
       case Totalling => s.tick.value.doSync
       case Loading => true
       case Reading(want) => !SameIds(want, s.sup.active)
       case Asking => true
       case _ => false
  }

  predicate Leaving(next: Next) { next.ThenLeave? }

  predicate QuietHolder(h: Holder) {
    match h
    case Free => true
    case Hooking(next, _) => Leaving(next)
    case Marking => true
    case Terminating(next) => Leaving(next)
    case Reaping(_) => true
    case _ => false
  }

  /** After `Stop`, no goroutine is on its way to a spawn. */
  ghost predicate Quiet(s: State) {
    && Control(s.sup) && s.sup.stopped && s.sup.cur.None? && !s.sup.running
    && !s.watchdog && !MayAsk(s) && QuietHolder(s.sup.holder)
  }

  lemma NobodyAlive(s: State, i: nat)
    requires Quiet(s)
    ensures !Alive(s.sup, i)
  {
    if i < |s.sup.children| { assert ChildOk(s.sup, i); }
  }

  lemma QuietTick(s: State, ce: CollectEvent)
    requires Quiet(s) && LooseEnabled(s, TickStep(ce))
    ensures !MayAsk(Apply(s, Loose(TickStep(ce))))
  {
    hide CollectEffect, Control;
    match ce
    case QueryOk(i) => NobodyAlive(s, i);
    case QueryLost(i) => NobodyAlive(s, i);
    case _ =>
  }

  lemma QuietLoose(s: State, o: LooseEvent)
    requires Quiet(s) && LooseEnabled(s, o)
    ensures
      var t := LooseEffect(s, o);
      t.sup.stopped && t.sup.cur.None? && !t.sup.running && !t.watchdog && !MayAsk(t) && QuietHolder(t.sup.holder)
      && |t.sup.children| == |s.sup.children|
  {
    hide CollectEffect, CollectNext, Control;
    if o.TickStep? { QuietTick(s, o.ce); }
  }

  lemma QuietWorld(s: State, w: WorldEvent)
    requires Quiet(s) && WorldEnabled(s, w)
    ensures !w.Meter? && !w.Die?
  {
    match w
    case Meter(i, _, _) => NobodyAlive(s, i);
    case Die(i) => NobodyAlive(s, i);
    case _ =>
  }

  lemma QuietStep(s: State, e: Event)
    requires Quiet(s) && Enabled(s, e) && Unasked([e])
    ensures Quiet(Apply(s, e)) && |Apply(s, e).sup.children| == |s.sup.children|
  {
    ControlStep(s, e);
    assert [e][0] == e;
    hide Control, CollectEffect, CollectNext, WorldEffect;
    match e
    case World(w) => QuietWorld(s, w);
    case Loose(o) => QuietLoose(s, o);
    case _ =>
  }

  lemma {:induction false} QuietRun(s: State, es: seq<Event>, t: State)
    requires Quiet(s) && Run(s, es, t) && Unasked(es)
    ensures |t.sup.children| == |s.sup.children|
    decreases |es|
  {
    hide Quiet, Apply, Enabled;
    if |es| > 0 {
      assert Unasked([es[0]]) by { assert [es[0]][0] == es[0]; }
      QuietStep(s, es[0]);
      assert Unasked(es[1..]);
      QuietRun(Apply(s, es[0]), es[1..], t);
    }
  }

  ghost predicate CanSpawn(s: State) {
    exists es, t :: Run(s, es, t) && Unasked(es) && |t.sup.children| > |s.sup.children|
  }

  lemma Extend(s: State, es: seq<Event>, t: State, e: Event) returns (es': seq<Event>, t': State)
    requires Run(s, es, t) && Unasked(es) && Enabled(t, e) && Unasked([e])
    ensures t' == Apply(t, e) && Run(s, es', t') && Unasked(es')
  {
    es', t' := es + [e], Apply(t, e);
    RunAppend(s, es, t, e);
    assert [e][0] == e;
  }

  lemma SpawnFromWriting(s: State, es: seq<Event>, t: State)
    requires Run(s, es, t) && Unasked(es)
    requires t.sup.holder.Writing? && t.sup.cur.None? && |t.sup.children| == |s.sup.children|
    ensures CanSpawn(s)
  {
    hide Run;
    var es1, t1 := Extend(s, es, t, Plan(WriteDone));
    var es2, t2 := Extend(s, es1, t1, Plan(RenameDone));
    var es3, t3 := Extend(s, es2, t2, Process(Terminate));
    var es4, t4 := Extend(s, es3, t3, Process(Start));
  }

  lemma SpawnFromBuilding(s: State, es: seq<Event>, t: State)
    requires Run(s, es, t) && Unasked(es)
    requires t.sup.holder == Building(false) && t.sup.cur.None? && !t.sup.running && |t.sup.children| == |s.sup.children|
    ensures CanSpawn(s)
  {
    hide Run;
    var es1, t1 := Extend(s, es, t, Plan(BuildDone(Build("", "", []))));
    var es2, t2 := Extend(s, es1, t1, Plan(Compare));
    if t.sup.hook {
      es2, t2 := Extend(s, es2, t2, Loose(HookStep(CheckRunning)));
    }
    SpawnFromWriting(s, es2, t2);
  }

  /** The watchdog's way from its stale observation to a new child. */
  lemma StaleWatchdogSpawns(s: State)
    requires s.watchdog && s.sup.holder.Free? && s.sup.cur.None? && !s.sup.running
    ensures CanSpawn(s)
  {
    var es, t := Extend(s, [], s, Lock(WatchdogRestart));
    SpawnFromBuilding(s, es, t);
  }

  /** A tick can finish its upserts, even if all of them fail. */
  lemma {:induction false} DrainTick(s: State, es: seq<Event>, t: State) returns (es': seq<Event>, t': State)
    requires Run(s, es, t) && Unasked(es) && t.tick.Some? && t.tick.value.stage.Persisting?
    ensures Run(s, es', t') && Unasked(es') && t'.sup == t.sup
    ensures t'.tick == Some(t.tick.value.(stage := Totalling))
    decreases |t.tick.value.stage.pending|
  {
    hide Run, CollectEffect;
    var p := t.tick.value.stage.pending;
    if p == map[] {
      es', t' := Extend(s, es, t, Loose(TickStep(UpsertsDone)));
    } else {
      var c :| c in p;
      assert (p - {c}).Keys == p.Keys - {c};
      es', t' := Extend(s, es, t, Loose(TickStep(Upsert(c, false))));
      es', t' := DrainTick(s, es', t');
    }
  }

  /** From the totals on, the tick can find a difference and ask. */
  lemma AskFromTotals(s: State, es: seq<Event>, t: State) returns (es': seq<Event>, t': State)
    requires Run(s, es, t) && Unasked(es) && t.sup.holder.Free?
    requires t.tick.Some? && (t.tick.value.stage.Loading? || (t.tick.value.stage.Totalling? && t.tick.value.doSync))
    ensures Run(s, es', t') && Unasked(es') && t'.sup == t.sup && t'.tick.Some? && t'.tick.value.stage.Asking?
  {
    hide Run;
    es', t' := es, t;
    if t'.tick.value.stage.Totalling? { es', t' := Extend(s, es', t', Loose(TickStep(Totals))); }
    var want := t.sup.active + [""];
    assert |multiset(want)| == |want| && |multiset(t.sup.active)| == |t.sup.active|;
    assert !SameIds(want, t.sup.active);
    es', t' := Extend(s, es', t', Loose(TickStep(Load(want))));
    es', t' := Extend(s, es', t', Loose(TickStep(ReadActive)));
  }

  /** The collector's way from a tick in flight to a new child. */
  lemma PendingTickSpawns(s: State)
    requires MayAsk(s) && s.sup.holder.Free? && s.sup.cur.None? && !s.sup.running
    ensures CanSpawn(s)
  {
    var es: seq<Event>, t := [], s;
    assert Run(s, es, t) && Unasked(es);
    assert Unasked([Loose(TickStep(ReadActive))]) && Unasked([Lock(TickRestart)]);
    hide Run, Unasked;
    match s.tick.value.stage {
      case Persisting(_) =>
        es, t := DrainTick(s, es, t);
        es, t := AskFromTotals(s, es, t);
      case Reading(_) => es, t := Extend(s, es, t, Loose(TickStep(ReadActive)));
      case Asking =>
      case _ => es, t := AskFromTotals(s, es, t);
    }
    es, t := Extend(s, es, t, Lock(TickRestart));
    SpawnFromBuilding(s, es, t);
  }

  /** `Stop` is not final by itself: once it has returned and no handler asks, a child can
      still be spawned exactly when a watchdog iteration had observed `dead` beforehand, or
      when a collector tick was in flight that can still find a difference. */
  lemma StopIsFinalExactly(s: State)
    requires Reachable(s) && s.sup.stopped && s.sup.holder.Free? && s.sup.cur.None?
    ensures CanSpawn(s) <==> s.watchdog || MayAsk(s)
  {
    ReachableInvariant(s);
    if s.watchdog {
      StaleWatchdogSpawns(s);
    } else if MayAsk(s) {
      PendingTickSpawns(s);
    } else {
      forall es, t | Run(s, es, t) && Unasked(es) ensures |t.sup.children| == |s.sup.children| { QuietRun(s, es, t); }
    }
  }

  // ---------- both ways do occur ----------

  /** The watchdog looks, then `Stop` runs: the flag comes too late. */
  lemma StaleWatchdogAfterStop() returns (s: State)
    ensures Reachable(s) && s.sup.stopped && s.sup.holder.Free? && s.sup.cur.None? && s.watchdog
    ensures CanSpawn(s)
  {
    assert Run(INIT, [], INIT) && Reachable(INIT);
    hide Run, Reachable;
    s := INIT;
    s := Reach(s, Loose(WatchdogCheck));
    s := Reach(s, Lock(AskStop));
    s := Reach(s, Plan(Mark));
    s := Reach(s, Process(Terminate));
    StaleWatchdogSpawns(s);
  }

  lemma Reach(s: State, e: Event) returns (t: State)
    requires Reachable(s) && Enabled(s, e)
    ensures t == Apply(s, e) && Reachable(t)
  {
    ReachableStep(s, e);
    t := Apply(s, e);
  }

  /** A first child, with nothing else going on. */
  lemma FirstChild() returns (s: State)
    ensures Reachable(s) && s.sup.holder.Free? && s.sup.cur == Some(0) && s.sup.running && !s.sup.hook
    ensures s.sup.children == [Child(true, Build("", "", []), Waiting)] && |s.books.meters| == 1 && s.books.meters[0] == map[]
    ensures s.tick.None? && !s.watchdog && !s.sup.stopped
  {
    assert Run(INIT, [], INIT) && Reachable(INIT);
    hide Run, Reachable;
    s := PlanFirst(INIT);
    s := StartFirst(s);
  }

  lemma PlanFirst(s0: State) returns (s: State)
    requires Reachable(s0) && s0.sup.holder.Free? && !s0.sup.running && !s0.sup.hook
    ensures Reachable(s)
    ensures s == s0.(sup := s0.sup.(holder := Terminating(ThenSpawn(Build("", "", []))), file := Some(Build("", "", [])),
                                    builds := s0.sup.builds + {Build("", "", [])}))
  {
    hide Run, Reachable;
    s := s0;
    s := Reach(s, Lock(AskRestart(false)));
    s := Reach(s, Plan(BuildDone(Build("", "", []))));
    s := Reach(s, Plan(Compare));
    s := Reach(s, Plan(WriteDone));
    s := Reach(s, Plan(RenameDone));
  }

  lemma StartFirst(s0: State) returns (s: State)
    requires Reachable(s0) && s0.sup.holder == Terminating(ThenSpawn(Build("", "", []))) && s0.sup.cur.None?
    requires s0.sup.file == Some(Build("", "", [])) && s0.sup.children == [] && s0.books.meters == []
    ensures Reachable(s)
    ensures s.sup == s0.sup.(holder := Free, cur := Some(0), running := true, fingerprint := Some(""), active := [],
                             source := Some(Build("", "", [])), children := [Child(true, Build("", "", []), Waiting)])
    ensures s.books == s0.books.(meters := [map[]]) && s.tick == s0.tick && s.watchdog == s0.watchdog
  {
    hide Run, Reachable;
    s := s0;
    s := Reach(s, Process(Terminate));
    s := Reach(s, Process(Start));
    s := FinishSpawn(s);
  }

  lemma FinishSpawn(s0: State) returns (s: State)
    requires Reachable(s0) && s0.sup.holder == Started(Build("", "", []), 0) && |s0.sup.children| == 1
    ensures Reachable(s)
    ensures s == s0.(sup := s0.sup.(holder := Free, cur := Some(0), running := true, fingerprint := Some(""), active := [],
                                    source := Some(Build("", "", [])), children := [s0.sup.children[0].(reaper := Waiting)]))
  {
    hide Run, Reachable;
    s := s0;
    s := Reach(s, Process(Publish));
    s := Reach(s, Process(SetRunning));
    s := Reach(s, Process(LaunchReaper));
    s := Reach(s, Process(Record));
  }

  /** A tick has read the counters when `Stop` runs: it goes on and restarts Xray. */
  lemma PendingTickAfterStop() returns (s: State)
    ensures Reachable(s) && s.sup.stopped && s.sup.holder.Free? && s.sup.cur.None? && !s.watchdog && MayAsk(s)
    ensures CanSpawn(s)
  {
    hide Run, Reachable;
    s := FirstChild();
    s := Reach(s, Loose(TickStart));
    s := Reach(s, Loose(TickStep(CheckRunning)));
    s := Reach(s, Loose(TickStep(QueryOk(0))));
    s := StopWithChild(s);
    StopEndsIdle(s);
    PendingTickSpawns(s);
  }

  lemma StopEndsIdle(s: State)
    requires Reachable(s) && s.sup.holder.Free? && s.sup.cur.None?
    ensures !s.sup.running
  {
    ReachableInvariant(s);
  }

  /** `Stop` with a live child: signal, exit, reaper, clean-up. */
  lemma StopWithChild(s0: State) returns (s: State)
    requires Reachable(s0) && s0.sup.holder.Free? && s0.sup.cur == Some(0) && !s0.sup.hook && s0.sup.running
    requires |s0.sup.children| == |s0.books.meters| == 1 && s0.sup.children[0].alive && s0.sup.children[0].reaper.Waiting?
    ensures Reachable(s) && s.sup.stopped && s.sup.holder.Free? && s.sup.cur.None?
    ensures s.tick == s0.tick && s.watchdog == s0.watchdog && s.sup.active == s0.sup.active
  {
    hide Run, Reachable;
    s := s0;
    s := Reach(s, Lock(AskStop));
    s := Reach(s, Plan(Mark));
    s := Reach(s, Process(Terminate));
    s := Reach(s, World(Die(0)));
    s := Reach(s, Loose(CloseDone(0)));
    s := Reach(s, Process(AwaitDone));
    s := Reach(s, Process(Drop));
    s := Reach(s, Process(ClearRunning));
  }
}
