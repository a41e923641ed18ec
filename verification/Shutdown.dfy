/** An orderly shutdown: once it has begun and nothing is started any more, the restart
    queue stays empty, nothing is spawned, and units only ever lose their processes. */
module Shutdown {
  import opened Config
  import opened Registry
  import opened Kernel
  import opened Supervisor
  import opened Bookkeeping
  import opened Stopping
  import opened Restarts
  import opened Runs

  ghost predicate GoingDown(s: Sup) {
    s.shuttingDown && s.pending == []
  }

  /** The units that have a process. */
  ghost function Holders(s: Sup): set<UnitId> {
    set u: UnitId | u < |s.units| && s.units[u].pid.Some?
  }

  /** The calls went on without a spawn. */
  ghost predicate NoSpawn(a: seq<Effect>, b: seq<Effect>) {
    a <= b && forall i :: |a| <= i < |b| ==> !b[i].Spawned?
  }

  ghost predicate Descends(s: Sup, r: Sup) {
    GoingDown(r) && Holders(r) <= Holders(s) && NoSpawn(Calls(s.world.log), Calls(r.world.log))
  }

  predicate IsStart(e: Event) {
    e.Start? || e.Restart? || e.Enable?
  }

  lemma DescendsTrans(a: Sup, b: Sup, c: Sup)
    requires Descends(a, b) && Descends(b, c)
    ensures Descends(a, c)
  {
  }

  // ---------- Restarts are never queued during a shutdown ----------

  ghost predicate QueueOff(s: Sup) {
    s.shuttingDown ==> s.pending == []
  }

  lemma {:induction false} ReapAllQueueOff(s: Sup)
    requires Shaped(s) && QueueOff(s)
    ensures QueueOff(ReapAll(s))
    decreases |s.world.script|, Left(s.world)
  {
    hide WaitAny, MaybeSchedule;
    WaitAnyShrinks(s.world);
    var (child, w) := WaitAny(s.world);
    if child.Some? { ReapAllQueueOff(OnChildExit(s.(world := w), child.value.pid, child.value.status)); }
  }

  lemma StopUnitQueue(s: Sup, name: string)
    requires Sound(s)
    ensures StopUnit(s, name).shuttingDown == s.shuttingDown && (s.pending == [] ==> StopUnit(s, name).pending == [])
  {
    hide PidsKnown, WorldInv, StopPlan, StopPlanned, DropNotes;
    if StopPlan(s.reg, name).Plan? {
      StopOrderValid(s.reg, name);
      var order := StopPlan(s.reg, name).order;
      StopPlannedUnits(s, order);
      DropPlanFacts(s.pending, order);
      NoneLeft(s.pending, DropPlan(s.pending, order));
    }
  }

  lemma NoneLeft(a: seq<PendingRestart>, b: seq<PendingRestart>)
    requires forall p :: p in b ==> p in a
    ensures a == [] ==> b == []
  {
    if b != [] { assert b[0] in b; }
  }

  lemma StepQueueOff(s: Sup, e: Event)
    requires Invariant(s) && QueueOff(s)
    ensures QueueOff(Step(s, e))
  {
    hide NothingLost, PidsKnown, WorldInv, Accounted, StartNamed, StopUnit, FireDue, SameUnits, EnabledRegistry, Advance, ReapAll;
    match e
    case Wait =>
    case ReadSigchld => ReapAllQueueOff(s.(world := s.world.(sigchld := false)));
    case Terminate =>
    case Timer =>
      FireDueAccounted(s);
      NoneLeft(s.pending, NotDue(s.pending, s.world.now));
    case Start(name) => StartNamedKeeps(s, name);
    case Stop(name) => StopUnitQueue(s, name);
    case Restart(name) =>
      StopUnitQueue(s, name);
      StopUnitKeeps(s, name);
      StartNamedKeeps(StopUnit(s, name), name);
    case Enable(name, reach) =>
      EnabledRegistryShaped(s, name, reach);
      var r := EnabledRegistry(s.reg, name, reach);
      if r.Some? {
        OtherEdgesKeep(s, r.value);
        if reach.Complete? { StartNamedKeeps(s.(reg := r.value), name); }
      }
    case Disable(name) => StopUnitQueue(s, name);
  }

  lemma {:induction false} RunQueueOff(s: Sup, events: seq<Event>)
    requires Invariant(s) && QueueOff(s)
    ensures QueueOff(Run(s, events))
    decreases |events|
  {
    hide NothingLost, Sound, Accounted, Step, QueueOff;
    if events != [] {
      StepQueueOff(s, events[0]);
      StepKeeps(s, events[0]);
      RunQueueOff(Step(s, events[0]), events[1..]);
    }
  }

  // ---------- One event ----------

  lemma SameCalls(s: Sup, r: Sup)
    requires GoingDown(r) && r.units == s.units && Calls(r.world.log) == Calls(s.world.log)
    ensures Descends(s, r)
  {
  }

  /** The exit of a recorded process frees exactly its unit. */
  lemma ExitFrees(s: Sup, pid: Pid, st: Status)
    requires Shaped(s) && pid in s.byPid
    ensures Holders(OnChildExit(s, pid, st)) == Holders(s) - {s.byPid[pid]}
  {
    hide Consider, LimitInterval, RestartDelay;
    var r := OnChildExit(s, pid, st);
    forall u: UnitId | u < |s.units| ensures u in Holders(r) <==> u in Holders(s) && u != s.byPid[pid] {}
  }

  lemma ExitDescends(s: Sup, pid: Pid, st: Status)
    requires Shaped(s) && GoingDown(s)
    ensures var r := OnChildExit(s, pid, st); GoingDown(r) && Holders(r) <= Holders(s) && r.world == s.world
  {
    if pid in s.byPid { ExitFrees(s, pid, st); }
  }

  lemma {:induction false} ReapAllDescends(s: Sup)
    requires Sound(s) && GoingDown(s)
    ensures Descends(s, ReapAll(s))
    decreases |s.world.script|, Left(s.world)
  {
    hide PidsKnown, WorldInv, WaitAny, OnChildExit, Calls, Holders, IsUnreaped;
    WaitAnyShrinks(s.world);
    SoundWorld(s);
    WaitAnyKeeps(s.world);
    var (child, w) := WaitAny(s.world);
    if child.Some? {
      var s1 := OnChildExit(s.(world := w), child.value.pid, child.value.status);
      CollectSound(s);
      ExitDescends(s.(world := w), child.value.pid, child.value.status);
      HoldersOfUnits(s, s.(world := w));
      ReapAllDescends(s1);
      DescendsTrans(s, s1, ReapAll(s));
    } else {
      HoldersOfUnits(s, s.(world := w));
    }
  }

  lemma HoldersOfUnits(s: Sup, r: Sup)
    requires r.units == s.units
    ensures Holders(r) == Holders(s)
  {
  }

  lemma StopCallsSpawnNothing(a: seq<Effect>, pids: seq<Pid>, at: nat, b: seq<Effect>, t: nat)
    requires DrainCalls(a + Terms(pids, at), b, t)
    ensures NoSpawn(a, b)
  {
    var terms := Terms(pids, at);
    forall i | |a| <= i < |b| ensures !b[i].Spawned? {
      if i < |a + terms| { assert b[i] == (a + terms)[i]; }
    }
  }

  lemma StopUnitDescends(s: Sup, name: string)
    requires Sound(s) && GoingDown(s)
    ensures Descends(s, StopUnit(s, name))
  {
    hide PidsKnown, WorldInv, StopPlan, StopPlanned, DropNotes, DrainCalls, Calls, Terms, Forgot, DropPlan, NoSpawn;
    SoundShaped(s);
    StopUnitQueue(s, name);
    if StopPlan(s.reg, name).Plan? {
      StopOrderValid(s.reg, name);
      var order := StopPlan(s.reg, name).order;
      StopPlannedUnits(s, order);
      StopPlannedSound(s, order);
      StopCallsSpawnNothing(Calls(s.world.log), PidsOf(s.units, order), s.world.now, Calls(StopUnit(s, name).world.log), s.world.now + Grace(s.reg, order));
      StoppedHolders(s, StopUnit(s, name), order);
    } else {
      NoSpawnItself(Calls(s.world.log));
    }
  }

  lemma NoSpawnItself(a: seq<Effect>)
    ensures NoSpawn(a, a)
  {
  }

  lemma StoppedHolders(s: Sup, r: Sup, plan: seq<UnitId>)
    requires Stopped(s, r, plan)
    ensures Holders(r) <= Holders(s)
  {
    hide DropPlan, DropNotes;
    forall u: UnitId | u < |r.units| && r.units[u].pid.Some? ensures s.units[u].pid.Some? {
      assert u !in plan;
    }
  }

  lemma EmptyTimer(s: Sup)
    requires Shaped(s) && s.pending == []
    ensures FireDue(s) == s
  {
    assert s.journal + [] == s.journal;
    assert s.(pending := [], journal := s.journal) == s;
  }

  lemma StepDescends(s: Sup, e: Event)
    requires Invariant(s) && GoingDown(s) && !IsStart(e)
    ensures Descends(s, Step(s, e))
  {
    hide NothingLost, PidsKnown, WorldInv, Accounted, Holders, StopUnit, FireDue, SameUnits, Advance, ReapAll, NoSpawn, Calls;
    SoundWorld(s);
    SameCalls(s, s);
    match e
    case Wait =>
      AdvanceKeeps(s.world);
      SameCalls(s, s.(world := Advance(s.world)));
    case ReadSigchld =>
      var s1 := s.(world := s.world.(sigchld := false));
      UnflaggedSound(s);
      SameCalls(s, s1);
      ReapAllDescends(s1);
      DescendsTrans(s, s1, ReapAll(s1));
    case Terminate =>
    case Timer => EmptyTimer(s);
    case Stop(name) => StopUnitDescends(s, name);
    case Disable(name) => StopUnitDescends(s, name);
  }

  lemma {:induction false} RunDescends(s: Sup, events: seq<Event>)
    requires Invariant(s) && GoingDown(s) && forall e :: e in events ==> !IsStart(e)
    ensures Descends(s, Run(s, events))
    decreases |events|
  {
    hide NothingLost, Sound, Accounted, Step, GoingDown, IsStart, Holders, NoSpawn, Calls;
    if events == [] {
      SameCalls(s, s);
    } else {
      assert events[0] in events && forall e :: e in events[1..] ==> e in events;
      StepDescends(s, events[0]);
      StepKeeps(s, events[0]);
      RunDescends(Step(s, events[0]), events[1..]);
      DescendsTrans(s, Step(s, events[0]), Run(s, events));
    }
  }

  /** After any run, a shutdown request followed by anything but starts: no restart is
      queued, nothing is spawned, and the units with a process only get fewer. */
  lemma OrderlyShutdown(reg: UnitTable, target: string, script: seq<Round>, now: nat, before: seq<Event>, after: seq<Event>)
    requires WellFormed(reg) && StartPlan(reg, target).Plan? && forall e :: e in after ==> !IsStart(e)
    ensures var s := Run(Boot(reg, target, script, now), before);
      var s1 := Step(s, Terminate);
      GoingDown(s1) && Descends(s1, Run(s1, after))
  {
    hide Boot, Run, NothingLost, Sound, Accounted, IsStart, Descends, StartPlan, WellFormed;
    BootInvariant(reg, target, script, now);
    BootRunning(reg, target, script, now);
    RunKeeps(Boot(reg, target, script, now), before);
    RunQueueOff(Boot(reg, target, script, now), before);
    var s := Run(Boot(reg, target, script, now), before);
    StepKeeps(s, Terminate);
    RunDescends(Step(s, Terminate), after);
  }

  lemma BootRunning(reg: UnitTable, target: string, script: seq<Round>, now: nat)
    requires WellFormed(reg) && StartPlan(reg, target).Plan?
    ensures !Boot(reg, target, script, now).shuttingDown
  {
    hide Activate, Accounted, StartPlan, WorldInv;
    FreshInvariant(reg, script, now);
    StartOrderValid(reg, target);
    ActivateAccounts(Fresh(reg, script, now), StartPlan(reg, target).order);
  }

  // ---------- Who is signalled ----------

  /** The recorded pids in unit order. */
  function Running(units: seq<UnitMeta>): seq<Pid> {
    if units == [] then []
    else (if units[0].pid.Some? then [units[0].pid.value] else []) + Running(units[1..])
  }

  lemma {:induction false} RunningFacts(units: seq<UnitMeta>, u: UnitId)
    requires u < |units| && units[u].pid.Some?
    ensures units[u].pid.value in Running(units)
  {
    if u > 0 { RunningFacts(units[1..], u - 1); }
  }

  lemma {:induction false} TermAllSignals(w: World, units: seq<UnitMeta>)
    ensures Calls(TermAll(w, units).log) == Calls(w.log) + Terms(Running(units), w.now)
    decreases |units|
  {
    hide Calls, Terms;
    if units == [] {
      NoTerms(w.now);
    } else if units[0].pid.Some? {
      var p := units[0].pid.value;
      LogPush(w.log, Sent(SIGTERM, p, w.now));
      TermAllSignals(Kill(w, SIGTERM, p), units[1..]);
      TermsPush(p, Running(units[1..]), w.now);
    } else {
      TermAllSignals(w, units[1..]);
    }
  }

  lemma NoTerms(at: nat)
    ensures Terms([], at) == []
  {
  }

  /** The first shutdown request sends one SIGTERM to each recorded process, in unit
      order, and nothing else; a second one does nothing. */
  lemma ShutdownSignals(s: Sup)
    requires Shaped(s)
    ensures !s.shuttingDown ==> Calls(InitiateShutdown(s).world.log) == Calls(s.world.log) + Terms(Running(s.units), s.world.now)
    ensures forall u: UnitId :: u < |s.units| && s.units[u].pid.Some? ==> s.units[u].pid.value in Running(s.units)
    ensures InitiateShutdown(InitiateShutdown(s)) == InitiateShutdown(s)
  {
    hide Calls, Terms, TermAll, Running;
    TermAllSignals(s.world, s.units);
    forall u: UnitId | u < |s.units| && s.units[u].pid.Some? ensures s.units[u].pid.value in Running(s.units) { RunningFacts(s.units, u); }
  }
}
