/** Whole runs of the supervisor: any commands, signals, timers and child exits in any
    order, and what holds after every one of them. */
module Runs {
  import opened Config
  import opened Sequences
  import opened Registry
  import opened Install
  import opened Kernel
  import opened Supervisor
  import opened Bookkeeping
  import opened Stopping
  import opened Restarts

  const MULTI_USER: string := "multi-user.target"

  /** How far the file and the socket let ENABLE get: the stub is not written, or the reply
      about it fails; the second reply fails, after the edge; or nothing fails. */
  datatype EnableReach = NotPersisted | Persisted | EdgeAdded | Complete

  /** What the event loop reacts to. `Wait` is the time spent in `epoll_wait`; a readable
      signal descriptor yields one pending signal per read. */
  datatype Event =
    | Wait
    | ReadSigchld
    | Terminate
    | Timer
    | Start(name: string)
    | Stop(name: string)
    | Restart(name: string)
    | Enable(name: string, reach: EnableReach)
    | Disable(name: string)

  /** Reading SIGCHLD from the signal descriptor clears it; then the reap loop runs. */
  function ReadChildSignal(s: Sup): (r: Sup)
    requires Shaped(s)
    ensures SameUnits(s, r) && r.shuttingDown == s.shuttingDown
  {
    if s.world.sigchld then ReapAll(s.(world := s.world.(sigchld := false))) else s
  }

  ghost function RestartUnit(s: Sup, name: string): (r: Sup)
    requires Shaped(s)
    ensures SameUnits(s, r)
  {
    if StopPlan(s.reg, name).Plan? then StartNamed(StopUnit(s, name), name) else s
  }

  /** The registry after ENABLE of a known unit, when it gets as far as the edge. */
  function EnabledRegistry(reg: UnitTable, name: string, reach: EnableReach): Option<UnitTable> {
    if name !in reg.byName || reach.NotPersisted? || reach.Persisted? then None
    else
      match AddWantedBy(reg, MULTI_USER, name)
      case Added(r) => Some(r)
      case _ => None
  }

  lemma EnabledRegistryShaped(s: Sup, name: string, reach: EnableReach)
    requires Shaped(s)
    ensures var r := EnabledRegistry(s.reg, name, reach); r.Some? ==> Shaped(s.(reg := r.value)) && r.value.units == s.reg.units
  {
    if EnabledRegistry(s.reg, name, reach).Some? { AddWantedByEdges(s.reg, MULTI_USER, name); }
  }

  ghost function EnableUnit(s: Sup, name: string, reach: EnableReach): (r: Sup)
    requires Shaped(s)
    ensures Shaped(r) && |r.units| == |s.units| && r.reg.units == s.reg.units
  {
    EnabledRegistryShaped(s, name, reach);
    match EnabledRegistry(s.reg, name, reach)
    case None => s
    case Some(reg) => if reach.Complete? then StartNamed(s.(reg := reg), name) else s.(reg := reg)
  }

  ghost function Step(s: Sup, e: Event): (r: Sup)
    requires Shaped(s)
    ensures Shaped(r) && |r.units| == |s.units| && r.reg.units == s.reg.units
  {
    match e
    case Wait => s.(world := Advance(s.world))
    case ReadSigchld => ReadChildSignal(s)
    case Terminate => InitiateShutdown(s)
    case Timer => FireDue(s)
    case Start(name) => StartNamed(s, name)
    case Stop(name) => StopUnit(s, name)
    case Restart(name) => RestartUnit(s, name)
    case Enable(name, reach) => EnableUnit(s, name, reach)
    case Disable(name) => StopUnit(s, name)
  }

  ghost function Run(s: Sup, events: seq<Event>): (r: Sup)
    requires Shaped(s)
    ensures Shaped(r) && |r.units| == |s.units| && r.reg.units == s.reg.units
    decreases |events|
  {
    if events == [] then s else Run(Step(s, events[0]), events[1..])
  }

  lemma RunOf2(s: Sup, a: Event, b: Event)
    requires Shaped(s)
    ensures Run(s, [a, b]) == Step(Step(s, a), b)
  {
    hide Step;
    assert [a, b][1..] == [b] && [b][1..] == [];
    assert Run(Step(Step(s, a), b), []) == Step(Step(s, a), b);
    assert Run(Step(s, a), [b]) == Step(Step(s, a), b);
  }

  lemma RunOf3(s: Sup, a: Event, b: Event, c: Event)
    requires Shaped(s)
    ensures Run(s, [a, b, c]) == Step(Step(Step(s, a), b), c)
  {
    hide Step, Shaped;
    RunOf2(Step(s, a), b, c);
    assert [a, b, c][1..] == [b, c];
    assert Run(Step(s, a), [b, c]) == Step(Step(Step(s, a), b), c);
  }

  lemma {:induction false} RunConcat(s: Sup, a: seq<Event>, b: seq<Event>)
    requires Shaped(s)
    ensures Run(s, a + b) == Run(Run(s, a), b)
    decreases |a|
  {
    hide Step;
    if a == [] {
      assert a + b == b;
    } else {
      assert (a + b)[0] == a[0] && (a + b)[1..] == a[1..] + b;
      RunConcat(Step(s, a[0]), a[1..], b);
    }
  }

  /** The supervisor as `run` hands it to the event loop: the default target's plan has
      been activated. */
  ghost function Boot(reg: UnitTable, target: string, script: seq<Round>, now: nat): (r: Sup)
    requires WellFormed(reg) && StartPlan(reg, target).Plan?
    ensures Shaped(r) && r.reg == reg
  {
    StartOrderValid(reg, target);
    Activate(Fresh(reg, script, now), StartPlan(reg, target).order)
  }

  lemma StartOrderValid(reg: UnitTable, name: string)
    requires WellFormed(reg) && StartPlan(reg, name).Plan?
    ensures ValidIds(|reg.units|, StartPlan(reg, name).order) && NoDup(StartPlan(reg, name).order)
  {
    StartPlanCorrect(reg, name);
    var order := StartPlan(reg, name).order;
    assert forall i :: 0 <= i < |order| ==> order[i] in ToSet(order);
  }

  // ---------- What holds throughout ----------

  /** Recorded pids are unreaped children and signals only reached such; no exited child
      goes unnoticed; the restart accounts are in order. */
  ghost predicate Invariant(s: Sup) {
    Sound(s) && NothingLost(s.world) && Accounted(s)
  }

  lemma FreshInvariant(reg: UnitTable, script: seq<Round>, now: nat)
    requires WellFormed(reg)
    ensures Invariant(Fresh(reg, script, now))
  {
  }

  lemma StartNamedKeeps(s: Sup, name: string)
    requires Invariant(s)
    ensures Invariant(StartNamed(s, name)) && SameAccounts(s, StartNamed(s, name)) && Follows(s.world, StartNamed(s, name).world)
  {
    hide Sound, NothingLost, Ledger, FiredOnTime, AllLimited, SameAccounts, StartPlan, StartInactive;
    SoundShaped(s);
    if StartPlan(s.reg, name).Plan? {
      StartOrderValid(s.reg, name);
      StartInactiveSound(s, StartPlan(s.reg, name).order);
      StartInactiveAccounts(s, StartPlan(s.reg, name).order);
    } else {
      SoundFollowsItself(s);
    }
    SameAccountsKeep(s, StartNamed(s, name));
  }

  lemma SoundShaped(s: Sup)
    requires Sound(s)
    ensures Shaped(s) && WellFormed(s.reg)
  {
  }

  lemma SoundFollowsItself(s: Sup)
    requires Sound(s)
    ensures SameAccounts(s, s) && Follows(s.world, s.world)
  {
    NoNote(s, s);
  }

  lemma StopUnitKeeps(s: Sup, name: string)
    requires Invariant(s)
    ensures Invariant(StopUnit(s, name))
  {
    hide Sound, NothingLost, Ledger, FiredOnTime, AllLimited, StopPlan, StopPlanned, Forgot, DrainCalls, Calls;
    SoundShaped(s);
    if StopPlan(s.reg, name).Plan? {
      StopOrderValid(s.reg, name);
      StopPlannedSound(s, StopPlan(s.reg, name).order);
      StopPlannedAccounted(s, StopPlan(s.reg, name).order);
    }
  }

  lemma ReadSigchldKeeps(s: Sup)
    requires Invariant(s)
    ensures Invariant(ReadChildSignal(s)) && (s.world.sigchld ==> ReadChildSignal(s).world.zombies == [])
  {
    hide PidsKnown, Ledger, FiredOnTime, AllLimited;
    var s1 := s.(world := s.world.(sigchld := false));
    if s.world.sigchld {
      UnflaggedSound(s);
      LaterAccounted(s, s1.world);
      ReapAllSound(s1);
      ReapAllAccounted(s1);
    }
  }

  lemma UnflaggedSound(s: Sup)
    requires Sound(s)
    ensures Sound(s.(world := s.world.(sigchld := false)))
  {
    assert forall p :: IsUnreaped(s.world, p) ==> IsUnreaped(s.world.(sigchld := false), p);
  }

  lemma EnableKeeps(s: Sup, name: string, reach: EnableReach)
    requires Invariant(s)
    ensures Invariant(EnableUnit(s, name, reach))
  {
    hide PidsKnown, Ledger, FiredOnTime, Tally, Times, Tracks, Spread, StartNamed, WorldInv, EnabledRegistry, WellFormed;
    EnabledRegistryShaped(s, name, reach);
    var r := EnabledRegistry(s.reg, name, reach);
    if r.Some? {
      OtherEdgesKeep(s, r.value);
      if reach.Complete? { StartNamedKeeps(s.(reg := r.value), name); }
    }
  }

  /** The invariant does not depend on the requirement edges. */
  lemma OtherEdgesKeep(s: Sup, reg: UnitTable)
    requires Invariant(s) && Shaped(s.(reg := reg)) && reg.units == s.reg.units
    ensures Invariant(s.(reg := reg))
  {
    hide Tally, Times, Tracks, Spread, WorldInv, WellFormed;
    var r := s.(reg := reg);
    forall u: UnitId | u < |r.units| ensures Limited(r, u) { assert Limited(s, u); }
  }

  lemma TerminateKeeps(s: Sup)
    requires Invariant(s)
    ensures Invariant(InitiateShutdown(s)) && Follows(s.world, InitiateShutdown(s).world)
  {
    hide Ledger, FiredOnTime, AllLimited, TermAll;
    InitiateShutdownAccounted(s);
    TermAllKeeps(s, s.units);
    if !s.shuttingDown { WorldSound(s, TermAll(s.world, s.units)); }
    var r := InitiateShutdown(s);
    assert PidsKnown(s.(world := r.world), {});
  }

  /** Every SIGTERM of a shutdown goes to a recorded, unreaped child. */
  lemma {:induction false} TermAllKeeps(s: Sup, units: seq<UnitMeta>)
    requires Sound(s) && forall u :: u in units && u.pid.Some? ==> IsUnreaped(s.world, u.pid.value)
    ensures var w := TermAll(s.world, units);
      WorldInv(w) && Follows(s.world, w) && forall q :: IsUnreaped(s.world, q) <==> IsUnreaped(w, q)
    decreases |units|
  {
    if units != [] {
      assert units[0] in units && forall u :: u in units[1..] ==> u in units;
      if units[0].pid.Some? {
        var p := units[0].pid.value;
        KillKeeps(s.world, SIGTERM, p);
        var w := Kill(s.world, SIGTERM, p);
        assert forall q :: IsUnreaped(w, q) <==> IsUnreaped(s.world, q);
        WorldSound(s, w);
        TermAllKeeps(s.(world := w), units[1..]);
      } else {
        TermAllKeeps(s, units[1..]);
      }
    }
  }

  lemma WaitKeeps(s: Sup)
    requires Invariant(s)
    ensures Invariant(s.(world := Advance(s.world)))
  {
    hide Ledger, FiredOnTime, AllLimited, PidsKnown;
    AdvanceKeeps(s.world);
    WorldSound(s, Advance(s.world));
    LaterAccounted(s, Advance(s.world));
  }

  lemma TimerKeeps(s: Sup)
    requires Invariant(s)
    ensures Invariant(FireDue(s))
  {
    hide Sound, Ledger, FiredOnTime, AllLimited, FireDue;
    FireDueSound(s);
    FireDueAccounted(s);
  }

  lemma StepKeeps(s: Sup, e: Event)
    requires Invariant(s)
    ensures Shaped(s) && Invariant(Step(s, e))
  {
    hide NothingLost, Accounted, ReadChildSignal, StartNamed, StopUnit, EnableUnit, FireDue, InitiateShutdown, Advance;
    match e
    case Wait => WaitKeeps(s);
    case ReadSigchld => ReadSigchldKeeps(s);
    case Terminate => TerminateKeeps(s);
    case Timer => TimerKeeps(s);
    case Start(name) => StartNamedKeeps(s, name);
    case Stop(name) => StopUnitKeeps(s, name);
    case Restart(name) =>
      StopUnitKeeps(s, name);
      StartNamedKeeps(StopUnit(s, name), name);
    case Enable(name, reach) => EnableKeeps(s, name, reach);
    case Disable(name) => StopUnitKeeps(s, name);
  }

  lemma {:induction false} RunKeeps(s: Sup, events: seq<Event>)
    requires Invariant(s)
    ensures Shaped(s) && Invariant(Run(s, events))
    decreases |events|
  {
    hide NothingLost, Accounted, Step;
    if events != [] {
      StepKeeps(s, events[0]);
      RunKeeps(Step(s, events[0]), events[1..]);
    }
  }

  lemma BootInvariant(reg: UnitTable, target: string, script: seq<Round>, now: nat)
    requires WellFormed(reg) && StartPlan(reg, target).Plan?
    ensures Invariant(Boot(reg, target, script, now))
  {
    hide Ledger, FiredOnTime, AllLimited, Activate, SameAccounts, StartPlan, WorldInv;
    var s := Fresh(reg, script, now);
    FreshInvariant(reg, script, now);
    StartOrderValid(reg, target);
    ActivateSound(s, StartPlan(reg, target).order);
    ActivateAccounts(s, StartPlan(reg, target).order);
    SameAccountsKeep(s, Boot(reg, target, script, now));
  }

  /** Safety of every run: whatever the units, the environment and the commands, the
      supervisor only ever signals its own unreaped children, never misses an exited one,
      and every scheduled restart is accounted for and within the start limit. */
  lemma EveryRun(reg: UnitTable, target: string, script: seq<Round>, now: nat, events: seq<Event>)
    requires WellFormed(reg) && StartPlan(reg, target).Plan?
    ensures var r := Run(Boot(reg, target, script, now), events);
      && SignalsSafe(r.world.log)
      && (forall u: UnitId :: u < |r.units| && r.units[u].pid.Some? ==>
            r.units[u].pid.value in r.byPid && r.byPid[r.units[u].pid.value] == u && IsUnreaped(r.world, r.units[u].pid.value))
      && NothingLost(r.world)
      && Ledger(r) && FiredOnTime(r.journal)
      && (forall u: UnitId, from :: u < |r.units| && BurstOf(r.reg, u) > 0 ==>
            |InWindow(Times(r.journal, u), from, IntervalOf(r.reg, u))| <= BurstOf(r.reg, u))
  {
    hide Boot, Run, Ledger, FiredOnTime, IsUnreaped, InWindow, Times, Limited;
    BootInvariant(reg, target, script, now);
    RunKeeps(Boot(reg, target, script, now), events);
    var r := Run(Boot(reg, target, script, now), events);
    forall u: UnitId, from | u < |r.units| && BurstOf(r.reg, u) > 0
      ensures |InWindow(Times(r.journal, u), from, IntervalOf(r.reg, u))| <= BurstOf(r.reg, u)
    {
      WindowBound(r, u, from);
    }
  }
}
