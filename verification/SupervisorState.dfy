/** The supervisor as an object whose methods update its state in place. Each method is
    proved to do to the state what the state machine says. */
module SupervisorStates {
  import opened Config
  import opened Sequences
  import opened Registry
  import opened Install
  import opened UnitRegistries
  import opened Kernel
  import opened Supervisor
  import opened Bookkeeping
  import opened Stopping
  import opened Restarts
  import opened Runs

  class SupervisorState {
    const registry: UnitRegistry
    var units: seq<UnitMeta>
    var byPid: map<Pid, UnitId>
    var pendingRestarts: seq<PendingRestart>
    var shuttingDown: bool
    var world: World
    var journal: seq<Note>

    ghost function Abs(): Sup
      reads this, registry
    {
      Sup(registry.Table(), units, byPid, pendingRestarts, shuttingDown, world, journal)
    }

    ghost predicate Valid()
      reads this, registry
    {
      Shaped(Abs())
    }

    constructor (reg: UnitRegistry, now: nat, script: seq<Round>)
      requires WellFormed(reg.Table())
      ensures registry == reg && Valid() && Abs() == Fresh(reg.Table(), script, now)
    {
      registry := reg;
      units := seq(|reg.units|, i => UnitMeta(Inactive, None, []));
      byPid := map[];
      pendingRestarts := [];
      shuttingDown := false;
      world := World(now, {}, [], [], false, script, []);
      journal := [];
    }

    // ---------- Starting ----------

    /** `wait_oneshot`: polls the child until it has exited or the timeout has passed. */
    method WaitForOneshot(pid: Pid, timeout: nat) returns (outcome: OneshotOutcome)
      modifies this`world
      ensures (outcome, world) == WaitOneshot(old(world), pid, old(world).now + timeout)
    {
      var deadline := world.now + timeout;
      while true
        invariant WaitOneshot(world, pid, deadline) == WaitOneshot(old(world), pid, deadline)
        decreases if world.now < deadline then deadline - world.now else 0
      {
        AdvanceShortens(world);
        world := Advance(world);
        var (rc, w) := WaitFor(world, pid);
        match rc {
          case Collected(st) =>
            world := w;
            return if IsClean(st) then Clean else Unclean;
          case NoChild =>
            return Unclean;
          case Running =>
        }
        if world.now >= deadline {
          world := Kill(world, SIGKILL, pid);
          world := AwaitExit(world, pid);
          world := Reap(world, pid);
          return TimedOut;
        }
        world := Sleep(world, POLL);
      }
    }

    /** The search for a Failed hard dependency. */
    method FindFailedDependency(id: UnitId) returns (found: bool)
      requires Valid() && id < |units|
      ensures found == HasFailedDependency(Abs(), id)
    {
      hide WellFormed, HardTargets, Listing;
      var targets := registry.HardTargetsOf(id);
      TargetsInside(id, targets);
      var i := 0;
      while i < |targets|
        invariant i <= |targets|
        invariant forall k :: 0 <= k < i ==> units[targets[k]].state != Failed
      {
        if units[targets[i]].state == Failed {
          assert targets[i] in HardTargets(registry.Table(), id);
          return true;
        }
        i := i + 1;
      }
      return false;
    }

    lemma TargetsInside(id: UnitId, targets: seq<UnitId>)
      requires Valid() && id < |units| && targets == Listing(HardTargets(registry.Table(), id))
      ensures forall k :: 0 <= k < |targets| ==> targets[k] < |units| && targets[k] in HardTargets(registry.Table(), id)
    {
      forall k | 0 <= k < |targets| ensures targets[k] < |units| && targets[k] in HardTargets(registry.Table(), id) {
        assert targets[k] in targets;
        HardTargetsInside(registry.Table(), id, targets[k]);
      }
    }

    method ChangeState(id: UnitId, st: ActiveState)
      requires Valid() && id < |units|
      modifies this`units
      ensures Valid() && Abs() == SetState(old(Abs()), id, st)
    {
      units := units[id := units[id].(state := st)];
    }

    /** `start_unit_internal` */
    method StartUnitInternal(id: UnitId)
      requires Valid() && id < |units|
      modifies this`units, this`byPid, this`world, this`journal
      ensures Valid() && Abs() == StartUnit(old(Abs()), id)
    {
      hide Shaped, WellFormed, WaitOneshot, Spawn, HasFailedDependency;
      ValidParts();
      var failedDependency := FindFailedDependency(id);
      if failedDependency {
        ChangeState(id, Failed);
        return;
      }
      match registry.units[id].file.service {
        case None =>
          ChangeState(id, Active);
        case Some(service) =>
          SpawnService(id, service);
      }
    }

    method RecordPid(id: UnitId, pid: Pid)
      requires Valid() && id < |units|
      modifies this`units, this`byPid, this`journal
      ensures Valid() && Abs() == WithPid(old(Abs()), id, pid)
    {
      units := units[id := units[id].(pid := Some(pid))];
      byPid := byPid[pid := id];
      journal := journal + [Started(id, pid)];
    }

    method ForgetPid(id: UnitId, pid: Pid)
      requires Valid() && id < |units|
      modifies this`units, this`byPid
      ensures Valid() && Abs() == WithoutPid(old(Abs()), id, pid)
    {
      units := units[id := units[id].(pid := None)];
      byPid := byPid - {pid};
    }

    method SpawnService(id: UnitId, service: ServiceSection)
      requires Valid() && id < |units|
      modifies this`units, this`byPid, this`world, this`journal
      ensures Valid() && Abs() == StartService(old(Abs()), id, service)
    {
      hide Shaped, WaitOneshot, Spawn, WithPid, WithoutPid, DurationOr;
      ghost var s := Abs();
      var (child, w) := Spawn(world);
      world := w;
      assert Valid() by { WorldShaped(s, w); }
      ChangeState(id, Activating);
      match child {
        case None =>
          ChangeState(id, Failed);
          ghost var s1 := Abs();
          journal := journal + [SpawnFailed(id)];
          assert Valid() by { JournalShaped(s1, journal); }
        case Some(pid) =>
          RecordPid(id, pid);
          if service.kind.Oneshot? {
            RunOneshot(id, pid, service);
          } else {
            ChangeState(id, Active);
          }
      }
    }

    method RunOneshot(id: UnitId, pid: Pid, service: ServiceSection)
      requires Valid() && id < |units|
      modifies this`units, this`byPid, this`world, this`journal
      ensures Valid()
      ensures var (outcome, w) := WaitOneshot(old(world), pid, old(world).now + StartTimeout(service));
        Abs() == FinishOneshot(old(Abs()), id, pid, service, outcome, w)
    {
      hide Shaped, WaitOneshot, WithoutPid, DurationOr;
      ghost var s := Abs();
      var outcome := WaitForOneshot(pid, DurationOr(service.timeoutStartSec, 30 * SECOND));
      assert Valid() by { WorldShaped(s, world); }
      ChangeState(id, if outcome != Clean then Failed else if service.remainAfterExit then Active else Inactive);
      ForgetPid(id, pid);
      ghost var s1 := Abs();
      journal := journal + [OneshotEnded(id, outcome)];
      assert Valid() by { JournalShaped(s1, journal); }
    }

    /** `activate_plan`: jobs that are no longer Waiting are skipped. */
    method ActivatePlan(plan: seq<Job>)
      requires Valid() && forall i :: 0 <= i < |plan| ==> plan[i].unit < |units|
      modifies this`units, this`byPid, this`world, this`journal
      ensures Valid() && ValidIds(|old(units)|, WaitingUnits(plan)) && Abs() == Activate(old(Abs()), WaitingUnits(plan))
    {
      hide Shaped, StartUnit;
      WaitingUnitsValid(plan, |units|);
      var i := 0;
      while i < |plan|
        invariant i <= |plan| && Valid() && |units| == |old(units)| && ValidIds(|units|, WaitingUnits(plan[i..]))
        invariant Activate(Abs(), WaitingUnits(plan[i..])) == Activate(old(Abs()), WaitingUnits(plan))
      {
        assert plan[i..][0] == plan[i] && plan[i..][1..] == plan[i + 1..];
        ghost var rest := WaitingUnits(plan[i + 1..]);
        WaitingUnitsValid(plan[i + 1..], |units|);
        if plan[i].state == Waiting {
          HeadOf(plan[i].unit, rest);
          StartUnitInternal(plan[i].unit);
        } else {
          assert WaitingUnits(plan[i..]) == [] + rest == rest;
        }
        i := i + 1;
      }
      assert WaitingUnits(plan[i..]) == [];
    }

    /** `start_named` */
    method StartByName(name: string) returns (r: Result<(), TransactionError>)
      requires Valid()
      modifies this`units, this`byPid, this`world, this`journal
      ensures Valid() && Abs() == StartNamed(old(Abs()), name)
      ensures r.Ok? <==> StartPlan(old(Abs()).reg, name).Plan?
    {
      hide Shaped, StartUnit, StartPlan, WellFormed;
      ValidParts();
      var plan := registry.BuildTransaction(name);
      match plan {
        case Err(e) =>
          return Err(e);
        case Ok(jobs) =>
          StartOrderValid(registry.Table(), name);
          assert UnitsOf(jobs) == StartPlan(registry.Table(), name).order;
          StartJobsInactive(jobs);
          return Ok(());
      }
    }

    lemma ValidParts()
      requires Valid()
      ensures WellFormed(registry.Table()) && |units| == |registry.units|
    {
    }

    method StartJobsInactive(jobs: seq<Job>)
      requires Valid() && ValidIds(|units|, UnitsOf(jobs))
      modifies this`units, this`byPid, this`world, this`journal
      ensures Valid() && |units| == |old(units)| && Abs() == StartInactive(old(Abs()), UnitsOf(jobs))
    {
      hide Shaped, StartUnit;
      var i := 0;
      while i < |jobs|
        invariant i <= |jobs| && Valid() && |units| == |old(units)| && ValidIds(|units|, UnitsOf(jobs)[i..])
        invariant StartInactive(Abs(), UnitsOf(jobs)[i..]) == StartInactive(old(Abs()), UnitsOf(jobs))
      {
        assert UnitsOf(jobs)[i..][1..] == UnitsOf(jobs)[i + 1..];
        assert UnitsOf(jobs)[i..][0] == jobs[i].unit;
        if units[jobs[i].unit].state != Active {
          StartUnitInternal(jobs[i].unit);
        }
        i := i + 1;
      }
      assert UnitsOf(jobs)[i..] == [];
    }

    // ---------- Child exits and restarts ----------

    /** The history without the entries that are too old. */
    method RetainRecent(history: seq<nat>, now: nat, interval: nat) returns (kept: seq<nat>)
      ensures kept == Recent(history, now, interval)
    {
      kept := [];
      var i := 0;
      while i < |history|
        invariant i <= |history| && kept + Recent(history[i..], now, interval) == Recent(history, now, interval)
      {
        assert history[i..][1..] == history[i + 1..];
        if now - history[i] <= interval {
          AppendOne(kept, history[i], Recent(history[i + 1..], now, interval));
          kept := kept + [history[i]];
        }
        i := i + 1;
      }
    }

    /** `maybe_schedule_restart` */
    method MaybeScheduleRestart(id: UnitId, st: Status)
      requires Valid() && id < |units|
      modifies this`units, this`pendingRestarts, this`journal
      ensures Valid() && Abs() == MaybeSchedule(old(Abs()), id, st)
    {
      hide Recent, ParseDuration, WellFormed;
      match registry.units[id].file.service {
        case None =>
          return;
        case Some(svc) =>
          if !WantsRestart(svc.restart, st) {
            return;
          }
          var delay := DurationOr(svc.restartSec, 5 * SECOND);
          var burst := svc.startLimitBurst;
          var interval := DurationOr(svc.startLimitIntervalSec, 10 * SECOND);
          var now := world.now;
          var history := RetainRecent(units[id].restartHistory, now, interval);
          if burst > 0 && |history| >= burst {
            units := units[id := units[id].(restartHistory := history)];
            units := units[id := units[id].(state := Failed)];
            journal := journal + [Refused(id, now)];
            return;
          }
          units := units[id := units[id].(restartHistory := history + [now])];
          pendingRestarts := pendingRestarts + [PendingRestart(id, now + delay)];
          journal := journal + [Scheduled(id, now, now + delay)];
      }
    }

    /** `on_child_exit` */
    method ChildExited(pid: Pid, st: Status)
      requires Valid()
      modifies this`units, this`byPid, this`pendingRestarts, this`journal
      ensures Valid() && Abs() == OnChildExit(old(Abs()), pid, st)
    {
      hide MaybeSchedule, WellFormed;
      if pid !in byPid {
        return;
      }
      var id := byPid[pid];
      ForgetPid(id, pid);
      ChangeState(id, if shuttingDown || IsClean(st) then Inactive else Failed);
      if !shuttingDown {
        MaybeScheduleRestart(id, st);
      }
    }

    /** `reap`: collects children until there is none left to collect. */
    method ReapChildren()
      requires Valid()
      modifies this`units, this`byPid, this`pendingRestarts, this`journal, this`world
      ensures Valid() && Abs() == ReapAll(old(Abs()))
    {
      hide Shaped, WaitAny, OnChildExit;
      while true
        invariant Valid() && ReapAll(Abs()) == ReapAll(old(Abs()))
        decreases |world.script|, Left(world)
      {
        WaitAnyShrinks(world);
        ghost var s := Abs();
        var (child, w) := WaitAny(world);
        world := w;
        assert Valid() by { WorldShaped(s, w); }
        match child {
          case None => return;
          case Some(z) => ChildExited(z.pid, z.status);
        }
      }
    }

    /** `fire_due_restarts` */
    method FireDueRestarts()
      requires Valid()
      modifies this`units, this`byPid, this`pendingRestarts, this`journal, this`world
      ensures Valid() && Abs() == FireDue(old(Abs()))
    {
      hide Shaped, StartUnit;
      ghost var s := Abs();
      var now := world.now;
      var due, later := RetainLater(now);
      PendingValid(s);
      DueUnitsValid(pendingRestarts, now, |units|);
      journal := journal + FiredNotes(pendingRestarts, now);
      pendingRestarts := later;
      assert Valid() by { QueueShaped(s, later, journal); }
      ghost var s1 := Abs();
      var i := 0;
      while i < |due|
        invariant i <= |due| && Valid() && |units| == |old(units)| && ValidIds(|units|, due[i..])
        invariant Activate(Abs(), due[i..]) == Activate(s1, due)
      {
        assert due[i..][1..] == due[i + 1..] && due[i..][0] == due[i];
        StartUnitInternal(due[i]);
        i := i + 1;
      }
      assert due[i..] == [];
    }

    /** The queue without the due entries, which are returned in queue order. */
    method RetainLater(now: nat) returns (due: seq<UnitId>, later: seq<PendingRestart>)
      ensures due == DueUnits(pendingRestarts, now) && later == NotDue(pendingRestarts, now)
    {
      hide Shaped;
      due, later := [], [];
      var i := 0;
      while i < |pendingRestarts|
        invariant i <= |pendingRestarts|
        invariant due + DueUnits(pendingRestarts[i..], now) == DueUnits(pendingRestarts, now)
        invariant later + NotDue(pendingRestarts[i..], now) == NotDue(pendingRestarts, now)
      {
        var r, rest := pendingRestarts[i], pendingRestarts[i + 1..];
        assert pendingRestarts[i..][1..] == rest;
        if r.fireAt <= now {
          AppendOne(due, r.unit, DueUnits(rest, now));
          due := due + [r.unit];
        } else {
          AppendOne(later, r, NotDue(rest, now));
          later := later + [r];
        }
        i := i + 1;
      }
    }

    /** `next_restart_deadline` and `compute_timeout` */
    method Timeout() returns (millis: int)
      ensures millis == ComputeTimeout(Abs())
    {
      var when: Option<nat> := None;
      var i := |pendingRestarts|;
      assert pendingRestarts[i..] == [];
      while i > 0
        invariant 0 <= i <= |pendingRestarts| && when == NextDeadline(pendingRestarts[i..])
      {
        i := i - 1;
        assert pendingRestarts[i..][1..] == pendingRestarts[i + 1..];
        if when.None? || pendingRestarts[i].fireAt <= when.value {
          when := Some(pendingRestarts[i].fireAt);
        }
      }
      if when.None? {
        return if shuttingDown then 100 else -1;
      }
      if when.value <= world.now {
        return 0;
      }
      var dt := when.value - world.now;
      return (if dt < LONGEST_SLEEP * MILLI then dt else LONGEST_SLEEP * MILLI) / MILLI;
    }

    // ---------- Stopping ----------

    /** The longest parseable `timeout-stop-sec` of the plan, or ten seconds. */
    method GraceOf(plan: seq<UnitId>) returns (grace: nat)
      requires Valid() && ValidIds(|units|, plan)
      ensures ValidIds(|registry.units|, plan) && grace == Grace(registry.Table(), plan)
    {
      hide Shaped, ParseDuration;
      ValidParts();
      var longest: Option<nat> := None;
      var i := 0;
      while i < |plan|
        invariant i <= |plan| && ValidIds(|registry.units|, plan[i..])
        invariant Larger(longest, Longest(registry.Table(), plan[i..])) == Longest(registry.Table(), plan)
      {
        assert plan[i..][0] == plan[i] && plan[i..][1..] == plan[i + 1..];
        var svc := registry.units[plan[i]].file.service;
        if svc.Some? {
          longest := Larger(longest, ParseDuration(svc.value.timeoutStopSec));
        }
        i := i + 1;
      }
      assert plan[i..] == [];
      return if longest.Some? then longest.value else 10 * SECOND;
    }

    /** The queue without the entries of a unit. */
    method RetainOthers(id: UnitId) returns (kept: seq<PendingRestart>)
      ensures kept == DropOf(pendingRestarts, id)
    {
      kept := [];
      var i := 0;
      while i < |pendingRestarts|
        invariant i <= |pendingRestarts| && kept + DropOf(pendingRestarts[i..], id) == DropOf(pendingRestarts, id)
      {
        var r, rest := pendingRestarts[i], pendingRestarts[i + 1..];
        assert pendingRestarts[i..][1..] == rest;
        if r.unit != id {
          AppendOne(kept, r, DropOf(rest, id));
          kept := kept + [r];
        }
        i := i + 1;
      }
    }

    /** Drops the pending restarts of a unit. */
    method CancelRestarts(id: UnitId)
      requires Valid()
      modifies this`pendingRestarts, this`journal
      ensures Valid() && pendingRestarts == DropOf(old(pendingRestarts), id) && journal == old(journal) + DroppedNotes(old(pendingRestarts), id)
    {
      var kept := RetainOthers(id);
      journal := journal + DroppedNotes(pendingRestarts, id);
      pendingRestarts := kept;
    }

    /** The first loop of `stop_unit`: cancels restarts and sends SIGTERM. */
    method TerminatePlan(plan: seq<UnitId>) returns (expected: seq<Pid>)
      requires Valid() && ValidIds(|units|, plan)
      modifies this`units, this`pendingRestarts, this`journal, this`world
      ensures Valid() && Abs() == MarkAll(old(Abs()), plan) && expected == PidsOf(old(units), plan)
    {
      hide Shaped, MarkOne;
      expected := [];
      var i := 0;
      while i < |plan|
        invariant i <= |plan| && Valid() && |units| == |old(units)| && ValidIds(|units|, plan[i..])
        invariant MarkAll(Abs(), plan[i..]) == MarkAll(old(Abs()), plan)
        invariant forall u: UnitId :: u < |units| ==> units[u].pid == old(units[u]).pid
        invariant expected + PidsOf(old(units), plan[i..]) == PidsOf(old(units), plan)
      {
        var id := plan[i];
        assert plan[i..][0] == id && plan[i..][1..] == plan[i + 1..];
        if units[id].pid.Some? {
          AppendOne(expected, units[id].pid.value, PidsOf(old(units), plan[i + 1..]));
          expected := expected + [units[id].pid.value];
        }
        TerminateOne(id);
        i := i + 1;
      }
      assert plan[i..] == [];
    }

    method TerminateOne(id: UnitId)
      requires Valid() && id < |units|
      modifies this`units, this`pendingRestarts, this`journal, this`world
      ensures Valid() && Abs() == MarkOne(old(Abs()), id)
      ensures |units| == |old(units)| && forall u: UnitId :: u < |units| ==> units[u].pid == old(units[u]).pid
    {
      hide Shaped;
      CancelRestarts(id);
      match units[id].pid {
        case Some(pid) =>
          ChangeState(id, Deactivating);
          ghost var s := Abs();
          world := Kill(world, SIGTERM, pid);
          assert Valid() by { WorldShaped(s, world); }
        case None =>
          ChangeState(id, Inactive);
      }
    }

    method KillExpected(expected: seq<Pid>)
      modifies this`world
      ensures world == KillAll(old(world), expected)
    {
      var i := 0;
      while i < |expected|
        invariant i <= |expected| && KillAll(world, expected[i..]) == KillAll(old(world), expected)
      {
        assert expected[i..][1..] == expected[i + 1..];
        world := Kill(world, SIGKILL, expected[i]);
        i := i + 1;
      }
    }

    /** The inner loop of the drain: collects whatever has exited. */
    method DrainExited(expected0: seq<Pid>) returns (expected: seq<Pid>)
      requires Valid()
      modifies this`units, this`byPid, this`pendingRestarts, this`journal, this`world
      ensures Valid() && (Abs(), expected) == DrainReap(old(Abs()), expected0)
    {
      hide Shaped, WaitAny, OnChildExit;
      expected := expected0;
      while true
        invariant Valid() && DrainReap(Abs(), expected) == DrainReap(old(Abs()), expected0)
        decreases |world.script|, Left(world)
      {
        WaitAnyShrinks(world);
        ghost var s := Abs();
        var (child, w) := WaitAny(world);
        world := w;
        assert Valid() by { WorldShaped(s, w); }
        match child {
          case None => return;
          case Some(z) =>
            expected := RemovePid(expected, z.pid);
            ChildExited(z.pid, z.status);
        }
      }
    }

    /** The drain of `stop_unit`. It ends: whoever outlives the grace is killed. */
    method DrainUntilGone(expected0: seq<Pid>, grace: nat)
      requires Sound(Abs()) && Awaiting(world, expected0, false)
      modifies this`units, this`byPid, this`pendingRestarts, this`journal, this`world
      ensures Valid() && Abs() == Drain(old(Abs()), expected0, old(world).now, grace, false)
    {
      hide Shaped, PidsKnown, WorldInv, Awaiting, DrainReap, KillAll, Follows;
      var start, escalated, expected := world.now, false, expected0;
      while expected != []
        invariant Sound(Abs()) && Awaiting(world, expected, escalated)
        invariant Drain(Abs(), expected, start, grace, escalated) == Drain(old(Abs()), expected0, start, grace, false)
        decreases expected != [], |world.script|, !escalated, if world.now <= start + grace then start + grace - world.now + 1 else 0
      {
        ghost var s := Abs();
        EscalateKeeps(s, expected, escalated);
        if !escalated && world.now > start + grace {
          KillExpected(expected);
          escalated := true;
        }
        DrainReapSound(Abs(), expected, escalated);
        if escalated && world.script == [] { DrainReapEnds(Abs(), expected); }
        expected := DrainExited(expected);
        if expected != [] {
          SleepKeeps(Abs(), expected, escalated, DRAIN_PAUSE);
          world := Sleep(world, DRAIN_PAUSE);
        }
      }
    }

    /** `stop_unit` */
    method StopByName(anchor: string) returns (r: Result<(), TransactionError>)
      requires Sound(Abs())
      modifies this`units, this`byPid, this`pendingRestarts, this`journal, this`world, this`shuttingDown
      ensures Valid() && Abs() == StopUnit(old(Abs()), anchor)
      ensures r.Ok? <==> StopPlan(old(Abs()).reg, anchor).Plan?
    {
      hide PidsKnown, WorldInv, Awaiting, Drain, MarkAll, Follows, StopPlan, WellFormed, Grace;
      ghost var s := Abs();
      SoundShaped(s);
      var plan := registry.BuildStopTransaction(anchor);
      match plan {
        case Err(e) =>
          return Err(e);
        case Ok(order) =>
          StopOrderValid(registry.Table(), anchor);
          StopOrder(order);
          return Ok(());
      }
    }

    method StopOrder(order: seq<UnitId>)
      requires Sound(Abs()) && ValidIds(|units|, order)
      modifies this`units, this`byPid, this`pendingRestarts, this`journal, this`world, this`shuttingDown
      ensures Valid() && Abs() == StopPlanned(old(Abs()), order)
    {
      hide PidsKnown, WorldInv, Awaiting, Drain, MarkAll, Follows, WellFormed, Grace;
      ghost var s := Abs();
      SoundShaped(s);
      var wasShuttingDown := shuttingDown;
      shuttingDown := true;
      assert Valid() by { SoundFlag(s, true); }
      var grace := GraceOf(order);
      SoundFlag(s, true);
      MarkAllSound(Abs(), order);
      ghost var s0 := Abs();
      var expected := TerminatePlan(order);
      MarkAllFacts(s0, order);
      ExpectedAreChildren(s0, Abs(), order);
      DrainUntilGone(expected, grace);
      shuttingDown := wasShuttingDown;
      assert Valid() by { StopPlannedSound(s, order); }
    }

    // ---------- Shutdown ----------

    /** `initiate_shutdown` */
    method BeginShutdown()
      requires Valid()
      modifies this`shuttingDown, this`pendingRestarts, this`journal, this`world
      ensures Valid() && Abs() == InitiateShutdown(old(Abs()))
    {
      if shuttingDown {
        return;
      }
      shuttingDown := true;
      journal := journal + DropAllNotes(pendingRestarts);
      pendingRestarts := [];
      var i := 0;
      while i < |units|
        invariant i <= |units| && TermAll(world, units[i..]) == TermAll(old(world), units)
        invariant shuttingDown && pendingRestarts == [] && journal == old(journal) + DropAllNotes(old(pendingRestarts))
      {
        assert units[i..][1..] == units[i + 1..];
        if units[i].pid.Some? {
          world := Kill(world, SIGTERM, units[i].pid.value);
        }
        i := i + 1;
      }
    }

    /** `all_units_quiet` */
    method AllUnitsQuiet() returns (quiet: bool)
      ensures quiet == AllQuiet(Abs()) && (quiet <==> forall u :: u in units ==> u.pid.None?)
    {
      var i := 0;
      while i < |units|
        invariant i <= |units| && forall k :: 0 <= k < i ==> units[k].pid.None?
      {
        if units[i].pid.Some? {
          assert units[i] in units;
          return false;
        }
        i := i + 1;
      }
      return true;
    }

    // ---------- Commands ----------

    /** RESTART: stop, and start again only if the stop succeeded. */
    method RestartByName(name: string) returns (r: Result<(), TransactionError>)
      requires Invariant(Abs())
      modifies this`units, this`byPid, this`pendingRestarts, this`journal, this`world, this`shuttingDown
      ensures Valid() && Abs() == RestartUnit(old(Abs()), name)
      ensures r.Ok? <==> StopPlan(old(Abs()).reg, name).Plan? && StartPlan(old(Abs()).reg, name).Plan?
    {
      hide NothingLost, PidsKnown, WorldInv, Accounted, Shaped, StopPlan, StartPlan, StopPlanned, StartNamed;
      StopUnitKeeps(Abs(), name);
      r := StopByName(name);
      if r.Ok? {
        r := StartByName(name);
      }
    }

    /** ENABLE: the stub and a reply, then the virtual edge and a reply, then the start;
        `reach` says how far the file and the socket let it get. */
    method EnableByName(name: string, reach: EnableReach) returns (r: Result<(), string>)
      requires Valid()
      modifies this`units, this`byPid, this`journal, this`world, registry`extraWants
      ensures Valid() && Abs() == EnableUnit(old(Abs()), name, reach)
      ensures r.Ok? <==> reach.Complete? && name in old(Abs()).reg.byName && MULTI_USER in old(Abs()).reg.byName && StartPlan(Abs().reg, name).Plan?
    {
      hide Shaped, StartNamed, WellFormed, StartPlan;
      ghost var s := Abs();
      ValidParts();
      if name !in registry.byName {
        return Err("unknown unit");
      }
      if reach.NotPersisted? || reach.Persisted? {
        return Err("stub not written, or reply failed");
      }
      EnabledRegistryShaped(s, name, reach);
      var added := registry.AddWantedBy(MULTI_USER, name);
      match added {
        case Err(e) =>
          return Err(e);
        case Ok(_) =>
          assert Valid();
          if reach.EdgeAdded? {
            return Err("reply failed");
          }
          var started := StartByName(name);
          return if started.Ok? then Ok(()) else Err("not started");
      }
    }

    /** One thing the event loop reacts to. */
    method Handle(e: Event)
      requires Invariant(Abs())
      modifies this, registry`extraWants
      ensures Valid() && Abs() == Step(old(Abs()), e) && Invariant(Abs())
    {
      hide NothingLost, PidsKnown, WorldInv, Accounted, Shaped, Advance, FireDue, StartNamed, StopUnit, RestartUnit, EnableUnit, InitiateShutdown, ReapAll;
      ghost var s := Abs();
      StepKeeps(s, e);
      SoundShaped(s);
      match e {
        case Wait =>
          world := Advance(world);
        case ReadSigchld =>
          if world.sigchld {
            world := world.(sigchld := false);
            assert Valid() by { WorldShaped(s, world); }
            ReapChildren();
          }
        case Terminate =>
          BeginShutdown();
        case Timer =>
          FireDueRestarts();
        case Start(name) =>
          var r := StartByName(name);
        case Stop(name) =>
          var r := StopByName(name);
        case Restart(name) =>
          var r := RestartByName(name);
        case Enable(name, reach) =>
          var r := EnableByName(name, reach);
        case Disable(name) =>
          var r := StopByName(name);
      }
    }

    /** One turn of the event loop: whatever was reported while it slept, then the timer;
        the loop ends only when a shutdown has left no unit with a process. */
    method Turn(reported: seq<Event>) returns (finished: bool)
      requires Invariant(Abs())
      modifies this, registry`extraWants
      ensures Valid() && Invariant(Abs()) && Abs() == Run(old(Abs()), [Wait] + reported + [Timer])
      ensures finished <==> shuttingDown && forall u :: u in units ==> u.pid.None?
    {
      hide Sound, NothingLost, Accounted, Step;
      ghost var events := [Wait] + reported + [Timer];
      ghost var s := Abs();
      SoundShaped(s);
      Handle(Wait);
      assert events[1..] == reported + [Timer];
      var i := 0;
      while i < |reported|
        invariant i <= |reported| && Valid() && Invariant(Abs())
        invariant Run(Abs(), events[i + 1..]) == Run(s, events)
      {
        assert events[i + 1..][0] == reported[i] && events[i + 1..][1..] == events[i + 2..];
        Handle(reported[i]);
        i := i + 1;
      }
      assert events[i + 1..] == [Timer] && [Timer][1..] == [];
      Handle(Timer);
      var quiet := AllUnitsQuiet();
      return shuttingDown && quiet;
    }

    /** The boot: the default target's plan is built and activated. */
    method BootTarget(target: string) returns (r: Result<(), TransactionError>)
      requires Valid() && Abs() == Fresh(registry.Table(), world.script, world.now)
      modifies this`units, this`byPid, this`world, this`journal
      ensures Valid() && (r.Ok? <==> StartPlan(old(Abs()).reg, target).Plan?)
      ensures r.Ok? ==> Abs() == Boot(old(Abs()).reg, target, old(world).script, old(world).now) && Invariant(Abs())
    {
      hide Shaped, StartUnit, StartPlan, WellFormed, Sound, NothingLost, Accounted;
      ValidParts();
      ghost var reg, script, now := registry.Table(), world.script, world.now;
      var plan := registry.BuildTransaction(target);
      match plan {
        case Err(e) =>
          return Err(e);
        case Ok(jobs) =>
          BootInvariant(reg, target, script, now);
          StartOrderValid(reg, target);
          assert UnitsOf(jobs) == StartPlan(reg, target).order;
          AllWaiting(jobs);
          ActivatePlan(jobs);
          return Ok(());
      }
    }
  }

  function Larger(a: Option<nat>, b: Option<nat>): Option<nat> {
    if a.None? then b
    else if b.None? || a.value > b.value then a
    else b
  }

  lemma WorldShaped(s: Sup, w: World)
    requires Shaped(s)
    ensures Shaped(s.(world := w))
  {
  }

  lemma PendingValid(s: Sup)
    requires Shaped(s)
    ensures forall p :: p in s.pending ==> p.unit < |s.units|
  {
  }

  lemma QueueShaped(s: Sup, pending: seq<PendingRestart>, journal: seq<Note>)
    requires Shaped(s) && forall p :: p in pending ==> p in s.pending
    ensures Shaped(s.(pending := pending, journal := journal))
  {
  }

  lemma JournalShaped(s: Sup, journal: seq<Note>)
    requires Shaped(s)
    ensures Shaped(s.(journal := journal))
  {
  }

  function UnitsOf(jobs: seq<Job>): (r: seq<UnitId>)
    ensures |r| == |jobs| && forall i :: 0 <= i < |r| ==> r[i] == jobs[i].unit
  {
    seq(|jobs|, i requires 0 <= i < |jobs| => jobs[i].unit)
  }

  function WaitingUnits(jobs: seq<Job>): (r: seq<UnitId>) {
    if jobs == [] then []
    else (if jobs[0].state == Waiting then [jobs[0].unit] else []) + WaitingUnits(jobs[1..])
  }

  lemma {:induction false} WaitingUnitsValid(jobs: seq<Job>, n: nat)
    requires forall i :: 0 <= i < |jobs| ==> jobs[i].unit < n
    ensures ValidIds(n, WaitingUnits(jobs))
  {
    if jobs != [] { WaitingUnitsValid(jobs[1..], n); }
  }

  lemma HeadOf(u: UnitId, rest: seq<UnitId>)
    ensures ([u] + rest)[0] == u && ([u] + rest)[1..] == rest
  {
  }

  /** The jobs of a fresh plan are all waiting. */
  lemma {:induction false} AllWaiting(jobs: seq<Job>)
    requires forall i :: 0 <= i < |jobs| ==> jobs[i].state == Waiting
    ensures WaitingUnits(jobs) == UnitsOf(jobs)
  {
    if jobs != [] {
      AllWaiting(jobs[1..]);
      assert UnitsOf(jobs) == [jobs[0].unit] + UnitsOf(jobs[1..]);
    }
  }

  lemma HardTargetsInside(reg: UnitTable, id: UnitId, dep: UnitId)
    requires WellFormed(reg) && id < |reg.units| && dep in HardTargets(reg, id)
    ensures dep < |reg.units|
  {
  }
}
