/** Runs that can be written down: a boot in which everything starts, and crashes of one
    service after another. They show that the conditions of the limiter and of the order
    of restarts are exact. */
module CrashRuns {
  import opened Config
  import opened Sequences
  import opened Registry
  import opened Kernel
  import opened Supervisor
  import opened Bookkeeping
  import opened Restarts
  import opened Failure
  import opened Runs
  import opened CrashLoops
  import opened Decisions
  import opened BestCases

  // ---------- Booting at best ----------

  ghost predicate NoneFailedAtAll(s: Sup) {
    forall u: UnitId :: u < |s.units| ==> s.units[u].state != Failed
  }

  ghost predicate ActiveRuns(s: Sup)
    requires Shaped(s)
  {
    forall u: UnitId :: u < |s.units| && IsLongRunning(s.reg, u) && s.units[u].state == Active ==> IsRunning(s, u)
  }

  /** Nothing is Failed, queued or dead, and every Active service runs. */
  ghost predicate WellUp(s: Sup) {
    Shaped(s) && NoneFailedAtAll(s) && ActiveRuns(s) && s.pending == [] && !s.shuttingDown && s.world.zombies == []
  }

  /** Every service of the plan is Active. */
  ghost predicate AllUp(s: Sup, plan: seq<UnitId>) {
    Shaped(s) && forall u: UnitId :: u in plan && u < |s.units| && IsLongRunning(s.reg, u) ==> s.units[u].state == Active
  }

  /** What is Active stays so. */
  ghost predicate StaysUp(s: Sup, r: Sup) {
    |s.units| <= |r.units| && r.reg == s.reg && forall u: UnitId :: u < |s.units| && s.units[u].state == Active ==> r.units[u].state == Active
  }

  lemma NothingBlocks(s: Sup, u: UnitId)
    requires Shaped(s) && NoneFailedAtAll(s) && u < |s.units|
    ensures !HasFailedDependency(s, u)
  {
  }

  lemma BestUnitUp(s: Sup, id: UnitId)
    requires Sound(s) && WellUp(s) && id < |s.units| && s.units[id].state != Active
    ensures WellUp(BestUnit(s, id)) && AllUp(BestUnit(s, id), [id]) && StaysUp(s, BestUnit(s, id))
  {
    hide BestUnit, HasFailedDependency, FreePid, IsLongRunning, WellFormed, IsRunning;
    var r := BestUnit(s, id);
    NothingBlocks(s, id);
    BestUnitFacts(s, id);
    forall u: UnitId | u < |r.units| && IsLongRunning(r.reg, u) && r.units[u].state == Active ensures IsRunning(r, u) {
      if u == id {
        FreeRuns(r, id, FreePid(s.world));
      } else {
        assert r.units[u] == s.units[u];
        BestKeepsRunning(s, id, u);
      }
    }
  }

  lemma FreeRuns(s: Sup, u: UnitId, p: Pid)
    requires RunsAs(s, u, p)
    ensures IsRunning(s, u)
  {
  }

  lemma {:induction false} BestAllUp(s: Sup, plan: seq<UnitId>)
    requires Sound(s) && WellUp(s) && ValidIds(|s.units|, plan)
    ensures WellUp(BestAll(s, plan)) && AllUp(BestAll(s, plan), plan) && StaysUp(s, BestAll(s, plan)) && Sound(BestAll(s, plan))
    ensures BestAll(s, plan).world.now == s.world.now
    decreases |plan|
  {
    hide Sound, WellUp, BestUnit, HasFailedDependency, IsLongRunning, WellFormed;
    ShapedAndInv(s);
    if plan != [] {
      assert plan == [plan[0]] + plan[1..];
      if s.units[plan[0]].state == Active {
        BestAllUp(s, plan[1..]);
      } else {
        BestUnitUp(s, plan[0]);
        BestUnitSound(s, plan[0]);
        BestUnitFacts(s, plan[0]);
        BestAllUp(BestUnit(s, plan[0]), plan[1..]);
      }
    }
  }

  /** From units that are not Active, activating is starting what is inactive. */
  lemma {:induction false} ActivateIsStart(s: Sup, plan: seq<UnitId>)
    requires Sound(s) && ValidIds(|s.units|, plan) && NoDup(plan) && forall i :: 0 <= i < |plan| ==> s.units[plan[i]].state != Active
    ensures Activate(s, plan) == StartInactive(s, plan)
    decreases |plan|
  {
    hide StartUnit, WorldInv, PidsKnown, WellFormed, Follows;
    if plan != [] {
      var s1 := StartUnit(s, plan[0]);
      StartUnitSound(s, plan[0]);
      StartUnitTouches(s, plan[0]);
      assert forall i :: 0 <= i < |plan[1..]| ==> plan[1..][i] == plan[i + 1] && plan[i + 1] != plan[0];
      ActivateIsStart(s1, plan[1..]);
    }
  }

  /** The boot that goes well, with more of the script to come. */
  lemma BestBoot(reg: UnitTable, target: string, now: nat) returns (b: Sup, script: seq<Round>)
    requires WellFormed(reg) && StartPlan(reg, target).Plan?
    ensures Sound(b) && WellUp(b) && b.reg == reg && |b.units| == |reg.units| && AllUp(b, StartPlan(reg, target).order)
    ensures b.world.now == now
    ensures forall rest :: Boot(reg, target, script + rest, now) == WithScript(b, rest)
  {
    hide Sound, WellUp, StartPlan, WellFormed, Activate, StartInactive, BestAll, BestScript, NothingLost, Accounted;
    var f, order := Fresh(reg, [], now), StartPlan(reg, target).order;
    FreshInvariant(reg, [], now);
    StartOrderValid(reg, target);
    FreshIsWell(f, reg, now);
    BestAllUp(f, order);
    b, script := BestAll(f, order), BestScript(f, order);
    forall rest ensures Boot(reg, target, script + rest, now) == WithScript(b, rest) {
      var t := WithScript(f, script + rest);
      assert t == Fresh(reg, script + rest, now);
      FreshInvariant(reg, script + rest, now);
      ActivateIsStart(t, order);
      BestPlan(f, order, rest);
    }
  }

  /** A start command that goes well. */
  lemma BestStartNamed(s: Sup, name: string) returns (b: Sup, script: seq<Round>)
    requires Sound(s) && WellUp(s) && StartPlan(s.reg, name).Plan?
    ensures Sound(b) && WellUp(b) && StaysUp(s, b) && AllUp(b, StartPlan(s.reg, name).order) && |b.units| == |s.units|
    ensures b.world.now == s.world.now
    ensures forall rest :: Shaped(WithScript(s, script + rest)) && StartNamed(WithScript(s, script + rest), name) == WithScript(b, rest)
  {
    hide Sound, WellUp, StartPlan, WellFormed, StartInactive, BestAll, BestScript;
    ShapedAndInv(s);
    var order := StartPlan(s.reg, name).order;
    StartOrderValid(s.reg, name);
    BestAllUp(s, order);
    b, script := BestAll(s, order), BestScript(s, order);
    forall rest ensures Shaped(WithScript(s, script + rest)) && StartNamed(WithScript(s, script + rest), name) == WithScript(b, rest) {
      BestPlan(s, order, rest);
    }
  }

  lemma FreshIsWell(f: Sup, reg: UnitTable, now: nat)
    requires f == Fresh(reg, [], now) && Shaped(f)
    ensures WellUp(f) && forall u: UnitId :: u < |f.units| ==> f.units[u].state == Inactive
  {
  }

  lemma BootHistory(reg: UnitTable, target: string, script: seq<Round>, now: nat, u: UnitId)
    requires WellFormed(reg) && StartPlan(reg, target).Plan?
    ensures Times(Boot(reg, target, script, now).journal, u) == []
  {
    hide Activate, Sound, NothingLost, Accounted, WellFormed, StartPlan, Uneventful, Times, Tally;
    var f := Fresh(reg, script, now);
    FreshInvariant(reg, script, now);
    StartOrderValid(reg, target);
    ActivateAccounts(f, StartPlan(reg, target).order);
    UneventfulAppend(f.journal, Boot(reg, target, script, now).journal, Scheduling, u);
    assert Times([], u) == [] by { EmptyTimes(u); }
  }

  lemma EmptyTimes(u: UnitId)
    ensures Times([], u) == []
  {
  }

  // ---------- A crash ----------

  const KILLED: Status := Signaled(SIGKILL_NUMBER)

  function Dies(p: Pid): Round {
    Round([ChildExit(p, KILLED)], 0, None, 0)
  }

  function Pause(delay: nat): Round {
    Round([], delay, None, 0)
  }

  function CrashScript(p: Pid): seq<Round> {
    [Dies(p), QUIET, Pause(0)]
  }

  const CRASH: seq<Event> := [Wait, ReadSigchld]

  lemma QuietRound(w: World)
    requires w.script != [] && w.script[0].steps == []
    ensures Advance(w) == w.(script := w.script[1..], now := w.now + w.script[0].delay)
  {
  }

  lemma DyingRound(w: World, p: Pid, rest: seq<Round>)
    requires w.script == [Dies(p)] + rest && p in w.alive
    ensures Advance(w) == w.(script := rest, alive := w.alive - {p}, zombies := w.zombies + [Zombie(p, KILLED)], sigchld := true, log := w.log + [Died(p)])
  {
    var steps := [ChildExit(p, KILLED)];
    assert w.script[1..] == rest && steps[1..] == [];
    var w0 := w.(script := rest);
    assert EnvActs(w0, steps) == EnvActs(EnvAct(w0, steps[0]), []);
  }

  lemma ExitIgnoresWorld(s: Sup, w: World, pid: Pid, st: Status)
    requires Shaped(s) && w.now == s.world.now
    ensures Shaped(s.(world := w)) && OnChildExit(s.(world := w), pid, st) == OnChildExit(s, pid, st).(world := w)
  {
    hide Consider, LimitInterval, RestartDelay, WantsRestart, WellFormed;
  }

  /** The child of a crash is collected, its exit handled, and nothing else happens. */
  ghost predicate Crashed(s: Sup, r: Sup, p: Pid, rest: seq<Round>)
    requires Shaped(s)
  {
    && r == OnChildExit(s, p, KILLED).(world := r.world)
    && r.world.now == s.world.now && r.world.alive == s.world.alive - {p} && r.world.zombies == [] && r.world.script == rest
  }

  lemma CollectsOne(s: Sup, p: Pid, delay: nat, rest: seq<Round>)
    requires Shaped(s) && s.world.zombies == [Zombie(p, KILLED)] && s.world.script == [QUIET, Pause(delay)] + rest
    ensures var r := ReapAll(s);
      && r == OnChildExit(s, p, KILLED).(world := r.world)
      && r.world.now == s.world.now + delay && r.world.alive == s.world.alive && r.world.zombies == [] && r.world.script == rest
  {
    hide OnChildExit, WellFormed, Advance;
    QuietRound(s.world);
    assert s.world.script[1..] == [Pause(delay)] + rest;
    var w1 := WaitAny(s.world).1;
    assert WaitAny(s.world).0 == Some(Zombie(p, KILLED));
    assert Without([Zombie(p, KILLED)], p) == [];
    ExitIgnoresWorld(s, w1, p, KILLED);
    var s1 := OnChildExit(s.(world := w1), p, KILLED);
    QuietRound(s1.world);
    assert s1.world.script[1..] == rest;
    assert WaitAny(s1.world).0 == None;
    assert ReapAll(s1) == s1.(world := WaitAny(s1.world).1);
  }

  lemma Crash(s: Sup, p: Pid, rest: seq<Round>)
    requires Shaped(s) && s.world.zombies == [] && p in s.world.alive && s.world.script == CrashScript(p) + rest
    ensures Crashed(s, Run(s, CRASH), p, rest)
  {
    hide OnChildExit, WellFormed, ReapAll, Advance;
    assert s.world.script == [Dies(p)] + ([QUIET, Pause(0)] + rest);
    DyingRound(s.world, p, [QUIET, Pause(0)] + rest);
    var s1 := Step(s, Wait);
    var s0 := s1.(world := s1.world.(sigchld := false));
    assert s0.world.zombies == [Zombie(p, KILLED)];
    CollectsOne(s0, p, 0, rest);
    ExitIgnoresWorld(s, s0.world, p, KILLED);
    RunOf2(s, Wait, ReadSigchld);
  }

  /** What an exit by a signal decides for a service that restarts at all. */
  ghost predicate Decided(s: Sup, r: Sup, u: UnitId, p: Pid, granted: bool)
    requires Shaped(s) && u < |s.units|
  {
    var now, fireAt := s.world.now, s.world.now + DelayOf(s.reg, u);
    && Shaped(r) && r.reg == s.reg && |r.units| == |s.units| && r.shuttingDown == s.shuttingDown && r.byPid == s.byPid - {p}
    && (forall v: UnitId :: v < |s.units| && v != u ==> r.units[v] == s.units[v])
    && r.units[u].pid.None?
    && r.journal == s.journal + [if granted then Scheduled(u, now, fireAt) else Refused(u, now)]
    && r.pending == if granted then s.pending + [PendingRestart(u, fireAt)] else s.pending
  }

  predicate Restartable(reg: UnitTable, u: UnitId)
    requires u < |reg.units|
  {
    IsLongRunning(reg, u) && reg.units[u].file.service.value.restart != No
  }

  lemma ExitDecides(s: Sup, u: UnitId, p: Pid)
    requires Shaped(s) && u < |s.units| && Restartable(s.reg, u) && p in s.byPid && s.byPid[p] == u && !s.shuttingDown
    ensures Decided(s, OnChildExit(s, p, KILLED), u, p, Consider(s.units[u].restartHistory, s.world.now, BurstOf(s.reg, u), IntervalOf(s.reg, u)).1)
  {
    hide Consider, LimitInterval, RestartDelay, WellFormed;
  }

  // ---------- A restart ----------

  const TIMER: seq<Event> := [Wait, Timer]

  function RestartScript(p: Pid, delay: nat): seq<Round> {
    [Pause(delay), Forks(p)]
  }

  lemma OneDue(u: UnitId, now: nat)
    ensures var q := [PendingRestart(u, now)];
      DueUnits(q, now) == [u] && NotDue(q, now) == [] && FiredNotes(q, now) == [Fired(u, now, now)]
  {
    var q := [PendingRestart(u, now)];
    assert q[1..] == [];
  }

  /** A free pid is forked for a service that nothing holds back. */
  lemma StartsRunning(s: Sup, u: UnitId, p: Pid, rest: seq<Round>)
    requires Shaped(s) && u < |s.units| && IsLongRunning(s.reg, u) && !HasFailedDependency(s, u)
    requires s.world.script == [Forks(p)] + rest && IsFree(s.world, p)
    ensures var r := StartUnit(s, u);
      && RunsAs(r, u, p) && r.journal == s.journal + [Started(u, p)] && r.pending == s.pending && r.shuttingDown == s.shuttingDown && r.reg == s.reg
      && |r.units| == |s.units| && (forall v: UnitId :: v < |s.units| && v != u ==> r.units[v] == s.units[v])
      && r.world.now == s.world.now && r.world.zombies == s.world.zombies && r.world.script == rest
  {
    hide Spawn, HasFailedDependency, WellFormed;
    ForkSucceeds(s.world, p, rest);
  }

  /** u was restarted under p, and nothing else happened. */
  ghost predicate Restarted(s: Sup, r: Sup, u: UnitId, p: Pid, rest: seq<Round>)
    requires Shaped(s)
  {
    && RunsAs(r, u, p) && r.pending == [] && r.shuttingDown == s.shuttingDown && r.reg == s.reg && |r.units| == |s.units|
    && (forall v: UnitId :: v < |s.units| && v != u ==> r.units[v] == s.units[v])
    && r.journal == s.journal + [Fired(u, r.world.now, r.world.now)] + [Started(u, p)]
    && r.world.zombies == s.world.zombies && r.world.script == rest
  }

  lemma FiresOne(s: Sup, u: UnitId, p: Pid, rest: seq<Round>)
    requires Shaped(s) && u < |s.units| && IsLongRunning(s.reg, u) && !HasFailedDependency(s, u)
    requires s.pending == [PendingRestart(u, s.world.now)] && s.world.script == [Forks(p)] + rest && IsFree(s.world, p)
    ensures Restarted(s, FireDue(s), u, p, rest) && FireDue(s).world.now == s.world.now
  {
    hide StartUnit, HasFailedDependency, WellFormed, IsLongRunning;
    var now := s.world.now;
    OneDue(u, now);
    var s1 := s.(pending := [], journal := s.journal + [Fired(u, now, now)]);
    SameBlock(s, s1, u);
    StartsRunning(s1, u, p, rest);
    assert [u][1..] == [] && Activate(StartUnit(s1, u), []) == StartUnit(s1, u);
    assert FireDue(s) == StartUnit(s1, u);
  }

  /** The one queued restart fires on the dot and runs under the same pid. */
  lemma Restarts1(s: Sup, u: UnitId, p: Pid, delay: nat, rest: seq<Round>)
    requires Shaped(s) && u < |s.units| && IsLongRunning(s.reg, u) && !HasFailedDependency(s, u)
    requires s.pending == [PendingRestart(u, s.world.now + delay)] && s.world.script == RestartScript(p, delay) + rest && IsFree(s.world, p)
    ensures Restarted(s, Run(s, TIMER), u, p, rest) && Run(s, TIMER).world.now == s.world.now + delay
  {
    hide Advance, FireDue, HasFailedDependency, WellFormed, IsLongRunning, Run, IsFree;
    assert s.world.script[1..] == [Forks(p)] + rest;
    QuietRound(s.world);
    StillFreePid(s.world, p);
    var s1 := s.(world := Advance(s.world));
    SameBlock(s, s1, u);
    FiresOne(s1, u, p, rest);
    TimerTurn(s);
  }

  lemma StillFreePid(w: World, p: Pid)
    requires IsFree(w, p) && w.script != [] && w.script[0].steps == []
    ensures IsFree(Advance(w), p)
  {
    QuietRound(w);
  }

  lemma TimerTurn(s: Sup)
    requires Shaped(s)
    ensures Shaped(s.(world := Advance(s.world))) && Run(s, TIMER) == FireDue(s.(world := Advance(s.world)))
  {
    hide Advance, FireDue, Run, Step;
    WaitIs(s);
    TimerIs(s.(world := Advance(s.world)));
    RunOf2(s, Wait, Timer);
  }

  lemma WaitIs(s: Sup)
    requires Shaped(s)
    ensures Shaped(s.(world := Advance(s.world))) && Step(s, Wait) == s.(world := Advance(s.world))
  {
    hide Advance, WellFormed;
  }

  lemma TimerIs(s: Sup)
    requires Shaped(s)
    ensures Step(s, Timer) == FireDue(s)
  {
    hide FireDue, WellFormed, ReadChildSignal, InitiateShutdown, StartNamed, StopUnit, EnableUnit, RestartUnit;
  }

  // ---------- Crash after crash ----------

  /** u runs under p, alone in the queue's eyes, after k restarts a delay apart. */
  ghost predicate Up(s: Sup, u: UnitId, p: Pid, k: nat) {
    && Invariant(s) && RunsAs(s, u, p) && s.world.zombies == [] && s.pending == [] && !s.shuttingDown
    && Restartable(s.reg, u) && u !in HardTargets(s.reg, u) && !HasFailedDependency(s, u)
    && |Times(s.journal, u)| == k && Paced(Times(s.journal, u), s.world.now, DelayOf(s.reg, u))
  }

  ghost predicate Paced(ts: seq<nat>, now: nat, delay: nat) {
    forall i :: 0 <= i < |ts| ==> ts[i] + (|ts| - i) * delay == now
  }

  lemma PacedPush(ts: seq<nat>, now: nat, delay: nat)
    requires Paced(ts, now, delay)
    ensures Paced(ts + [now], now + delay, delay)
  {
    forall i | 0 <= i < |ts + [now]| ensures (ts + [now])[i] + (|ts + [now]| - i) * delay == now + delay {
      if i < |ts| { assert (|ts| + 1 - i) * delay == (|ts| - i) * delay + delay; }
    }
  }

  /** With k restarts so far the limiter decides by k alone. */
  lemma PacedDecision(s: Sup, u: UnitId, p: Pid, k: nat)
    requires Up(s, u, p, k)
    ensures var burst, interval, granted := BurstOf(s.reg, u), IntervalOf(s.reg, u), Consider(s.units[u].restartHistory, s.world.now, BurstOf(s.reg, u), IntervalOf(s.reg, u)).1;
      && (k < burst || burst == 0 ==> granted)
      && (0 < burst <= k && burst * DelayOf(s.reg, u) <= interval ==> !granted)
  {
    hide Times, Consider, Ledger, FiredOnTime, AllLimited, Sound, NothingLost, HasFailedDependency, DelayOf, BurstOf, IntervalOf, Restartable;
    assert Accounted(s);
    PruningChangesNoDecision(s, u);
    var ts, now, burst, interval := Times(s.journal, u), s.world.now, BurstOf(s.reg, u), IntervalOf(s.reg, u);
    if burst > 0 {
      TracksNondecreasing(s, u);
      NotOldIsEnd(ts, now, interval, burst);
      if k >= burst { assert ts[k - burst] + burst * DelayOf(s.reg, u) == now; }
    }
  }

  lemma TracksNondecreasing(s: Sup, u: UnitId)
    requires Accounted(s) && u < |s.units|
    ensures Nondecreasing(Times(s.journal, u))
  {
    hide Times, Ledger, FiredOnTime;
    assert Limited(s, u);
  }

  lemma FreedPid(s: Sup, r: Sup, p: Pid)
    requires Invariant(s) && p in s.world.alive && r.world.alive == s.world.alive - {p} && r.world.zombies == []
    ensures IsFree(r.world, p)
  {
  }

  /** The failed state of u itself does not hold it back. */
  lemma StillFree(s: Sup, r: Sup, u: UnitId)
    requires Shaped(s) && Shaped(r) && r.reg == s.reg && |r.units| == |s.units| && u < |s.units| && u !in HardTargets(s.reg, u)
    requires !HasFailedDependency(s, u) && forall v: UnitId :: v < |s.units| && v != u ==> r.units[v] == s.units[v]
    ensures !HasFailedDependency(r, u)
  {
  }

  lemma CrashOf(s: Sup, u: UnitId, p: Pid, k: nat, rest: seq<Round>) returns (r: Sup)
    requires Up(s, u, p, k) && s.world.script == CrashScript(p) + rest
    ensures Shaped(s) && r == Run(s, CRASH) && Invariant(r)
    ensures Decided(s, r, u, p, Consider(s.units[u].restartHistory, s.world.now, BurstOf(s.reg, u), IntervalOf(s.reg, u)).1)
    ensures r.world.now == s.world.now && r.world.zombies == [] && r.world.script == rest && IsFree(r.world, p) && !HasFailedDependency(r, u)
  {
    hide Consider, Times, Paced, Accounted, NothingLost, HasFailedDependency, Restartable, HardTargets, BurstOf, IntervalOf, DelayOf, WellFormed, WorldInv, OnChildExit;
    RunKeeps(s, CRASH);
    Crash(s, p, rest);
    r := Run(s, CRASH);
    ExitDecides(s, u, p);
    FreedPid(s, r, p);
    StillFree(s, r, u);
  }

  lemma NotedTimes(a: seq<Note>, u: UnitId, now: nat, fireAt: nat, at: nat, p: Pid)
    ensures Times(a + [Scheduled(u, now, fireAt)] + [Fired(u, at, fireAt)] + [Started(u, p)], u) == Times(a, u) + [now]
  {
    hide Times;
    var b := a + [Scheduled(u, now, fireAt)];
    TimesConcat(a, [Scheduled(u, now, fireAt)], u);
    TimesOne(Scheduled(u, now, fireAt), u);
    TimesConcat(b, [Fired(u, at, fireAt)], u);
    TimesOne(Fired(u, at, fireAt), u);
    TimesConcat(b + [Fired(u, at, fireAt)], [Started(u, p)], u);
    TimesOne(Started(u, p), u);
  }

  /** A crash and its restart: one more of them. */
  lemma CrashAndRestart(s: Sup, u: UnitId, p: Pid, k: nat, rest: seq<Round>)
    requires Up(s, u, p, k) && (k < BurstOf(s.reg, u) || BurstOf(s.reg, u) == 0)
    requires s.world.script == CrashScript(p) + (RestartScript(p, DelayOf(s.reg, u)) + rest)
    ensures Shaped(s) && var r := Run(Run(s, CRASH), TIMER); Up(r, u, p, k + 1) && r.world.script == rest && r.reg == s.reg
  {
    hide Consider, Times, Paced, Accounted, NothingLost, Sound, HasFailedDependency, HardTargets, BurstOf, IntervalOf, DelayOf, WellFormed, Run;
    UpIsShaped(s, u, p, k);
    var delay := DelayOf(s.reg, u);
    PacedDecision(s, u, p, k);
    var m := CrashOf(s, u, p, k, RestartScript(p, delay) + rest);
    Restarts1(m, u, p, delay, rest);
    RunKeeps(m, TIMER);
    var r := Run(m, TIMER);
    StillFree(m, r, u);
    NotedTimes(s.journal, u, s.world.now, s.world.now + delay, s.world.now + delay, p);
    PacedPush(Times(s.journal, u), s.world.now, delay);
  }

  function LoopScript(p: Pid, delay: nat, n: nat): seq<Round> {
    CrashScript(p) + if n == 0 then [] else RestartScript(p, delay) + LoopScript(p, delay, n - 1)
  }

  function LoopEvents(n: nat): seq<Event> {
    CRASH + if n == 0 then [] else TIMER + LoopEvents(n - 1)
  }

  /** After n more restarts the next failure is refused. */
  lemma {:induction false} LoopRefuses(s: Sup, u: UnitId, p: Pid, k: nat, n: nat)
    requires Up(s, u, p, k) && k + n == BurstOf(s.reg, u) > 0 && BurstOf(s.reg, u) * DelayOf(s.reg, u) <= IntervalOf(s.reg, u)
    requires s.world.script == LoopScript(p, DelayOf(s.reg, u), n)
    ensures Shaped(s) && IsRefused(Run(s, LoopEvents(n)).journal, u)
    decreases n
  {
    hide Up, BurstOf, DelayOf, IntervalOf, Consider, Run, WellFormed, Times;
    UpIsShaped(s, u, p, k);
    var delay := DelayOf(s.reg, u);
    if n == 0 {
      assert CrashScript(p) + [] == CrashScript(p) && CRASH + [] == CRASH;
      PacedDecision(s, u, p, k);
      var r := CrashOf(s, u, p, k, []);
      assert Refused(u, s.world.now) in r.journal;
    } else {
      var rest := LoopScript(p, delay, n - 1);
      CrashAndRestart(s, u, p, k, rest);
      var r := Run(Run(s, CRASH), TIMER);
      LoopRefuses(r, u, p, k + 1, n - 1);
      RunConcat(s, CRASH, TIMER + LoopEvents(n - 1));
      RunConcat(Run(s, CRASH), TIMER, LoopEvents(n - 1));
    }
  }

  lemma UpIsShaped(s: Sup, u: UnitId, p: Pid, k: nat)
    requires Up(s, u, p, k)
    ensures Shaped(s) && u < |s.units| == |s.reg.units|
  {
  }

  // ---------- When the limiter trips ----------

  ghost predicate RefusedIn(reg: UnitTable, target: string, u: UnitId, script: seq<Round>, now: nat, events: seq<Event>)
    requires WellFormed(reg) && StartPlan(reg, target).Plan?
  {
    OnlyRestarts(Boot(reg, target, script, now), events, u) && IsRefused(Run(Boot(reg, target, script, now), events).journal, u)
  }

  /** Only waiting, collecting and timers. */
  ghost predicate NoCommands(events: seq<Event>) {
    forall e :: e in events ==> e.Wait? || e.ReadSigchld? || e.Timer?
  }

  lemma NoCommandsConcat(a: seq<Event>, b: seq<Event>)
    requires NoCommands(a) && NoCommands(b)
    ensures NoCommands(a + b)
  {
  }

  lemma LoopParts()
    ensures NoCommands(CRASH) && NoCommands(TIMER) && NoCommands([])
  {
  }

  lemma {:induction false} LoopHasNoCommands(n: nat)
    ensures NoCommands(LoopEvents(n))
  {
    hide NoCommands;
    LoopParts();
    if n == 0 {
      NoCommandsConcat(CRASH, []);
    } else {
      LoopHasNoCommands(n - 1);
      NoCommandsConcat(TIMER, LoopEvents(n - 1));
      NoCommandsConcat(CRASH, TIMER + LoopEvents(n - 1));
    }
  }

  lemma {:induction false} NoCommandsOnlyRestarts(s: Sup, events: seq<Event>, u: UnitId)
    requires Shaped(s) && NoCommands(events)
    ensures OnlyRestarts(s, events, u)
    decreases |events|
  {
    hide Step;
    if events != [] {
      assert events[0] in events && forall e :: e in events[1..] ==> e in events;
      NoCommandsOnlyRestarts(Step(s, events[0]), events[1..], u);
    }
  }

  lemma BootIsUp(reg: UnitTable, target: string, now: nat, u: UnitId, b: Sup, script: seq<Round>, rest: seq<Round>) returns (p: Pid)
    requires WellFormed(reg) && StartPlan(reg, target).Plan? && u < |reg.units| && u in StartPlan(reg, target).order
    requires Restartable(reg, u) && u !in HardTargets(reg, u)
    requires WellUp(b) && b.reg == reg && |b.units| == |reg.units| && AllUp(b, StartPlan(reg, target).order)
    requires forall more :: Boot(reg, target, script + more, now) == WithScript(b, more)
    ensures RunsAs(b, u, p) && Up(WithScript(b, rest), u, p, 0)
  {
    hide WellFormed, StartPlan, HardTargets, Sound, NothingLost, Accounted, Boot, Times, HasFailedDependency;
    assert IsRunning(b, u);
    p :| RunsAs(b, u, p);
    var s := WithScript(b, rest);
    assert s == Boot(reg, target, script + rest, now);
    BootInvariant(reg, target, script + rest, now);
    BootHistory(reg, target, script + rest, now, u);
    NothingBlocks(s, u);
  }

  /** The start limit is exact: for a service of the boot plan that restarts on failure and
      does not require itself, some environment gets a restart of it refused, its own
      restarts being the only starts, if and only if the burst is positive and that many
      delays fit into the interval. */
  lemma LimiterTripsIff(reg: UnitTable, target: string, u: UnitId)
    requires WellFormed(reg) && StartPlan(reg, target).Plan? && u < |reg.units| && u in StartPlan(reg, target).order
    requires Restartable(reg, u) && u !in HardTargets(reg, u)
    ensures (exists script, now, events :: RefusedIn(reg, target, u, script, now, events)) <==>
      0 < BurstOf(reg, u) && BurstOf(reg, u) * DelayOf(reg, u) <= IntervalOf(reg, u)
  {
    hide WellFormed, StartPlan, HardTargets, Boot, Run, BurstOf, DelayOf, IntervalOf, OnlyRestarts, IsRefused, WellUp, Up, Restartable;
    if exists script, now, events :: RefusedIn(reg, target, u, script, now, events) {
      var script, now, events :| RefusedIn(reg, target, u, script, now, events);
      if BurstOf(reg, u) == 0 || BurstOf(reg, u) * DelayOf(reg, u) > IntervalOf(reg, u) {
        LimiterNeverTrips(reg, target, script, now, events, u);
      }
    }
    if 0 < BurstOf(reg, u) && BurstOf(reg, u) * DelayOf(reg, u) <= IntervalOf(reg, u) {
      TripsLimiter(reg, target, u);
    }
  }

  lemma TripsLimiter(reg: UnitTable, target: string, u: UnitId)
    requires WellFormed(reg) && StartPlan(reg, target).Plan? && u < |reg.units| && u in StartPlan(reg, target).order
    requires Restartable(reg, u) && u !in HardTargets(reg, u)
    requires 0 < BurstOf(reg, u) && BurstOf(reg, u) * DelayOf(reg, u) <= IntervalOf(reg, u)
    ensures exists script, now, events :: RefusedIn(reg, target, u, script, now, events)
  {
    hide WellFormed, StartPlan, HardTargets, Boot, Run, BurstOf, DelayOf, IntervalOf, OnlyRestarts, IsRefused, WellUp, Up, Restartable;
    var b, script := BestBoot(reg, target, 0);
    var p := BootIsUp(reg, target, 0, u, b, script, []);
    var n := BurstOf(reg, u);
    var rest := LoopScript(p, DelayOf(reg, u), n);
    var q := BootIsUp(reg, target, 0, u, b, script, rest);
    assert p == q by { OnePid(b, u, p, q); }
    var s := Boot(reg, target, script + rest, 0);
    assert s == WithScript(b, rest);
    LoopRefuses(s, u, p, 0, n);
    LoopHasNoCommands(n);
    NoCommandsOnlyRestarts(s, LoopEvents(n), u);
    assert RefusedIn(reg, target, u, script + rest, 0, LoopEvents(n));
  }

  lemma OnePid(s: Sup, u: UnitId, p: Pid, q: Pid)
    requires RunsAs(s, u, p) && RunsAs(s, u, q)
    ensures p == q
  {
  }
}
