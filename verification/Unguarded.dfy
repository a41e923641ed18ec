/** Why guarded runs are needed: a START that reaches a unit whose restart is pending
    leaves it both running and about to be started again. */
module Unguarded {
  import opened Config
  import opened Sequences
  import opened Digraph
  import opened Registry
  import opened Kernel
  import opened Supervisor
  import opened Runs
  import opened Tidiness

  const SERVICE: ServiceSection := ServiceSection(Simple, Always, "5s", 0, "10s", "30s", "10s", false)

  /** A single service that is always restarted and needs nothing. */
  const LONE: UnitTable := UnitTable(
    [LoadedUnit("a", UnitFile(UnitSection([], [], [], [], []), Some(SERVICE), InstallSection([], [])))],
    map["a" := 0], map[], map[])

  const STILL: Round := Round([], 0, None, 0)

  /** It is spawned, exits at once, is collected, and can be spawned again. */
  const SCRIPT: seq<Round> := [Round([], 0, Some(1), 0), Round([ChildExit(1, Exited(1))], 0, None, 0), STILL, STILL, Round([], 0, Some(2), 0)]

  lemma LoneNeedsNothing()
    ensures WellFormed(LONE) && HardTargets(LONE, 0) == {} && RequirementEdges(LONE) == {}
  {
    assert RequirementTargets(LONE, 0) == {};
  }

  lemma OnlyZero(order: seq<nat>)
    requires NoDup(order) && ToSet(order) == {0}
    ensures order == [0]
  {
    forall i | 0 <= i < |order| ensures order[i] == 0 {
      assert order[i] in ToSet(order);
      assert order[i] in {0};
    }
    NoDupCardinality(order);
  }

  lemma LoneClosure()
    ensures StartClosure(LONE, 0) == {0}
  {
    LoneNeedsNothing();
    ClosureIsLeast(RequirementEdges(LONE), 0);
    assert Closed(RequirementEdges(LONE), {0});
  }

  lemma LonePlan()
    ensures WellFormed(LONE) && StartPlan(LONE, "a") == Plan([0])
  {
    hide WellFormed, StartPlan, StartClosure, StopPlan, NoDup, ToSet, Respects, Acyclic, OrderEdges;
    LoneNeedsNothing();
    RequirementCyclesAreAccepted(LONE, "a");
    StartPlanCorrect(LONE, "a");
    LoneClosure();
    OnlyZero(StartPlan(LONE, "a").order);
  }

  lemma Quiet(w: World)
    requires w.script != [] && w.script[0].steps == []
    ensures Advance(w) == w.(script := w.script[1..], now := w.now + w.script[0].delay)
  {
  }

  /** A start that finds a spawn in the script. */
  lemma StartsLone(s: Sup, p: Pid)
    requires Shaped(s) && s.reg == LONE && s.units[0].state != Active
    requires s.world.script != [] && s.world.script[0] == Round([], 0, Some(p), 0) && !IsUnreaped(s.world, p)
    ensures var r := StartUnit(s, 0);
      && r == Activate(s, [0]) && r == StartNamed(s, "a")
      && r.units == [s.units[0].(state := Active, pid := Some(p))] && r.byPid == s.byPid[p := 0]
      && r.reg == LONE && r.pending == s.pending && r.shuttingDown == s.shuttingDown
      && r.world == s.world.(script := s.world.script[1..], alive := s.world.alive + {p}, log := s.world.log + [Spawned(p)])
  {
    hide Advance, WellFormed, StartPlan, HardTargets, ParseDuration;
    LonePlan();
    LoneNeedsNothing();
    Quiet(s.world);
    assert !HasFailedDependency(s, 0);
    assert Activate(StartUnit(s, 0), []) == StartUnit(s, 0);
    assert StartInactive(StartUnit(s, 0), []) == StartUnit(s, 0);
  }

  ghost predicate Booted(s: Sup) {
    && Shaped(s) && s.reg == LONE && s.units == [UnitMeta(Active, Some(1), [])] && s.byPid == map[1 := 0]
    && s.pending == [] && !s.shuttingDown
    && s.world.alive == {1} && s.world.zombies == [] && s.world.script == SCRIPT[1..]
  }

  lemma Boots()
    ensures WellFormed(LONE) && StartPlan(LONE, "a").Plan? && Booted(Boot(LONE, "a", SCRIPT, 0))
  {
    LonePlan();
    StartsLone(Fresh(LONE, SCRIPT, 0), 1);
  }

  ghost predicate Exited1(s: Sup) {
    && Shaped(s) && s.reg == LONE && s.units == [UnitMeta(Active, Some(1), [])] && s.byPid == map[1 := 0]
    && s.pending == [] && !s.shuttingDown
    && s.world.alive == {} && s.world.zombies == [Zombie(1, Exited(1))] && s.world.sigchld && s.world.script == SCRIPT[2..]
  }

  lemma Exits(s: Sup)
    requires Booted(s)
    ensures Exited1(Step(s, Wait))
  {
    var w0 := s.world.(script := s.world.script[1..]);
    assert EnvActs(w0, SCRIPT[1].steps) == EnvAct(w0, ChildExit(1, Exited(1))) by {
      assert SCRIPT[1].steps[1..] == [];
    }
  }

  ghost predicate Waiting(s: Sup) {
    && Shaped(s) && s.reg == LONE && |s.units| == 1 && s.units[0].state == Failed && s.units[0].pid.None? && s.byPid == map[]
    && IsPending(s, 0) && !s.shuttingDown
    && s.world.alive == {} && s.world.zombies == [] && s.world.script == SCRIPT[4..]
  }

  lemma Collects(s: Sup)
    requires Exited1(s)
    ensures Waiting(Step(s, ReadSigchld))
  {
    var s0 := s.(world := s.world.(sigchld := false));
    Quiet(s0.world);
    var w1 := WaitAny(s0.world).1;
    assert WaitAny(s0.world).0 == Some(Zombie(1, Exited(1)));
    assert Without(s0.world.zombies, 1) == [];
    var s1 := OnChildExit(s0.(world := w1), 1, Exited(1));
    Schedules(s0.(world := w1));
    Quiet(s1.world);
    assert WaitAny(s1.world).0 == None;
    assert ReapAll(s1) == s1.(world := WaitAny(s1.world).1);
  }

  lemma Schedules(s: Sup)
    requires Shaped(s) && s.reg == LONE && s.units == [UnitMeta(Active, Some(1), [])] && s.byPid == map[1 := 0] && s.pending == [] && !s.shuttingDown
    ensures var r := OnChildExit(s, 1, Exited(1));
      && |r.units| == 1 && r.units[0].state == Failed && r.units[0].pid.None? && r.byPid == map[] && IsPending(r, 0)
      && r.world == s.world && r.reg == LONE && !r.shuttingDown
  {
    hide ParseDuration;
    var r := OnChildExit(s, 1, Exited(1));
    assert r.pending == [PendingRestart(0, s.world.now + RestartDelay(SERVICE))];
    assert r.pending[0] in r.pending;
    assert map[1 := 0] - {1} == map[];
  }

  /** Booting, one crash and a START before its restart is due: the service then runs and
      its restart is still pending, so it will be spawned a second time. */
  lemma UnguardedStartBreaks()
    ensures WellFormed(LONE) && StartPlan(LONE, "a").Plan?
    ensures var r := Run(Boot(LONE, "a", SCRIPT, 0), [Wait, ReadSigchld, Start("a")]);
      r.units[0].pid == Some(2) && IsPending(r, 0) && !Tidy(r)
  {
    hide Boot, Step, Tidy;
    Boots();
    var s0 := Boot(LONE, "a", SCRIPT, 0);
    Exits(s0);
    var s1 := Step(s0, Wait);
    Collects(s1);
    var s2 := Step(s1, ReadSigchld);
    LastStart(s2);
    var s3 := Step(s2, Start("a"));
    RunOf3(s0, Wait, ReadSigchld, Start("a"));
    NotTidy(s3);
  }

  lemma LastStart(s: Sup)
    requires Waiting(s)
    ensures var r := Step(s, Start("a")); |r.units| == 1 && r.units[0].pid == Some(2) && IsPending(r, 0)
  {
    hide StartNamed, StartUnit, Activate;
    assert s.world.script[0] == SCRIPT[4];
    StartsLone(s, 2);
    StillPending(s, Step(s, Start("a")), 0);
  }

  lemma StillPending(s: Sup, r: Sup, u: UnitId)
    requires r.pending == s.pending && IsPending(s, u)
    ensures IsPending(r, u)
  {
  }

  lemma NotTidy(s: Sup)
    requires |s.units| == 1 && s.units[0].pid.Some? && IsPending(s, 0)
    ensures !Tidy(s)
  {
    if Shaped(s) { assert !Settled(s, 0); }
  }
}
