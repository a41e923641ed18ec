/** The kindest environment for a start: every fork succeeds and every oneshot exits
    cleanly at once. What a start does in it depends on the state and the unit files
    alone, and a script that brings it about can be written down. */
module BestCases {
  import opened Config
  import opened Registry
  import opened Kernel
  import opened Supervisor
  import opened Bookkeeping

  function WithScript(s: Sup, script: seq<Round>): Sup {
    s.(world := s.world.(script := script))
  }

  // ---------- A pid that is free ----------

  function Highest(pids: seq<Pid>): nat {
    if pids == [] then 0 else if pids[0] > Highest(pids[1..]) then pids[0] else Highest(pids[1..])
  }

  lemma {:induction false} HighestIsAbove(pids: seq<Pid>, p: Pid)
    requires p in pids
    ensures p <= Highest(pids)
  {
    if p != pids[0] { HighestIsAbove(pids[1..], p); }
  }

  ghost predicate IsFree(w: World, p: Pid) {
    !IsUnreaped(w, p)
  }

  lemma {:induction false} SomeBound(pids: set<Pid>) returns (n: nat)
    ensures forall p :: p in pids ==> p <= n
    decreases |pids|
  {
    if pids == {} {
      n := 0;
    } else {
      var p :| p in pids;
      n := SomeBound(pids - {p});
      assert forall q :: q in pids ==> q == p || q in pids - {p};
      if p > n { n := p; }
    }
  }

  function ZombiePids(zombies: seq<Zombie>): (r: seq<Pid>)
    ensures |r| == |zombies| && forall i :: 0 <= i < |r| ==> r[i] == zombies[i].pid
  {
    seq(|zombies|, i requires 0 <= i < |zombies| => zombies[i].pid)
  }

  lemma SomePidIsFree(w: World)
    ensures exists p: Pid :: IsFree(w, p)
  {
    var n := SomeBound(w.alive);
    var m := Highest(ZombiePids(w.zombies));
    var p: Pid := n + m + 1;
    forall z | z in w.zombies ensures z.pid <= m {
      var i :| 0 <= i < |w.zombies| && w.zombies[i] == z;
      assert ZombiePids(w.zombies)[i] == z.pid;
      HighestIsAbove(ZombiePids(w.zombies), z.pid);
    }
    assert IsFree(w, p);
  }

  ghost function FreePid(w: World): (p: Pid)
    ensures IsFree(w, p)
  {
    SomePidIsFree(w);
    var p: Pid :| IsFree(w, p);
    p
  }

  // ---------- One unit ----------

  function Forks(p: Pid): Round {
    Round([], 0, Some(p), 0)
  }

  function ExitsCleanly(p: Pid): Round {
    Round([ChildExit(p, Exited(0))], 0, None, 0)
  }

  /** The rounds that a start of this unit consumes. */
  ghost function BestRounds(s: Sup, id: UnitId): seq<Round>
    requires Shaped(s) && id < |s.units|
  {
    var svc := s.reg.units[id].file.service;
    if HasFailedDependency(s, id) || svc.None? then []
    else
      var p := FreePid(s.world);
      [Forks(p)] + if svc.value.kind.Oneshot? then [ExitsCleanly(p)] else []
  }

  /** What the start then does. */
  ghost function BestUnit(s: Sup, id: UnitId): (r: Sup)
    requires Shaped(s) && id < |s.units|
    ensures SameUnits(s, r)
  {
    var svc := s.reg.units[id].file.service;
    if HasFailedDependency(s, id) then SetState(s, id, Failed)
    else if svc.None? then SetState(s, id, Active)
    else
      var p := FreePid(s.world);
      var w := s.world.(alive := s.world.alive + {p}, log := s.world.log + [Spawned(p)]);
      var s1 := WithPid(SetState(s.(world := w), id, Activating), id, p);
      if svc.value.kind.Oneshot? then
        var w' := s.world.(sigchld := true, log := s.world.log + [Spawned(p)] + [Died(p)] + [Reaped(p)]);
        FinishOneshot(s1, id, p, svc.value, Clean, w')
      else SetState(s1, id, Active)
  }

  lemma {:induction false} LastZombie(zombies: seq<Zombie>, z: Zombie)
    requires !Among(zombies, z.pid)
    ensures ZombieStatus(zombies + [z], z.pid) == Some(z.status) && Without(zombies + [z], z.pid) == zombies
  {
    if zombies == [] {
      assert [z][1..] == [];
    } else {
      assert (zombies + [z])[0] == zombies[0] && (zombies + [z])[1..] == zombies[1..] + [z];
      assert zombies[0] in zombies && forall y :: y in zombies[1..] ==> y in zombies;
      LastZombie(zombies[1..], z);
    }
  }

  lemma {:induction false} NotDoomed(doomed: seq<Pid>, p: Pid)
    requires p !in doomed
    ensures Survivors(doomed, p) == doomed
  {
    if doomed != [] { NotDoomed(doomed[1..], p); }
  }

  /** A oneshot that exits in the round of the first poll. */
  lemma CleanOneshot(w: World, w0: World, p: Pid, deadline: nat, rest: seq<Round>)
    requires WorldInv(w0) && IsFree(w0, p)
    requires w == w0.(alive := w0.alive + {p}, log := w0.log + [Spawned(p)], script := [ExitsCleanly(p)] + rest)
    ensures WaitOneshot(w, p, deadline) == (Clean, w0.(sigchld := true, log := w0.log + [Spawned(p)] + [Died(p)] + [Reaped(p)], script := rest))
  {
    var z := Zombie(p, Exited(0));
    var w1 := w0.(zombies := w0.zombies + [z], sigchld := true, log := w0.log + [Spawned(p)] + [Died(p)], script := rest);
    assert w0.alive + {p} - {p} == w0.alive;
    assert Advance(w) == w1 by { OneExit(w, p, rest); }
    LastZombie(w0.zombies, z);
    NotDoomed(w0.doomed, p);
  }

  lemma OneExit(w: World, p: Pid, rest: seq<Round>)
    requires w.script == [ExitsCleanly(p)] + rest && p in w.alive
    ensures Advance(w) == w.(script := rest, alive := w.alive - {p}, zombies := w.zombies + [Zombie(p, Exited(0))], sigchld := true, log := w.log + [Died(p)])
  {
    var steps := [ChildExit(p, Exited(0))];
    assert w.script[1..] == rest && steps[1..] == [];
    var w0 := w.(script := rest);
    assert EnvActs(w0, steps) == EnvActs(EnvAct(w0, steps[0]), []);
  }

  lemma ForkSucceeds(w: World, p: Pid, rest: seq<Round>)
    requires w.script == [Forks(p)] + rest && IsFree(w, p)
    ensures Spawn(w) == (Some(p), w.(script := rest, alive := w.alive + {p}, log := w.log + [Spawned(p)]))
  {
    assert w.script[1..] == rest;
    assert EnvActs(w.(script := rest), []) == w.(script := rest);
  }

  lemma SameBlock(s: Sup, t: Sup, id: UnitId)
    requires Shaped(s) && Shaped(t) && t.units == s.units && t.reg == s.reg && id < |s.units|
    ensures HasFailedDependency(t, id) <==> HasFailedDependency(s, id)
  {
  }

  lemma OneshotStartIs(t: Sup, id: UnitId, svc: ServiceSection, p: Pid, w: World, w': World)
    requires Shaped(t) && id < |t.units| && svc.kind.Oneshot? && Spawn(t.world) == (Some(p), w)
    requires WaitOneshot(w, p, w.now + StartTimeout(svc)) == (Clean, w')
    ensures StartService(t, id, svc) == FinishOneshot(WithPid(SetState(t.(world := w), id, Activating), id, p), id, p, svc, Clean, w')
  {
    hide Spawn, WaitOneshot, StartTimeout, WellFormed, SetState, WithPid, FinishOneshot;
  }

  /** How a oneshot ends does not depend on the world it was started in. */
  lemma FinishIgnoresWorld(s: Sup, id: UnitId, p: Pid, svc: ServiceSection, w1: World, w2: World, w': World)
    requires id < |s.units|
    ensures FinishOneshot(WithPid(SetState(s.(world := w1), id, Activating), id, p), id, p, svc, Clean, w') ==
      FinishOneshot(WithPid(SetState(s.(world := w2), id, Activating), id, p), id, p, svc, Clean, w')
  {
    hide WellFormed, StateAfterOneshot, Shaped;
  }

  lemma FinishWithScript(s: Sup, id: UnitId, p: Pid, svc: ServiceSection, w: World, rest: seq<Round>)
    requires id < |s.units|
    ensures WithScript(FinishOneshot(s, id, p, svc, Clean, w), rest) == FinishOneshot(s, id, p, svc, Clean, w.(script := rest))
  {
    hide WellFormed, StateAfterOneshot, Shaped;
  }

  lemma BestOneshotStart(s: Sup, id: UnitId, svc: ServiceSection, rest: seq<Round>)
    requires Shaped(s) && WorldInv(s.world) && id < |s.units| && s.reg.units[id].file.service == Some(svc) && !HasFailedDependency(s, id)
    requires svc.kind.Oneshot?
    ensures Shaped(WithScript(s, BestRounds(s, id) + rest))
    ensures StartService(WithScript(s, BestRounds(s, id) + rest), id, svc) == WithScript(BestUnit(s, id), rest)
  {
    hide Spawn, WaitOneshot, WorldInv, HasFailedDependency, StartTimeout, WellFormed, SetState, WithPid, FinishOneshot, StartService;
    var p := FreePid(s.world);
    var t := WithScript(s, BestRounds(s, id) + rest);
    assert t.world.script == [Forks(p)] + ([ExitsCleanly(p)] + rest);
    ForkSucceeds(t.world, p, [ExitsCleanly(p)] + rest);
    var w := Spawn(t.world).1;
    CleanOneshot(w, s.world, p, w.now + StartTimeout(svc), rest);
    var best := s.world.(alive := s.world.alive + {p}, log := s.world.log + [Spawned(p)]);
    var w' := s.world.(sigchld := true, log := s.world.log + [Spawned(p)] + [Died(p)] + [Reaped(p)]);
    OneshotStartIs(t, id, svc, p, w, w'.(script := rest));
    assert t.(world := w) == s.(world := w);
    FinishIgnoresWorld(s, id, p, svc, w, best, w'.(script := rest));
    FinishWithScript(WithPid(SetState(s.(world := best), id, Activating), id, p), id, p, svc, w', rest);
  }

  lemma BestServiceStart(s: Sup, id: UnitId, svc: ServiceSection, rest: seq<Round>)
    requires Shaped(s) && WorldInv(s.world) && id < |s.units| && s.reg.units[id].file.service == Some(svc) && !HasFailedDependency(s, id)
    ensures Shaped(WithScript(s, BestRounds(s, id) + rest))
    ensures StartService(WithScript(s, BestRounds(s, id) + rest), id, svc) == WithScript(BestUnit(s, id), rest)
  {
    hide Spawn, WaitOneshot, WorldInv, HasFailedDependency, WellFormed;
    if svc.kind.Oneshot? {
      BestOneshotStart(s, id, svc, rest);
    } else {
      var p := FreePid(s.world);
      var t := WithScript(s, BestRounds(s, id) + rest);
      assert t.world.script == [Forks(p)] + rest;
      ForkSucceeds(t.world, p, rest);
    }
  }

  lemma BestStart(s: Sup, id: UnitId, rest: seq<Round>)
    requires Shaped(s) && WorldInv(s.world) && id < |s.units|
    ensures Shaped(WithScript(s, BestRounds(s, id) + rest))
    ensures StartUnit(WithScript(s, BestRounds(s, id) + rest), id) == WithScript(BestUnit(s, id), rest)
  {
    hide StartService, WorldInv, HasFailedDependency, FreePid;
    var t := WithScript(s, BestRounds(s, id) + rest);
    SameBlock(s, t, id);
    var svc := s.reg.units[id].file.service;
    if !HasFailedDependency(s, id) && svc.Some? {
      BestServiceStart(s, id, svc.value, rest);
    } else {
      assert BestRounds(s, id) + rest == rest;
    }
  }

  // ---------- A plan ----------

  /** The plan started in the kindest environment; units already Active are left alone. */
  ghost function BestAll(s: Sup, plan: seq<UnitId>): (r: Sup)
    requires Shaped(s) && ValidIds(|s.units|, plan)
    ensures SameUnits(s, r)
    decreases |plan|
  {
    if plan == [] then s
    else BestAll(if s.units[plan[0]].state == Active then s else BestUnit(s, plan[0]), plan[1..])
  }

  ghost function BestScript(s: Sup, plan: seq<UnitId>): seq<Round>
    requires Shaped(s) && ValidIds(|s.units|, plan)
    decreases |plan|
  {
    if plan == [] then []
    else if s.units[plan[0]].state == Active then BestScript(s, plan[1..])
    else BestRounds(s, plan[0]) + BestScript(BestUnit(s, plan[0]), plan[1..])
  }

  lemma ScriptSound(s: Sup, script: seq<Round>)
    ensures Sound(WithScript(s, script)) <==> Sound(s)
  {
    var t := WithScript(s, script);
    assert forall p :: IsUnreaped(t.world, p) <==> IsUnreaped(s.world, p);
  }

  lemma BestUnitSound(s: Sup, id: UnitId)
    requires Sound(s) && id < |s.units|
    ensures Sound(BestUnit(s, id))
  {
    hide Sound, BestUnit, StartUnit, BestRounds;
    ShapedAndInv(s);
    var t := WithScript(s, BestRounds(s, id) + []);
    ScriptSound(s, BestRounds(s, id) + []);
    BestStart(s, id, []);
    StartUnitSound(t, id);
    ScriptSound(BestUnit(s, id), []);
  }

  lemma ShapedAndInv(s: Sup)
    requires Sound(s)
    ensures Shaped(s) && WorldInv(s.world)
  {
  }

  /** The script does what it was made for. */
  lemma {:induction false} BestPlan(s: Sup, plan: seq<UnitId>, rest: seq<Round>)
    requires Sound(s) && ValidIds(|s.units|, plan)
    ensures Shaped(WithScript(s, BestScript(s, plan) + rest)) && Sound(BestAll(s, plan))
    ensures StartInactive(WithScript(s, BestScript(s, plan) + rest), plan) == WithScript(BestAll(s, plan), rest)
    decreases |plan|
  {
    hide Sound, BestUnit, StartUnit, BestRounds, WellFormed;
    ShapedAndInv(s);
    ScriptSound(s, BestScript(s, plan) + rest);
    ShapedAndInv(WithScript(s, BestScript(s, plan) + rest));
    if plan == [] {
      assert BestScript(s, plan) + rest == rest;
    } else if s.units[plan[0]].state == Active {
      BestPlan(s, plan[1..], rest);
    } else {
      var b := BestUnit(s, plan[0]);
      var later := BestScript(b, plan[1..]);
      assert BestRounds(s, plan[0]) + later + rest == BestRounds(s, plan[0]) + (later + rest);
      BestStart(s, plan[0], later + rest);
      BestUnitSound(s, plan[0]);
      BestPlan(b, plan[1..], rest);
    }
  }

  /** A non-oneshot service: what a successful start leaves running. */
  predicate IsLongRunning(reg: UnitTable, u: UnitId)
    requires u < |reg.units|
  {
    var svc := reg.units[u].file.service;
    svc.Some? && !svc.value.kind.Oneshot?
  }

  ghost predicate RunsAs(s: Sup, u: UnitId, p: Pid) {
    u < |s.units| && s.units[u].pid == Some(p) && p in s.byPid && s.byPid[p] == u && p in s.world.alive
  }

  ghost predicate IsRunning(s: Sup, u: UnitId) {
    exists p :: RunsAs(s, u, p)
  }

  /** What starting one unit changes at best. */
  ghost predicate BestChange(s: Sup, r: Sup, id: UnitId)
    requires Shaped(s) && id < |s.units|
  {
    && |r.units| == |s.units| && r.reg == s.reg && r.pending == s.pending && r.shuttingDown == s.shuttingDown
    && r.world.now == s.world.now && r.world.zombies == s.world.zombies && s.world.alive <= r.world.alive
    && (forall u: UnitId :: u < |s.units| && u != id ==> r.units[u] == s.units[u])
    && r.units[id].restartHistory == s.units[id].restartHistory
    && (HasFailedDependency(s, id) <==> r.units[id].state == Failed)
    && (HasFailedDependency(s, id) || !IsLongRunning(s.reg, id) ==> r.byPid == s.byPid)
    && (HasFailedDependency(s, id) ==> r.units[id].pid == s.units[id].pid)
  }

  lemma BestUnitFacts(s: Sup, id: UnitId)
    requires Sound(s) && id < |s.units|
    ensures BestChange(s, BestUnit(s, id), id)
    ensures !HasFailedDependency(s, id) && IsLongRunning(s.reg, id) ==> RunsAs(BestUnit(s, id), id, FreePid(s.world)) && BestUnit(s, id).units[id].state == Active && BestUnit(s, id).byPid == s.byPid[FreePid(s.world) := id]
    ensures FreePid(s.world) !in s.byPid
  {
    hide WorldInv, HasFailedDependency, FreePid, WellFormed;
    var p := FreePid(s.world);
    NewPidUnknown(s, p);
    assert s.byPid[p := id] - {p} == s.byPid;
  }

  /** A unit that runs goes on running. */
  lemma BestKeepsRunning(s: Sup, id: UnitId, u: UnitId)
    requires Sound(s) && id < |s.units| && id != u && IsRunning(s, u)
    ensures IsRunning(BestUnit(s, id), u)
  {
    hide Sound, BestUnit, HasFailedDependency, FreePid, IsLongRunning;
    ShapedAndInv(s);
    BestUnitFacts(s, id);
    var p :| RunsAs(s, u, p);
    assert RunsAs(BestUnit(s, id), u, p);
  }
}
