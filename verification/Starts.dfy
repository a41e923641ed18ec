/** What the start of one unit does, read off its unit file: which process is made, how
    long a oneshot may take, and the state the unit ends in. */
module Starts {
  import opened Config
  import opened Registry
  import opened Kernel
  import opened Supervisor
  import opened Bookkeeping
  import opened Failure

  // ---------- How a oneshot ends ----------

  /** The process may end with this status: it has, it will, or it was sent SIGKILL. */
  ghost predicate MayEnd(w: World, p: Pid, st: Status) {
    || Zombie(p, st) in w.zombies
    || (exists i :: 0 <= i < |w.script| && ChildExit(p, st) in w.script[i].steps)
    || (p in w.doomed && st == Signaled(SIGKILL_NUMBER))
  }

  /** A zombie that acting on the steps makes was one before, or is of one of the steps. */
  lemma {:induction false} ActedZombies(w: World, steps: seq<EnvStep>, z: Zombie)
    requires z in EnvActs(w, steps).zombies
    ensures z in w.zombies || ChildExit(z.pid, z.status) in steps
    decreases |steps|
  {
    if steps != [] {
      ActedZombies(EnvAct(w, steps[0]), steps[1..], z);
      if z in EnvAct(w, steps[0]).zombies && z !in w.zombies { assert steps[0] == ChildExit(z.pid, z.status); }
    }
  }

  lemma {:induction false} DeathsAre(doomed: seq<Pid>, p: Pid, st: Status)
    requires ChildExit(p, st) in Deaths(doomed)
    ensures p in doomed && st == Signaled(SIGKILL_NUMBER)
  {
  }

  lemma AdvanceMayEnd(w: World, p: Pid, st: Status)
    requires MayEnd(Advance(w), p, st)
    ensures MayEnd(w, p, st)
  {
    AdvanceShortens(w);
    var w1 := Advance(w);
    if w.script == [] {
      EnvActsKeepScript(w, Deaths(w.doomed));
      if Zombie(p, st) in w1.zombies {
        ActedZombies(w, Deaths(w.doomed), Zombie(p, st));
        if ChildExit(p, st) in Deaths(w.doomed) { DeathsAre(w.doomed, p, st); }
      }
    } else {
      var w0 := w.(script := w.script[1..]);
      EnvActsKeepScript(w0, w.script[0].steps);
      if Zombie(p, st) in w1.zombies { ActedZombies(w0, w.script[0].steps, Zombie(p, st)); }
      assert forall i :: 0 <= i < |w1.script| ==> w1.script[i] == w.script[i + 1];
    }
  }

  /** A oneshot counts as clean only if its process may have exited with 0, and as unclean
      only if it may have ended otherwise. */
  lemma {:induction false} WaitOneshotMeans(w: World, p: Pid, deadline: nat)
    requires WorldInv(w) && IsUnreaped(w, p)
    ensures var outcome := WaitOneshot(w, p, deadline).0;
      && (outcome == Clean ==> MayEnd(w, p, Exited(0)))
      && (outcome == Unclean ==> exists st :: st != Exited(0) && MayEnd(w, p, st))
    decreases if w.now < deadline then deadline - w.now else 0
  {
    hide WorldInv, Advance, MayEnd, Follows, Calls;
    AdvanceShortens(w);
    AdvanceKeeps(w);
    var w1 := Advance(w);
    ZombieStatusFinds(w1.zombies, p);
    match WaitFor(w1, p).0
    case Collected(st) =>
      ZombieMayEnd(w1, p, st);
      AdvanceMayEnd(w, p, st);
    case NoChild =>
    case Running =>
      if w1.now < deadline {
        var w2 := Sleep(w1, POLL);
        SleepKeepsWorld(w1, POLL, p);
        WaitOneshotMeans(w2, p, deadline);
        forall st | MayEnd(w2, p, st) ensures MayEnd(w, p, st) {
          SleepMayEnd(w1, p, st);
          AdvanceMayEnd(w, p, st);
        }
      }
  }

  lemma ZombieMayEnd(w: World, p: Pid, st: Status)
    requires Zombie(p, st) in w.zombies
    ensures MayEnd(w, p, st)
  {
  }

  lemma SleepMayEnd(w: World, p: Pid, st: Status)
    requires MayEnd(Sleep(w, POLL), p, st)
    ensures MayEnd(w, p, st)
  {
  }

  // ---------- What a start does ----------

  /** The calls of a oneshot's start: it is collected, and killed first when it has outlived
      the deadline, and not before. */
  ghost predicate OneshotCalls(a: seq<Effect>, b: seq<Effect>, p: Pid, outcome: OneshotOutcome, deadline: nat) {
    if outcome != TimedOut then b == a + [Spawned(p)] + [Reaped(p)]
    else exists at: nat :: at >= deadline && b == a + [Spawned(p)] + [Sent(SIGKILL, p, at)] + [Reaped(p)]
  }

  /** A oneshot that was forked in w ran to this outcome. A clean one leaves its unit Active
      if it remains after exit and Inactive if not; any other leaves it Failed. */
  ghost predicate OneshotRan(s: Sup, r: Sup, id: UnitId, svc: ServiceSection, p: Pid, outcome: OneshotOutcome, w: World, d: nat)
    requires id < |r.units|
  {
    && NewNotes(s, r) == [Started(id, p), OneshotEnded(id, outcome)]
    && r.units[id].pid == None && r.units[id].state == (if outcome != Clean then Failed else if svc.remainAfterExit then Active else Inactive)
    && OneshotCalls(Calls(s.world.log), Calls(r.world.log), p, outcome, w.now + d)
    && (outcome == Clean ==> MayEnd(w, p, Exited(0)))
    && (outcome == Unclean ==> exists st :: st != Exited(0) && MayEnd(w, p, st))
  }

  /** A service was started; d is how long a oneshot may take. */
  ghost predicate StartedAs(s: Sup, r: Sup, id: UnitId, svc: ServiceSection, d: nat)
    requires id < |r.units| && id < |s.units|
  {
    var (child, w) := Spawn(s.world);
    if child.None? then
      && NewNotes(s, r) == [SpawnFailed(id)] && r.units[id].state == Failed && r.units[id].pid == s.units[id].pid
      && Calls(r.world.log) == Calls(s.world.log)
    else if !svc.kind.Oneshot? then
      && NewNotes(s, r) == [Started(id, child.value)] && r.units[id].state == Active && r.units[id].pid == child
      && Calls(r.world.log) == Calls(s.world.log) + [Spawned(child.value)]
    else
      exists outcome :: OneshotRan(s, r, id, svc, child.value, outcome, w, d)
  }

  lemma OneshotStarts(s: Sup, id: UnitId, svc: ServiceSection, p: Pid, w: World, d: nat)
    requires Sound(s) && id < |s.units| && svc.kind.Oneshot? && Spawn(s.world) == (Some(p), w) && StartTimeout(svc) == d
    ensures StartedAs(s, StartService(s, id, svc), id, svc, d)
  {
    hide WorldInv, PidsKnown, Spawn, WaitOneshot, MayEnd, Calls, StartTimeout, Follows, WellFormed;
    SoundWorld(s);
    SpawnKeeps(s.world);
    var (outcome, w') := WaitOneshot(w, p, w.now + d);
    WaitOneshotCalls(w, p, w.now + d);
    WaitOneshotMeans(w, p, w.now + d);
    var r := StartService(s, id, svc);
    assert r.journal == s.journal + [Started(id, p)] + [OneshotEnded(id, outcome)];
    assert NewNotes(s, r) == [Started(id, p), OneshotEnded(id, outcome)];
    assert r.world == w';
    if outcome == TimedOut {
      var at: nat :| at >= w.now + d && Calls(w'.log) == Calls(w.log) + [Sent(SIGKILL, p, at)] + [Reaped(p)];
      assert Calls(r.world.log) == Calls(s.world.log) + [Spawned(p)] + [Sent(SIGKILL, p, at)] + [Reaped(p)];
    }
    assert OneshotRan(s, r, id, svc, p, outcome, w, d);
  }

  lemma SimpleStarts(s: Sup, id: UnitId, svc: ServiceSection, d: nat)
    requires Sound(s) && id < |s.units| && (Spawn(s.world).0.None? || !svc.kind.Oneshot?)
    ensures StartedAs(s, StartService(s, id, svc), id, svc, d)
  {
    hide WorldInv, PidsKnown, Spawn, WaitOneshot, Calls, StartTimeout, Follows, WellFormed;
    SoundWorld(s);
    SpawnKeeps(s.world);
    var r := StartService(s, id, svc);
    assert (s.journal + [SpawnFailed(id)])[|s.journal|..] == [SpawnFailed(id)];
    if Spawn(s.world).0.Some? {
      var p := Spawn(s.world).0.value;
      assert (s.journal + [Started(id, p)])[|s.journal|..] == [Started(id, p)];
    }
  }

  lemma StartLimit(svc: ServiceSection, d: nat)
    requires IsDuration(svc.timeoutStartSec, 30 * SECOND, d)
    ensures StartTimeout(svc) == d
  {
    hide ParseDuration;
  }

  /** Starting a unit that nothing holds back: a service is forked, and the unit is Active
      with its process, or Failed if there is none. A oneshot is waited for as long as
      `timeout-start-sec` says, thirty seconds if it cannot be read; a clean end leaves the
      unit as `remain-after-exit` says. A unit without a service is Active at once. A unit
      that hard-requires a Failed one becomes Failed, and that is all. */
  lemma StartFollowsFile(s: Sup, id: UnitId, d: nat)
    requires Sound(s) && id < |s.units|
    ensures var r, service := StartUnit(s, id), s.reg.units[id].file.service;
      if exists dep :: dep in HardTargets(s.reg, id) && IsFailed(s, dep) then
        r.units[id] == s.units[id].(state := Failed) && r.journal == s.journal && r.world == s.world
      else if service.None? then
        r.units[id] == s.units[id].(state := Active) && r.journal == s.journal && r.world == s.world
      else IsDuration(service.value.timeoutStartSec, 30 * SECOND, d) ==> StartedAs(s, r, id, service.value, d)
  {
    hide WorldInv, PidsKnown, StartService, StartedAs, IsDuration, HardTargets, WellFormed;
    var service := s.reg.units[id].file.service;
    BlockedMeans(s, id);
    if service.Some? && IsDuration(service.value.timeoutStartSec, 30 * SECOND, d) {
      StartLimit(service.value, d);
      if Spawn(s.world).0.None? || !service.value.kind.Oneshot? {
        SimpleStarts(s, id, service.value, d);
      } else {
        OneshotStarts(s, id, service.value, Spawn(s.world).0.value, Spawn(s.world).1, d);
      }
    }
  }

  lemma BlockedMeans(s: Sup, id: UnitId)
    requires Shaped(s) && id < |s.units|
    ensures HasFailedDependency(s, id) <==> exists dep :: dep in HardTargets(s.reg, id) && IsFailed(s, dep)
  {
    hide HardTargets, WellFormed;
  }
}
