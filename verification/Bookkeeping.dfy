/** What every supervisor operation keeps, whatever the environment does: recorded pids
    are unreaped children, so signals reach only those; and no exited child is lost. */
module Bookkeeping {
  import opened Config
  import opened Sequences
  import opened Registry
  import opened Kernel
  import opened Supervisor

  /** Every recorded pid is mapped back to its unit, and every mapped pid is an unreaped
      child; `except` is a pid collected but not yet handled. */
  ghost predicate PidsKnown(s: Sup, except: set<Pid>) {
    && (forall u :: 0 <= u < |s.units| && s.units[u].pid.Some? ==>
          s.units[u].pid.value in s.byPid && s.byPid[s.units[u].pid.value] == u)
    && (forall p :: p in s.byPid && p !in except ==> IsUnreaped(s.world, p))
  }

  ghost predicate Sound(s: Sup) {
    Shaped(s) && WorldInv(s.world) && PidsKnown(s, {})
  }

  // ---------- Starting ----------

  /** The oneshot child is collected, and nobody else. */
  lemma {:induction false} WaitOneshotKeeps(w: World, pid: Pid, deadline: nat)
    requires WorldInv(w) && IsUnreaped(w, pid)
    ensures var w' := WaitOneshot(w, pid, deadline).1;
      && WorldInv(w') && Follows(w, w') && !IsUnreaped(w', pid)
      && (forall q :: IsUnreaped(w, q) && q != pid ==> IsUnreaped(w', q))
    decreases if w.now < deadline then deadline - w.now else 0
  {
    AdvanceShortens(w);
    AdvanceKeeps(w);
    var w1 := Advance(w);
    ZombieStatusFinds(w1.zombies, pid);
    match WaitFor(w1, pid).0
    case Collected(_) => ReapKeeps(w1, pid);
    case NoChild =>
    case Running =>
      if w1.now >= deadline {
        var w2 := Kill(w1, SIGKILL, pid);
        KillKeeps(w1, SIGKILL, pid);
        AwaitExitKeeps(w2, pid);
        ReapKeeps(AwaitExit(w2, pid), pid);
      } else {
        WaitOneshotKeeps(Sleep(w1, POLL), pid, deadline);
      }
  }

  /** Waiting for a oneshot makes one call unless the time is up: it collects the child.
      A child that outlives the deadline is killed first, and not before. */
  lemma {:induction false} WaitOneshotCalls(w: World, pid: Pid, deadline: nat)
    requires WorldInv(w) && IsUnreaped(w, pid)
    ensures var (outcome, w') := WaitOneshot(w, pid, deadline);
      && (outcome != TimedOut ==> Calls(w'.log) == Calls(w.log) + [Reaped(pid)])
      && (outcome == TimedOut ==> exists at: nat :: at >= deadline && Calls(w'.log) == Calls(w.log) + [Sent(SIGKILL, pid, at)] + [Reaped(pid)])
    decreases if w.now < deadline then deadline - w.now else 0
  {
    hide WorldInv, IsUnreaped, Calls, Follows;
    AdvanceShortens(w);
    AdvanceKeeps(w);
    var w1 := Advance(w);
    StillUnreaped(w, w1, pid);
    ZombieStatusFinds(w1.zombies, pid);
    match WaitFor(w1, pid).0
    case Collected(_) => ReapKeeps(w1, pid);
    case NoChild =>
    case Running =>
      if w1.now >= deadline {
        KilledOneshotCalls(w1, pid);
      } else {
        SleepKeepsWorld(w1, POLL, pid);
        WaitOneshotCalls(Sleep(w1, POLL), pid, deadline);
      }
  }

  lemma StillUnreaped(w: World, w1: World, pid: Pid)
    requires EnvOnly(w, w1) && IsUnreaped(w, pid)
    ensures IsUnreaped(w1, pid) && (pid in w1.alive || Among(w1.zombies, pid))
  {
  }

  lemma SleepKeepsWorld(w: World, nanos: nat, pid: Pid)
    requires WorldInv(w) && IsUnreaped(w, pid)
    ensures WorldInv(Sleep(w, nanos)) && IsUnreaped(Sleep(w, nanos), pid)
  {
    assert forall p :: IsUnreaped(w, p) <==> IsUnreaped(Sleep(w, nanos), p);
  }

  lemma KilledOneshotCalls(w: World, pid: Pid)
    requires WorldInv(w) && IsUnreaped(w, pid)
    ensures Calls(Reap(AwaitExit(Kill(w, SIGKILL, pid), pid), pid).log) == Calls(w.log) + [Sent(SIGKILL, pid, w.now)] + [Reaped(pid)]
  {
    hide Calls;
    var w2 := Kill(w, SIGKILL, pid);
    KillKeeps(w, SIGKILL, pid);
    AwaitExitKeeps(w2, pid);
    ReapKeeps(AwaitExit(w2, pid), pid);
  }

  lemma SetStateSound(s: Sup, id: UnitId, st: ActiveState)
    requires Sound(s) && id < |s.units|
    ensures Sound(SetState(s, id, st))
  {
  }

  lemma WorldSound(s: Sup, w: World)
    requires Sound(s) && WorldInv(w) && forall q :: IsUnreaped(s.world, q) ==> IsUnreaped(w, q)
    ensures Sound(s.(world := w))
  {
  }

  lemma WithPidSound(s: Sup, id: UnitId, pid: Pid)
    requires Sound(s) && id < |s.units| && pid !in s.byPid && IsUnreaped(s.world, pid)
    ensures Sound(WithPid(s, id, pid))
  {
  }

  lemma FinishOneshotSound(s: Sup, id: UnitId, pid: Pid, svc: ServiceSection, outcome: OneshotOutcome, w: World)
    requires Sound(s) && id < |s.units| && s.units[id].pid == Some(pid)
    requires WorldInv(w) && forall q :: IsUnreaped(s.world, q) && q != pid ==> IsUnreaped(w, q)
    ensures Sound(FinishOneshot(s, id, pid, svc, outcome, w))
  {
  }

  lemma SpawnFailureSound(s: Sup, id: UnitId)
    requires Sound(s) && id < |s.units|
    ensures Sound(SpawnFailure(s, id))
  {
  }

  lemma OneshotSound(s: Sup, id: UnitId, pid: Pid, svc: ServiceSection, deadline: nat)
    requires Sound(s) && id < |s.units| && pid !in s.byPid && IsUnreaped(s.world, pid)
    ensures var (outcome, w) := WaitOneshot(s.world, pid, deadline);
      Sound(FinishOneshot(WithPid(s, id, pid), id, pid, svc, outcome, w)) && Follows(s.world, w)
  {
    var s1 := WithPid(s, id, pid);
    var (outcome, w) := WaitOneshot(s.world, pid, deadline);
    WithPidSound(s, id, pid);
    WaitOneshotKeeps(s.world, pid, deadline);
    FinishOneshotSound(s1, id, pid, svc, outcome, w);
  }

  lemma SimpleSound(s: Sup, id: UnitId, pid: Pid)
    requires Sound(s) && id < |s.units| && pid !in s.byPid && IsUnreaped(s.world, pid)
    ensures Sound(SetState(WithPid(s, id, pid), id, Active))
  {
    WithPidSound(s, id, pid);
    SetStateSound(WithPid(s, id, pid), id, Active);
  }

  lemma StartServiceSound(s: Sup, id: UnitId, svc: ServiceSection)
    requires Shaped(s) && Sound(s) && id < |s.units|
    ensures Sound(StartService(s, id, svc)) && Follows(s.world, StartService(s, id, svc).world)
  {
    hide Sound, Shaped, PidsKnown, WorldInv, WaitOneshot, Spawn, SpawnFailure, WithPid, Calls, NothingLost;
    SoundWorld(s);
    SpawnKeeps(s.world);
    var (child, w) := Spawn(s.world);
    WorldSound(s, w);
    var s1 := SetState(s.(world := w), id, Activating);
    SetStateSound(s.(world := w), id, Activating);
    SpawnFailureSound(s1, id);
    SpawnFailureWorld(s1, id);
    if child.Some? {
      var pid := child.value;
      NewPidUnknown(s, pid);
      WithPidWorld(s1, id, pid);
      if svc.kind.Oneshot? {
        OneshotSound(s1, id, pid, svc, w.now + StartTimeout(svc));
      } else {
        SimpleSound(s1, id, pid);
      }
    }
  }

  lemma SpawnFailureWorld(s: Sup, id: UnitId)
    requires id < |s.units|
    ensures SpawnFailure(s, id).world == s.world
  {
  }

  lemma WithPidWorld(s: Sup, id: UnitId, pid: Pid)
    requires id < |s.units|
    ensures WithPid(s, id, pid).world == s.world && |WithPid(s, id, pid).units| == |s.units|
  {
  }

  lemma SoundWorld(s: Sup)
    requires Sound(s)
    ensures WorldInv(s.world)
  {
  }

  lemma StartUnitSound(s: Sup, id: UnitId)
    requires Sound(s) && id < |s.units|
    ensures Sound(StartUnit(s, id)) && Follows(s.world, StartUnit(s, id).world)
  {
    hide PidsKnown, WorldInv;
    SetStateSound(s, id, Failed);
    SetStateSound(s, id, Active);
    if s.reg.units[id].file.service.Some? {
      StartServiceSound(s, id, s.reg.units[id].file.service.value);
    }
  }

  lemma NewPidUnknown(s: Sup, pid: Pid)
    requires Sound(s) && !IsUnreaped(s.world, pid)
    ensures pid !in s.byPid
  {
  }

  lemma {:induction false} ActivateSound(s: Sup, plan: seq<UnitId>)
    requires Sound(s) && ValidIds(|s.units|, plan)
    ensures Sound(Activate(s, plan)) && Follows(s.world, Activate(s, plan).world)
    decreases |plan|
  {
    if plan != [] {
      StartUnitSound(s, plan[0]);
      ActivateSound(StartUnit(s, plan[0]), plan[1..]);
    }
  }

  lemma {:induction false} StartInactiveSound(s: Sup, plan: seq<UnitId>)
    requires Sound(s) && ValidIds(|s.units|, plan)
    ensures Sound(StartInactive(s, plan)) && Follows(s.world, StartInactive(s, plan).world)
    decreases |plan|
  {
    if plan != [] {
      if s.units[plan[0]].state == Active {
        StartInactiveSound(s, plan[1..]);
      } else {
        StartUnitSound(s, plan[0]);
        StartInactiveSound(StartUnit(s, plan[0]), plan[1..]);
      }
    }
  }

  // ---------- Child exits ----------

  lemma CollectedPidSound(s: Sup, pid: Pid)
    requires Shaped(s) && WorldInv(s.world) && PidsKnown(s, {pid}) && !IsUnreaped(s.world, pid) && pid in s.byPid
    ensures Sound(WithoutPid(s, s.byPid[pid], pid))
  {
  }

  lemma MaybeScheduleSound(s: Sup, id: UnitId, st: Status)
    requires Sound(s) && id < |s.units|
    ensures Sound(MaybeSchedule(s, id, st))
  {
  }

  lemma OnChildExitSound(s: Sup, pid: Pid, st: Status)
    requires Shaped(s) && WorldInv(s.world) && PidsKnown(s, {pid}) && !IsUnreaped(s.world, pid)
    ensures Sound(OnChildExit(s, pid, st))
  {
    if pid in s.byPid {
      var id := s.byPid[pid];
      CollectedPidSound(s, pid);
      var s0 := WithoutPid(s, id, pid);
      var st' := if s.shuttingDown || IsClean(st) then Inactive else Failed;
      SetStateSound(s0, id, st');
      MaybeScheduleSound(SetState(s0, id, st'), id, st);
    }
  }

  /** Collecting a child and handling its exit. */
  lemma CollectSound(s: Sup)
    requires Sound(s) && WaitAny(s.world).0.Some?
    ensures var (r, w) := WaitAny(s.world);
      && Shaped(s.(world := w)) && Sound(OnChildExit(s.(world := w), r.value.pid, r.value.status))
      && Follows(s.world, w)
  {
    WaitAnyKeeps(s.world);
    var (r, w) := WaitAny(s.world);
    OnChildExitSound(s.(world := w), r.value.pid, r.value.status);
  }

  /** A reap pass ends only when, at that moment, no zombie is left. */
  lemma {:induction false} ReapAllSound(s: Sup)
    requires Sound(s)
    ensures Sound(ReapAll(s)) && ReapAll(s).world.zombies == []
    ensures s.world.now <= ReapAll(s).world.now && |ReapAll(s).world.script| <= |s.world.script|
    decreases |s.world.script|, Left(s.world)
  {
    WaitAnyShrinks(s.world);
    WaitAnyKeeps(s.world);
    var (child, w) := WaitAny(s.world);
    if child.Some? {
      CollectSound(s);
      ReapAllSound(OnChildExit(s.(world := w), child.value.pid, child.value.status));
    }
  }

  // ---------- Timers ----------

  lemma FireDueSound(s: Sup)
    requires Sound(s)
    ensures Sound(FireDue(s)) && Follows(s.world, FireDue(s).world)
  {
    var now := s.world.now;
    var s1 := s.(pending := NotDue(s.pending, now), journal := s.journal + FiredNotes(s.pending, now));
    DueUnitsValid(s.pending, now, |s.units|);
    ActivateSound(s1, DueUnits(s.pending, now));
  }

  // ---------- Stopping ----------

  lemma MarkOneSound(s: Sup, id: UnitId)
    requires Sound(s) && id < |s.units|
    ensures Sound(MarkOne(s, id)) && Follows(s.world, MarkOne(s, id).world)
    ensures forall u :: 0 <= u < |s.units| ==> MarkOne(s, id).units[u].pid == s.units[u].pid
    ensures MarkOne(s, id).world.alive == s.world.alive && MarkOne(s, id).world.zombies == s.world.zombies
  {
    if s.units[id].pid.Some? {
      KillKeeps(s.world, SIGTERM, s.units[id].pid.value);
    }
  }

  lemma {:induction false} MarkAllSound(s: Sup, plan: seq<UnitId>)
    requires Sound(s) && ValidIds(|s.units|, plan)
    ensures Sound(MarkAll(s, plan)) && Follows(s.world, MarkAll(s, plan).world)
    ensures forall u :: 0 <= u < |s.units| ==> MarkAll(s, plan).units[u].pid == s.units[u].pid
    ensures MarkAll(s, plan).world.alive == s.world.alive && MarkAll(s, plan).world.zombies == s.world.zombies
    decreases |plan|
  {
    if plan != [] {
      MarkOneSound(s, plan[0]);
      MarkAllSound(MarkOne(s, plan[0]), plan[1..]);
    }
  }

  /** Everyone the drain waits for is an unreaped child and, once it has escalated, has
      been sent SIGKILL or has exited. */
  ghost predicate Awaiting(w: World, expected: seq<Pid>, escalated: bool) {
    && (forall p :: p in expected ==> IsUnreaped(w, p))
    && (escalated ==> forall p :: p in expected && p in w.alive ==> p in w.doomed)
  }

  lemma {:induction false} KillAllKeeps(w: World, pids: seq<Pid>)
    requires WorldInv(w) && forall p :: p in pids ==> IsUnreaped(w, p)
    ensures var w' := KillAll(w, pids);
      && WorldInv(w') && Follows(w, w') && w'.alive == w.alive && w'.zombies == w.zombies
      && (forall p :: p in w.doomed ==> p in w'.doomed)
      && (forall p :: p in pids && p in w'.alive ==> p in w'.doomed)
    decreases |pids|
  {
    if pids != [] {
      assert pids[0] in pids && pids == [pids[0]] + pids[1..];
      KillKeeps(w, SIGKILL, pids[0]);
      var w' := Kill(w, SIGKILL, pids[0]);
      assert forall p :: IsUnreaped(w', p) <==> IsUnreaped(w, p);
      KillAllKeeps(w', pids[1..]);
    }
  }

  lemma {:induction false} DrainReapSound(s: Sup, expected: seq<Pid>, escalated: bool)
    requires Sound(s) && Awaiting(s.world, expected, escalated)
    ensures var (r, left) := DrainReap(s, expected);
      && Sound(r) && Awaiting(r.world, left, escalated) && Follows(s.world, r.world)
      && (forall p :: p in left ==> p in expected)
      && r.world.zombies == []
    decreases |s.world.script|, Left(s.world)
  {
    WaitAnyShrinks(s.world);
    WaitAnyKeeps(s.world);
    var (child, w) := WaitAny(s.world);
    if child.Some? {
      CollectSound(s);
      DrainReapSound(OnChildExit(s.(world := w), child.value.pid, child.value.status), RemovePid(expected, child.value.pid), escalated);
    }
  }

  /** Once the script is over everyone sent SIGKILL has exited by the next wait. */
  lemma {:induction false} DrainReapEnds(s: Sup, expected: seq<Pid>)
    requires Sound(s) && Awaiting(s.world, expected, true) && s.world.script == []
    ensures DrainReap(s, expected).1 == []
    decreases Left(s.world)
  {
    WaitAnyShrinks(s.world);
    WaitAnyKeeps(s.world);
    DeathsHappen(s.world, s.world.doomed);
    var (child, w) := WaitAny(s.world);
    if child.Some? {
      CollectSound(s);
      DrainReapEnds(OnChildExit(s.(world := w), child.value.pid, child.value.status), RemovePid(expected, child.value.pid));
    } else {
      EmptyOrMember(expected);
    }
  }

  /** Handling exits only removes pids, and a drain removes those it stops expecting. */
  lemma {:induction false} DrainReapForgets(s: Sup, expected: seq<Pid>)
    requires Shaped(s)
    ensures var (r, left) := DrainReap(s, expected);
      r.byPid.Keys <= s.byPid.Keys && forall p :: p in expected && p !in left ==> p !in r.byPid
    decreases |s.world.script|, Left(s.world)
  {
    WaitAnyShrinks(s.world);
    var (child, w) := WaitAny(s.world);
    if child.Some? {
      ExitForgets(s.(world := w), child.value.pid, child.value.status);
      DrainReapForgets(OnChildExit(s.(world := w), child.value.pid, child.value.status), RemovePid(expected, child.value.pid));
    }
  }

  lemma ExitForgets(s: Sup, pid: Pid, st: Status)
    requires Shaped(s)
    ensures OnChildExit(s, pid, st).byPid.Keys == s.byPid.Keys - {pid}
  {
  }

  /** Sending SIGKILL to everyone still expected, when it is time to. */
  lemma EscalateKeeps(s: Sup, expected: seq<Pid>, escalated: bool)
    requires Sound(s) && Awaiting(s.world, expected, escalated)
    ensures var w := KillAll(s.world, expected);
      && Sound(s.(world := w)) && Awaiting(w, expected, true) && Follows(s.world, w)
      && w.now == s.world.now && w.script == s.world.script
  {
    KillAllKeepsTime(s.world, expected);
    KillAllKeeps(s.world, expected);
    WorldSound(s, KillAll(s.world, expected));
  }

  lemma SleepKeeps(s: Sup, expected: seq<Pid>, escalated: bool, nanos: nat)
    requires Sound(s) && Awaiting(s.world, expected, escalated)
    ensures var w := Sleep(s.world, nanos);
      Sound(s.(world := w)) && Awaiting(w, expected, escalated) && Follows(s.world, w)
  {
  }

  /** Nobody in `expected` has a recorded process any more, and no process was recorded. */
  ghost predicate Forgot(before: map<Pid, UnitId>, after: map<Pid, UnitId>, expected: seq<Pid>) {
    after.Keys <= before.Keys && forall p :: p in expected ==> p !in after
  }

  lemma ForgotMore(a: map<Pid, UnitId>, b: map<Pid, UnitId>, c: map<Pid, UnitId>, expected: seq<Pid>, left: seq<Pid>)
    requires b.Keys <= a.Keys && (forall p :: p in expected && p !in left ==> p !in b) && Forgot(b, c, left)
    ensures Forgot(a, c, expected)
  {
    forall p | p in expected ensures p !in c {
      if p !in left { assert p !in b.Keys; }
    }
  }

  /** The drain ends with every child it waited for collected and handled. */
  lemma {:induction false} DrainSound(s: Sup, expected: seq<Pid>, start: nat, grace: nat, escalated: bool)
    requires Sound(s) && Awaiting(s.world, expected, escalated)
    ensures var r := Drain(s, expected, start, grace, escalated);
      Sound(r) && Follows(s.world, r.world) && Forgot(s.byPid, r.byPid, expected)
    decreases |s.world.script|, !escalated, if s.world.now <= start + grace then start + grace - s.world.now + 1 else 0
  {
    hide PidsKnown, WorldInv, Awaiting, DrainReap, KillAll, IsUnreaped, NothingLost;
    if expected != [] {
      var escalate := !escalated && s.world.now > start + grace;
      EscalateKeeps(s, expected, escalated);
      var s1 := if escalate then s.(world := KillAll(s.world, expected)) else s;
      DrainReapSound(s1, expected, escalated || escalate);
      DrainReapForgets(s1, expected);
      var (s2, left) := DrainReap(s1, expected);
      if left != [] {
        if s.world.script == [] && (escalated || escalate) {
          DrainReapEnds(s1, expected);
        } else {
          var s3 := s2.(world := Sleep(s2.world, DRAIN_PAUSE));
          SleepKeeps(s2, left, escalated || escalate, DRAIN_PAUSE);
          DrainSound(s3, left, start, grace, escalated || escalate);
          ForgotMore(s.byPid, s2.byPid, Drain(s, expected, start, grace, escalated).byPid, expected, left);
        }
      }
    }
  }
}
