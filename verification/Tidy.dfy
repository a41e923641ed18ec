/** The stronger bookkeeping of runs in which no start can spawn a unit whose restart is
    pending. */
module Tidiness {
  import opened Config
  import opened Sequences
  import opened Registry
  import opened Kernel
  import opened Supervisor
  import opened Bookkeeping
  import opened Stopping
  import opened Restarts
  import opened Failure
  import opened Runs
  import opened BestCases

  ghost predicate IsPending(s: Sup, u: UnitId) {
    exists p :: p in s.pending && p.unit == u
  }

  /** Active without a process: a target, or a oneshot that remains after exit. */
  predicate NeedsNoProcess(reg: UnitTable, u: UnitId)
    requires u < |reg.units|
  {
    var svc := reg.units[u].file.service;
    svc.None? || (svc.value.kind.Oneshot? && svc.value.remainAfterExit)
  }

  /** Between events: no unit is half-way, a process means Active and no pending restart,
      and Active means a process or no need of one. */
  ghost predicate Settled(s: Sup, u: UnitId)
    requires Shaped(s) && u < |s.units|
  {
    var m := s.units[u];
    && m.state != Activating && m.state != Deactivating
    && (m.pid.Some? ==> m.state == Active && m.pid.value in s.byPid && s.byPid[m.pid.value] == u && !IsPending(s, u))
    && (m.state == Active ==> m.pid.Some? || NeedsNoProcess(s.reg, u))
  }

  ghost predicate OnePending(pending: seq<PendingRestart>) {
    forall i, j :: 0 <= i < j < |pending| ==> pending[i].unit != pending[j].unit
  }

  ghost predicate Inverse(s: Sup) {
    forall p :: p in s.byPid ==> s.byPid[p] < |s.units| && s.units[s.byPid[p]].pid == Some(p)
  }

  ghost predicate AllSettled(s: Sup)
    requires Shaped(s)
  {
    forall u: UnitId :: u < |s.units| ==> Settled(s, u)
  }

  ghost predicate Tidy(s: Sup) {
    Shaped(s) && AllSettled(s) && Inverse(s) && OnePending(s.pending)
  }

  // ---------- Starting ----------

  predicate Idle(s: Sup, id: UnitId) {
    id < |s.units| && s.units[id].pid.None?
  }

  /** What a unit that may be started looks like. */
  ghost predicate Startable(s: Sup, id: UnitId) {
    Idle(s, id) && !IsPending(s, id)
  }

  /** A tidy state, clause by clause. */
  lemma TidyFacts(s: Sup)
    requires Tidy(s)
    ensures forall u: UnitId :: u < |s.units| ==>
      && s.units[u].state != Activating && s.units[u].state != Deactivating
      && (s.units[u].pid.Some? ==> s.units[u].state == Active && !IsPending(s, u))
      && (s.units[u].pid.Some? ==> s.units[u].pid.value in s.byPid && s.byPid[s.units[u].pid.value] == u)
      && (s.units[u].state == Active ==> s.units[u].pid.Some? || NeedsNoProcess(s.reg, u))
  {
    hide IsPending, NeedsNoProcess;
    forall u: UnitId | u < |s.units| ensures Settled(s, u) {}
    forall u: UnitId | u < |s.units|
      ensures s.units[u].state != Activating && s.units[u].state != Deactivating
      ensures s.units[u].pid.Some? ==> s.units[u].state == Active && !IsPending(s, u)
      ensures s.units[u].pid.Some? ==> s.units[u].pid.value in s.byPid && s.byPid[s.units[u].pid.value] == u
      ensures s.units[u].state == Active ==> s.units[u].pid.Some? || NeedsNoProcess(s.reg, u)
    {
      assert Settled(s, u);
    }
  }

  /** Only unit id changed. */
  lemma TidyFrom(s: Sup, r: Sup, id: UnitId)
    requires Tidy(s) && Shaped(r) && r.reg.units == s.reg.units && r.pending == s.pending && |r.units| == |s.units|
    requires forall u: UnitId :: u < |s.units| && u != id ==> r.units[u] == s.units[u]
    requires forall u: UnitId :: u < |s.units| && u != id && s.units[u].pid.Some? ==>
      s.units[u].pid.value in r.byPid && r.byPid[s.units[u].pid.value] == u
    requires id < |r.units| && Settled(r, id) && Inverse(r)
    ensures Tidy(r)
  {
    forall u: UnitId | u < |r.units| ensures Settled(r, u) {
      assert Settled(s, u);
      assert IsPending(r, u) <==> IsPending(s, u);
    }
  }

  lemma StateTidy(s: Sup, id: UnitId, st: ActiveState)
    requires Tidy(s) && Idle(s, id) && st != Activating && st != Deactivating
    requires st == Active ==> NeedsNoProcess(s.reg, id)
    ensures Tidy(SetState(s, id, st))
  {
    var r := SetState(s, id, st);
    TidyFacts(s);
    assert IsPending(r, id) <==> IsPending(s, id);
    TidyFrom(s, r, id);
  }

  lemma RunningTidy(s: Sup, id: UnitId, pid: Pid)
    requires Tidy(s) && Startable(s, id) && pid !in s.byPid
    ensures Tidy(SetState(WithPid(s, id, pid), id, Active))
  {
    var r := SetState(WithPid(s, id, pid), id, Active);
    TidyFacts(s);
    assert IsPending(r, id) <==> IsPending(s, id);
    TidyFrom(s, r, id);
  }

  lemma SameTidy(s: Sup, r: Sup)
    requires Tidy(s) && Shaped(r) && r.reg.units == s.reg.units && r.pending == s.pending && r.units == s.units && r.byPid == s.byPid
    ensures Tidy(r) && forall u :: (Idle(s, u) <==> Idle(r, u)) && (Startable(s, u) <==> Startable(r, u))
  {
    forall u: UnitId ensures IsPending(r, u) <==> IsPending(s, u) {}
    forall u: UnitId | u < |r.units| ensures Settled(r, u) { assert Settled(s, u); }
  }

  lemma WorldTidy(s: Sup, w: World)
    requires Tidy(s)
    ensures Tidy(s.(world := w)) && forall u :: (Idle(s, u) <==> Idle(s.(world := w), u)) && (Startable(s, u) <==> Startable(s.(world := w), u))
  {
    SameTidy(s, s.(world := w));
  }

  lemma JournalTidy(s: Sup, journal: seq<Note>)
    requires Tidy(s)
    ensures Tidy(s.(journal := journal))
  {
    SameTidy(s, s.(journal := journal));
  }

  /** A oneshot comes and goes: the pid it had is forgotten again. */
  lemma OneshotLeavesNoTrace(s: Sup, id: UnitId, pid: Pid, svc: ServiceSection, outcome: OneshotOutcome, w: World)
    requires Shaped(s) && Idle(s, id) && pid !in s.byPid
    ensures var r := FinishOneshot(WithPid(SetState(s, id, Activating), id, pid), id, pid, svc, outcome, w);
      r == SetState(s, id, StateAfterOneshot(svc, outcome)).(world := w, journal := s.journal + [Started(id, pid)] + [OneshotEnded(id, outcome)])
  {
    var m := s.byPid[pid := id] - {pid};
    assert m == s.byPid;
  }

  lemma SpawnFailureTidy(s: Sup, id: UnitId)
    requires Tidy(s) && Idle(s, id)
    ensures Tidy(SpawnFailure(SetState(s, id, Activating), id))
  {
    StateTidy(s, id, Failed);
    var r := SpawnFailure(SetState(s, id, Activating), id);
    assert r == SetState(s, id, Failed).(journal := r.journal);
    JournalTidy(SetState(s, id, Failed), r.journal);
  }

  lemma OneshotTidy(s: Sup, id: UnitId, pid: Pid, svc: ServiceSection, outcome: OneshotOutcome, w: World)
    requires Tidy(s) && Idle(s, id) && pid !in s.byPid && s.reg.units[id].file.service == Some(svc) && svc.kind.Oneshot?
    ensures Tidy(FinishOneshot(WithPid(SetState(s, id, Activating), id, pid), id, pid, svc, outcome, w))
  {
    hide AllSettled, Inverse, OnePending, IsPending;
    OneshotLeavesNoTrace(s, id, pid, svc, outcome, w);
    StateTidy(s, id, StateAfterOneshot(svc, outcome));
    var s1 := SetState(s, id, StateAfterOneshot(svc, outcome));
    WorldTidy(s1, w);
    JournalTidy(s1.(world := w), s.journal + [Started(id, pid)] + [OneshotEnded(id, outcome)]);
  }

  lemma SimpleTidy(s: Sup, id: UnitId, pid: Pid)
    requires Tidy(s) && Startable(s, id) && pid !in s.byPid
    ensures Tidy(SetState(WithPid(SetState(s, id, Activating), id, pid), id, Active))
  {
    RunningTidy(s, id, pid);
    assert SetState(WithPid(SetState(s, id, Activating), id, pid), id, Active) == SetState(WithPid(s, id, pid), id, Active);
  }

  lemma SimpleRuns(s: Sup, id: UnitId, pid: Pid)
    requires id < |s.units|
    ensures SetState(WithPid(SetState(s, id, Activating), id, pid), id, Active).units[id].pid == Some(pid)
  {
  }

  lemma StartServiceTidy(s: Sup, id: UnitId, svc: ServiceSection)
    requires Sound(s) && Tidy(s) && Idle(s, id) && s.reg.units[id].file.service == Some(svc)
    requires !IsPending(s, id) || StartService(s, id, svc).units[id].pid.None?
    ensures Tidy(StartService(s, id, svc))
  {
    hide Tidy, WaitOneshot, Spawn, PidsKnown, WorldInv, IsPending, Calls, IsUnreaped, SpawnFailure, FinishOneshot, WithPid, SetState;
    SoundWorld(s);
    SpawnKeeps(s.world);
    var (child, w) := Spawn(s.world);
    var s0 := s.(world := w);
    WorldTidy(s, w);
    if child.Some? { SimpleRuns(s0, id, child.value); }
    if child.None? {
      SpawnFailureTidy(s0, id);
    } else {
      NewPidUnknown(s, child.value);
      if svc.kind.Oneshot? {
        var (outcome, w') := WaitOneshot(w, child.value, w.now + StartTimeout(svc));
        OneshotTidy(s0, id, child.value, svc, outcome, w');
      } else {
        SimpleTidy(s0, id, child.value);
      }
    }
  }

  lemma StartUnitTidy(s: Sup, id: UnitId)
    requires Sound(s) && Tidy(s) && Idle(s, id) && (!IsPending(s, id) || StartUnit(s, id).units[id].pid.None?)
    ensures Tidy(StartUnit(s, id))
  {
    hide AllSettled, Inverse, OnePending, PidsKnown, WorldInv, StartService, SetState, HasFailedDependency, IsPending;
    StateTidy(s, id, Failed);
    match s.reg.units[id].file.service
    case None => StateTidy(s, id, Active);
    case Some(svc) => if !HasFailedDependency(s, id) { StartServiceTidy(s, id, svc); }
  }

  lemma PendingAndRunning(s: Sup, id: UnitId)
    requires Shaped(s) && IsPending(s, id) && id < |s.units| && s.units[id].pid.Some?
    ensures !Tidy(s)
  {
    assert !Settled(s, id);
  }

  /** Starting one unit keeps the bookkeeping exactly when it does not leave a process
      beside a pending restart. */
  lemma TidyStartIff(s: Sup, id: UnitId)
    requires Sound(s) && Tidy(s) && Idle(s, id)
    ensures Tidy(StartUnit(s, id)) <==> !IsPending(s, id) || StartUnit(s, id).units[id].pid.None?
  {
    hide StartUnit, AllSettled, Inverse, OnePending, PidsKnown, WorldInv;
    var r := StartUnit(s, id);
    StartUnitFrame(s, id);
    if !IsPending(s, id) || r.units[id].pid.None? {
      StartUnitTidy(s, id);
    } else {
      assert IsPending(r, id);
      PendingAndRunning(r, id);
    }
  }

  /** Starting one unit leaves other units, and the queue, alone. */
  lemma StartUnitFrame(s: Sup, id: UnitId)
    requires Sound(s) && id < |s.units|
    ensures var r := StartUnit(s, id);
      r.pending == s.pending && r.shuttingDown == s.shuttingDown && forall u: UnitId :: u < |s.units| && u != id ==> r.units[u] == s.units[u]
  {
    hide StartUnit, Uneventful, PidsKnown, WorldInv;
    StartUnitAccounts(s, id);
    StartUnitTouches(s, id);
  }

  lemma {:induction false} ActivateTidy(s: Sup, plan: seq<UnitId>)
    requires Sound(s) && Tidy(s) && ValidIds(|s.units|, plan) && NoDup(plan) && forall i :: 0 <= i < |plan| ==> Startable(s, plan[i])
    ensures Tidy(Activate(s, plan))
    decreases |plan|
  {
    hide Tidy, StartUnit, PidsKnown, WorldInv, Follows;
    if plan != [] {
      var id := plan[0];
      var s1 := StartUnit(s, id);
      StartUnitSound(s, id);
      StartUnitTidy(s, id);
      StartUnitFrame(s, id);
      assert forall i :: 0 <= i < |plan[1..]| ==> plan[1..][i] == plan[i + 1] && plan[i + 1] != id;
      forall i | 0 <= i < |plan[1..]| ensures Startable(s1, plan[1..][i]) { assert Startable(s, plan[i + 1]); }
      ActivateTidy(s1, plan[1..]);
    }
  }

  // ---------- Starts beside pending restarts ----------

  /** In the kindest environment the plan spawns a unit whose restart is pending: one that
      stays running, is not Active yet, and is not held back by a Failed dependency when
      its turn comes. State and unit files decide this. */
  ghost predicate SpawnsPending(s: Sup, plan: seq<UnitId>)
    requires Shaped(s) && ValidIds(|s.units|, plan)
  {
    exists i :: 0 <= i < |plan| && SpawnsPendingAt(s, plan, i)
  }

  ghost predicate SpawnsPendingAt(s: Sup, plan: seq<UnitId>, i: nat)
    requires Shaped(s) && ValidIds(|s.units|, plan) && i < |plan|
  {
    && IsPending(s, plan[i]) && IsLongRunning(s.reg, plan[i]) && s.units[plan[i]].state != Active
    && !HasFailedDependency(BestAll(s, plan[..i]), plan[i])
  }

  /** Whatever fails in the kindest environment fails in any: x is what really happened so
      far, and b the best that could have. */
  ghost predicate NoBetter(x: Sup, b: Sup, plan: seq<UnitId>) {
    && Shaped(x) && Shaped(b) && x.reg == b.reg && |x.units| == |b.units| && x.pending == b.pending
    && (forall u: UnitId :: u < |b.units| && b.units[u].state == Failed ==> x.units[u].state == Failed)
    && (forall u: UnitId :: u in plan && u < |b.units| ==> x.units[u] == b.units[u])
  }

  lemma NoBetterBlocks(x: Sup, b: Sup, plan: seq<UnitId>, id: UnitId)
    requires NoBetter(x, b, plan) && id < |b.units| && HasFailedDependency(b, id)
    ensures HasFailedDependency(x, id)
  {
  }

  lemma NoBetterStep(x: Sup, b: Sup, plan: seq<UnitId>)
    requires NoBetter(x, b, plan) && plan != [] && NoDup(plan) && ValidIds(|b.units|, plan) && Sound(x) && Sound(b)
    ensures NoBetter(StartUnit(x, plan[0]), BestUnit(b, plan[0]), plan[1..])
  {
    hide StartUnit, BestUnit, WorldInv, PidsKnown, WellFormed, HasFailedDependency, IsLongRunning;
    var id := plan[0];
    StartUnitFrame(x, id);
    BestUnitFacts(b, id);
    assert id !in plan[1..];
    if HasFailedDependency(b, id) {
      NoBetterBlocks(x, b, plan, id);
      BlockedFails(x, id);
    }
  }

  lemma BlockedFails(x: Sup, id: UnitId)
    requires Shaped(x) && id < |x.units| && HasFailedDependency(x, id)
    ensures StartUnit(x, id).units[id].state == Failed && StartUnit(x, id).units[id].pid == x.units[id].pid
  {
  }

  /** A unit that is held back, or that does not stay running, has no process afterwards. */
  lemma NoProcessAfter(s: Sup, id: UnitId)
    requires Shaped(s) && Idle(s, id) && (HasFailedDependency(s, id) || !IsLongRunning(s.reg, id))
    ensures StartUnit(s, id).units[id].pid.None?
  {
    hide WaitOneshot, Spawn, HasFailedDependency;
  }

  lemma NoLaterSpawn(b: Sup, plan: seq<UnitId>)
    requires Sound(b) && plan != [] && NoDup(plan) && ValidIds(|b.units|, plan) && !SpawnsPending(b, plan)
    ensures var next := if b.units[plan[0]].state == Active then b else BestUnit(b, plan[0]); !SpawnsPending(next, plan[1..])
  {
    hide BestUnit, WorldInv, PidsKnown, WellFormed, HasFailedDependency, IsLongRunning, BestAll;
    var rest := plan[1..];
    var next := if b.units[plan[0]].state == Active then b else BestUnit(b, plan[0]);
    BestUnitFacts(b, plan[0]);
    forall i | 0 <= i < |rest| ensures !SpawnsPendingAt(next, rest, i) {
      assert !SpawnsPendingAt(b, plan, i + 1);
      assert rest[i] == plan[i + 1] && plan[i + 1] != plan[0];
      assert IsPending(next, rest[i]) <==> IsPending(b, plan[i + 1]);
      BestHead(b, plan, i + 1);
    }
  }

  lemma BestHead(b: Sup, plan: seq<UnitId>, i: nat)
    requires Shaped(b) && ValidIds(|b.units|, plan) && 0 < i <= |plan|
    ensures BestAll(b, plan[..i]) == BestAll(if b.units[plan[0]].state == Active then b else BestUnit(b, plan[0]), plan[1..][..i - 1])
  {
    hide BestUnit;
    assert plan[..i][0] == plan[0] && plan[..i][1..] == plan[1..][..i - 1];
  }

  lemma {:induction false} SafeInAnyCase(x: Sup, b: Sup, plan: seq<UnitId>)
    requires Sound(x) && Sound(b) && Tidy(x) && NoDup(plan) && NoBetter(x, b, plan) && ValidIds(|b.units|, plan)
    requires !SpawnsPending(b, plan)
    ensures Tidy(StartInactive(x, plan))
    decreases |plan|
  {
    hide StartUnit, BestUnit, WorldInv, PidsKnown, WellFormed, Inverse, OnePending, SpawnsPending, HasFailedDependency, IsLongRunning, Follows, IsPending;
    if plan != [] {
      var id, rest := plan[0], plan[1..];
      NoLaterSpawn(b, plan);
      if x.units[id].state == Active {
        SafeInAnyCase(x, b, rest);
      } else {
        assert Settled(x, id);
        FirstIsSafe(x, b, plan);
        StartUnitSound(x, id);
        StartUnitTidy(x, id);
        BestUnitSound(b, id);
        NoBetterStep(x, b, plan);
        SafeInAnyCase(StartUnit(x, id), BestUnit(b, id), rest);
      }
    }
  }

  lemma FirstIsSafe(x: Sup, b: Sup, plan: seq<UnitId>)
    requires NoBetter(x, b, plan) && plan != [] && ValidIds(|b.units|, plan) && !SpawnsPending(b, plan)
    requires Idle(x, plan[0]) && x.units[plan[0]].state != Active
    ensures !IsPending(x, plan[0]) || StartUnit(x, plan[0]).units[plan[0]].pid.None?
  {
    hide StartUnit, BestUnit, WellFormed, HasFailedDependency, IsLongRunning;
    assert !SpawnsPendingAt(b, plan, 0);
    assert plan[..0] == [] && BestAll(b, []) == b;
    assert IsPending(x, plan[0]) <==> IsPending(b, plan[0]);
    if HasFailedDependency(b, plan[0]) { NoBetterBlocks(x, b, plan, plan[0]); }
    if HasFailedDependency(x, plan[0]) || !IsLongRunning(x.reg, plan[0]) { NoProcessAfter(x, plan[0]); }
  }

  lemma {:induction false} StartInactiveConcat(s: Sup, a: seq<UnitId>, b: seq<UnitId>)
    requires Shaped(s) && ValidIds(|s.units|, a) && ValidIds(|s.units|, b)
    ensures ValidIds(|s.units|, a + b) && StartInactive(s, a + b) == StartInactive(StartInactive(s, a), b)
    decreases |a|
  {
    hide StartUnit, WellFormed;
    if a == [] {
      assert a + b == b;
    } else {
      assert (a + b)[0] == a[0] && (a + b)[1..] == a[1..] + b;
      StartInactiveConcat(if s.units[a[0]].state == Active then s else StartUnit(s, a[0]), a[1..], b);
    }
  }

  lemma {:induction false} StartInactiveFrame(s: Sup, plan: seq<UnitId>, u: UnitId)
    requires Sound(s) && ValidIds(|s.units|, plan) && u !in plan && u < |s.units|
    ensures var r := StartInactive(s, plan); r.pending == s.pending && r.units[u] == s.units[u]
    decreases |plan|
  {
    hide StartUnit, WorldInv, PidsKnown, WellFormed, Follows;
    if plan != [] {
      if s.units[plan[0]].state == Active {
        StartInactiveFrame(s, plan[1..], u);
      } else {
        StartUnitSound(s, plan[0]);
        StartUnitFrame(s, plan[0]);
        StartInactiveFrame(StartUnit(s, plan[0]), plan[1..], u);
      }
    }
  }

  lemma {:induction false} BestAllFrame(s: Sup, plan: seq<UnitId>, u: UnitId)
    requires Sound(s) && ValidIds(|s.units|, plan) && u !in plan && u < |s.units|
    ensures var r := BestAll(s, plan); r.pending == s.pending && r.units[u] == s.units[u] && r.reg == s.reg
    decreases |plan|
  {
    hide BestUnit, WorldInv, PidsKnown, WellFormed, HasFailedDependency, IsLongRunning;
    if plan != [] {
      if s.units[plan[0]].state == Active {
        BestAllFrame(s, plan[1..], u);
      } else {
        BestUnitSound(s, plan[0]);
        BestUnitFacts(s, plan[0]);
        BestAllFrame(BestUnit(s, plan[0]), plan[1..], u);
      }
    }
  }

  /** If the kindest environment spawns a pending unit, its script breaks the bookkeeping. */
  lemma UnsafeInTheBestCase(s: Sup, plan: seq<UnitId>, i: nat) returns (script: seq<Round>)
    requires Sound(s) && NoDup(plan) && ValidIds(|s.units|, plan) && i < |plan| && SpawnsPendingAt(s, plan, i)
    ensures Shaped(WithScript(s, script)) && !Tidy(StartInactive(WithScript(s, script), plan))
  {
    hide Tidy, BestUnit, StartUnit, WorldInv, PidsKnown, WellFormed, HasFailedDependency, IsLongRunning, BestScript, BestRounds, BestAll, StartInactive;
    var before, u, after := plan[..i], plan[i], plan[i + 1..];
    assert u !in before && u !in after;
    assert plan == before + [u] + after;
    var b := BestAll(s, before);
    BestPlan(s, before, BestRounds(b, u));
    BestAllFrame(s, before, u);
    script := BestScript(s, before) + BestRounds(b, u);
    var t := WithScript(s, script);
    ScriptSound(s, script);
    StartInactiveConcat(t, before, [u] + after);
    assert before + ([u] + after) == plan;
    StartInactiveConcat(WithScript(b, BestRounds(b, u)), [u], after);
    SpawnedThen(b, u, after);
  }

  lemma StartInactiveOne(s: Sup, u: UnitId)
    requires Shaped(s) && u < |s.units| && s.units[u].state != Active
    ensures StartInactive(s, [u]) == StartUnit(s, u)
  {
    hide StartUnit, WellFormed;
    assert [u][1..] == [];
    assert StartInactive(StartUnit(s, u), []) == StartUnit(s, u);
  }

  lemma SpawnedThen(b: Sup, u: UnitId, after: seq<UnitId>)
    requires Sound(b) && u < |b.units| && b.units[u].state != Active && !HasFailedDependency(b, u) && IsLongRunning(b.reg, u) && IsPending(b, u)
    requires u !in after && ValidIds(|b.units|, after)
    ensures Shaped(WithScript(b, BestRounds(b, u)))
    ensures !Tidy(StartInactive(StartInactive(WithScript(b, BestRounds(b, u)), [u]), after))
  {
    hide Tidy, BestUnit, StartUnit, WorldInv, PidsKnown, WellFormed, HasFailedDependency, IsLongRunning, BestRounds;
    var t := WithScript(b, BestRounds(b, u));
    ShapedAndInv(b);
    assert BestRounds(b, u) + [] == BestRounds(b, u);
    BestStart(b, u, []);
    BestUnitFacts(b, u);
    BestUnitSound(b, u);
    ScriptSound(BestUnit(b, u), []);
    var t1 := StartInactive(t, [u]);
    StartInactiveOne(t, u);
    StartInactiveFrame(t1, after, u);
    var r := StartInactive(t1, after);
    assert IsPending(r, u);
    PendingAndRunning(r, u);
  }

  /** A start command keeps the bookkeeping in every environment exactly when even in the
      kindest one it spawns no unit whose restart is pending. */
  lemma StartIsSafeIff(s: Sup, name: string)
    requires Sound(s) && Tidy(s) && StartPlan(s.reg, name).Plan?
    ensures ValidIds(|s.units|, StartPlan(s.reg, name).order)
    ensures (forall script :: Shaped(WithScript(s, script)) && Tidy(StartNamed(WithScript(s, script), name))) <==> !SpawnsPending(s, StartPlan(s.reg, name).order)
  {
    hide Tidy, WorldInv, PidsKnown, WellFormed, StartPlan, StartInactive, SpawnsPendingAt, NoDup;
    StartOrderValid(s.reg, name);
    var plan := StartPlan(s.reg, name).order;
    if SpawnsPending(s, plan) {
      var i :| 0 <= i < |plan| && SpawnsPendingAt(s, plan, i);
      var script := UnsafeInTheBestCase(s, plan, i);
      assert !Tidy(StartNamed(WithScript(s, script), name));
    } else {
      forall script ensures Shaped(WithScript(s, script)) && Tidy(StartNamed(WithScript(s, script), name)) {
        ScriptSound(s, script);
        WorldTidy(s, s.world.(script := script));
        SafeInAnyCase(WithScript(s, script), s, plan);
      }
    }
  }

  // ---------- Child exits and timers ----------

  lemma ExitedTidy(s: Sup, pid: Pid, st: ActiveState)
    requires Tidy(s) && pid in s.byPid && (st == Inactive || st == Failed)
    ensures var id := s.byPid[pid]; Tidy(SetState(WithoutPid(s, id, pid), id, st)) && Startable(SetState(WithoutPid(s, id, pid), id, st), id)
  {
    var id := s.byPid[pid];
    var r := SetState(WithoutPid(s, id, pid), id, st);
    TidyFacts(s);
    assert IsPending(r, id) <==> IsPending(s, id);
    TidyFrom(s, r, id);
  }

  lemma PendingPush(pending: seq<PendingRestart>, p: PendingRestart)
    requires OnePending(pending) && forall q :: q in pending ==> q.unit != p.unit
    ensures OnePending(pending + [p])
  {
  }

  lemma MaybeScheduleTidy(s: Sup, id: UnitId, st: Status)
    requires Tidy(s) && Startable(s, id) && s.units[id].state != Active
    ensures Tidy(MaybeSchedule(s, id, st))
  {
    hide OnePending, Consider, ParseDuration, LimitInterval, RestartDelay;
    var r := MaybeSchedule(s, id, st);
    if r.pending != s.pending {
      assert r.pending == s.pending + [r.pending[|s.pending|]];
      PendingPush(s.pending, r.pending[|s.pending|]);
    }
    forall u: UnitId | u < |r.units| ensures Settled(r, u) {
      assert Settled(s, u);
      assert forall p :: p in r.pending ==> p in s.pending || p.unit == id;
    }
  }

  lemma OnChildExitTidy(s: Sup, pid: Pid, st: Status)
    requires Tidy(s)
    ensures Tidy(OnChildExit(s, pid, st))
  {
    hide AllSettled, Inverse, OnePending, MaybeSchedule;
    if pid in s.byPid {
      var id, st' := s.byPid[pid], if s.shuttingDown || IsClean(st) then Inactive else Failed;
      ExitedTidy(s, pid, st');
      MaybeScheduleTidy(SetState(WithoutPid(s, id, pid), id, st'), id, st);
    }
  }

  lemma {:induction false} ReapAllTidy(s: Sup)
    requires Tidy(s)
    ensures Tidy(ReapAll(s))
    decreases |s.world.script|, Left(s.world)
  {
    hide AllSettled, Inverse, OnePending, WaitAny, OnChildExit;
    WaitAnyShrinks(s.world);
    var (child, w) := WaitAny(s.world);
    WorldTidy(s, w);
    if child.Some? {
      OnChildExitTidy(s.(world := w), child.value.pid, child.value.status);
      ReapAllTidy(OnChildExit(s.(world := w), child.value.pid, child.value.status));
    }
  }

  lemma {:induction false} DueUnitsFacts(pending: seq<PendingRestart>, now: nat)
    requires OnePending(pending)
    ensures NoDup(DueUnits(pending, now)) && OnePending(NotDue(pending, now))
    ensures forall u :: u in DueUnits(pending, now) ==> (exists p :: p in pending && p.unit == u) && forall p :: p in NotDue(pending, now) ==> p.unit != u
  {
    if pending != [] {
      var rest := pending[1..];
      assert pending == [pending[0]] + rest;
      assert forall i :: 0 <= i < |rest| ==> rest[i] == pending[i + 1];
      assert forall p :: p in rest ==> p.unit != pending[0].unit;
      DueUnitsFacts(rest, now);
      assert forall p :: p in pending <==> p == pending[0] || p in rest;
      if pending[0].fireAt <= now {
        assert DueUnits(pending, now) == [pending[0].unit] + DueUnits(rest, now);
        assert pending[0].unit !in DueUnits(rest, now);
      } else {
        PendingPrepend(pending[0], NotDue(rest, now));
      }
    }
  }

  lemma PendingPrepend(p: PendingRestart, pending: seq<PendingRestart>)
    requires OnePending(pending) && forall q :: q in pending ==> q.unit != p.unit
    ensures OnePending([p] + pending)
  {
  }

  lemma FewerPendingTidy(s: Sup, pending: seq<PendingRestart>, journal: seq<Note>)
    requires Tidy(s) && OnePending(pending) && forall p :: p in pending ==> p in s.pending
    ensures Tidy(s.(pending := pending, journal := journal))
  {
    var r := s.(pending := pending, journal := journal);
    forall u: UnitId | u < |r.units| ensures Settled(r, u) { assert Settled(s, u); }
  }

  lemma FireDueTidy(s: Sup)
    requires Sound(s) && Tidy(s)
    ensures Tidy(FireDue(s))
  {
    hide Inverse, OnePending, WorldInv, Activate, FiredNotes;
    var now := s.world.now;
    var due, s1 := DueUnits(s.pending, now), s.(pending := NotDue(s.pending, now), journal := s.journal + FiredNotes(s.pending, now));
    DueUnitsFacts(s.pending, now);
    DueUnitsValid(s.pending, now, |s.units|);
    FewerPendingTidy(s, NotDue(s.pending, now), s1.journal);
    forall i | 0 <= i < |due| ensures Startable(s1, due[i]) {
      assert due[i] in due;
      assert Settled(s, due[i]) && IsPending(s, due[i]);
    }
    ActivateTidy(s1, due);
  }

  // ---------- Stopping ----------

  lemma StoppedInverse(s: Sup, r: Sup, plan: seq<UnitId>)
    requires Tidy(s) && Shaped(r) && ValidIds(|s.units|, plan) && Stopped(s, r, plan) && Forgot(s.byPid, r.byPid, PidsOf(s.units, plan))
    ensures Inverse(r)
  {
    hide DropPlan, DropNotes, AllSettled;
    PidsOfFacts(s.units, plan);
    forall p | p in r.byPid ensures r.byPid[p] < |r.units| && r.units[r.byPid[p]].pid == Some(p) {
      var u := r.byPid[p];
      assert s.units[u].pid == Some(p);
      assert !ChildGone(s, r, u);
      assert p !in PidsOf(s.units, plan);
      assert forall i :: 0 <= i < |plan| ==> s.units[plan[i]].pid != Some(p);
      assert u !in plan;
    }
  }

  lemma StopPlannedTidy(s: Sup, plan: seq<UnitId>)
    requires Sound(s) && Tidy(s) && ValidIds(|s.units|, plan)
    ensures Tidy(StopPlanned(s, plan))
  {
    hide StopPlanned, WorldInv, Inverse, OnePending, DropNotes, Forgot, DrainCalls, Calls, Terms;
    var r := StopPlanned(s, plan);
    StopPlannedSound(s, plan);
    StopPlannedUnits(s, plan);
    StoppedInverse(s, r, plan);
    DropPlanFacts(s.pending, plan);
    DropPlanKeepsOne(s.pending, plan);
    forall u: UnitId | u < |r.units| ensures Settled(r, u) {
      assert Settled(s, u);
      assert IsPending(r, u) ==> IsPending(s, u);
    }
  }

  lemma {:induction false} DropOfKeepsOne(pending: seq<PendingRestart>, id: UnitId)
    requires OnePending(pending)
    ensures OnePending(DropOf(pending, id))
  {
    if pending != [] {
      var rest := pending[1..];
      assert forall i :: 0 <= i < |rest| ==> rest[i] == pending[i + 1];
      DropOfKeepsOne(rest, id);
      if pending[0].unit != id { PendingPrepend(pending[0], DropOf(rest, id)); }
    }
  }

  lemma {:induction false} DropPlanKeepsOne(pending: seq<PendingRestart>, plan: seq<UnitId>)
    requires OnePending(pending)
    ensures OnePending(DropPlan(pending, plan))
    decreases |plan|
  {
    if plan != [] {
      DropOfKeepsOne(pending, plan[0]);
      DropPlanKeepsOne(DropOf(pending, plan[0]), plan[1..]);
    }
  }

  // ---------- Guarded runs ----------

  /** No start command of this event reaches a unit whose restart is pending. */
  ghost predicate Guarded(s: Sup, e: Event)
    requires Shaped(s)
  {
    match e
    case Start(name) => StartMisses(s, name)
    case Restart(name) => StopPlan(s.reg, name).Plan? ==> StartMisses(StopUnit(s, name), name)
    case Enable(name, reach) =>
      EnabledRegistryShaped(s, name, reach);
      reach.Complete? && EnabledRegistry(s.reg, name, reach).Some? ==> StartMisses(s.(reg := EnabledRegistry(s.reg, name, reach).value), name)
    case _ => true
  }

  /** The start command can spawn no unit whose restart is pending. */
  ghost predicate StartMisses(s: Sup, name: string)
    requires Shaped(s)
  {
    StartPlan(s.reg, name).Plan? ==>
      ValidIds(|s.units|, StartPlan(s.reg, name).order) && !SpawnsPending(s, StartPlan(s.reg, name).order)
  }

  ghost predicate GuardedRun(s: Sup, events: seq<Event>)
    requires Shaped(s)
    decreases |events|
  {
    events == [] || (Guarded(s, events[0]) && GuardedRun(Step(s, events[0]), events[1..]))
  }

  lemma StartNamedTidy(s: Sup, name: string)
    requires Sound(s) && Tidy(s) && StartMisses(s, name)
    ensures Tidy(StartNamed(s, name))
  {
    hide PidsKnown, WorldInv, AllSettled, Inverse, OnePending, StartPlan, StartInactive, SpawnsPending, NoDup;
    if StartPlan(s.reg, name).Plan? {
      StartOrderValid(s.reg, name);
      SafeInAnyCase(s, s, StartPlan(s.reg, name).order);
    }
  }

  lemma StopUnitTidy(s: Sup, name: string)
    requires Sound(s) && Tidy(s)
    ensures Tidy(StopUnit(s, name))
  {
    hide PidsKnown, WorldInv, AllSettled, Inverse, OnePending, StopPlan, StopPlanned;
    if StopPlan(s.reg, name).Plan? {
      StopOrderValid(s.reg, name);
      StopPlannedTidy(s, StopPlan(s.reg, name).order);
    }
  }

  lemma EnableTidy(s: Sup, name: string, reach: EnableReach)
    requires Invariant(s) && Tidy(s) && Guarded(s, Enable(name, reach))
    ensures Tidy(EnableUnit(s, name, reach))
  {
    hide PidsKnown, WorldInv, Accounted, AllSettled, Inverse, OnePending, StartNamed, StartMisses, EnabledRegistry, WellFormed;
    EnabledRegistryShaped(s, name, reach);
    var r := EnabledRegistry(s.reg, name, reach);
    if r.Some? {
      SameTidy(s, s.(reg := r.value));
      OtherEdgesKeep(s, r.value);
      if reach.Complete? { StartNamedTidy(s.(reg := r.value), name); }
    }
  }

  lemma StepTidy(s: Sup, e: Event)
    requires Invariant(s) && Tidy(s) && Guarded(s, e)
    ensures Tidy(Step(s, e))
  {
    hide PidsKnown, WorldInv, Accounted, Tidy, StartNamed, StopUnit, EnableUnit, FireDue, Advance, StartMisses, ReapAll, Fresh;
    match e
    case Wait => WorldTidy(s, Advance(s.world));
    case ReadSigchld =>
      WorldTidy(s, s.world.(sigchld := false));
      ReapAllTidy(s.(world := s.world.(sigchld := false)));
    case Terminate => TerminateTidy(s);
    case Timer => FireDueTidy(s);
    case Start(name) => StartNamedTidy(s, name);
    case Stop(name) => StopUnitTidy(s, name);
    case Restart(name) =>
      StopUnitTidy(s, name);
      StopUnitKeeps(s, name);
      if StopPlan(s.reg, name).Plan? { StartNamedTidy(StopUnit(s, name), name); }
    case Enable(name, reach) => EnableTidy(s, name, reach);
    case Disable(name) => StopUnitTidy(s, name);
  }

  lemma TerminateTidy(s: Sup)
    requires Tidy(s)
    ensures Tidy(InitiateShutdown(s))
  {
    hide AllSettled, TermAll, DropAllNotes;
    if !s.shuttingDown {
      var r := InitiateShutdown(s);
      FewerPendingTidy(s, [], r.journal);
      SameTidy(s.(pending := [], journal := r.journal), r);
    }
  }

  lemma {:induction false} RunTidy(s: Sup, events: seq<Event>)
    requires Invariant(s) && Tidy(s) && GuardedRun(s, events)
    ensures Tidy(Run(s, events))
    decreases |events|
  {
    hide Sound, NothingLost, Accounted, Tidy, Step, Guarded;
    if events != [] {
      StepTidy(s, events[0]);
      StepKeeps(s, events[0]);
      RunTidy(Step(s, events[0]), events[1..]);
    }
  }

  lemma BootTidy(reg: UnitTable, target: string, script: seq<Round>, now: nat)
    requires WellFormed(reg) && StartPlan(reg, target).Plan?
    ensures Tidy(Boot(reg, target, script, now))
  {
    hide Activate, Sound, NothingLost, Accounted, WellFormed, StartPlan;
    var s, order := Fresh(reg, script, now), StartPlan(reg, target).order;
    FreshInvariant(reg, script, now);
    StartOrderValid(reg, target);
    FreshTidy(reg, script, now);
    forall i | 0 <= i < |order| ensures Startable(s, order[i]) {}
    ActivateTidy(s, order);
  }

  lemma FreshTidy(reg: UnitTable, script: seq<Round>, now: nat)
    requires WellFormed(reg)
    ensures Tidy(Fresh(reg, script, now))
  {
  }

  /** Bookkeeping of every guarded run: pids and units are mutually inverse, no unit is
      both running and pending, at most one restart is pending per unit, and between
      events every unit is in a settled state. */
  lemma EveryGuardedRun(reg: UnitTable, target: string, script: seq<Round>, now: nat, events: seq<Event>)
    requires WellFormed(reg) && StartPlan(reg, target).Plan? && GuardedRun(Boot(reg, target, script, now), events)
    ensures var r := Run(Boot(reg, target, script, now), events);
      && (forall p, u: UnitId :: u < |r.units| ==> ((p in r.byPid && r.byPid[p] == u) <==> r.units[u].pid == Some(p)))
      && (forall u: UnitId :: u < |r.units| && r.units[u].pid.Some? ==> !IsPending(r, u))
      && (forall i, j :: 0 <= i < j < |r.pending| ==> r.pending[i].unit != r.pending[j].unit)
      && (forall u: UnitId :: u < |r.units| ==>
            && r.units[u].state != Activating && r.units[u].state != Deactivating
            && (r.units[u].pid.Some? ==> r.units[u].state == Active)
            && (r.units[u].state == Active ==> r.units[u].pid.Some? || NeedsNoProcess(r.reg, u)))
  {
    hide Sound, NothingLost, Accounted, Boot, Run, GuardedRun, StartPlan, NeedsNoProcess, IsPending;
    BootInvariant(reg, target, script, now);
    BootTidy(reg, target, script, now);
    RunTidy(Boot(reg, target, script, now), events);
    var r := Run(Boot(reg, target, script, now), events);
    TidyFacts(r);
    forall p, u: UnitId | u < |r.units| ensures (p in r.byPid && r.byPid[p] == u) <==> r.units[u].pid == Some(p) {
      if p in r.byPid && r.byPid[p] == u { assert Inverse(r); }
    }
  }
}
