/** The contract of stopping a unit: who is signalled, when, in which order, and what
    state the supervisor is left in. */
module Stopping {
  import opened Config
  import opened Sequences
  import opened Digraph
  import opened Registry
  import opened Kernel
  import opened Supervisor
  import opened Bookkeeping

  // ---------- Exits during a planned stop ----------

  /** A child recorded for u was collected between s and r. */
  ghost predicate ChildGone(s: Sup, r: Sup, u: UnitId) {
    exists p :: p in s.byPid && s.byPid[p] == u && p !in r.byPid
  }

  function Quieted(m: UnitMeta): UnitMeta {
    m.(state := Inactive, pid := None)
  }

  /** Only exits were handled, with restarts suppressed. */
  ghost predicate OnlyExits(s: Sup, r: Sup) {
    && r.reg == s.reg && |r.units| == |s.units| && r.pending == s.pending && r.journal == s.journal
    && r.shuttingDown == s.shuttingDown
    && (forall p :: p in r.byPid ==> p in s.byPid && r.byPid[p] == s.byPid[p])
    && (forall u :: 0 <= u < |s.units| ==> r.units[u] == s.units[u] || (r.units[u] == Quieted(s.units[u]) && ChildGone(s, r, u)))
  }

  lemma OnlyExitsTrans(a: Sup, b: Sup, c: Sup)
    requires OnlyExits(a, b) && OnlyExits(b, c)
    ensures OnlyExits(a, c)
  {
    forall u | 0 <= u < |a.units| && (ChildGone(a, b, u) || ChildGone(b, c, u)) ensures ChildGone(a, c, u) {
      if ChildGone(a, b, u) {
        var p :| p in a.byPid && a.byPid[p] == u && p !in b.byPid;
        assert p !in c.byPid;
      } else {
        var p :| p in b.byPid && b.byPid[p] == u && p !in c.byPid;
        assert p in a.byPid;
      }
    }
  }

  lemma ExitOnly(s: Sup, pid: Pid, st: Status)
    requires Shaped(s) && s.shuttingDown
    ensures OnlyExits(s, OnChildExit(s, pid, st))
  {
    if pid in s.byPid {
      var r := OnChildExit(s, pid, st);
      assert s.byPid[pid] < |s.units| && pid !in r.byPid;
      assert ChildGone(s, r, s.byPid[pid]);
    }
  }

  lemma {:induction false} DrainReapOnlyExits(s: Sup, expected: seq<Pid>)
    requires Shaped(s) && s.shuttingDown
    ensures OnlyExits(s, DrainReap(s, expected).0)
    decreases |s.world.script|, Left(s.world)
  {
    WaitAnyShrinks(s.world);
    var (child, w) := WaitAny(s.world);
    if child.Some? {
      var s1 := OnChildExit(s.(world := w), child.value.pid, child.value.status);
      ExitOnly(s.(world := w), child.value.pid, child.value.status);
      DrainReapOnlyExits(s1, RemovePid(expected, child.value.pid));
      OnlyExitsTrans(s.(world := w), s1, DrainReap(s, expected).0);
    }
  }

  lemma WorldOnly(s: Sup, w: World)
    requires Shaped(s)
    ensures Shaped(s.(world := w)) && OnlyExits(s, s.(world := w))
  {
  }

  lemma {:induction false} DrainOnlyExits(s: Sup, expected: seq<Pid>, start: nat, grace: nat, escalated: bool)
    requires Shaped(s) && s.shuttingDown
    ensures OnlyExits(s, Drain(s, expected, start, grace, escalated))
    decreases |s.world.script|, !escalated, if s.world.now <= start + grace then start + grace - s.world.now + 1 else 0
  {
    hide OnlyExits, Shaped, DrainReap, KillAll;
    var escalate := !escalated && s.world.now > start + grace;
    KillAllKeepsTime(s.world, expected);
    WorldOnly(s, s.world);
    WorldOnly(s, KillAll(s.world, expected));
    if expected != [] {
      var s1 := if escalate then s.(world := KillAll(s.world, expected)) else s;
      var (s2, left) := DrainReap(s1, expected);
      DrainReapOnlyExits(s1, expected);
      OnlyExitsTrans(s, s1, s2);
      if left != [] && !(s.world.script == [] && (escalated || escalate)) {
        var s3 := s2.(world := Sleep(s2.world, DRAIN_PAUSE));
        WorldOnly(s2, s3.world);
        DrainOnlyExits(s3, left, start, grace, escalated || escalate);
        OnlyExitsTrans(s2, s3, Drain(s, expected, start, grace, escalated));
        OnlyExitsTrans(s, s2, Drain(s, expected, start, grace, escalated));
      }
    }
  }

  // ---------- The marking loop ----------

  /** What the first loop leaves of the pending queue. */
  function DropPlan(pending: seq<PendingRestart>, plan: seq<UnitId>): (r: seq<PendingRestart>)
    decreases |plan|
  {
    if plan == [] then pending else DropPlan(DropOf(pending, plan[0]), plan[1..])
  }

  lemma {:induction false} DropPlanFacts(pending: seq<PendingRestart>, plan: seq<UnitId>)
    ensures forall p :: p in DropPlan(pending, plan) <==> p in pending && p.unit !in plan
    decreases |plan|
  {
    if plan != [] {
      DropPlanFacts(DropOf(pending, plan[0]), plan[1..]);
      assert plan == [plan[0]] + plan[1..];
    }
  }

  function DropNotes(pending: seq<PendingRestart>, plan: seq<UnitId>): (r: seq<Note>)
    decreases |plan|
  {
    if plan == [] then [] else DroppedNotes(pending, plan[0]) + DropNotes(DropOf(pending, plan[0]), plan[1..])
  }

  function Marked(m: UnitMeta): UnitMeta {
    m.(state := if m.pid.Some? then Deactivating else Inactive)
  }

  ghost predicate Marks(s: Sup, r: Sup, plan: seq<UnitId>) {
    && r.pending == DropPlan(s.pending, plan) && r.journal == s.journal + DropNotes(s.pending, plan)
    && r.byPid == s.byPid && r.shuttingDown == s.shuttingDown && r.reg == s.reg
    && r.world.now == s.world.now && |r.units| == |s.units|
    && (forall u: UnitId :: u < |s.units| ==> r.units[u] == if u in plan then Marked(s.units[u]) else s.units[u])
  }

  lemma MarksStep(s: Sup, s1: Sup, r: Sup, plan: seq<UnitId>)
    requires Shaped(s) && plan != [] && plan[0] < |s.units| && s1 == MarkOne(s, plan[0]) && Marks(s1, r, plan[1..])
    ensures Marks(s, r, plan)
  {
    hide DropOf, DroppedNotes;
    assert forall u :: u in plan <==> u == plan[0] || u in plan[1..];
    assert forall m: UnitMeta :: Marked(Marked(m)) == Marked(m);
  }

  lemma {:induction false} MarkAllFacts(s: Sup, plan: seq<UnitId>)
    requires Shaped(s) && ValidIds(|s.units|, plan)
    ensures Marks(s, MarkAll(s, plan), plan)
    decreases |plan|
  {
    if plan != [] {
      MarkAllFacts(MarkOne(s, plan[0]), plan[1..]);
      MarksStep(s, MarkOne(s, plan[0]), MarkAll(s, plan), plan);
    }
  }

  // ---------- The signals ----------

  function Terms(pids: seq<Pid>, at: nat): (r: seq<Effect>)
    ensures |r| == |pids| && forall i :: 0 <= i < |r| ==> r[i] == Sent(SIGTERM, pids[i], at)
  {
    seq(|pids|, i requires 0 <= i < |pids| => Sent(SIGTERM, pids[i], at))
  }

  lemma MarkOneSignals(s: Sup, id: UnitId)
    requires Shaped(s) && id < |s.units|
    ensures var r := MarkOne(s, id);
      && Calls(r.world.log) == Calls(s.world.log) + (if s.units[id].pid.Some? then [Sent(SIGTERM, s.units[id].pid.value, s.world.now)] else [])
      && r.world.now == s.world.now && |r.units| == |s.units|
      && (forall u :: 0 <= u < |s.units| ==> r.units[u].pid == s.units[u].pid)
  {
    if s.units[id].pid.Some? { LogPush(s.world.log, Sent(SIGTERM, s.units[id].pid.value, s.world.now)); }
  }

  lemma TermsPush(p: Pid, pids: seq<Pid>, at: nat)
    ensures Terms([p] + pids, at) == [Sent(SIGTERM, p, at)] + Terms(pids, at)
  {
  }

  lemma {:induction false} MarkAllSignals(s: Sup, plan: seq<UnitId>)
    requires Shaped(s) && ValidIds(|s.units|, plan)
    ensures Calls(MarkAll(s, plan).world.log) == Calls(s.world.log) + Terms(PidsOf(s.units, plan), s.world.now)
    decreases |plan|
  {
    hide Calls, MarkOne, Terms, Shaped;
    if plan != [] {
      var s1 := MarkOne(s, plan[0]);
      MarkOneSignals(s, plan[0]);
      MarkAllSignals(s1, plan[1..]);
      SamePidsOf(s.units, s1.units, plan[1..]);
      if s.units[plan[0]].pid.Some? { TermsPush(s.units[plan[0]].pid.value, PidsOf(s.units, plan[1..]), s.world.now); }
    }
  }

  lemma {:induction false} SamePidsOf(a: seq<UnitMeta>, b: seq<UnitMeta>, plan: seq<UnitId>)
    requires |a| == |b| && ValidIds(|a|, plan) && forall u :: 0 <= u < |a| ==> a[u].pid == b[u].pid
    ensures PidsOf(a, plan) == PidsOf(b, plan)
    decreases |plan|
  {
    if plan != [] { SamePidsOf(a, b, plan[1..]); }
  }

  lemma {:induction false} PidsOfFacts(units: seq<UnitMeta>, plan: seq<UnitId>)
    requires ValidIds(|units|, plan)
    ensures forall p :: p in PidsOf(units, plan) <==> exists i :: 0 <= i < |plan| && units[plan[i]].pid == Some(p)
    decreases |plan|
  {
    if plan != [] {
      PidsOfFacts(units, plan[1..]);
      forall p ensures p in PidsOf(units, plan) <==> exists i :: 0 <= i < |plan| && units[plan[i]].pid == Some(p) {
        if p in PidsOf(units, plan) && units[plan[0]].pid != Some(p) {
          var i :| 0 <= i < |plan[1..]| && units[plan[1..][i]].pid == Some(p);
          assert plan[i + 1] == plan[1..][i];
        }
        if i :| 0 < i < |plan| && units[plan[i]].pid == Some(p) {
          assert plan[1..][i - 1] == plan[i];
        }
      }
    }
  }

  /** Past `a`, the calls are only collections and SIGKILLs sent after the time `t`. */
  ghost predicate DrainCalls(a: seq<Effect>, b: seq<Effect>, t: nat) {
    a <= b && forall i :: |a| <= i < |b| ==> b[i].Reaped? || (b[i].Sent? && b[i].signal == SIGKILL && b[i].at > t)
  }

  lemma {:induction false} KillAllCalls(w: World, pids: seq<Pid>, t: nat)
    requires w.now > t
    ensures DrainCalls(Calls(w.log), Calls(KillAll(w, pids).log), t)
    decreases |pids|
  {
    if pids != [] {
      LogPush(w.log, Sent(SIGKILL, pids[0], w.now));
      KillAllCalls(Kill(w, SIGKILL, pids[0]), pids[1..], t);
    }
  }

  lemma {:induction false} DrainReapCalls(s: Sup, expected: seq<Pid>, t: nat)
    requires Sound(s)
    ensures DrainCalls(Calls(s.world.log), Calls(DrainReap(s, expected).0.world.log), t)
    decreases |s.world.script|, Left(s.world)
  {
    hide PidsKnown, WorldInv, Calls, IsUnreaped, WaitAny, OnChildExit, Follows;
    WaitAnyShrinks(s.world);
    WaitAnyKeeps(s.world);
    var (child, w) := WaitAny(s.world);
    if child.Some? {
      CollectSound(s);
      DrainReapCalls(OnChildExit(s.(world := w), child.value.pid, child.value.status), RemovePid(expected, child.value.pid), t);
    }
  }

  lemma DrainCallsTrans(a: seq<Effect>, b: seq<Effect>, c: seq<Effect>, t: nat)
    requires DrainCalls(a, b, t) && DrainCalls(b, c, t)
    ensures DrainCalls(a, c, t)
  {
  }

  lemma {:induction false} DrainSignals(s: Sup, expected: seq<Pid>, start: nat, grace: nat, escalated: bool)
    requires Sound(s) && Awaiting(s.world, expected, escalated)
    ensures DrainCalls(Calls(s.world.log), Calls(Drain(s, expected, start, grace, escalated).world.log), start + grace)
    decreases |s.world.script|, !escalated, if s.world.now <= start + grace then start + grace - s.world.now + 1 else 0
  {
    hide DrainCalls, Calls, PidsKnown, WorldInv, Awaiting, DrainReap, KillAll, IsUnreaped, Follows;
    DrainCallsRefl(Calls(s.world.log), start + grace);
    if expected != [] {
      var escalate := !escalated && s.world.now > start + grace;
      EscalateKeeps(s, expected, escalated);
      if escalate { KillAllCalls(s.world, expected, start + grace); }
      var s1 := if escalate then s.(world := KillAll(s.world, expected)) else s;
      DrainReapSound(s1, expected, escalated || escalate);
      DrainReapCalls(s1, expected, start + grace);
      var (s2, left) := DrainReap(s1, expected);
      DrainCallsTrans(Calls(s.world.log), Calls(s1.world.log), Calls(s2.world.log), start + grace);
      if left != [] && !(s.world.script == [] && (escalated || escalate)) {
        var s3 := s2.(world := Sleep(s2.world, DRAIN_PAUSE));
        SleepKeeps(s2, left, escalated || escalate, DRAIN_PAUSE);
        DrainSignals(s3, left, start, grace, escalated || escalate);
        DrainCallsTrans(Calls(s.world.log), Calls(s2.world.log), Calls(Drain(s, expected, start, grace, escalated).world.log), start + grace);
      }
    }
  }

  lemma DrainCallsRefl(a: seq<Effect>, t: nat)
    ensures DrainCalls(a, a, t)
  {
  }

  /** The unit's own `timeout-stop-sec` parses, as d. */
  ghost predicate HasTimeout(reg: UnitTable, id: UnitId, d: nat)
    requires id < |reg.units|
  {
    reg.units[id].file.service.Some? && ParseDuration(reg.units[id].file.service.value.timeoutStopSec) == Some(d)
  }

  /** The longest parseable timeout of the plan, or ten seconds when there is none. */
  ghost predicate IsGrace(reg: UnitTable, plan: seq<UnitId>, grace: nat)
    requires ValidIds(|reg.units|, plan)
  {
    && (forall i, d: nat :: 0 <= i < |plan| && HasTimeout(reg, plan[i], d) ==> d <= grace)
    && (Attained(reg, plan, grace) || (grace == 10 * SECOND && forall d: nat :: !Attained(reg, plan, d)))
  }

  ghost predicate Attained(reg: UnitTable, plan: seq<UnitId>, d: nat)
    requires ValidIds(|reg.units|, plan)
  {
    exists i :: 0 <= i < |plan| && HasTimeout(reg, plan[i], d)
  }

  lemma GraceIsLongest(reg: UnitTable, plan: seq<UnitId>)
    requires ValidIds(|reg.units|, plan)
    ensures IsGrace(reg, plan, Grace(reg, plan))
  {
    hide ParseDuration, Longest;
    LongestTaken(reg, plan);
    forall i, d: nat | 0 <= i < |plan| && HasTimeout(reg, plan[i], d) ensures Longest(reg, plan).Some? && d <= Grace(reg, plan) {
      LongestCovers(reg, plan, plan[i]);
    }
  }

  lemma {:induction false} LongestTaken(reg: UnitTable, plan: seq<UnitId>)
    requires ValidIds(|reg.units|, plan)
    ensures Longest(reg, plan).Some? ==> Attained(reg, plan, Longest(reg, plan).value)
    decreases |plan|
  {
    hide ParseDuration;
    if plan != [] {
      LongestTaken(reg, plan[1..]);
      var l := Longest(reg, plan);
      if l.Some? && !HasTimeout(reg, plan[0], l.value) {
        var i :| 0 <= i < |plan[1..]| && HasTimeout(reg, plan[1..][i], l.value);
        assert plan[i + 1] == plan[1..][i];
      }
    }
  }

  lemma {:induction false} LongestCovers(reg: UnitTable, plan: seq<UnitId>, id: UnitId)
    requires ValidIds(|reg.units|, plan) && id in plan && id < |reg.units| && reg.units[id].file.service.Some?
    ensures var d := ParseDuration(reg.units[id].file.service.value.timeoutStopSec);
      d.Some? ==> Longest(reg, plan).Some? && d.value <= Longest(reg, plan).value
    decreases |plan|
  {
    hide ParseDuration;
    if plan[0] != id {
      assert id in plan[1..];
      LongestCovers(reg, plan[1..], id);
    }
  }

  // ---------- The contract ----------

  lemma {:induction false} StopPlannedSound(s: Sup, plan: seq<UnitId>)
    requires Sound(s) && ValidIds(|s.units|, plan)
    ensures Sound(StopPlanned(s, plan)) && Follows(s.world, StopPlanned(s, plan).world)
    ensures Forgot(s.byPid, StopPlanned(s, plan).byPid, PidsOf(s.units, plan))
    ensures DrainCalls(Calls(s.world.log) + Terms(PidsOf(s.units, plan), s.world.now),
              Calls(StopPlanned(s, plan).world.log), s.world.now + Grace(s.reg, plan))
  {
    hide PidsKnown, WorldInv, Awaiting, Drain, MarkAll, DrainCalls, Grace, Forgot, Calls, Terms;
    var s0 := s.(shuttingDown := true);
    SoundFlag(s, true);
    var s1 := MarkAll(s0, plan);
    MarkAllSound(s0, plan);
    MarkAllFacts(s0, plan);
    MarkAllSignals(s0, plan);
    ExpectedAreChildren(s, s1, plan);
    var expected := PidsOf(s.units, plan);
    DrainSound(s1, expected, s1.world.now, Grace(s.reg, plan), false);
    DrainSignals(s1, expected, s1.world.now, Grace(s.reg, plan), false);
    SoundFlag(Drain(s1, expected, s1.world.now, Grace(s.reg, plan), false), s.shuttingDown);
  }

  lemma SoundFlag(s: Sup, shuttingDown: bool)
    requires Sound(s)
    ensures Sound(s.(shuttingDown := shuttingDown))
  {
  }

  /** What a planned stop leaves of the units and the queue. */
  ghost predicate Stopped(s: Sup, r: Sup, plan: seq<UnitId>) {
    && |r.units| == |s.units| && r.shuttingDown == s.shuttingDown && r.journal == s.journal + DropNotes(s.pending, plan)
    && r.pending == DropPlan(s.pending, plan)
    && (forall p :: p in r.byPid ==> p in s.byPid && r.byPid[p] == s.byPid[p])
    && (forall id :: id in plan ==> id < |r.units| && r.units[id].state == Inactive && r.units[id].pid.None?)
    && (forall u: UnitId :: u < |s.units| ==> r.units[u].restartHistory == s.units[u].restartHistory)
    && (forall u: UnitId :: u < |s.units| && u !in plan && r.units[u] != s.units[u] ==> r.units[u] == Quieted(s.units[u]) && ChildGone(s, r, u))
  }

  lemma StopPlannedUnits(s: Sup, plan: seq<UnitId>)
    requires Sound(s) && ValidIds(|s.units|, plan)
    ensures Stopped(s, StopPlanned(s, plan), plan)
  {
    hide WorldInv, Awaiting, Drain, MarkAll, Grace, DropPlan, DropNotes;
    var s0 := s.(shuttingDown := true);
    var s1 := MarkAll(s0, plan);
    var expected := PidsOf(s.units, plan);
    MarkAllFacts(s0, plan);
    DrainOnlyExits(s1, expected, s1.world.now, Grace(s.reg, plan), false);
    var s2 := Drain(s1, expected, s1.world.now, Grace(s.reg, plan), false);
    var r := StopPlanned(s, plan);
    StopPlannedSound(s, plan);
    forall id | id in plan ensures id < |s.units| && r.units[id].state == Inactive && r.units[id].pid.None? {
      MemberQuiet(s, r, plan, id);
      assert s2.units[id] == s1.units[id] || s2.units[id] == Quieted(s1.units[id]);
    }
    forall u: UnitId | u < |s.units| && u !in plan && r.units[u] != s.units[u] ensures r.units[u] == Quieted(s.units[u]) && ChildGone(s, r, u) {
      assert ChildGone(s1, s2, u);
    }
  }

  /** A member's own child has been collected, so no pid is recorded for it. */
  lemma MemberQuiet(s: Sup, r: Sup, plan: seq<UnitId>, id: UnitId)
    requires Shaped(s) && Sound(r) && |r.units| == |s.units| && ValidIds(|s.units|, plan) && id in plan
    requires r.units[id].pid.Some? ==> r.units[id].pid == s.units[id].pid
    requires Forgot(s.byPid, r.byPid, PidsOf(s.units, plan))
    ensures id < |s.units| && r.units[id].pid.None?
  {
    PidsOfFacts(s.units, plan);
    var i :| 0 <= i < |plan| && plan[i] == id;
    if s.units[id].pid.Some? { assert s.units[id].pid.value in PidsOf(s.units, plan); }
  }

  lemma ExpectedAreChildren(s: Sup, s1: Sup, plan: seq<UnitId>)
    requires Sound(s) && ValidIds(|s.units|, plan)
    requires s1.world.alive == s.world.alive && s1.world.zombies == s.world.zombies
    ensures Awaiting(s1.world, PidsOf(s.units, plan), false)
  {
    PidsOfFacts(s.units, plan);
  }

  /** Stopping a unit whose dependents can be ordered leaves every unit of the stop
      closure Inactive, without a process and without a pending restart; so no unit that
      needs one of them, directly or not, is Active. Other units change only if their
      own child exited. */
  lemma StopContract(s: Sup, name: string)
    requires Sound(s) && StopPlan(s.reg, name).Plan?
    ensures Sound(StopUnit(s, name)) && Follows(s.world, StopUnit(s, name).world)
    ensures var r, C := StopUnit(s, name), StopClosure(s.reg, s.reg.byName[name]);
      && r.shuttingDown == s.shuttingDown
      && (forall u :: u in C ==> u < |r.units| && r.units[u].state == Inactive && r.units[u].pid.None?)
      && (forall p :: p in r.pending <==> p in s.pending && p.unit !in C)
      && (forall e :: e in RequirementEdges(s.reg) && e.1 in C ==> e.0 in C)
      && (forall u: UnitId :: u < |s.units| && u !in C && r.units[u] != s.units[u] ==> r.units[u] == Quieted(s.units[u]) && ChildGone(s, r, u))
  {
    hide PidsKnown, WorldInv, StopPlanned, Grace, Forgot, Calls, DrainCalls;
    StopPlanCorrect(s.reg, name);
    var order, C := StopPlan(s.reg, name).order, StopClosure(s.reg, s.reg.byName[name]);
    assert forall i :: 0 <= i < |order| ==> order[i] in ToSet(order);
    assert forall u :: u in order <==> u in C;
    StopPlannedSound(s, order);
    StopPlannedUnits(s, order);
    DropPlanFacts(s.pending, order);
    StopClosureIsClosed(s.reg, s.reg.byName[name]);
  }

  /** Whatever requires a stopped unit is stopped too. */
  lemma StopClosureIsClosed(reg: UnitTable, a: UnitId)
    requires WellFormed(reg) && a < |reg.units|
    ensures forall e :: e in RequirementEdges(reg) && e.1 in StopClosure(reg, a) ==> e.0 in StopClosure(reg, a)
  {
    ClosureIsLeast(Reverse(RequirementEdges(reg)), a);
    forall e | e in RequirementEdges(reg) && e.1 in StopClosure(reg, a) ensures e.0 in StopClosure(reg, a) {
      var f := (e.1, e.0);
      assert f in Reverse(RequirementEdges(reg));
    }
  }

  /** The signals of a stop: first one SIGTERM to each running member, dependents of the
      ordering before what they are ordered after; then nothing but collecting children
      and, strictly later than every member's own parseable timeout, SIGKILLs. */
  lemma StopSignals(s: Sup, name: string)
    requires Sound(s) && StopPlan(s.reg, name).Plan?
    ensures var order := StopPlan(s.reg, name).order;
      && ValidIds(|s.reg.units|, order) && |s.reg.units| == |s.units|
      && DrainCalls(Calls(s.world.log) + Terms(PidsOf(s.units, order), s.world.now), Calls(StopUnit(s, name).world.log),
           s.world.now + Grace(s.reg, order))
      && IsGrace(s.reg, order, Grace(s.reg, order))
  {
    hide WellFormed, PidsKnown, WorldInv, StopPlan, StopPlanned, Grace, Forgot, Calls, DrainCalls, Terms, IsGrace, Follows;
    StopOrderValid(s.reg, name);
    var order := StopPlan(s.reg, name).order;
    StopPlannedSound(s, order);
    GraceIsLongest(s.reg, order);
  }

  lemma StopOrderValid(reg: UnitTable, name: string)
    requires WellFormed(reg) && StopPlan(reg, name).Plan?
    ensures ValidIds(|reg.units|, StopPlan(reg, name).order)
  {
    StopPlanCorrect(reg, name);
    var order := StopPlan(reg, name).order;
    assert forall i :: 0 <= i < |order| ==> order[i] in ToSet(order);
  }

  /** A stop that names no unit, or whose ordering has a cycle, changes nothing. */
  lemma FailedStopChangesNothing(s: Sup, name: string)
    requires Shaped(s)
    ensures !StopPlan(s.reg, name).Plan? ==> StopUnit(s, name) == s
  {
  }

  /** Something of what would be stopped is not Inactive. */
  ghost predicate HasToStop(s: Sup, name: string)
    requires Shaped(s) && name in s.reg.byName
  {
    exists u :: u in StopClosure(s.reg, s.reg.byName[name]) && u < |s.units| && s.units[u].state != Inactive
  }

  /** A stop of a known unit with something left to stop is all or nothing: it fails, and
      then changes nothing, exactly when the ordering edges among the unit and what depends
      on it have a cycle; otherwise nothing of it is left to stop. */
  lemma StopIsAllOrNothing(s: Sup, name: string)
    requires Sound(s) && name in s.reg.byName && HasToStop(s, name)
    ensures var r, C := StopUnit(s, name), StopClosure(s.reg, s.reg.byName[name]);
      Within(s.reg, C) && (r == s <==> !Acyclic(OrderEdges(s.reg, C))) && (r != s <==> !HasToStop(r, name))
  {
    hide PidsKnown, WorldInv, StopUnit, StopPlan, StopClosure, OrderEdges, Acyclic, Follows, WellFormed;
    StopPlanCorrect(s.reg, name);
    if StopPlan(s.reg, name).Plan? {
      StopContract(s, name);
    } else {
      FailedStopChangesNothing(s, name);
    }
  }
}
