/** What each event means for the units, said about a step of the machine as a whole: every
    due restart is started, and every command does to its closures what it promises. */
module Commands {
  import opened Config
  import opened Sequences
  import opened Digraph
  import opened Registry
  import opened Install
  import opened Kernel
  import opened Supervisor
  import opened Bookkeeping
  import opened Stopping
  import opened Restarts
  import opened Failure
  import opened Starts
  import opened Runs
  import opened CrashRuns
  import opened FireOrder
  import opened Shutdown

  // ---------- Why a unit may be left alone ----------

  /** A process was made for u, or could not be made. */
  ghost predicate Attempted(notes: seq<Note>, u: UnitId) {
    exists n :: n in notes && n.unit == u && (n.Started? || n.SpawnFailed?)
  }

  /** x is, or hard-requires directly or not, a unit that was Failed or failed by itself. */
  ghost predicate HasCause(s: Sup, notes: seq<Note>, x: UnitId) {
    exists v: UnitId :: Reaches(HardEdges(s.reg), x, v) && (IsFailed(s, v) || FailsItself(notes, v))
  }

  /** u hard-requires such a unit. */
  ghost predicate Blocked(s: Sup, notes: seq<Note>, u: UnitId)
    requires u < |s.reg.units|
  {
    exists dep :: dep in HardTargets(s.reg, u) && HasCause(s, notes, dep)
  }

  /** u was started, unless there is nothing to start or something it requires has failed. */
  ghost predicate Attended(s: Sup, notes: seq<Note>, u: UnitId)
    requires u < |s.reg.units|
  {
    Attempted(notes, u) || s.reg.units[u].file.service.None? || Blocked(s, notes, u)
  }

  /** The same, with the state u is left in. */
  ghost predicate Served(s: Sup, r: Sup, u: UnitId)
    requires u < |s.reg.units| && u < |r.units|
  {
    var notes := NewNotes(s, r);
    || (s.reg.units[u].file.service.Some? && Attempted(notes, u))
    || (s.reg.units[u].file.service.None? && r.units[u].state == Active)
    || (IsFailed(r, u) && Blocked(s, notes, u))
  }

  /** Whatever is Failed has a cause. */
  ghost predicate AllCaused(s0: Sup, s: Sup) {
    && s.reg == s0.reg && |s.units| == |s0.units| && s0.journal <= s.journal
    && forall x: UnitId :: x < |s.units| && IsFailed(s, x) ==> HasCause(s0, NewNotes(s0, s), x)
  }

  lemma AtFirst(s: Sup)
    ensures AllCaused(s, s)
  {
    forall x: UnitId | x < |s.units| && IsFailed(s, x) ensures HasCause(s, NewNotes(s, s), x) { ReachesSelf(HardEdges(s.reg), x); }
  }

  lemma MoreNotes(s0: Sup, s: Sup, r: Sup)
    requires s0.journal <= s.journal <= r.journal
    ensures NewNotes(s0, r) == NewNotes(s0, s) + NewNotes(s, r)
    ensures forall n :: n in NewNotes(s0, r) <==> n in NewNotes(s0, s) || n in NewNotes(s, r)
  {
    assert NewNotes(s0, r) == NewNotes(s0, s) + NewNotes(s, r);
  }

  lemma CauseStays(s: Sup, a: seq<Note>, b: seq<Note>, x: UnitId)
    requires HasCause(s, a, x) && forall n :: n in a ==> n in b
    ensures HasCause(s, b, x)
  {
    hide HardEdges, Reaches;
    var v: UnitId :| Reaches(HardEdges(s.reg), x, v) && (IsFailed(s, v) || FailsItself(a, v));
    assert FailsItself(a, v) ==> FailsItself(b, v);
  }

  lemma BlockedStays(s: Sup, a: seq<Note>, b: seq<Note>, u: UnitId)
    requires u < |s.reg.units| && Blocked(s, a, u) && forall n :: n in a ==> n in b
    ensures Blocked(s, b, u)
  {
    hide HasCause, HardTargets;
    var dep :| dep in HardTargets(s.reg, u) && HasCause(s, a, dep);
    CauseStays(s, a, b, dep);
  }

  lemma AttendedStays(s: Sup, a: seq<Note>, b: seq<Note>, u: UnitId)
    requires u < |s.reg.units| && Attended(s, a, u) && forall n :: n in a ==> n in b
    ensures Attended(s, b, u)
  {
    hide Blocked;
    if Blocked(s, a, u) { BlockedStays(s, a, b, u); }
  }

  lemma CauseAbove(s: Sup, notes: seq<Note>, u: UnitId, dep: UnitId)
    requires u < |s.reg.units| && dep in HardTargets(s.reg, u) && HasCause(s, notes, dep)
    ensures HasCause(s, notes, u) && Blocked(s, notes, u)
  {
    hide Reaches, HardTargets;
    var E := HardEdges(s.reg);
    var v: UnitId :| Reaches(E, dep, v) && (IsFailed(s, v) || FailsItself(notes, v));
    assert (u, dep) in E;
    ReachesSelf(E, u);
    ReachesStep(E, u, u, dep);
    ReachesTrans(E, u, dep, v);
  }

  // ---------- One unit ----------

  /** What the start of one unit is, in terms of a state s0 from which the last notes count. */
  ghost predicate ServedNow(s0: Sup, s: Sup, r: Sup, u: UnitId)
    requires u < |s0.reg.units| && u < |r.units|
  {
    || (s0.reg.units[u].file.service.Some? && Attempted(NewNotes(s, r), u))
    || (s0.reg.units[u].file.service.None? && r.units[u].state == Active)
    || (IsFailed(r, u) && Blocked(s0, NewNotes(s0, r), u))
  }

  lemma StartedIsAttempted(s: Sup, r: Sup, u: UnitId, svc: ServiceSection, d: nat)
    requires u < |r.units| && u < |s.units| && StartedAs(s, r, u, svc, d)
    ensures Attempted(NewNotes(s, r), u)
  {
    hide Spawn, OneshotCalls, MayEnd, Calls;
    var (child, w) := Spawn(s.world);
    if child.Some? && svc.kind.Oneshot? {
      var outcome :| OneshotRan(s, r, u, svc, child.value, outcome, w, d);
      assert NewNotes(s, r)[0] == Started(u, child.value);
    }
    assert NewNotes(s, r)[0] in NewNotes(s, r);
  }

  lemma OneServed(s0: Sup, s: Sup, u: UnitId)
    requires Sound(s) && u < |s.units| && AllCaused(s0, s)
    ensures u < |s0.reg.units| && ServedNow(s0, s, StartUnit(s, u), u)
    ensures AllCaused(s0, StartUnit(s, u))
  {
    hide Sound, StartUnit, StartedAs, HasCause, Blocked, Attempted, FailsItself, HardTargets, IsDuration, NewNotes;
    SoundShaped(s);
    var r, service := StartUnit(s, u), s.reg.units[u].file.service;
    StartUnitTouches(s, u);
    MoreNotes(s0, s, r);
    var d := if service.Some? then StartTimeout(service.value) else 0;
    if service.Some? { LimitIsDuration(service.value); }
    StartFollowsFile(s, u, d);
    if dep :| dep in HardTargets(s.reg, u) && IsFailed(s, dep) {
      CauseStays(s0, NewNotes(s0, s), NewNotes(s0, r), dep);
      CauseAbove(s0, NewNotes(s0, r), u, dep);
    } else if service.Some? {
      StartedIsAttempted(s, r, u, service.value, d);
      if IsFailed(r, u) { FailedItself(s0, s, u); }
    }
    forall x: UnitId | x < |r.units| && IsFailed(r, x) ensures HasCause(s0, NewNotes(s0, r), x) {
      if x != u { CauseStays(s0, NewNotes(s0, s), NewNotes(s0, r), x); }
    }
  }

  lemma LimitIsDuration(svc: ServiceSection)
    ensures IsDuration(svc.timeoutStartSec, 30 * SECOND, StartTimeout(svc))
  {
    hide ParseDuration;
  }

  /** A service that nothing held back and that is Failed after its start failed by itself. */
  lemma FailedItself(s0: Sup, s: Sup, u: UnitId)
    requires Shaped(s) && u < |s.units| && IsFailed(StartUnit(s, u), u) && s.reg.units[u].file.service.Some?
    requires (forall dep :: dep in HardTargets(s.reg, u) ==> !IsFailed(s, dep)) && s0.journal <= s.journal
    ensures HasCause(s0, NewNotes(s0, StartUnit(s, u)), u)
  {
    hide FailsItself, OnlyTouches, StartService, HardTargets, WellFormed, Reaches, HardEdges, NewNotes;
    var r := StartUnit(s, u);
    BlockedMeans(s, u);
    StartServiceTouches(s, u, s.reg.units[u].file.service.value);
    TouchedGrows(s, r, u);
    MoreNotes(s0, s, r);
    SelfStays(NewNotes(s, r), NewNotes(s0, r), u);
    ReachesSelf(HardEdges(s0.reg), u);
  }

  lemma TouchedGrows(s: Sup, r: Sup, u: UnitId)
    requires OnlyTouches(s, r, u)
    ensures s.journal <= r.journal
  {
  }

  lemma SelfStays(a: seq<Note>, b: seq<Note>, u: UnitId)
    requires FailsItself(a, u) && forall n :: n in a ==> n in b
    ensures FailsItself(b, u)
  {
  }

  // ---------- A plan ----------

  lemma ServedIsAttended(s0: Sup, s: Sup, r: Sup, u: UnitId)
    requires u < |s0.reg.units| && u < |r.units| && s0.journal <= s.journal <= r.journal && ServedNow(s0, s, r, u)
    ensures Attended(s0, NewNotes(s0, r), u)
  {
    hide Blocked, NewNotes;
    MoreNotes(s0, s, r);
  }

  /** Activating attends to every unit of the list, in the order of the list. */
  lemma {:induction false} ActivateAttends(s0: Sup, s: Sup, plan: seq<UnitId>)
    requires Sound(s) && AllCaused(s0, s) && ValidIds(|s.units|, plan)
    ensures var r := Activate(s, plan);
      && AllCaused(s0, r) && s.journal <= r.journal && ValidIds(|s0.reg.units|, plan)
      && (forall i :: 0 <= i < |plan| ==> Attended(s0, NewNotes(s0, r), plan[i]))
      && InPlanOrder(NewNotes(s, r), plan)
      && (forall u: UnitId :: u < |s.units| && u !in plan ==> r.units[u] == s.units[u])
    decreases |plan|
  {
    hide WorldInv, PidsKnown, StartUnit, Attended, AllCaused, InPlanOrder, ServedNow, Follows, WellFormed;
    CausedShape(s0, s);
    if plan == [] {
      NothingInOrder(s);
    } else {
      var id, rest, s1 := plan[0], plan[1..], StartUnit(s, plan[0]);
      StartUnitSound(s, id);
      StartUnitTouches(s, id);
      OneServed(s0, s, id);
      ActivateAttends(s0, s1, rest);
      var r := Activate(s1, rest);
      CausedShape(s0, s1);
      ServedIsAttended(s0, s, s1, id);
      MoreNotes(s0, s1, r);
      AttendedStays(s0, NewNotes(s0, s1), NewNotes(s0, r), id);
      MoreNotes(s, s1, r);
      InPlanOrderStep(plan, NewNotes(s, s1), NewNotes(s1, r));
      forall i | 0 <= i < |plan| ensures Attended(s0, NewNotes(s0, r), plan[i]) {
        if i > 0 { assert plan[i] == rest[i - 1]; }
      }
      assert forall u :: u in plan <==> u == id || u in rest;
    }
  }

  lemma CausedShape(s0: Sup, s: Sup)
    requires AllCaused(s0, s)
    ensures s.reg == s0.reg && |s.units| == |s0.units| && s0.journal <= s.journal
  {
  }

  /** Starting leaves Active units alone and serves every other unit of the plan. */
  lemma {:induction false} StartInactiveServes(s0: Sup, s: Sup, plan: seq<UnitId>)
    requires Sound(s) && AllCaused(s0, s) && ValidIds(|s.units|, plan) && NoDup(plan)
    ensures var r := StartInactive(s, plan);
      && AllCaused(s0, r) && s.journal <= r.journal && ValidIds(|s0.reg.units|, plan)
      && (forall i :: 0 <= i < |plan| ==> if s.units[plan[i]].state == Active then r.units[plan[i]] == s.units[plan[i]] else Served(s0, r, plan[i]))
      && (forall u: UnitId :: u < |s.units| && u !in plan ==> r.units[u] == s.units[u])
    decreases |plan|
  {
    hide WorldInv, PidsKnown, StartUnit, Served, AllCaused, ServedNow, Follows, WellFormed;
    CausedShape(s0, s);
    if plan != [] {
      var id, rest := plan[0], plan[1..];
      assert forall i :: 0 < i < |plan| ==> plan[i] == rest[i - 1] && plan[i] != id;
      assert forall u :: u in plan <==> u == id || u in rest;
      if s.units[id].state == Active {
        StartInactiveServes(s0, s, rest);
      } else {
        var s1 := StartUnit(s, id);
        StartUnitSound(s, id);
        StartUnitTouches(s, id);
        OneServed(s0, s, id);
        StartInactiveServes(s0, s1, rest);
        CausedShape(s0, s1);
        ServedLater(s0, s, s1, StartInactive(s1, rest), id);
      }
    }
  }

  lemma ServedLater(s0: Sup, s: Sup, s1: Sup, r: Sup, u: UnitId)
    requires u < |s0.reg.units| && u < |s1.units| && u < |r.units| && r.units[u] == s1.units[u]
    requires s0.journal <= s.journal <= s1.journal <= r.journal && ServedNow(s0, s, s1, u)
    ensures Served(s0, r, u)
  {
    hide Blocked, NewNotes;
    MoreNotes(s0, s, s1);
    MoreNotes(s0, s1, r);
    if Blocked(s0, NewNotes(s0, s1), u) { BlockedStays(s0, NewNotes(s0, s1), NewNotes(s0, r), u); }
  }

  // ---------- The timer ----------

  function UnitsOf(notes: seq<Note>): (r: seq<UnitId>)
    ensures |r| == |notes| && forall i :: 0 <= i < |r| ==> r[i] == notes[i].unit
  {
    seq(|notes|, i requires 0 <= i < |notes| => notes[i].unit)
  }

  lemma {:induction false} FiredUnits(pending: seq<PendingRestart>, now: nat)
    ensures UnitsOf(FiredNotes(pending, now)) == DueUnits(pending, now)
    ensures forall p :: p in pending && p.fireAt <= now ==> p.unit in DueUnits(pending, now)
  {
    if pending != [] {
      FiredUnits(pending[1..], now);
      assert forall p :: p in pending <==> p == pending[0] || p in pending[1..];
    }
  }

  /** The notes of a timer pass: what fired, and what then happened to those units. */
  ghost predicate TimerNotes(s: Sup, r: Sup, fired: seq<Note>, started: seq<Note>)
    requires Shaped(s)
  {
    && r.journal == s.journal + fired + started && NoneFired(started)
    && (forall n :: n in fired ==> n.Fired? && n.at == s.world.now && n.fireAt <= s.world.now && PendingRestart(n.unit, n.fireAt) in s.pending)
    && (forall p :: p in s.pending && p.fireAt <= s.world.now ==> Fired(p.unit, s.world.now, p.fireAt) in fired && Attended(s, started, p.unit))
    && InPlanOrder(started, UnitsOf(fired))
    && (forall u: UnitId :: u < |s.units| && u !in UnitsOf(fired) && u < |r.units| ==> r.units[u] == s.units[u])
  }

  /** A timer pass fires every queued restart whose deadline has come, and starts every one
      of them, in the order they fired in: a process is made for the unit, or cannot be, or
      something the unit requires had failed. Units that are not due are left alone. */
  lemma TimerStartsWhatIsDue(s: Sup)
    requires Invariant(s)
    ensures Shaped(s) && exists fired, started :: TimerNotes(s, Step(s, Timer), fired, started)
    ensures forall p :: p in s.pending ==> (p in Step(s, Timer).pending <==> p.fireAt > s.world.now)
  {
    hide WorldInv, PidsKnown, Activate, Attended, AllCaused, InPlanOrder, FiredNotes, NotDue, DueUnits, NothingLost, Accounted, WellFormed, UnitsOf;
    var now := s.world.now;
    var fired := FiredNotes(s.pending, now);
    var s1 := s.(pending := NotDue(s.pending, now), journal := s.journal + fired);
    SoundFlags(s, s1);
    DueUnitsValid(s.pending, now, |s.units|);
    AtFirst(s1);
    ActivateAttends(s1, s1, DueUnits(s.pending, now));
    FiredUnits(s.pending, now);
    FiredNotesAre(s.pending, now);
    ActivateAccounts(s1, DueUnits(s.pending, now));
    var r := FireDue(s);
    TimerIs(s);
    var started := NewNotes(s1, r);
    assert r.journal == s.journal + fired + started;
    forall p | p in s.pending && p.fireAt <= now ensures Attended(s, started, p.unit) {
      var i :| 0 <= i < |DueUnits(s.pending, now)| && DueUnits(s.pending, now)[i] == p.unit;
      SameAttended(s1, s, started, p.unit);
    }
    assert TimerNotes(s, r, fired, started);
  }

  /** Only the registry and the states matter. */
  lemma SameAttended(s1: Sup, s: Sup, notes: seq<Note>, u: UnitId)
    requires s1.reg == s.reg && s1.units == s.units && u < |s.reg.units| && Attended(s1, notes, u)
    ensures Attended(s, notes, u)
  {
    hide Attempted, HardTargets, Reaches, HardEdges, FailsItself;
    if Blocked(s1, notes, u) {
      var dep :| dep in HardTargets(s1.reg, u) && HasCause(s1, notes, dep);
      assert HasCause(s, notes, dep);
    }
  }

  // ---------- The boot ----------

  /** The boot attends to everything its target requires, in plan order. */
  lemma BootAttends(reg: UnitTable, target: string, script: seq<Round>, now: nat)
    requires WellFormed(reg) && StartPlan(reg, target).Plan?
    ensures var f, r, C := Fresh(reg, script, now), Boot(reg, target, script, now), StartClosure(reg, reg.byName[target]);
      && Within(reg, C) && (forall u :: u in C ==> Attended(f, r.journal, u))
      && InPlanOrder(r.journal, StartPlan(reg, target).order)
      && (forall u: UnitId :: u < |reg.units| && u !in C ==> u < |r.units| && r.units[u] == f.units[u])
  {
    hide WorldInv, PidsKnown, NothingLost, Accounted, Activate, StartPlan, StartClosure, Attended, AllCaused, InPlanOrder, WellFormed, OrderEdges, Acyclic;
    StartPlanCorrect(reg, target);
    var f, order, C := Fresh(reg, script, now), StartPlan(reg, target).order, StartClosure(reg, reg.byName[target]);
    FreshInvariant(reg, script, now);
    StartOrderValid(reg, target);
    AtFirst(f);
    ActivateAttends(f, f, order);
    var r := Boot(reg, target, script, now);
    assert NewNotes(f, r) == r.journal;
    forall u | u in C ensures Attended(f, r.journal, u) {
      assert u in ToSet(order);
      var i :| 0 <= i < |order| && order[i] == u;
    }
    forall u | u in order ensures u in C { assert u in ToSet(order); }
  }

  // ---------- START ----------

  /** Everything in C is served that was not Active, and nothing else is touched. */
  ghost predicate Serves(s: Sup, r: Sup, C: set<UnitId>)
    requires Within(s.reg, C) && |s.units| == |r.units| == |s.reg.units|
  {
    && (forall u :: u in C ==> if s.units[u].state == Active then r.units[u] == s.units[u] else Served(s, r, u))
    && (forall u: UnitId :: u < |s.units| && u !in C ==> r.units[u] == s.units[u])
  }

  lemma StartServes(s: Sup, name: string)
    requires Sound(s) && StartPlan(s.reg, name).Plan?
    ensures var r, C := StartNamed(s, name), StartClosure(s.reg, s.reg.byName[name]);
      Within(s.reg, C) && |s.units| == |r.units| == |s.reg.units| && s.journal <= r.journal && Serves(s, r, C)
  {
    hide WorldInv, PidsKnown, StartInactive, StartPlan, StartClosure, Served, AllCaused, WellFormed, OrderEdges, Acyclic;
    SoundShaped(s);
    ShapedLength(s);
    StartPlanCorrect(s.reg, name);
    StartOrderValid(s.reg, name);
    var order, C := StartPlan(s.reg, name).order, StartClosure(s.reg, s.reg.byName[name]);
    AtFirst(s);
    StartInactiveServes(s, s, order);
    var r := StartNamed(s, name);
    forall u | u in C ensures if s.units[u].state == Active then r.units[u] == s.units[u] else Served(s, r, u) {
      assert u in ToSet(order);
      var i :| 0 <= i < |order| && order[i] == u;
    }
    forall u | u in order ensures u in C { assert u in ToSet(order); }
  }

  lemma ShapedLength(s: Sup)
    requires Shaped(s)
    ensures |s.units| == |s.reg.units|
  {
  }

  /** START of a unit with a plan: of everything it requires, directly or not, what was not
      Active is started, or Active at once if there is no process to it, or Failed because
      something it requires failed; the rest is left alone. Without a plan: nothing. */
  lemma StartDoes(s: Sup, name: string)
    requires Invariant(s)
    ensures Shaped(s) && var r := Step(s, Start(name));
      if StartPlan(s.reg, name).Plan? then
        var C := StartClosure(s.reg, s.reg.byName[name]);
        r.reg == s.reg && Within(s.reg, C) && |s.units| == |r.units| == |s.reg.units| && Serves(s, r, C)
      else r == s
  {
    hide Sound, NothingLost, Accounted, StartNamed, StartPlan, StartClosure, Serves, WellFormed, Step;
    SoundShaped(s);
    StartIs(s, name);
    if StartPlan(s.reg, name).Plan? { StartServes(s, name); } else { NoPlanNoStart(s, name); }
  }

  lemma NoPlanNoStart(s: Sup, name: string)
    requires Shaped(s) && !StartPlan(s.reg, name).Plan?
    ensures StartNamed(s, name) == s
  {
    hide WellFormed, StartPlan;
  }

  // ---------- STOP and DISABLE ----------

  /** Everything in C is Inactive, without a process and without a queued restart; others
      have changed only by losing their own child. */
  ghost predicate AllStopped(s: Sup, r: Sup, C: set<UnitId>) {
    && |r.units| == |s.units|
    && (forall u :: u in C ==> u < |r.units| && r.units[u].state == Inactive && r.units[u].pid.None?)
    && (forall p :: p in r.pending <==> p in s.pending && p.unit !in C)
    && (forall u: UnitId :: u < |s.units| && u !in C && r.units[u] != s.units[u] ==> r.units[u] == Quieted(s.units[u]) && ChildGone(s, r, u))
  }

  lemma StopStops(s: Sup, name: string)
    requires Invariant(s) && StopPlan(s.reg, name).Plan?
    ensures var r := StopUnit(s, name);
      Shaped(s) && Invariant(r) && r.reg == s.reg && s.journal <= r.journal && AllStopped(s, r, StopClosure(s.reg, s.reg.byName[name]))
  {
    hide WorldInv, PidsKnown, NothingLost, Accounted, StopPlan, StopPlanned, StopClosure, WellFormed, Forgot, Calls, DrainCalls, Follows, RequirementEdges;
    StopContract(s, name);
    StopUnitKeeps(s, name);
    StopOrderValid(s.reg, name);
    StopPlannedUnits(s, StopPlan(s.reg, name).order);
  }

  lemma StopIs(s: Sup, name: string)
    requires Shaped(s)
    ensures Step(s, Stop(name)) == StopUnit(s, name) && Step(s, Disable(name)) == StopUnit(s, name)
  {
    hide FireDue, WellFormed, ReadChildSignal, InitiateShutdown, StartNamed, StopUnit, EnableUnit, RestartUnit;
  }

  /** STOP and DISABLE of a unit with a stop plan leave it, and everything that requires it
      directly or not, stopped; without one, nothing changes. */
  lemma StopAndDisableDo(s: Sup, name: string, e: Event)
    requires Invariant(s) && (e == Stop(name) || e == Disable(name))
    ensures Shaped(s) && var r := Step(s, e);
      if StopPlan(s.reg, name).Plan? then r.reg == s.reg && AllStopped(s, r, StopClosure(s.reg, s.reg.byName[name])) else r == s
  {
    hide Sound, NothingLost, Accounted, StopUnit, StopPlan, StopClosure, AllStopped, WellFormed, Step;
    SoundShaped(s);
    StopIs(s, name);
    if StopPlan(s.reg, name).Plan? { StopStops(s, name); } else { FailedStopChangesNothing(s, name); }
  }

  // ---------- RESTART ----------

  lemma RestartIs(s: Sup, name: string)
    requires Shaped(s)
    ensures Step(s, Restart(name)) == if StopPlan(s.reg, name).Plan? then StartNamed(StopUnit(s, name), name) else s
  {
    hide FireDue, WellFormed, ReadChildSignal, InitiateShutdown, StartNamed, StopUnit, EnableUnit, StopPlan;
  }

  /** Stopping makes no unit Failed, so what it leaves serves as a beginning. */
  lemma ServedSince(s: Sup, m: Sup, r: Sup, u: UnitId)
    requires m.reg == s.reg && |m.units| == |s.units| && u < |s.reg.units| && u < |r.units|
    requires s.journal <= m.journal <= r.journal && (forall v: UnitId :: IsFailed(m, v) ==> IsFailed(s, v)) && Served(m, r, u)
    ensures Served(s, r, u)
  {
    hide HardTargets, Reaches, HardEdges, NewNotes, IsFailed, FailsItself, Attempted;
    MoreNotes(s, m, r);
    MoreAttempted(NewNotes(m, r), NewNotes(s, r), u);
    if Blocked(m, NewNotes(m, r), u) {
      var dep :| dep in HardTargets(m.reg, u) && HasCause(m, NewNotes(m, r), dep);
      var v: UnitId :| Reaches(HardEdges(m.reg), dep, v) && (IsFailed(m, v) || FailsItself(NewNotes(m, r), v));
      if FailsItself(NewNotes(m, r), v) { SelfStays(NewNotes(m, r), NewNotes(s, r), v); }
      assert HasCause(s, NewNotes(s, r), dep);
    }
  }

  lemma MoreAttempted(a: seq<Note>, b: seq<Note>, u: UnitId)
    requires forall n :: n in a ==> n in b
    ensures Attempted(a, u) ==> Attempted(b, u)
  {
  }

  lemma StoppedIsNotFailed(s: Sup, m: Sup, C: set<UnitId>)
    requires AllStopped(s, m, C)
    ensures forall v: UnitId :: IsFailed(m, v) ==> IsFailed(s, v)
    ensures forall u: UnitId :: u < |s.units| && (u in C || s.units[u].state != Active) ==> m.units[u].state != Active
  {
  }

  /** After RESTART: of what the unit requires, everything that was stopped on the way or
      was not Active is served as by START; what requires the unit and is not required by it
      stays stopped; and nothing that was stopped has a restart queued. */
  ghost predicate StoppedThenServed(s: Sup, r: Sup, S: set<UnitId>, C: set<UnitId>)
    requires Within(s.reg, S) && Within(s.reg, C) && |s.units| == |r.units| == |s.reg.units|
  {
    && (forall u :: u in C && (u in S || s.units[u].state != Active) ==> Served(s, r, u))
    && (forall u :: u in S && u !in C ==> r.units[u].state == Inactive && r.units[u].pid.None?)
    && (forall p :: p in r.pending <==> p in s.pending && p.unit !in S)
  }

  /** RESTART stops and then starts; with no stop plan it does nothing, and with no start
      plan it stops. */
  lemma RestartDoes(s: Sup, name: string)
    requires Invariant(s)
    ensures Shaped(s) && var r := Step(s, Restart(name));
      if !StopPlan(s.reg, name).Plan? then r == s
      else
        var S, C := StopClosure(s.reg, s.reg.byName[name]), StartClosure(s.reg, s.reg.byName[name]);
        && Within(s.reg, S) && Within(s.reg, C) && |s.units| == |r.units| == |s.reg.units|
        && if StartPlan(s.reg, name).Plan? then StoppedThenServed(s, r, S, C) else AllStopped(s, r, S)
  {
    hide Sound, NothingLost, Accounted, StartNamed, StopUnit, StopPlan, StartPlan, StartClosure, StopClosure, Served, WellFormed, Step, SameAccounts, Follows, OrderEdges, Acyclic;
    SoundShaped(s);
    ShapedLength(s);
    RestartIs(s, name);
    if StopPlan(s.reg, name).Plan? {
      StopPlanCorrect(s.reg, name);
      StartPlanCorrect(s.reg, name);
      StopStops(s, name);
      var m := StopUnit(s, name);
      var S, C := StopClosure(s.reg, s.reg.byName[name]), StartClosure(s.reg, s.reg.byName[name]);
      StoppedIsNotFailed(s, m, S);
      if StartPlan(s.reg, name).Plan? {
        StartServes(m, name);
        StartNamedKeeps(m, name);
        SameQueue(m, StartNamed(m, name));
        var r := StartNamed(m, name);
        forall u | u in C && (u in S || s.units[u].state != Active) ensures Served(s, r, u) { ServedSince(s, m, r, u); }
      } else {
        NoPlanNoStart(m, name);
      }
    }
  }

  lemma SameQueue(s: Sup, r: Sup)
    requires SameAccounts(s, r)
    ensures r.pending == s.pending
  {
  }

  // ---------- ENABLE ----------

  lemma EnableIs(s: Sup, name: string, reach: EnableReach)
    requires Shaped(s)
    ensures Step(s, Enable(name, reach)) == EnableUnit(s, name, reach)
  {
    hide FireDue, WellFormed, ReadChildSignal, InitiateShutdown, StartNamed, StopUnit, EnableUnit, RestartUnit;
  }

  /** ENABLE of a known unit whose stub was written and announced adds one soft requirement
      of the default target; and when its second reply is written too, it starts the unit,
      as START does with that requirement in place. Otherwise it changes nothing. */
  lemma EnableDoes(s: Sup, name: string, reach: EnableReach)
    requires Invariant(s)
    ensures Shaped(s) && var r, target := Step(s, Enable(name, reach)), "multi-user.target";
      if name !in s.reg.byName || target !in s.reg.byName || reach.NotPersisted? || reach.Persisted? then r == s
      else
        && Shaped(r) && r.reg.units == s.reg.units && r.reg.byName == s.reg.byName && HardEdges(r.reg) == HardEdges(s.reg)
        && RequirementEdges(r.reg) == RequirementEdges(s.reg) + {(s.reg.byName[target], s.reg.byName[name])}
        && var s1, C := s.(reg := r.reg), StartClosure(r.reg, s.reg.byName[name]);
          if reach.Complete? && StartPlan(r.reg, name).Plan? then
            Within(r.reg, C) && |s.units| == |r.units| == |r.reg.units| && Serves(s1, r, C)
          else r == s1
  {
    hide Sound, NothingLost, Accounted, StartNamed, StartPlan, StartClosure, Serves, WellFormed, Step, RequirementEdges, HardEdges, SameOrdering;
    SoundShaped(s);
    ShapedLength(s);
    EnableIs(s, name, reach);
    EnabledRegistryShaped(s, name, reach);
    var reg := EnabledRegistry(s.reg, name, reach);
    if reg.Some? {
      AddWantedByEdges(s.reg, MULTI_USER, name);
      OtherEdgesKeep(s, reg.value);
      var s1 := s.(reg := reg.value);
      if reach.Complete? {
        if StartPlan(reg.value, name).Plan? { StartServes(s1, name); } else { NoPlanNoStart(s1, name); }
      }
    }
  }

  // ---------- Signals ----------

  /** Reading SIGCHLD collects every child that has exited. */
  lemma ChildSignalDoes(s: Sup)
    requires Invariant(s)
    ensures Shaped(s) && Step(s, ReadSigchld).world.zombies == []
  {
    hide Sound, Accounted, ReadChildSignal, Step;
    SoundShaped(s);
    ReadIs(s);
    ReadSigchldKeeps(s);
    if !s.world.sigchld { NotRead(s); }
  }

  lemma NotRead(s: Sup)
    requires Shaped(s) && !s.world.sigchld
    ensures ReadChildSignal(s) == s
  {
    hide WellFormed;
  }

  /** The first SIGTERM or SIGINT asks every recorded process, once and in unit order, to
      end, and cancels every restart; a second one changes nothing. */
  lemma TerminateDoes(s: Sup)
    requires Shaped(s)
    ensures var r := Step(s, Terminate);
      && r.shuttingDown && r.units == s.units && r.byPid == s.byPid
      && (!s.shuttingDown ==> r.pending == [] && Calls(r.world.log) == Calls(s.world.log) + Terms(Shutdown.Running(s.units), s.world.now))
      && Step(r, Terminate) == r
    ensures forall u: UnitId :: u < |s.units| && s.units[u].pid.Some? ==> s.units[u].pid.value in Shutdown.Running(s.units)
  {
    hide Calls, Terms, TermAll, Shutdown.Running, WellFormed;
    ShutdownSignals(s);
  }
}
