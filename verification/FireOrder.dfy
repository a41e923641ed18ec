/** In what order due restarts are started: the queue's, which is that of their deadlines
    in every run exactly when no two units that can be restarted have different delays. */
module FireOrder {
  import opened Config
  import opened Sequences
  import opened Digraph
  import opened Registry
  import opened Install
  import opened Kernel
  import opened Supervisor
  import opened Bookkeeping
  import opened Stopping
  import opened Restarts
  import opened Failure
  import opened Runs
  import opened CrashLoops
  import opened BestCases
  import opened CrashRuns

  // ---------- One timer pass ----------

  /** Restarts were fired in the order of their deadlines. */
  ghost predicate InTimeOrder(notes: seq<Note>) {
    forall i, j :: 0 <= i < j < |notes| && notes[i].Fired? && notes[j].Fired? ==> notes[i].fireAt <= notes[j].fireAt
  }

  /** The due entries stand in the queue in the order of their deadlines. */
  ghost predicate DueInOrder(pending: seq<PendingRestart>, now: nat) {
    forall i, j :: 0 <= i < j < |pending| && pending[i].fireAt <= now && pending[j].fireAt <= now ==> pending[i].fireAt <= pending[j].fireAt
  }

  ghost predicate NoneFired(notes: seq<Note>) {
    forall n :: n in notes ==> !n.Fired?
  }

  lemma TimeOrderHead(n: Note, rest: seq<Note>)
    requires n.Fired?
    ensures InTimeOrder([n] + rest) <==> InTimeOrder(rest) && forall m :: m in rest && m.Fired? ==> n.fireAt <= m.fireAt
  {
    var all := [n] + rest;
    if InTimeOrder(all) {
      forall i, j | 0 <= i < j < |rest| && rest[i].Fired? && rest[j].Fired? ensures rest[i].fireAt <= rest[j].fireAt {
        assert all[i + 1] == rest[i] && all[j + 1] == rest[j];
      }
      forall m | m in rest && m.Fired? ensures n.fireAt <= m.fireAt {
        var j :| 0 <= j < |rest| && rest[j] == m;
        assert all[0] == n && all[j + 1] == m;
      }
    }
  }

  lemma DueOrderHead(p: PendingRestart, rest: seq<PendingRestart>, now: nat)
    ensures DueInOrder([p] + rest, now) <==>
      DueInOrder(rest, now) && (p.fireAt <= now ==> forall q :: q in rest && q.fireAt <= now ==> p.fireAt <= q.fireAt)
  {
    var all := [p] + rest;
    if DueInOrder(all, now) {
      forall i, j | 0 <= i < j < |rest| && rest[i].fireAt <= now && rest[j].fireAt <= now ensures rest[i].fireAt <= rest[j].fireAt {
        assert all[i + 1] == rest[i] && all[j + 1] == rest[j];
      }
      forall q | p.fireAt <= now && q in rest && q.fireAt <= now ensures p.fireAt <= q.fireAt {
        var j :| 0 <= j < |rest| && rest[j] == q;
        assert all[0] == p && all[j + 1] == q;
      }
    }
  }

  /** The notes of a timer pass are one for each due entry. */
  lemma {:induction false} FiredNotesAre(pending: seq<PendingRestart>, now: nat)
    ensures forall n :: n in FiredNotes(pending, now) ==> n.Fired? && n.at == now && n.fireAt <= now && PendingRestart(n.unit, n.fireAt) in pending
    ensures forall p :: p in pending && p.fireAt <= now ==> Fired(p.unit, now, p.fireAt) in FiredNotes(pending, now)
  {
    if pending != [] {
      FiredNotesAre(pending[1..], now);
      assert forall p :: p in pending <==> p == pending[0] || p in pending[1..];
    }
  }

  lemma {:induction false} FiredNotesInOrder(pending: seq<PendingRestart>, now: nat)
    ensures InTimeOrder(FiredNotes(pending, now)) <==> DueInOrder(pending, now)
  {
    hide InTimeOrder, DueInOrder;
    if pending == [] {
      EmptyInOrder(now);
    } else {
      var p, rest := pending[0], pending[1..];
      assert pending == [p] + rest;
      FiredNotesInOrder(rest, now);
      DueOrderHead(p, rest, now);
      if p.fireAt <= now {
        FiredNotesAre(rest, now);
        TimeOrderHead(Fired(p.unit, now, p.fireAt), FiredNotes(rest, now));
      }
    }
  }

  lemma EmptyInOrder(now: nat)
    ensures InTimeOrder([]) && DueInOrder([], now)
  {
  }

  lemma TimeOrderAppend(a: seq<Note>, b: seq<Note>)
    requires NoneFired(b)
    ensures InTimeOrder(a + b) <==> InTimeOrder(a)
  {
    assert forall i :: |a| <= i < |a + b| ==> (a + b)[i] in b;
    if InTimeOrder(a + b) {
      assert forall i :: 0 <= i < |a| ==> (a + b)[i] == a[i];
    }
  }

  /** A timer pass notes what it fires, then starts; the starts fire nothing. */
  lemma FireDueNotes(s: Sup) returns (more: seq<Note>)
    requires Sound(s)
    ensures FireDue(s).journal == s.journal + FiredNotes(s.pending, s.world.now) + more && NoneFired(more)
    ensures FireDue(s).pending == NotDue(s.pending, s.world.now) && s.world.now <= FireDue(s).world.now
  {
    hide Activate, FiredNotes, NotDue, DueUnits, WorldInv, PidsKnown;
    var now := s.world.now;
    var s1 := s.(pending := NotDue(s.pending, now), journal := s.journal + FiredNotes(s.pending, now));
    DueUnitsValid(s.pending, now, |s.units|);
    SoundFlags(s, s1);
    ActivateAccounts(s1, DueUnits(s.pending, now));
    more := FireDue(s).journal[|s1.journal|..];
  }

  lemma SoundFlags(s: Sup, s1: Sup)
    requires Sound(s) && s1 == s.(pending := s1.pending, journal := s1.journal) && forall p :: p in s1.pending ==> p in s.pending
    ensures Sound(s1)
  {
  }

  /** One pass fires in the order of deadlines exactly when the due entries of the queue
      stand in that order. */
  lemma FiresInOrderIff(s: Sup)
    requires Sound(s)
    ensures InTimeOrder(NewNotes(s, FireDue(s))) <==> DueInOrder(s.pending, s.world.now)
  {
    hide InTimeOrder, DueInOrder, FireDue, Sound, FiredNotes;
    var more := FireDueNotes(s);
    var fired := FiredNotes(s.pending, s.world.now);
    SoundShaped(s);
    assert NewNotes(s, FireDue(s)) == fired + more;
    TimeOrderAppend(fired, more);
    FiredNotesInOrder(s.pending, s.world.now);
  }

  /** Such a queue: the second entry was due first. */
  lemma LateFirst(first: UnitId, second: UnitId)
    ensures var queue := [PendingRestart(first, 10 * SECOND), PendingRestart(second, 6 * SECOND)];
      DueUnits(queue, 10 * SECOND) == [first, second] && !DueInOrder(queue, 10 * SECOND)
  {
    var queue := [PendingRestart(first, 10 * SECOND), PendingRestart(second, 6 * SECOND)];
    assert queue[1..] == [queue[1]] && [queue[1]][1..] == [];
    assert DueUnits([queue[1]], 10 * SECOND) == [second];
    assert queue[0].fireAt > queue[1].fireAt;
  }

  // ---------- The queue in order ----------

  ghost predicate SortedQueue(pending: seq<PendingRestart>) {
    forall i, j :: 0 <= i < j < |pending| ==> pending[i].fireAt <= pending[j].fireAt
  }

  ghost predicate FiredBy(journal: seq<Note>, t: nat) {
    forall n :: n in journal && n.Fired? ==> n.fireAt <= t
  }

  /** The queue is sorted, everything fired was due before what it holds, and nothing in
      it lies further ahead than the delay. */
  ghost predicate InOrder(s: Sup, delay: nat) {
    && SortedQueue(s.pending) && InTimeOrder(s.journal) && FiredBy(s.journal, s.world.now)
    && (forall p :: p in s.pending ==> p.fireAt <= s.world.now + delay && FiredBy(s.journal, p.fireAt))
  }

  lemma SortedHead(p: PendingRestart, rest: seq<PendingRestart>)
    ensures SortedQueue([p] + rest) <==> SortedQueue(rest) && forall q :: q in rest ==> p.fireAt <= q.fireAt
  {
    var all := [p] + rest;
    if SortedQueue(all) {
      forall i, j | 0 <= i < j < |rest| ensures rest[i].fireAt <= rest[j].fireAt {
        assert all[i + 1] == rest[i] && all[j + 1] == rest[j];
      }
      forall q | q in rest ensures p.fireAt <= q.fireAt {
        var j :| 0 <= j < |rest| && rest[j] == q;
        assert all[0] == p && all[j + 1] == q;
      }
    }
  }

  lemma {:induction false} NotDueSorted(pending: seq<PendingRestart>, now: nat)
    requires SortedQueue(pending)
    ensures SortedQueue(NotDue(pending, now))
  {
    hide SortedQueue;
    if pending != [] {
      assert pending == [pending[0]] + pending[1..];
      SortedHead(pending[0], pending[1..]);
      NotDueSorted(pending[1..], now);
      SortedHead(pending[0], NotDue(pending[1..], now));
    }
  }

  lemma {:induction false} DropOfSorted(pending: seq<PendingRestart>, id: UnitId)
    requires SortedQueue(pending)
    ensures SortedQueue(DropOf(pending, id))
  {
    hide SortedQueue;
    if pending != [] {
      assert pending == [pending[0]] + pending[1..];
      SortedHead(pending[0], pending[1..]);
      DropOfSorted(pending[1..], id);
      SortedHead(pending[0], DropOf(pending[1..], id));
    }
  }

  lemma {:induction false} DropPlanSorted(pending: seq<PendingRestart>, plan: seq<UnitId>)
    requires SortedQueue(pending)
    ensures SortedQueue(DropPlan(pending, plan))
    decreases |plan|
  {
    hide SortedQueue;
    if plan != [] {
      DropOfSorted(pending, plan[0]);
      DropPlanSorted(DropOf(pending, plan[0]), plan[1..]);
    }
  }

  lemma SortedIsInOrder(pending: seq<PendingRestart>, now: nat)
    requires SortedQueue(pending)
    ensures DueInOrder(pending, now)
  {
  }

  /** Time passed, entries may have left the queue, and nothing was fired. */
  lemma OrderKept(s: Sup, r: Sup, delay: nat, notes: seq<Note>)
    requires InOrder(s, delay) && r.journal == s.journal + notes && NoneFired(notes) && s.world.now <= r.world.now
    requires SortedQueue(r.pending) && forall p :: p in r.pending ==> p in s.pending
    ensures InOrder(r, delay)
  {
    hide InTimeOrder, SortedQueue;
    TimeOrderAppend(s.journal, notes);
    FiredByAppend(s.journal, notes);
    FiredLater(s.journal, s.world.now, r.world.now);
  }

  lemma FiredByAppend(a: seq<Note>, b: seq<Note>)
    requires NoneFired(b)
    ensures forall t: nat :: FiredBy(a, t) ==> FiredBy(a + b, t)
  {
  }

  lemma FiredLater(a: seq<Note>, t: nat, later: nat)
    requires FiredBy(a, t) && t <= later
    ensures FiredBy(a, later)
  {
  }

  /** A restart queued the delay ahead goes to the end in order. */
  lemma OrderPush(s: Sup, r: Sup, delay: nat, u: UnitId)
    requires InOrder(s, delay) && r.world.now == s.world.now && r.pending == s.pending + [PendingRestart(u, s.world.now + delay)]
    requires r.journal == s.journal + [Scheduled(u, s.world.now, s.world.now + delay)]
    ensures InOrder(r, delay)
  {
    hide InTimeOrder;
    var notes := [Scheduled(u, s.world.now, s.world.now + delay)];
    TimeOrderAppend(s.journal, notes);
    FiredByAppend(s.journal, notes);
    FiredLater(s.journal, s.world.now, s.world.now + delay);
    assert forall i :: 0 <= i < |s.pending| ==> s.pending[i] in s.pending && r.pending[i] == s.pending[i];
    assert forall p :: p in r.pending ==> p in s.pending || p == PendingRestart(u, s.world.now + delay);
  }

  /** Notes of restarts that were all queued, in order. */
  lemma TimeOrderConcat(a: seq<Note>, b: seq<Note>)
    requires InTimeOrder(a) && InTimeOrder(b) && forall n :: n in b ==> n.Fired? && FiredBy(a, n.fireAt)
    ensures InTimeOrder(a + b)
  {
    var all := a + b;
    forall i, j | 0 <= i < j < |all| && all[i].Fired? && all[j].Fired? ensures all[i].fireAt <= all[j].fireAt {
      if j < |a| {
        assert all[i] == a[i] && all[j] == a[j];
      } else if i < |a| {
        assert all[i] in a && all[j] == b[j - |a|] && all[j] in b;
      } else {
        assert all[i] == b[i - |a|] && all[j] == b[j - |a|];
      }
    }
  }

  lemma FireDueInOrder(s: Sup, delay: nat)
    requires Sound(s) && InOrder(s, delay)
    ensures InOrder(FireDue(s), delay)
  {
    hide InTimeOrder, SortedQueue, FireDue, Sound, FiredNotes, FiredBy;
    var now := s.world.now;
    var more := FireDueNotes(s);
    var fired := FiredNotes(s.pending, now);
    NotDueSorted(s.pending, now);
    SortedIsInOrder(s.pending, now);
    FiredNotesInOrder(s.pending, now);
    FiredNotesAre(s.pending, now);
    TimeOrderConcat(s.journal, fired);
    TimeOrderAppend(s.journal + fired, more);
    forall t: nat | now <= t ensures FiredBy(s.journal + fired + more, t) {
      FiredLater(s.journal, now, t);
      FiredByBoth(s.journal, fired, t);
      FiredByAppend(s.journal + fired, more);
    }
  }

  lemma FiredByBoth(a: seq<Note>, b: seq<Note>, t: nat)
    requires FiredBy(a, t) && forall n :: n in b ==> n.Fired? && n.fireAt <= t
    ensures FiredBy(a + b, t)
  {
  }

  lemma AccountsInOrder(s: Sup, r: Sup, delay: nat)
    requires InOrder(s, delay) && SameAccounts(s, r)
    ensures InOrder(r, delay)
  {
    OrderKept(s, r, delay, r.journal[|s.journal|..]);
  }

  // ---------- Who can be started at all ----------

  /** Some start command has u in its plan. */
  ghost predicate CanStart(reg: UnitTable, u: UnitId)
    requires WellFormed(reg)
  {
    exists name :: StartPlan(reg, name).Plan? && u in StartPlan(reg, name).order
  }

  /** Every plan stays within A. */
  ghost predicate PlansWithin(reg: UnitTable, A: set<UnitId>)
    requires WellFormed(reg)
  {
    forall u: UnitId :: CanStart(reg, u) ==> u in A
  }

  lemma AcyclicPart(E: Edges, F: Edges)
    requires Acyclic(F) && E <= F
    ensures Acyclic(E)
  {
    forall p | IsPath(E, p) && |p| > 1 ensures p[0] != p[|p| - 1] { assert IsPath(F, p); }
  }

  /** What a member of a plan requires has a plan. */
  lemma PartHasPlan(reg: UnitTable, r: UnitTable, whole: string, part: string)
    requires WellFormed(reg) && WellFormed(r) && SameOrdering(reg, r) && whole in r.byName && part in reg.byName
    requires StartPlan(r, whole).Plan? && StartClosure(reg, reg.byName[part]) <= StartClosure(r, r.byName[whole])
    ensures StartPlan(reg, part).Plan? && forall u: UnitId :: u in StartClosure(reg, reg.byName[part]) ==> CanStart(reg, u)
  {
    hide StartPlan, StartClosure, OrderEdges, Acyclic, WellFormed, SameOrdering;
    StartPlanCorrect(r, whole);
    StartPlanCorrect(reg, part);
    var C, D := StartClosure(reg, reg.byName[part]), StartClosure(r, r.byName[whole]);
    FewerOrderEdges(reg, r, C, D);
    AcyclicPart(OrderEdges(reg, C), OrderEdges(r, D));
    forall u: UnitId | u in C ensures CanStart(reg, u) {
      assert u in ToSet(StartPlan(reg, part).order);
    }
  }

  lemma FewerOrderEdges(reg: UnitTable, r: UnitTable, C: set<UnitId>, D: set<UnitId>)
    requires SameOrdering(reg, r) && Within(reg, C) && Within(r, D) && C <= D
    ensures OrderEdges(reg, C) <= OrderEdges(r, D)
  {
    hide OrderedBefore;
  }

  /** One edge more: what a reaches then, a or the edge's end reached before. */
  lemma ClosureWithEdge(E: Edges, F: Edges, t: nat, x: nat, a: nat)
    requires F == E + {(t, x)}
    ensures Closure(E, a) <= Closure(F, a) <= Closure(E, a) + Closure(E, x)
    ensures x in Closure(F, a) ==> Closure(E, x) <= Closure(F, a)
  {
    hide Closure;
    ClosureIsLeast(E, a);
    ClosureIsLeast(E, x);
    ClosureIsLeast(F, a);
    var S := Closure(E, a) + Closure(E, x);
    assert Closed(F, S);
    assert Closed(E, Closure(F, a));
  }

  /** ENABLE brings no unit into a plan that was in none. */
  lemma EnablingStartsNoMore(reg: UnitTable, target: string, unit: string, u: UnitId)
    requires WellFormed(reg) && target in reg.byName && unit in reg.byName
    requires AddWantedBy(reg, target, unit).Added? && WellFormed(AddWantedBy(reg, target, unit).reg)
    ensures CanStart(AddWantedBy(reg, target, unit).reg, u) ==> CanStart(reg, u)
  {
    hide WellFormed, StartPlan, RequirementEdges, Closure, SameOrdering;
    var r := AddWantedBy(reg, target, unit).reg;
    AddWantedByEdges(reg, target, unit);
    if CanStart(r, u) {
      var name :| StartPlan(r, name).Plan? && u in StartPlan(r, name).order;
      StartPlanCorrect(r, name);
      assert u in ToSet(StartPlan(r, name).order);
      var a, x := r.byName[name], reg.byName[unit];
      NamesKept(reg, target, unit);
      ClosureWithEdge(RequirementEdges(reg), RequirementEdges(r), reg.byName[target], x, a);
      if u in StartClosure(reg, a) {
        PartHasPlan(reg, r, name, name);
      } else {
        EdgeIsUsed(RequirementEdges(reg), RequirementEdges(r), reg.byName[target], x, a);
        PartHasPlan(reg, r, name, unit);
      }
    }
  }

  lemma NamesKept(reg: UnitTable, target: string, unit: string)
    requires AddWantedBy(reg, target, unit).Added?
    ensures AddWantedBy(reg, target, unit).reg.byName == reg.byName
  {
  }

  lemma EdgeIsUsed(E: Edges, F: Edges, t: nat, x: nat, a: nat)
    requires F == E + {(t, x)}
    ensures x in Closure(F, a) || Closure(F, a) <= Closure(E, a)
  {
    hide Closure;
    ClosureIsLeast(E, a);
    ClosureIsLeast(F, a);
    if x !in Closure(F, a) {
      assert Closed(E, Closure(F, a));
      assert (t, x) in F;
      assert Closed(F, Closure(E, a));
    }
  }

  // ---------- What every event keeps ----------

  /** Recorded processes and queued restarts are of units in A, the processes long-running. */
  ghost predicate OwnedBy(s: Sup, A: set<UnitId>)
    requires Shaped(s)
  {
    && (forall p :: p in s.byPid ==> s.byPid[p] in A && IsLongRunning(s.reg, s.byPid[p]))
    && (forall q :: q in s.pending ==> q.unit in A)
  }

  /** All units of A that can be restarted have the same delay. */
  ghost predicate Uniform(reg: UnitTable, A: set<UnitId>, delay: nat) {
    forall u: UnitId :: u in A && u < |reg.units| && Restartable(reg, u) ==> DelayOf(reg, u) == delay
  }

  ghost predicate Steady(s: Sup, A: set<UnitId>, delay: nat) {
    Shaped(s) && PlansWithin(s.reg, A) && Uniform(s.reg, A, delay) && OwnedBy(s, A) && InOrder(s, delay)
  }

  ghost predicate Inside(plan: seq<UnitId>, A: set<UnitId>) {
    forall u :: u in plan ==> u in A
  }

  lemma StartUnitOwned(s: Sup, id: UnitId, A: set<UnitId>)
    requires Sound(s) && OwnedBy(s, A) && id < |s.units| && id in A
    ensures OwnedBy(StartUnit(s, id), A)
  {
    hide WorldInv, PidsKnown, StartService, HasFailedDependency, WellFormed, IsLongRunning;
    var service := s.reg.units[id].file.service;
    if service.Some? { StartServiceOwned(s, id, service.value, A); }
  }

  lemma StartServiceOwned(s: Sup, id: UnitId, svc: ServiceSection, A: set<UnitId>)
    requires Shaped(s) && OwnedBy(s, A) && id < |s.units| && id in A && s.reg.units[id].file.service == Some(svc)
    ensures OwnedBy(StartService(s, id, svc), A)
  {
    hide WaitOneshot, Spawn, WellFormed;
  }

  lemma {:induction false} ActivateOwned(s: Sup, plan: seq<UnitId>, A: set<UnitId>)
    requires Sound(s) && OwnedBy(s, A) && ValidIds(|s.units|, plan) && Inside(plan, A)
    ensures OwnedBy(Activate(s, plan), A)
    decreases |plan|
  {
    hide StartUnit, WorldInv, PidsKnown, OwnedBy, Follows, WellFormed;
    if plan != [] {
      StartUnitSound(s, plan[0]);
      StartUnitOwned(s, plan[0], A);
      ActivateOwned(StartUnit(s, plan[0]), plan[1..], A);
    }
  }

  lemma {:induction false} StartInactiveOwned(s: Sup, plan: seq<UnitId>, A: set<UnitId>)
    requires Sound(s) && OwnedBy(s, A) && ValidIds(|s.units|, plan) && Inside(plan, A)
    ensures OwnedBy(StartInactive(s, plan), A)
    decreases |plan|
  {
    hide StartUnit, WorldInv, PidsKnown, OwnedBy, Follows, WellFormed;
    if plan != [] {
      if s.units[plan[0]].state == Active {
        StartInactiveOwned(s, plan[1..], A);
      } else {
        StartUnitSound(s, plan[0]);
        StartUnitOwned(s, plan[0], A);
        StartInactiveOwned(StartUnit(s, plan[0]), plan[1..], A);
      }
    }
  }

  lemma WaitSteady(s: Sup, w: World, A: set<UnitId>, delay: nat)
    requires Steady(s, A, delay) && s.world.now <= w.now
    ensures Steady(s.(world := w), A, delay)
  {
    hide InOrder, WellFormed, PlansWithin, Uniform;
    assert InOrder(s.(world := w), delay) by { Unchanged(s, s.(world := w), delay); }
  }

  lemma Unchanged(s: Sup, r: Sup, delay: nat)
    requires InOrder(s, delay) && r.pending == s.pending && r.journal == s.journal && s.world.now <= r.world.now
    ensures InOrder(r, delay)
  {
    hide SortedQueue;
    assert SortedQueue(r.pending);
    OrderKept(s, r, delay, []);
  }

  lemma OwnPlan(s: Sup, name: string, A: set<UnitId>)
    requires Shaped(s) && PlansWithin(s.reg, A) && StartPlan(s.reg, name).Plan?
    ensures Inside(StartPlan(s.reg, name).order, A)
  {
    hide StartPlan, WellFormed;
    forall u | u in StartPlan(s.reg, name).order ensures u in A { assert CanStart(s.reg, u); }
  }

  lemma StartNamedSteady(s: Sup, name: string, A: set<UnitId>, delay: nat)
    requires Invariant(s) && Steady(s, A, delay)
    ensures Steady(StartNamed(s, name), A, delay)
  {
    hide WorldInv, PidsKnown, Accounted, NothingLost, StartInactive, StartPlan, OwnedBy, InOrder, Uniform, SameAccounts, Follows, WellFormed, PlansWithin;
    StartNamedKeeps(s, name);
    AccountsInOrder(s, StartNamed(s, name), delay);
    if StartPlan(s.reg, name).Plan? {
      OwnPlan(s, name, A);
      StartOrderValid(s.reg, name);
      StartInactiveOwned(s, StartPlan(s.reg, name).order, A);
    }
  }

  lemma FireDueSteady(s: Sup, A: set<UnitId>, delay: nat)
    requires Sound(s) && Steady(s, A, delay)
    ensures Steady(FireDue(s), A, delay)
  {
    hide WorldInv, PidsKnown, Activate, InOrder, Uniform, PlansWithin, WellFormed, FiredNotes;
    var now := s.world.now;
    var s1 := s.(pending := NotDue(s.pending, now), journal := s.journal + FiredNotes(s.pending, now));
    SoundFlags(s, s1);
    DueUnitsValid(s.pending, now, |s.units|);
    DueInside(s.pending, now, A);
    assert OwnedBy(s1, A);
    ActivateOwned(s1, DueUnits(s.pending, now), A);
    FireDueInOrder(s, delay);
  }

  lemma {:induction false} DueInside(pending: seq<PendingRestart>, now: nat, A: set<UnitId>)
    requires forall q :: q in pending ==> q.unit in A
    ensures Inside(DueUnits(pending, now), A)
  {
    if pending != [] {
      assert pending[0] in pending && forall q :: q in pending[1..] ==> q in pending;
      DueInside(pending[1..], now, A);
    }
  }

  lemma {:induction false} DropsFireNothing(pending: seq<PendingRestart>, plan: seq<UnitId>)
    ensures NoneFired(DropNotes(pending, plan))
    decreases |plan|
  {
    if plan != [] {
      DropFiresNothing(pending, plan[0]);
      DropsFireNothing(DropOf(pending, plan[0]), plan[1..]);
    }
  }

  lemma {:induction false} DropFiresNothing(pending: seq<PendingRestart>, id: UnitId)
    ensures NoneFired(DroppedNotes(pending, id))
  {
    if pending != [] { DropFiresNothing(pending[1..], id); }
  }

  lemma {:induction false} DropAllFiresNothing(pending: seq<PendingRestart>)
    ensures NoneFired(DropAllNotes(pending))
  {
    if pending != [] { DropAllFiresNothing(pending[1..]); }
  }

  lemma StopSteady(s: Sup, name: string, A: set<UnitId>, delay: nat)
    requires Sound(s) && Steady(s, A, delay)
    ensures Steady(StopUnit(s, name), A, delay)
  {
    hide WorldInv, PidsKnown, StopPlan, StopPlanned, DropNotes, DropPlan, InOrder, Uniform, PlansWithin, WellFormed, DrainCalls, Calls, Terms, Forgot, SortedQueue;
    if StopPlan(s.reg, name).Plan? {
      var order, r := StopPlan(s.reg, name).order, StopUnit(s, name);
      StopOrderValid(s.reg, name);
      StopPlannedUnits(s, order);
      StopPlannedSound(s, order);
      DropPlanFacts(s.pending, order);
      InOrderIsSorted(s, delay);
      DropPlanSorted(s.pending, order);
      DropsFireNothing(s.pending, order);
      OrderKept(s, r, delay, DropNotes(s.pending, order));
    }
  }

  lemma InOrderIsSorted(s: Sup, delay: nat)
    requires InOrder(s, delay)
    ensures SortedQueue(s.pending)
  {
  }

  lemma TerminateSteady(s: Sup, A: set<UnitId>, delay: nat)
    requires Steady(s, A, delay)
    ensures Steady(InitiateShutdown(s), A, delay)
  {
    hide TermAll, InOrder, Uniform, PlansWithin, WellFormed, DropAllNotes;
    TermAllTime(s.world, s.units);
    DropAllFiresNothing(s.pending);
    if !s.shuttingDown { OrderKept(s, InitiateShutdown(s), delay, DropAllNotes(s.pending)); }
  }

  lemma ExitSteady(s: Sup, pid: Pid, st: Status, A: set<UnitId>, delay: nat)
    requires Steady(s, A, delay)
    ensures Steady(OnChildExit(s, pid, st), A, delay)
  {
    hide Consider, LimitInterval, RestartDelay, InOrder, PlansWithin, WellFormed;
    var r := OnChildExit(s, pid, st);
    if r.pending != s.pending {
      var u := s.byPid[pid];
      assert Restartable(s.reg, u);
      OrderPush(s, r, delay, u);
    } else {
      ExitNotes(s, pid, st);
      assert SortedQueue(s.pending) by { InOrderIsSorted(s, delay); }
      OrderKept(s, r, delay, r.journal[|s.journal|..]);
    }
  }

  /** An exit that queues nothing fires nothing either. */
  lemma ExitNotes(s: Sup, pid: Pid, st: Status)
    requires Shaped(s)
    ensures var r := OnChildExit(s, pid, st); s.journal <= r.journal && NoneFired(r.journal[|s.journal|..])
  {
    hide Consider, LimitInterval, RestartDelay, WantsRestart, WellFormed;
    assert s.journal[|s.journal|..] == [];
  }

  lemma {:induction false} ReapAllSteady(s: Sup, A: set<UnitId>, delay: nat)
    requires Steady(s, A, delay)
    ensures Steady(ReapAll(s), A, delay)
    decreases |s.world.script|, Left(s.world)
  {
    hide OnChildExit, WaitAny, InOrder, OwnedBy, Uniform, PlansWithin, WellFormed;
    WaitAnyShrinks(s.world);
    var (child, w) := WaitAny(s.world);
    WaitSteady(s, w, A, delay);
    if child.Some? {
      ExitSteady(s.(world := w), child.value.pid, child.value.status, A, delay);
      ReapAllSteady(OnChildExit(s.(world := w), child.value.pid, child.value.status), A, delay);
    }
  }

  lemma EnableSteady(s: Sup, name: string, reach: EnableReach, A: set<UnitId>, delay: nat)
    requires Invariant(s) && Steady(s, A, delay)
    ensures Steady(EnableUnit(s, name, reach), A, delay)
  {
    hide Sound, Accounted, NothingLost, StartNamed, InOrder, WellFormed, StartPlan, CanStart;
    EnabledRegistryShaped(s, name, reach);
    var r := EnabledRegistry(s.reg, name, reach);
    if r.Some? {
      forall u: UnitId | CanStart(r.value, u) ensures u in A {
        EnablingStartsNoMore(s.reg, MULTI_USER, name, u);
      }
      Unchanged(s, s.(reg := r.value), delay);
      OtherEdgesKeep(s, r.value);
      assert Steady(s.(reg := r.value), A, delay);
      if reach.Complete? { StartNamedSteady(s.(reg := r.value), name, A, delay); }
    }
  }

  lemma SteadyShaped(s: Sup, A: set<UnitId>, delay: nat)
    requires Steady(s, A, delay)
    ensures Shaped(s)
  {
  }

  lemma StepSteady(s: Sup, e: Event, A: set<UnitId>, delay: nat)
    requires Invariant(s) && Steady(s, A, delay)
    ensures Shaped(s) && Steady(Step(s, e), A, delay)
  {
    hide Sound, Accounted, NothingLost, Steady, StartNamed, StopUnit, EnableUnit, FireDue, ReapAll, InitiateShutdown, Advance;
    SteadyShaped(s, A, delay);
    match e
    case Wait =>
      AdvanceShortens(s.world);
      WaitSteady(s, Advance(s.world), A, delay);
    case ReadSigchld =>
      WaitSteady(s, s.world.(sigchld := false), A, delay);
      if s.world.sigchld { ReapAllSteady(s.(world := s.world.(sigchld := false)), A, delay); }
    case Terminate => TerminateSteady(s, A, delay);
    case Timer => FireDueSteady(s, A, delay);
    case Start(name) => StartNamedSteady(s, name, A, delay);
    case Stop(name) => StopSteady(s, name, A, delay);
    case Restart(name) =>
      StopSteady(s, name, A, delay);
      StopUnitKeeps(s, name);
      StartNamedSteady(StopUnit(s, name), name, A, delay);
    case Enable(name, reach) => EnableSteady(s, name, reach, A, delay);
    case Disable(name) => StopSteady(s, name, A, delay);
  }

  lemma {:induction false} RunSteady(s: Sup, events: seq<Event>, A: set<UnitId>, delay: nat)
    requires Invariant(s) && Steady(s, A, delay)
    ensures Shaped(s) && Steady(Run(s, events), A, delay)
    decreases |events|
  {
    hide NothingLost, Sound, Accounted, Step, Steady;
    SteadyShaped(s, A, delay);
    if events != [] {
      StepSteady(s, events[0], A, delay);
      StepKeeps(s, events[0]);
      RunSteady(Step(s, events[0]), events[1..], A, delay);
    }
  }

  /** The units that can be started. */
  ghost function Reach(reg: UnitTable): (A: set<UnitId>)
    requires WellFormed(reg)
    ensures PlansWithin(reg, A)
  {
    PlansAreInside(reg);
    set u: UnitId | u < |reg.units| && CanStart(reg, u)
  }

  lemma PlansAreInside(reg: UnitTable)
    requires WellFormed(reg)
    ensures forall u: UnitId :: CanStart(reg, u) ==> u < |reg.units|
  {
    hide WellFormed, StartPlan;
    forall u: UnitId | CanStart(reg, u) ensures u < |reg.units| {
      var name :| StartPlan(reg, name).Plan? && u in StartPlan(reg, name).order;
      StartOrderValid(reg, name);
    }
  }

  lemma BootSteady(reg: UnitTable, target: string, script: seq<Round>, now: nat, A: set<UnitId>, delay: nat)
    requires WellFormed(reg) && StartPlan(reg, target).Plan? && PlansWithin(reg, A) && Uniform(reg, A, delay)
    ensures Steady(Boot(reg, target, script, now), A, delay)
  {
    hide Sound, Accounted, NothingLost, StartPlan, Activate, SameAccounts, PlansWithin, Uniform, InOrder;
    var f := Fresh(reg, script, now);
    FreshInvariant(reg, script, now);
    FreshInOrder(f, reg, script, now, delay);
    StartOrderValid(reg, target);
    OwnPlan(f, target, A);
    ActivateOwned(f, StartPlan(reg, target).order, A);
    ActivateAccounts(f, StartPlan(reg, target).order);
    AccountsInOrder(f, Boot(reg, target, script, now), delay);
  }

  lemma FreshInOrder(f: Sup, reg: UnitTable, script: seq<Round>, now: nat, delay: nat)
    requires f == Fresh(reg, script, now)
    ensures InOrder(f, delay)
  {
  }

  /** With one delay for all units that can be started and restarted, every run fires
      restarts in the order of their deadlines, and its queue is always sorted. */
  lemma RestartsInTimeOrder(reg: UnitTable, target: string, script: seq<Round>, now: nat, events: seq<Event>, delay: nat)
    requires WellFormed(reg) && StartPlan(reg, target).Plan? && Uniform(reg, Reach(reg), delay)
    ensures var r := Run(Boot(reg, target, script, now), events); InTimeOrder(r.journal) && SortedQueue(r.pending)
  {
    hide Boot, Run, StartPlan, WellFormed, CanStart, Sound, Accounted, NothingLost, InTimeOrder, SortedQueue, Uniform, PlansWithin, OwnedBy, FiredBy;
    BootInvariant(reg, target, script, now);
    BootSteady(reg, target, script, now, Reach(reg), delay);
    RunSteady(Boot(reg, target, script, now), events, Reach(reg), delay);
  }

  // ---------- A run that overtakes ----------

  /** Both children die in one turn; the reap loop collects u's first and takes a while. */
  function OvertakingScript(p: Pid, q: Pid, delay: nat): seq<Round> {
    [Round([ChildExit(p, KILLED), ChildExit(q, KILLED)], 0, None, 0), QUIET, QUIET, Pause(delay)]
  }

  const TURN: seq<Event> := [Wait, ReadSigchld, Timer]

  lemma BothDie(w: World, p: Pid, q: Pid, delay: nat)
    requires w.script == OvertakingScript(p, q, delay) && p in w.alive && q in w.alive && p != q && w.zombies == []
    ensures var r := Advance(w);
      && r.zombies == [Zombie(p, KILLED), Zombie(q, KILLED)] && r.sigchld && r.now == w.now && r.script == [QUIET, QUIET, Pause(delay)]
  {
    var steps := [ChildExit(p, KILLED), ChildExit(q, KILLED)];
    var w0 := w.(script := w.script[1..]);
    assert w.script[1..] == [QUIET, QUIET, Pause(delay)];
    var w1, w2 := EnvAct(w0, steps[0]), EnvAct(EnvAct(w0, steps[0]), steps[1]);
    assert steps[1..] == [steps[1]] && [steps[1]][1..] == [];
    assert EnvActs(w2, []) == w2;
    assert EnvActs(w1, [steps[1]]) == w2;
    assert EnvActs(w0, steps) == w2;
  }

  /** Both exits are handled in turn, at the same moment; then time passes. */
  lemma CollectsBoth(s: Sup, p: Pid, q: Pid, delay: nat)
    requires Shaped(s) && s.world.zombies == [Zombie(p, KILLED), Zombie(q, KILLED)] && p != q
    requires s.world.script == [QUIET, QUIET, Pause(delay)]
    ensures var r, one := ReapAll(s), OnChildExit(s, p, KILLED);
      r == OnChildExit(one, q, KILLED).(world := r.world) && r.world.now == s.world.now + delay
  {
    hide OnChildExit, WellFormed, Advance;
    QuietRound(s.world);
    assert s.world.script[1..] == [QUIET, Pause(delay)];
    assert [QUIET, Pause(delay)] + [] == [QUIET, Pause(delay)];
    var w1 := WaitAny(s.world).1;
    assert WaitAny(s.world).0 == Some(Zombie(p, KILLED));
    assert Without(s.world.zombies, p) == [Zombie(q, KILLED)];
    ExitIgnoresWorld(s, w1, p, KILLED);
    var s1 := OnChildExit(s.(world := w1), p, KILLED);
    CollectsOne(s1, q, delay, []);
    ExitIgnoresWorld(OnChildExit(s, p, KILLED), w1, q, KILLED);
  }

  /** u and v run, were never restarted, and nothing is queued. */
  ghost predicate TwoUp(s: Sup, u: UnitId, v: UnitId, p: Pid, q: Pid) {
    && Sound(s) && RunsAs(s, u, p) && RunsAs(s, v, q) && u != v && Restartable(s.reg, u) && Restartable(s.reg, v)
    && s.units[u].restartHistory == [] && s.units[v].restartHistory == []
    && s.pending == [] && !s.shuttingDown && s.world.zombies == []
  }

  lemma FirstIsGranted(now: nat, burst: nat, interval: nat)
    ensures Consider([], now, burst, interval).1
  {
  }

  /** After both exits the queue holds u's restart and then v's. */
  lemma BothQueued(s: Sup, u: UnitId, v: UnitId, p: Pid, q: Pid)
    requires TwoUp(s, u, v, p, q)
    ensures Shaped(s) && u < |s.reg.units| && v < |s.reg.units| && OnChildExit(OnChildExit(s, p, KILLED), q, KILLED).pending ==
      [PendingRestart(u, s.world.now + DelayOf(s.reg, u)), PendingRestart(v, s.world.now + DelayOf(s.reg, v))]
  {
    hide Consider, WorldInv, Restartable, DelayOf, BurstOf, IntervalOf, OnChildExit, WellFormed;
    FirstIsGranted(s.world.now, BurstOf(s.reg, u), IntervalOf(s.reg, u));
    FirstIsGranted(s.world.now, BurstOf(s.reg, v), IntervalOf(s.reg, v));
    ExitDecides(s, u, p);
    ExitDecides(OnChildExit(s, p, KILLED), v, q);
  }

  lemma TurnIs(s: Sup)
    requires Shaped(s)
    ensures Run(s, TURN) == FireDue(ReadChildSignal(s.(world := Advance(s.world))))
  {
    hide Run, Step, Advance, ReadChildSignal, FireDue, Shaped;
    WaitIs(s);
    var a := s.(world := Advance(s.world));
    ReadIs(a);
    TimerIs(ReadChildSignal(a));
    RunOf3(s, Wait, ReadSigchld, Timer);
  }

  lemma ReadIs(s: Sup)
    requires Shaped(s)
    ensures Step(s, ReadSigchld) == ReadChildSignal(s)
  {
    hide FireDue, WellFormed, ReadChildSignal, InitiateShutdown, StartNamed, StopUnit, EnableUnit, RestartUnit;
  }

  /** One turn of the event loop in which the later deadline fires first. */
  lemma Overtakes(s: Sup, u: UnitId, v: UnitId, p: Pid, q: Pid)
    requires TwoUp(s, u, v, p, q) && Invariant(s)
    requires u < |s.reg.units| && v < |s.reg.units| && DelayOf(s.reg, u) > DelayOf(s.reg, v)
    requires s.world.script == OvertakingScript(p, q, DelayOf(s.reg, u))
    ensures Shaped(s) && !InTimeOrder(Run(s, TURN).journal)
  {
    hide WorldInv, PidsKnown, NothingLost, Accounted, WellFormed, Advance, ReapAll, FireDue, OnChildExit, Run, Restartable, DelayOf, InTimeOrder, DueInOrder;
    var delay := DelayOf(s.reg, u);
    BothDie(s.world, p, q, delay);
    var w := Advance(s.world);
    var s1 := s.(world := w.(sigchld := false));
    CollectsBoth(s1, p, q, delay);
    ExitIgnoresWorld(s, s1.world, p, KILLED);
    ExitIgnoresWorld(OnChildExit(s, p, KILLED), s1.world, q, KILLED);
    BothQueued(s, u, v, p, q);
    var r := ReapAll(s1);
    assert ReadChildSignal(s.(world := w)) == r;
    TurnIs(s);
    assert r.pending == [PendingRestart(u, r.world.now), PendingRestart(v, s.world.now + DelayOf(s.reg, v))];
    ReadSound(s);
    LateQueue(r.pending, r.world.now);
    FiresLate(r);
  }

  lemma ReadSound(s: Sup)
    requires Invariant(s)
    ensures Shaped(s) && Sound(ReadChildSignal(s.(world := Advance(s.world))))
  {
    hide Sound, Accounted, NothingLost, Advance, ReadChildSignal;
    WaitKeeps(s);
    SoundShaped(s);
    ReadSigchldKeeps(s.(world := Advance(s.world)));
  }

  lemma LateQueue(queue: seq<PendingRestart>, now: nat)
    requires |queue| == 2 && queue[1].fireAt < queue[0].fireAt <= now
    ensures !DueInOrder(queue, now)
  {
  }

  lemma FiresLate(s: Sup)
    requires Sound(s) && !DueInOrder(s.pending, s.world.now)
    ensures Shaped(s) && !InTimeOrder(FireDue(s).journal)
  {
    hide InTimeOrder, DueInOrder, FireDue, Sound, FiredNotes;
    var more := FireDueNotes(s);
    var fired := FiredNotes(s.pending, s.world.now);
    SoundShaped(s);
    FiredNotesInOrder(s.pending, s.world.now);
    TimeOrderAppend(s.journal + fired, more);
    TimeOrderEnd(s.journal, fired);
  }

  lemma TimeOrderEnd(a: seq<Note>, b: seq<Note>)
    ensures InTimeOrder(a + b) ==> InTimeOrder(b)
  {
    assert forall i :: 0 <= i < |b| ==> (a + b)[|a| + i] == b[i];
  }

  ghost predicate NeverRestarted(s: Sup) {
    forall u: UnitId :: u < |s.units| ==> s.units[u].restartHistory == []
  }

  lemma BootNeverRestarted(reg: UnitTable, target: string, script: seq<Round>, now: nat)
    requires WellFormed(reg) && StartPlan(reg, target).Plan?
    ensures NeverRestarted(Boot(reg, target, script, now))
  {
    hide Activate, Sound, NothingLost, Accounted, WellFormed, StartPlan, Uneventful;
    var f := Fresh(reg, script, now);
    FreshInvariant(reg, script, now);
    StartOrderValid(reg, target);
    ActivateAccounts(f, StartPlan(reg, target).order);
  }

  lemma StartNeverRestarted(s: Sup, name: string)
    requires Invariant(s) && NeverRestarted(s)
    ensures Shaped(s) && NeverRestarted(StartNamed(s, name))
  {
    hide StartNamed, Sound, NothingLost, Accounted, WellFormed, Uneventful, Follows;
    SoundShaped(s);
    StartNamedKeeps(s, name);
  }

  lemma UpAndRunning(s: Sup, u: UnitId) returns (p: Pid)
    requires WellUp(s) && u < |s.units| && Restartable(s.reg, u) && s.units[u].state == Active
    ensures RunsAs(s, u, p)
  {
    assert IsRunning(s, u);
    p :| RunsAs(s, u, p);
  }

  /** Boot and two start commands that go well. */
  lemma BothStarted(reg: UnitTable, target: string, first: string, second: string) returns (b: Sup, script: seq<Round>)
    requires WellFormed(reg) && StartPlan(reg, target).Plan? && StartPlan(reg, first).Plan? && StartPlan(reg, second).Plan?
    ensures WellUp(b) && b.reg == reg && |b.units| == |reg.units|
    ensures AllUp(b, StartPlan(reg, first).order) && AllUp(b, StartPlan(reg, second).order)
    ensures forall rest :: Run(Boot(reg, target, script + rest, 0), [Start(first), Start(second)]) == WithScript(b, rest)
  {
    hide Sound, WellUp, StartPlan, WellFormed, Boot, Run, StartNamed, AllUp, Step;
    var b0, script0 := BestBoot(reg, target, 0);
    var b1, script1 := BestStartNamed(b0, first);
    StartRegistry(b0, b1, first, script1);
    var b2, script2 := BestStartNamed(b1, second);
    StartRegistry(b1, b2, second, script2);
    StillUp(b1, b2, StartPlan(reg, first).order);
    b, script := b2, script0 + (script1 + script2);
    forall rest ensures Run(Boot(reg, target, script + rest, 0), [Start(first), Start(second)]) == WithScript(b, rest) {
      assert script + rest == script0 + (script1 + (script2 + rest));
      var s := Boot(reg, target, script + rest, 0);
      assert s == WithScript(b0, script1 + (script2 + rest));
      assert StartNamed(s, first) == WithScript(b1, script2 + rest);
      StartIs(s, first);
      StartIs(StartNamed(s, first), second);
      RunOf2(s, Start(first), Start(second));
    }
  }

  lemma StartIs(s: Sup, name: string)
    requires Shaped(s)
    ensures Step(s, Start(name)) == StartNamed(s, name)
  {
    hide FireDue, WellFormed, ReadChildSignal, InitiateShutdown, StartNamed, StopUnit, EnableUnit, RestartUnit;
  }

  lemma StartRegistry(s: Sup, b: Sup, name: string, script: seq<Round>)
    requires Shaped(WithScript(s, script + [])) && StartNamed(WithScript(s, script + []), name) == WithScript(b, [])
    ensures b.reg == s.reg
  {
    hide StartNamed, WellFormed;
  }

  lemma StillUp(s: Sup, r: Sup, plan: seq<UnitId>)
    requires AllUp(s, plan) && StaysUp(s, r) && Shaped(r) && |r.units| == |s.units|
    ensures AllUp(r, plan)
  {
    hide WellFormed, IsLongRunning;
  }

  /** Two units that can be started and restarted, with different delays: some run fires
      the later deadline first. */
  lemma SomeRunOvertakes(reg: UnitTable, target: string, u: UnitId, v: UnitId)
    requires WellFormed(reg) && StartPlan(reg, target).Plan? && u < |reg.units| && v < |reg.units|
    requires CanStart(reg, u) && CanStart(reg, v) && Restartable(reg, u) && Restartable(reg, v) && DelayOf(reg, u) > DelayOf(reg, v)
    ensures exists script, events :: !InTimeOrder(Run(Boot(reg, target, script, 0), events).journal)
  {
    hide Sound, WellUp, StartPlan, WellFormed, Boot, Run, InTimeOrder, Restartable, DelayOf, NothingLost, Accounted, AllUp;
    var first :| StartPlan(reg, first).Plan? && u in StartPlan(reg, first).order;
    var second :| StartPlan(reg, second).Plan? && v in StartPlan(reg, second).order;
    var b, script := BothStarted(reg, target, first, second);
    ActiveIn(b, StartPlan(reg, first).order, u);
    ActiveIn(b, StartPlan(reg, second).order, v);
    var p := UpAndRunning(b, u);
    var q := UpAndRunning(b, v);
    var rest := OvertakingScript(p, q, DelayOf(reg, u));
    var s0 := Boot(reg, target, script + rest, 0);
    var s := Run(s0, [Start(first), Start(second)]);
    assert s == WithScript(b, rest);
    StartedTwice(reg, target, script + rest, first, second);
    NowTwoUp(b, s, u, v, p, q, rest);
    Overtakes(s, u, v, p, q);
    RunConcat(s0, [Start(first), Start(second)], TURN);
    assert !InTimeOrder(Run(Boot(reg, target, script + rest, 0), [Start(first), Start(second)] + TURN).journal);
  }

  lemma ActiveIn(b: Sup, plan: seq<UnitId>, u: UnitId)
    requires AllUp(b, plan) && u in plan && u < |b.units| && u < |b.reg.units| && Restartable(b.reg, u)
    ensures b.units[u].state == Active
  {
  }

  lemma StartedTwice(reg: UnitTable, target: string, script: seq<Round>, first: string, second: string)
    requires WellFormed(reg) && StartPlan(reg, target).Plan?
    ensures var s := Run(Boot(reg, target, script, 0), [Start(first), Start(second)]); Invariant(s) && NeverRestarted(s)
  {
    hide Sound, NothingLost, Accounted, StartPlan, WellFormed, Boot, Run, StartNamed, NeverRestarted, Step;
    var s := Boot(reg, target, script, 0);
    BootInvariant(reg, target, script, 0);
    BootNeverRestarted(reg, target, script, 0);
    StartNamedKeeps(s, first);
    StartNeverRestarted(s, first);
    StartNeverRestarted(StartNamed(s, first), second);
    StartNamedKeeps(StartNamed(s, first), second);
    StartIs(s, first);
    StartIs(StartNamed(s, first), second);
    RunOf2(s, Start(first), Start(second));
  }

  lemma NowTwoUp(b: Sup, s: Sup, u: UnitId, v: UnitId, p: Pid, q: Pid, rest: seq<Round>)
    requires s == WithScript(b, rest) && Sound(s) && WellUp(b) && NeverRestarted(s) && u != v
    requires RunsAs(b, u, p) && RunsAs(b, v, q) && u < |b.reg.units| && v < |b.reg.units| && Restartable(b.reg, u) && Restartable(b.reg, v)
    ensures TwoUp(s, u, v, p, q)
  {
    hide Sound, WellFormed, Restartable;
  }

  ghost predicate MayRestart(reg: UnitTable, u: UnitId)
    requires WellFormed(reg)
  {
    u < |reg.units| && CanStart(reg, u) && Restartable(reg, u)
  }

  ghost predicate FiresInOrder(reg: UnitTable, target: string, script: seq<Round>, now: nat, events: seq<Event>)
    requires WellFormed(reg) && StartPlan(reg, target).Plan?
  {
    InTimeOrder(Run(Boot(reg, target, script, now), events).journal)
  }

  /** Every run of these unit files fires restarts in the order of their deadlines if and
      only if all services that some start command reaches and whose policy allows a
      restart have the same delay. */
  lemma TimeOrderIff(reg: UnitTable, target: string)
    requires WellFormed(reg) && StartPlan(reg, target).Plan?
    ensures (forall script, now, events :: FiresInOrder(reg, target, script, now, events)) <==>
      forall u: UnitId, v: UnitId :: MayRestart(reg, u) && MayRestart(reg, v) ==> DelayOf(reg, u) == DelayOf(reg, v)
  {
    hide WellFormed, StartPlan, Boot, Run, InTimeOrder, SortedQueue, CanStart, Restartable, DelayOf;
    if forall u: UnitId, v: UnitId :: MayRestart(reg, u) && MayRestart(reg, v) ==> DelayOf(reg, u) == DelayOf(reg, v) {
      var delay := TheDelay(reg);
      forall script, now, events ensures FiresInOrder(reg, target, script, now, events) {
        RestartsInTimeOrder(reg, target, script, now, events, delay);
      }
    }
    forall u: UnitId, v: UnitId | MayRestart(reg, u) && MayRestart(reg, v) && DelayOf(reg, u) > DelayOf(reg, v)
      ensures exists script, now, events :: !FiresInOrder(reg, target, script, now, events)
    {
      SomeRunOvertakes(reg, target, u, v);
      var script, events :| !InTimeOrder(Run(Boot(reg, target, script, 0), events).journal);
      assert !FiresInOrder(reg, target, script, 0, events);
    }
  }

  lemma TheDelay(reg: UnitTable) returns (delay: nat)
    requires WellFormed(reg)
    requires forall u: UnitId, v: UnitId :: MayRestart(reg, u) && MayRestart(reg, v) ==> DelayOf(reg, u) == DelayOf(reg, v)
    ensures Uniform(reg, Reach(reg), delay)
  {
    hide WellFormed, CanStart, Restartable, DelayOf;
    if u: UnitId :| MayRestart(reg, u) {
      delay := DelayOf(reg, u);
    } else {
      delay := 0;
    }
    forall v: UnitId | v in Reach(reg) && v < |reg.units| && Restartable(reg, v) ensures DelayOf(reg, v) == delay {
      assert MayRestart(reg, v);
    }
  }
}
