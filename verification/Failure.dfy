/** How failure spreads while a plan is activated: along hard dependencies, to exactly
    the units that need one which failed by itself. */
module Failure {
  import opened Config
  import opened Sequences
  import opened Digraph
  import opened Registry
  import opened Kernel
  import opened Supervisor

  /** The notes say that u's own spawn failed, or its own oneshot. */
  ghost predicate FailsItself(notes: seq<Note>, u: UnitId) {
    exists n :: n in notes && n.unit == u && (n.SpawnFailed? || (n.OneshotEnded? && n.outcome != Clean))
  }

  /** What the journal gained. */
  ghost function NewNotes(s: Sup, r: Sup): seq<Note> {
    if |s.journal| <= |r.journal| then r.journal[|s.journal|..] else []
  }

  ghost predicate SilentAbout(notes: seq<Note>, u: UnitId) {
    forall n :: n in notes ==> n.unit != u
  }

  ghost predicate About(notes: seq<Note>, plan: seq<UnitId>) {
    forall n :: n in notes ==> n.unit in plan
  }

  ghost predicate IsFailed(s: Sup, u: UnitId) {
    u < |s.units| && s.units[u].state == Failed
  }

  /** Another unit that u hard-requires is Failed. */
  ghost predicate NeedsFailed(s: Sup, u: UnitId)
    requires Shaped(s) && u < |s.units|
  {
    exists dep :: dep in HardTargets(s.reg, u) && dep != u && IsFailed(s, dep)
  }

  // ---------- One unit ----------

  ghost predicate OnlyTouches(s: Sup, r: Sup, id: UnitId) {
    && r.reg == s.reg && |r.units| == |s.units|
    && (forall u: UnitId :: u < |s.units| && u != id ==> r.units[u] == s.units[u])
    && s.journal <= r.journal && About(NewNotes(s, r), [id])
  }

  lemma Touches0(s: Sup, r: Sup, id: UnitId)
    requires r.reg == s.reg && |r.units| == |s.units| && r.journal == s.journal
    requires forall u: UnitId :: u < |s.units| && u != id ==> r.units[u] == s.units[u]
    ensures OnlyTouches(s, r, id) && !FailsItself(NewNotes(s, r), id)
  {
  }

  lemma Touches1(s: Sup, r: Sup, id: UnitId, n: Note)
    requires r.reg == s.reg && |r.units| == |s.units| && r.journal == s.journal + [n] && n.unit == id
    requires forall u: UnitId :: u < |s.units| && u != id ==> r.units[u] == s.units[u]
    ensures OnlyTouches(s, r, id)
    ensures FailsItself(NewNotes(s, r), id) <==> n.SpawnFailed? || (n.OneshotEnded? && n.outcome != Clean)
  {
    assert NewNotes(s, r) == [n];
    assert n in [n];
  }

  lemma Touches2(s: Sup, r: Sup, id: UnitId, n: Note, m: Note)
    requires r.reg == s.reg && |r.units| == |s.units| && r.journal == s.journal + [n] + [m] && n.unit == id && m.unit == id
    requires n.Started?
    requires forall u: UnitId :: u < |s.units| && u != id ==> r.units[u] == s.units[u]
    ensures OnlyTouches(s, r, id)
    ensures FailsItself(NewNotes(s, r), id) <==> m.SpawnFailed? || (m.OneshotEnded? && m.outcome != Clean)
  {
    assert NewNotes(s, r) == [n, m];
    assert m in [n, m];
  }

  lemma FailedSpawnTouches(s: Sup, id: UnitId, w: World)
    requires Shaped(s) && id < |s.units|
    ensures var r := SpawnFailure(SetState(s.(world := w), id, Activating), id);
      OnlyTouches(s, r, id) && IsFailed(r, id) && FailsItself(NewNotes(s, r), id)
  {
    hide FailsItself, OnlyTouches;
    Touches1(s, SpawnFailure(SetState(s.(world := w), id, Activating), id), id, SpawnFailed(id));
  }

  lemma OneshotTouches(s: Sup, id: UnitId, w: World, pid: Pid, svc: ServiceSection, outcome: OneshotOutcome, w': World)
    requires Shaped(s) && id < |s.units|
    ensures var r := FinishOneshot(WithPid(SetState(s.(world := w), id, Activating), id, pid), id, pid, svc, outcome, w');
      OnlyTouches(s, r, id) && (IsFailed(r, id) <==> FailsItself(NewNotes(s, r), id))
  {
    hide FailsItself, OnlyTouches;
    var r := FinishOneshot(WithPid(SetState(s.(world := w), id, Activating), id, pid), id, pid, svc, outcome, w');
    Touches2(s, r, id, Started(id, pid), OneshotEnded(id, outcome));
  }

  lemma SimpleTouches(s: Sup, id: UnitId, w: World, pid: Pid)
    requires Shaped(s) && id < |s.units|
    ensures var r := SetState(WithPid(SetState(s.(world := w), id, Activating), id, pid), id, Active);
      OnlyTouches(s, r, id) && !IsFailed(r, id) && !FailsItself(NewNotes(s, r), id)
  {
    hide FailsItself, OnlyTouches;
    Touches1(s, SetState(WithPid(SetState(s.(world := w), id, Activating), id, pid), id, Active), id, Started(id, pid));
  }

  lemma StartServiceTouches(s: Sup, id: UnitId, svc: ServiceSection)
    requires Shaped(s) && id < |s.units|
    ensures var r := StartService(s, id, svc);
      OnlyTouches(s, r, id) && (IsFailed(r, id) <==> FailsItself(NewNotes(s, r), id))
  {
    hide OnlyTouches, FailsItself, NewNotes, IsFailed, WaitOneshot, Spawn, SetState, WithPid, SpawnFailure, FinishOneshot, Shaped;
    var (child, w) := Spawn(s.world);
    FailedSpawnTouches(s, id, w);
    if child.Some? {
      SimpleTouches(s, id, w, child.value);
      if svc.kind.Oneshot? {
        var (outcome, w') := WaitOneshot(w, child.value, w.now + StartTimeout(svc));
        OneshotTouches(s, id, w, child.value, svc, outcome, w');
      }
    }
  }

  /** A unit that needs a Failed one becomes Failed itself, and nothing else happens: no
      process is spawned. Otherwise it fails just when its own start does. */
  lemma StartUnitRule(s: Sup, id: UnitId)
    requires Shaped(s) && id < |s.units| && (!IsFailed(s, id) || id !in HardTargets(s.reg, id))
    ensures var r := StartUnit(s, id);
      && OnlyTouches(s, r, id)
      && (IsFailed(r, id) <==> NeedsFailed(s, id) || FailsItself(NewNotes(s, r), id))
      && (NeedsFailed(s, id) ==> r.world == s.world && r.journal == s.journal && r.byPid == s.byPid)
  {
    hide OnlyTouches, FailsItself, StartService;
    assert HasFailedDependency(s, id) <==> NeedsFailed(s, id);
    Touches0(s, SetState(s, id, Failed), id);
    Touches0(s, SetState(s, id, Active), id);
    if s.reg.units[id].file.service.Some? { StartServiceTouches(s, id, s.reg.units[id].file.service.value); }
  }

  /** Starting a unit touches no other. */
  lemma StartUnitTouches(s: Sup, id: UnitId)
    requires Shaped(s) && id < |s.units|
    ensures OnlyTouches(s, StartUnit(s, id), id)
  {
    hide FailsItself, StartService, HasFailedDependency;
    Touches0(s, SetState(s, id, Failed), id);
    Touches0(s, SetState(s, id, Active), id);
    if s.reg.units[id].file.service.Some? { StartServiceTouches(s, id, s.reg.units[id].file.service.value); }
  }

  // ---------- A plan ----------

  /** Inside the plan, whatever a unit hard-requires comes before it. */
  ghost predicate NeedsFirst(reg: UnitTable, plan: seq<UnitId>)
    requires ValidIds(|reg.units|, plan)
  {
    forall i, j :: 0 <= i < j < |plan| ==> plan[j] !in HardTargets(reg, plan[i])
  }

  ghost predicate Rule(r: Sup, notes: seq<Note>, u: UnitId)
    requires Shaped(r) && u < |r.units|
  {
    && (IsFailed(r, u) <==> NeedsFailed(r, u) || FailsItself(notes, u))
    && (NeedsFailed(r, u) ==> SilentAbout(notes, u))
  }

  ghost predicate Activated(s: Sup, r: Sup, plan: seq<UnitId>)
    requires Shaped(s) && Shaped(r) && r.reg == s.reg && |r.units| == |s.units| && ValidIds(|s.units|, plan)
  {
    && s.journal <= r.journal && About(NewNotes(s, r), plan)
    && (forall u: UnitId :: u < |s.units| && u !in plan ==> r.units[u] == s.units[u])
    && (forall i :: 0 <= i < |plan| ==> Rule(r, NewNotes(s, r), plan[i]))
  }

  ghost predicate NoneFailed(s: Sup, plan: seq<UnitId>) {
    forall i :: 0 <= i < |plan| ==> !IsFailed(s, plan[i])
  }

  lemma {:induction false} ActivateRule(s: Sup, plan: seq<UnitId>)
    requires Shaped(s) && ValidIds(|s.units|, plan) && NoDup(plan) && NeedsFirst(s.reg, plan) && NoneFailed(s, plan)
    ensures Activated(s, Activate(s, plan), plan)
    decreases |plan|
  {
    hide StartUnit, Rule, FailsItself;
    if plan == [] {
      assert NewNotes(s, s) == [];
    } else {
      var id, rest := plan[0], plan[1..];
      var s1 := StartUnit(s, id);
      StartUnitRule(s, id);
      assert NoneFailed(s1, rest) by { assert forall i :: 0 <= i < |rest| ==> rest[i] == plan[i + 1] && rest[i] != id; }
      ActivateRule(s1, rest);
      ActivatedStep(s, s1, Activate(s, plan), plan);
    }
  }

  lemma ActivatedStep(s: Sup, s1: Sup, r: Sup, plan: seq<UnitId>)
    requires Shaped(s) && Shaped(s1) && Shaped(r) && plan != [] && ValidIds(|s.units|, plan) && NoDup(plan)
    requires NeedsFirst(s.reg, plan) && OnlyTouches(s, s1, plan[0])
    requires r.reg == s.reg && |r.units| == |s.units| && Activated(s1, r, plan[1..])
    requires IsFailed(s1, plan[0]) <==> NeedsFailed(s, plan[0]) || FailsItself(NewNotes(s, s1), plan[0])
    requires NeedsFailed(s, plan[0]) ==> s1.journal == s.journal
    ensures Activated(s, r, plan)
  {
    hide FailsItself, Rule, NeedsFailed, NeedsFirst;
    var id, rest := plan[0], plan[1..];
    var n1, n2 := NewNotes(s, s1), NewNotes(s1, r);
    assert NewNotes(s, r) == NewNotes(s, s1) + NewNotes(s1, r);
    assert forall u :: u in plan <==> u == id || u in rest;
    assert id !in rest;
    HeadRule(s, s1, r, plan, n1, n2);
    forall i | 0 <= i < |plan| ensures Rule(r, n1 + n2, plan[i]) {
      if i > 0 {
        assert plan[i] == rest[i - 1];
        EarlierNotes(r, n1, n2, plan[i]);
      }
    }
  }

  /** The rule for the first unit of a plan is settled once it has started. */
  lemma HeadRule(s: Sup, s1: Sup, r: Sup, plan: seq<UnitId>, n1: seq<Note>, n2: seq<Note>)
    requires Shaped(s) && Shaped(s1) && Shaped(r) && plan != [] && ValidIds(|s.units|, plan) && NoDup(plan)
    requires NeedsFirst(s.reg, plan) && OnlyTouches(s, s1, plan[0])
    requires r.reg == s.reg && |r.units| == |s.units| && About(n2, plan[1..])
    requires forall u: UnitId :: u < |s.units| && u !in plan[1..] ==> r.units[u] == s1.units[u]
    requires IsFailed(s1, plan[0]) <==> NeedsFailed(s, plan[0]) || FailsItself(n1, plan[0])
    requires NeedsFailed(s, plan[0]) ==> n1 == []
    ensures Rule(r, n1 + n2, plan[0])
  {
    var id := plan[0];
    assert forall j :: 0 <= j < |plan[1..]| ==> plan[1..][j] == plan[j + 1];
    assert forall dep :: dep in HardTargets(s.reg, id) ==> dep !in plan[1..];
    assert NeedsFailed(r, id) <==> NeedsFailed(s, id);
    assert forall n :: n in n1 + n2 <==> n in n1 || n in n2;
    assert id !in plan[1..];
    assert forall n :: n in n2 ==> n.unit != id;
  }

  lemma EarlierNotes(r: Sup, n1: seq<Note>, n2: seq<Note>, u: UnitId)
    requires Shaped(r) && u < |r.units| && Rule(r, n2, u) && SilentAbout(n1, u)
    ensures Rule(r, n1 + n2, u)
  {
    assert forall n :: n in n1 + n2 <==> n in n1 || n in n2;
  }

  // ---------- The whole closure ----------

  /** u reaches, by zero or more hard edges, a unit that failed by itself. */
  ghost predicate NeedsCulprit(reg: UnitTable, notes: seq<Note>, u: UnitId) {
    exists v: UnitId :: Reaches(HardEdges(reg), u, v) && FailsItself(notes, v)
  }

  ghost predicate HardClosed(reg: UnitTable, plan: seq<UnitId>)
    requires ValidIds(|reg.units|, plan)
  {
    forall i, dep :: 0 <= i < |plan| && dep in HardTargets(reg, plan[i]) ==> dep in plan
  }

  lemma {:induction false} FailedHasCulprit(r: Sup, notes: seq<Note>, plan: seq<UnitId>, i: nat)
    requires Shaped(r) && ValidIds(|r.units|, plan) && NoDup(plan) && NeedsFirst(r.reg, plan) && HardClosed(r.reg, plan)
    requires forall k :: 0 <= k < |plan| ==> Rule(r, notes, plan[k])
    requires i < |plan| && IsFailed(r, plan[i])
    ensures NeedsCulprit(r.reg, notes, plan[i])
  {
    var u := plan[i];
    assert Rule(r, notes, u);
    if FailsItself(notes, u) {
      ReachesSelf(HardEdges(r.reg), u);
    } else {
      var dep :| dep in HardTargets(r.reg, u) && dep != u && IsFailed(r, dep);
      assert dep in plan;
      var j :| 0 <= j < |plan| && plan[j] == dep;
      FailedHasCulprit(r, notes, plan, j);
      CulpritBelow(r.reg, notes, u, dep);
    }
  }

  lemma CulpritBelow(reg: UnitTable, notes: seq<Note>, u: UnitId, dep: UnitId)
    requires u < |reg.units| && dep in HardTargets(reg, u) && NeedsCulprit(reg, notes, dep)
    ensures NeedsCulprit(reg, notes, u)
  {
    var v: UnitId :| Reaches(HardEdges(reg), dep, v) && FailsItself(notes, v);
    ReachesSelf(HardEdges(reg), u);
    ReachesStep(HardEdges(reg), u, u, dep);
    ReachesTrans(HardEdges(reg), u, dep, v);
  }

  lemma {:induction false} CulpritSpreads(r: Sup, notes: seq<Note>, plan: seq<UnitId>, p: seq<nat>)
    requires Shaped(r) && ValidIds(|r.units|, plan) && HardClosed(r.reg, plan)
    requires forall k :: 0 <= k < |plan| ==> Rule(r, notes, plan[k])
    requires IsPath(HardEdges(r.reg), p) && p[0] in plan && FailsItself(notes, p[|p| - 1])
    ensures IsFailed(r, p[0])
  {
    hide FailsItself, HardEdges;
    assert Rule(r, notes, p[0]);
    if |p| > 1 {
      HardEdgeTarget(r.reg, p);
      assert p[1] in plan;
      assert IsPath(HardEdges(r.reg), p[1..]);
      CulpritSpreads(r, notes, plan, p[1..]);
    }
  }

  lemma HardEdgeTarget(reg: UnitTable, p: seq<nat>)
    requires IsPath(HardEdges(reg), p) && |p| > 1
    ensures p[0] < |reg.units| && p[1] in HardTargets(reg, p[0])
  {
    assert (p[0], p[1]) in HardEdges(reg);
  }

  /** Ordering paths cover the hard edges among the nodes. */
  ghost predicate HardEdgesOrdered(reg: UnitTable, nodes: set<UnitId>)
    requires Within(reg, nodes)
  {
    forall e :: e in HardEdges(reg) && e.0 in nodes && e.1 in nodes && e.0 != e.1 ==> Reaches(OrderEdges(reg, nodes), e.1, e.0)
  }

  lemma OrderedComesFirst(reg: UnitTable, nodes: set<UnitId>, plan: seq<UnitId>)
    requires WellFormed(reg) && Within(reg, nodes) && HardEdgesOrdered(reg, nodes)
    requires NoDup(plan) && ToSet(plan) == nodes && Respects(OrderEdges(reg, nodes), plan) && ValidIds(|reg.units|, plan)
    ensures NeedsFirst(reg, plan)
  {
    hide OrderEdges, Respects;
    forall i, j | 0 <= i < |plan| && 0 <= j < |plan| && i != j && plan[j] in HardTargets(reg, plan[i]) ensures j < i {
      OrderedPrecedes(reg, nodes, plan, plan[i], plan[j]);
    }
  }

  lemma OrderedPrecedes(reg: UnitTable, nodes: set<UnitId>, plan: seq<UnitId>, u: UnitId, dep: UnitId)
    requires WellFormed(reg) && Within(reg, nodes) && HardEdgesOrdered(reg, nodes)
    requires NoDup(plan) && ToSet(plan) == nodes && Respects(OrderEdges(reg, nodes), plan)
    requires u in plan && dep in plan && u != dep && u < |reg.units| && dep in HardTargets(reg, u)
    ensures Precedes(plan, dep, u)
  {
    hide OrderEdges, Respects, NoDup;
    var e := (u, dep);
    assert e in HardEdges(reg);
    var p :| IsPath(OrderEdges(reg, nodes), p) && p[0] == dep && p[|p| - 1] == u;
    RespectsPath(OrderEdges(reg, nodes), plan, p);
  }

  lemma StartPlanIsHardClosed(reg: UnitTable, name: string)
    requires WellFormed(reg) && StartPlan(reg, name).Plan?
    ensures ValidIds(|reg.units|, StartPlan(reg, name).order) && HardClosed(reg, StartPlan(reg, name).order)
  {
    hide Respects;
    StartPlanCorrect(reg, name);
    var plan, C := StartPlan(reg, name).order, StartClosure(reg, reg.byName[name]);
    assert forall i :: 0 <= i < |plan| ==> plan[i] in ToSet(plan);
    ClosureIsLeast(RequirementEdges(reg), reg.byName[name]);
    forall i, dep | 0 <= i < |plan| && dep in HardTargets(reg, plan[i]) ensures dep in plan {
      var e := (plan[i], dep);
      assert e in RequirementEdges(reg);
      assert dep in C;
    }
  }

  /** Starting a unit while nothing in its closure is Failed, with its hard edges covered
      by the ordering: afterwards exactly those units are Failed that reach, along hard
      dependencies, one that failed by itself; and no start of a unit whose hard
      dependency failed was ever tried. */
  lemma FailurePropagation(s: Sup, name: string)
    requires Shaped(s) && StartPlan(s.reg, name).Plan? && NoneFailed(s, StartPlan(s.reg, name).order)
    requires var C := StartClosure(s.reg, s.reg.byName[name]); Within(s.reg, C) && HardEdgesOrdered(s.reg, C)
    ensures var plan := StartPlan(s.reg, name).order;
      && ValidIds(|s.units|, plan)
      && var r := Activate(s, plan);
      && (forall u :: u in plan ==> (IsFailed(r, u) <==> NeedsCulprit(s.reg, NewNotes(s, r), u)))
      && (forall n :: n in NewNotes(s, r) ==> n.unit < |r.units| && !NeedsFailed(r, n.unit))
  {
    hide Rule, NeedsCulprit, FailsItself, StartClosure, HardTargets, HardEdgesOrdered, Activate, WellFormed, NoneFailed;
    StartPlanCorrect(s.reg, name);
    var plan, C := StartPlan(s.reg, name).order, StartClosure(s.reg, s.reg.byName[name]);
    StartPlanIsHardClosed(s.reg, name);
    OrderedComesFirst(s.reg, C, plan);
    ActivateRule(s, plan);
    FailedExactly(s, Activate(s, plan), plan);
  }

  lemma FailedExactly(s: Sup, r: Sup, plan: seq<UnitId>)
    requires Shaped(s) && Shaped(r) && r.reg == s.reg && |r.units| == |s.units| && ValidIds(|s.units|, plan)
    requires NoDup(plan) && NeedsFirst(s.reg, plan) && HardClosed(s.reg, plan) && Activated(s, r, plan)
    ensures forall u :: u in plan ==> (IsFailed(r, u) <==> NeedsCulprit(s.reg, NewNotes(s, r), u))
    ensures forall n :: n in NewNotes(s, r) ==> n.unit < |r.units| && !NeedsFailed(r, n.unit)
  {
    hide FailsItself, IsFailed, NeedsFailed, HardClosed, NeedsFirst;
    var notes := NewNotes(s, r);
    forall u | u in plan ensures IsFailed(r, u) <==> NeedsCulprit(s.reg, notes, u) {
      var i :| 0 <= i < |plan| && plan[i] == u;
      if IsFailed(r, u) { FailedHasCulprit(r, notes, plan, i); }
      if NeedsCulprit(s.reg, notes, u) {
        var v: UnitId :| Reaches(HardEdges(s.reg), u, v) && FailsItself(notes, v);
        var p :| IsPath(HardEdges(s.reg), p) && p[0] == u && p[|p| - 1] == v;
        CulpritSpreads(r, notes, plan, p);
      }
    }
    forall n | n in notes ensures n.unit < |r.units| && !NeedsFailed(r, n.unit) {
      assert n.unit in plan;
      var i :| 0 <= i < |plan| && plan[i] == n.unit;
      assert Rule(r, notes, plan[i]);
    }
  }

  // ---------- The order of events ----------

  /** What is noted about one unit comes after what is noted about those before it. */
  ghost predicate InPlanOrder(notes: seq<Note>, plan: seq<UnitId>) {
    && About(notes, plan)
    && forall i, j :: 0 <= i < j < |notes| && notes[i].unit != notes[j].unit ==> Precedes(plan, notes[i].unit, notes[j].unit)
  }

  lemma PrecedesLater(plan: seq<UnitId>, x: UnitId, y: UnitId)
    requires plan != [] && Precedes(plan[1..], x, y)
    ensures Precedes(plan, x, y)
  {
    var i, j :| 0 <= i < j < |plan[1..]| && plan[1..][i] == x && plan[1..][j] == y;
    assert plan[i + 1] == x && plan[j + 1] == y;
  }

  lemma InPlanOrderStep(plan: seq<UnitId>, n1: seq<Note>, n2: seq<Note>)
    requires plan != [] && About(n1, [plan[0]]) && InPlanOrder(n2, plan[1..])
    ensures InPlanOrder(n1 + n2, plan)
  {
    var notes := n1 + n2;
    assert forall k :: 0 <= k < |n1| ==> n1[k] in n1 && n1[k].unit == plan[0];
    assert forall k :: 0 <= k < |n2| ==> n2[k] in n2 && n2[k].unit in plan[1..];
    forall n | n in notes ensures n.unit in plan { assert n in n1 || n in n2; }
    forall i, j | 0 <= i < j < |notes| && notes[i].unit != notes[j].unit ensures Precedes(plan, notes[i].unit, notes[j].unit) {
      if i < |n1| {
        var k :| 0 <= k < |plan[1..]| && plan[1..][k] == notes[j].unit;
        assert plan[0] == notes[i].unit && plan[k + 1] == notes[j].unit;
      } else {
        assert notes[i] == n2[i - |n1|] && notes[j] == n2[j - |n1|];
        PrecedesLater(plan, notes[i].unit, notes[j].unit);
      }
    }
  }

  /** Units already Active leave no note. */
  lemma InPlanOrderSkip(plan: seq<UnitId>, notes: seq<Note>)
    requires plan != [] && InPlanOrder(notes, plan[1..])
    ensures InPlanOrder(notes, plan)
  {
    InPlanOrderStep(plan, [], notes);
    assert [] + notes == notes;
  }

  lemma {:induction false} StartInactiveInOrder(s: Sup, plan: seq<UnitId>)
    requires Shaped(s) && ValidIds(|s.units|, plan)
    ensures s.journal <= StartInactive(s, plan).journal && InPlanOrder(NewNotes(s, StartInactive(s, plan)), plan)
    decreases |plan|
  {
    hide StartUnit, InPlanOrder;
    var r := StartInactive(s, plan);
    if plan == [] {
      NothingInOrder(s);
    } else if s.units[plan[0]].state == Active {
      StartInactiveInOrder(s, plan[1..]);
      InPlanOrderSkip(plan, NewNotes(s, r));
    } else {
      var s1 := StartUnit(s, plan[0]);
      StartUnitTouches(s, plan[0]);
      StartInactiveInOrder(s1, plan[1..]);
      InPlanOrderStep(plan, NewNotes(s, s1), NewNotes(s1, r));
      assert NewNotes(s, r) == NewNotes(s, s1) + NewNotes(s1, r);
    }
  }

  lemma NothingInOrder(s: Sup)
    ensures NewNotes(s, s) == [] && InPlanOrder(NewNotes(s, s), [])
  {
  }

  /** When a unit is started, whatever happens to a unit of its closure comes after all
      that happens to the units it is ordered after: with a oneshot, after its end. */
  lemma StartsRespectOrdering(s: Sup, name: string, x: UnitId, y: UnitId, i: nat, j: nat)
    requires Shaped(s) && StartPlan(s.reg, name).Plan?
    requires var C := StartClosure(s.reg, s.reg.byName[name]); Within(s.reg, C) && (x, y) in OrderEdges(s.reg, C)
    requires var notes := NewNotes(s, StartNamed(s, name)); i < |notes| && j < |notes| && notes[i].unit == x && notes[j].unit == y
    ensures i < j
  {
    hide OrderEdges, StartClosure, WellFormed, StartNamed, StartPlan, NoDup, Precedes;
    NotesInOrder(s, name);
    var plan, notes := StartPlan(s.reg, name).order, NewNotes(s, StartNamed(s, name));
    assert notes[j] in notes && y in plan;
    EdgePrecedes(s.reg, name, x, y);
    OneWay(plan, x, y);
  }

  lemma NotesInOrder(s: Sup, name: string)
    requires Shaped(s) && StartPlan(s.reg, name).Plan?
    ensures InPlanOrder(NewNotes(s, StartNamed(s, name)), StartPlan(s.reg, name).order)
  {
    hide InPlanOrder, StartInactive, StartPlan, WellFormed, HardTargets, NewNotes;
    StartPlanIsHardClosed(s.reg, name);
    StartInactiveInOrder(s, StartPlan(s.reg, name).order);
  }

  /** An ordering edge into a member of a start plan. */
  lemma EdgePrecedes(reg: UnitTable, name: string, x: UnitId, y: UnitId)
    requires WellFormed(reg) && StartPlan(reg, name).Plan? && y in StartPlan(reg, name).order
    requires var C := StartClosure(reg, reg.byName[name]); Within(reg, C) && (x, y) in OrderEdges(reg, C)
    ensures NoDup(StartPlan(reg, name).order) && Precedes(StartPlan(reg, name).order, x, y)
  {
    hide OrderEdges, StartClosure, WellFormed, NoDup, Precedes, Respects;
    StartPlanCorrect(reg, name);
    RespectsPrecedes(OrderEdges(reg, StartClosure(reg, reg.byName[name])), StartPlan(reg, name).order, x, y);
  }

  lemma OneWay(plan: seq<UnitId>, x: UnitId, y: UnitId)
    requires NoDup(plan) && Precedes(plan, x, y)
    ensures x != y && !Precedes(plan, y, x)
  {
  }
}
