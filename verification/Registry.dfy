/** The unit registry as a value, the dependency and ordering edges it stands for, and
    the plans that starting or stopping a unit means on those edges. */
module Registry {
  import opened Config
  import opened Sequences
  import opened Digraph

  type UnitId = nat

  datatype UnitTable = UnitTable(
    units: seq<LoadedUnit>,
    byName: map<string, UnitId>,
    extraWants: map<UnitId, seq<UnitId>>,
    extraRequires: map<UnitId, seq<UnitId>>)

  function Extra(lifted: map<UnitId, seq<UnitId>>, id: UnitId): (r: seq<UnitId>) {
    if id in lifted then lifted[id] else []
  }

  ghost predicate WellFormed(reg: UnitTable) {
    && (forall n :: n in reg.byName ==> reg.byName[n] < |reg.units| && reg.units[reg.byName[n]].name == n)
    && (forall i :: 0 <= i < |reg.units| ==> reg.units[i].name in reg.byName)
    && (forall t: UnitId, u: UnitId :: u in Extra(reg.extraWants, t) ==> u < |reg.units|)
    && (forall t: UnitId, u: UnitId :: u in Extra(reg.extraRequires, t) ==> u < |reg.units|)
  }

  ghost predicate Within(reg: UnitTable, nodes: set<UnitId>) {
    forall v :: v in nodes ==> v < |reg.units|
  }

  // ---------- Loading ----------

  /** `by_name`: the last unit of a name wins. */
  function NameIndex(units: seq<LoadedUnit>): (m: map<string, UnitId>) {
    if units == [] then map[]
    else NameIndex(units[..|units| - 1])[units[|units| - 1].name := |units| - 1]
  }

  lemma {:induction false} NameIndexLastWins(units: seq<LoadedUnit>)
    ensures var m := NameIndex(units);
      && (forall n :: n in m ==> m[n] < |units| && units[m[n]].name == n)
      && (forall i :: 0 <= i < |units| ==> units[i].name in m && i <= m[units[i].name])
  {
    if units != [] {
      NameIndexLastWins(units[..|units| - 1]);
    }
  }

  ghost predicate UniqueNames(units: seq<LoadedUnit>) {
    forall i, j :: 0 <= i < j < |units| ==> units[i].name != units[j].name
  }

  /** Names that resolve to no unit are dropped. */
  ghost function Resolve(byName: map<string, UnitId>, names: seq<string>): set<UnitId> {
    set n | n in names && n in byName :: byName[n]
  }

  ghost predicate WantedBy(reg: UnitTable, t: UnitId, u: UnitId) {
    u < |reg.units| && t in Resolve(reg.byName, reg.units[u].file.install.wantedBy)
  }

  ghost predicate RequiredBy(reg: UnitTable, t: UnitId, u: UnitId) {
    u < |reg.units| && t in Resolve(reg.byName, reg.units[u].file.install.requiredBy)
  }

  ghost predicate LiftsWants(reg: UnitTable) {
    forall t, u :: u in Extra(reg.extraWants, t) <==> WantedBy(reg, t, u)
  }

  ghost predicate LiftsRequires(reg: UnitTable) {
    forall t, u :: u in Extra(reg.extraRequires, t) <==> RequiredBy(reg, t, u)
  }

  ghost predicate IsLoaded(reg: UnitTable, loaded: seq<LoadedUnit>) {
    reg.units == loaded && reg.byName == NameIndex(loaded) && LiftsWants(reg) && LiftsRequires(reg)
  }

  lemma LoadedIsWellFormed(reg: UnitTable, loaded: seq<LoadedUnit>)
    requires IsLoaded(reg, loaded)
    ensures WellFormed(reg)
  {
    NameIndexLastWins(loaded);
  }

  // ---------- Edges ----------

  ghost function HardTargets(reg: UnitTable, id: UnitId): set<UnitId>
    requires id < |reg.units|
  {
    var unit := reg.units[id].file.unit;
    Resolve(reg.byName, unit.requires_) + Resolve(reg.byName, unit.bindsTo)
    + ToSet(Extra(reg.extraRequires, id))
  }

  ghost function RequirementTargets(reg: UnitTable, id: UnitId): set<UnitId>
    requires id < |reg.units|
  {
    Resolve(reg.byName, reg.units[id].file.unit.wants) + ToSet(Extra(reg.extraWants, id)) + HardTargets(reg, id)
  }

  ghost function RequirementEdges(reg: UnitTable): Edges {
    set u: nat, v | u < |reg.units| && v in RequirementTargets(reg, u) :: (u, v)
  }

  ghost function HardEdges(reg: UnitTable): Edges {
    set u: nat, v | u < |reg.units| && v in HardTargets(reg, u) :: (u, v)
  }

  /** x must finish before y starts. */
  ghost predicate OrderedBefore(reg: UnitTable, x: UnitId, y: UnitId)
    requires x < |reg.units| && y < |reg.units|
  {
    || x in Resolve(reg.byName, reg.units[y].file.unit.after)
    || y in Resolve(reg.byName, reg.units[x].file.unit.before)
  }

  ghost function OrderEdges(reg: UnitTable, nodes: set<UnitId>): Edges
    requires Within(reg, nodes)
  {
    set x, y | x in nodes && y in nodes && OrderedBefore(reg, x, y) :: (x, y)
  }

  lemma EdgesStayInside(reg: UnitTable)
    requires WellFormed(reg)
    ensures forall e :: e in RequirementEdges(reg) ==> e.0 < |reg.units| && e.1 < |reg.units|
    ensures HardEdges(reg) <= RequirementEdges(reg)
  {
  }

  // ---------- Plans ----------

  datatype PlanSpec = Unknown | Plan(order: seq<UnitId>) | Cycle(stuck: set<UnitId>)

  ghost function StartClosure(reg: UnitTable, a: UnitId): set<UnitId> {
    Closure(RequirementEdges(reg), a)
  }

  /** Everything that depends on `a`, and `a`. */
  ghost function StopClosure(reg: UnitTable, a: UnitId): set<UnitId> {
    Closure(Reverse(RequirementEdges(reg)), a)
  }

  lemma ClosuresStayInside(reg: UnitTable, a: UnitId)
    requires WellFormed(reg) && a < |reg.units|
    ensures Within(reg, StartClosure(reg, a)) && Within(reg, StopClosure(reg, a))
  {
    EdgesStayInside(reg);
  }

  ghost function Arrange(reg: UnitTable, nodes: set<UnitId>): PlanSpec
    requires Within(reg, nodes)
  {
    var sorted := Kahn(OrderEdges(reg, nodes), nodes);
    if |sorted| == |nodes| then Plan(sorted) else Cycle(nodes - ToSet(sorted))
  }

  ghost function StartPlan(reg: UnitTable, anchor: string): PlanSpec
    requires WellFormed(reg)
  {
    if anchor !in reg.byName then Unknown
    else
      ClosuresStayInside(reg, reg.byName[anchor]);
      Arrange(reg, StartClosure(reg, reg.byName[anchor]))
  }

  function Reversed<T>(s: seq<T>): (r: seq<T>)
    ensures |r| == |s| && forall i :: 0 <= i < |s| ==> r[i] == s[|s| - 1 - i]
  {
    if s == [] then [] else Reversed(s[1..]) + [s[0]]
  }

  ghost function StopPlan(reg: UnitTable, anchor: string): PlanSpec
    requires WellFormed(reg)
  {
    if anchor !in reg.byName then Unknown
    else
      ClosuresStayInside(reg, reg.byName[anchor]);
      var p := Arrange(reg, StopClosure(reg, reg.byName[anchor]));
      if p.Plan? then Plan(Reversed(p.order)) else p
  }

  // ---------- What a plan guarantees ----------

  lemma ArrangeCorrect(reg: UnitTable, nodes: set<UnitId>)
    requires Within(reg, nodes)
    ensures var E, p := OrderEdges(reg, nodes), Arrange(reg, nodes);
      && (p.Plan? <==> Acyclic(E))
      && (p.Plan? ==> NoDup(p.order) && ToSet(p.order) == nodes && Respects(E, p.order))
      && (!p.Plan? ==> p.Cycle? && p.stuck != {} && p.stuck <= nodes && EachHasPredecessor(E, p.stuck))
  {
    var E := OrderEdges(reg, nodes);
    KahnSound(E, nodes);
    KahnCompleteIffAcyclic(E, nodes);
    CardinalityTells(Kahn(E, nodes), nodes);
  }

  lemma CardinalityTells(s: seq<UnitId>, nodes: set<UnitId>)
    requires NoDup(s) && ToSet(s) <= nodes
    ensures |s| == |nodes| ==> ToSet(s) == nodes
    ensures |s| != |nodes| ==> nodes - ToSet(s) != {}
  {
    NoDupCardinality(s);
    SubsetCardinality(ToSet(s), nodes);
    assert nodes == ToSet(s) + (nodes - ToSet(s));
  }

  /** A start request succeeds exactly when the unit is known and the ordering edges
      inside its requirement closure have no cycle; requirement cycles do not matter.
      The plan then lists the closure once each, every ordering edge respected. */
  lemma StartPlanCorrect(reg: UnitTable, anchor: string)
    requires WellFormed(reg)
    ensures StartPlan(reg, anchor).Unknown? <==> anchor !in reg.byName
    ensures anchor in reg.byName ==>
      var a, p := reg.byName[anchor], StartPlan(reg, anchor);
      var C := StartClosure(reg, a);
      && Within(reg, C)
      && (p.Plan? <==> Acyclic(OrderEdges(reg, C)))
      && (p.Plan? ==> NoDup(p.order) && ToSet(p.order) == C && Respects(OrderEdges(reg, C), p.order))
      && (p.Cycle? ==> p.stuck != {} && p.stuck <= C && EachHasPredecessor(OrderEdges(reg, C), p.stuck))
  {
    if anchor in reg.byName {
      ClosuresStayInside(reg, reg.byName[anchor]);
      ArrangeCorrect(reg, StartClosure(reg, reg.byName[anchor]));
    }
  }

  lemma ReversedFacts<T>(s: seq<T>)
    ensures NoDup(s) ==> NoDup(Reversed(s))
    ensures ToSet(Reversed(s)) == ToSet(s)
    ensures forall x, y :: Precedes(Reversed(s), x, y) <==> Precedes(s, y, x)
  {
    var r := Reversed(s);
    forall x | x in s ensures x in r {
      var i :| 0 <= i < |s| && s[i] == x;
      assert r[|s| - 1 - i] == x;
    }
    forall x, y | Precedes(r, x, y) ensures Precedes(s, y, x) {
      var i, j :| 0 <= i < j < |r| && r[i] == x && r[j] == y;
      assert 0 <= |s| - 1 - j < |s| - 1 - i < |s| && s[|s| - 1 - j] == y && s[|s| - 1 - i] == x;
    }
    forall x, y | Precedes(s, y, x) ensures Precedes(r, x, y) {
      var i, j :| 0 <= i < j < |s| && s[i] == y && s[j] == x;
      assert r[|s| - 1 - j] == x && r[|s| - 1 - i] == y;
    }
  }

  /** A stop plan lists everything that depends on the anchor, dependents of the
      ordering before what they are ordered after. */
  lemma StopPlanCorrect(reg: UnitTable, anchor: string)
    requires WellFormed(reg)
    ensures StopPlan(reg, anchor).Unknown? <==> anchor !in reg.byName
    ensures anchor in reg.byName ==>
      var a, p := reg.byName[anchor], StopPlan(reg, anchor);
      var C := StopClosure(reg, a);
      && Within(reg, C)
      && (p.Plan? <==> Acyclic(OrderEdges(reg, C)))
      && (p.Plan? ==> NoDup(p.order) && ToSet(p.order) == C && a in p.order)
      && (p.Plan? ==> forall x, y :: (x, y) in OrderEdges(reg, C) ==> Precedes(p.order, y, x))
      && (p.Cycle? ==> p.stuck != {} && p.stuck <= C && EachHasPredecessor(OrderEdges(reg, C), p.stuck))
  {
    if anchor in reg.byName {
      var C := StopClosure(reg, reg.byName[anchor]);
      ClosuresStayInside(reg, reg.byName[anchor]);
      ClosureIsLeast(Reverse(RequirementEdges(reg)), reg.byName[anchor]);
      ArrangeCorrect(reg, C);
      var p := Arrange(reg, C);
      if p.Plan? {
        ReversedFacts(p.order);
        assert reg.byName[anchor] in ToSet(Reversed(p.order));
        forall x, y | (x, y) in OrderEdges(reg, C) ensures Precedes(Reversed(p.order), y, x) {
          assert y in ToSet(p.order);
          RespectsPrecedes(OrderEdges(reg, C), p.order, x, y);
        }
      }
    }
  }

  // ---------- Start and stop mirror each other ----------

  /** Stopping `a` stops `u` exactly when starting `u` would start `a`. */
  lemma StartStopDuality(reg: UnitTable, a: UnitId, u: UnitId)
    requires WellFormed(reg) && a < |reg.units| && u < |reg.units|
    ensures u in StopClosure(reg, a) <==> a in StartClosure(reg, u)
  {
    ClosureIsLeast(RequirementEdges(reg), u);
    ClosureIsLeast(Reverse(RequirementEdges(reg)), a);
    ReachesReverse(RequirementEdges(reg), a, u);
  }

  /** Whatever is ordered in a start plan is stopped in the opposite order. */
  lemma OppositeOrder(reg: UnitTable, start: string, stop: string, x: UnitId, y: UnitId)
    requires WellFormed(reg) && x < |reg.units| && y < |reg.units|
    requires StartPlan(reg, start).Plan? && StopPlan(reg, stop).Plan?
    requires x in StartPlan(reg, start).order && y in StartPlan(reg, start).order
    requires x in StopPlan(reg, stop).order && y in StopPlan(reg, stop).order
    requires OrderedBefore(reg, x, y)
    ensures Precedes(StartPlan(reg, start).order, x, y) && Precedes(StopPlan(reg, stop).order, y, x)
  {
    StartPlanCorrect(reg, start);
    StopPlanCorrect(reg, stop);
    var p, q := StartPlan(reg, start).order, StopPlan(reg, stop).order;
    assert x in ToSet(p) && y in ToSet(p) && x in ToSet(q) && y in ToSet(q);
    RespectsPrecedes(OrderEdges(reg, StartClosure(reg, reg.byName[start])), p, x, y);
  }

  ghost predicate UnorderedIn(reg: UnitTable, C: set<UnitId>, v: UnitId)
    requires Within(reg, C) && v < |reg.units|
  {
    forall x :: x in C ==> !OrderedBefore(reg, x, v)
  }

  lemma UnorderedIffNoPredecessor(reg: UnitTable, C: set<UnitId>)
    requires Within(reg, C)
    ensures Roots(OrderEdges(reg, C), C) == (set v | v in C && UnorderedIn(reg, C, v))
  {
    var E := OrderEdges(reg, C);
    forall v | v in C && AllBefore(E, v, []) ensures UnorderedIn(reg, C, v) {
      forall x | x in C ensures !OrderedBefore(reg, x, v) {
        var e := (x, v);
        assert e in E ==> e.1 == v && e.0 !in [];
      }
    }
  }

  /** A stop plan ends with its anchor exactly when the anchor is the lowest-numbered
      unit of the plan that is ordered after no other member. */
  lemma AnchorLastIff(reg: UnitTable, anchor: string)
    requires WellFormed(reg) && StopPlan(reg, anchor).Plan?
    ensures var a, p := reg.byName[anchor], StopPlan(reg, anchor).order;
      var C := StopClosure(reg, a);
      p != [] && Within(reg, C) &&
      (p[|p| - 1] == a <==> IsLeast(a, set v | v in C && UnorderedIn(reg, C, v)))
  {
    var a := reg.byName[anchor];
    var C := StopClosure(reg, a);
    StopPlanCorrect(reg, anchor);
    ClosureIsLeast(Reverse(RequirementEdges(reg)), a);
    KahnFirst(OrderEdges(reg, C), C, a);
    UnorderedIffNoPredecessor(reg, C);
  }

  /** In particular it does when every other member is ordered, directly or through
      other members, after the anchor. */
  lemma AnchorLastWhenAllAfter(reg: UnitTable, anchor: string)
    requires WellFormed(reg) && StopPlan(reg, anchor).Plan?
    requires Within(reg, StopClosure(reg, reg.byName[anchor]))
    requires forall v :: v in StopClosure(reg, reg.byName[anchor]) ==>
      Reaches(OrderEdges(reg, StopClosure(reg, reg.byName[anchor])), reg.byName[anchor], v)
    ensures var p := StopPlan(reg, anchor).order; p != [] && p[|p| - 1] == reg.byName[anchor]
  {
    var a, p := reg.byName[anchor], StopPlan(reg, anchor).order;
    StopPlanCorrect(reg, anchor);
    var E := OrderEdges(reg, StopClosure(reg, a));
    var v := p[|p| - 1];
    assert v in ToSet(p);
    var q :| IsPath(E, q) && q[0] == a && q[|q| - 1] == v;
    PathEndsWithEdge(E, q);
    assert forall u :: !Precedes(p, v, u);
  }

  ghost predicate NoOrdering(reg: UnitTable) {
    forall i :: 0 <= i < |reg.units| ==> reg.units[i].file.unit.after == [] && reg.units[i].file.unit.before == []
  }

  lemma UnorderedArranges(reg: UnitTable, nodes: set<UnitId>)
    requires Within(reg, nodes) && NoOrdering(reg)
    ensures Arrange(reg, nodes).Plan?
  {
    ArrangeCorrect(reg, nodes);
    var p := Arrange(reg, nodes);
    var stuck := if p.Cycle? then p.stuck else {};
    assert forall v :: v in stuck ==> HasPredecessor(OrderEdges(reg, nodes), stuck, v);
  }

  /** Requirement cycles never stop a plan: with no ordering directives at all, every
      known unit has one. */
  lemma RequirementCyclesAreAccepted(reg: UnitTable, anchor: string)
    requires WellFormed(reg) && NoOrdering(reg) && anchor in reg.byName
    ensures StartPlan(reg, anchor).Plan? && StopPlan(reg, anchor).Plan?
  {
    var a := reg.byName[anchor];
    ClosuresStayInside(reg, a);
    UnorderedArranges(reg, StartClosure(reg, a));
    UnorderedArranges(reg, StopClosure(reg, a));
  }
}
