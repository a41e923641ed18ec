/** Plans read off the unit files: which units a start or a stop takes along and in what
    order, in terms of the names that the files list. */
module FilePlans {
  import opened Config
  import opened Sequences
  import opened Digraph
  import opened Registry

  // ---------- What the files say ----------

  /** v is the unit that one of the names stands for: the last one loaded under it. */
  ghost predicate Names(units: seq<LoadedUnit>, names: seq<string>, v: UnitId) {
    v < |units| && units[v].name in names && forall w :: v < w < |units| ==> units[w].name != units[v].name
  }

  /** u lists v under `requires` or `binds-to`, or v lists u under `required-by`. */
  ghost predicate NeedsHard(units: seq<LoadedUnit>, u: UnitId, v: UnitId) {
    u < |units| && v < |units| &&
    (Names(units, units[u].file.unit.requires_, v) || Names(units, units[u].file.unit.bindsTo, v) || Names(units, units[v].file.install.requiredBy, u))
  }

  /** Or u lists v under `wants`, or v lists u under `wanted-by`. */
  ghost predicate Needs(units: seq<LoadedUnit>, u: UnitId, v: UnitId) {
    NeedsHard(units, u, v) ||
    (u < |units| && v < |units| && (Names(units, units[u].file.unit.wants, v) || Names(units, units[v].file.install.wantedBy, u)))
  }

  /** y lists x under `after`, or x lists y under `before`. */
  ghost predicate Before(units: seq<LoadedUnit>, x: UnitId, y: UnitId) {
    x < |units| && y < |units| && (Names(units, units[y].file.unit.after, x) || Names(units, units[x].file.unit.before, y))
  }

  lemma {:induction false} IndexIsLast(units: seq<LoadedUnit>, v: UnitId)
    requires v < |units|
    ensures var m := NameIndex(units);
      units[v].name in m && (m[units[v].name] == v <==> forall w :: v < w < |units| ==> units[w].name != units[v].name)
  {
    NameIndexLastWins(units);
    var k := NameIndex(units)[units[v].name];
    assert units[k].name == units[v].name;
  }

  lemma ResolveNames(units: seq<LoadedUnit>, names: seq<string>, v: UnitId)
    ensures v in Resolve(NameIndex(units), names) <==> Names(units, names, v)
  {
    NameIndexLastWins(units);
    if v < |units| { IndexIsLast(units, v); }
  }

  /** The edges are what the files say. */
  lemma EdgesFromFiles(reg: UnitTable, u: UnitId, v: UnitId)
    requires IsLoaded(reg, reg.units) && u < |reg.units| && v < |reg.units|
    ensures (u, v) in RequirementEdges(reg) <==> Needs(reg.units, u, v)
    ensures (u, v) in HardEdges(reg) <==> NeedsHard(reg.units, u, v)
    ensures v in HardTargets(reg, u) <==> NeedsHard(reg.units, u, v)
    ensures OrderedBefore(reg, u, v) <==> Before(reg.units, u, v)
  {
    hide Names, Resolve, Extra, NameIndex;
    var file, other := reg.units[u].file, reg.units[v].file;
    ResolveNames(reg.units, file.unit.requires_, v);
    ResolveNames(reg.units, file.unit.bindsTo, v);
    ResolveNames(reg.units, file.unit.wants, v);
    ResolveNames(reg.units, other.install.requiredBy, u);
    ResolveNames(reg.units, other.install.wantedBy, u);
    ResolveNames(reg.units, other.unit.after, u);
    ResolveNames(reg.units, file.unit.before, v);
    assert WantedBy(reg, u, v) <==> u in Resolve(reg.byName, other.install.wantedBy);
    assert RequiredBy(reg, u, v) <==> u in Resolve(reg.byName, other.install.requiredBy);
  }

  // ---------- Closures ----------

  /** With u, everything that u needs is in S. */
  ghost predicate TakesNeeds(units: seq<LoadedUnit>, S: set<UnitId>) {
    forall u: UnitId, v: UnitId :: u in S && Needs(units, u, v) ==> v in S
  }

  /** With v, everything that needs v is in S. */
  ghost predicate TakesNeeders(units: seq<LoadedUnit>, S: set<UnitId>) {
    forall u: UnitId, v: UnitId :: v in S && Needs(units, u, v) ==> u in S
  }

  /** S is the least set with the unit of this name and closed in this way. */
  ghost predicate IsLeastWith(units: seq<LoadedUnit>, a: UnitId, S: set<UnitId>, closed: set<UnitId> -> bool) {
    a in S && closed(S) && forall T :: a in T && closed(T) ==> S <= T
  }

  lemma NeedsClosed(reg: UnitTable, S: set<UnitId>)
    requires IsLoaded(reg, reg.units)
    ensures TakesNeeds(reg.units, S) <==> Closed(RequirementEdges(reg), S)
    ensures TakesNeeders(reg.units, S) <==> Closed(Reverse(RequirementEdges(reg)), S)
  {
    hide Needs, RequirementEdges, IsLoaded;
    LoadedIsWellFormed(reg, reg.units);
    EdgesStayInside(reg);
    var E := RequirementEdges(reg);
    forall u: UnitId, v: UnitId ensures (u, v) in E <==> Needs(reg.units, u, v) {
      NeedsInside(reg.units, u, v);
      if u < |reg.units| && v < |reg.units| { EdgesFromFiles(reg, u, v); }
    }
    forall u: UnitId, v: UnitId ensures (v, u) in Reverse(E) <==> Needs(reg.units, u, v) {
      if (u, v) in E { var e := (u, v); assert (e.1, e.0) in Reverse(E); }
    }
  }

  lemma NeedsInside(units: seq<LoadedUnit>, u: UnitId, v: UnitId)
    ensures Needs(units, u, v) ==> u < |units| && v < |units|
  {
  }

  /** A start takes along exactly what the files say is needed, directly or through others,
      and a stop exactly what needs it. */
  lemma ClosuresFromFiles(reg: UnitTable, a: UnitId)
    requires IsLoaded(reg, reg.units) && a < |reg.units|
    ensures IsLeastWith(reg.units, a, StartClosure(reg, a), S => TakesNeeds(reg.units, S))
    ensures IsLeastWith(reg.units, a, StopClosure(reg, a), S => TakesNeeders(reg.units, S))
  {
    hide TakesNeeds, TakesNeeders, Closed, Closure, RequirementEdges, IsLoaded;
    ClosureIsLeast(RequirementEdges(reg), a);
    ClosureIsLeast(Reverse(RequirementEdges(reg)), a);
    forall S ensures TakesNeeds(reg.units, S) <==> Closed(RequirementEdges(reg), S)
      ensures TakesNeeders(reg.units, S) <==> Closed(Reverse(RequirementEdges(reg)), S)
    {
      NeedsClosed(reg, S);
    }
  }

  // ---------- Plans ----------

  /** Going from unit to unit by the files' orderings, inside C, one comes back. */
  ghost predicate IsLoop(units: seq<LoadedUnit>, C: set<UnitId>, p: seq<UnitId>) {
    && |p| > 1 && p[0] == p[|p| - 1] && (forall i :: 0 <= i < |p| ==> p[i] in C)
    && forall i, j :: 0 <= i && j == i + 1 && j < |p| ==> Before(units, p[i], p[j])
  }

  lemma LoopIsCycle(reg: UnitTable, C: set<UnitId>, p: seq<UnitId>)
    requires IsLoaded(reg, reg.units) && Within(reg, C) && |p| > 1
    ensures IsLoop(reg.units, C, p) <==> IsPath(OrderEdges(reg, C), p) && p[0] == p[|p| - 1]
  {
    hide Before, OrderedBefore, IsLoaded;
    var E := OrderEdges(reg, C);
    forall x, y ensures (x, y) in E <==> x in C && y in C && Before(reg.units, x, y) {
      if x in C && y in C { EdgesFromFiles(reg, x, y); }
    }
    if IsPath(E, p) {
      forall i | 0 <= i < |p| ensures p[i] in C {
        if i + 1 < |p| { assert (p[i], p[i + 1]) in E; } else { assert (p[i - 1], p[i]) in E; }
      }
    }
  }

  lemma CyclicIffLoop(reg: UnitTable, C: set<UnitId>)
    requires IsLoaded(reg, reg.units) && Within(reg, C)
    ensures Acyclic(OrderEdges(reg, C)) <==> forall p :: !IsLoop(reg.units, C, p)
  {
    hide OrderEdges, IsPath, IsLoaded;
    var E := OrderEdges(reg, C);
    forall p: seq<UnitId> ensures IsLoop(reg.units, C, p) <==> |p| > 1 && IsPath(E, p) && p[0] == p[|p| - 1] {
      if |p| > 1 { LoopIsCycle(reg, C, p); }
    }
  }

  lemma OrderFromFiles(reg: UnitTable, C: set<UnitId>, x: UnitId, y: UnitId)
    requires IsLoaded(reg, reg.units) && Within(reg, C) && x in C && y in C && Before(reg.units, x, y)
    ensures (x, y) in OrderEdges(reg, C)
  {
    hide Before, OrderedBefore, IsLoaded;
    EdgesFromFiles(reg, x, y);
  }

  /** What a plan is, in the files' terms: it exists exactly when the orderings inside the
      set come to no loop; it lists the set once each; and whoever lists another under
      `after` or `before` stands where it asks, or opposite in a stop. */
  ghost predicate PlansSet(units: seq<LoadedUnit>, p: PlanSpec, C: set<UnitId>, forwards: bool) {
    && (p.Plan? <==> forall q :: !IsLoop(units, C, q))
    && (p.Plan? ==> NoDup(p.order) && ToSet(p.order) == C)
    && (p.Plan? ==> forall x, y :: x in C && y in C && Before(units, x, y) ==> if forwards then Precedes(p.order, x, y) else Precedes(p.order, y, x))
  }

  /** A start plan covers what the unit needs and follows `after` and `before`. */
  lemma StartPlanFromFiles(reg: UnitTable, name: string)
    requires IsLoaded(reg, reg.units) && WellFormed(reg) && name in reg.byName
    ensures var a := reg.byName[name];
      && Names(reg.units, [name], a) && Within(reg, StartClosure(reg, a))
      && PlansSet(reg.units, StartPlan(reg, name), StartClosure(reg, a), true)
  {
    hide IsLoaded, WellFormed, StartClosure, StartPlan, OrderEdges, Acyclic, IsLoop, Before, Names;
    NameIsOne(reg, name);
    StartPlanCorrect(reg, name);
    var C, p := StartClosure(reg, reg.byName[name]), StartPlan(reg, name);
    CyclicIffLoop(reg, C);
    forall x, y | p.Plan? && x in C && y in C && Before(reg.units, x, y) ensures Precedes(p.order, x, y) {
      OrderFromFiles(reg, C, x, y);
      assert y in ToSet(p.order);
      RespectsPrecedes(OrderEdges(reg, C), p.order, x, y);
    }
  }

  /** A stop plan covers what needs the unit and goes against `after` and `before`. */
  lemma StopPlanFromFiles(reg: UnitTable, name: string)
    requires IsLoaded(reg, reg.units) && WellFormed(reg) && name in reg.byName
    ensures var a := reg.byName[name];
      && Within(reg, StopClosure(reg, a)) && PlansSet(reg.units, StopPlan(reg, name), StopClosure(reg, a), false)
  {
    hide IsLoaded, WellFormed, StopClosure, StopPlan, OrderEdges, Acyclic, IsLoop, Before, Names;
    StopPlanCorrect(reg, name);
    var C := StopClosure(reg, reg.byName[name]);
    CyclicIffLoop(reg, C);
    forall x, y | x in C && y in C && Before(reg.units, x, y) ensures (x, y) in OrderEdges(reg, C) { OrderFromFiles(reg, C, x, y); }
  }

  lemma NameIsOne(reg: UnitTable, name: string)
    requires IsLoaded(reg, reg.units) && name in reg.byName
    ensures Names(reg.units, [name], reg.byName[name])
  {
    NameIndexLastWins(reg.units);
    IndexIsLast(reg.units, reg.byName[name]);
  }
}
