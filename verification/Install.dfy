/** The `[install]` directives: lifting reverse dependencies into forward edges means
    the same as having written the forward edges. */
module Install {
  import opened Config
  import opened Sequences
  import opened Digraph
  import opened Registry

  // ---------- Registries with the same edges plan alike ----------

  /** The same units, ordered by the same relation, however their files spell it. */
  ghost predicate SameOrdering(r: UnitTable, s: UnitTable) {
    && |r.units| == |s.units| && r.byName == s.byName
    && forall x: UnitId, y: UnitId :: x < |r.units| && y < |r.units| ==> (OrderedBefore(r, x, y) <==> OrderedBefore(s, x, y))
  }

  lemma SameOrderEdges(r: UnitTable, s: UnitTable, nodes: set<UnitId>)
    requires SameOrdering(r, s) && Within(r, nodes)
    ensures Within(s, nodes) && OrderEdges(r, nodes) == OrderEdges(s, nodes)
  {
    hide OrderedBefore;
    forall e ensures e in OrderEdges(r, nodes) <==> e in OrderEdges(s, nodes) {
      assert e.0 in nodes && e.1 in nodes ==> (OrderedBefore(r, e.0, e.1) <==> OrderedBefore(s, e.0, e.1));
    }
  }

  /** Plans depend on the two edge relations alone: not on the order or the repetition of
      names in any list, nor on which file states an ordering. */
  lemma SameEdgesSamePlans(r: UnitTable, s: UnitTable, name: string)
    requires WellFormed(r) && WellFormed(s) && SameOrdering(r, s)
    requires RequirementEdges(r) == RequirementEdges(s)
    ensures StartPlan(r, name) == StartPlan(s, name) && StopPlan(r, name) == StopPlan(s, name)
  {
    hide OrderedBefore, RequirementEdges, OrderEdges, Closure, Kahn;
    if name in r.byName {
      var a := r.byName[name];
      NamedUnitExists(r, name);
      ClosuresStayInside(r, a);
      SameOrderEdges(r, s, StartClosure(r, a));
      SameOrderEdges(r, s, StopClosure(r, a));
    }
  }

  lemma NamedUnitExists(reg: UnitTable, name: string)
    requires WellFormed(reg) && name in reg.byName
    ensures reg.byName[name] < |reg.units|
  {
  }

  lemma SameDirectivesSameOrdering(r: UnitTable, s: UnitTable)
    requires |r.units| == |s.units| && r.byName == s.byName
    requires forall i :: 0 <= i < |r.units| ==>
      r.units[i].file.unit.after == s.units[i].file.unit.after && r.units[i].file.unit.before == s.units[i].file.unit.before
    ensures SameOrdering(r, s)
  {
    hide Resolve;
  }

  lemma SameTargetsSameEdges(r: UnitTable, s: UnitTable)
    requires |r.units| == |s.units|
    requires forall i :: 0 <= i < |r.units| ==> RequirementTargets(r, i) == RequirementTargets(s, i)
    ensures RequirementEdges(r) == RequirementEdges(s)
  {
  }

  // ---------- Writing the reverse edges out ----------

  /** The names, in load order, of the units picked by `lists`. */
  function NamesListing(units: seq<LoadedUnit>, lists: LoadedUnit -> bool): (r: seq<string>)
    ensures forall n :: n in r <==> exists u :: u in units && lists(u) && u.name == n
  {
    if units == [] then []
    else
      var rest := NamesListing(units[1..], lists);
      assert units == [units[0]] + units[1..];
      if lists(units[0]) then [units[0].name] + rest else rest
  }

  function Wanting(target: string): LoadedUnit -> bool {
    (u: LoadedUnit) => target in u.file.install.wantedBy
  }

  function Requiring(target: string): LoadedUnit -> bool {
    (u: LoadedUnit) => target in u.file.install.requiredBy
  }

  /** A target with the units that declare it as theirs written into its own lists. */
  function WrittenOut(loaded: seq<LoadedUnit>, t: LoadedUnit): LoadedUnit {
    var unit := t.file.unit;
    var wants := unit.wants + NamesListing(loaded, Wanting(t.name));
    var requires_ := unit.requires_ + NamesListing(loaded, Requiring(t.name));
    t.(file := t.file.(unit := unit.(wants := wants, requires_ := requires_), install := InstallSection([], [])))
  }

  function Desugar(loaded: seq<LoadedUnit>): (r: seq<LoadedUnit>)
    ensures |r| == |loaded|
    ensures forall i :: 0 <= i < |loaded| ==> r[i] == WrittenOut(loaded, loaded[i])
  {
    seq(|loaded|, i requires 0 <= i < |loaded| => WrittenOut(loaded, loaded[i]))
  }

  lemma {:induction false} SameNamesSameIndex(a: seq<LoadedUnit>, b: seq<LoadedUnit>)
    requires |a| == |b| && forall i :: 0 <= i < |a| ==> a[i].name == b[i].name
    ensures NameIndex(a) == NameIndex(b)
  {
    if a != [] {
      SameNamesSameIndex(a[..|a| - 1], b[..|b| - 1]);
    }
  }

  lemma UniqueNamesIndex(units: seq<LoadedUnit>)
    requires UniqueNames(units)
    ensures forall i :: 0 <= i < |units| ==> units[i].name in NameIndex(units) && NameIndex(units)[units[i].name] == i
  {
    NameIndexLastWins(units);
    forall i | 0 <= i < |units| ensures NameIndex(units)[units[i].name] == i {
      var j := NameIndex(units)[units[i].name];
      assert units[j].name == units[i].name;
    }
  }

  /** The lifted edges into `t` are the listed names resolved. */
  lemma ListedIsLifted(loaded: seq<LoadedUnit>, lists: LoadedUnit -> bool, u: UnitId)
    requires UniqueNames(loaded)
    ensures u in Resolve(NameIndex(loaded), NamesListing(loaded, lists)) <==> u < |loaded| && lists(loaded[u])
  {
    NameIndexLastWins(loaded);
    UniqueNamesIndex(loaded);
    if u < |loaded| && lists(loaded[u]) {
      assert loaded[u] in loaded && loaded[u].name in NamesListing(loaded, lists);
    }
  }

  lemma ResolveConcat(byName: map<string, UnitId>, a: seq<string>, b: seq<string>)
    ensures Resolve(byName, a + b) == Resolve(byName, a) + Resolve(byName, b)
  {
    forall u | u in Resolve(byName, a) + Resolve(byName, b) ensures u in Resolve(byName, a + b) {
      var n :| (n in a || n in b) && n in byName && byName[n] == u;
      assert n in a + b;
    }
  }

  /** A registry with `wanted-by` / `required-by` and one with the reverse edges written
      as `wants` / `requires` have the same targets and the same plans. */
  lemma DesugarPreservesMeaning(reg: UnitTable, plain: UnitTable, loaded: seq<LoadedUnit>)
    requires UniqueNames(loaded) && IsLoaded(reg, loaded) && IsLoaded(plain, Desugar(loaded))
    ensures WellFormed(reg) && WellFormed(plain) && |reg.units| == |plain.units|
    ensures forall id :: 0 <= id < |reg.units| ==>
      RequirementTargets(reg, id) == RequirementTargets(plain, id) && HardTargets(reg, id) == HardTargets(plain, id)
    ensures forall name :: StartPlan(reg, name) == StartPlan(plain, name) && StopPlan(reg, name) == StopPlan(plain, name)
  {
    hide RequirementTargets, HardTargets, RequirementEdges, StartPlan, StopPlan, OrderedBefore, UniqueNames, WellFormed, LiftsWants, LiftsRequires;
    LoadedIsWellFormed(reg, loaded);
    LoadedIsWellFormed(plain, Desugar(loaded));
    SameNamesSameIndex(loaded, Desugar(loaded));
    SameDirectivesSameOrdering(reg, plain);
    forall id | 0 <= id < |reg.units|
      ensures RequirementTargets(reg, id) == RequirementTargets(plain, id) && HardTargets(reg, id) == HardTargets(plain, id)
    {
      DesugaredTargets(reg, plain, loaded, id);
    }
    SameTargetsSameEdges(reg, plain);
    forall name ensures StartPlan(reg, name) == StartPlan(plain, name) && StopPlan(reg, name) == StopPlan(plain, name) {
      SameEdgesSamePlans(reg, plain, name);
    }
  }

  lemma LiftedIsListed(reg: UnitTable, loaded: seq<LoadedUnit>, id: UnitId, u: UnitId)
    requires UniqueNames(loaded) && IsLoaded(reg, loaded) && id < |loaded|
    ensures WantedBy(reg, id, u) <==> u in Resolve(reg.byName, NamesListing(loaded, Wanting(loaded[id].name)))
    ensures RequiredBy(reg, id, u) <==> u in Resolve(reg.byName, NamesListing(loaded, Requiring(loaded[id].name)))
  {
    ListedIsLifted(loaded, Wanting(loaded[id].name), u);
    ListedIsLifted(loaded, Requiring(loaded[id].name), u);
    if u < |loaded| {
      NamedTarget(loaded, id, loaded[u].file.install.wantedBy);
      NamedTarget(loaded, id, loaded[u].file.install.requiredBy);
    }
  }

  lemma LiftedIsWrittenOut(reg: UnitTable, loaded: seq<LoadedUnit>, id: UnitId, w: set<UnitId>, r: set<UnitId>)
    requires UniqueNames(loaded) && IsLoaded(reg, loaded) && id < |loaded|
    requires w == Resolve(reg.byName, NamesListing(loaded, Wanting(loaded[id].name)))
    requires r == Resolve(reg.byName, NamesListing(loaded, Requiring(loaded[id].name)))
    ensures ToSet(Extra(reg.extraWants, id)) == w && ToSet(Extra(reg.extraRequires, id)) == r
  {
    forall u: UnitId
      ensures u in Extra(reg.extraWants, id) <==> u in w
      ensures u in Extra(reg.extraRequires, id) <==> u in r
    {
      LiftedIsListed(reg, loaded, id, u);
    }
  }

  lemma NothingLifted(plain: UnitTable, loaded: seq<LoadedUnit>, id: UnitId)
    requires IsLoaded(plain, Desugar(loaded))
    ensures ToSet(Extra(plain.extraWants, id)) == {} && ToSet(Extra(plain.extraRequires, id)) == {}
  {
    forall u: UnitId ensures u !in Extra(plain.extraWants, id) && u !in Extra(plain.extraRequires, id) {
      assert !WantedBy(plain, id, u) && !RequiredBy(plain, id, u);
    }
  }

  /** Moving names from the lifted lists to the unit's own lists keeps its targets. */
  lemma MovedNamesSameTargets(reg: UnitTable, plain: UnitTable, id: UnitId, wanting: seq<string>, requiring: seq<string>)
    requires id < |reg.units| && id < |plain.units| && reg.byName == plain.byName
    requires plain.units[id].file.unit.wants == reg.units[id].file.unit.wants + wanting
    requires plain.units[id].file.unit.requires_ == reg.units[id].file.unit.requires_ + requiring
    requires plain.units[id].file.unit.bindsTo == reg.units[id].file.unit.bindsTo
    requires ToSet(Extra(reg.extraWants, id)) == Resolve(reg.byName, wanting)
    requires ToSet(Extra(reg.extraRequires, id)) == Resolve(reg.byName, requiring)
    requires ToSet(Extra(plain.extraWants, id)) == {} && ToSet(Extra(plain.extraRequires, id)) == {}
    ensures RequirementTargets(reg, id) == RequirementTargets(plain, id) && HardTargets(reg, id) == HardTargets(plain, id)
  {
    ResolveConcat(reg.byName, reg.units[id].file.unit.wants, wanting);
    ResolveConcat(reg.byName, reg.units[id].file.unit.requires_, requiring);
  }

  lemma DesugaredTargets(reg: UnitTable, plain: UnitTable, loaded: seq<LoadedUnit>, id: UnitId)
    requires UniqueNames(loaded) && IsLoaded(reg, loaded) && IsLoaded(plain, Desugar(loaded)) && id < |loaded|
    requires reg.byName == plain.byName
    ensures RequirementTargets(reg, id) == RequirementTargets(plain, id) && HardTargets(reg, id) == HardTargets(plain, id)
  {
    var name := loaded[id].name;
    LiftedIsWrittenOut(reg, loaded, id, Resolve(reg.byName, NamesListing(loaded, Wanting(name))), Resolve(reg.byName, NamesListing(loaded, Requiring(name))));
    NothingLifted(plain, loaded, id);
    assert plain.units[id] == WrittenOut(loaded, loaded[id]);
    MovedNamesSameTargets(reg, plain, id, NamesListing(loaded, Wanting(name)), NamesListing(loaded, Requiring(name)));
  }

  lemma NamedTarget(loaded: seq<LoadedUnit>, id: UnitId, names: seq<string>)
    requires UniqueNames(loaded) && id < |loaded|
    ensures id in Resolve(NameIndex(loaded), names) <==> loaded[id].name in names
  {
    NameIndexLastWins(loaded);
    UniqueNamesIndex(loaded);
    if id in Resolve(NameIndex(loaded), names) {
      var n :| n in names && n in NameIndex(loaded) && NameIndex(loaded)[n] == id;
      assert loaded[id].name == n;
    }
  }

  // ---------- Adding a wanted-by edge later ----------

  datatype AddResult = Added(reg: UnitTable) | NoSuchTarget | NoSuchUnit

  function AddWantedBy(reg: UnitTable, target: string, unit: string): AddResult {
    if target !in reg.byName then NoSuchTarget
    else if unit !in reg.byName then NoSuchUnit
    else
      var t, u := reg.byName[target], reg.byName[unit];
      var entry := Extra(reg.extraWants, t);
      Added(reg.(extraWants := reg.extraWants[t := if u in entry then entry else entry + [u]]))
  }

  /** Exactly one requirement edge is added, a soft one, and no ordering. */
  lemma AddWantedByEdges(reg: UnitTable, target: string, unit: string)
    requires WellFormed(reg) && target in reg.byName && unit in reg.byName
    ensures var r := AddWantedBy(reg, target, unit);
      && r.Added? && WellFormed(r.reg) && SameOrdering(reg, r.reg)
      && RequirementEdges(r.reg) == RequirementEdges(reg) + {(reg.byName[target], reg.byName[unit])}
      && HardEdges(r.reg) == HardEdges(reg)
  {
    var t, u := reg.byName[target], reg.byName[unit];
    var r := AddWantedBy(reg, target, unit).reg;
    forall i: UnitId, x ensures x in Extra(r.extraWants, i) <==> x in Extra(reg.extraWants, i) || (i == t && x == u) {}
    forall i | 0 <= i < |reg.units|
      ensures RequirementTargets(r, i) == RequirementTargets(reg, i) + if i == t then {u} else {}
      ensures HardTargets(r, i) == HardTargets(reg, i)
    {
    }
    assert t < |r.units| && u in RequirementTargets(r, t);
  }

  /** Adding the same edge again changes nothing. */
  lemma AddWantedByIdempotent(reg: UnitTable, target: string, unit: string)
    requires AddWantedBy(reg, target, unit).Added?
    ensures AddWantedBy(AddWantedBy(reg, target, unit).reg, target, unit) == AddWantedBy(reg, target, unit)
  {
    var t := reg.byName[target];
    var r := AddWantedBy(reg, target, unit).reg;
    assert r.extraWants[t := r.extraWants[t]] == r.extraWants;
  }

  lemma AddWantedByEnlarges(reg: UnitTable, target: string, unit: string, a: UnitId)
    requires WellFormed(reg) && a < |reg.units| && AddWantedBy(reg, target, unit).Added?
    ensures var r := AddWantedBy(reg, target, unit).reg;
      StartClosure(reg, a) <= StartClosure(r, a) && StopClosure(reg, a) <= StopClosure(r, a)
  {
    AddWantedByEdges(reg, target, unit);
    var r := AddWantedBy(reg, target, unit).reg;
    var E, F := RequirementEdges(reg), RequirementEdges(r);
    ClosureIsLeast(E, a);
    ClosureIsLeast(F, a);
    ClosureIsLeast(Reverse(E), a);
    ClosureIsLeast(Reverse(F), a);
    assert Closed(E, Closure(F, a)) && Closed(Reverse(E), Closure(Reverse(F), a)) by {
      forall e | e in Reverse(E) ensures e in Reverse(F) { assert (e.1, e.0) in F; }
    }
  }

  function Declaring(u: LoadedUnit, target: string): LoadedUnit {
    u.(file := u.file.(install := u.file.install.(wantedBy := u.file.install.wantedBy + [target])))
  }

  /** The same unit files, except that the units in U list the target. */
  ghost predicate DeclaredBy(a: seq<LoadedUnit>, b: seq<LoadedUnit>, U: set<UnitId>, target: string) {
    |a| == |b| && forall i :: 0 <= i < |a| ==> b[i] == if i in U then Declaring(a[i], target) else a[i]
  }

  /** The edges that the units in U gain by listing the target. */
  ghost function LateEdges(byName: map<string, UnitId>, target: string, U: set<UnitId>): Edges {
    if target !in byName then {} else set u | u in U :: (byName[target], u)
  }

  lemma AlikeFiles(reg: UnitTable, other: UnitTable)
    requires IsLoaded(reg, reg.units) && IsLoaded(other, other.units) && |reg.units| == |other.units|
    requires forall i :: 0 <= i < |reg.units| ==>
      other.units[i].name == reg.units[i].name && other.units[i].file.unit == reg.units[i].file.unit
    ensures WellFormed(reg) && WellFormed(other) && SameOrdering(reg, other)
  {
    LoadedIsWellFormed(reg, reg.units);
    LoadedIsWellFormed(other, other.units);
    SameNamesSameIndex(reg.units, other.units);
    SameDirectivesSameOrdering(reg, other);
  }

  lemma DeclaredReverseEdges(reg: UnitTable, declared: UnitTable, target: string, U: set<UnitId>)
    requires reg.byName == declared.byName && DeclaredBy(reg.units, declared.units, U, target)
    ensures forall i, x: UnitId :: WantedBy(declared, i, x) <==>
      WantedBy(reg, i, x) || (target in reg.byName && i == reg.byName[target] && x in U && x < |reg.units|)
    ensures forall i, x: UnitId :: RequiredBy(declared, i, x) <==> RequiredBy(reg, i, x)
  {
    assert target in reg.byName ==> Resolve(reg.byName, [target]) == {reg.byName[target]};
    assert target !in reg.byName ==> Resolve(reg.byName, [target]) == {};
    forall i, x: UnitId ensures WantedBy(declared, i, x) <==>
      WantedBy(reg, i, x) || (target in reg.byName && i == reg.byName[target] && x in U && x < |reg.units|)
    {
      if x < |reg.units| { ResolveConcat(reg.byName, reg.units[x].file.install.wantedBy, [target]); }
    }
  }

  /** Declaring a target adds exactly the late edges, and no ordering. */
  lemma DeclaredEdges(reg: UnitTable, declared: UnitTable, target: string, U: set<UnitId>)
    requires IsLoaded(reg, reg.units) && IsLoaded(declared, declared.units)
    requires DeclaredBy(reg.units, declared.units, U, target) && forall u :: u in U ==> u < |reg.units|
    ensures WellFormed(reg) && WellFormed(declared) && SameOrdering(reg, declared)
    ensures RequirementEdges(declared) == RequirementEdges(reg) + LateEdges(reg.byName, target, U)
  {
    hide OrderedBefore;
    AlikeFiles(reg, declared);
    DeclaredReverseEdges(reg, declared, target, U);
    forall i | 0 <= i < |reg.units|
      ensures RequirementTargets(declared, i) == RequirementTargets(reg, i) + if target in reg.byName && i == reg.byName[target] then U else {}
    {
      DeclaredTargets(reg, declared, target, U, i);
    }
    TargetsGiveEdges(reg, declared, target, U);
  }

  lemma DeclaredTargets(reg: UnitTable, declared: UnitTable, target: string, U: set<UnitId>, i: UnitId)
    requires LiftsWants(reg) && LiftsRequires(reg) && LiftsWants(declared) && LiftsRequires(declared)
    requires reg.byName == declared.byName && |reg.units| == |declared.units| && i < |reg.units| && forall u :: u in U ==> u < |reg.units|
    requires declared.units[i].file.unit == reg.units[i].file.unit
    requires forall x: UnitId :: WantedBy(declared, i, x) <==>
      WantedBy(reg, i, x) || (target in reg.byName && i == reg.byName[target] && x in U && x < |reg.units|)
    requires forall x: UnitId :: RequiredBy(declared, i, x) <==> RequiredBy(reg, i, x)
    ensures RequirementTargets(declared, i) == RequirementTargets(reg, i) + if target in reg.byName && i == reg.byName[target] then U else {}
  {
    hide WantedBy, RequiredBy, Resolve, Extra;
    var late := if target in reg.byName && i == reg.byName[target] then U else {};
    assert ToSet(Extra(declared.extraWants, i)) == ToSet(Extra(reg.extraWants, i)) + late by {
      forall x: UnitId ensures x in Extra(declared.extraWants, i) <==> x in Extra(reg.extraWants, i) || x in late {}
    }
    assert ToSet(Extra(declared.extraRequires, i)) == ToSet(Extra(reg.extraRequires, i)) by {
      forall x: UnitId ensures x in Extra(declared.extraRequires, i) <==> x in Extra(reg.extraRequires, i) {}
    }
  }

  lemma TargetsGiveEdges(reg: UnitTable, declared: UnitTable, target: string, U: set<UnitId>)
    requires |reg.units| == |declared.units| && (target in reg.byName ==> reg.byName[target] < |reg.units|)
    requires forall i :: 0 <= i < |reg.units| ==>
      RequirementTargets(declared, i) == RequirementTargets(reg, i) + if target in reg.byName && i == reg.byName[target] then U else {}
    ensures RequirementEdges(declared) == RequirementEdges(reg) + LateEdges(reg.byName, target, U)
  {
    hide RequirementTargets;
    forall e ensures e in RequirementEdges(declared) <==> e in RequirementEdges(reg) + LateEdges(reg.byName, target, U) {}
  }

  /** An edge added to a registry that already plans as its files say, gives every plan
      that the files would give had the unit declared `wanted-by = [target]` itself; and
      the result again plans as those files say, so this holds for any number of edges. */
  lemma AddWantedByAsDeclared(reg: UnitTable, base: UnitTable, declared: UnitTable, target: string, unit: string, name: string)
    requires WellFormed(reg) && IsLoaded(base, base.units) && IsLoaded(declared, declared.units)
    requires SameOrdering(reg, base) && RequirementEdges(reg) == RequirementEdges(base)
    requires target in reg.byName && unit in reg.byName
    requires DeclaredBy(base.units, declared.units, {reg.byName[unit]}, target)
    ensures var r := AddWantedBy(reg, target, unit);
      && r.Added? && WellFormed(r.reg) && WellFormed(declared)
      && SameOrdering(r.reg, declared) && RequirementEdges(r.reg) == RequirementEdges(declared)
      && StartPlan(r.reg, name) == StartPlan(declared, name) && StopPlan(r.reg, name) == StopPlan(declared, name)
  {
    hide OrderedBefore, RequirementEdges, StartPlan, StopPlan, IsLoaded, DeclaredBy, WellFormed;
    NamedUnitExists(reg, unit);
    AddWantedByEdges(reg, target, unit);
    DeclaredEdges(base, declared, target, {reg.byName[unit]});
    OneLateEdge(reg.byName, target, reg.byName[unit]);
    var r := AddWantedBy(reg, target, unit).reg;
    SameOrderingTrans(r, reg, base);
    SameOrderingTrans(r, base, declared);
    SameEdgesSamePlans(r, declared, name);
  }

  lemma OneLateEdge(byName: map<string, UnitId>, target: string, u: UnitId)
    requires target in byName
    ensures LateEdges(byName, target, {u}) == {(byName[target], u)}
  {
  }

  lemma SameOrderingTrans(a: UnitTable, b: UnitTable, c: UnitTable)
    requires (SameOrdering(a, b) || SameOrdering(b, a)) && SameOrdering(b, c)
    ensures SameOrdering(a, c)
  {
    hide OrderedBefore;
  }
}
