/** The directory of opt-in stubs: what enabling and disabling do to it, what loading
    reads from it, and what a restart makes of it. */
module Enablement {
  import opened Config
  import opened Digraph
  import opened Registry
  import opened Install
  import opened Supervisor
  import opened Runs

  /** A directory entry: a file whose TOML names a unit, one that does not parse, or
      something that is not a file. */
  datatype Entry = Stub(unit: string) | Broken | NotAFile

  type Directory = map<string, Entry>

  const SUFFIX: string := ".toml"

  function StubName(unit: string): string {
    unit + SUFFIX
  }

  /** `path.extension() == "toml"`: a name that is only ".toml" has no extension. */
  predicate IsToml(name: string) {
    EndsWith(name, SUFFIX) && |name| > |SUFFIX|
  }

  /** Some stub that loading reads names this unit. */
  ghost predicate Listed(d: Directory, unit: string) {
    exists n :: n in d && IsToml(n) && d[n] == Stub(unit)
  }

  // ---------- The order of names ----------

  /** The order of strings: by code point, shorter first. */
  predicate Less(a: string, b: string) {
    if b == [] then false
    else if a == [] then true
    else a[0] < b[0] || (a[0] == b[0] && Less(a[1..], b[1..]))
  }

  lemma {:induction false} LessIsTotal(a: string, b: string)
    ensures Less(a, b) || a == b || Less(b, a)
    ensures !(Less(a, b) && Less(b, a)) && !Less(a, a)
  {
    if a != [] && b != [] {
      LessIsTotal(a[1..], b[1..]);
      LessIsTotal(a[1..], a[1..]);
      assert a == [a[0]] + a[1..] && b == [b[0]] + b[1..];
    } else if a != [] {
      LessIsTotal(a[1..], a[1..]);
    }
  }

  lemma {:induction false} LessIsTransitive(a: string, b: string, c: string)
    requires Less(a, b) && Less(b, c)
    ensures Less(a, c)
  {
    if a != [] && a[0] == b[0] == c[0] { LessIsTransitive(a[1..], b[1..], c[1..]); }
  }

  ghost predicate Sorted(names: seq<string>) {
    forall i, j :: 0 <= i < j < |names| ==> !Less(names[j], names[i])
  }

  /** Sorted and without duplicates. */
  ghost predicate StrictlySorted(names: seq<string>) {
    forall i, j :: 0 <= i < j < |names| ==> Less(names[i], names[j])
  }

  function InsertName(x: string, names: seq<string>): (r: seq<string>)
    ensures forall y :: y in r <==> y == x || y in names
  {
    if names == [] then [x]
    else
      assert names == [names[0]] + names[1..];
      if Less(names[0], x) then [names[0]] + InsertName(x, names[1..]) else [x] + names
  }

  function SortNames(names: seq<string>): (r: seq<string>)
    ensures forall y :: y in r <==> y in names
  {
    if names == [] then []
    else
      assert names == [names[0]] + names[1..];
      InsertName(names[0], SortNames(names[1..]))
  }

  function DedupNames(names: seq<string>): (r: seq<string>)
    ensures forall y :: y in r <==> y in names
  {
    if |names| < 2 then names
    else
      assert names == [names[0]] + names[1..];
      if names[0] == names[1] then DedupNames(names[1..]) else [names[0]] + DedupNames(names[1..])
  }

  lemma SortedCons(x: string, names: seq<string>)
    requires Sorted(names) && forall y :: y in names ==> !Less(y, x)
    ensures Sorted([x] + names)
  {
  }

  lemma SortedHead(names: seq<string>)
    requires names != [] && Sorted(names)
    ensures Sorted(names[1..]) && forall y :: y in names[1..] ==> !Less(y, names[0])
  {
  }

  lemma {:induction false} InsertSorted(x: string, names: seq<string>)
    requires Sorted(names)
    ensures Sorted(InsertName(x, names))
  {
    if names != [] {
      SortedHead(names);
      if Less(names[0], x) {
        InsertSorted(x, names[1..]);
        LessIsTotal(names[0], x);
        SortedCons(names[0], InsertName(x, names[1..]));
      } else {
        forall y | y in names ensures !Less(y, x) {
          if Less(y, x) && y != names[0] {
            LessIsTotal(names[0], x);
            LessIsTotal(y, names[0]);
            if names[0] != x { LessIsTransitive(y, x, names[0]); }
          }
        }
        SortedCons(x, names);
      }
    }
  }

  lemma {:induction false} SortNamesSorts(names: seq<string>)
    ensures Sorted(SortNames(names))
  {
    if names != [] {
      SortNamesSorts(names[1..]);
      InsertSorted(names[0], SortNames(names[1..]));
    }
  }

  lemma {:induction false} DedupStrict(names: seq<string>)
    requires Sorted(names)
    ensures StrictlySorted(DedupNames(names))
  {
    if |names| >= 2 {
      SortedHead(names);
      DedupStrict(names[1..]);
      if names[0] != names[1] {
        forall y | y in DedupNames(names[1..]) ensures Less(names[0], y) {
          LessIsTotal(names[0], names[1]);
          if y != names[1] {
            SortedHead(names[1..]);
            assert names[1..] == [names[1]] + names[1..][1..];
            LessIsTotal(names[1], y);
            LessIsTransitive(names[0], names[1], y);
          }
        }
      }
    }
  }

  lemma HeadIsLeast(a: seq<string>)
    requires StrictlySorted(a) && a != []
    ensures a[0] !in a[1..]
  {
    LessIsTotal(a[0], a[0]);
    assert forall i :: 0 <= i < |a[1..]| ==> a[1..][i] == a[i + 1] && Less(a[0], a[i + 1]);
  }

  /** The sorted, duplicate-free list of a set of names is unique. */
  lemma {:induction false} StrictlySortedIsUnique(a: seq<string>, b: seq<string>)
    requires StrictlySorted(a) && StrictlySorted(b) && forall x :: x in a <==> x in b
    ensures a == b
  {
    if a == [] {
      assert forall i :: 0 <= i < |b| ==> b[i] in b;
    } else {
      assert a[0] in b && b[0] in a;
      LessIsTotal(a[0], b[0]);
      assert a[0] == b[0];
      assert a == [a[0]] + a[1..] && b == [b[0]] + b[1..];
      HeadIsLeast(a);
      HeadIsLeast(b);
      assert forall x :: (x in a <==> x == a[0] || x in a[1..]) && (x in b <==> x == b[0] || x in b[1..]);
      StrictlySortedIsUnique(a[1..], b[1..]);
    }
  }

  // ---------- Changing the directory ----------

  datatype Change = SwitchOn(unit: string) | SwitchOff(unit: string)

  /** A unit name that `enable` can write into a stub: not empty, and no character with a
      meaning in a TOML string or a path. */
  predicate PlainName(unit: string) {
    unit != [] && forall c :: c in unit ==> c != '"' && c != '\\' && c != '/' && c > ' '
  }

  /** Writing or removing fails only on something that is not a file. */
  predicate Succeeds(d: Directory, c: Change) {
    StubName(c.unit) in d ==> d[StubName(c.unit)] != NotAFile
  }

  function Apply(d: Directory, c: Change): Directory {
    match c
    case SwitchOn(u) => d[StubName(u) := Stub(u)]
    case SwitchOff(u) => d - {StubName(u)}
  }

  function ApplyAll(d: Directory, changes: seq<Change>): Directory
    decreases |changes|
  {
    if changes == [] then d else ApplyAll(Apply(d, changes[0]), changes[1..])
  }

  predicate AllSucceed(d: Directory, changes: seq<Change>)
    decreases |changes|
  {
    changes == [] || (PlainName(changes[0].unit) && Succeeds(d, changes[0]) && AllSucceed(Apply(d, changes[0]), changes[1..]))
  }

  /** Every stub is filed under the name of its unit. */
  ghost predicate Matching(d: Directory) {
    forall n :: n in d && IsToml(n) && d[n].Stub? ==> n == StubName(d[n].unit)
  }

  /** The last change made to a unit, if any: true for enabling. */
  function LastChange(changes: seq<Change>, u: string): Option<bool> {
    if changes == [] then None
    else
      var last := changes[|changes| - 1];
      if last.unit == u then Some(last.SwitchOn?) else LastChange(changes[..|changes| - 1], u)
  }

  lemma StubNames(u: string, v: string)
    ensures StubName(u) == StubName(v) ==> u == v
    ensures u != [] ==> IsToml(StubName(u))
  {
    assert StubName(u)[..|StubName(u)| - |SUFFIX|] == u && StubName(v)[..|StubName(v)| - |SUFFIX|] == v;
  }

  lemma ListedByOwnStub(d: Directory, u: string)
    requires Matching(d) && u != []
    ensures Listed(d, u) <==> StubName(u) in d && d[StubName(u)] == Stub(u)
  {
    StubNames(u, u);
  }

  lemma ApplyFacts(d: Directory, c: Change, u: string)
    requires Matching(d) && c.unit != [] && u != []
    ensures Matching(Apply(d, c))
    ensures Listed(Apply(d, c), u) <==> if u == c.unit then c.SwitchOn? else Listed(d, u)
  {
    var r := Apply(d, c);
    forall n | n in r && IsToml(n) && r[n].Stub? ensures n == StubName(r[n].unit) {
      if n != StubName(c.unit) { assert n in d; }
    }
    ListedByOwnStub(d, u);
    ListedByOwnStub(r, u);
    StubNames(u, c.unit);
  }

  lemma {:induction false} ApplyAllConcat(d: Directory, a: seq<Change>, c: Change)
    ensures ApplyAll(d, a + [c]) == Apply(ApplyAll(d, a), c)
    ensures AllSucceed(d, a + [c]) <==> AllSucceed(d, a) && PlainName(c.unit) && Succeeds(ApplyAll(d, a), c)
    decreases |a|
  {
    if a == [] {
      assert a + [c] == [c] && [c][1..] == [];
      assert ApplyAll(Apply(d, c), []) == Apply(d, c);
    } else {
      assert (a + [c])[1..] == a[1..] + [c];
      ApplyAllConcat(Apply(d, a[0]), a[1..], c);
    }
  }

  /** After any sequence of successful changes exactly those units are listed whose last
      change enabled them, or that were listed before and never changed. */
  lemma {:induction false} LastChangeDecides(d: Directory, changes: seq<Change>, u: string)
    requires Matching(d) && AllSucceed(d, changes) && u != []
    ensures Matching(ApplyAll(d, changes))
    ensures Listed(ApplyAll(d, changes), u) <==>
      match LastChange(changes, u) { case Some(on) => on case None => Listed(d, u) }
    decreases |changes|
  {
    if changes != [] {
      var front, last := changes[..|changes| - 1], changes[|changes| - 1];
      assert changes == front + [last];
      ApplyAllConcat(d, front, last);
      LastChangeDecides(d, front, u);
      ApplyFacts(ApplyAll(d, front), last, u);
    }
  }

  // ---------- The directory as an object ----------

  /** What became of a write: complete, not begun, or cut short with this left behind. */
  datatype WriteIo = Written | NotOpened | CutShort(left: Entry)

  class EnabledDirectory {
    var entries: Option<Directory>

    /** A directory that does not exist lists nothing. */
    ghost function Contents(): Directory
      reads this
    {
      if entries.Some? then entries.value else map[]
    }

    /** `load`: the units of the stubs, in whatever order the directory yields them,
        sorted and without duplicates. */
    method Load() returns (out: seq<string>)
      ensures StrictlySorted(out) && forall u :: u in out <==> Listed(Contents(), u)
    {
      out := [];
      if entries.None? {
        return;
      }
      var d := entries.value;
      var left := d.Keys;
      while left != {}
        invariant left <= d.Keys
        invariant forall u :: u in out <==> exists n :: n in d && n !in left && IsToml(n) && d[n] == Stub(u)
        decreases |left|
      {
        var name :| name in left;
        ghost var before, leftBefore := out, left;
        left := left - {name};
        if IsToml(name) && d[name].Stub? {
          out := out + [d[name].unit];
        }
        PushedStub(d, leftBefore, left, name, before, out);
      }
      SortNamesSorts(out);
      DedupStrict(SortNames(out));
      out := DedupNames(SortNames(out));
    }

    /** `enable`: writes the stub. A write that fails may leave what was there or, once the
        file was truncated, a stub that does not parse or one that lacks only its end. */
    method Enable(unit: string, io: WriteIo) returns (written: bool)
      requires PlainName(unit) && (io.CutShort? ==> io.left == Broken || io.left == Stub(unit))
      modifies this
      ensures written == (Succeeds(old(Contents()), SwitchOn(unit)) && io.Written?)
      ensures written ==> Contents() == Apply(old(Contents()), SwitchOn(unit))
      ensures !written && (io.CutShort? ==> !Succeeds(old(Contents()), SwitchOn(unit))) ==> Contents() == old(Contents())
      ensures !written && io.CutShort? && Succeeds(old(Contents()), SwitchOn(unit)) ==> Contents() == old(Contents())[StubName(unit) := io.left]
    {
      var d: Directory := if entries.Some? then entries.value else map[];
      if StubName(unit) in d && d[StubName(unit)].NotAFile? {
        return false;
      }
      match io {
        case NotOpened =>
          return false;
        case CutShort(left) =>
          entries := Some(d[StubName(unit) := left]);
          return false;
        case Written =>
          entries := Some(d[StubName(unit) := Stub(unit)]);
          return true;
      }
    }

    /** `disable`: removes the stub and says whether there was one; None is an error, after
        which it is still there. */
    method Disable(unit: string, ioFails: bool) returns (removed: Option<bool>)
      requires PlainName(unit)
      modifies this
      ensures removed.None? <==> StubName(unit) in old(Contents()) && (ioFails || !Succeeds(old(Contents()), SwitchOff(unit)))
      ensures removed.Some? ==> Contents() == Apply(old(Contents()), SwitchOff(unit)) && removed.value == (StubName(unit) in old(Contents()))
      ensures removed.None? ==> Contents() == old(Contents())
    {
      if entries.None? || StubName(unit) !in entries.value {
        assert Contents() - {StubName(unit)} == Contents();
        return Some(false);
      }
      if ioFails || entries.value[StubName(unit)].NotAFile? {
        return None;
      }
      entries := Some(entries.value - {StubName(unit)});
      return Some(true);
    }
  }

  lemma PushedStub(d: Directory, left: set<string>, rest: set<string>, name: string, before: seq<string>, after: seq<string>)
    requires name in left && left <= d.Keys && rest == left - {name}
    requires forall u :: u in before <==> exists n :: n in d && n !in left && IsToml(n) && d[n] == Stub(u)
    requires after == if IsToml(name) && d[name].Stub? then before + [d[name].unit] else before
    ensures forall u :: u in after <==> exists n :: n in d && n !in rest && IsToml(n) && d[n] == Stub(u)
  {
    forall u ensures u in after <==> exists n :: n in d && n !in rest && IsToml(n) && d[n] == Stub(u) {
      if u in after && u !in before { assert name in d && name !in rest && d[name] == Stub(u); }
    }
  }

  // ---------- What a restart makes of it ----------

  /** The boot's loop over the loaded names; unknown units are skipped. */
  function Inject(reg: UnitTable, names: seq<string>): UnitTable
    decreases |names|
  {
    if names == [] then reg
    else
      var r := AddWantedBy(reg, MULTI_USER, names[0]);
      Inject(if r.Added? then r.reg else reg, names[1..])
  }

  ghost function WantedEdges(reg: UnitTable, names: seq<string>): Edges {
    if MULTI_USER !in reg.byName then {}
    else set n | n in names && n in reg.byName :: (reg.byName[MULTI_USER], reg.byName[n])
  }

  lemma {:induction false} InjectAddsEdges(reg: UnitTable, names: seq<string>)
    requires WellFormed(reg)
    ensures var r := Inject(reg, names);
      WellFormed(r) && SameOrdering(reg, r) && RequirementEdges(r) == RequirementEdges(reg) + WantedEdges(reg, names)
    decreases |names|
  {
    hide WellFormed, RequirementEdges;
    if names != [] {
      var added := AddWantedBy(reg, MULTI_USER, names[0]);
      var next := if added.Added? then added.reg else reg;
      if added.Added? { AddWantedByEdges(reg, MULTI_USER, names[0]); }
      InjectAddsEdges(next, names[1..]);
      assert names == [names[0]] + names[1..];
      var e := WantedEdges(reg, names);
      assert e == WantedEdges(next, names[1..]) + if added.Added? then {(reg.byName[MULTI_USER], reg.byName[names[0]])} else {};
    }
  }

  /** After a restart with the target loaded, its closure is that of the unit files plus
      exactly one edge for each known unit whose last change enabled it. */
  lemma RestartClosure(reg: UnitTable, d: Directory, changes: seq<Change>, names: seq<string>)
    requires WellFormed(reg) && MULTI_USER in reg.byName && Matching(d) && AllSucceed(d, changes)
    requires forall u :: u in names <==> Listed(ApplyAll(d, changes), u)
    ensures var t := reg.byName[MULTI_USER];
      StartClosure(Inject(reg, names), t) == Closure(RequirementEdges(reg) + WantedEdges(reg, names), t)
    ensures forall u :: u in reg.byName && u != "" ==>
      ((reg.byName[MULTI_USER], reg.byName[u]) in WantedEdges(reg, names) <==>
        match LastChange(changes, u) { case Some(on) => on case None => Listed(d, u) })
  {
    hide RequirementEdges, Closure, Listed, LastChange;
    InjectAddsEdges(reg, names);
    forall u | u in reg.byName && u != ""
      ensures (reg.byName[MULTI_USER], reg.byName[u]) in WantedEdges(reg, names) <==>
        match LastChange(changes, u) { case Some(on) => on case None => Listed(d, u) }
    {
      LastChangeDecides(d, changes, u);
      SameIdSameName(reg, u);
    }
  }

  /** The known units among the names. */
  ghost function Known(reg: UnitTable, names: seq<string>): set<UnitId> {
    set n | n in names && n in reg.byName :: reg.byName[n]
  }

  /** The boot's loop over any number of names gives the plans that the unit files would
      give had each named unit declared `wanted-by = ["multi-user.target"]` itself. */
  lemma InjectAsDeclared(reg: UnitTable, declared: UnitTable, names: seq<string>, name: string)
    requires IsLoaded(reg, reg.units) && IsLoaded(declared, declared.units)
    requires DeclaredBy(reg.units, declared.units, Known(reg, names), MULTI_USER)
    ensures var r := Inject(reg, names);
      && WellFormed(r) && WellFormed(declared)
      && StartPlan(r, name) == StartPlan(declared, name) && StopPlan(r, name) == StopPlan(declared, name)
  {
    hide OrderedBefore, RequirementEdges, StartPlan, StopPlan, DeclaredBy, WellFormed, Inject;
    LoadedIsWellFormed(reg, reg.units);
    forall u | u in Known(reg, names) ensures u < |reg.units| {
      var n :| n in names && n in reg.byName && reg.byName[n] == u;
      NamedUnitExists(reg, n);
    }
    DeclaredEdges(reg, declared, MULTI_USER, Known(reg, names));
    InjectAddsEdges(reg, names);
    assert WantedEdges(reg, names) == LateEdges(reg.byName, MULTI_USER, Known(reg, names));
    var r := Inject(reg, names);
    SameOrderingTrans(r, reg, declared);
    SameEdgesSamePlans(r, declared, name);
  }

  lemma SameIdSameName(reg: UnitTable, u: string)
    requires WellFormed(reg) && u in reg.byName
    ensures forall v :: v in reg.byName && reg.byName[v] == reg.byName[u] ==> v == u
  {
  }

  lemma OnThenOff(d: Directory, name: string)
    requires Matching(d) && name != []
    ensures !Listed(ApplyAll(d, [SwitchOn(name), SwitchOff(name)]), name)
  {
    hide Listed, Matching, Apply;
    var d1 := Apply(d, SwitchOn(name));
    ApplyFacts(d, SwitchOn(name), name);
    ApplyFacts(d1, SwitchOff(name), name);
    assert [SwitchOn(name), SwitchOff(name)][1..] == [SwitchOff(name)] && [SwitchOff(name)][1..] == [];
    assert ApplyAll(Apply(d1, SwitchOff(name)), []) == Apply(d1, SwitchOff(name));
    assert ApplyAll(d1, [SwitchOff(name)]) == Apply(d1, SwitchOff(name));
  }

  /** DISABLE does not undo ENABLE in the running supervisor: the edge that ENABLE added
      is still there afterwards, although the stub is gone and a restart forgets it. */
  lemma DisableKeepsEdge(s: Sup, name: string, d: Directory)
    requires Shaped(s) && EnabledRegistry(s.reg, name, Complete).Some? && Matching(d) && PlainName(name)
    ensures var r := Step(Step(s, Enable(name, Complete)), Disable(name));
      (s.reg.byName[MULTI_USER], s.reg.byName[name]) in RequirementEdges(r.reg)
    ensures !Listed(ApplyAll(d, [SwitchOn(name), SwitchOff(name)]), name)
  {
    hide RequirementEdges, Listed, StartNamed, StopUnit, WellFormed, Matching, Apply;
    EnabledRegistryShaped(s, name, Complete);
    assert WellFormed(s.reg) by { ShapedReg(s); }
    AddWantedByEdges(s.reg, MULTI_USER, name);
    OnThenOff(d, name);
  }

  lemma ShapedReg(s: Sup)
    requires Shaped(s)
    ensures WellFormed(s.reg)
  {
  }
}
