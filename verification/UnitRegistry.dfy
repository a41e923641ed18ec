/** The registry object: loading, lifting, and the loops that build start and stop
    transactions. Each is proved to compute the plan of module Registry, whatever order
    the hash sets and maps are iterated in. */
module UnitRegistries {
  import opened Config
  import opened Sequences
  import opened Digraph
  import opened Registry
  import opened Install

  datatype JobKind = StartJob | StopJob | RestartJob | ReloadJob

  datatype JobState = Waiting | Running | Finished

  datatype Job = Job(unit: UnitId, kind: JobKind, state: JobState)

  datatype TransactionError =
    | UnknownUnit(name: string)
    | RequirementCycle(names: seq<string>)
    | OrderingCycle(names: seq<string>)

  datatype Result<+T, +E> = Ok(value: T) | Err(error: E)

  function StartJobs(order: seq<UnitId>): (jobs: seq<Job>)
    ensures |jobs| == |order| && forall i :: 0 <= i < |order| ==> jobs[i] == Job(order[i], StartJob, Waiting)
  {
    seq(|order|, i requires 0 <= i < |order| => Job(order[i], StartJob, Waiting))
  }

  /** `names` lists, in some order and once each, the names of the units in S. */
  ghost predicate NamesOf(reg: UnitTable, names: seq<string>, S: set<UnitId>)
    requires Within(reg, S)
  {
    exists ids: seq<UnitId> :: Enumerates(ids, S) && |names| == |ids| &&
      forall i :: 0 <= i < |ids| ==> ids[i] in S && names[i] == reg.units[ids[i]].name
  }

  ghost predicate Enumerates(ids: seq<UnitId>, S: set<UnitId>) {
    NoDup(ids) && ToSet(ids) == S
  }

  // ---------- The ordering multigraph and its in-degrees ----------

  /** The edges into v, each named by its source and its place in that source's list,
      that still count: those from nodes outside `done`, and of the edges from `u` only
      the ones from place k on. */
  ghost function Pending(S: set<UnitId>, orderOut: map<UnitId, seq<UnitId>>, v: UnitId, done: set<UnitId>, u: UnitId, k: nat): set<(UnitId, nat)> {
    set x, i | x in S && x !in done && 0 <= i < |Extra(orderOut, x)| && Extra(orderOut, x)[i] == v && (x == u ==> k <= i) :: (x, i)
  }

  /** `orderOut` holds the edges G, repetitions included. */
  ghost predicate Lists(S: set<UnitId>, G: Edges, orderOut: map<UnitId, seq<UnitId>>) {
    && Over(G, S)
    && forall u: UnitId, v: UnitId :: v in Extra(orderOut, u) <==> (u, v) in G
  }

  /** `inDegree` counts the edges that still matter. */
  ghost predicate Counted(S: set<UnitId>, orderOut: map<UnitId, seq<UnitId>>, inDegree: map<UnitId, nat>,
    done: set<UnitId>, u: UnitId, k: nat)
  {
    inDegree.Keys == S && forall v :: v in S ==> inDegree[v] == |Pending(S, orderOut, v, done, u, k)|
  }

  lemma NoneLeft(S: set<UnitId>, G: Edges, orderOut: map<UnitId, seq<UnitId>>, inDegree: map<UnitId, nat>, done: seq<UnitId>)
    requires Lists(S, G, orderOut) && Counted(S, orderOut, inDegree, ToSet(done), 0, 0)
    ensures Over(G, S) && forall v :: v in S ==> (inDegree[v] == 0 <==> AllBefore(G, v, done))
  {
    forall v | v in S ensures inDegree[v] == 0 <==> AllBefore(G, v, done) {
      var P := Pending(S, orderOut, v, ToSet(done), 0, 0);
      if inDegree[v] == 0 {
        forall e | e in G && e.1 == v ensures e.0 in done {
          assert v in Extra(orderOut, e.0);
          var i :| 0 <= i < |Extra(orderOut, e.0)| && Extra(orderOut, e.0)[i] == v;
          assert (e.0, i) !in P;
        }
      } else {
        assert P != {};
        var t :| t in P;
        assert v in Extra(orderOut, t.0);
        var e := (t.0, v);
        assert e in G && e.1 == v && e.0 !in done;
      }
    }
  }

  function Push(orderOut: map<UnitId, seq<UnitId>>, x: UnitId, y: UnitId): map<UnitId, seq<UnitId>> {
    orderOut[x := Extra(orderOut, x) + [y]]
  }

  lemma PushOut(orderOut: map<UnitId, seq<UnitId>>, x: UnitId, y: UnitId, u: UnitId)
    ensures Extra(Push(orderOut, x, y), u) == Extra(orderOut, u) + if u == x then [y] else []
    ensures forall v :: v in Extra(Push(orderOut, x, y), u) <==> v in Extra(orderOut, u) || (u == x && v == y)
  {
  }

  lemma PushLists(S: set<UnitId>, G: Edges, orderOut: map<UnitId, seq<UnitId>>, x: UnitId, y: UnitId)
    requires x in S && y in S && Lists(S, G, orderOut)
    ensures Lists(S, G + {(x, y)}, Push(orderOut, x, y))
  {
    forall u: UnitId, v: UnitId ensures v in Extra(Push(orderOut, x, y), u) <==> (u, v) in G + {(x, y)} {
      PushOut(orderOut, x, y, u);
    }
  }

  lemma PushPending(S: set<UnitId>, orderOut: map<UnitId, seq<UnitId>>, x: UnitId, y: UnitId, v: UnitId)
    requires x in S
    ensures Pending(S, Push(orderOut, x, y), v, {}, 0, 0)
      == Pending(S, orderOut, v, {}, 0, 0) + if v == y then {(x, |Extra(orderOut, x)|)} else {}
  {
    forall u { PushOut(orderOut, x, y, u); }
  }

  /** `order_out.entry(x).or_default().push(y); order_in_degree[y] += 1` */
  method AddEdge(S: set<UnitId>, orderOut: map<UnitId, seq<UnitId>>, inDegree: map<UnitId, nat>, x: UnitId, y: UnitId, ghost G: Edges)
    returns (orderOut': map<UnitId, seq<UnitId>>, inDegree': map<UnitId, nat>)
    requires x in S && y in S && Lists(S, G, orderOut) && Counted(S, orderOut, inDegree, {}, 0, 0)
    ensures Lists(S, G + {(x, y)}, orderOut') && Counted(S, orderOut', inDegree', {}, 0, 0)
  {
    hide Lists;
    orderOut' := Push(orderOut, x, y);
    inDegree' := inDegree[y := inDegree[y] + 1];
    PushLists(S, G, orderOut, x, y);
    forall v | v in S ensures inDegree'[v] == |Pending(S, orderOut', v, {}, 0, 0)| {
      PushPending(S, orderOut, x, y, v);
    }
  }

  ghost function AfterEdges(reg: UnitTable, S: set<UnitId>, id: UnitId, names: seq<string>): Edges {
    set x | x in S && x in Resolve(reg.byName, names) :: (x, id)
  }

  ghost function BeforeEdges(reg: UnitTable, S: set<UnitId>, id: UnitId, names: seq<string>): Edges {
    set y | y in S && y in Resolve(reg.byName, names) :: (id, y)
  }

  /** The ordering edges the units in `part` contribute. */
  ghost function EdgesFrom(reg: UnitTable, S: set<UnitId>, part: set<UnitId>): Edges
    requires Within(reg, part)
  {
    set x, y | x in S && y in S &&
      (|| (y in part && x in Resolve(reg.byName, reg.units[y].file.unit.after))
       || (x in part && y in Resolve(reg.byName, reg.units[x].file.unit.before))) :: (x, y)
  }

  lemma EdgesFromAll(reg: UnitTable, S: set<UnitId>)
    requires Within(reg, S)
    ensures EdgesFrom(reg, S, S) == OrderEdges(reg, S)
  {
  }

  lemma EdgesFromGrows(reg: UnitTable, S: set<UnitId>, part: set<UnitId>, id: UnitId)
    requires Within(reg, part) && id < |reg.units| && id in S
    ensures EdgesFrom(reg, S, part + {id}) == EdgesFrom(reg, S, part)
      + AfterEdges(reg, S, id, reg.units[id].file.unit.after) + BeforeEdges(reg, S, id, reg.units[id].file.unit.before)
  {
  }

  lemma ResolvePush(byName: map<string, UnitId>, names: seq<string>, n: string)
    ensures Resolve(byName, names + [n]) == Resolve(byName, names) + if n in byName then {byName[n]} else {}
  {
    ResolveConcat(byName, names, [n]);
    assert Resolve(byName, [n]) == if n in byName then {byName[n]} else {};
  }

  lemma AfterEdgesPush(reg: UnitTable, S: set<UnitId>, id: UnitId, names: seq<string>, k: nat, G0: Edges)
    requires k < |names|
    ensures var before, after := G0 + AfterEdges(reg, S, id, names[..k]), G0 + AfterEdges(reg, S, id, names[..k + 1]);
      if names[k] in reg.byName && reg.byName[names[k]] in S then after == before + {(reg.byName[names[k]], id)} else after == before
  {
    assert names[..k + 1] == names[..k] + [names[k]];
    ResolvePush(reg.byName, names[..k], names[k]);
  }

  lemma BeforeEdgesPush(reg: UnitTable, S: set<UnitId>, id: UnitId, names: seq<string>, k: nat, G0: Edges)
    requires k < |names|
    ensures var before, after := G0 + BeforeEdges(reg, S, id, names[..k]), G0 + BeforeEdges(reg, S, id, names[..k + 1]);
      if names[k] in reg.byName && reg.byName[names[k]] in S then after == before + {(id, reg.byName[names[k]])} else after == before
  {
    assert names[..k + 1] == names[..k] + [names[k]];
    ResolvePush(reg.byName, names[..k], names[k]);
  }

  method AddAfterEdges(byName: map<string, UnitId>, S: set<UnitId>, id: UnitId, after: seq<string>,
    orderOut0: map<UnitId, seq<UnitId>>, inDegree0: map<UnitId, nat>, ghost reg: UnitTable, ghost G0: Edges)
    returns (orderOut: map<UnitId, seq<UnitId>>, inDegree: map<UnitId, nat>)
    requires reg.byName == byName && id in S && Lists(S, G0, orderOut0) && Counted(S, orderOut0, inDegree0, {}, 0, 0)
    ensures Lists(S, G0 + AfterEdges(reg, S, id, after), orderOut) && Counted(S, orderOut, inDegree, {}, 0, 0)
  {
    hide Counted;
    hide Lists;
    orderOut, inDegree := orderOut0, inDegree0;
    ghost var G := G0;
    var k := 0;
    assert AfterEdges(reg, S, id, after[..0]) == {};
    while k < |after|
      invariant k <= |after| && G == G0 + AfterEdges(reg, S, id, after[..k])
      invariant Lists(S, G, orderOut) && Counted(S, orderOut, inDegree, {}, 0, 0)
    {
      AfterEdgesPush(reg, S, id, after, k, G0);
      if after[k] in byName && byName[after[k]] in S {
        orderOut, inDegree := AddEdge(S, orderOut, inDegree, byName[after[k]], id, G);
        G := G + {(byName[after[k]], id)};
      }
      k := k + 1;
    }
    assert after[..k] == after;
  }

  method AddBeforeEdges(byName: map<string, UnitId>, S: set<UnitId>, id: UnitId, before: seq<string>,
    orderOut0: map<UnitId, seq<UnitId>>, inDegree0: map<UnitId, nat>, ghost reg: UnitTable, ghost G0: Edges)
    returns (orderOut: map<UnitId, seq<UnitId>>, inDegree: map<UnitId, nat>)
    requires reg.byName == byName && id in S && Lists(S, G0, orderOut0) && Counted(S, orderOut0, inDegree0, {}, 0, 0)
    ensures Lists(S, G0 + BeforeEdges(reg, S, id, before), orderOut) && Counted(S, orderOut, inDegree, {}, 0, 0)
  {
    hide Counted;
    hide Lists;
    orderOut, inDegree := orderOut0, inDegree0;
    ghost var G := G0;
    var k := 0;
    assert BeforeEdges(reg, S, id, before[..0]) == {};
    while k < |before|
      invariant k <= |before| && G == G0 + BeforeEdges(reg, S, id, before[..k])
      invariant Lists(S, G, orderOut) && Counted(S, orderOut, inDegree, {}, 0, 0)
    {
      BeforeEdgesPush(reg, S, id, before, k, G0);
      if before[k] in byName && byName[before[k]] in S {
        orderOut, inDegree := AddEdge(S, orderOut, inDegree, id, byName[before[k]], G);
        G := G + {(id, byName[before[k]])};
      }
      k := k + 1;
    }
    assert before[..k] == before;
  }

  method OrderingEdges(byName: map<string, UnitId>, units: seq<LoadedUnit>, S: set<UnitId>, ghost reg: UnitTable)
    returns (orderOut: map<UnitId, seq<UnitId>>, inDegree: map<UnitId, nat>)
    requires reg.byName == byName && reg.units == units && Within(reg, S)
    ensures Lists(S, OrderEdges(reg, S), orderOut) && Counted(S, orderOut, inDegree, {}, 0, 0)
  {
    orderOut := map[];
    inDegree := map id | id in S :: 0;
    assert forall v :: Pending(S, orderOut, v, {}, 0, 0) == {};
    var todo := S;
    ghost var G := {};
    assert EdgesFrom(reg, S, S - todo) == {};
    while todo != {}
      invariant todo <= S && G == EdgesFrom(reg, S, S - todo)
      invariant Lists(S, G, orderOut) && Counted(S, orderOut, inDegree, {}, 0, 0)
      decreases todo
    {
      var id :| id in todo;
      var after, before := units[id].file.unit.after, units[id].file.unit.before;
      orderOut, inDegree := AddAfterEdges(byName, S, id, after, orderOut, inDegree, reg, G);
      orderOut, inDegree := AddBeforeEdges(byName, S, id, before, orderOut, inDegree, reg, G + AfterEdges(reg, S, id, after));
      EdgesFromGrows(reg, S, S - todo, id);
      PeelOne(S, todo, id);
      G := G + AfterEdges(reg, S, id, after) + BeforeEdges(reg, S, id, before);
      todo := todo - {id};
    }
    assert S - todo == S;
    EdgesFromAll(reg, S);
  }

  // ---------- Kahn's algorithm ----------

  /** Copies a hash set into a vector in whatever order it iterates, then sorts. */
  method CollectSorted(S: set<UnitId>) returns (r: seq<UnitId>)
    ensures r == Listing(S)
  {
    var v: seq<UnitId> := [];
    var todo := S;
    while todo != {}
      invariant todo <= S && NoDup(v) && ToSet(v) == S - todo
      decreases todo
    {
      var x :| x in todo;
      assert x !in ToSet(v);
      PushDistinct(v, x);
      v := v + [x];
      todo := todo - {x};
    }
    assert ToSet(v) == S;
    r := Sort(v);
    SortedListing(v);
  }

  lemma SortedListing(v: seq<UnitId>)
    requires NoDup(v)
    ensures Sort(v) == Listing(ToSet(v))
  {
    var r := Sort(v);
    assert forall x :: x in r <==> x in multiset(r);
    assert ToSet(r) == ToSet(v);
    SortKeepsDistinct(v);
    AscendingUnique(r, Listing(ToSet(v)));
  }

  lemma SortKeepsDistinct(v: seq<UnitId>)
    requires NoDup(v)
    ensures StrictlyAscending(Sort(v))
  {
    var r := Sort(v);
    forall i, j | 0 <= i < j < |r| ensures r[i] < r[j] {
      if r[i] == r[j] {
        TwiceInMultiset(r, i, j);
        DistinctOnce(v, r[i]);
        assert false;
      }
    }
  }

  lemma TwiceInMultiset(r: seq<UnitId>, i: nat, j: nat)
    requires i < j < |r| && r[i] == r[j]
    ensures multiset(r)[r[i]] >= 2
  {
    assert r == r[..i] + [r[i]] + r[i + 1..j] + [r[j]] + r[j + 1..];
  }

  lemma {:induction false} DistinctOnce(v: seq<UnitId>, x: UnitId)
    requires NoDup(v)
    ensures multiset(v)[x] <= 1
  {
    if v != [] {
      var front := v[..|v| - 1];
      DistinctOnce(front, x);
      assert v == front + [v[|v| - 1]];
      assert v[|v| - 1] !in front;
    }
  }

  lemma ListedInside(S: set<UnitId>, G: Edges, orderOut: map<UnitId, seq<UnitId>>, u: UnitId, k: nat)
    requires Lists(S, G, orderOut) && k < |Extra(orderOut, u)|
    ensures Extra(orderOut, u)[k] in S
  {
    assert Extra(orderOut, u)[k] in Extra(orderOut, u);
    assert (u, Extra(orderOut, u)[k]) in G;
  }

  lemma CountDown(S: set<UnitId>, G: Edges, orderOut: map<UnitId, seq<UnitId>>, inDegree: map<UnitId, nat>,
    done: set<UnitId>, u: UnitId, k: nat)
    requires Lists(S, G, orderOut) && Counted(S, orderOut, inDegree, done, u, k)
    requires u in S && u !in done && k < |Extra(orderOut, u)|
    ensures var v := Extra(orderOut, u)[k];
      v in S && inDegree[v] > 0 && Counted(S, orderOut, inDegree[v := inDegree[v] - 1], done, u, k + 1)
  {
    hide Lists;
    var v := Extra(orderOut, u)[k];
    ListedInside(S, G, orderOut, u, k);
    forall w | w in S
      ensures Pending(S, orderOut, w, done, u, k + 1) == Pending(S, orderOut, w, done, u, k) - if w == v then {(u, k)} else {}
    {
    }
    assert (u, k) in Pending(S, orderOut, v, done, u, k);
  }

  lemma StartCountingDown(S: set<UnitId>, orderOut: map<UnitId, seq<UnitId>>, inDegree: map<UnitId, nat>, done: set<UnitId>, u: UnitId)
    requires Counted(S, orderOut, inDegree, done, 0, 0)
    ensures Counted(S, orderOut, inDegree, done, u, 0)
  {
    forall v ensures Pending(S, orderOut, v, done, u, 0) == Pending(S, orderOut, v, done, 0, 0) {}
  }

  lemma EndCountingDown(S: set<UnitId>, orderOut: map<UnitId, seq<UnitId>>, inDegree: map<UnitId, nat>, done: set<UnitId>, u: UnitId)
    requires Counted(S, orderOut, inDegree, done, u, |Extra(orderOut, u)|)
    ensures Counted(S, orderOut, inDegree, done + {u}, 0, 0)
  {
    forall v ensures Pending(S, orderOut, v, done, u, |Extra(orderOut, u)|) == Pending(S, orderOut, v, done + {u}, 0, 0) {}
  }

  /** `ready` holds, once each, the visited nodes whose in-degree has reached zero. */
  ghost predicate Collected(S: set<UnitId>, visited: seq<UnitId>, inDegree: map<UnitId, nat>, ready: seq<UnitId>)
    requires inDegree.Keys == S
  {
    NoDup(ready) && forall v :: v in ready <==> v in visited && v in S && inDegree[v] == 0
  }

  lemma CollectNone(S: set<UnitId>, orderOut: map<UnitId, seq<UnitId>>, inDegree: map<UnitId, nat>, done: set<UnitId>, u: UnitId)
    requires Counted(S, orderOut, inDegree, done, u, 0)
    ensures inDegree.Keys == S && Collected(S, [], inDegree, [])
  {
  }

  lemma CollectNext(S: set<UnitId>, visited: seq<UnitId>, inDegree: map<UnitId, nat>, ready: seq<UnitId>, v: UnitId)
    requires inDegree.Keys == S && v in S && inDegree[v] > 0 && Collected(S, visited, inDegree, ready)
    ensures Collected(S, visited + [v], inDegree[v := inDegree[v] - 1], if inDegree[v] == 1 then ready + [v] else ready)
  {
    PushDistinct(ready, v);
  }

  /** The inner loop: one count down per edge out of `u`, collecting what reaches zero. */
  method CountDownAll(S: set<UnitId>, u: UnitId, orderOut: map<UnitId, seq<UnitId>>, inDegree0: map<UnitId, nat>,
    ghost G: Edges, ghost done: set<UnitId>)
    returns (ready: seq<UnitId>, inDegree: map<UnitId, nat>)
    requires Lists(S, G, orderOut) && Counted(S, orderOut, inDegree0, done, u, 0) && u in S && u !in done
    ensures Counted(S, orderOut, inDegree, done, u, |Extra(orderOut, u)|)
    ensures inDegree.Keys == S && Collected(S, Extra(orderOut, u), inDegree, ready)
  {
    hide Lists, Counted, Collected;
    inDegree := inDegree0;
    ready := [];
    var downstream := Extra(orderOut, u);
    CollectNone(S, orderOut, inDegree, done, u);
    assert downstream[..0] == [];
    var k := 0;
    while k < |downstream|
      invariant k <= |downstream| && Counted(S, orderOut, inDegree, done, u, k)
      invariant inDegree.Keys == S && Collected(S, downstream[..k], inDegree, ready)
    {
      var v := downstream[k];
      CountDown(S, G, orderOut, inDegree, done, u, k);
      CollectNext(S, downstream[..k], inDegree, ready, v);
      TakeOneMore(downstream, k);
      inDegree := inDegree[v := inDegree[v] - 1];
      if inDegree[v] == 0 {
        ready := ready + [v];
      }
      k := k + 1;
    }
    assert downstream[..k] == downstream;
  }

  /** Counts down the nodes after `u` and sorts those that reach zero. */
  method ReleaseAfter(S: set<UnitId>, u: UnitId, orderOut: map<UnitId, seq<UnitId>>, inDegree0: map<UnitId, nat>,
    ghost G: Edges, ghost done: seq<UnitId>)
    returns (newReady: seq<UnitId>, inDegree: map<UnitId, nat>)
    requires Lists(S, G, orderOut) && Counted(S, orderOut, inDegree0, ToSet(done), 0, 0) && u in S && u !in done
    ensures Counted(S, orderOut, inDegree, ToSet(done + [u]), 0, 0)
    ensures newReady == Listing(NewlyReady(G, S, done, u))
  {
    StartCountingDown(S, orderOut, inDegree0, ToSet(done), u);
    var ready;
    ready, inDegree := CountDownAll(S, u, orderOut, inDegree0, G, ToSet(done));
    EndCountingDown(S, orderOut, inDegree, ToSet(done), u);
    PushDistinctSet(done, u);
    NoneLeft(S, G, orderOut, inDegree, done + [u]);
    ReleasedIsNewlyReady(S, G, orderOut, inDegree, done, u, ready);
    newReady := Sort(ready);
    SortedListing(ready);
  }

  lemma PushDistinctSet(s: seq<UnitId>, x: UnitId)
    ensures ToSet(s + [x]) == ToSet(s) + {x}
  {
    assert forall y :: y in s + [x] <==> y in s || y == x;
  }

  lemma ReleasedIsNewlyReady(S: set<UnitId>, G: Edges, orderOut: map<UnitId, seq<UnitId>>, inDegree: map<UnitId, nat>,
    done: seq<UnitId>, u: UnitId, ready: seq<UnitId>)
    requires Lists(S, G, orderOut) && inDegree.Keys == S
    requires forall v :: v in S ==> (inDegree[v] == 0 <==> AllBefore(G, v, done + [u]))
    requires forall v :: v in ready <==> v in Extra(orderOut, u) && v in S && inDegree[v] == 0
    ensures ToSet(ready) == NewlyReady(G, S, done, u)
  {
  }

  /** The nodes without incoming edges, sorted: where the sort begins. */
  method ReadyFirst(S: set<UnitId>, orderOut: map<UnitId, seq<UnitId>>, inDegree: map<UnitId, nat>, ghost G: Edges)
    returns (ready: seq<UnitId>)
    requires Lists(S, G, orderOut) && Counted(S, orderOut, inDegree, {}, 0, 0)
    ensures Frontier(G, S, [], ready) && KahnFrom(G, S, [], ready) == Kahn(G, S)
  {
    hide Frontier, Lists;
    assert ToSet<UnitId>([]) == {};
    NoneLeft(S, G, orderOut, inDegree, []);
    var zero := set v | v in inDegree && inDegree[v] == 0;
    assert zero == Roots(G, S);
    ready := CollectSorted(zero);
    KahnStart(G, S);
  }

  lemma ListsOver(S: set<UnitId>, G: Edges, orderOut: map<UnitId, seq<UnitId>>)
    requires Lists(S, G, orderOut)
    ensures Over(G, S)
  {
  }

  /** The sort shared by both transactions; `graph.rs` writes it out twice. */
  method TopologicalSort(S: set<UnitId>, orderOut: map<UnitId, seq<UnitId>>, inDegree0: map<UnitId, nat>, ghost G: Edges)
    returns (sorted: seq<UnitId>, inDegree: map<UnitId, nat>)
    requires Lists(S, G, orderOut) && Counted(S, orderOut, inDegree0, {}, 0, 0)
    ensures sorted == Kahn(G, S)
    ensures inDegree.Keys == S && forall v :: v in S ==> (inDegree[v] > 0 <==> v !in sorted)
  {
    hide Frontier, Lists, Kahn, Pending, AllBefore;
    ListsOver(S, G, orderOut);
    inDegree := inDegree0;
    var ready := ReadyFirst(S, orderOut, inDegree, G);
    sorted := [];
    assert ToSet(sorted) == {};
    while ready != []
      invariant Frontier(G, S, sorted, ready) && KahnFrom(G, S, sorted, ready) == Kahn(G, S)
      invariant Counted(S, orderOut, inDegree, ToSet(sorted), 0, 0)
      decreases S - ToSet(sorted)
    {
      var u := ready[0];
      KahnStep(G, S, sorted, ready);
      var newReady;
      newReady, inDegree := ReleaseAfter(S, u, orderOut, inDegree, G, sorted);
      sorted := sorted + [u];
      ready := ready[1..] + newReady;
    }
    NoneLeft(S, G, orderOut, inDegree, sorted);
    EmittedIffAllBefore(G, S, sorted);
  }

  // ---------- Loops of the registry ----------

  lemma ReverseMember(E: Edges)
    ensures forall u: nat, v: nat :: (v, u) in Reverse(E) <==> (u, v) in E
  {
    forall u: nat, v: nat | (u, v) in E ensures (v, u) in Reverse(E) {
      var e := (u, v);
      assert (e.1, e.0) in Reverse(E);
    }
  }

  lemma SortDedupListing(v: seq<UnitId>)
    ensures Dedup(Sort(v)) == Listing(ToSet(v))
  {
    var r := Sort(v);
    assert forall x :: x in r <==> x in multiset(r);
    assert ToSet(r) == ToSet(v);
    AscendingUnique(Dedup(r), Listing(ToSet(v)));
  }

  method PushNamed(byName: map<string, UnitId>, names: seq<string>, out0: seq<UnitId>) returns (out: seq<UnitId>)
    ensures ToSet(out) == ToSet(out0) + Resolve(byName, names)
  {
    out := out0;
    var k := 0;
    assert Resolve(byName, names[..0]) == {};
    while k < |names|
      invariant k <= |names| && ToSet(out) == ToSet(out0) + Resolve(byName, names[..k])
    {
      TakeOneMore(names, k);
      ResolvePush(byName, names[..k], names[k]);
      if names[k] in byName {
        PushDistinctSet(out, byName[names[k]]);
        out := out + [byName[names[k]]];
      }
      k := k + 1;
    }
    assert names[..k] == names;
  }

  method LiftInstall(units: seq<LoadedUnit>, byName: map<string, UnitId>)
    returns (wants: map<UnitId, seq<UnitId>>, required: map<UnitId, seq<UnitId>>)
    ensures LiftsWants(UnitTable(units, byName, wants, required))
    ensures LiftsRequires(UnitTable(units, byName, wants, required))
  {
    wants, required := map[], map[];
    var i := 0;
    while i < |units|
      invariant i <= |units|
      invariant forall t: UnitId, u: UnitId :: u in Extra(wants, t) <==> u < i && WantedBy(UnitTable(units, byName, map[], map[]), t, u)
      invariant forall t: UnitId, u: UnitId :: u in Extra(required, t) <==> u < i && RequiredBy(UnitTable(units, byName, map[], map[]), t, u)
    {
      wants := LiftOne(byName, units[i].file.install.wantedBy, i, wants);
      required := LiftOne(byName, units[i].file.install.requiredBy, i, required);
      i := i + 1;
    }
  }

  method LiftOne(byName: map<string, UnitId>, names: seq<string>, me: UnitId, lifted0: map<UnitId, seq<UnitId>>)
    returns (lifted: map<UnitId, seq<UnitId>>)
    ensures forall t: UnitId, u: UnitId :: u in Extra(lifted, t) <==> u in Extra(lifted0, t) || (u == me && t in Resolve(byName, names))
  {
    lifted := lifted0;
    var k := 0;
    assert Resolve(byName, names[..0]) == {};
    while k < |names|
      invariant k <= |names|
      invariant forall t: UnitId, u: UnitId :: u in Extra(lifted, t) <==> u in Extra(lifted0, t) || (u == me && t in Resolve(byName, names[..k]))
    {
      TakeOneMore(names, k);
      ResolvePush(byName, names[..k], names[k]);
      if names[k] in byName {
        forall t { PushOut(lifted, byName[names[k]], me, t); }
        lifted := Push(lifted, byName[names[k]], me);
      }
      k := k + 1;
    }
    assert names[..k] == names;
  }

  /** Everything seen is reachable, and what is seen but no longer queued has been expanded. */
  ghost predicate BfsInvariant(E: Edges, a: UnitId, seen: set<UnitId>, pending: seq<UnitId>) {
    && a in seen && ToSet(pending) <= seen
    && (forall v :: v in seen ==> Reaches(E, a, v))
    && (forall e :: e in E && e.0 in seen && e.0 !in pending ==> e.1 in seen)
  }

  lemma BfsStart(E: Edges, a: UnitId)
    ensures BfsInvariant(E, a, {a}, [a])
  {
    ReachesSelf(E, a);
  }

  lemma BfsHead(E: Edges, a: UnitId, seen: set<UnitId>, pending: seq<UnitId>)
    requires BfsInvariant(E, a, seen, pending) && pending != []
    ensures pending[0] in seen && pending == [pending[0]] + pending[1..]
  {
    assert pending[0] in ToSet(pending);
  }

  lemma BfsDone(E: Edges, a: UnitId, seen: set<UnitId>)
    requires BfsInvariant(E, a, seen, [])
    ensures seen == Closure(E, a)
  {
    ClosureIsLeast(E, a);
    assert Closed(E, seen);
  }

  /** Visits the targets of the node taken from the queue. */
  method BfsVisit(ghost E: Edges, ghost a: UnitId, ghost u: UnitId, targets: seq<UnitId>, seen0: set<UnitId>, pending0: seq<UnitId>)
    returns (seen: set<UnitId>, pending: seq<UnitId>)
    requires BfsInvariant(E, a, seen0, [u] + pending0)
    requires forall v: UnitId :: v in targets <==> (u, v) in E
    ensures BfsInvariant(E, a, seen, pending)
    ensures seen == seen0 + ToSet(targets) && seen <= Closure(E, a)
    ensures seen0 == seen ==> pending == pending0
  {
    seen, pending := seen0, pending0;
    var k := 0;
    while k < |targets|
      invariant k <= |targets| && seen == seen0 + ToSet(targets[..k])
      invariant ToSet(pending) <= seen && ToSet(pending0) <= ToSet(pending)
      invariant forall v :: v in seen && v !in seen0 ==> v in pending
      invariant seen0 == seen ==> pending == pending0
    {
      TakeOneMore(targets, k);
      if targets[k] !in seen {
        PushDistinctSet(pending, targets[k]);
        seen := seen + {targets[k]};
        pending := pending + [targets[k]];
      }
      k := k + 1;
    }
    assert targets[..k] == targets;
    BfsVisited(E, a, u, targets, seen0, pending0, seen, pending);
  }

  lemma BfsVisited(E: Edges, a: UnitId, u: UnitId, targets: seq<UnitId>, seen0: set<UnitId>, pending0: seq<UnitId>,
    seen: set<UnitId>, pending: seq<UnitId>)
    requires BfsInvariant(E, a, seen0, [u] + pending0)
    requires forall v: UnitId :: v in targets <==> (u, v) in E
    requires seen == seen0 + ToSet(targets) && ToSet(pending) <= seen && ToSet(pending0) <= ToSet(pending)
    requires forall v :: v in seen && v !in seen0 ==> v in pending
    ensures BfsInvariant(E, a, seen, pending) && seen <= Closure(E, a)
  {
    assert u in ToSet([u] + pending0);
    forall v | v in seen ensures Reaches(E, a, v) {
      if v !in seen0 { ReachesStep(E, a, u, v); }
    }
    forall e | e in E && e.0 in seen && e.0 !in pending ensures e.1 in seen {
      assert e.0 in seen0;
      if e.0 == u { assert e.1 in targets; } else { assert e.0 !in ToSet(pending); assert e.0 !in [u] + pending0; }
    }
    ClosureIsLeast(E, a);
  }
  // ---------- The registry object ----------

  class UnitRegistry {
    var units: seq<LoadedUnit>
    var byName: map<string, UnitId>
    var extraWants: map<UnitId, seq<UnitId>>
    var extraRequires: map<UnitId, seq<UnitId>>

    ghost function Table(): UnitTable
      reads this
    {
      UnitTable(units, byName, extraWants, extraRequires)
    }

    /** `from_loaded` */
    constructor (loaded: seq<LoadedUnit>)
      ensures IsLoaded(Table(), loaded) && WellFormed(Table())
    {
      var names: map<string, UnitId> := map[];
      var i := 0;
      assert loaded[..0] == [];
      while i < |loaded|
        invariant i <= |loaded| && names == NameIndex(loaded[..i])
      {
        assert loaded[..i + 1][..i] == loaded[..i];
        names := names[loaded[i].name := i];
        i := i + 1;
      }
      assert loaded[..i] == loaded;
      units := loaded;
      byName := names;
      var wants, required := LiftInstall(loaded, names);
      extraWants := wants;
      extraRequires := required;
      new;
      LoadedIsWellFormed(Table(), loaded);
    }

    /** `add_wanted_by` */
    method AddWantedBy(target: string, unit: string) returns (r: Result<(), string>)
      requires WellFormed(Table())
      modifies this`extraWants
      ensures WellFormed(Table())
      ensures r.Ok? <==> Install.AddWantedBy(old(Table()), target, unit).Added?
      ensures r.Ok? ==> Table() == Install.AddWantedBy(old(Table()), target, unit).reg
      ensures r.Err? ==> unchanged(this)
    {
      if target !in byName {
        return Err("unknown target: " + target);
      }
      if unit !in byName {
        return Err("unknown unit: " + unit);
      }
      AddWantedByEdges(Table(), target, unit);
      var t, u := byName[target], byName[unit];
      var entry := Extra(extraWants, t);
      if u !in entry {
        entry := entry + [u];
      }
      extraWants := extraWants[t := entry];
      return Ok(());
    }

    /** `requirement_targets`: the named edges and the lifted ones, sorted, once each. */
    method RequirementTargetsOf(id: UnitId) returns (out: seq<UnitId>)
      requires WellFormed(Table()) && id < |units|
      ensures out == Listing(RequirementTargets(Table(), id))
    {
      var unit := units[id].file.unit;
      out := PushNamed(byName, unit.wants, []);
      out := PushNamed(byName, unit.requires_, out);
      out := PushNamed(byName, unit.bindsTo, out);
      ToSetConcat(out, Extra(extraWants, id));
      ToSetConcat(out + Extra(extraWants, id), Extra(extraRequires, id));
      out := out + Extra(extraWants, id) + Extra(extraRequires, id);
      assert ToSet(out) == RequirementTargets(Table(), id);
      SortDedupListing(out);
      out := Dedup(Sort(out));
    }

    /** `hard_requirement_targets` */
    method HardTargetsOf(id: UnitId) returns (out: seq<UnitId>)
      requires WellFormed(Table()) && id < |units|
      ensures out == Listing(HardTargets(Table(), id))
    {
      var unit := units[id].file.unit;
      out := PushNamed(byName, unit.requires_, []);
      out := PushNamed(byName, unit.bindsTo, out);
      ToSetConcat(out, Extra(extraRequires, id));
      out := out + Extra(extraRequires, id);
      assert ToSet(out) == HardTargets(Table(), id);
      SortDedupListing(out);
      out := Dedup(Sort(out));
    }

    /** The breadth-first closure over requirement edges. */
    method ClosureOf(a: UnitId) returns (unitSet: set<UnitId>)
      requires WellFormed(Table()) && a < |units|
      ensures unitSet == StartClosure(Table(), a)
    {
      hide BfsInvariant;
      ghost var E := RequirementEdges(Table());
      unitSet := {a};
      var pending := [a];
      BfsStart(E, a);
      ClosuresStayInside(Table(), a);
      while pending != []
        invariant BfsInvariant(E, a, unitSet, pending) && Within(Table(), unitSet)
        decreases StartClosure(Table(), a) - unitSet, |pending|
      {
        var u := pending[0];
        BfsHead(E, a, unitSet, pending);
        var targets := RequirementTargetsOf(u);
        assert forall v: UnitId :: v in targets <==> (u, v) in E;
        unitSet, pending := BfsVisit(E, a, u, targets, unitSet, pending[1..]);
      }
      BfsDone(E, a, unitSet);
    }

    /** `dependents`: for each unit, the units with a requirement edge to it. */
    method Dependents() returns (dependents: map<UnitId, seq<UnitId>>)
      requires WellFormed(Table())
      ensures forall v: UnitId, u: UnitId :: u in Extra(dependents, v) <==> (u, v) in RequirementEdges(Table())
    {
      dependents := map[];
      var i := 0;
      while i < |units|
        invariant i <= |units|
        invariant forall v: UnitId, u: UnitId :: u in Extra(dependents, v) <==> (u, v) in RequirementEdges(Table()) && u < i
      {
        var targets := RequirementTargetsOf(i);
        var k := 0;
        while k < |targets|
          invariant k <= |targets|
          invariant forall v: UnitId, u: UnitId :: u in Extra(dependents, v) <==>
            ((u, v) in RequirementEdges(Table()) && u < i) || (u == i && v in targets[..k])
        {
          TakeOneMore(targets, k);
          forall v { PushOut(dependents, targets[k], i, v); }
          dependents := Push(dependents, targets[k], i);
          k := k + 1;
        }
        assert targets[..k] == targets;
        i := i + 1;
      }
    }

    /** The breadth-first closure over dependents. */
    method StopClosureOf(a: UnitId) returns (close: set<UnitId>)
      requires WellFormed(Table()) && a < |units|
      ensures close == StopClosure(Table(), a)
    {
      hide BfsInvariant;
      ghost var E := Reverse(RequirementEdges(Table()));
      var dependents := Dependents();
      ReverseMember(RequirementEdges(Table()));
      close := {a};
      var pending := [a];
      BfsStart(E, a);
      while pending != []
        invariant BfsInvariant(E, a, close, pending)
        decreases StopClosure(Table(), a) - close, |pending|
      {
        var u := pending[0];
        BfsHead(E, a, close, pending);
        close, pending := BfsVisit(E, a, u, Extra(dependents, u), close, pending[1..]);
      }
      BfsDone(E, a, close);
    }

    /** Sorts a closure, or names the units the sort could not emit. */
    method ArrangeUnits(S: set<UnitId>) returns (r: Result<seq<UnitId>, TransactionError>)
      requires WellFormed(Table()) && Within(Table(), S)
      ensures r.Ok? <==> Arrange(Table(), S).Plan?
      ensures r.Ok? ==> r.value == Arrange(Table(), S).order
      ensures r.Err? ==> r.error.OrderingCycle? && Arrange(Table(), S).Cycle?
      ensures r.Err? ==> Within(Table(), Arrange(Table(), S).stuck)
      ensures r.Err? ==> NamesOf(Table(), r.error.names, Arrange(Table(), S).stuck)
    {
      var orderOut, inDegree := OrderingEdges(byName, units, S, Table());
      var sorted, left := TopologicalSort(S, orderOut, inDegree, OrderEdges(Table(), S));
      ArrangeCorrect(Table(), S);
      if |sorted| != |S| {
        var names := NamesWithEdgesLeft(S, left);
        assert (set v | v in S && left[v] > 0) == S - ToSet(sorted);
        return Err(OrderingCycle(names));
      }
      return Ok(sorted);
    }

    /** The names of the units whose in-degree is still positive, in map order. */
    method NamesWithEdgesLeft(S: set<UnitId>, inDegree: map<UnitId, nat>) returns (names: seq<string>)
      requires Within(Table(), S) && inDegree.Keys == S
      ensures NamesOf(Table(), names, set v | v in S && inDegree[v] > 0)
    {
      names := [];
      ghost var ids: seq<UnitId> := [];
      var todo := S;
      while todo != {}
        invariant todo <= S && |names| == |ids| && NoDup(ids)
        invariant forall v :: v in ids <==> v in S - todo && inDegree[v] > 0
        invariant forall i :: 0 <= i < |ids| ==> ids[i] in S && names[i] == units[ids[i]].name
        decreases todo
      {
        var id :| id in todo;
        PeelOne(S, todo, id);
        if inDegree[id] > 0 {
          PushDistinct(ids, id);
          ids := ids + [id];
          names := names + [units[id].name];
        }
        todo := todo - {id};
      }
      assert Enumerates(ids, set v | v in S && inDegree[v] > 0);
      assert forall i :: 0 <= i < |ids| ==> ids[i] in ToSet(ids);
    }

    /** `build_transaction` */
    method BuildTransaction(anchor: string) returns (r: Result<seq<Job>, TransactionError>)
      requires WellFormed(Table())
      ensures match StartPlan(Table(), anchor) {
          case Unknown => r == Err(UnknownUnit(anchor))
          case Plan(order) => r == Ok(StartJobs(order))
          case Cycle(stuck) => r.Err? && r.error.OrderingCycle? && Within(Table(), stuck) && NamesOf(Table(), r.error.names, stuck)
        }
    {
      if anchor !in byName {
        return Err(UnknownUnit(anchor));
      }
      var unitSet := ClosureOf(byName[anchor]);
      ClosuresStayInside(Table(), byName[anchor]);
      var arranged := ArrangeUnits(unitSet);
      ArrangeCorrect(Table(), unitSet);
      match arranged {
        case Err(e) => return Err(e);
        case Ok(sorted) => return Ok(StartJobs(sorted));
      }
    }

    /** `build_stop_transaction` */
    method BuildStopTransaction(anchor: string) returns (r: Result<seq<UnitId>, TransactionError>)
      requires WellFormed(Table())
      ensures match StopPlan(Table(), anchor) {
          case Unknown => r == Err(UnknownUnit(anchor))
          case Plan(order) => r == Ok(order)
          case Cycle(stuck) => r.Err? && r.error.OrderingCycle? && Within(Table(), stuck) && NamesOf(Table(), r.error.names, stuck)
        }
    {
      if anchor !in byName {
        return Err(UnknownUnit(anchor));
      }
      var close := StopClosureOf(byName[anchor]);
      ClosuresStayInside(Table(), byName[anchor]);
      var arranged := ArrangeUnits(close);
      ArrangeCorrect(Table(), close);
      match arranged {
        case Err(e) => return Err(e);
        case Ok(sorted) => return Ok(Reversed(sorted));
      }
    }
  }
}
