/** Finite directed graphs on ids: reachability, cycles, and the queue-based
    topological sort stated on an edge relation. */
module Digraph {
  import opened Sequences

  type Edges = set<(nat, nat)>

  // ---------- Paths and reachability ----------

  ghost predicate IsPath(E: Edges, p: seq<nat>) {
    |p| > 0 && forall i, j :: 0 <= i < j < |p| && j == i + 1 ==> (p[i], p[j]) in E
  }

  ghost predicate Reaches(E: Edges, a: nat, b: nat) {
    exists p :: IsPath(E, p) && p[0] == a && p[|p| - 1] == b
  }

  /** No path of one or more edges returns to where it began; a self-loop is a cycle. */
  ghost predicate Acyclic(E: Edges) {
    forall p :: IsPath(E, p) && |p| > 1 ==> p[0] != p[|p| - 1]
  }

  ghost predicate Closed(E: Edges, S: set<nat>) {
    forall e :: e in E && e.0 in S ==> e.1 in S
  }

  ghost function Targets(E: Edges): set<nat> {
    set e | e in E :: e.1
  }

  /** Everything `a` reaches by zero or more edges. */
  ghost function Closure(E: Edges, a: nat): set<nat> {
    set v | v in Targets(E) + {a} && Reaches(E, a, v)
  }

  ghost function Reverse(E: Edges): Edges {
    set e | e in E :: (e.1, e.0)
  }

  lemma PathEndsWithEdge(E: Edges, p: seq<nat>)
    requires IsPath(E, p)
    ensures |p| > 1 ==> (p[|p| - 2], p[|p| - 1]) in E
  {
  }

  lemma ReachesSelf(E: Edges, a: nat)
    ensures Reaches(E, a, a)
  {
    assert IsPath(E, [a]);
  }

  lemma ReachesStep(E: Edges, a: nat, b: nat, c: nat)
    requires Reaches(E, a, b) && (b, c) in E
    ensures Reaches(E, a, c)
  {
    var p :| IsPath(E, p) && p[0] == a && p[|p| - 1] == b;
    var q := p + [c];
    assert IsPath(E, q);
  }

  lemma ReachesTrans(E: Edges, a: nat, b: nat, c: nat)
    requires Reaches(E, a, b) && Reaches(E, b, c)
    ensures Reaches(E, a, c)
  {
    var p :| IsPath(E, p) && p[0] == a && p[|p| - 1] == b;
    var q :| IsPath(E, q) && q[0] == b && q[|q| - 1] == c;
    var r := p + q[1..];
    forall i, j | 0 <= i < j < |r| && j == i + 1 ensures (r[i], r[j]) in E {
      if i < |p| - 1 {
        assert r[i] == p[i] && r[j] == p[j];
      } else {
        var k := i - (|p| - 1);
        assert r[i] == q[k] && r[j] == q[k + 1];
      }
    }
    assert IsPath(E, r);
  }

  /** Whatever is reached from a closed set lies in it. */
  lemma {:induction false} ClosedKeepsPath(E: Edges, S: set<nat>, p: seq<nat>)
    requires Closed(E, S) && IsPath(E, p) && p[0] in S
    ensures p[|p| - 1] in S
  {
    if |p| > 1 {
      var front := p[..|p| - 1];
      ClosedKeepsPath(E, S, front);
      assert (p[|p| - 2], p[|p| - 1]) in E;
    }
  }

  /** The closure holds exactly what is reachable, and is the least closed set around `a`. */
  lemma ClosureIsLeast(E: Edges, a: nat)
    ensures forall v :: v in Closure(E, a) <==> Reaches(E, a, v)
    ensures a in Closure(E, a) && Closed(E, Closure(E, a))
    ensures forall S :: a in S && Closed(E, S) ==> Closure(E, a) <= S
  {
    ReachesSelf(E, a);
    forall v | Reaches(E, a, v) ensures v in Targets(E) + {a} {
      var p :| IsPath(E, p) && p[0] == a && p[|p| - 1] == v;
      if |p| > 1 {
        var e := (p[|p| - 2], p[|p| - 1]);
        assert e in E && e.1 == v;
      }
    }
    forall e | e in E && e.0 in Closure(E, a) ensures e.1 in Closure(E, a) {
      ReachesStep(E, a, e.0, e.1);
    }
    forall S, v | a in S && Closed(E, S) && v in Closure(E, a) ensures v in S {
      var p :| IsPath(E, p) && p[0] == a && p[|p| - 1] == v;
      ClosedKeepsPath(E, S, p);
    }
  }

  lemma ReversePath(E: Edges, p: seq<nat>) returns (q: seq<nat>)
    requires IsPath(E, p)
    ensures IsPath(Reverse(E), q) && |q| == |p| && q[0] == p[|p| - 1] && q[|q| - 1] == p[0]
  {
    q := seq(|p|, i requires 0 <= i < |p| => p[|p| - 1 - i]);
    forall i, j | 0 <= i < j < |q| && j == i + 1 ensures (q[i], q[j]) in Reverse(E) {
      assert (p[|p| - 1 - j], p[|p| - 1 - i]) in E;
    }
  }

  lemma ReachesReverse(E: Edges, a: nat, b: nat)
    ensures Reaches(Reverse(E), a, b) <==> Reaches(E, b, a)
  {
    if Reaches(E, b, a) {
      var p :| IsPath(E, p) && p[0] == b && p[|p| - 1] == a;
      var q := ReversePath(E, p);
    }
    if Reaches(Reverse(E), a, b) {
      var p :| IsPath(Reverse(E), p) && p[0] == a && p[|p| - 1] == b;
      var q := ReversePath(Reverse(E), p);
      assert Reverse(Reverse(E)) == E by {
        forall e | e in E ensures e in Reverse(Reverse(E)) { assert (e.1, e.0) in Reverse(E); }
      }
    }
  }

  // ---------- Topological order ----------

  ghost predicate Over(E: Edges, nodes: set<nat>) {
    forall e :: e in E ==> e.0 in nodes && e.1 in nodes
  }

  /** Every edge into a listed node comes from a node listed before it. */
  ghost predicate Respects(E: Edges, s: seq<nat>) {
    forall e, i :: e in E && 0 <= i < |s| && s[i] == e.1 ==> e.0 in s[..i]
  }

  ghost predicate AllBefore(E: Edges, v: nat, done: seq<nat>) {
    forall e :: e in E && e.1 == v ==> e.0 in done
  }

  /** The nodes without a predecessor. */
  ghost function Roots(E: Edges, nodes: set<nat>): set<nat> {
    set v | v in nodes && AllBefore(E, v, [])
  }

  /** The nodes that become ready when `u` is emitted after `done`. */
  ghost function NewlyReady(E: Edges, nodes: set<nat>, done: seq<nat>, u: nat): set<nat> {
    set v | v in nodes && (u, v) in E && AllBefore(E, v, done + [u])
  }

  /** What holds whenever `done` has been emitted and `ready` is the queue. */
  ghost predicate Frontier(E: Edges, nodes: set<nat>, done: seq<nat>, ready: seq<nat>) {
    && Over(E, nodes)
    && NoDup(done + ready)
    && (forall v {:trigger AllBefore(E, v, done)} {:trigger v in done + ready} ::
          v in done + ready <==> v in nodes && AllBefore(E, v, done))
    && Respects(E, done)
  }

  lemma FrontierStart(E: Edges, nodes: set<nat>)
    requires Over(E, nodes)
    ensures Frontier(E, nodes, [], Listing(Roots(E, nodes)))
  {
    var S := Roots(E, nodes);
    var L := Listing(S);
    assert [] + L == L;
    assert forall v :: v in L <==> v in S;
    assert NoDup(L);
  }

  lemma FrontierStep(E: Edges, nodes: set<nat>, done: seq<nat>, ready: seq<nat>)
    requires Frontier(E, nodes, done, ready) && ready != []
    ensures Frontier(E, nodes, done + [ready[0]], ready[1..] + Listing(NewlyReady(E, nodes, done, ready[0])))
    ensures ready[0] in nodes && ready[0] !in done
  {
    var u := ready[0];
    var N := NewlyReady(E, nodes, done, u);
    var L := Listing(N);
    var done', ready' := done + [u], ready[1..] + L;
    assert (done + ready)[|done|] == u;
    assert done + ready == done' + ready[1..];
    assert u in done + ready;
    assert forall i :: 0 <= i < |done| ==> (done + ready)[i] == done[i];
    assert u !in done;
    forall v | v in L ensures v !in done' + ready[1..] {
      var e := (u, v);
      assert e in E && e.1 == v && e.0 !in done;
    }
    assert done' + ready' == (done' + ready[1..]) + L;
    NoDupConcat(done' + ready[1..], L);
    forall v ensures v in done' + ready' <==> v in nodes && AllBefore(E, v, done') {
      if v in nodes && AllBefore(E, v, done') && v !in N {
        assert (u, v) !in E;
        assert AllBefore(E, v, done);
        assert v in done + ready;
      }
    }
    forall e, i | e in E && 0 <= i < |done'| && done'[i] == e.1 ensures e.0 in done'[..i] {
      if i < |done| { assert done'[..i] == done[..i]; } else { assert done'[..i] == done; }
    }
  }

  /** Kahn's algorithm with a first-in first-out queue. Each emission releases the
      nodes whose last predecessor it was, in ascending order of id. */
  ghost function KahnFrom(E: Edges, nodes: set<nat>, done: seq<nat>, ready: seq<nat>): (r: seq<nat>)
    requires Frontier(E, nodes, done, ready)
    decreases nodes - ToSet(done)
  {
    if ready == [] then done
    else
      FrontierStep(E, nodes, done, ready);
      assert ToSet(done + [ready[0]]) == ToSet(done) + {ready[0]};
      KahnFrom(E, nodes, done + [ready[0]], ready[1..] + Listing(NewlyReady(E, nodes, done, ready[0])))
  }

  ghost function Kahn(E: Edges, nodes: set<nat>): (r: seq<nat>)
    requires Over(E, nodes)
  {
    FrontierStart(E, nodes);
    KahnFrom(E, nodes, [], Listing(Roots(E, nodes)))
  }

  /** One iteration of the loop, and what it starts from. */
  lemma KahnStep(E: Edges, nodes: set<nat>, done: seq<nat>, ready: seq<nat>)
    requires Frontier(E, nodes, done, ready) && ready != []
    ensures ready[0] in nodes && ready[0] !in done && ToSet(done + [ready[0]]) == ToSet(done) + {ready[0]}
    ensures var ready' := ready[1..] + Listing(NewlyReady(E, nodes, done, ready[0]));
      Frontier(E, nodes, done + [ready[0]], ready')
      && KahnFrom(E, nodes, done + [ready[0]], ready') == KahnFrom(E, nodes, done, ready)
  {
    FrontierStep(E, nodes, done, ready);
    assert ToSet(done + [ready[0]]) == ToSet(done) + {ready[0]};
  }

  lemma KahnStart(E: Edges, nodes: set<nat>)
    requires Over(E, nodes)
    ensures var ready := Listing(Roots(E, nodes));
      Frontier(E, nodes, [], ready) && KahnFrom(E, nodes, [], ready) == Kahn(E, nodes)
  {
    FrontierStart(E, nodes);
  }

  lemma EmittedIffAllBefore(E: Edges, nodes: set<nat>, sorted: seq<nat>)
    requires Frontier(E, nodes, sorted, [])
    ensures forall v :: v in nodes ==> (AllBefore(E, v, sorted) <==> v in sorted)
  {
    assert sorted + [] == sorted;
  }

  lemma {:induction false} KahnFromEndsAtFrontier(E: Edges, nodes: set<nat>, done: seq<nat>, ready: seq<nat>)
    requires Frontier(E, nodes, done, ready)
    ensures Frontier(E, nodes, KahnFrom(E, nodes, done, ready), [])
    decreases nodes - ToSet(done)
  {
    if ready != [] {
      FrontierStep(E, nodes, done, ready);
      assert ToSet(done + [ready[0]]) == ToSet(done) + {ready[0]};
      KahnFromEndsAtFrontier(E, nodes, done + [ready[0]], ready[1..] + Listing(NewlyReady(E, nodes, done, ready[0])));
    }
  }

  lemma {:induction false} KahnFromExtends(E: Edges, nodes: set<nat>, done: seq<nat>, ready: seq<nat>)
    requires Frontier(E, nodes, done, ready)
    ensures done <= KahnFrom(E, nodes, done, ready)
    ensures ready != [] ==> done + [ready[0]] <= KahnFrom(E, nodes, done, ready)
    decreases nodes - ToSet(done)
  {
    if ready != [] {
      FrontierStep(E, nodes, done, ready);
      assert ToSet(done + [ready[0]]) == ToSet(done) + {ready[0]};
      KahnFromExtends(E, nodes, done + [ready[0]], ready[1..] + Listing(NewlyReady(E, nodes, done, ready[0])));
    }
  }

  ghost predicate HasPredecessor(E: Edges, R: set<nat>, v: nat) {
    exists u :: u in R && (u, v) in E
  }

  ghost predicate EachHasPredecessor(E: Edges, R: set<nat>) {
    forall v {:trigger HasPredecessor(E, R, v)} :: v in R ==> HasPredecessor(E, R, v)
  }

  /** What the sort emits: no node twice, only nodes, every edge respected; and it
      stops only when each node left over still has a left-over predecessor. */
  lemma KahnSound(E: Edges, nodes: set<nat>)
    requires Over(E, nodes)
    ensures NoDup(Kahn(E, nodes)) && ToSet(Kahn(E, nodes)) <= nodes
    ensures Respects(E, Kahn(E, nodes))
    ensures EachHasPredecessor(E, nodes - ToSet(Kahn(E, nodes)))
  {
    FrontierStart(E, nodes);
    var start := Listing(Roots(E, nodes));
    KahnFromEndsAtFrontier(E, nodes, [], start);
    var r := Kahn(E, nodes);
    assert r + [] == r;
    forall v | v in nodes - ToSet(r) ensures HasPredecessor(E, nodes - ToSet(r), v) {
      assert v !in r;
      assert !AllBefore(E, v, r);
      var e :| e in E && e.1 == v && e.0 !in r;
      assert e.0 in nodes - ToSet(r) && (e.0, v) in E;
    }
  }

  /** Following left-over predecessors backwards gives paths of every length. */
  lemma {:induction false} BackwardWalk(E: Edges, R: set<nat>, v: nat, n: nat) returns (p: seq<nat>)
    requires v in R && EachHasPredecessor(E, R)
    ensures IsPath(E, p) && |p| == n + 1 && ToSet(p) <= R
  {
    if n == 0 {
      p := [v];
    } else {
      var q := BackwardWalk(E, R, v, n - 1);
      assert q[0] in ToSet(q);
      assert HasPredecessor(E, R, q[0]);
      var u :| u in R && (u, q[0]) in E;
      p := [u] + q;
      forall x | x in p ensures x in R { if x != u { assert x in ToSet(q); } }
    }
  }

  lemma LeftoverHasCycle(E: Edges, R: set<nat>)
    requires R != {} && EachHasPredecessor(E, R)
    ensures !Acyclic(E)
  {
    var v :| v in R;
    var p := BackwardWalk(E, R, v, |R|);
    if NoDup(p) {
      NoDupCardinality(p);
      SubsetCardinality(ToSet(p), R);
      assert false;
    }
    var i, j :| 0 <= i < j < |p| && p[i] == p[j];
    var c := p[i..j + 1];
    assert IsPath(E, c) && |c| > 1 && c[0] == c[|c| - 1];
  }

  lemma PrecedesFacts(s: seq<nat>, x: nat, y: nat, z: nat)
    requires NoDup(s)
    ensures Precedes(s, x, y) && Precedes(s, y, z) ==> Precedes(s, x, z)
    ensures !(Precedes(s, x, y) && Precedes(s, y, x))
    ensures !Precedes(s, x, x)
  {
    if Precedes(s, x, y) && Precedes(s, y, z) {
      var i, j :| 0 <= i < j < |s| && s[i] == x && s[j] == y;
      var k, l :| 0 <= k < l < |s| && s[k] == y && s[l] == z;
      assert j == k;
      assert i < l && s[i] == x && s[l] == z;
    }
  }

  lemma RespectsPrecedes(E: Edges, s: seq<nat>, u: nat, v: nat)
    requires Respects(E, s) && (u, v) in E && v in s
    ensures Precedes(s, u, v)
  {
    var j :| 0 <= j < |s| && s[j] == v;
    var e := (u, v);
    assert e.0 in s[..j];
    var i :| 0 <= i < |s[..j]| && s[..j][i] == u;
    assert 0 <= i < j < |s| && s[i] == u && s[j] == v;
  }

  /** Along a path of ordering edges positions only grow. */
  lemma {:induction false} RespectsPath(E: Edges, s: seq<nat>, p: seq<nat>)
    requires NoDup(s) && Respects(E, s) && IsPath(E, p) && |p| > 1 && p[|p| - 1] in s
    ensures Precedes(s, p[0], p[|p| - 1])
  {
    var q := p[1..];
    assert (p[0], p[1]) in E;
    if |p| == 2 {
      RespectsPrecedes(E, s, p[0], p[1]);
    } else {
      RespectsPath(E, s, q);
      assert Precedes(s, p[1], p[|p| - 1]);
      RespectsPrecedes(E, s, p[0], p[1]);
      PrecedesFacts(s, p[0], p[1], p[|p| - 1]);
    }
  }

  /** The sort emits every node exactly when the edges have no cycle. */
  lemma KahnCompleteIffAcyclic(E: Edges, nodes: set<nat>)
    requires Over(E, nodes)
    ensures ToSet(Kahn(E, nodes)) == nodes <==> Acyclic(E)
    ensures |Kahn(E, nodes)| == |nodes| <==> Acyclic(E)
  {
    KahnSound(E, nodes);
    var s := Kahn(E, nodes);
    NoDupCardinality(s);
    SubsetCardinality(ToSet(s), nodes);
    if ToSet(s) != nodes {
      var v :| v in nodes && v !in ToSet(s);
      assert v in nodes - ToSet(s);
      LeftoverHasCycle(E, nodes - ToSet(s));
    } else {
      forall p | IsPath(E, p) && |p| > 1 ensures p[0] != p[|p| - 1] {
        var e := (p[|p| - 2], p[|p| - 1]);
        assert e in E && e.1 in ToSet(s);
        RespectsPath(E, s, p);
        PrecedesFacts(s, p[0], p[0], p[0]);
      }
    }
  }

  /** The first emission is the least node without a predecessor. */
  lemma KahnFirst(E: Edges, nodes: set<nat>, a: nat)
    requires Over(E, nodes) && a in nodes
    ensures Kahn(E, nodes) != [] && Kahn(E, nodes)[0] == a <==>
      IsLeast(a, Roots(E, nodes))
  {
    var S := Roots(E, nodes);
    FrontierStart(E, nodes);
    KahnFromExtends(E, nodes, [], Listing(S));
    var L := Listing(S);
    assert L != [] ==> [] + [L[0]] == [L[0]];
    if L == [] {
      assert S == {};
    } else {
      assert Kahn(E, nodes)[0] == L[0];
      assert IsLeast(L[0], S);
    }
  }
}
