/** Duplicate-free and sorted sequences of unit ids: the library calls `sort_by_key`
    and `dedup`, and the one sorted listing of a finite set. */
module Sequences {

  function ToSet<T>(s: seq<T>): set<T> {
    set x | x in s
  }

  ghost predicate NoDup<T>(s: seq<T>) {
    forall i, j :: 0 <= i < j < |s| ==> s[i] != s[j]
  }

  /** x stands somewhere before y in s. */
  ghost predicate Precedes<T>(s: seq<T>, x: T, y: T) {
    exists i, j :: 0 <= i < j < |s| && s[i] == x && s[j] == y
  }

  ghost predicate Ascending(s: seq<nat>) {
    forall i, j :: 0 <= i < j < |s| ==> s[i] <= s[j]
  }

  ghost predicate StrictlyAscending(s: seq<nat>) {
    forall i, j :: 0 <= i < j < |s| ==> s[i] < s[j]
  }

  lemma PrependAscending(h: nat, t: seq<nat>)
    requires Ascending(t) && forall y :: y in multiset(t) ==> h <= y
    ensures Ascending([h] + t)
    ensures multiset([h] + t) == multiset{h} + multiset(t)
  {
    forall k | 0 <= k < |t| ensures h <= t[k] { assert t[k] in multiset(t); }
  }

  lemma AboveHead(s: seq<nat>, x: nat, tail: seq<nat>)
    requires s != [] && Ascending(s) && s[0] <= x && multiset(tail) == multiset(s[1..]) + multiset{x}
    ensures forall y :: y in multiset(tail) ==> s[0] <= y
  {
    forall y | y in multiset(tail) ensures s[0] <= y {
      assert y == x || y in s[1..];
    }
  }

  function Insert(x: nat, s: seq<nat>): (r: seq<nat>)
    requires Ascending(s)
    ensures Ascending(r) && multiset(r) == multiset(s) + multiset{x}
  {
    if s == [] || x <= s[0] then [x] + s
    else
      var tail := Insert(x, s[1..]);
      assert multiset(s) == multiset{s[0]} + multiset(s[1..]) by { assert s == [s[0]] + s[1..]; }
      AboveHead(s, x, tail);
      PrependAscending(s[0], tail);
      [s[0]] + tail
  }

  /** `sort_by_key(|u| u.0)` */
  function Sort(s: seq<nat>): (r: seq<nat>)
    ensures Ascending(r) && multiset(r) == multiset(s)
  {
    if s == [] then []
    else
      assert s == [s[0]] + s[1..];
      Insert(s[0], Sort(s[1..]))
  }

  /** `dedup` on a sorted vector: neighbouring repetitions are dropped. */
  function Dedup(s: seq<nat>): (r: seq<nat>)
    requires Ascending(s)
    ensures StrictlyAscending(r) && ToSet(r) == ToSet(s)
    ensures s != [] ==> r != [] && r[0] == s[0]
  {
    if |s| <= 1 then s
    else
      var tail := Dedup(s[1..]);
      assert s == [s[0]] + s[1..];
      assert forall x :: x in tail ==> x in ToSet(tail);
      assert forall x :: x in s[1..] ==> x in ToSet(s[1..]);
      if s[0] == s[1] then tail else
        assert forall k :: 0 <= k < |tail| ==> s[0] < tail[k] by {
          assert forall k :: 0 < k < |tail| ==> tail[0] < tail[k];
        }
        [s[0]] + tail
  }

  lemma {:induction false} NoDupCardinality<T>(s: seq<T>)
    requires NoDup(s)
    ensures |ToSet(s)| == |s|
  {
    if s != [] {
      var front := s[..|s| - 1];
      NoDupCardinality(front);
      assert s == front + [s[|s| - 1]];
      assert ToSet(s) == ToSet(front) + {s[|s| - 1]};
    }
  }

  lemma NoDupConcat<T>(s: seq<T>, t: seq<T>)
    requires NoDup(s) && NoDup(t) && forall x :: x in t ==> x !in s
    ensures NoDup(s + t)
  {
    forall i, j | 0 <= i < j < |s + t| ensures (s + t)[i] != (s + t)[j] {
      if i < |s| <= j { assert (s + t)[j] in t; }
    }
  }

  lemma PushDistinct<T>(s: seq<T>, x: T)
    requires NoDup(s) && x !in s
    ensures NoDup(s + [x]) && ToSet(s + [x]) == ToSet(s) + {x}
  {
    assert NoDup([x]);
    NoDupConcat(s, [x]);
    assert forall y :: y in s + [x] <==> y in s || y == x;
  }

  lemma EmptyOrMember<T>(s: seq<T>)
    ensures s == [] || exists x :: x in s
  {
    if s != [] { assert s[0] in s; }
  }

  lemma ToSetConcat<T>(s: seq<T>, t: seq<T>)
    ensures ToSet(s + t) == ToSet(s) + ToSet(t)
  {
    assert forall x :: x in s + t <==> x in s || x in t;
  }

  lemma TakeOneMore<T>(s: seq<T>, k: nat)
    requires k < |s|
    ensures s[..k + 1] == s[..k] + [s[k]]
    ensures forall x :: x in s[..k + 1] <==> x in s[..k] || x == s[k]
  {
    assert forall x :: x in s[..k] + [s[k]] <==> x in s[..k] || x == s[k];
  }

  lemma PeelOne<T>(S: set<T>, todo: set<T>, x: T)
    requires todo <= S && x in todo
    ensures S - (todo - {x}) == (S - todo) + {x}
  {
  }

  lemma SubsetCardinality<T>(a: set<T>, b: set<T>)
    requires a <= b
    ensures |a| <= |b|
    ensures |a| == |b| ==> a == b
  {
    assert b == a + (b - a);
    assert |b| == |a| + |b - a|;
  }

  /** A strictly ascending sequence is determined by its set of elements. */
  lemma {:induction false} AscendingUnique(s: seq<nat>, t: seq<nat>)
    requires StrictlyAscending(s) && StrictlyAscending(t)
    requires ToSet(s) == ToSet(t)
    ensures s == t
  {
    NoDupCardinality(s);
    NoDupCardinality(t);
    if s != [] {
      assert s[0] in ToSet(t) && t[0] in ToSet(s);
      assert s[0] == t[0];
      var s', t' := s[1..], t[1..];
      assert s == [s[0]] + s' && t == [t[0]] + t';
      assert s[0] !in s' && t[0] !in t';
      assert ToSet(s') == ToSet(s) - {s[0]};
      assert ToSet(t') == ToSet(t) - {t[0]};
      AscendingUnique(s', t');
    }
  }

  lemma {:induction false} LeastExists(S: set<nat>)
    requires S != {}
    ensures exists m :: IsLeast(m, S)
  {
    var y :| y in S;
    if S == {y} {
      assert IsLeast(y, S);
    } else {
      LeastExists(S - {y});
      var m' :| IsLeast(m', S - {y});
      assert forall x :: x in S ==> x == y || x in S - {y};
      assert IsLeast(if m' < y then m' else y, S);
    }
  }

  ghost predicate IsLeast(m: nat, S: set<nat>) {
    m in S && forall x :: x in S ==> m <= x
  }

  /** The sorted listing of a finite set of ids. */
  ghost function Listing(S: set<nat>): (r: seq<nat>)
    ensures StrictlyAscending(r) && ToSet(r) == S
    ensures forall v :: v in r <==> v in S
  {
    if S == {} then []
    else
      LeastExists(S);
      var m :| IsLeast(m, S);
      var rest := Listing(S - {m});
      assert forall x :: x in [m] + rest <==> x == m || x in rest;
      [m] + rest
  }

  lemma AppendOne<T>(a: seq<T>, x: T, b: seq<T>)
    ensures a + ([x] + b) == a + [x] + b
  {
  }
}
