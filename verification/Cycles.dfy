/**
 * Cycles of a relation: a finite set in which every element has a predecessor, or every
 * element a successor, in the set contains one.
 */
module Cycles {

  // Element i is related to the next.
  ghost predicate Linked<T(!new)>(rel: (T, T) -> bool, w: seq<T>, i: nat)
    requires i + 1 < |w|
  {
    rel(w[i], w[i + 1])
  }

  // Each element is related to the next.
  ghost predicate Walk<T(!new)>(rel: (T, T) -> bool, w: seq<T>) {
    forall i :: 0 <= i < |w| - 1 ==> Linked(rel, w, i)
  }

  ghost predicate Cycle<T(!new)>(rel: (T, T) -> bool, w: seq<T>) {
    |w| > 1 && w[0] == w[|w| - 1] && Walk(rel, w)
  }

  ghost predicate Acyclic<T(!new)>(rel: (T, T) -> bool) {
    forall w :: !Cycle(rel, w)
  }

  ghost predicate HasBefore<T(!new)>(u: set<T>, rel: (T, T) -> bool, x: T) {
    exists p :: p in u && rel(p, x)
  }

  // Each member has a predecessor among the members.
  ghost predicate Stuck<T(!new)>(u: set<T>, rel: (T, T) -> bool) {
    forall x {:trigger HasBefore(u, rel, x)} :: x in u ==> HasBefore(u, rel, x)
  }

  lemma {:induction false} BackwardWalk<T(!new)>(u: set<T>, rel: (T, T) -> bool, n: nat) returns (w: seq<T>)
    requires u != {} && Stuck(u, rel)
    ensures |w| == n + 1 && Walk(rel, w) && forall i :: 0 <= i < |w| ==> w[i] in u
  {
    if n == 0 {
      var x :| x in u;
      w := [x];
    } else {
      var v := BackwardWalk(u, rel, n - 1);
      assert v[0] in u && HasBefore(u, rel, v[0]);
      var p :| p in u && rel(p, v[0]);
      w := [p] + v;
      forall i | 0 <= i < |w| - 1
        ensures Linked(rel, w, i)
      {
        if i > 0 {
          assert Linked(rel, v, i - 1);
        }
      }
    }
  }

  lemma {:induction false} Pigeonhole<T>(q: seq<T>, u: set<T>)
    requires forall i :: 0 <= i < |q| ==> q[i] in u
    requires forall i, j :: 0 <= i < j < |q| ==> q[i] != q[j]
    ensures |q| <= |u|
    decreases |q|
  {
    if q != [] {
      Pigeonhole(q[1..], u - {q[0]});
    }
  }

  lemma StuckHasCycle<T(!new)>(u: set<T>, rel: (T, T) -> bool)
    requires u != {} && Stuck(u, rel)
    ensures !Acyclic(rel)
  {
    var w := BackwardWalk(u, rel, |u|);
    if forall i, j :: 0 <= i < j < |w| ==> w[i] != w[j] {
      Pigeonhole(w, u);
    }
    var i, j :| 0 <= i < j < |w| && w[i] == w[j];
    PartIsWalk(rel, w, i, j + 1);
    assert Cycle(rel, w[i..j + 1]);
  }

  lemma PartIsWalk<T(!new)>(rel: (T, T) -> bool, w: seq<T>, i: nat, j: nat)
    requires Walk(rel, w) && i <= j <= |w|
    ensures Walk(rel, w[i..j])
  {
    var v := w[i..j];
    forall k | 0 <= k < |v| - 1
      ensures Linked(rel, v, k)
    {
      assert Linked(rel, w, i + k);
    }
  }

  ghost function Flipped<T(!new)>(rel: (T, T) -> bool): (T, T) -> bool {
    (x, y) => rel(y, x)
  }

  lemma FlippedCycle<T(!new)>(rel: (T, T) -> bool, w: seq<T>)
    requires Cycle(Flipped(rel), w)
    ensures !Acyclic(rel)
  {
    var v := seq(|w|, k requires 0 <= k < |w| => w[|w| - 1 - k]);
    forall i | 0 <= i < |v| - 1
      ensures Linked(rel, v, i)
    {
      assert Linked(Flipped(rel), w, |w| - 2 - i);
    }
    assert Cycle(rel, v);
  }

  // The same the other way round.
  lemma AllHaveNextIsCycle<T(!new)>(u: set<T>, rel: (T, T) -> bool)
    requires u != {} && forall x :: x in u ==> HasBefore(u, Flipped(rel), x)
    ensures !Acyclic(rel)
  {
    StuckHasCycle(u, Flipped(rel));
    var w :| Cycle(Flipped(rel), w);
    FlippedCycle(rel, w);
  }

  // The elements of a cycle but the last, which is the first again, all different.
  ghost predicate Simple<T>(w: seq<T>) {
    forall i, j :: 0 <= i < j < |w| - 1 ==> w[i] != w[j]
  }

  lemma {:induction false} SimpleCycle<T(!new)>(rel: (T, T) -> bool, w: seq<T>) returns (v: seq<T>)
    requires Cycle(rel, w)
    ensures Cycle(rel, v) && Simple(v)
    decreases |w|
  {
    if i, j :| 0 <= i < j < |w| - 1 && w[i] == w[j] {
      PartIsWalk(rel, w, i, j + 1);
      v := SimpleCycle(rel, w[i..j + 1]);
    } else {
      v := w;
    }
  }
}
