/**
 The clock topology: every clock has at most one parent. The firmware relies on the
 configured parent relation having no cycle; here that is the checkable statement that
 following parents from any clock ends within as many steps as there are clocks.
 */
module Forest {
  import opened Status

  type Parents = seq<Option<nat>>

  predicate WellFormed(p: Parents) {
    forall i :: 0 <= i < |p| && p[i].Some? ==> p[i].value < |p|
  }

  predicate ReachesRoot(p: Parents, x: nat, k: nat)
    requires WellFormed(p) && x < |p|
    decreases k
  {
    p[x].None? || (k > 0 && ReachesRoot(p, p[x].value, k - 1))
  }

  predicate Acyclic(p: Parents) {
    WellFormed(p) && forall x {:trigger ReachesRoot(p, x, |p|)} :: 0 <= x < |p| ==> ReachesRoot(p, x, |p|)
  }

  /** Number of proper ancestors, found within k steps. */
  function DepthWithin(p: Parents, x: nat, k: nat): nat
    requires WellFormed(p) && x < |p| && ReachesRoot(p, x, k)
    decreases k
  {
    if p[x].None? then 0 else 1 + DepthWithin(p, p[x].value, k - 1)
  }

  lemma {:induction false} DepthWithinAny(p: Parents, x: nat, k: nat, l: nat)
    requires WellFormed(p) && x < |p| && ReachesRoot(p, x, k) && ReachesRoot(p, x, l)
    ensures DepthWithin(p, x, k) == DepthWithin(p, x, l) <= k
    decreases k
  {
    if p[x].Some? {
      DepthWithinAny(p, p[x].value, k - 1, l - 1);
    }
  }

  function Depth(p: Parents, x: nat): nat
    requires Acyclic(p) && x < |p|
  {
    DepthWithin(p, x, |p|)
  }

  /** The depth grows by exactly one along every edge and is bounded by the number of clocks. */
  lemma DepthStep(p: Parents, x: nat)
    requires Acyclic(p) && x < |p|
    ensures Depth(p, x) <= |p|
    ensures p[x].None? ==> Depth(p, x) == 0
    ensures p[x].Some? ==> Depth(p, x) == Depth(p, p[x].value) + 1
  {
    DepthWithinAny(p, x, |p|, |p|);
    if p[x].Some? {
      DepthWithinAny(p, p[x].value, |p| - 1, |p|);
    }
  }

  /** Whether a is x itself or one of its ancestors. */
  ghost predicate Above(p: Parents, a: nat, x: nat)
    requires Acyclic(p) && a < |p| && x < |p|
    decreases Depth(p, x)
  {
    DepthStep(p, x);
    a == x || (p[x].Some? && Above(p, a, p[x].value))
  }

  predicate HasChild(p: Parents, x: nat) {
    exists y :: 0 <= y < |p| && p[y] == Some(x)
  }

  /** A clock with neither parent nor children is handled outside the tree protocol. */
  predicate SingleNode(p: Parents, x: nat)
    requires x < |p|
  {
    p[x].None? && !HasChild(p, x)
  }
}
