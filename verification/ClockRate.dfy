/**
 Rate propagation down the clock tree. Setting a rate queues an event to that clock; each
 event makes the clock hand its rate to the drivers of its children, which compute their
 output and are sent an event of their own. The order is breadth first through the event
 queue; the result is the top-down recursive definition.
 */
module ClockRate {
  import opened Status
  import opened Forest
  import opened ClockModule

  /** The tree, which drivers take an input rate, when they fail, and the output they compute. */
  datatype Tree = Tree(p: Parents, takes: seq<bool>, fails: (nat, int) -> bool, output: (nat, int) -> int)

  /** A driver update, or a queued event, for one clock. */
  datatype Rate = Rate(target: nat, rate: int)

  predicate Valid(t: Tree) { Acyclic(t.p) && |t.takes| == |t.p| }

  function Kids(t: Tree, x: nat): seq<nat> { ChildrenOf(t.p, x, |t.p|) }

  predicate KidsOf(t: Tree, x: nat, kids: seq<nat>)
    requires Valid(t)
  {
    forall i :: 0 <= i < |kids| ==> kids[i] < |t.p| && t.p[kids[i]] == Some(x)
  }

  lemma KidsAreKids(t: Tree, x: nat)
    requires Valid(t)
    ensures KidsOf(t, x, Kids(t, x))
    ensures forall i, j :: 0 <= i < j < |Kids(t, x)| ==> Kids(t, x)[i] != Kids(t, x)[j]
    ensures forall k :: 0 <= k < |t.p| && t.p[k] == Some(x) ==> k in Kids(t, x)
  {
    ChildrenAre(t.p, x, |t.p|);
    var c := Kids(t, x);
    forall i | 0 <= i < |c|
      ensures c[i] < |t.p| && t.p[c[i]] == Some(x)
    {
      assert c[i] in c;
    }
  }

  // ------------------------------------------------------------ what one event does

  /** The drivers that one event updates: the children in order, up to the first that fails. */
  function Updates(t: Tree, x: nat, kids: seq<nat>, r: int): seq<Rate>
    requires Valid(t) && KidsOf(t, x, kids)
  {
    if kids == [] then []
    else if !t.takes[kids[0]] then Updates(t, x, kids[1..], r)
    else if t.fails(kids[0], r) then []
    else [Rate(kids[0], r)] + Updates(t, x, kids[1..], r)
  }

  /** The events that it queues: each updated child with the output of its driver. */
  function Posts(t: Tree, x: nat, kids: seq<nat>, r: int): seq<Rate>
    requires Valid(t) && KidsOf(t, x, kids)
  {
    if kids == [] then []
    else if !t.takes[kids[0]] then Posts(t, x, kids[1..], r)
    else if t.fails(kids[0], r) then []
    else [Rate(kids[0], t.output(kids[0], r))] + Posts(t, x, kids[1..], r)
  }

  /** The driver takes an input rate, and fails on this one. */
  predicate Fails(t: Tree, k: nat, r: int)
    requires k < |t.takes|
  {
    t.takes[k] && t.fails(k, r)
  }

  /**
   Which children one event reaches: those that take a rate, up to the first whose driver fails.
   Each is updated with the event's own rate and is sent its driver's output for that rate.
   */
  lemma {:induction false} UpdatesUpToFailure(t: Tree, x: nat, kids: seq<nat>, r: int, i: nat)
    requires Valid(t) && KidsOf(t, x, kids) && i < |kids|
    requires forall j, k :: 0 <= j < k < |kids| ==> kids[j] != kids[k]
    ensures var reached := t.takes[kids[i]] && forall j :: 0 <= j <= i ==> !Fails(t, kids[j], r);
      forall v ::
        && (Rate(kids[i], v) in Updates(t, x, kids, r) <==> reached && v == r)
        && (Rate(kids[i], v) in Posts(t, x, kids, r) <==> reached && v == t.output(kids[i], r))
    decreases |kids|
  {
    var rest := kids[1..];
    assert forall j :: 0 < j < |kids| ==> kids[j] == rest[j - 1];
    OnlyKids(t, x, rest, r);
    if i > 0 {
      UpdatesUpToFailure(t, x, rest, r, i - 1);
    }
  }

  /** The children that take an input rate. */
  function Takers(t: Tree, kids: seq<nat>): seq<nat>
    requires forall i :: 0 <= i < |kids| ==> kids[i] < |t.takes|
  {
    if kids == [] then [] else (if t.takes[kids[0]] then [kids[0]] else []) + Takers(t, kids[1..])
  }

  /** In order: the updates are of the first of those children, and the events follow the updates one for one. */
  lemma {:induction false} UpdatesInOrder(t: Tree, x: nat, kids: seq<nat>, r: int)
    requires Valid(t) && KidsOf(t, x, kids)
    ensures var made, sent, takers := Updates(t, x, kids, r), Posts(t, x, kids, r), Takers(t, kids);
      && |made| == |sent| <= |takers|
      && forall i :: 0 <= i < |made| ==> made[i] == Rate(takers[i], r) && sent[i] == Rate(takers[i], t.output(takers[i], r))
    decreases |kids|
  {
    if kids != [] {
      UpdatesInOrder(t, x, kids[1..], r);
    }
  }

  lemma {:induction false} OnlyKids(t: Tree, x: nat, kids: seq<nat>, r: int)
    requires Valid(t) && KidsOf(t, x, kids)
    ensures forall e :: e in Updates(t, x, kids, r) || e in Posts(t, x, kids, r) ==> e.target in kids
    decreases |kids|
  {
    if kids != [] {
      OnlyKids(t, x, kids[1..], r);
    }
  }

  // ------------------------------------------------------------ the recursive definition

  /** All updates below the given children of x, top down: each child, then what its output causes. */
  function Subtree(t: Tree, x: nat, kids: seq<nat>, r: int): multiset<Rate>
    requires Valid(t) && x < |t.p| && KidsOf(t, x, kids)
    decreases |t.p| - Depth(t.p, x), |kids|
  {
    DepthStep(t.p, x);
    if kids == [] then multiset{}
    else
      var k := kids[0];
      DepthStep(t.p, k);
      KidsAreKids(t, k);
      if !t.takes[k] then Subtree(t, x, kids[1..], r)
      else if t.fails(k, r) then multiset{}
      else multiset{Rate(k, r)} + Subtree(t, k, Kids(t, k), t.output(k, r)) + Subtree(t, x, kids[1..], r)
  }

  function Below(t: Tree, e: Rate): multiset<Rate>
    requires Valid(t) && e.target < |t.p|
  {
    KidsAreKids(t, e.target);
    Subtree(t, e.target, Kids(t, e.target), e.rate)
  }

  predicate InTree(t: Tree, q: seq<Rate>) { forall i :: 0 <= i < |q| ==> q[i].target < |t.p| }

  /** The updates that the queued events will still cause. */
  function Owed(t: Tree, q: seq<Rate>): multiset<Rate>
    requires Valid(t) && InTree(t, q)
  {
    if q == [] then multiset{} else Below(t, q[0]) + Owed(t, q[1..])
  }

  lemma {:induction false} OwedAppend(t: Tree, q: seq<Rate>, r: seq<Rate>)
    requires Valid(t) && InTree(t, q) && InTree(t, r)
    ensures InTree(t, q + r) && Owed(t, q + r) == Owed(t, q) + Owed(t, r)
  {
    if q == [] {
      assert q + r == r;
    } else {
      assert (q + r)[1..] == q[1..] + r;
      OwedAppend(t, q[1..], r);
    }
  }

  lemma OwedFirst(t: Tree, e: Rate, rest: seq<Rate>)
    requires Valid(t) && e.target < |t.p| && InTree(t, rest)
    ensures InTree(t, [e] + rest) && Owed(t, [e] + rest) == Below(t, e) + Owed(t, rest)
  {
    assert ([e] + rest)[1..] == rest;
  }

  /** A child whose driver takes the rate is updated, and passes its output on. */
  lemma FirstChild(t: Tree, x: nat, kids: seq<nat>, r: int)
    requires Valid(t) && x < |t.p| && KidsOf(t, x, kids) && kids != [] && t.takes[kids[0]] && !t.fails(kids[0], r)
    ensures Subtree(t, x, kids, r)
      == multiset{Rate(kids[0], r)} + Below(t, Rate(kids[0], t.output(kids[0], r))) + Subtree(t, x, kids[1..], r)
  {
  }

  lemma Trade(up: Rate, made: seq<Rate>, below: multiset<Rate>, owed: multiset<Rate>, rest: multiset<Rate>)
    requires rest == multiset(made) + owed
    ensures multiset{up} + below + rest == multiset([up] + made) + (below + owed)
  {
  }

  /** One event trades what it owed for updates made and events queued. */
  lemma {:induction false} EventConserves(t: Tree, x: nat, kids: seq<nat>, r: int)
    requires Valid(t) && x < |t.p| && KidsOf(t, x, kids)
    ensures InTree(t, Posts(t, x, kids, r)) && |Posts(t, x, kids, r)| == |Updates(t, x, kids, r)|
    ensures Subtree(t, x, kids, r) == multiset(Updates(t, x, kids, r)) + Owed(t, Posts(t, x, kids, r))
    decreases |kids|
  {
    if kids != [] {
      EventConserves(t, x, kids[1..], r);
      if t.takes[kids[0]] && !t.fails(kids[0], r) {
        var e := Rate(kids[0], t.output(kids[0], r));
        var made, rest := Updates(t, x, kids[1..], r), Posts(t, x, kids[1..], r);
        assert Updates(t, x, kids, r) == [Rate(kids[0], r)] + made && Posts(t, x, kids, r) == [e] + rest;
        FirstChild(t, x, kids, r);
        OwedFirst(t, e, rest);
        hide Owed, Subtree, Below, Updates, Posts;
        Trade(Rate(kids[0], r), made, Below(t, e), Owed(t, rest), Subtree(t, x, kids[1..], r));
      }
    }
  }

  /** Processes events until none is left; every event leaves strictly less work. */
  function Propagate(t: Tree, q: seq<Rate>, updated: seq<Rate>): (r: seq<Rate>)
    requires Valid(t) && InTree(t, q)
    ensures multiset(r) == multiset(updated) + Owed(t, q)
    decreases |q| + |Owed(t, q)|
  {
    if q == [] then updated
    else
      var e := q[0];
      KidsAreKids(t, e.target);
      EventConserves(t, e.target, Kids(t, e.target), e.rate);
      var posts, updates := Posts(t, e.target, Kids(t, e.target), e.rate), Updates(t, e.target, Kids(t, e.target), e.rate);
      OwedAppend(t, q[1..], posts);
      assert |multiset(updates)| == |updates|;
      Propagate(t, q[1..] + posts, updated + updates)
  }

  // ------------------------------------------------------------ which clock gets which rate

  /** The rate that driver y is given when x distributes rate r, read off along the parents of y. */
  function InputRate(t: Tree, x: nat, r: int, y: nat): int
    requires Valid(t) && x < |t.p| && y < |t.p|
    decreases Depth(t.p, y)
  {
    DepthStep(t.p, y);
    if t.p[y].None? || t.p[y] == Some(x) then r
    else t.output(t.p[y].value, InputRate(t, x, r, t.p[y].value))
  }

  /** y lies strictly below x and every clock from y up to the child of x takes an input rate. */
  predicate Fed(t: Tree, x: nat, y: nat)
    requires Valid(t) && x < |t.p| && y < |t.p|
    decreases Depth(t.p, y)
  {
    DepthStep(t.p, y);
    t.takes[y] && t.p[y].Some? && (t.p[y] == Some(x) || Fed(t, x, t.p[y].value))
  }

  predicate FedWith(t: Tree, x: nat, r: int, y: nat, v: int)
    requires Valid(t) && x < |t.p| && y < |t.p|
  {
    Fed(t, x, y) && v == InputRate(t, x, r, y)
  }

  /** Updating child k of x with r reaches y with rate v: at k itself or below it. */
  predicate Hits(t: Tree, k: nat, r: int, y: nat, v: int)
    requires Valid(t) && k < |t.p| && y < |t.p|
  {
    t.takes[k] && if y == k then v == r else FedWith(t, k, t.output(k, r), y, v)
  }

  function HitCount(t: Tree, kids: seq<nat>, r: int, y: nat, v: int): nat
    requires Valid(t) && y < |t.p| && forall i :: 0 <= i < |kids| ==> kids[i] < |t.p|
  {
    if kids == [] then 0 else (if Hits(t, kids[0], r, y, v) then 1 else 0) + HitCount(t, kids[1..], r, y, v)
  }

  lemma {:induction false} FedIsBelow(t: Tree, x: nat, y: nat)
    requires Valid(t) && x < |t.p| && y < |t.p| && Fed(t, x, y)
    ensures Above(t.p, x, y) && Depth(t.p, x) < Depth(t.p, y)
    decreases Depth(t.p, y)
  {
    DepthStep(t.p, y);
    if t.p[y] != Some(x) {
      FedIsBelow(t, x, t.p[y].value);
    }
  }

  lemma {:induction false} AboveIsUnique(p: Parents, a: nat, b: nat, y: nat)
    requires Acyclic(p) && a < |p| && b < |p| && y < |p| && Above(p, a, y) && Above(p, b, y) && Depth(p, a) == Depth(p, b)
    ensures a == b && Depth(p, a) <= Depth(p, y)
    decreases Depth(p, y)
  {
    DepthStep(p, y);
    if a != y && b != y {
      AboveIsUnique(p, a, b, p[y].value);
    } else if a != y {
      AboveIsUnique(p, a, a, p[y].value);
    } else if b != y {
      AboveIsUnique(p, b, b, p[y].value);
    }
  }

  lemma HitIsAbove(t: Tree, k: nat, r: int, y: nat, v: int)
    requires Valid(t) && k < |t.p| && y < |t.p| && Hits(t, k, r, y, v)
    ensures Above(t.p, k, y)
  {
    if y != k {
      FedIsBelow(t, k, y);
    }
  }

  /** Siblings never reach the same clock. */
  lemma HitIsUnique(t: Tree, x: nat, k: nat, l: nat, r: int, y: nat, v: int)
    requires Valid(t) && k < |t.p| && l < |t.p| && y < |t.p| && t.p[k] == Some(x) && t.p[l] == Some(x)
    requires Hits(t, k, r, y, v) && Hits(t, l, r, y, v)
    ensures k == l
  {
    HitIsAbove(t, k, r, y, v);
    HitIsAbove(t, l, r, y, v);
    DepthStep(t.p, k);
    DepthStep(t.p, l);
    AboveIsUnique(t.p, k, l, y);
  }

  /** A clock fed by x is reached through the one child of x above it, with the same rate. */
  lemma {:induction false} FedThrough(t: Tree, x: nat, r: int, y: nat) returns (k: nat)
    requires Valid(t) && x < |t.p| && y < |t.p| && Fed(t, x, y)
    ensures k < |t.p| && t.p[k] == Some(x) && Hits(t, k, r, y, InputRate(t, x, r, y))
    decreases Depth(t.p, y)
  {
    DepthStep(t.p, y);
    if t.p[y] == Some(x) {
      k := y;
    } else {
      k := FedThrough(t, x, r, t.p[y].value);
      DepthStep(t.p, k);
      FedIsBelow(t, x, t.p[y].value);
    }
  }

  lemma {:induction false} ThroughIsFed(t: Tree, x: nat, k: nat, r: int, y: nat, v: int)
    requires Valid(t) && x < |t.p| && k < |t.p| && y < |t.p| && t.p[k] == Some(x) && Hits(t, k, r, y, v)
    ensures FedWith(t, x, r, y, v)
    decreases Depth(t.p, y)
  {
    DepthStep(t.p, y);
    if y != k {
      var z := t.p[y].value;
      FedIsBelow(t, k, y);
      DepthStep(t.p, k);
      ThroughIsFed(t, x, k, r, z, if z == k then r else InputRate(t, k, t.output(k, r), z));
    }
  }

  lemma {:induction false} HitCountIs(t: Tree, x: nat, kids: seq<nat>, r: int, y: nat, v: int)
    requires Valid(t) && x < |t.p| && y < |t.p| && KidsOf(t, x, kids)
    requires forall i, j :: 0 <= i < j < |kids| ==> kids[i] != kids[j]
    ensures HitCount(t, kids, r, y, v) == if exists i :: 0 <= i < |kids| && Hits(t, kids[i], r, y, v) then 1 else 0
    decreases |kids|
  {
    if kids != [] {
      HitCountIs(t, x, kids[1..], r, y, v);
      if Hits(t, kids[0], r, y, v) {
        forall i | 0 <= i < |kids[1..]|
          ensures !Hits(t, kids[1..][i], r, y, v)
        {
          if Hits(t, kids[1..][i], r, y, v) {
            HitIsUnique(t, x, kids[0], kids[1..][i], r, y, v);
          }
        }
      } else if exists i :: 0 <= i < |kids| && Hits(t, kids[i], r, y, v) {
        var i :| 0 <= i < |kids| && Hits(t, kids[i], r, y, v);
        assert kids[1..][i - 1] == kids[i];
      }
    }
  }

  /** Over all children of x, exactly the fed clocks are hit, once, with their input rate. */
  lemma KidsHit(t: Tree, x: nat, r: int, y: nat, v: int)
    requires Valid(t) && x < |t.p| && y < |t.p| && KidsOf(t, x, Kids(t, x))
    ensures HitCount(t, Kids(t, x), r, y, v) == if FedWith(t, x, r, y, v) then 1 else 0
  {
    KidsAreKids(t, x);
    var kids := Kids(t, x);
    HitCountIs(t, x, kids, r, y, v);
    if FedWith(t, x, r, y, v) {
      var k := FedThrough(t, x, r, y);
      assert k in kids;
    } else if exists i :: 0 <= i < |kids| && Hits(t, kids[i], r, y, v) {
      var i :| 0 <= i < |kids| && Hits(t, kids[i], r, y, v);
      ThroughIsFed(t, x, kids[i], r, y, v);
    }
  }

  /** No driver fed by x with rate r fails on the rate it is given. */
  ghost predicate Healthy(t: Tree, x: nat, r: int)
    requires Valid(t) && x < |t.p|
  {
    forall y :: 0 <= y < |t.p| && Fed(t, x, y) ==> !t.fails(y, InputRate(t, x, r, y))
  }

  lemma HealthyKid(t: Tree, x: nat, r: int, k: nat)
    requires Valid(t) && x < |t.p| && k < |t.p| && t.p[k] == Some(x) && t.takes[k] && Healthy(t, x, r)
    ensures !t.fails(k, r) && Healthy(t, k, t.output(k, r))
  {
    assert Hits(t, k, r, k, r);
    ThroughIsFed(t, x, k, r, k, r);
    forall y | 0 <= y < |t.p| && Fed(t, k, y)
      ensures !t.fails(y, InputRate(t, k, t.output(k, r), y))
    {
      FedIsBelow(t, k, y);
      ThroughIsFed(t, x, k, r, y, InputRate(t, k, t.output(k, r), y));
    }
  }

  lemma {:induction false} SubtreeCount(t: Tree, x: nat, kids: seq<nat>, r: int, y: nat, v: int)
    requires Valid(t) && x < |t.p| && y < |t.p| && KidsOf(t, x, kids) && Healthy(t, x, r)
    ensures Subtree(t, x, kids, r)[Rate(y, v)] == HitCount(t, kids, r, y, v)
    decreases |t.p| - Depth(t.p, x), |kids|
  {
    DepthStep(t.p, x);
    if kids != [] {
      var k := kids[0];
      SubtreeCount(t, x, kids[1..], r, y, v);
      if t.takes[k] {
        DepthStep(t.p, k);
        KidsAreKids(t, k);
        HealthyKid(t, x, r, k);
        SubtreeCount(t, k, Kids(t, k), t.output(k, r), y, v);
        KidsHit(t, k, t.output(k, r), y, v);
        if FedWith(t, k, t.output(k, r), y, v) {
          FedIsBelow(t, k, y);
        }
      }
    }
  }

  lemma {:induction false} SubtreeSound(t: Tree, x: nat, kids: seq<nat>, r: int, e: Rate)
    requires Valid(t) && x < |t.p| && KidsOf(t, x, kids) && e in Subtree(t, x, kids, r)
    ensures e.target < |t.p| && FedWith(t, x, r, e.target, e.rate) && !t.fails(e.target, e.rate)
    decreases |t.p| - Depth(t.p, x), |kids|
  {
    DepthStep(t.p, x);
    var k := kids[0];
    DepthStep(t.p, k);
    KidsAreKids(t, k);
    if e in Subtree(t, x, kids[1..], r) {
      SubtreeSound(t, x, kids[1..], r, e);
    } else if e != Rate(k, r) {
      SubtreeSound(t, k, Kids(t, k), t.output(k, r), e);
      FedIsBelow(t, k, e.target);
      ThroughIsFed(t, x, k, r, e.target, e.rate);
    } else {
      ThroughIsFed(t, x, k, r, k, r);
    }
  }

  /**
   Distributing rate r from clock x updates every fed descendant exactly once, with the rate
   its parent computed, and nothing else, provided no fed driver fails.
   */
  lemma PropagationIsTopDown(t: Tree, x: nat, r: int, y: nat, v: int)
    requires Valid(t) && x < |t.p| && y < |t.p| && Healthy(t, x, r)
    ensures multiset(Propagate(t, [Rate(x, r)], []))[Rate(y, v)] == if FedWith(t, x, r, y, v) then 1 else 0
  {
    KidsAreKids(t, x);
    assert Owed(t, [Rate(x, r)]) == Below(t, Rate(x, r)) + Owed(t, []);
    SubtreeCount(t, x, Kids(t, x), r, y, v);
    KidsHit(t, x, r, y, v);
  }

  /** Every clock fed by x is updated with the rate it should get. */
  ghost predicate Complete(t: Tree, x: nat, r: int, updated: seq<Rate>)
    requires Valid(t) && x < |t.p|
  {
    forall y :: 0 <= y < |t.p| && Fed(t, x, y) ==> Rate(y, InputRate(t, x, r, y)) in updated
  }

  lemma UpdateIsSound(t: Tree, x: nat, r: int, e: Rate)
    requires Valid(t) && x < |t.p| && e in Propagate(t, [Rate(x, r)], [])
    ensures e.target < |t.p| && FedWith(t, x, r, e.target, e.rate) && !t.fails(e.target, e.rate)
  {
    KidsAreKids(t, x);
    assert Owed(t, [Rate(x, r)]) == Below(t, Rate(x, r)) + Owed(t, []);
    assert e in multiset(Propagate(t, [Rate(x, r)], []));
    SubtreeSound(t, x, Kids(t, x), r, e);
  }

  /** All fed descendants are updated exactly when no fed driver fails on its rate. */
  lemma CompleteIffHealthy(t: Tree, x: nat, r: int)
    requires Valid(t) && x < |t.p|
    ensures Complete(t, x, r, Propagate(t, [Rate(x, r)], [])) <==> Healthy(t, x, r)
  {
    var log := Propagate(t, [Rate(x, r)], []);
    if Healthy(t, x, r) {
      forall y | 0 <= y < |t.p| && Fed(t, x, y)
        ensures Rate(y, InputRate(t, x, r, y)) in log
      {
        PropagationIsTopDown(t, x, r, y, InputRate(t, x, r, y));
        assert Rate(y, InputRate(t, x, r, y)) in multiset(log);
      }
    }
    if Complete(t, x, r, log) {
      forall y | 0 <= y < |t.p| && Fed(t, x, y)
        ensures !t.fails(y, InputRate(t, x, r, y))
      {
        UpdateIsSound(t, x, r, Rate(y, InputRate(t, x, r, y)));
      }
    }
  }

  // ------------------------------------------------------------ the module's handler

  /** The rate of the last event posted, or r if there was none. */
  function LastRate(r: int, posts: seq<Rate>): int { if posts == [] then r else posts[|posts| - 1].rate }

  class Propagation {
    const t: Tree
    var queue: seq<Rate>
    var updated: seq<Rate>
    /** The rate parameter of the event being processed, which is also what each event posted is given. */
    var inputRate: int

    constructor (tree: Tree, first: Rate)
      ensures t == tree && queue == [first] && updated == []
    {
      t, queue, updated, inputRate := tree, [first], [], 0;
    }

    /**
     Processes the rate event at the head of the queue. Its parameter is overwritten with the
     output of each child in turn; every child is given the rate it had at first.
     */
    method ProcessRate()
      requires Valid(t) && queue != [] && queue[0].target < |t.p|
      requires KidsOf(t, queue[0].target, Kids(t, queue[0].target))
      modifies this`queue, this`updated, this`inputRate
      ensures var e, kids := old(queue)[0], Kids(t, old(queue)[0].target);
        && queue == old(queue)[1..] + Posts(t, e.target, kids, e.rate)
        && updated == old(updated) + Updates(t, e.target, kids, e.rate)
        && inputRate == LastRate(e.rate, Posts(t, e.target, kids, e.rate))
    {
      var e := queue[0];
      queue := queue[1..];
      inputRate := e.rate;
      var rate := inputRate;
      var kids, i := Kids(t, e.target), 0;
      ghost var posts, updates := Posts(t, e.target, kids, e.rate), Updates(t, e.target, kids, e.rate);
      while i < |kids|
        invariant 0 <= i <= |kids|
        invariant queue + Posts(t, e.target, kids[i..], e.rate) == old(queue)[1..] + posts
        invariant updated + Updates(t, e.target, kids[i..], e.rate) == old(updated) + updates
        invariant LastRate(inputRate, Posts(t, e.target, kids[i..], e.rate)) == LastRate(e.rate, posts)
      {
        assert kids[i..][1..] == kids[i + 1..];
        if t.takes[kids[i]] {
          if t.fails(kids[i], rate) {
            return;
          }
          updated := updated + [Rate(kids[i], rate)];
          inputRate := t.output(kids[i], rate);
          queue := queue + [Rate(kids[i], inputRate)];
        }
        i := i + 1;
      }
    }

    /** Processes rate events until the queue is empty. */
    method Drain()
      requires Valid(t) && InTree(t, queue)
      modifies this`queue, this`updated, this`inputRate
      ensures queue == [] && updated == Propagate(t, old(queue), old(updated))
    {
      while queue != []
        invariant InTree(t, queue)
        invariant Propagate(t, queue, updated) == Propagate(t, old(queue), old(updated))
        decreases |queue| + |Owed(t, queue)|
      {
        ghost var e, kids := queue[0], Kids(t, queue[0].target);
        KidsAreKids(t, e.target);
        EventConserves(t, e.target, kids, e.rate);
        OwedAppend(t, queue[1..], Posts(t, e.target, kids, e.rate));
        ProcessRate();
      }
    }
  }
}
