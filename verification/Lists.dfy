/**
 The intrusive circular lists. The list head is a sentinel laid out like a node: its next is
 the list's head and its prev the list's tail. A list represents a sequence of nodes, and every
 operation implements the sequence operation on it.
 */
module Lists {
  /** A node, or a list itself; singly linked nodes leave prev unused. */
  class Link {
    var next: Link?
    var prev: Link?

    constructor ()
      ensures next == null && prev == null
    {
      next, prev := null, null;
    }
  }

  ghost predicate Distinct(ns: seq<Link>) {
    forall i, j :: 0 <= i < j < |ns| ==> ns[i] != ns[j]
  }

  /** The list's next pointers lead through ns and back, and its tail is the last of ns. */
  ghost predicate Singly(list: Link, ns: seq<Link>)
    reads list, ns
  {
    && list !in ns
    && Distinct(ns)
    && list.next == (if ns == [] then list else ns[0])
    && list.prev == (if ns == [] then list else ns[|ns| - 1])
    && (forall i, j :: 0 <= i && j == i + 1 && j < |ns| ==> ns[i].next == ns[j])
    && (ns != [] ==> ns[|ns| - 1].next == list)
  }

  /** Moreover the prev pointers lead back. */
  ghost predicate Doubly(list: Link, ns: seq<Link>)
    reads list, ns
  {
    && Singly(list, ns)
    && (forall i, j :: 0 <= i && j == i + 1 && j < |ns| ==> ns[j].prev == ns[i])
    && (ns != [] ==> ns[0].prev == list)
  }

  function Without(ns: seq<Link>, node: Link): seq<Link> {
    if ns == [] then [] else if ns[0] == node then ns[1..] else [ns[0]] + Without(ns[1..], node)
  }

  /** ns with a node put before another one. */
  function Inserted(ns: seq<Link>, node: Link, before: Link): seq<Link> {
    if ns == [] then [] else if ns[0] == before then [node] + ns else [ns[0]] + Inserted(ns[1..], node, before)
  }

  lemma {:induction false} WithoutAt(ns: seq<Link>, i: nat)
    requires i < |ns| && Distinct(ns)
    ensures Without(ns, ns[i]) == ns[..i] + ns[i + 1..]
  {
    if i > 0 {
      WithoutAt(ns[1..], i - 1);
      assert ns[..i] == [ns[0]] + ns[1..][..i - 1];
    }
  }

  lemma {:induction false} InsertedAt(ns: seq<Link>, node: Link, i: nat)
    requires i < |ns| && Distinct(ns)
    ensures Inserted(ns, node, ns[i]) == ns[..i] + [node] + ns[i..]
  {
    if i > 0 {
      InsertedAt(ns[1..], node, i - 1);
      assert ns[..i] == [ns[0]] + ns[1..][..i - 1];
    }
  }

  /** The pointers determine the sequence. */
  lemma {:induction false} OneSequence(list: Link, ns: seq<Link>, ms: seq<Link>, k: nat)
    requires Singly(list, ns) && Singly(list, ms) && k <= |ns|
    ensures k <= |ms| && ns[..k] == ms[..k]
    ensures k == |ns| ==> ns == ms
  {
    if k > 0 {
      OneSequence(list, ns, ms, k - 1);
      assert k > 1 ==> ms[..k - 1][k - 2] == ns[..k - 1][k - 2] == ns[k - 2];
      if k > 1 {
        NextAt(list, ns, k - 2);
        NextAt(list, ms, k - 2);
      }
      assert ns[..k] == ns[..k - 1] + [ns[k - 1]];
      assert ms[..k] == ms[..k - 1] + [ms[k - 1]];
    }
    if k == |ns| && k > 0 {
      assert ms[..k][k - 1] == ns[..k][k - 1];
      NextAt(list, ns, k - 1);
      NextAt(list, ms, k - 1);
    }
  }

  /** The node after a node of the list is the next one or the list. */
  lemma NextAt(list: Link, ns: seq<Link>, i: nat)
    requires Singly(list, ns) && i < |ns|
    ensures ns[i].next == if i + 1 < |ns| then ns[i + 1] else list
  {
    if i + 1 < |ns| {
      assert ns[i].next == ns[i + 1];
    }
  }

  /** The node before a node of the list is the previous one or the list. */
  lemma PrevAt(list: Link, ns: seq<Link>, i: nat)
    requires Doubly(list, ns) && i < |ns|
    ensures ns[i].prev == if i > 0 then ns[i - 1] else list
  {
    if i > 0 {
      assert ns[i].prev == ns[i - 1];
    }
  }

  /** A detached node is in no list. */
  lemma DetachedIsElsewhere(list: Link, ns: seq<Link>, node: Link)
    requires Singly(list, ns) && node.next == null
    ensures node != list && node !in ns
  {
    if node in ns {
      var i :| 0 <= i < |ns| && ns[i] == node;
      NextAt(list, ns, i);
    }
  }

  method Init(list: Link)
    modifies list
    ensures Doubly(list, [])
  {
    list.next, list.prev := list, list;
  }

  method IsEmpty(list: Link, ghost ns: seq<Link>) returns (empty: bool)
    requires Singly(list, ns)
    ensures empty <==> ns == []
  {
    empty := list.next == list;
    if empty {
      assert list.prev == list.next;
    }
  }

  method Head(list: Link, ghost ns: seq<Link>) returns (head: Link?)
    requires Singly(list, ns)
    ensures head == if ns == [] then null else ns[0]
  {
    var empty := IsEmpty(list, ns);
    if empty {
      return null;
    }
    head := list.next;
  }

  /** The low-level effect, and what it means on a well-formed list. */
  method PushHead(list: Link, node: Link, ghost ns: seq<Link>)
    requires node.next == null && node != list
    modifies list, node`next
    ensures node.next == old(list.next) && list.next == node
    ensures list.prev == if old(list.prev) == list then node else old(list.prev)
    ensures old(Singly(list, ns)) ==> Singly(list, [node] + ns)
  {
    if Singly(list, ns) {
      DetachedIsElsewhere(list, ns, node);
    }
    node.next := list.next;
    list.next := node;
    if list.prev == list {
      list.prev := node;
    }
  }

  method PushTail(list: Link, node: Link, ghost ns: seq<Link>)
    requires Singly(list, ns) && node.next == null
    modifies list, list.prev`next, node`next
    ensures Singly(list, ns + [node])
  {
    DetachedIsElsewhere(list, ns, node);
    node.next := list;
    list.prev.next := node;
    list.prev := node;
  }

  method PopHead(list: Link, ghost ns: seq<Link>) returns (popped: Link?)
    requires Singly(list, ns)
    modifies list, list.next`next
    ensures popped == if ns == [] then null else ns[0]
    ensures popped != null ==> popped.next == null
    ensures Singly(list, if ns == [] then [] else ns[1..])
  {
    var empty := IsEmpty(list, ns);
    if empty {
      return null;
    }
    NextAt(list, ns, 0);
    popped := list.next;
    if popped.next == list {
      list.prev := list;
    }
    list.next := popped.next;
    popped.next := null;
  }

  /** The successor of a node of the list, if any. */
  method Next(list: Link, node: Link, ghost ns: seq<Link>, ghost i: nat) returns (next: Link?)
    requires Singly(list, ns) && i < |ns| && ns[i] == node
    ensures next == if i + 1 < |ns| then ns[i + 1] else null
  {
    NextAt(list, ns, i);
    next := if node.next == list then null else node.next;
  }

  method Contains(list: Link, node: Link, ghost ns: seq<Link>) returns (found: bool)
    requires Singly(list, ns)
    ensures found <==> node in ns
  {
    var at := list;
    ghost var i := 0;
    while at.next != list
      invariant i <= |ns| && at == (if i == 0 then list else ns[i - 1])
      invariant forall k :: 0 <= k < i ==> ns[k] != node
      decreases |ns| - i
    {
      if i > 0 {
        NextAt(list, ns, i - 1);
      }
      if at.next == node {
        return true;
      }
      at := at.next;
      i := i + 1;
    }
    if i > 0 {
      NextAt(list, ns, i - 1);
    }
    return false;
  }

  /** Takes out the node that follows at. */
  method Unlink(list: Link, at: Link, node: Link, ghost ns: seq<Link>, ghost i: nat)
    requires Singly(list, ns) && i < |ns| && node == ns[i]
    requires (i == 0 ==> at == list) && (i > 0 ==> at == ns[i - 1])
    modifies list, at`next, node`next
    ensures Singly(list, ns[..i] + ns[i + 1..])
    ensures node.next == null
  {
    NextAt(list, ns, i);
    at.next := node.next;
    if node.next == list {
      list.prev := at;
    }
    node.next := null;
  }

  /** Removes a node by walking to its predecessor; a node that is elsewhere changes nothing. */
  method Remove(list: Link, node: Link, ghost ns: seq<Link>)
    requires Singly(list, ns)
    modifies list, ns
    ensures Singly(list, Without(ns, node))
    ensures node in ns ==> node.next == null
    ensures forall n <- ns :: n.prev == old(n.prev)
  {
    var at := list;
    ghost var i := 0;
    while at.next != list && at.next != node
      invariant i <= |ns| && at == (if i == 0 then list else ns[i - 1])
      invariant forall k :: 0 <= k < i ==> ns[k] != node
      invariant Singly(list, ns) && forall n <- ns :: n.prev == old(n.prev)
      decreases |ns| - i
    {
      if i > 0 {
        NextAt(list, ns, i - 1);
      }
      at := at.next;
      i := i + 1;
    }
    if i > 0 {
      NextAt(list, ns, i - 1);
    }
    if at.next != list {
      WithoutAt(ns, i);
      Unlink(list, at, node, ns, i);
    } else {
      WithoutNone(ns, node);
    }
  }

  lemma {:induction false} WithoutNone(ns: seq<Link>, node: Link)
    requires node !in ns
    ensures Without(ns, node) == ns
  {
    if ns != [] {
      WithoutNone(ns[1..], node);
    }
  }

  // ---- Doubly linked ----

  method DPushHead(list: Link, node: Link, ghost ns: seq<Link>)
    requires Doubly(list, ns) && node.next == null && node.prev == null
    modifies list, list.next`prev, node
    ensures Doubly(list, [node] + ns)
  {
    DetachedIsElsewhere(list, ns, node);
    node.prev := list;
    list.next.prev := node;
    PushHead(list, node, ns);
  }

  method DPushTail(list: Link, node: Link, ghost ns: seq<Link>)
    requires Doubly(list, ns) && node.next == null && node.prev == null
    modifies list, list.prev`next, node
    ensures Doubly(list, ns + [node])
  {
    node.prev := list.prev;
    PushTail(list, node, ns);
  }

  method DPopHead(list: Link, ghost ns: seq<Link>) returns (popped: Link?)
    requires Doubly(list, ns)
    modifies list, ns
    ensures popped == if ns == [] then null else ns[0]
    ensures popped != null ==> popped.next == null && popped.prev == null
    ensures Doubly(list, if ns == [] then [] else ns[1..])
  {
    popped := PopHead(list, ns);
    list.next.prev := list;
    if popped != null {
      popped.prev := null;
    }
  }

  /** Leads the pointers on both sides past node i. */
  method DUnlink(list: Link, node: Link, ghost ns: seq<Link>, ghost i: nat)
    requires Doubly(list, ns) && i < |ns| && node == ns[i]
    modifies list, ns
    ensures Doubly(list, ns[..i] + ns[i + 1..])
    ensures node.next == null && node.prev == null
  {
    NextAt(list, ns, i);
    PrevAt(list, ns, i);
    node.prev.next := node.next;
    node.next.prev := node.prev;
    node.prev := null;
    node.next := null;
  }

  method DRemove(list: Link, node: Link, ghost ns: seq<Link>)
    requires Doubly(list, ns) && node in ns
    modifies list, ns
    ensures Doubly(list, Without(ns, node))
    ensures node.next == null && node.prev == null
  {
    ghost var i :| 0 <= i < |ns| && ns[i] == node;
    WithoutAt(ns, i);
    DUnlink(list, node, ns, i);
  }

  /** Leads the pointers on both sides over a detached node, before node i. */
  method DLink(list: Link, node: Link, before: Link, ghost ns: seq<Link>, ghost i: nat)
    requires Doubly(list, ns) && node.next == null && i < |ns| && before == ns[i]
    modifies list, ns, node
    ensures Doubly(list, ns[..i] + [node] + ns[i..])
  {
    DetachedIsElsewhere(list, ns, node);
    PrevAt(list, ns, i);
    before.prev.next := node;
    node.prev := before.prev;
    node.next := before;
    before.prev := node;
  }

  /** Puts a node before another one of the list, or at the tail. */
  method DInsert(list: Link, node: Link, before: Link?, ghost ns: seq<Link>)
    requires Doubly(list, ns) && node.next == null && node.prev == null
    requires before == null || before in ns
    modifies list, ns, node
    ensures Doubly(list, if before == null then ns + [node] else Inserted(ns, node, before))
  {
    if before == null {
      DPushTail(list, node, ns);
      return;
    }
    ghost var i :| 0 <= i < |ns| && ns[i] == before;
    InsertedAt(ns, node, i);
    DLink(list, node, before, ns, i);
  }
}
