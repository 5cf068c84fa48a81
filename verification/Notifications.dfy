/**
 Notification subscriptions: a fixed pool of subscription structures that move between the
 free list and one list per notification and emitter, and the delivery of a notification as
 one event per subscriber through the event engine.
 */
module Notifications {
  import opened Status
  import opened Counting
  import opened Events
  import opened Framework

  /** A subscription structure; slot is its identity in the pool. */
  datatype Subscription = Subscription(slot: nat, source: nat, target: nat)

  /** The free list and the subscription lists. */
  datatype Table = Table(free: seq<Subscription>, lists: seq<seq<Subscription>>)

  predicate Matches(s: Subscription, source: nat, target: nat) { s.source == source && s.target == target }

  /** Position of the subscription of target to source, or the length of the list. */
  function Search(q: seq<Subscription>, source: nat, target: nat): (i: nat)
    ensures i <= |q| && (i < |q| ==> Matches(q[i], source, target))
    ensures forall j :: 0 <= j < i ==> !Matches(q[j], source, target)
  {
    if q == [] || Matches(q[0], source, target) then 0 else 1 + Search(q[1..], source, target)
  }

  datatype Change = Change(table: Table, status: int)

  function Subscribed(t: Table, l: nat, source: nat, target: nat): Change
    requires l < |t.lists|
  {
    var q := t.lists[l];
    if Search(q, source, target) < |q| then Change(t, E_STATE)
    else if t.free == [] then Change(t, E_NOMEM)
    else
      var s := t.free[0].(source := source, target := target);
      Change(Table(t.free[1..], t.lists[l := q + [s]]), SUCCESS)
  }

  function Unsubscribed(t: Table, l: nat, source: nat, target: nat): Change
    requires l < |t.lists|
  {
    var q, i := t.lists[l], Search(t.lists[l], source, target);
    if i == |q| then Change(t, E_STATE)
    else Change(Table(t.free + [q[i]], t.lists[l := Without(q, i)]), SUCCESS)
  }

  /** The subscriptions of a list other than those of target to source, in order. */
  function Others(q: seq<Subscription>, source: nat, target: nat): seq<Subscription> {
    if q == [] then []
    else (if Matches(q[0], source, target) then [] else [q[0]]) + Others(q[1..], source, target)
  }

  predicate Subscribes(q: seq<Subscription>, source: nat, target: nat) {
    exists i :: 0 <= i < |q| && Matches(q[i], source, target)
  }

  /** No list but l has changed. */
  predicate OnlyList(t: Table, u: Table, l: nat) {
    |u.lists| == |t.lists| && forall k :: 0 <= k < |t.lists| && k != l ==> u.lists[k] == t.lists[k]
  }

  /**
   A subscription succeeds exactly when the pair is absent and a structure is free. The list is
   then the old one followed by the new pair, in that structure.
   */
  ghost predicate Enrolled(t: Table, l: nat, source: nat, target: nat, u: Table, status: int)
    requires l < |t.lists|
  {
    if Subscribes(t.lists[l], source, target) then status == E_STATE && u == t
    else if t.free == [] then status == E_NOMEM && u == t
    else
      && status == SUCCESS && OnlyList(t, u, l) && |u.lists[l]| == |t.lists[l]| + 1 && t.lists[l] <= u.lists[l]
      && u.lists[l][|t.lists[l]|] == Subscription(t.free[0].slot, source, target) && u.free == t.free[1..]
  }

  /**
   An unsubscription succeeds exactly when the pair is there. One structure with the pair goes
   from the list to the pool, and a list that had the pair once is left with all others in order.
   */
  ghost predicate Withdrawn(t: Table, l: nat, source: nat, target: nat, u: Table, status: int)
    requires l < |t.lists|
  {
    if !Subscribes(t.lists[l], source, target) then status == E_STATE && u == t
    else
      && status == SUCCESS && OnlyList(t, u, l) && |u.lists[l]| == |t.lists[l]| - 1
      && |u.free| == |t.free| + 1 && t.free <= u.free
      && Matches(u.free[|t.free|], source, target) && u.free[|t.free|] in t.lists[l]
      && Others(u.lists[l], source, target) == Others(t.lists[l], source, target)
      && (Distinct(t.lists[l]) ==>
            u.lists[l] == Others(t.lists[l], source, target) && !Subscribes(u.lists[l], source, target))
  }

  lemma {:induction false} OthersWithout(q: seq<Subscription>, i: nat, source: nat, target: nat)
    requires i < |q| && Matches(q[i], source, target)
    ensures Others(Without(q, i), source, target) == Others(q, source, target)
    decreases i
  {
    if i == 0 {
      assert Without(q, 0) == q[1..];
    } else {
      assert Without(q, i) == [q[0]] + Without(q[1..], i - 1);
      OthersWithout(q[1..], i - 1, source, target);
    }
  }

  lemma {:induction false} OthersAll(q: seq<Subscription>, source: nat, target: nat)
    requires !Subscribes(q, source, target)
    ensures Others(q, source, target) == q
  {
    if q != [] {
      assert forall i :: 0 <= i < |q[1..]| ==> q[1..][i] == q[i + 1];
      OthersAll(q[1..], source, target);
    }
  }

  lemma SubscribedEnrols(t: Table, l: nat, source: nat, target: nat)
    requires l < |t.lists|
    ensures var c := Subscribed(t, l, source, target); Enrolled(t, l, source, target, c.table, c.status)
  {
  }

  lemma UnsubscribedWithdraws(t: Table, l: nat, source: nat, target: nat)
    requires l < |t.lists|
    ensures var c := Unsubscribed(t, l, source, target); Withdrawn(t, l, source, target, c.table, c.status)
  {
    var q, i := t.lists[l], Search(t.lists[l], source, target);
    if i < |q| {
      var r := Without(q, i);
      WithoutAt(q, i);
      OthersWithout(q, i, source, target);
      if Distinct(q) {
        forall j | 0 <= j < |r|
          ensures !Matches(r[j], source, target)
        {
          assert r[j] == q[if j < i then j else j + 1];
        }
        OthersAll(r, source, target);
      }
    }
  }

  // ------------------------------------------------------------ conservation, no duplicates

  function OfSlot(k: nat): Subscription -> bool { (s: Subscription) => s.slot == k }

  /** In how many places subscription structure k is. */
  function Places(t: Table, k: nat): nat { Count(t.free, OfSlot(k)) + CountAny(t.lists, OfSlot(k)) }

  ghost predicate Distinct(q: seq<Subscription>) {
    forall i, j :: 0 <= i < j < |q| ==> !(q[i].source == q[j].source && q[i].target == q[j].target)
  }

  ghost predicate NoDuplicates(t: Table) { forall l :: 0 <= l < |t.lists| ==> Distinct(t.lists[l]) }

  datatype Op = Sub(l: nat, source: nat, target: nat) | Unsub(l: nat, source: nat, target: nat)

  function Do(t: Table, op: Op): Table
    requires op.l < |t.lists|
  {
    match op
    case Sub(l, source, target) => Subscribed(t, l, source, target).table
    case Unsub(l, source, target) => Unsubscribed(t, l, source, target).table
  }

  lemma OpConserves(t: Table, op: Op, k: nat)
    requires op.l < |t.lists|
    ensures Places(Do(t, op), k) == Places(t, k) && |Do(t, op).lists| == |t.lists|
  {
    var q, i := t.lists[op.l], Search(t.lists[op.l], op.source, op.target);
    match op
    case Sub(l, source, target) =>
      if i == |q| && t.free != [] {
        var s := t.free[0].(source := source, target := target);
        CountPush(q, s, OfSlot(k));
        CountAnyUpdate(t.lists, l, q + [s], OfSlot(k));
      }
    case Unsub(l, _, _) =>
      if i < |q| {
        CountWithout(q, i, OfSlot(k));
        CountPush(t.free, q[i], OfSlot(k));
        CountAnyUpdate(t.lists, l, Without(q, i), OfSlot(k));
      }
  }

  lemma OpNoDuplicates(t: Table, op: Op)
    requires op.l < |t.lists| && NoDuplicates(t)
    ensures NoDuplicates(Do(t, op))
  {
    var q, i := t.lists[op.l], Search(t.lists[op.l], op.source, op.target);
    assert Distinct(q);
    if op.Unsub? && i < |q| {
      forall a, b | 0 <= a < b < |Without(q, i)|
        ensures !(Without(q, i)[a].source == Without(q, i)[b].source && Without(q, i)[a].target == Without(q, i)[b].target)
      {
        var a', b' := if a < i then a else a + 1, if b < i then b else b + 1;
        assert Without(q, i)[a] == q[a'] && Without(q, i)[b] == q[b'];
      }
    }
  }

  function After(t: Table, ops: seq<Op>): (r: Table)
    requires forall i :: 0 <= i < |ops| ==> ops[i].l < |t.lists|
    ensures |r.lists| == |t.lists|
    decreases |ops|
  {
    if ops == [] then t
    else
      OpConserves(t, ops[0], 0);
      After(Do(t, ops[0]), ops[1..])
  }

  /** Over any sequence of calls every subscription structure stays in one place and no list holds a pair twice. */
  lemma {:induction false} SubscriptionsConserved(t: Table, ops: seq<Op>, k: nat)
    requires forall i :: 0 <= i < |ops| ==> ops[i].l < |t.lists|
    ensures Places(After(t, ops), k) == Places(t, k)
    ensures NoDuplicates(t) ==> NoDuplicates(After(t, ops))
    decreases |ops|
  {
    if ops != [] {
      OpConserves(t, ops[0], k);
      if NoDuplicates(t) {
        OpNoDuplicates(t, ops[0]);
      }
      SubscriptionsConserved(Do(t, ops[0]), ops[1..], k);
    }
  }

  /** Unsubscribing undoes a successful subscription: the list is as before. */
  lemma SubscribeThenUnsubscribe(t: Table, l: nat, source: nat, target: nat)
    requires l < |t.lists| && Subscribed(t, l, source, target).status == SUCCESS
    ensures var u := Unsubscribed(Subscribed(t, l, source, target).table, l, source, target);
      u.status == SUCCESS && u.table.lists == t.lists && |u.table.free| == |t.free|
  {
    var q := t.lists[l];
    var s := t.free[0].(source := source, target := target);
    var i := Search(q + [s], source, target);
    assert (q + [s])[|q|] == s;
    assert forall j :: 0 <= j < |q| ==> (q + [s])[j] == q[j];
    assert i == |q|;
    assert Without(q + [s], |q|) == q;
    assert t.lists[l := q + [s]][l := q] == t.lists;
  }

  // ------------------------------------------------------------ delivery

  function Matching(subs: seq<Subscription>, source: nat): seq<Subscription> {
    if subs == [] then []
    else (if subs[0].source == source then [subs[0]] else []) + Matching(subs[1..], source)
  }

  datatype Sent = Sent(engine: Engine, count: nat)

  /** One event for each subscriber to the event's source, in list order; counts those queued. */
  function NotifyAll(e: Engine, ev: Event, subs: seq<Subscription>, intr: bool): Sent
    requires ev.source < |e.parked| && !ev.isDelayed
    decreases |subs|
  {
    if subs == [] then Sent(e, 0)
    else if subs[0].source != ev.source then NotifyAll(e, ev, subs[1..], intr)
    else
      var o := PutNotification(e, ev.(target := subs[0].target), intr);
      var rest := NotifyAll(o.engine, ev, subs[1..], intr);
      Sent(rest.engine, rest.count + Bit(o.status == SUCCESS))
  }

  /** The event that the i-th matching subscriber is sent. */
  function Notice(e: Engine, ev: Event, s: Subscription, i: nat): Event
    requires i < |e.free|
  {
    ev.(slot := e.free[i].slot, target := s.target, isResponse := false, isNotification := true,
        cookie := (e.counter + i) % WRAP)
  }

  function Notices(e: Engine, ev: Event, subs: seq<Subscription>): seq<Event>
    requires |subs| <= |e.free|
  {
    seq(|subs|, i requires 0 <= i < |subs| => Notice(e, ev, subs[i], i))
  }

  /** r queued one event for each of the subscribers ms, as far as free structures went, and counted them. */
  ghost predicate Exact(e: Engine, ev: Event, ms: seq<Subscription>, intr: bool, r: Sent) {
    var m := Min(|ms|, |e.free|);
    && r.count == m && r.engine.free == e.free[m..] && r.engine.parked == e.parked && r.engine.current == e.current
    && r.engine.ready == e.ready + (if intr then [] else Notices(e, ev, ms[..m]))
    && r.engine.isr == e.isr + (if intr then Notices(e, ev, ms[..m]) else [])
  }

  /**
   A notification queues one event per matching subscriber, in subscription order, as long as
   there are free event structures, and reports exactly how many: the smaller of both numbers.
   */
  lemma {:induction false} NotifyIsExact(e: Engine, ev: Event, subs: seq<Subscription>, intr: bool)
    requires ev.source < |e.parked| && !ev.isDelayed && e.counter < WRAP
    ensures Exact(e, ev, Matching(subs, ev.source), intr, NotifyAll(e, ev, subs, intr))
    decreases |subs|
  {
    if subs != [] {
      var rest := Matching(subs[1..], ev.source);
      if subs[0].source != ev.source {
        NotifyIsExact(e, ev, subs[1..], intr);
        assert Matching(subs, ev.source) == rest;
      } else {
        assert Matching(subs, ev.source) == [subs[0]] + rest;
        var f := PutNotification(e, ev.(target := subs[0].target), intr).engine;
        NotifyIsExact(f, ev, subs[1..], intr);
        if e.free != [] {
          ExactStep(e, f, ev, subs[0], rest, intr, NotifyAll(f, ev, subs[1..], intr));
        }
      }
    }
  }

  lemma ExactStep(e: Engine, f: Engine, ev: Event, s: Subscription, rest: seq<Subscription>, intr: bool, r: Sent)
    requires e.free != [] && e.counter < WRAP && Exact(f, ev, rest, intr, r)
    requires f == Queue(e.(free := e.free[1..]), Notice(e, ev, s, 0), intr, false)
    ensures Exact(e, ev, [s] + rest, intr, Sent(r.engine, r.count + 1))
  {
    hide Notices;
    NoticesStep(e, f, ev, s, rest, Min(|[s] + rest|, |e.free|));
  }

  lemma NoticesStep(e: Engine, f: Engine, ev: Event, s: Subscription, rest: seq<Subscription>, m: nat)
    requires e.free != [] && f.free == e.free[1..] && e.counter < WRAP && f.counter == (e.counter + 1) % WRAP
    requires 0 < m <= |rest| + 1 && m <= |e.free|
    ensures Notices(e, ev, ([s] + rest)[..m]) == [Notice(e, ev, s, 0)] + Notices(f, ev, rest[..m - 1])
    ensures f.free[m - 1..] == e.free[m..]
  {
    var a, b := Notices(e, ev, ([s] + rest)[..m]), [Notice(e, ev, s, 0)] + Notices(f, ev, rest[..m - 1]);
    forall i | 0 <= i < m
      ensures a[i] == b[i]
    {
      if i > 0 {
        assert ([s] + rest)[..m][i] == rest[..m - 1][i - 1];
        assert f.free[i - 1] == e.free[i];
        assert (f.counter + (i - 1)) % WRAP == (e.counter + i) % WRAP;
      }
    }
  }

  /** The notification context: its lists are rewritten in place; ids are validated by the caller's flag. */
  class Registry {
    const fw: Context
    var free: seq<Subscription>
    var lists: seq<seq<Subscription>>

    constructor (framework: Context, pool: nat, count: nat)
      ensures fw == framework && |lists| == count && NoDuplicates(View())
      ensures forall l :: 0 <= l < count ==> lists[l] == []
      ensures |free| == pool && forall i :: 0 <= i < pool ==> free[i].slot == i
    {
      fw := framework;
      lists := seq(count, _ => []);
      free := seq(pool, i requires 0 <= i < pool => Subscription(i, 0, 0));
    }

    ghost function View(): Table
      reads this
    {
      Table(free, lists)
    }

    method SearchSubscription(l: nat, source: nat, target: nat) returns (i: nat)
      requires l < |lists|
      ensures i == Search(lists[l], source, target)
    {
      i := 0;
      while i < |lists[l]|
        invariant 0 <= i <= |lists[l]|
        invariant Search(lists[l], source, target) == i + Search(lists[l][i..], source, target)
      {
        if Matches(lists[l][i], source, target) {
          return;
        }
        assert lists[l][i..][1..] == lists[l][i + 1..];
        i := i + 1;
      }
    }

    method Subscribe(intr: bool, valid: bool, l: nat, source: nat, target: nat) returns (status: int)
      requires l < |lists|
      modifies this`free, this`lists
      ensures Change(View(), status) ==
        if intr then Change(old(View()), E_HANDLER)
        else if !valid then Change(old(View()), E_PARAM)
        else Subscribed(old(View()), l, source, target)
      ensures !intr && valid ==> Enrolled(old(View()), l, source, target, View(), status)
    {
      SubscribedEnrols(View(), l, source, target);
      if intr {
        return E_HANDLER;
      }
      if !valid {
        return E_PARAM;
      }
      var i := SearchSubscription(l, source, target);
      if i < |lists[l]| {
        return E_STATE;
      }
      if |free| == 0 {
        return E_NOMEM;
      }
      var s := free[0].(source := source, target := target);
      free := free[1..];
      lists := lists[l := lists[l] + [s]];
      status := SUCCESS;
    }

    method Unsubscribe(intr: bool, valid: bool, l: nat, source: nat, target: nat) returns (status: int)
      requires l < |lists|
      modifies this`free, this`lists
      ensures Change(View(), status) ==
        if intr then Change(old(View()), E_HANDLER)
        else if !valid then Change(old(View()), E_PARAM)
        else Unsubscribed(old(View()), l, source, target)
      ensures !intr && valid ==> Withdrawn(old(View()), l, source, target, View(), status)
    {
      UnsubscribedWithdraws(View(), l, source, target);
      if intr {
        return E_HANDLER;
      }
      if !valid {
        return E_PARAM;
      }
      var i := SearchSubscription(l, source, target);
      if i == |lists[l]| {
        return E_STATE;
      }
      var s := lists[l][i];
      lists := lists[l := Without(lists[l], i)];
      free := free + [s];
      status := SUCCESS;
    }

    /** Sends the notification to every subscriber of its source in list l. */
    method SendNotifications(ev: Event, l: nat, intr: bool) returns (count: nat)
      requires l < |lists| && ev.source < |fw.parked| && !ev.isDelayed
      modifies fw
      ensures Sent(fw.View(), count) == NotifyAll(old(fw.View()), ev, lists[l], intr)
    {
      count := 0;
      var i, subs := 0, lists[l];
      while i < |subs|
        invariant 0 <= i <= |subs| && ev.source < |fw.parked|
        invariant var r := NotifyAll(fw.View(), ev, subs[i..], intr);
          Sent(r.engine, r.count + count) == NotifyAll(old(fw.View()), ev, subs, intr)
      {
        assert subs[i..][1..] == subs[i + 1..];
        if subs[i].source == ev.source {
          var status := fw.PutNotification(ev.(target := subs[i].target), intr);
          if status == SUCCESS {
            count := count + 1;
          }
        }
        i := i + 1;
      }
    }

    /**
     Notifies: outside interrupts an emitter that is not an entity is replaced by the entity
     whose event is being processed; then the identifiers must be valid.
     */
    method Notify(ev: Event, valid: bool, l: nat, intr: bool) returns (status: int, count: nat)
      requires l < |lists| && !ev.isDelayed && (fw.current.Some? ==> fw.current.value.target < |fw.parked|)
      modifies fw
      ensures var before := old(fw.View());
        var source := if !intr && before.current.Some? && ev.source >= |before.parked| then before.current.value.target else ev.source;
        if source >= |before.parked| || !valid then status == E_PARAM && fw.View() == before
        else status == SUCCESS && Sent(fw.View(), count) == NotifyAll(before, ev.(source := source), lists[l], intr)
    {
      count := 0;
      var event := ev;
      if !intr && fw.current.Some? && ev.source >= |fw.parked| {
        event := ev.(source := fw.current.value.target);
      }
      if event.source >= |fw.parked| || !valid {
        return E_PARAM, 0;
      }
      count := SendNotifications(event, l, intr);
      status := SUCCESS;
    }
  }

  lemma {:induction false} NotifyIsFramed(e: Engine, ev: Event, subs: seq<Subscription>, intr: bool)
    requires ev.source < |e.parked| && !ev.isDelayed
    ensures NotifyAll(e, ev, subs, intr).engine.current == e.current
    ensures NotifyAll(e, ev, subs, intr).engine.parked == e.parked
    decreases |subs|
  {
    if subs != [] {
      var o := PutNotification(e, ev.(target := subs[0].target), intr);
      NotifyIsFramed(if subs[0].source == ev.source then o.engine else e, ev, subs[1..], intr);
    }
  }
}
