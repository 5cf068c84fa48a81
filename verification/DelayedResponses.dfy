/**
 Delayed responses of one entity c: a handler of c parks its response under the cookie of the
 event, and some later handler of c finds it by that cookie. Cookies identify the events that
 ask c for a response, and what is parked stays until it is asked for.
 */
module DelayedResponses {
  import opened Status
  import opened Counting
  import opened Events

  // ------------------------------------------------------------ cookies identify events

  /** An event with cookie k that asks c for a response. */
  function Asks(c: nat, k: int): Event -> bool {
    (e: Event) => e.cookie == k && e.target == c && e.responseRequested
  }

  function HasCookie(k: int): Event -> bool { (e: Event) => e.cookie == k }

  /** How often cookie k is, or may come to be, in the list of c. */
  function Uses(e: Engine, c: nat, k: int): nat
    requires c < |e.parked|
  {
    Count(e.ready, Asks(c, k)) + Count(e.isr, Asks(c, k)) + Count(e.parked[c], HasCookie(k))
    + Bit(e.current.Some? && Asks(c, k)(e.current.value))
  }

  /** Below the wrap of the counter every cookie is used once at most, and future ones not at all. */
  ghost predicate Unique(e: Engine, c: nat) {
    c < |e.parked| && forall k: int :: Uses(e, c, k) <= Bit(0 <= k < e.counter)
  }

  /** A handler fills in the parameters of the response, and may delay it. */
  predicate Fills(event: Event, reply: Event) {
    reply == Response(event).(isDelayed := reply.isDelayed, params := reply.params)
  }

  /** Light events, which carry no cookie of their own, do not ask c for a response. */
  predicate Ordinary(e: Engine, c: nat, m: Move) {
    match m
    case Call(ev, light) => light ==> !(ev.target == c && ev.responseRequested)
    case Interrupt(ev, light) => light ==> !(ev.target == c && ev.responseRequested)
    case Return(reply) => e.current.Some? && Fills(e.current.value, reply)
    case _ => true
  }

  lemma PutUnique(e: Engine, ev: Event, intr: bool, light: bool, c: nat)
    requires Unique(e, c) && ev.source < |e.parked| && e.counter + 1 < WRAP
    requires light ==> !(ev.target == c && ev.responseRequested)
    ensures Unique(PutEvent(e, ev, intr, light).engine, c)
  {
    hide PutEvent;
    PutEffect(e, ev, intr, light);
    if Available(e, ev, light) {
      EntersUnique(e, PutEvent(e, ev, intr, light).engine, ev, intr, light, c);
    }
  }

  lemma EntersUnique(e: Engine, t: Engine, ev: Event, intr: bool, light: bool, c: nat)
    requires Unique(e, c) && ev.source < |e.parked| && e.counter + 1 < WRAP && Available(e, ev, light)
    requires Enters(e, t, ev, intr, light) && (light ==> !(ev.target == c && ev.responseRequested))
    ensures Unique(t, c)
  {
    var x := Stamped(e, Entrant(e, ev, light), light);
    assert e.ready + [] == e.ready && e.isr + [] == e.isr;
    forall k: int
      ensures Uses(t, c, k) <= Bit(0 <= k < t.counter)
    {
      assert Uses(e, c, k) <= Bit(0 <= k < e.counter);
      CountPush(e.ready, x, Asks(c, k));
      CountPush(e.isr, x, Asks(c, k));
      if !light && ev.isDelayed && ev.source == c {
        CountWithout(e.parked[c], Find(e.parked[c], ev.cookie), HasCookie(k));
      }
    }
  }

  lemma FinishUnique(e: Engine, reply: Event, c: nat)
    requires Unique(e, c) && e.current.Some? && e.current.value.target < |e.parked| && e.counter + 1 < WRAP
    requires Fills(e.current.value, reply)
    ensures Unique(Finish(e, reply), c)
  {
    var cur := e.current.value;
    var r := reply.(isResponse := true, responseRequested := false);
    if cur.responseRequested && !reply.isDelayed {
      PutUnique(e, r, false, false, c);
      PutEffect(e, r, false, false);
      ReleaseUnique(PutEvent(e, r, false, false).engine, Finish(e, reply), c);
    } else if cur.responseRequested && e.free != [] {
      ParkUnique(e, Respond(e, reply), Finish(e, reply), r, c);
    } else {
      ReleaseUnique(e, Finish(e, reply), c);
    }
  }

  /** The event being processed is done with. */
  lemma ReleaseUnique(e: Engine, t: Engine, c: nat)
    requires Unique(e, c) && t == e.(current := None, free := t.free)
    ensures Unique(t, c)
  {
    forall k: int
      ensures Uses(t, c, k) <= Uses(e, c, k)
    {
    }
  }

  /** The cookie of the event passes to its parked response. */
  lemma ParkUnique(e: Engine, u: Engine, t: Engine, r: Event, c: nat)
    requires Unique(e, c) && e.current.Some? && e.free != [] && r.source < |e.parked|
    requires r.cookie == e.current.value.cookie && r.source == e.current.value.target && e.current.value.responseRequested
    requires Parks(e, u, r) && t == u.(current := None, free := t.free)
    ensures Unique(t, c)
  {
    var x := Fill(e.free[0], r, false);
    forall k: int
      ensures Uses(t, c, k) <= Bit(0 <= k < t.counter)
    {
      assert Uses(e, c, k) <= Bit(0 <= k < e.counter);
      CountPush(e.parked[r.source], x, HasCookie(k));
    }
  }

  /** Every step of the system keeps cookies unique. */
  lemma MoveUnique(e: Engine, c: nat, m: Move)
    requires Unique(e, c) && Enabled(e, m) && Ordinary(e, c, m) && e.counter + 1 < WRAP
    requires e.current.Some? ==> e.current.value.target < |e.parked|
    ensures Unique(Apply(e, m), c)
  {
    hide PutEvent, Finish;
    match m
    case Call(ev, light) =>
      var src := if e.current.Some? then e.current.value.target else ev.source;
      if src < |e.parked| {
        PutUnique(e, ev.(source := src), false, light, c);
      }
    case Interrupt(ev, light) =>
      if ev.source < |e.parked| {
        PutUnique(e, ev, true, light, c);
      }
    case Notify(ev, intr) => PutUnique(e, ev.(isResponse := false, isNotification := true), intr, false, c);
    case Return(reply) => FinishUnique(e, reply, c);
    case Dispatch =>
      forall k: int
        ensures Uses(Begin(e), c, k) == Uses(e, c, k)
      {
      }
    case PullIsr =>
      forall k: int
        ensures Uses(Pull(e), c, k) == Uses(e, c, k)
      {
        CountPush(e.ready, e.isr[0], Asks(c, k));
      }
  }

  lemma BootUnique(e: Engine, c: nat)
    requires c < |e.parked| && e.ready == [] && e.isr == [] && e.current.None? && e.parked[c] == []
    ensures Unique(e, c)
  {
  }

  // ------------------------------------------------------------ what is parked stays

  /** Looking for cookie k in the list of c finds ev. */
  predicate Held(e: Engine, c: nat, k: int, ev: Event) {
    c < |e.parked| && var q := e.parked[c]; Find(q, k) < |q| && q[Find(q, k)] == ev
  }

  lemma {:induction false} FindAppend(q: seq<Event>, r: seq<Event>, k: int)
    ensures Find(q + r, k) == if Find(q, k) < |q| then Find(q, k) else |q| + Find(r, k)
  {
    if q == [] {
      assert q + r == r;
    } else if q[0].cookie != k {
      assert (q + r)[1..] == q[1..] + r;
      FindAppend(q[1..], r, k);
    }
  }

  lemma FindWithout(q: seq<Event>, i: nat, k: int)
    requires i < |q| && q[i].cookie != k && Find(q, k) < |q|
    ensures var r := Without(q, i); Find(r, k) < |r| && r[Find(r, k)] == q[Find(q, k)]
  {
    hide Find, Without;
    WithoutAt(q, i);
    var r, j := Without(q, i), Find(q, k);
    var l := if j < i then j else j - 1;
    assert r[l] == q[j];
    assert forall n :: 0 <= n < l ==> r[n].cookie != k;
  }

  /** The entity in whose name a call is made. */
  function Caller(e: Engine, source: nat): nat { if e.current.Some? then e.current.value.target else source }

  /** A put of ev takes a delayed response with this id out of the list of c. */
  predicate Takes(e: Engine, ev: Event, c: nat, id: nat) {
    && ev.isDelayed && ev.source == c < |e.parked|
    && var q := e.parked[c]; Find(q, ev.cookie) < |q| && q[Find(q, ev.cookie)].id == id
  }

  /** The step sends a delayed response of c with this id. */
  predicate Releases(e: Engine, c: nat, id: nat, m: Move) {
    match m
    case Call(ev, light) => !light && Takes(e, ev.(source := Caller(e, ev.source)), c, id)
    case Interrupt(ev, light) => !light && Takes(e, ev, c, id)
    case Notify(ev, _) => Takes(e, ev, c, id)
    case _ => false
  }

  lemma PutHolds(e: Engine, x: Event, intr: bool, light: bool, c: nat, k: int, ev: Event)
    requires Held(e, c, k, ev) && x.source < |e.parked| && (light || !Takes(e, x, c, ev.id))
    ensures Held(PutEvent(e, x, intr, light).engine, c, k, ev)
  {
    PutEffect(e, x, intr, light);
    hide PutEvent;
    if !light && x.isDelayed && x.source == c && Available(e, x, light) {
      FindWithout(e.parked[c], Find(e.parked[c], x.cookie), k);
    }
  }

  lemma MoveHolds(e: Engine, c: nat, m: Move, k: int, ev: Event)
    requires Held(e, c, k, ev) && Enabled(e, m) && !Releases(e, c, ev.id, m)
    ensures Held(Apply(e, m), c, k, ev)
  {
    hide PutEvent;
    match m
    case Call(x, light) =>
      if Caller(e, x.source) < |e.parked| {
        PutHolds(e, x.(source := Caller(e, x.source)), false, light, c, k, ev);
      }
    case Interrupt(x, light) =>
      if x.source < |e.parked| {
        PutHolds(e, x, true, light, c, k, ev);
      }
    case Notify(x, intr) => PutHolds(e, x.(isResponse := false, isNotification := true), intr, false, c, k, ev);
    case Return(reply) => FinishHolds(e, reply, c, k, ev);
    case Dispatch =>
    case PullIsr =>
  }

  lemma FinishHolds(e: Engine, reply: Event, c: nat, k: int, ev: Event)
    requires Held(e, c, k, ev) && e.current.Some? && reply.source < |e.parked|
    ensures Held(Finish(e, reply), c, k, ev)
  {
    var r := reply.(isResponse := true, responseRequested := false);
    if e.current.value.responseRequested && !reply.isDelayed {
      PutHolds(e, r, false, false, c, k, ev);
    } else if e.current.value.responseRequested && e.free != [] {
      FindAppend(e.parked[r.source], [Fill(e.free[0], r, false)], k);
    }
  }

  /** The response that a handler of c delays is found under the cookie of its event. */
  lemma ParkHolds(e: Engine, c: nat, reply: Event)
    requires Unique(e, c) && e.current.Some? && e.current.value.target == c && e.current.value.responseRequested
    requires e.free != [] && reply.isDelayed && Fills(e.current.value, reply)
    ensures Held(Finish(e, reply), c, e.current.value.cookie,
                 reply.(isResponse := true, responseRequested := false, slot := e.free[0].slot))
  {
    var k, q := e.current.value.cookie, e.parked[c];
    assert Uses(e, c, k) <= 1;
    CountZero(q, HasCookie(k));
    assert forall i :: 0 <= i < |q| ==> !HasCookie(k)(q[i]);
    FindAppend(q, [Fill(e.free[0], reply.(isResponse := true, responseRequested := false), false)], k);
  }
}
