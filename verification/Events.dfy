/**
 The event engine: a fixed pool of event structures that move between the free queue, the
 ordinary queue, the interrupt queue, per-entity lists of delayed responses and the slot of
 the event being processed. Handlers and interrupt routines are arbitrary: a run is any
 sequence of posts, dispatches and completions that the main loop allows.
 */
module Events {
  import opened Status
  import opened Counting

  /** An event structure; slot is its identity in the pool. */
  datatype Event = Event(
    slot: nat, source: nat, target: nat, cookie: int,
    isResponse: bool, responseRequested: bool, isNotification: bool, isDelayed: bool,
    id: nat, params: int)

  datatype Engine = Engine(
    free: seq<Event>, ready: seq<Event>, isr: seq<Event>,
    parked: seq<seq<Event>>, current: Option<Event>, counter: nat)

  datatype Outcome = Outcome(engine: Engine, status: int)

  const WRAP: nat := 0x1_0000_0000

  /** Position of the first event with this cookie, or the length of the list. */
  function Find(q: seq<Event>, cookie: int): (i: nat)
    ensures i <= |q| && (i < |q| ==> q[i].cookie == cookie)
    ensures forall j :: 0 <= j < i ==> q[j].cookie != cookie
  {
    if q == [] || q[0].cookie == cookie then 0 else 1 + Find(q[1..], cookie)
  }

  /** Standard events get the next cookie, light ones keep the old one. */
  function Stamped(s: Engine, e: Event, light: bool): Event { if light then e else e.(cookie := s.counter) }

  function Queue(s: Engine, e: Event, intr: bool, light: bool): Engine {
    var e := Stamped(s, e, light);
    var s := if light then s else s.(counter := (s.counter + 1) % WRAP);
    if intr then s.(isr := s.isr + [e]) else s.(ready := s.ready + [e])
  }

  /** The content that a structure taken from the pool is given. */
  function Fill(slot: Event, ev: Event, light: bool): Event {
    if light then slot.(id := ev.id, source := ev.source, target := ev.target, isNotification := false,
                        responseRequested := ev.responseRequested, isDelayed := false, isResponse := false)
    else ev.(slot := slot.slot)
  }

  /** put_event: a delayed response leaves its list, anything else takes a free structure. */
  function PutEvent(s: Engine, ev: Event, intr: bool, light: bool): Outcome
    requires ev.source < |s.parked|
  {
    if !light && ev.isDelayed then
      var q := s.parked[ev.source];
      var i := Find(q, ev.cookie);
      if i == |q| then Outcome(s, E_PARAM)
      else
        var s := s.(parked := s.parked[ev.source := Without(q, i)]);
        Outcome(Queue(s, q[i].(params := ev.params), intr, light), SUCCESS)
    else if s.free == [] then Outcome(s, E_NOMEM)
    else Outcome(Queue(s.(free := s.free[1..]), Fill(s.free[0], ev, light), intr, light), SUCCESS)
  }

  /** The public call: outside interrupts the source is the entity whose event is being processed. */
  function Post(s: Engine, ev: Event, intr: bool, light: bool): Outcome
    requires s.current.Some? ==> s.current.value.target < |s.parked|
  {
    if !intr && s.current.Some? then PutEvent(s, ev.(source := s.current.value.target), intr, light)
    else if ev.source >= |s.parked| then Outcome(s, E_PARAM)
    else PutEvent(s, ev, intr, light)
  }

  /** A notification is queued under the emitter it names, whoever is running. */
  function PutNotification(s: Engine, ev: Event, intr: bool): Outcome
    requires ev.source < |s.parked|
  {
    PutEvent(s, ev.(isResponse := false, isNotification := true), intr, false)
  }

  function Begin(s: Engine): Engine
    requires s.ready != []
  {
    s.(current := Some(s.ready[0]), ready := s.ready[1..])
  }

  /** The response that a handler starts from. */
  function Response(e: Event): Event { e.(source := e.target, target := e.source, isDelayed := false) }

  /** The handler has returned, leaving reply as the response: it is sent, or parked for later. */
  function Respond(s: Engine, reply: Event): Engine
    requires reply.source < |s.parked|
  {
    var reply := reply.(isResponse := true, responseRequested := false);
    if !reply.isDelayed then PutEvent(s, reply, false, false).engine
    else if s.free == [] then s
    else s.(free := s.free[1..],
            parked := s.parked[reply.source := s.parked[reply.source] + [Fill(s.free[0], reply, false)]])
  }

  function Finish(s: Engine, reply: Event): Engine
    requires s.current.Some? && (s.current.value.responseRequested ==> reply.source < |s.parked|)
  {
    var e := s.current.value;
    var s := if e.responseRequested then Respond(s, reply) else s;
    s.(current := None, free := s.free + [e])
  }

  function Pull(s: Engine): Engine
    requires s.isr != []
  {
    s.(isr := s.isr[1..], ready := s.ready + [s.isr[0]])
  }

  // ------------------------------------------------------------ runs

  datatype Move =
    | Call(ev: Event, light: bool)
    | Interrupt(ev: Event, light: bool)
    | Notify(ev: Event, intr: bool)
    | Dispatch
    | Return(reply: Event)
    | PullIsr

  /** What the main loop, handlers and interrupts may do next. */
  predicate Enabled(s: Engine, m: Move) {
    match m
    case Call(ev, _) => ev.target < |s.parked| && (s.current.Some? ==> s.current.value.target < |s.parked|)
    case Interrupt(ev, _) => ev.target < |s.parked| && (s.current.Some? ==> s.current.value.target < |s.parked|)
    case Notify(ev, _) => ev.source < |s.parked| && ev.target < |s.parked|
    case Dispatch => s.current.None? && s.ready != []
    case Return(reply) => s.current.Some? && reply.source < |s.parked|
    case PullIsr => s.current.None? && s.ready == [] && s.isr != []
  }

  function Apply(s: Engine, m: Move): Engine
    requires Enabled(s, m)
  {
    match m
    case Call(ev, light) => Post(s, ev, false, light).engine
    case Interrupt(ev, light) => Post(s, ev, true, light).engine
    case Notify(ev, intr) => PutNotification(s, ev, intr).engine
    case Dispatch => Begin(s)
    case Return(reply) => Finish(s, reply)
    case PullIsr => Pull(s)
  }

  /** A call made while a handler or an interrupt routine runs. */
  predicate IsPost(m: Move) { m.Call? || m.Interrupt? || m.Notify? }

  predicate InInterrupt(m: Move) { m.Interrupt? || (m.Notify? && m.intr) }

  // ------------------------------------------------------------ what a put does

  /** The structure that a put takes: a delayed response out of its list, or a free one. */
  predicate Available(s: Engine, ev: Event, light: bool)
    requires ev.source < |s.parked|
  {
    if !light && ev.isDelayed then Find(s.parked[ev.source], ev.cookie) < |s.parked[ev.source]| else s.free != []
  }

  function Entrant(s: Engine, ev: Event, light: bool): Event
    requires ev.source < |s.parked| && Available(s, ev, light)
  {
    if !light && ev.isDelayed then s.parked[ev.source][Find(s.parked[ev.source], ev.cookie)].(params := ev.params)
    else Fill(s.free[0], ev, light)
  }

  /** t is s with the event x queued, its structure taken from where a put of ev takes it. */
  ghost predicate Enters(s: Engine, t: Engine, ev: Event, intr: bool, light: bool)
    requires ev.source < |s.parked| && Available(s, ev, light)
  {
    var x := Stamped(s, Entrant(s, ev, light), light);
    var q := s.parked[ev.source];
    && t.ready == s.ready + (if intr then [] else [x]) && t.isr == s.isr + (if intr then [x] else [])
    && t.current == s.current && t.counter == (if light then s.counter else (s.counter + 1) % WRAP)
    && if !light && ev.isDelayed then
         t.free == s.free && t.parked == s.parked[ev.source := Without(q, Find(q, ev.cookie))]
       else t.free == s.free[1..] && t.parked == s.parked
  }

  /** A put queues one event, or fails and changes nothing. */
  lemma PutEffect(s: Engine, ev: Event, intr: bool, light: bool)
    requires ev.source < |s.parked|
    ensures var o := PutEvent(s, ev, intr, light);
      if Available(s, ev, light) then o.status == SUCCESS && Enters(s, o.engine, ev, intr, light)
      else o.engine == s && o.status == if !light && ev.isDelayed then E_PARAM else E_NOMEM
  {
  }

  /**
   What a put that takes a free structure adds to a queue. A light event has the identifier,
   source, target and response request that were posted and no other quality, and what the
   structure held otherwise; a standard one is the event posted, under the next cookie.
   */
  ghost predicate Enqueued(s: Engine, t: Engine, ev: Event, intr: bool, light: bool, x: Event) {
    && s.free != [] && x.slot == s.free[0].slot
    && x.id == ev.id && x.source == ev.source && x.target == ev.target && x.responseRequested == ev.responseRequested
    && (if light then
          && !x.isNotification && !x.isResponse && !x.isDelayed
          && x.cookie == s.free[0].cookie && x.params == s.free[0].params
        else
          && x.isNotification == ev.isNotification && x.isResponse == ev.isResponse && x.isDelayed == ev.isDelayed
          && x.params == ev.params && x.cookie == s.counter)
    && t.counter == (if light then s.counter else (s.counter + 1) % WRAP)
    && t.ready == s.ready + (if intr then [] else [x]) && t.isr == s.isr + (if intr then [x] else [])
    && t.free == s.free[1..] && t.parked == s.parked && t.current == s.current
  }

  /** The delayed response with the cookie of ev leaves its list and is queued with the parameters of ev. */
  ghost predicate Released(s: Engine, t: Engine, ev: Event, intr: bool, x: Event) {
    && ev.source < |s.parked| && |t.parked| == |s.parked|
    && (exists i :: 0 <= i < |s.parked[ev.source]| &&
          var y := s.parked[ev.source][i];
          && y.cookie == ev.cookie && (forall j :: 0 <= j < i ==> s.parked[ev.source][j].cookie != ev.cookie)
          && t.parked[ev.source] == s.parked[ev.source][..i] + s.parked[ev.source][i + 1..]
          && x == y.(params := ev.params, cookie := s.counter))
    && (forall e :: 0 <= e < |s.parked| && e != ev.source ==> t.parked[e] == s.parked[e])
    && t.counter == (s.counter + 1) % WRAP
    && t.ready == s.ready + (if intr then [] else [x]) && t.isr == s.isr + (if intr then [x] else [])
    && t.free == s.free && t.current == s.current
  }

  /** The event that a put has just queued. */
  function Newest(t: Engine, intr: bool): Option<Event> {
    var q := if intr then t.isr else t.ready;
    if q == [] then None else Some(q[|q| - 1])
  }

  /** What a put does to the engine, and when it fails. */
  ghost predicate PutOutcome(s: Engine, ev: Event, intr: bool, light: bool, t: Engine, status: int)
    requires ev.source < |s.parked|
  {
    if !light && ev.isDelayed then
      if exists i :: 0 <= i < |s.parked[ev.source]| && s.parked[ev.source][i].cookie == ev.cookie then
        status == SUCCESS && Newest(t, intr).Some? && Released(s, t, ev, intr, Newest(t, intr).value)
      else status == E_PARAM && t == s
    else if s.free != [] then
      status == SUCCESS && Newest(t, intr).Some? && Enqueued(s, t, ev, intr, light, Newest(t, intr).value)
    else status == E_NOMEM && t == s
  }

  /** The same as PutEffect, field by field. */
  lemma PutDelivers(s: Engine, ev: Event, intr: bool, light: bool)
    requires ev.source < |s.parked|
    ensures var o := PutEvent(s, ev, intr, light); PutOutcome(s, ev, intr, light, o.engine, o.status)
  {
    var o := PutEvent(s, ev, intr, light);
    if !light && ev.isDelayed {
      var q, i := s.parked[ev.source], Find(s.parked[ev.source], ev.cookie);
      if i < |q| {
        assert q[i].cookie == ev.cookie;
        assert Released(s, o.engine, ev, intr, q[i].(params := ev.params, cookie := s.counter));
      }
    }
  }

  /** How many events outside the pool satisfy f. */
  function Live(s: Engine, f: Event -> bool): nat {
    Count(s.ready, f) + Count(s.isr, f) + CountAny(s.parked, f) + Bit(s.current.Some? && f(s.current.value))
  }

  lemma EntersLive(s: Engine, t: Engine, ev: Event, intr: bool, light: bool, f: Event -> bool)
    requires ev.source < |s.parked| && Available(s, ev, light) && Enters(s, t, ev, intr, light)
    ensures var q, x := s.parked[ev.source], Stamped(s, Entrant(s, ev, light), light);
      Live(t, f) + Bit(!light && ev.isDelayed && f(q[Find(q, ev.cookie)])) == Live(s, f) + Bit(f(x))
  {
    var x := Stamped(s, Entrant(s, ev, light), light);
    CountPush(s.ready, x, f);
    CountPush(s.isr, x, f);
    assert s.ready + [] == s.ready && s.isr + [] == s.isr;
    if !light && ev.isDelayed {
      var q, i := s.parked[ev.source], Find(s.parked[ev.source], ev.cookie);
      CountWithout(q, i, f);
      CountAnyUpdate(s.parked, ev.source, Without(q, i), f);
    }
  }

  /** A response that is not sent is parked, in a structure from the pool. */
  ghost predicate Parks(s: Engine, t: Engine, reply: Event)
    requires reply.source < |s.parked| && s.free != []
  {
    t == s.(free := s.free[1..], parked := s.parked[reply.source := s.parked[reply.source] + [Fill(s.free[0], reply, false)]])
  }

  lemma ParksLive(s: Engine, t: Engine, reply: Event, f: Event -> bool)
    requires reply.source < |s.parked| && s.free != [] && Parks(s, t, reply)
    ensures Live(t, f) == Live(s, f) + Bit(f(Fill(s.free[0], reply, false)))
  {
    var q, x := s.parked[reply.source], Fill(s.free[0], reply, false);
    CountPush(q, x, f);
    CountAnyUpdate(s.parked, reply.source, q + [x], f);
  }

  lemma BeginLive(s: Engine, f: Event -> bool)
    requires s.ready != [] && s.current.None?
    ensures Live(Begin(s), f) == Live(s, f)
  {
  }

  lemma PullLive(s: Engine, f: Event -> bool)
    requires s.isr != []
    ensures Live(Pull(s), f) == Live(s, f)
  {
    CountPush(s.ready, s.isr[0], f);
  }

  // ------------------------------------------------------------ conservation

  function HasSlot(k: nat): Event -> bool { (e: Event) => e.slot == k }

  /** In how many places structure k is. */
  function Places(s: Engine, k: nat): nat { Count(s.free, HasSlot(k)) + Live(s, HasSlot(k)) }

  lemma PutKeeps(s: Engine, ev: Event, intr: bool, light: bool, k: nat)
    requires ev.source < |s.parked|
    ensures Places(PutEvent(s, ev, intr, light).engine, k) == Places(s, k)
    ensures |PutEvent(s, ev, intr, light).engine.parked| == |s.parked|
  {
    PutEffect(s, ev, intr, light);
    if Available(s, ev, light) {
      EntersLive(s, PutEvent(s, ev, intr, light).engine, ev, intr, light, HasSlot(k));
    }
  }

  lemma RespondKeeps(s: Engine, reply: Event, k: nat)
    requires reply.source < |s.parked|
    ensures Places(Respond(s, reply), k) == Places(s, k) && |Respond(s, reply).parked| == |s.parked|
    ensures Respond(s, reply).current == s.current
  {
    var r := reply.(isResponse := true, responseRequested := false);
    if !r.isDelayed {
      PutKeeps(s, r, false, false, k);
    } else if s.free != [] {
      ParksLive(s, Respond(s, reply), r, HasSlot(k));
    }
  }

  lemma FinishKeeps(s: Engine, reply: Event, k: nat)
    requires s.current.Some? && reply.source < |s.parked|
    ensures Places(Finish(s, reply), k) == Places(s, k) && |Finish(s, reply).parked| == |s.parked|
  {
    var u := if s.current.value.responseRequested then Respond(s, reply) else s;
    if s.current.value.responseRequested {
      RespondKeeps(s, reply, k);
    }
    CountPush(u.free, s.current.value, HasSlot(k));
  }

  /** No step loses or duplicates an event structure. */
  lemma MoveConserves(s: Engine, m: Move, k: nat)
    requires Enabled(s, m)
    ensures Places(Apply(s, m), k) == Places(s, k) && |Apply(s, m).parked| == |s.parked|
  {
    match m
    case Call(ev, light) =>
      var src := if s.current.Some? then s.current.value.target else ev.source;
      if src < |s.parked| {
        PutKeeps(s, ev.(source := src), false, light, k);
      }
    case Interrupt(ev, light) =>
      if ev.source < |s.parked| {
        PutKeeps(s, ev, true, light, k);
      }
    case Notify(ev, intr) => PutKeeps(s, ev.(isResponse := false, isNotification := true), intr, false, k);
    case Dispatch => BeginLive(s, HasSlot(k));
    case Return(reply) => FinishKeeps(s, reply, k);
    case PullIsr => PullLive(s, HasSlot(k));
  }

  /** The states that a sequence of moves leads through. */
  ghost predicate Run(states: seq<Engine>, moves: seq<Move>) {
    && |states| == |moves| + 1
    && forall i, j :: 0 <= i < |moves| && j == i + 1 ==> Step(states[i], moves[i], states[j])
  }

  predicate Step(s: Engine, m: Move, t: Engine) { Enabled(s, m) && t == Apply(s, m) }

  /** A pool of n structures, all free. */
  ghost predicate Booted(s: Engine, n: nat) {
    && (forall k: nat :: Count(s.free, HasSlot(k)) == Bit(k < n))
    && s.ready == [] && s.isr == [] && s.current.None? && forall i :: 0 <= i < |s.parked| ==> s.parked[i] == []
  }

  /**
   Between any two steps of any run, each of the n structures is in exactly one place, once:
   the free queue, the ordinary queue, the interrupt queue, one delayed-response list, or
   the slot of the event being processed.
   */
  lemma {:induction false} EventsConserved(states: seq<Engine>, moves: seq<Move>, n: nat, i: nat, k: nat)
    requires Run(states, moves) && Booted(states[0], n) && i <= |moves|
    ensures Places(states[i], k) == Bit(k < n)
    decreases i
  {
    if i == 0 {
      CountAnyEmpty(states[0].parked, HasSlot(k));
    } else {
      EventsConserved(states, moves, n, i - 1, k);
      assert Step(states[i - 1], moves[i - 1], states[i]);
      MoveConserves(states[i - 1], moves[i - 1], k);
    }
  }

  // ------------------------------------------------------------ dispatch order

  /**
   One event entering the ordinary queue: posted while the event at position cause was being
   processed (or by no event), or raised by an interrupt when `at` events had entered before.
   */
  datatype Entry = Posted(event: Event, cause: Option<nat>) | Raised(event: Event, at: nat)

  /**
   Everything that ever entered the ordinary queue, how many were dispatched, the raised
   events not yet pulled, and all events raised so far, in the order of the interrupts.
   */
  datatype History = History(log: seq<Entry>, begun: nat, raised: seq<Entry>, interrupts: seq<Entry>)

  function RaisedIn(log: seq<Entry>): seq<Entry> {
    if log == [] then []
    else
      var last := log[|log| - 1];
      RaisedIn(log[..|log| - 1]) + if last.Raised? then [last] else []
  }

  function Record(s: Engine, h: History, m: Move): History
    requires Enabled(s, m)
  {
    var t := Apply(s, m);
    match m
    case Dispatch => h.(begun := h.begun + 1)
    case PullIsr => if h.raised == [] then h else h.(log := h.log + [h.raised[0]], raised := h.raised[1..])
    case _ =>
      if |t.isr| == |s.isr| + 1 then
        var e := Raised(t.isr[|s.isr|], |h.log|);
        h.(raised := h.raised + [e], interrupts := h.interrupts + [e])
      else if |t.ready| == |s.ready| + 1 then
        h.(log := h.log + [Posted(t.ready[|s.ready|], if s.current.Some? && h.begun > 0 then Some(h.begun - 1) else None)])
      else h
  }

  /** The queues are the undispatched part of the history. */
  ghost predicate Faithful(s: Engine, h: History) {
    && h.begun <= |h.log|
    && |s.ready| == |h.log| - h.begun && (forall i :: 0 <= i < |s.ready| ==> s.ready[i] == h.log[h.begun + i].event)
    && |s.isr| == |h.raised| && (forall i :: 0 <= i < |s.isr| ==> h.raised[i].Raised? && s.isr[i] == h.raised[i].event)
    && (s.current.Some? ==> h.begun > 0 && s.current.value == h.log[h.begun - 1].event)
  }

  /**
   An interrupt's event comes after everything that had entered when it was raised, and no
   event that an earlier one triggered comes after it.
   */
  ghost predicate Ordered(s: Engine, h: History) {
    && (forall k, j :: 0 <= k < j < |h.log| && h.log[k].Raised? && h.log[j].Posted? && h.log[j].cause.Some? ==>
          h.log[j].cause.value >= k)
    && (forall k :: 0 <= k < |h.log| && h.log[k].Raised? ==> h.log[k].at <= k)
    && (forall k :: 0 <= k < |h.log| && h.log[k].Raised? ==> k + Bit(s.current.Some?) <= h.begun)
    && (forall k :: 0 <= k < |h.raised| ==> h.raised[k].Raised? && h.raised[k].at <= |h.log|)
  }

  /** Events raised by interrupts enter the ordinary queue in the order of the interrupts. */
  ghost predicate InRaiseOrder(h: History) { RaisedIn(h.log) + h.raised == h.interrupts }

  lemma PutGrows(s: Engine, ev: Event, intr: bool, light: bool)
    requires ev.source < |s.parked|
    ensures var t := PutEvent(s, ev, intr, light).engine;
      && t.current == s.current && s.ready <= t.ready && s.isr <= t.isr
      && |t.ready| <= |s.ready| + Bit(!intr) && |t.isr| <= |s.isr| + Bit(intr)
  {
  }

  lemma MoveGrows(s: Engine, m: Move)
    requires Enabled(s, m) && !m.Dispatch? && !m.PullIsr?
    ensures var t := Apply(s, m);
      && s.ready <= t.ready && s.isr <= t.isr
      && |t.ready| <= |s.ready| + Bit(!InInterrupt(m)) && |t.isr| <= |s.isr| + Bit(InInterrupt(m))
      && (t.current == s.current || (m.Return? && t.current == None))
  {
    match m
    case Call(ev, light) =>
      var src := if s.current.Some? then s.current.value.target else ev.source;
      if src < |s.parked| {
        PutGrows(s, ev.(source := src), false, light);
      }
    case Interrupt(ev, light) =>
      if ev.source < |s.parked| {
        PutGrows(s, ev, true, light);
      }
    case Notify(ev, intr) => PutGrows(s, ev.(isResponse := false, isNotification := true), intr, false);
    case Return(reply) =>
      var r := reply.(isResponse := true, responseRequested := false);
      if !r.isDelayed {
        PutGrows(s, r, false, false);
      }
  }

  lemma MoveFaithful(s: Engine, h: History, m: Move)
    requires Enabled(s, m) && Faithful(s, h)
    ensures Faithful(Apply(s, m), Record(s, h, m))
  {
    hide PutEvent, Post, PutNotification, Finish;
    if !m.Dispatch? && !m.PullIsr? {
      MoveGrows(s, m);
    }
  }

  lemma MoveOrdered(s: Engine, h: History, m: Move)
    requires Enabled(s, m) && Faithful(s, h) && Ordered(s, h)
    ensures Ordered(Apply(s, m), Record(s, h, m))
  {
    if !m.Dispatch? && !m.PullIsr? {
      hide Ordered, Apply;
      MoveGrows(s, m);
      EntryOrdered(s, h, Apply(s, m), Record(s, h, m));
    }
  }

  /** An event that enters by a post has the running event for its cause; one that is raised waits. */
  lemma EntryOrdered(s: Engine, h: History, t: Engine, g: History)
    requires Faithful(s, h) && Ordered(s, h) && (t.current == s.current || t.current.None?)
    requires g.begun == h.begun && (g.log == h.log || g.raised == h.raised)
    requires g.raised == h.raised
      || (|g.raised| > 0 && var e := g.raised[|g.raised| - 1]; g.raised == h.raised + [e] && e.Raised? && e.at == |h.log|)
    requires g.log == h.log
      || (|g.log| > 0 && var e := g.log[|g.log| - 1];
          g.log == h.log + [e] && e.Posted? && e.cause == if s.current.Some? && h.begun > 0 then Some(h.begun - 1) else None)
    ensures Ordered(t, g)
  {
  }

  lemma RaisedAppend(log: seq<Entry>, e: Entry)
    ensures RaisedIn(log + [e]) == RaisedIn(log) + (if e.Raised? then [e] else [])
  {
    assert (log + [e])[..|log|] == log;
  }

  lemma MoveInRaiseOrder(s: Engine, h: History, m: Move)
    requires Enabled(s, m) && InRaiseOrder(h) && forall i :: 0 <= i < |h.raised| ==> h.raised[i].Raised?
    ensures InRaiseOrder(Record(s, h, m))
  {
    hide RaisedIn, Apply;
    var g := Record(s, h, m);
    if m.PullIsr? {
      if h.raised != [] {
        RaisedAppend(h.log, h.raised[0]);
        assert h.raised == [h.raised[0]] + h.raised[1..];
      }
    } else if |g.raised| > |h.raised| {
      assert g.log == h.log && g.raised == h.raised + [g.raised[|h.raised|]];
    } else if |g.log| > |h.log| {
      RaisedAppend(h.log, g.log[|h.log|]);
    }
  }

  /** The history that a run leaves behind. */
  function Recorded(states: seq<Engine>, moves: seq<Move>, i: nat): History
    requires |states| == |moves| + 1 && i <= |moves| && forall k :: 0 <= k < i ==> Enabled(states[k], moves[k])
  {
    if i == 0 then History([], 0, [], []) else Record(states[i - 1], Recorded(states, moves, i - 1), moves[i - 1])
  }

  /**
   Dispatch order over any run from boot: events are dispatched in the order in which they
   entered the ordinary queue; an interrupt's event enters after everything queued when it
   was raised and after everything that those events triggered; interrupt events stay in order.
   */
  lemma {:induction false} DispatchOrder(states: seq<Engine>, moves: seq<Move>, n: nat, i: nat)
    requires Run(states, moves) && Booted(states[0], n) && i <= |moves|
    ensures forall k :: 0 <= k < i ==> Enabled(states[k], moves[k])
    ensures Faithful(states[i], Recorded(states, moves, i)) && Ordered(states[i], Recorded(states, moves, i))
    ensures InRaiseOrder(Recorded(states, moves, i))
    decreases i
  {
    if i > 0 {
      DispatchOrder(states, moves, n, i - 1);
      assert Step(states[i - 1], moves[i - 1], states[i]);
      MoveFaithful(states[i - 1], Recorded(states, moves, i - 1), moves[i - 1]);
      MoveOrdered(states[i - 1], Recorded(states, moves, i - 1), moves[i - 1]);
      MoveInRaiseOrder(states[i - 1], Recorded(states, moves, i - 1), moves[i - 1]);
    }
  }
}
