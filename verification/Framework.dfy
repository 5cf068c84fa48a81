/**
 The framework context as the static object it is, its lists updated in place. Each method
 is proved to be the corresponding function of the engine; a handler is the script of calls
 it makes and the response it leaves behind.
 */
module Framework {
  import opened Status
  import opened Counting
  import opened Events
  import EventLife

  /**
   What happens while a handler runs: its posts and notifications in order, with those of the
   interrupts that strike in between, and the response it fills in.
   */
  datatype Handler = Handler(posts: seq<Move>, reply: Event)

  /** Posts are allowed whatever the queues hold. */
  predicate Posts(s: Engine, posts: seq<Move>) {
    forall i :: 0 <= i < |posts| ==> IsPost(posts[i]) && Enabled(s, posts[i])
  }

  lemma PostKeepsShape(s: Engine, m: Move)
    requires IsPost(m) && Enabled(s, m)
    ensures Apply(s, m).current == s.current && |Apply(s, m).parked| == |s.parked|
  {
  }

  function RunPosts(s: Engine, posts: seq<Move>): (t: Engine)
    requires Posts(s, posts)
    ensures t.current == s.current && |t.parked| == |s.parked|
    decreases |posts|
  {
    if posts == [] then s
    else
      PostKeepsShape(s, posts[0]);
      RunPosts(Apply(s, posts[0]), posts[1..])
  }

  /** One turn of the dispatch loop. */
  function Process(s: Engine, h: Handler): Engine
    requires s.ready != [] && s.ready[0].target < |s.parked| && h.reply.source < |s.parked| && Posts(Begin(s), h.posts)
  {
    Finish(RunPosts(Begin(s), h.posts), h.reply)
  }

  /** Every event that is or will be queued addresses an entity. */
  ghost predicate Wired(s: Engine) {
    && (forall i :: 0 <= i < |s.ready| ==> s.ready[i].target < |s.parked|)
    && (forall i :: 0 <= i < |s.isr| ==> s.isr[i].target < |s.parked|)
    && (forall j, i :: 0 <= j < |s.parked| && 0 <= i < |s.parked[j]| ==> s.parked[j][i].target < |s.parked|)
    && (s.current.Some? ==> s.current.value.target < |s.parked|)
  }

  /** The handler's calls name entities only. */
  predicate Addresses(h: Handler, n: nat) {
    && h.reply.source < n && h.reply.target < n
    && forall i :: 0 <= i < |h.posts| ==>
         IsPost(h.posts[i]) && h.posts[i].ev.target < n && (h.posts[i].Notify? ==> h.posts[i].ev.source < n)
  }

  lemma PutWired(s: Engine, ev: Event, intr: bool, light: bool)
    requires Wired(s) && ev.source < |s.parked| && ev.target < |s.parked|
    ensures Wired(PutEvent(s, ev, intr, light).engine)
    ensures |PutEvent(s, ev, intr, light).engine.parked| == |s.parked|
  {
    var t := PutEvent(s, ev, intr, light).engine;
    if !light && ev.isDelayed && Find(s.parked[ev.source], ev.cookie) < |s.parked[ev.source]| {
      var q, i := s.parked[ev.source], Find(s.parked[ev.source], ev.cookie);
      forall j | 0 <= j < |Without(q, i)|
        ensures Without(q, i)[j].target < |s.parked|
      {
        assert Without(q, i)[j] == q[if j < i then j else j + 1];
      }
    }
  }

  lemma PostWired(s: Engine, m: Move)
    requires Wired(s) && IsPost(m) && Enabled(s, m)
    ensures Wired(Apply(s, m)) && |Apply(s, m).parked| == |s.parked|
  {
    hide PutEvent;
    if m.Notify? {
      PutWired(s, m.ev.(isResponse := false, isNotification := true), m.intr, false);
    } else {
      var intr := m.Interrupt?;
      var src := if !intr && s.current.Some? then s.current.value.target else m.ev.source;
      if src < |s.parked| {
        PutWired(s, m.ev.(source := src), intr, m.light);
      }
    }
  }

  lemma {:induction false} PostsWired(s: Engine, posts: seq<Move>)
    requires Wired(s) && Posts(s, posts)
    ensures Wired(RunPosts(s, posts))
    decreases |posts|
  {
    if posts != [] {
      hide Wired;
      PostWired(s, posts[0]);
      PostKeepsShape(s, posts[0]);
      PostsWired(Apply(s, posts[0]), posts[1..]);
    }
  }

  lemma FinishWired(s: Engine, reply: Event)
    requires Wired(s) && s.current.Some? && reply.source < |s.parked| && reply.target < |s.parked|
    ensures Wired(Finish(s, reply)) && |Finish(s, reply).parked| == |s.parked|
  {
    if !reply.isDelayed {
      PutWired(s, reply.(isResponse := true, responseRequested := false), false, false);
    }
  }

  lemma ProcessWired(s: Engine, h: Handler)
    requires Wired(s) && s.ready != [] && s.current.None? && Addresses(h, |s.parked|)
    ensures Posts(Begin(s), h.posts) && s.ready[0].target < |s.parked|
    ensures Wired(Process(s, h)) && Process(s, h).current.None? && |Process(s, h).parked| == |s.parked|
  {
    PostsWired(Begin(s), h.posts);
    FinishWired(RunPosts(Begin(s), h.posts), h.reply);
  }

  /**
   The main loop on given handlers: ordinary events while there are any, then one interrupt
   event at a time; it ends when both queues are empty (or the handlers run out).
   */
  function Loop(s: Engine, handlers: seq<Handler>): Engine
    requires Wired(s) && s.current.None? && forall i :: 0 <= i < |handlers| ==> Addresses(handlers[i], |s.parked|)
    decreases |handlers|, |s.isr|
  {
    if s.ready != [] then
      if handlers == [] then s
      else
        ProcessWired(s, handlers[0]);
        Loop(Process(s, handlers[0]), handlers[1..])
    else if s.isr != [] then Loop(Pull(s), handlers)
    else s
  }

  // ------------------------------------------------------------ the loop is a run

  /** The states and moves, in order, by which the engine gets from s to t. */
  ghost predicate Leads(s: Engine, states: seq<Engine>, moves: seq<Move>, t: Engine) {
    Run(states, moves) && states[0] == s && states[|moves|] == t
  }

  lemma LeadsThen(s: Engine, xs: seq<Engine>, ms: seq<Move>, u: Engine, ys: seq<Engine>, ns: seq<Move>, t: Engine)
    requires Leads(s, xs, ms, u) && Leads(u, ys, ns, t)
    ensures ys != [] && Leads(s, xs + ys[1..], ms + ns, t)
  {
    var zs, os := xs + ys[1..], ms + ns;
    forall i, j | 0 <= i < |os| && j == i + 1
      ensures Step(zs[i], os[i], zs[j])
    {
      if i < |ms| {
        assert Step(xs[i], ms[i], xs[j]);
      } else {
        var k, l := i - |ms|, j - |ms|;
        assert Step(ys[k], ns[k], ys[l]);
        assert zs[i] == ys[k] && zs[j] == ys[l];
      }
    }
  }

  lemma MoveLeads(s: Engine, m: Move)
    requires Enabled(s, m)
    ensures Leads(s, [s, Apply(s, m)], [m], Apply(s, m))
  {
    assert Step(s, m, Apply(s, m));
  }

  lemma {:induction false} PostsLead(s: Engine, posts: seq<Move>) returns (states: seq<Engine>)
    requires Posts(s, posts)
    ensures Leads(s, states, posts, RunPosts(s, posts))
    decreases |posts|
  {
    if posts == [] {
      states := [s];
    } else {
      PostKeepsShape(s, posts[0]);
      var u := Apply(s, posts[0]);
      var rest := PostsLead(u, posts[1..]);
      MoveLeads(s, posts[0]);
      LeadsThen(s, [s, u], [posts[0]], u, rest, posts[1..], RunPosts(s, posts));
      assert [posts[0]] + posts[1..] == posts;
      states := [s, u] + rest[1..];
    }
  }

  /** A turn of the dispatch loop: dispatch, the posts, and the return of the handler. */
  lemma ProcessLeads(s: Engine, h: Handler) returns (states: seq<Engine>, moves: seq<Move>)
    requires Wired(s) && s.ready != [] && s.current.None? && Addresses(h, |s.parked|)
    ensures Posts(Begin(s), h.posts) && Leads(s, states, moves, Process(s, h))
    ensures moves == [Dispatch] + h.posts + [Return(h.reply)]
  {
    ProcessWired(s, h);
    var u, v := Begin(s), RunPosts(Begin(s), h.posts);
    MoveLeads(s, Dispatch);
    MoveLeads(v, Return(h.reply));
    var mid := PostsLead(u, h.posts);
    LeadsThen(s, [s, u], [Dispatch], u, mid, h.posts, v);
    LeadsThen(s, [s, u] + mid[1..], [Dispatch] + h.posts, v, [v, Process(s, h)], [Return(h.reply)], Process(s, h));
    states, moves := [s, u] + mid[1..] + [v, Process(s, h)][1..], [Dispatch] + h.posts + [Return(h.reply)];
  }

  /** Dispatch, what the handler does, and its return. */
  function Turn(h: Handler): seq<Move> { [Dispatch] + h.posts + [Return(h.reply)] }

  /** The moves are one turn of each handler, in order, and pulls of interrupt events in between. */
  predicate Scripted(moves: seq<Move>, handlers: seq<Handler>)
    decreases |moves|
  {
    if moves == [] then handlers == []
    else if moves[0] == PullIsr then Scripted(moves[1..], handlers)
    else
      && handlers != [] && |Turn(handlers[0])| <= |moves| && moves[..|Turn(handlers[0])|] == Turn(handlers[0])
      && Scripted(moves[|Turn(handlers[0])|..], handlers[1..])
  }

  /**
   Processing the event queue is a run of the engine: every law of runs holds of it. It is one
   turn of each handler used, in order, and ends with both queues empty, or with an ordinary
   event left and every handler used.
   */
  lemma {:induction false} LoopLeads(s: Engine, handlers: seq<Handler>)
    returns (states: seq<Engine>, moves: seq<Move>, used: nat)
    requires Wired(s) && s.current.None? && forall i :: 0 <= i < |handlers| ==> Addresses(handlers[i], |s.parked|)
    ensures Leads(s, states, moves, Loop(s, handlers))
    ensures used <= |handlers| && Scripted(moves, handlers[..used])
    ensures var t := Loop(s, handlers);
      t.current.None? && if t.ready == [] then t.isr == [] else used == |handlers|
    decreases |handlers|, |s.isr|
  {
    hide Wired, Process, Leads;
    if s.ready != [] && handlers != [] {
      ProcessWired(s, handlers[0]);
      var u := Process(s, handlers[0]);
      var xs, ms := ProcessLeads(s, handlers[0]);
      var ys, ns, rest := LoopLeads(u, handlers[1..]);
      LeadsThen(s, xs, ms, u, ys, ns, Loop(s, handlers));
      states, moves, used := xs + ys[1..], ms + ns, rest + 1;
      TurnThen(ms, ns, handlers, rest);
    } else if s.ready == [] && s.isr != [] {
      PullWired(s);
      var ys, ns, rest := LoopLeads(Pull(s), handlers);
      MoveLeads(s, PullIsr);
      LeadsThen(s, [s, Pull(s)], [PullIsr], Pull(s), ys, ns, Loop(s, handlers));
      states, moves, used := [s, Pull(s)] + ys[1..], [PullIsr] + ns, rest;
      assert moves[1..] == ns;
    } else {
      states, moves, used := [s], [], 0;
      StayLeads(s);
    }
  }

  lemma StayLeads(s: Engine)
    ensures Leads(s, [s], [], s)
  {
  }

  lemma TurnThen(turn: seq<Move>, ns: seq<Move>, handlers: seq<Handler>, rest: nat)
    requires handlers != [] && turn == Turn(handlers[0]) && rest < |handlers| && Scripted(ns, handlers[1..][..rest])
    ensures Scripted(turn + ns, handlers[..rest + 1])
  {
    assert (turn + ns)[..|turn|] == turn && (turn + ns)[|turn|..] == ns;
    assert handlers[..rest + 1][1..] == handlers[1..][..rest];
  }

  /** With enough handlers, every event that was queued at the call, also by an interrupt, has been dispatched. */
  lemma AllDispatched(s: Engine, handlers: seq<Handler>, x: Event)
    returns (states: seq<Engine>, moves: seq<Move>, k: nat)
    requires Wired(s) && s.current.None? && forall i :: 0 <= i < |handlers| ==> Addresses(handlers[i], |s.parked|)
    requires Loop(s, handlers).ready == [] && EventLife.Queued(s, x)
    ensures Leads(s, states, moves, Loop(s, handlers))
    ensures k < |moves| && moves[k] == Dispatch && states[k + 1].current == Some(x)
  {
    hide Loop, Wired;
    var used: nat;
    states, moves, used := LoopLeads(s, handlers);
    k := EventLife.Dispatched(states, moves, 0, |moves|, x);
  }

  lemma PullWired(s: Engine)
    requires Wired(s) && s.isr != []
    ensures Wired(Pull(s))
  {
  }

  /**
   The laws of runs hold of every call that processes the event queue, whatever run from boot
   led up to it: no event structure is lost or duplicated, and events are dispatched in the
   order of entry, with those of interrupts behind everything queued before them and
   everything that triggered.
   */
  lemma LoopKeepsLaws(before: seq<Engine>, past: seq<Move>, handlers: seq<Handler>, n: nat)
    returns (states: seq<Engine>, moves: seq<Move>)
    requires Run(before, past) && Booted(before[0], n)
    requires var s := before[|past|];
      Wired(s) && s.current.None? && forall i :: 0 <= i < |handlers| ==> Addresses(handlers[i], |s.parked|)
    ensures Run(states, moves) && before <= states && past <= moves
    ensures states[|moves|] == Loop(before[|past|], handlers)
    ensures forall i, k: nat :: 0 <= i <= |moves| ==> Places(states[i], k) == Bit(k < n)
    ensures forall k :: 0 <= k < |moves| ==> Enabled(states[k], moves[k])
    ensures forall i :: 0 <= i <= |moves| ==>
      var h := Recorded(states, moves, i); Faithful(states[i], h) && Ordered(states[i], h) && InRaiseOrder(h)
  {
    hide Wired, Faithful, Ordered, InRaiseOrder;
    var s := before[|past|];
    var ys, ns, used := LoopLeads(s, handlers);
    LeadsThen(before[0], before, past, s, ys, ns, Loop(s, handlers));
    states, moves := before + ys[1..], past + ns;
    forall i, k: nat | 0 <= i <= |moves|
      ensures Places(states[i], k) == Bit(k < n)
    {
      EventsConserved(states, moves, n, i, k);
    }
    DispatchOrder(states, moves, n, |moves|);
    forall i | 0 <= i <= |moves|
      ensures var h := Recorded(states, moves, i); Faithful(states[i], h) && Ordered(states[i], h) && InRaiseOrder(h)
    {
      DispatchOrder(states, moves, n, i);
    }
  }

  class Context {
    var free: seq<Event>
    var ready: seq<Event>
    var isr: seq<Event>
    var parked: seq<seq<Event>>
    var current: Option<Event>
    var counter: nat

    ghost function View(): Engine
      reads this
    {
      Engine(free, ready, isr, parked, current, counter)
    }

    /** Allocates the event table; fails on an empty one. */
    method Init(blank: Event, eventCount: nat, entities: nat) returns (status: int)
      modifies this
      ensures status == (if eventCount == 0 then E_INIT else SUCCESS)
      ensures eventCount > 0 ==> Booted(View(), eventCount) && |parked| == entities
      ensures eventCount == 0 ==> View() == old(View())
    {
      if eventCount == 0 {
        return E_INIT;
      }
      free, ready, isr := [], [], [];
      current, counter := None, 0;
      parked := seq(entities, _ => []);
      var i := 0;
      while i < eventCount
        invariant i <= eventCount && ready == [] && isr == [] && current.None? && counter == 0
        invariant parked == seq(entities, _ => [])
        invariant forall k: nat :: Count(free, HasSlot(k)) == Bit(k < i)
      {
        forall k: nat
          ensures Count(free + [blank.(slot := i)], HasSlot(k)) == Count(free, HasSlot(k)) + Bit(i == k)
        {
          CountPush(free, blank.(slot := i), HasSlot(k));
        }
        free := free + [blank.(slot := i)];
        i := i + 1;
      }
      status := SUCCESS;
    }

    /** Looks a delayed response up by its cookie, walking the list of the entity. */
    method SearchDelayedResponse(id: nat, cookie: int) returns (found: Option<nat>)
      requires id < |parked|
      ensures found == (if Find(parked[id], cookie) == |parked[id]| then None else Some(Find(parked[id], cookie)))
    {
      var q, i := parked[id], 0;
      while i < |q|
        invariant 0 <= i <= |q|
        invariant Find(q, cookie) == i + Find(q[i..], cookie)
      {
        if q[i].cookie == cookie {
          return Some(i);
        }
        assert q[i..][1..] == q[i + 1..];
        i := i + 1;
      }
      found := None;
    }

    /** A copy of the delayed response with this cookie; the parked one stays. */
    method GetDelayedResponse(id: nat, cookie: int, intr: bool) returns (status: int, event: Option<Event>)
      ensures intr ==> status == E_ACCESS
      ensures !intr && id >= |parked| ==> status == E_PARAM
      ensures !intr && id < |parked| ==>
        (status == SUCCESS <==> exists i :: 0 <= i < |parked[id]| && parked[id][i].cookie == cookie)
      ensures status == SUCCESS <==> event.Some?
      ensures event.Some? ==> id < |parked| && event.value in parked[id] && event.value.cookie == cookie
    {
      if intr {
        return E_ACCESS, None;
      }
      if id >= |parked| {
        return E_PARAM, None;
      }
      var found := SearchDelayedResponse(id, cookie);
      if found.None? {
        return E_PARAM, None;
      }
      return SUCCESS, Some(parked[id][found.value]);
    }

    /** A copy of the delayed response that has been parked longest. */
    method GetFirstDelayedResponse(id: nat, intr: bool) returns (status: int, event: Option<Event>)
      ensures status == (if intr then E_ACCESS else if id >= |parked| then E_PARAM else if parked[id] == [] then E_STATE else SUCCESS)
      ensures event == (if status == SUCCESS then Some(parked[id][0]) else None)
    {
      if intr {
        return E_ACCESS, None;
      }
      if id >= |parked| {
        return E_PARAM, None;
      }
      if |parked[id]| == 0 {
        return E_STATE, None;
      }
      return SUCCESS, Some(parked[id][0]);
    }

    /** Takes a structure from the pool and fills it. */
    method DuplicateEvent(ev: Event, light: bool) returns (e: Option<Event>)
      modifies this`free
      ensures e == (if old(free) == [] then None else Some(Fill(old(free)[0], ev, light)))
      ensures free == if old(free) == [] then [] else old(free)[1..]
    {
      if |free| == 0 {
        return None;
      }
      e := Some(Fill(free[0], ev, light));
      free := free[1..];
    }

    method Put(ev: Event, intr: bool, light: bool) returns (status: int)
      requires ev.source < |parked|
      modifies this`free, this`ready, this`isr, this`parked, this`counter
      ensures Outcome(View(), status) == PutEvent(old(View()), ev, intr, light)
      ensures PutOutcome(old(View()), ev, intr, light, View(), status)
    {
      PutDelivers(View(), ev, intr, light);
      hide PutOutcome;
      var e: Event;
      if !light && ev.isDelayed {
        var found := SearchDelayedResponse(ev.source, ev.cookie);
        if found.None? {
          return E_PARAM;
        }
        var q := parked[ev.source];
        e := q[found.value].(params := ev.params);
        parked := parked[ev.source := Without(q, found.value)];
      } else {
        var taken := DuplicateEvent(ev, light);
        if taken.None? {
          return E_NOMEM;
        }
        e := taken.value;
      }
      if !light {
        e := e.(cookie := counter);
        counter := (counter + 1) % WRAP;
      }
      if intr {
        isr := isr + [e];
      } else {
        ready := ready + [e];
      }
      status := SUCCESS;
    }

    method PutPublic(ev: Event, intr: bool, light: bool) returns (status: int)
      requires current.Some? ==> current.value.target < |parked|
      modifies this`free, this`ready, this`isr, this`parked, this`counter
      ensures Outcome(View(), status) == Post(old(View()), ev, intr, light)
      ensures var source := if !intr && old(current).Some? then old(current).value.target else ev.source;
        if source >= |old(parked)| then status == E_PARAM && View() == old(View())
        else PutOutcome(old(View()), ev.(source := source), intr, light, View(), status)
    {
      if !intr && current.Some? {
        status := Put(ev.(source := current.value.target), intr, light);
      } else if ev.source >= |parked| {
        status := E_PARAM;
      } else {
        status := Put(ev, intr, light);
      }
    }

    /** A notification to one subscriber, under the emitter it names. */
    method PutNotification(ev: Event, intr: bool) returns (status: int)
      requires ev.source < |parked|
      modifies this`free, this`ready, this`isr, this`parked, this`counter
      ensures Outcome(View(), status) == Events.PutNotification(old(View()), ev, intr)
      ensures PutOutcome(old(View()), ev.(isResponse := false, isNotification := true), intr, false, View(), status)
    {
      status := Put(ev.(isResponse := false, isNotification := true), intr, false);
    }

    /** One call made by a handler or an interrupt routine. */
    method Perform(m: Move)
      requires IsPost(m) && Enabled(View(), m)
      modifies this`free, this`ready, this`isr, this`parked, this`counter
      ensures View() == Apply(old(View()), m)
    {
      var status: int;
      match m {
        case Call(ev, light) => status := PutPublic(ev, false, light);
        case Interrupt(ev, light) => status := PutPublic(ev, true, light);
        case Notify(ev, intr) => status := PutNotification(ev, intr);
      }
    }

    method FreeEvent(e: Event)
      modifies this`free
      ensures free == old(free) + [e]
    {
      free := free + [e];
    }

    /** Dispatches the event at the head of the queue to its handler. */
    method ProcessNextEvent(h: Handler)
      requires ready != [] && ready[0].target < |parked| && h.reply.source < |parked| && Posts(Begin(View()), h.posts)
      modifies this
      ensures View() == Process(old(View()), h)
    {
      var event := ready[0];
      ready := ready[1..];
      current := Some(event);
      ghost var begun := View();
      var i := 0;
      while i < |h.posts|
        invariant 0 <= i <= |h.posts| && current == Some(event) && |parked| == old(|parked|)
        invariant Posts(View(), h.posts[i..]) && RunPosts(View(), h.posts[i..]) == RunPosts(begun, h.posts)
      {
        assert h.posts[i..][1..] == h.posts[i + 1..];
        PostKeepsShape(View(), h.posts[i]);
        Perform(h.posts[i]);
        i := i + 1;
      }
      if event.responseRequested {
        var reply := h.reply.(isResponse := true, responseRequested := false);
        if !reply.isDelayed {
          var status := Put(reply, false, false);
        } else {
          var taken := DuplicateEvent(reply, false);
          if taken.Some? {
            parked := parked[reply.source := parked[reply.source] + [taken.value]];
          }
        }
      }
      current := None;
      FreeEvent(event);
    }

    /** Moves one interrupt event to the ordinary queue. */
    method ProcessIsr() returns (pulled: bool)
      modifies this`isr, this`ready
      ensures pulled == (old(isr) != [])
      ensures pulled ==> ready == old(ready) + [old(isr)[0]] && isr == old(isr)[1..]
      ensures View() == if pulled then Pull(old(View())) else old(View())
    {
      if |isr| == 0 {
        return false;
      }
      var e := isr[0];
      isr := isr[1..];
      ready := ready + [e];
      pulled := true;
    }

    ghost predicate Looping(handlers: seq<Handler>)
      reads this
    {
      Wired(View()) && current.None? && forall i :: 0 <= i < |handlers| ==> Addresses(handlers[i], |parked|)
    }

    /** Processes ordinary events from the i-th handler on, until there is none left. */
    method DrainReady(handlers: seq<Handler>, i: nat) returns (j: nat)
      requires Looping(handlers) && i <= |handlers|
      modifies this
      ensures Looping(handlers) && i <= j <= |handlers| && (ready == [] || j == |handlers|)
      ensures Loop(View(), handlers[j..]) == Loop(old(View()), handlers[i..])
      ensures j == i ==> View() == old(View())
    {
      hide Wired, Process;
      j := i;
      while |ready| > 0 && j < |handlers|
        invariant i <= j <= |handlers| && Looping(handlers)
        invariant Loop(View(), handlers[j..]) == Loop(old(View()), handlers[i..])
        invariant j == i ==> View() == old(View())
        decreases |handlers| - j
      {
        ProcessWired(View(), handlers[j]);
        assert handlers[j..][1..] == handlers[j + 1..];
        ProcessNextEvent(handlers[j]);
        j := j + 1;
      }
    }

    /** Processes ordinary events, then interrupt events one at a time, until both queues are empty. */
    method ProcessEventQueue(handlers: seq<Handler>)
      requires Looping(handlers)
      modifies this
      ensures View() == Loop(old(View()), handlers)
      ensures current.None? && (ready == [] ==> isr == [])
    {
      ghost var states, moves, used := LoopLeads(View(), handlers);
      var i := 0;
      assert handlers[0..] == handlers;
      while true
        invariant 0 <= i <= |handlers| && Looping(handlers)
        invariant Loop(View(), handlers[i..]) == Loop(old(View()), handlers)
        decreases |handlers| - i, |isr|
      {
        i := DrainReady(handlers, i);
        if |ready| > 0 {
          break;
        }
        var pulled := ProcessIsr();
        if !pulled {
          break;
        }
      }
    }
  }
}
