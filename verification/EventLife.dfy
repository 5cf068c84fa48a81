/**
 The life of one event: what is queued stays queued until it is dispatched, stays in process
 until its handler returns, and if a response was asked for, the return leaves one.
 */
module EventLife {
  import opened Status
  import opened Events
  import opened DelayedResponses

  predicate Queued(s: Engine, x: Event) { x in s.ready || x in s.isr }

  /** A queued event leaves the queues only by being dispatched. */
  lemma QueuedStep(s: Engine, m: Move, x: Event)
    requires Enabled(s, m) && Queued(s, x)
    ensures Queued(Apply(s, m), x) || (m == Dispatch && Apply(s, m).current == Some(x))
  {
    if !m.Dispatch? && !m.PullIsr? {
      hide Apply;
      MoveGrows(s, m);
      assert x in s.ready ==> x in Apply(s, m).ready;
    }
  }

  /** The event in process stays there until its handler returns. */
  lemma CurrentStep(s: Engine, m: Move, x: Event)
    requires Enabled(s, m) && s.current == Some(x)
    ensures m.Return? || Apply(s, m).current == Some(x)
  {
    if !m.Dispatch? && !m.PullIsr? {
      hide Apply;
      MoveGrows(s, m);
    }
  }

  /** An event queued at i and no more at j was dispatched in between. */
  lemma {:induction false} Dispatched(states: seq<Engine>, moves: seq<Move>, i: nat, j: nat, x: Event) returns (k: nat)
    requires Run(states, moves) && i <= j <= |moves| && Queued(states[i], x) && !Queued(states[j], x)
    ensures i <= k < j && moves[k] == Dispatch && states[k + 1].current == Some(x)
    decreases j - i
  {
    assert Step(states[i], moves[i], states[i + 1]);
    QueuedStep(states[i], moves[i], x);
    if Queued(states[i + 1], x) {
      k := Dispatched(states, moves, i + 1, j, x);
    } else {
      k := i;
    }
  }

  /** An event in process at i and no more at j was returned from in between. */
  lemma {:induction false} Returned(states: seq<Engine>, moves: seq<Move>, i: nat, j: nat, x: Event) returns (k: nat)
    requires Run(states, moves) && i <= j <= |moves| && states[i].current == Some(x) && states[j].current != Some(x)
    ensures i <= k < j && moves[k].Return? && states[k].current == Some(x)
    decreases j - i
  {
    assert Step(states[i], moves[i], states[i + 1]);
    CurrentStep(states[i], moves[i], x);
    if moves[i].Return? {
      k := i;
    } else {
      k := Returned(states, moves, i + 1, j, x);
    }
  }

  /** Who posts: in thread context the entity whose event is in process. */
  function Poster(s: Engine, m: Move): nat
    requires IsPost(m)
  {
    if m.Call? && s.current.Some? then s.current.value.target else m.ev.source
  }

  /** The event x that a post adds to its queue. */
  ghost predicate Posts(s: Engine, m: Move, t: Engine, x: Event) {
    && IsPost(m) && x.source == Poster(s, m) && x.target == m.ev.target && x.id == m.ev.id
    && x.responseRequested == m.ev.responseRequested
    && t.ready == s.ready + (if InInterrupt(m) then [] else [x]) && t.isr == s.isr + (if InInterrupt(m) then [x] else [])
  }

  lemma PostQueues(s: Engine, m: Move) returns (x: Event)
    requires Enabled(s, m) && IsPost(m) && Poster(s, m) < |s.parked| && s.free != []
    requires m.Notify? || m.light || !m.ev.isDelayed
    requires m.Notify? ==> !m.ev.isDelayed
    ensures Posts(s, m, Apply(s, m), x) && Queued(Apply(s, m), x)
  {
    var intr, light := InInterrupt(m), !m.Notify? && m.light;
    var ev := if m.Notify? then m.ev.(isResponse := false, isNotification := true) else m.ev.(source := Poster(s, m));
    PutDelivers(s, ev, intr, light);
    hide PutEvent;
    var t := PutEvent(s, ev, intr, light).engine;
    assert Apply(s, m) == t;
    x := Newest(t, intr).value;
    assert x in (if intr then t.isr else t.ready);
  }

  /** r is the response to x with the given parameters. */
  predicate Answers(x: Event, r: Event, params: int) {
    && r.target == x.source && r.source == x.target && r.id == x.id && r.params == params
    && r.isResponse && !r.responseRequested && r.isNotification == x.isNotification
  }

  /** What the return of the handler of x leaves: a response sent, a response parked, or nothing. */
  ghost predicate Leaves(s: Engine, t: Engine, x: Event, reply: Event)
    requires x.target < |s.parked|
  {
    && t.current.None? && t.isr == s.isr && |t.parked| == |s.parked|
    && t.free == (if x.responseRequested && s.free != [] then s.free[1..] else s.free) + [x]
    && if !x.responseRequested || s.free == [] then t.ready == s.ready && t.parked == s.parked
       else if reply.isDelayed then
         && t.ready == s.ready
         && (forall e :: 0 <= e < |s.parked| && e != x.target ==> t.parked[e] == s.parked[e])
         && |t.parked[x.target]| == |s.parked[x.target]| + 1
         && t.parked[x.target][..|s.parked[x.target]|] == s.parked[x.target]
         && var r := t.parked[x.target][|s.parked[x.target]|];
            Answers(x, r, reply.params) && r.isDelayed && r.cookie == x.cookie
       else
         && t.parked == s.parked && |t.ready| == |s.ready| + 1 && t.ready[..|s.ready|] == s.ready
         && var r := t.ready[|s.ready|];
            Answers(x, r, reply.params) && !r.isDelayed && r.cookie == s.counter
  }

  lemma ReturnLeaves(s: Engine, reply: Event)
    requires s.current.Some? && s.current.value.target < |s.parked| && Fills(s.current.value, reply)
    ensures Leaves(s, Finish(s, reply), s.current.value, reply)
  {
    var x, r := s.current.value, reply.(isResponse := true, responseRequested := false);
    if x.responseRequested && !reply.isDelayed {
      PutDelivers(s, r, false, false);
      hide PutEvent;
    }
  }

  /**
   From the post to the response. An event that was posted at i, by a handler, an interrupt or
   as a notification, and that is gone at j, has been dispatched, and its handler has returned;
   if the handler only filled in the response, then the one that the poster asked for was sent
   to it or parked, as long as there was a structure for it, and otherwise none.
   */
  lemma PostIsAnswered(states: seq<Engine>, moves: seq<Move>, i: nat, j: nat) returns (x: Event, d: nat, k: nat)
    requires Run(states, moves) && i < j <= |moves|
    requires var s, m := states[i], moves[i];
      IsPost(m) && Poster(s, m) < |s.parked| && s.free != [] && ((!m.Notify? && m.light) || !m.ev.isDelayed)
    requires forall x :: Posts(states[i], moves[i], states[i + 1], x) ==> !Queued(states[j], x) && states[j].current != Some(x)
    ensures Posts(states[i], moves[i], states[i + 1], x)
    ensures i < d < k < j && moves[d] == Dispatch && states[d + 1].current == Some(x)
    ensures moves[k].Return? && states[k].current == Some(x)
    ensures x.target < |states[k].parked| && Fills(x, moves[k].reply) ==> Leaves(states[k], states[k + 1], x, moves[k].reply)
  {
    assert Step(states[i], moves[i], states[i + 1]);
    x := PostQueues(states[i], moves[i]);
    d := Dispatched(states, moves, i + 1, j, x);
    k := Returned(states, moves, d + 1, j, x);
    assert Step(states[k], moves[k], states[k + 1]);
    if x.target < |states[k].parked| && Fills(x, moves[k].reply) {
      ReturnLeaves(states[k], moves[k].reply);
    }
  }
}
