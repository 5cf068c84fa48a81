/**
 When a start request of the clock tree is answered. A driver that refuses a start with the
 code "not supported", or answers it or its query with "pending", ends the protocol in the
 middle. Here is exactly when that happens, what it leaves behind, and that nothing ever
 repairs it.
 */
module ClockTreeHangs {
  import opened Status
  import opened Forest
  import opened ClockTree
  import opened ClockTreeSafety
  import opened ClockTreeRuns

  // ------------------------------------------------------------ traces with any driver

  /** One queued event is processed; a driver that is told to start, or queried for a start, answers as it likes. */
  ghost predicate AnyStep(p: Parents, s: State, a: Answer, t: State) {
    Shaped(p, s) && s.queue != [] && Tolerated(a, s.queue[0].goal) && t == Deliver(p, s, a)
  }

  ghost predicate AnyTrace(p: Parents, states: seq<State>, answers: seq<Answer>) {
    && |states| == |answers| + 1
    && (forall i :: 0 <= i < |states| ==> Shaped(p, states[i]))
    && forall i, j :: 0 <= i < |answers| && j == i + 1 ==> AnyStep(p, states[i], answers[i], states[j])
  }

  /** The events that follow a start request to a tree clock x in a quiet state, up to some point. */
  ghost predicate Starting(p: Parents, s: State, x: nat, states: seq<State>, answers: seq<Answer>) {
    exists a: Answer ::
      && Inv(p, s, Quiet) && Permitted(p, s, x, Run) && !SingleNode(p, x)
      && AnyTrace(p, states, answers) && states[0] == Request(p, s, x, Run, a)
  }

  /** The event at the head of the queue tells a driver to start: a waiting clock is told of success, or a stopped root is asked. */
  predicate Drives(p: Parents, s: State, a: Answer)
    requires Shaped(p, s) && s.queue != []
  {
    var m := s.queue[0];
    var c := s.clocks[m.target];
    if c.waiting then FromParent(p, m) && m.status == SUCCESS
    else m.goal == Run && a.getStatus == SUCCESS && !c.running && p[m.target].None?
  }

  /** A driver answers with a code the protocol does not handle: to a start, or to the query of an idle clock. */
  predicate Jams(p: Parents, s: State, a: Answer) {
    && Shaped(p, s) && s.queue != []
    && ((Drives(p, s, a) && Unsupported(a.setStatus)) || (!s.clocks[s.queue[0].target].waiting && a.getStatus == PENDING))
  }

  function Mended(a: Answer): Answer {
    Answer(if a.getStatus == PENDING then SUCCESS else a.getStatus, if Unsupported(a.setStatus) then SUCCESS else a.setStatus)
  }

  /** At every other event such an answer is not asked for. */
  lemma AnswerUnused(p: Parents, s: State, a: Answer)
    requires Shaped(p, s) && s.queue != [] && Tolerated(a, s.queue[0].goal) && !Jams(p, s, a)
    ensures Sound(Mended(a), s.queue[0].goal) && Deliver(p, s, Mended(a)) == Deliver(p, s, a)
  {
  }

  lemma MendedTrace(p: Parents, states: seq<State>, answers: seq<Answer>, k: nat) returns (sound: seq<Answer>)
    requires AnyTrace(p, states, answers) && k <= |answers|
    requires forall i :: 0 <= i < k ==> !Jams(p, states[i], answers[i])
    ensures Trace(p, states[..k + 1], sound) && |sound| == k && forall i :: 0 <= i < k ==> sound[i] == Mended(answers[i])
  {
    sound := seq(k, i requires 0 <= i < k => Mended(answers[i]));
    forall i, j | 0 <= i < k && j == i + 1
      ensures Step(p, states[i], sound[i], states[j])
    {
      assert AnyStep(p, states[i], answers[i], states[j]);
      AnswerUnused(p, states[i], answers[i]);
    }
  }

  // ------------------------------------------------------------ the event that ends it

  lemma JamPhase(p: Parents, s: State, ph: Phase, a: Answer)
    requires Traffic(p, s, ph) && Jams(p, s, a) && Tolerated(a, s.queue[0].goal)
    ensures ph.Grant? || (ph.Climb? && ph.at == s.queue[0].target)
  {
  }

  /** Such an event leaves nothing in flight, no completion, and every clock as it was. */
  lemma UnsupportedHangs(p: Parents, s: State, ph: Phase, a: Answer)
    requires Inv(p, s, ph) && Jams(p, s, a) && Tolerated(a, s.queue[0].goal)
    ensures var t := Deliver(p, s, a);
      && t.queue == [] && t.done == s.done && t.starts == s.starts
      && t.clocks == s.clocks[s.queue[0].target := s.clocks[s.queue[0].target].(caller := t.clocks[s.queue[0].target].caller)]
    ensures ph.Grant? ==> Deliver(p, s, a).clocks == s.clocks
    ensures (ph.Grant? || ph.Climb?) && Owner(ph).Some?
  {
    JamPhase(p, s, ph, a);
  }

  /**
   A start that hangs: nothing in flight, no completion, the requested clock still the
   initiator and, if it waits, waiting with the path above it, and no clock switched by it accounted for: the
   reference that travelled with the last event stays on the clock that event left.
   */
  ghost predicate Stuck(p: Parents, s: State, t: State, x: nat)
    requires Acyclic(p) && Shaped(p, t) && x < |p|
  {
    && t.queue == [] && t.done == s.done && t.starts == s.starts && t.clocks[x].initiator
    && (t.clocks[x].waiting ==> exists path :: Jammed(p, t, path) && path[0] == x)
    && exists ph: Phase :: (ph.Climb? || ph.Grant?) && Owner(ph) == Some(x) && Accounts(p, t, ph) && Waiting(p, t, PathOf(ph))
  }

  /** The last event of the trace jammed: the start is stuck, and the requested clock waits unless that event was its own. */
  ghost predicate Hung(p: Parents, s: State, x: nat, states: seq<State>, answers: seq<Answer>)
    requires Acyclic(p) && AnyTrace(p, states, answers) && x < |p|
  {
    var n := |answers|;
    && n > 0 && Jams(p, states[n - 1], answers[n - 1]) && Stuck(p, s, states[n], x)
    && (states[n].clocks[x].waiting || states[n - 1].queue[0].target == x)
  }

  // ------------------------------------------------------------ nothing repairs it

  /** The event passes neither from a clock of the path to its parent nor back. */
  predicate Apart(p: Parents, path: seq<nat>, m: Msg) {
    forall i :: 0 <= i < |path| && path[i] < |p| && p[path[i]].Some? ==>
      && !(m.target == path[i] && m.source == ClockId(p[path[i]].value))
      && !(m.target == p[path[i]].value && m.source == ClockId(path[i]))
  }

  /** The clocks of the path wait for an answer that is not under way, and that nobody owes them. */
  ghost predicate Jammed(p: Parents, s: State, path: seq<nat>)
    requires Shaped(p, s)
  {
    && path != []
    && (forall i :: 0 <= i < |path| ==> path[i] < |p| && p[path[i]].Some? && s.clocks[path[i]].waiting)
    && (forall i, j :: 0 <= i < j < |path| && j == i + 1 ==> p[path[i]] == Some(path[j]))
    && (forall k :: 0 <= k < |s.queue| ==> Apart(p, path, s.queue[k]))
    && OwesNothing(p, s, path)
  }

  /** The parent of the last clock of the path is outside the path and owes it no answer. */
  predicate OwesNothing(p: Parents, s: State, path: seq<nat>)
    requires Shaped(p, s) && path != [] && path[|path| - 1] < |p| && p[path[|path| - 1]].Some?
  {
    var q := p[path[|path| - 1]].value;
    q !in path && (s.clocks[q].waiting ==> s.clocks[q].caller != ClockId(path[|path| - 1]))
  }

  lemma SendJammed(p: Parents, s: State, path: seq<nat>, m: Msg)
    requires Shaped(p, s) && Jammed(p, s, path) && Addressed(p, m) && Apart(p, path, m)
    ensures Jammed(p, Send(p, s, m), path)
  {
  }

  /** A clock outside the path may change as long as it does not come to owe the path an answer. */
  lemma PutJammed(p: Parents, s: State, path: seq<nat>, x: nat, c: Clock)
    requires Shaped(p, s) && Jammed(p, s, path) && x < |p| && x !in path && (c.caller.ClockId? ==> c.caller.i < |p|)
    requires c.waiting && p[path[|path| - 1]] == Some(x) ==> c.caller != ClockId(path[|path| - 1])
    ensures Jammed(p, Put(p, s, x, c), path)
  {
  }

  /** Only the last clock of the path has a parent outside it. */
  lemma NextOnPath(p: Parents, s: State, path: seq<nat>, i: nat)
    requires Shaped(p, s) && Jammed(p, s, path) && i + 1 < |path|
    ensures p[path[i]].Some? && p[path[i]].value in path
  {
    assert p[path[i]] == Some(path[i + 1]);
  }

  lemma UpApart(p: Parents, s: State, path: seq<nat>, x: nat, goal: Goal, status: int)
    requires Acyclic(p) && Shaped(p, s) && Jammed(p, s, path) && x < |p| && x !in path && p[x].Some?
    ensures Apart(p, path, Msg(ClockId(x), p[x].value, goal, status))
  {
    forall i | 0 <= i < |path|
      ensures !(p[x].value == path[i] && p[path[i]] == Some(x))
    {
      DepthStep(p, x);
      DepthStep(p, path[i]);
    }
  }

  /** Clock x answers whoever called it: not the path. */
  lemma RespondJammed(p: Parents, s: State, path: seq<nat>, x: nat, goal: Goal, status: int)
    requires Shaped(p, s) && Jammed(p, s, path) && x < |p| && x !in path
    requires p[path[|path| - 1]] == Some(x) ==> s.clocks[x].caller != ClockId(path[|path| - 1])
    ensures Jammed(p, Respond(p, s, x, goal, status), path)
    ensures var t := Respond(p, s, x, goal, status); t.done == s.done || t.done == s.done + [Completion(x, goal, status)]
  {
    var c := s.clocks[x].(waiting := false);
    PutJammed(p, s, path, x, c);
    PutJammed(p, s, path, x, c.(initiator := false));
    if c.caller.ClockId? {
      var m := Msg(ClockId(x), c.caller.i, goal, status);
      forall i | 0 <= i < |path|
        ensures !(c.caller.i == path[i] && p[path[i]] == Some(x))
      {
        if i + 1 < |path| {
          NextOnPath(p, s, path, i);
        }
      }
      assert Apart(p, path, m);
      SendJammed(p, Put(p, s, x, c), path, m);
    }
  }

  /** No completion is given for a clock of the path. */
  predicate Unanswered(s: State, t: State, path: seq<nat>) {
    s.done <= t.done && forall k :: |s.done| <= k < |t.done| ==> t.done[k].clock !in path
  }

  lemma RunJammed(p: Parents, s: State, path: seq<nat>, m: Msg, a: Answer)
    requires Acyclic(p) && Shaped(p, s) && Jammed(p, s, path) && Addressed(p, m) && m.target !in path
    requires p[path[|path| - 1]] == Some(m.target) ==> s.clocks[m.target].caller != ClockId(path[|path| - 1])
    ensures Jammed(p, OnRun(p, s, m, a), path) && Unanswered(s, OnRun(p, s, m, a), path)
  {
    hide Jammed;
    var x := m.target;
    var c := s.clocks[x];
    if c.running {
      PutJammed(p, s, path, x, c.(ref := Up(c.ref)));
      RespondJammed(p, Put(p, s, x, c.(ref := Up(c.ref))), path, x, Run, m.status);
    } else if p[x].Some? {
      PutJammed(p, s, path, x, c.(waiting := true));
      UpApart(p, s, path, x, Run, m.status);
      SendJammed(p, Put(p, s, x, c.(waiting := true)), path, Msg(ClockId(x), p[x].value, Run, m.status));
    } else if a.setStatus == SUCCESS {
      var d := Drive(c, Run, SUCCESS).(ref := Up(c.ref));
      PutJammed(p, s, path, x, d);
      RespondJammed(p, Put(p, s, x, d), path, x, Run, SUCCESS);
    } else if !Unsupported(a.setStatus) {
      RespondJammed(p, s, path, x, Run, a.setStatus);
    }
  }

  lemma HaltJammed(p: Parents, s: State, path: seq<nat>, m: Msg, a: Answer)
    requires Acyclic(p) && Shaped(p, s) && Jammed(p, s, path) && Addressed(p, m) && m.target !in path
    requires p[path[|path| - 1]] == Some(m.target) ==> s.clocks[m.target].caller != ClockId(path[|path| - 1])
    requires !s.clocks[m.target].waiting
    ensures Jammed(p, OnHalt(p, s, m, a), path) && Unanswered(s, OnHalt(p, s, m, a), path)
  {
    hide Jammed;
    var x := m.target;
    var c := s.clocks[x].(ref := Down(s.clocks[x].ref));
    PutJammed(p, s, path, x, c);
    if c.ref != 0 {
      RespondJammed(p, Put(p, s, x, c), path, x, Halt, m.status);
    } else if !Unsupported(a.setStatus) {
      var d := Drive(c, Halt, a.setStatus);
      PutJammed(p, s, path, x, d);
      RespondJammed(p, Put(p, s, x, d), path, x, Halt, a.setStatus);
      var t := Respond(p, Put(p, s, x, d), x, Halt, a.setStatus);
      if p[x].Some? {
        UpApart(p, t, path, x, Halt, a.setStatus);
        SendJammed(p, t, path, Msg(ClockId(x), p[x].value, Halt, a.setStatus));
      }
    }
  }

  lemma IdleJammed(p: Parents, s: State, path: seq<nat>, m: Msg, a: Answer)
    requires Acyclic(p) && Shaped(p, s) && Jammed(p, s, path) && Addressed(p, m) && Apart(p, path, m)
    requires !s.clocks[m.target].waiting
    ensures Jammed(p, OnIdle(p, s, m, a), path) && Unanswered(s, OnIdle(p, s, m, a), path)
  {
    var x := m.target;
    var u := Put(p, s, x, s.clocks[x].(caller := m.source));
    assert x !in path;
    PutJammed(p, s, path, x, s.clocks[x].(caller := m.source));
    assert p[path[|path| - 1]] == Some(x) ==> u.clocks[x].caller != ClockId(path[|path| - 1]);
    hide Jammed;
    if a.getStatus != SUCCESS {
      RespondJammed(p, u, path, x, m.goal, a.getStatus);
    } else {
      RunJammed(p, u, path, m, a);
      HaltJammed(p, u, path, m, a);
    }
  }

  /** A waiting clock turns away whoever is not its parent; a clock outside the path may go on. */
  lemma WaitJammed(p: Parents, s: State, path: seq<nat>, m: Msg, a: Answer)
    requires Acyclic(p) && Shaped(p, s) && Jammed(p, s, path) && Addressed(p, m) && Apart(p, path, m)
    requires s.clocks[m.target].waiting
    ensures Jammed(p, OnWait(p, s, m, a), path) && Unanswered(s, OnWait(p, s, m, a), path)
  {
    hide Acyclic;
    var x := m.target;
    var c := s.clocks[x];
    if p[x].None? || m.source != ClockId(p[x].value) {
      if m.source.ClockId? {
        SendJammed(p, s, path, Msg(ClockId(x), m.source.i, m.goal, E_BUSY));
      }
    } else {
      assert x !in path;
      hide Jammed;
      if m.status != SUCCESS {
        RespondJammed(p, s, path, x, m.goal, m.status);
      } else if a.setStatus == SUCCESS {
        var d := Drive(c, m.goal, SUCCESS).(ref := Up(c.ref));
        PutJammed(p, s, path, x, d);
        RespondJammed(p, Put(p, s, x, d), path, x, m.goal, SUCCESS);
      } else if !Unsupported(a.setStatus) {
        var n := Msg(ClockId(x), p[x].value, Halt, a.setStatus);
        UpApart(p, s, path, x, Halt, a.setStatus);
        SendJammed(p, s, path, n);
        RespondJammed(p, Send(p, s, n), path, x, Run, a.setStatus);
      }
    }
  }

  lemma DeliverJammed(p: Parents, s: State, path: seq<nat>, a: Answer)
    requires Acyclic(p) && Shaped(p, s) && Jammed(p, s, path) && s.queue != []
    ensures Jammed(p, Deliver(p, s, a), path) && Unanswered(s, Deliver(p, s, a), path)
  {
    var m, t := s.queue[0], s.(queue := s.queue[1..]);
    assert Jammed(p, t, path);
    if s.clocks[m.target].waiting {
      WaitJammed(p, t, path, m, a);
    } else {
      IdleJammed(p, t, path, m, a);
    }
  }

  /** Any request whatever, serialised or not. */
  lemma RequestJammed(p: Parents, s: State, path: seq<nat>, x: nat, goal: Goal, a: Answer)
    requires Acyclic(p) && Shaped(p, s) && Jammed(p, s, path) && x < |p|
    ensures Jammed(p, Request(p, s, x, goal, a), path) && Unanswered(s, Request(p, s, x, goal, a), path)
    ensures x in path ==> Request(p, s, x, goal, a) == s
  {
    var c := s.clocks[x];
    if !c.waiting {
      if SingleNode(p, x) {
        PutJammed(p, s, path, x, Drive(c, goal, a.setStatus));
      } else {
        PutJammed(p, s, path, x, c.(initiator := true));
        SendJammed(p, Put(p, s, x, c.(initiator := true)), path, Msg(AgentId, x, goal, SUCCESS));
      }
    }
  }

  /** Any request, or any answer to the next event: no hypothesis on requesters or drivers. */
  ghost predicate AnyMove(p: Parents, s: State, m: Move, t: State) {
    && Shaped(p, s)
    && match m
       case Ask(x, goal, a) => x < |p| && t == Request(p, s, x, goal, a)
       case Process(a) => s.queue != [] && t == Deliver(p, s, a)
  }

  ghost predicate AnyRun(p: Parents, states: seq<State>, moves: seq<Move>) {
    && |states| == |moves| + 1
    && (forall i :: 0 <= i < |states| ==> Shaped(p, states[i]))
    && forall i, j :: 0 <= i < |moves| && j == i + 1 ==> AnyMove(p, states[i], moves[i], states[j])
  }

  /**
   Whatever is requested and however the drivers answer from then on, the jammed clocks wait
   for ever: their requester never hears, and every further request to them is turned away.
   */
  lemma {:induction false} JammedForever(p: Parents, path: seq<nat>, states: seq<State>, moves: seq<Move>, k: nat)
    requires Acyclic(p) && AnyRun(p, states, moves) && Jammed(p, states[0], path) && k <= |moves|
    ensures Jammed(p, states[k], path) && Unanswered(states[0], states[k], path)
    ensures forall x: nat, goal, a :: x in path && x < |p| ==> Request(p, states[k], x, goal, a) == states[k]
    decreases k
  {
    if k > 0 {
      hide Jammed;
      JammedForever(p, path, states, moves, k - 1);
      assert AnyMove(p, states[k - 1], moves[k - 1], states[k]);
      match moves[k - 1] {
        case Ask(x, goal, a) => RequestJammed(p, states[k - 1], path, x, goal, a);
        case Process(a) => DeliverJammed(p, states[k - 1], path, a);
      }
    }
    forall x: nat, goal, a | x in path && x < |p|
      ensures Request(p, states[k], x, goal, a) == states[k]
    {
      RequestJammed(p, states[k], path, x, goal, a);
    }
  }

  // ------------------------------------------------------------ when a start is answered

  lemma WaitingIsJammed(p: Parents, s: State, path: seq<nat>)
    requires Acyclic(p) && Shaped(p, s) && path != [] && Waiting(p, s, path) && s.queue == []
    ensures Jammed(p, s, path)
  {
    SplitLast(path);
    ParentClear(p, s, path[..|path| - 1], path[|path| - 1]);
  }

  lemma JamKeeps(p: Parents, u: State, ph: Phase, a: Answer)
    requires Inv(p, u, ph) && Jams(p, u, a) && Tolerated(a, u.queue[0].goal)
    ensures var t := Deliver(p, u, a);
      Waiting(p, t, PathOf(ph)) && Accounts(p, t, ph) && Owned(p, t, ph)
  {
    hide Deliver, Waiting, Owned, InFlight, Counted, Alive, Ledger;
    var t, y := Deliver(p, u, a), u.queue[0].target;
    JamPhase(p, u, ph, a);
    UnsupportedHangs(p, u, ph, a);
    if ph.Climb? {
      ClimbFacts(p, u, ph.path, ph.at);
    }
    CallerAccounts(p, u, t, ph, y);
    CallerTraffic(p, u, t, ph, y);
  }

  /** The caller recorded by clock y matters only to the waiting path. */
  lemma CallerAccounts(p: Parents, u: State, t: State, ph: Phase, y: nat)
    requires Accounts(p, u, ph) && Shaped(p, t) && y < |p| && t.starts == u.starts
    requires t.clocks == u.clocks[y := u.clocks[y].(caller := t.clocks[y].caller)]
    ensures Accounts(p, t, ph)
  {
    Recount(p, u, ph, t, ph, y);
  }

  lemma CallerPath(p: Parents, u: State, t: State, path: seq<nat>, y: nat)
    requires Acyclic(p) && Shaped(p, u) && Shaped(p, t) && Waiting(p, u, path) && y < |p|
    requires t.clocks == u.clocks[y := u.clocks[y].(caller := t.clocks[y].caller)]
    requires y !in path || t.clocks == u.clocks
    ensures Waiting(p, t, path)
  {
    if y !in path {
      PathSame(p, u, t, path, y);
    }
  }

  lemma CallerTraffic(p: Parents, u: State, t: State, ph: Phase, y: nat)
    requires Traffic(p, u, ph) && Shaped(p, t) && y < |p|
    requires t.clocks == u.clocks[y := u.clocks[y].(caller := t.clocks[y].caller)]
    requires y !in PathOf(ph) || t.clocks == u.clocks
    ensures Waiting(p, t, PathOf(ph)) && Owned(p, t, ph)
  {
    hide InFlight, Waiting, Owned;
    OwnedSame(p, u, t, ph, ph, y);
    CallerPath(p, u, t, PathOf(ph), y);
  }

  lemma JamIsStuck(p: Parents, s: State, u: State, ph: Phase, a: Answer, x: nat)
    requires Inv(p, u, ph) && Jams(p, u, a) && Tolerated(a, u.queue[0].goal)
    requires x < |p| && u.done == s.done && u.starts == s.starts && Owner(ph) == Some(x)
    ensures Stuck(p, s, Deliver(p, u, a), x)
    ensures Deliver(p, u, a).clocks[x].waiting || u.queue[0].target == x
  {
    hide Deliver, InFlight, Counted, Alive, Ledger, Jammed;
    var t := Deliver(p, u, a);
    JamPhase(p, u, ph, a);
    UnsupportedHangs(p, u, ph, a);
    JamKeeps(p, u, ph, a);
    if PathOf(ph) != [] {
      WaitingIsJammed(p, t, PathOf(ph));
    }
  }

  lemma FirstJam(p: Parents, states: seq<State>, answers: seq<Answer>, k: nat) returns (i: nat)
    requires |states| == |answers| + 1 && k <= |answers|
    ensures i <= k && (i < k ==> Jams(p, states[i], answers[i]))
    ensures forall j :: 0 <= j < i ==> !Jams(p, states[j], answers[j])
  {
    i := 0;
    while i < k && !Jams(p, states[i], answers[i])
      invariant i <= k && forall j :: 0 <= j < i ==> !Jams(p, states[j], answers[j])
    {
      i := i + 1;
    }
  }

  /** A drained start with its completion: all or nothing, but for a clock left running without a reference. */
  ghost predicate Concluded(p: Parents, s: State, x: nat, states: seq<State>, answers: seq<Answer>, status: int)
    requires Acyclic(p) && Shaped(p, s) && AnyTrace(p, states, answers) && x < |p|
  {
    && Ended(p, s, states[|answers|], x, status)
    && (AllOrNothing(p, s, states[|answers|], x, status) <==> status == SUCCESS || !Taken(p, states, answers))
  }

  /** Mending an answer that jams nothing does not change which clocks are given a reference. */
  lemma MendedTakes(p: Parents, states: seq<State>, answers: seq<Answer>, sound: seq<Answer>)
    requires |states| == |answers| + 1 && |sound| == |answers|
    requires forall i :: 0 <= i < |answers| ==> sound[i] == Mended(answers[i]) && !Jams(p, states[i], answers[i])
    ensures Taken(p, states, sound) <==> Taken(p, states, answers)
  {
    hide Loose;
    forall i | 0 <= i < |answers|
      ensures Takes(p, states[i], sound[i]) <==> Takes(p, states[i], answers[i])
    {
      assert sound[i] == Mended(answers[i]) && !Jams(p, states[i], answers[i]);
    }
  }

  lemma NoJamAnswers(p: Parents, s: State, x: nat, states: seq<State>, answers: seq<Answer>) returns (status: int)
    requires Starting(p, s, x, states, answers) && states[|answers|].queue == []
    requires forall i :: 0 <= i < |answers| ==> !Jams(p, states[i], answers[i])
    ensures Concluded(p, s, x, states, answers, status)
  {
    hide Takes, Jams, Deliver, Loose;
    var sound := MendedTrace(p, states, answers, |answers|);
    assert states[..|answers| + 1] == states;
    status := StartIsAllOrNothing(p, s, x, states, sound);
    MendedTakes(p, states, answers, sound);
  }

  lemma JamEnds(p: Parents, s: State, x: nat, states: seq<State>, answers: seq<Answer>, i: nat)
    requires Starting(p, s, x, states, answers) && i < |answers| && Jams(p, states[i], answers[i])
    requires forall j :: 0 <= j < i ==> !Jams(p, states[j], answers[j])
    ensures |answers| == i + 1 && Hung(p, s, x, states, answers)
  {
    assert i + 1 < |answers| ==> states[i + 1].queue != [] by {
      if i + 1 < |answers| {
        assert AnyStep(p, states[i + 1], answers[i + 1], states[i + 2]);
      }
    }
    hide Deliver, Waiting, Owned, InFlight, Counted, Alive, Ledger;
    var sound := MendedTrace(p, states, answers, i);
    assert Requesting(p, s, x, Run, states[..i + 1], sound);
    var ph := RequestLast(p, s, x, Run, states[..i + 1], sound);
    assert AnyStep(p, states[i], answers[i], states[i + 1]);
    UnsupportedHangs(p, states[i], ph, answers[i]);
    JamIsStuck(p, s, states[i], ph, answers[i], x);
  }

  /**
   Exactly when a start is answered, drivers being free to answer a start and its queries as
   they like: its drained traffic has the completion, and is concluded, if and only if no
   driver that was told to start answered with "not supported" or "pending", and no query
   was answered with "pending"; otherwise the start is stuck.
   */
  lemma AnsweredIff(p: Parents, s: State, x: nat, states: seq<State>, answers: seq<Answer>)
    requires Starting(p, s, x, states, answers) && states[|answers|].queue == []
    ensures var t := states[|answers|];
      && ((exists status :: t.done == s.done + [Completion(x, Run, status)]) <==>
          forall i :: 0 <= i < |answers| ==> !Jams(p, states[i], answers[i]))
      && ((exists status :: Concluded(p, s, x, states, answers, status)) || Hung(p, s, x, states, answers))
  {
    var i := FirstJam(p, states, answers, |answers|);
    var t := states[|answers|];
    if i == |answers| {
      var status := NoJamAnswers(p, s, x, states, answers);
      assert t.done == s.done + [Completion(x, Run, status)];
    } else {
      JamEnds(p, s, x, states, answers, i);
    }
  }

  /** A root whose driver does not support being started never answers. */
  lemma RootHangs(p: Parents, s: State, x: nat, a: Answer) returns (states: seq<State>, answers: seq<Answer>)
    requires Inv(p, s, Quiet) && Permitted(p, s, x, Run) && !SingleNode(p, x)
    requires p[x].None? && !s.clocks[x].running && a.getStatus == SUCCESS && Unsupported(a.setStatus)
    ensures Starting(p, s, x, states, answers) && states[|answers|].queue == [] && states[|answers|].done == s.done
  {
    var u := Request(p, s, x, Run, a);
    assert !s.clocks[x].waiting;
    assert u.queue == [Msg(AgentId, x, Run, SUCCESS)] && !u.clocks[x].waiting && !u.clocks[x].running;
    states, answers := [u, Deliver(p, u, a)], [a];
    assert AnyStep(p, states[0], answers[0], states[1]);
  }

  const PAIR: Parents := [None, Some(0)]
  const STOPPED: Clock := Clock(0, false, false, NoId, false)

  /** Two clocks at boot, both stopped: a start of the root, refused as unsupported, is lost. */
  lemma StartLost(done: seq<Completion>) returns (states: seq<State>, answers: seq<Answer>)
    ensures var s := State([STOPPED, STOPPED], [], done, [0, 0]);
      && Acyclic(PAIR) && Booted(PAIR, s) && Starting(PAIR, s, 0, states, answers)
      && states[|answers|].queue == [] && states[|answers|].done == done
  {
    var s := State([STOPPED, STOPPED], [], done, [0, 0]);
    assert ReachesRoot(PAIR, 0, 2) && ReachesRoot(PAIR, 1, 2);
    forall x | 0 <= x < 2
      ensures RunningChildren(PAIR, s.clocks, x, 2) == 0
    {
      CountNone(PAIR, s.clocks, x, 2);
    }
    BootKeeps(PAIR, s);
    assert PAIR[1] == Some(0);
    states, answers := RootHangs(PAIR, s, 0, Answer(SUCCESS, E_SUPPORT));
  }

  lemma {:induction false} CountNone(p: Parents, clocks: seq<Clock>, x: nat, n: nat)
    requires n <= |p| == |clocks| && forall y :: 0 <= y < n ==> !clocks[y].running
    ensures RunningChildren(p, clocks, x, n) == 0
  {
    if n > 0 {
      CountNone(p, clocks, x, n - 1);
    }
  }

  // ------------------------------------------------------------ when a start succeeds

  /** At the head event a driver refuses: its query fails, or it does not start. */
  predicate Refuses(p: Parents, s: State, a: Answer) {
    && Shaped(p, s) && s.queue != []
    && ((!s.clocks[s.queue[0].target].waiting && a.getStatus != SUCCESS) || (Drives(p, s, a) && a.setStatus != SUCCESS))
  }

  const WILLING: Answer := Answer(SUCCESS, SUCCESS)

  lemma AnswerIsWilling(p: Parents, s: State, a: Answer)
    requires Shaped(p, s) && s.queue != [] && Tolerated(a, s.queue[0].goal) && !Refuses(p, s, a)
    ensures Deliver(p, s, a) == Deliver(p, s, WILLING)
  {
  }

  lemma WillingTrace(p: Parents, states: seq<State>, answers: seq<Answer>, k: nat) returns (willing: seq<Answer>)
    requires AnyTrace(p, states, answers) && k <= |answers|
    requires forall i :: 0 <= i < k ==> !Refuses(p, states[i], answers[i])
    ensures Trace(p, states[..k + 1], willing) && |willing| == k && forall i :: 0 <= i < k ==> willing[i] == WILLING
  {
    willing := seq(k, i => WILLING);
    forall i, j | 0 <= i < k && j == i + 1
      ensures Step(p, states[i], willing[i], states[j])
    {
      assert AnyStep(p, states[i], answers[i], states[j]);
      AnswerIsWilling(p, states[i], answers[i]);
    }
  }

  /** The status with which the driver of the addressed clock refuses. */
  function Refused(s: State, a: Answer): int
    requires s.queue != [] && s.queue[0].target < |s.clocks|
  {
    if s.clocks[s.queue[0].target].waiting then a.setStatus else Refusal(a)
  }

  /** The notice to the waiting path carries status v. */
  predicate Bears(t: State, ph: Phase, v: int)
    requires ph.Refuse?
  {
    var i := if ph.undo.Some? && ph.ahead then 1 else 0;
    i < |t.queue| && t.queue[i].status == v
  }

  /** A start of x that was refused with status v: its notice is on the way down, or the failure is reported. */
  ghost predicate Fallen(p: Parents, x: nat, s: State, t: State, ph: Phase, v: int) {
    && Inv(p, t, ph)
    && if ph.Refuse? then t.done == s.done && Owner(ph) == Some(x) && Bears(t, ph, v)
       else Owner(ph) == None && t.done == s.done + [Completion(x, Run, v)]
  }

  /** One event passes the refusal on, or reports it. */
  predicate Falls(s: State, t: State, ph: Phase, nx: Phase, v: int) {
    if nx.Refuse? then Owner(nx) == Owner(ph) && t.done == s.done && Bears(t, nx, v)
    else Owner(nx) == None && Owner(ph).Some? && t.done == s.done + [Completion(Owner(ph).value, Run, v)]
  }

  /** A clock that gives up passes the refusal on to the path below it, or reports it. */
  lemma GaveUpFalls(p: Parents, s: State, t: State, ph: Phase, path: seq<nat>, x: nat, undo: Option<nat>, stop: seq<Msg>, status: int)
    requires Shaped(p, s) && x < |p| && GaveUp(p, s, t, path, x, stop, status)
    requires Owner(ph) == Some(if path == [] then x else path[0])
    requires |stop| == if undo.Some? then 1 else 0
    ensures Falls(s, t, ph, Failed(path, undo), status)
  {
    assert Owner(Failed(path, undo)) == if path == [] then None else Some(path[0]);
  }

  lemma ClimbFalls(p: Parents, s: State, path: seq<nat>, x: nat, a: Answer)
    requires Inv(p, s, Climb(path, x)) && Sound(a, Run) && Refuses(p, s, a)
    ensures s.queue != [] && s.queue[0].target < |s.clocks|
    ensures Falls(s, Deliver(p, s, a), Climb(path, x), Next(p, s, Climb(path, x), a), Refused(s, a))
  {
    ClimbFacts(p, s, path, x);
    hide Waiting, Owned, InFlight, Counted, Alive, Ledger;
    ClimbEffect(p, s, path, x, a);
    hide Deliver;
    GaveUpFalls(p, s, Deliver(p, s, a), Climb(path, x), path, x, None, [], Refusal(a));
  }

  lemma GrantFalls(p: Parents, s: State, path: seq<nat>, x: nat, a: Answer)
    requires Inv(p, s, Grant(path + [x])) && Sound(a, Run) && Refuses(p, s, a)
    ensures s.queue != [] && x < |p| && s.queue[0].target < |s.clocks|
    ensures Falls(s, Deliver(p, s, a), Grant(path + [x]), Failed(path, p[x]), Refused(s, a))
    ensures a.setStatus != SUCCESS
  {
    hide Waiting, Owned, Counted, Alive, Ledger;
    var m := s.queue[0];
    NoticeFacts(p, s, Grant(path + [x]), path, x, m);
    RefBound(p, s, Grant(path + [x]), x);
    assert s.queue == [m];
    GrantEffect(p, s, path, x, m, a);
    hide Deliver;
    GaveUpFalls(p, s, Deliver(p, s, a), Grant(path + [x]), path, x, p[x], [Msg(ClockId(x), p[x].value, Halt, a.setStatus)], a.setStatus);
  }

  lemma RefuseFalls(p: Parents, s: State, path: seq<nat>, x: nat, undo: Option<nat>, ahead: bool, a: Answer, v: int)
    requires Inv(p, s, Refuse(path + [x], undo, ahead)) && (undo.None? || !ahead) && Bears(s, Refuse(path + [x], undo, ahead), v)
    ensures s.queue != [] && Falls(s, Deliver(p, s, a), Refuse(path + [x], undo, ahead), Failed(path, undo), v)
  {
    hide Waiting, Owned, Counted, Alive, Ledger;
    var ph, m, rest := Refuse(path + [x], undo, ahead), s.queue[0], s.queue[1..];
    NoticeFacts(p, s, ph, path, x, m);
    RefuseEffect(p, s, path, x, m, rest, a);
    hide Deliver;
    GaveUpFalls(p, s, Deliver(p, s, a), ph, path, x, undo, rest, m.status);
  }

  lemma RefusalFalls(p: Parents, x: nat, s: State, u: State, ph: Phase, a: Answer) returns (nx: Phase)
    requires Risen(p, x, s, u, ph) && u.queue != [] && Sound(a, u.queue[0].goal) && Refuses(p, u, a)
    ensures Fallen(p, x, s, Deliver(p, u, a), nx, Refused(u, a)) && Refused(u, a) != SUCCESS
  {
    hide Deliver, Waiting, Owned, InFlight, Counted, Alive, Ledger;
    QuietOnly(p, u, ph);
    StepKeeps(p, u, ph, a);
    nx := Next(p, u, ph, a);
    HeadRuns(p, u, ph);
    match ph {
      case Climb(path, at) => ClimbFalls(p, u, path, at, a);
      case Grant(q) =>
        SplitLast(q);
        GrantFalls(p, u, q[..|q| - 1], q[|q| - 1], a);
    }
    assert Falls(u, Deliver(p, u, a), ph, nx, Refused(u, a));
  }

  lemma HeadRuns(p: Parents, s: State, ph: Phase)
    requires Traffic(p, s, ph) && (ph.Climb? || ph.Grant?)
    ensures s.queue != [] && s.queue[0].goal == Run
  {
  }

  /** The stop that runs ahead of the notice leaves it as it is. */
  lemma DropFalls(p: Parents, s: State, ph: Phase, a: Answer, v: int)
    requires Inv(p, s, ph) && s.queue != [] && Sound(a, s.queue[0].goal)
    requires ph.Refuse? && ph.undo.Some? && ph.ahead && Bears(s, ph, v)
    ensures Bears(Deliver(p, s, a), Next(p, s, ph, a), v)
  {
    hide Waiting, Owned, InFlight, Counted, Alive, Ledger;
    DropFacts(p, s, ph, ph.undo.value);
    RefBound(p, s, ph, ph.undo.value);
    DropEffect(p, s, ph.undo.value, s.queue[0], s.queue[1..], a);
  }

  lemma FallGoesOn(p: Parents, x: nat, s: State, u: State, ph: Phase, a: Answer, v: int) returns (nx: Phase)
    requires Fallen(p, x, s, u, ph, v) && u.queue != [] && Sound(a, u.queue[0].goal)
    ensures Fallen(p, x, s, Deliver(p, u, a), nx, v)
  {
    hide Deliver, Waiting, Owned, InFlight, Counted, Alive, Ledger;
    StepKeeps(p, u, ph, a);
    nx := Next(p, u, ph, a);
    if ph.Refuse? && !(ph.undo.Some? && ph.ahead) {
      RefusePath(p, u, ph);
      SplitLast(ph.path);
      RefuseFalls(p, u, ph.path[..|ph.path| - 1], ph.path[|ph.path| - 1], ph.undo, ph.ahead, a, v);
      assert Falls(u, Deliver(p, u, a), ph, nx, v);
    } else {
      if ph.Refuse? {
        DropFalls(p, u, ph, a, v);
      }
      assert Owner(nx) == Owner(ph);
    }
  }

  lemma RefusePath(p: Parents, s: State, ph: Phase)
    requires Traffic(p, s, ph) && ph.Refuse?
    ensures ph.path != []
  {
  }

  lemma StartingFacts(p: Parents, s: State, x: nat, states: seq<State>, answers: seq<Answer>)
    requires Starting(p, s, x, states, answers)
    ensures AnyTrace(p, states, answers) && Inv(p, states[0], Climb([], x)) && states[0].done == s.done
  {
    hide Deliver;
    var a: Answer :| states[0] == Request(p, s, x, Run, a);
    RequestKeeps(p, s, x, Run, a);
    RequestEffect(p, s, x, Run, a);
  }

  lemma {:induction false} FallTrace(p: Parents, x: nat, states: seq<State>, answers: seq<Answer>, willing: seq<Answer>, k: nat, v: int)
    returns (ph: Phase)
    requires Trace(p, states, answers) && |willing| < k <= |answers| && Refuses(p, states[|willing|], answers[|willing|])
    requires v == Refused(states[|willing|], answers[|willing|])
    requires Trace(p, states[..|willing| + 1], willing) && forall i :: 0 <= i < |willing| ==> willing[i] == WILLING
    requires Inv(p, states[0], Climb([], x))
    ensures Fallen(p, x, states[0], states[k], ph, v) && v != SUCCESS
    decreases k
  {
    hide Inv, Deliver;
    var i := |willing|;
    assert Step(p, states[k - 1], answers[k - 1], states[k]);
    if k == i + 1 {
      var mid := RiseTrace(p, x, states[..i + 1], willing, i);
      ph := RefusalFalls(p, x, states[0], states[i], mid, answers[i]);
    } else {
      var mid := FallTrace(p, x, states, answers, willing, k - 1, v);
      ph := FallGoesOn(p, x, states[0], states[k - 1], mid, answers[k - 1], v);
    }
  }

  lemma FirstRefusal(p: Parents, states: seq<State>, answers: seq<Answer>, k: nat) returns (i: nat)
    requires |states| == |answers| + 1 && k <= |answers|
    ensures i <= k && (i < k ==> Refuses(p, states[i], answers[i]))
    ensures forall j :: 0 <= j < i ==> !Refuses(p, states[j], answers[j])
  {
    i := 0;
    while i < k && !Refuses(p, states[i], answers[i])
      invariant i <= k && forall j :: 0 <= j < i ==> !Refuses(p, states[j], answers[j])
    {
      i := i + 1;
    }
  }

  /**
   A start that was refused, with no answer the protocol does not handle, is completed with the
   status of the driver or query that refused first.
   */
  lemma RefusalIsReported(p: Parents, s: State, x: nat, states: seq<State>, answers: seq<Answer>, i: nat)
    requires Starting(p, s, x, states, answers) && states[|answers|].queue == []
    requires i < |answers| && Refuses(p, states[i], answers[i])
    requires forall j :: 0 <= j < i ==> !Refuses(p, states[j], answers[j])
    requires forall j :: 0 <= j < |answers| ==> !Jams(p, states[j], answers[j])
    ensures states[|answers|].done == s.done + [Completion(x, Run, Refused(states[i], answers[i]))]
    ensures Refused(states[i], answers[i]) != SUCCESS
  {
    hide Starting, Inv, Deliver;
    var n := |answers|;
    StartingFacts(p, s, x, states, answers);
    var sound := MendedTrace(p, states, answers, n);
    var willing := WillingTrace(p, states, answers, i);
    assert states[..n + 1] == states;
    assert Refuses(p, states[i], sound[i]);
    assert Refused(states[i], sound[i]) == Refused(states[i], answers[i]);
    var ph := FallTrace(p, x, states, sound, willing, n, Refused(states[i], answers[i]));
    QuietOnly(p, states[n], ph);
  }

  /**
   Exactly when a start succeeds: its drained traffic has the completion with success if and
   only if no driver on the way refused, neither its query nor its start.
   */
  lemma SucceedsIff(p: Parents, s: State, x: nat, states: seq<State>, answers: seq<Answer>)
    requires Starting(p, s, x, states, answers) && states[|answers|].queue == []
    ensures states[|answers|].done == s.done + [Completion(x, Run, SUCCESS)] <==>
      forall i :: 0 <= i < |answers| ==> !Refuses(p, states[i], answers[i])
  {
    var n := |answers|;
    var i := FirstRefusal(p, states, answers, n);
    if i == n {
      var willing := WillingTrace(p, states, answers, n);
      assert states[..n + 1] == states;
      WillingDriversSucceed(p, s, x, states, willing);
    } else {
      var j := FirstJam(p, states, answers, n);
      if j < n {
        JamEnds(p, s, x, states, answers, j);
      } else {
        RefusalIsReported(p, s, x, states, answers, i);
        assert states[n].done[|s.done|].status != SUCCESS;
      }
    }
  }
}
