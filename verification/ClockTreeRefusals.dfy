/**
 What a refused start does to a clock left running without a reference, as the firmware may
 find one at boot. The start gives the first running clock above it a reference and takes it
 back when it is refused, and that stops the clock if it had none of its own. Here is exactly
 when that can happen, in terms of the state before the request.
 */
module ClockTreeRefusals {
  import opened Status
  import opened Forest
  import opened ClockTree
  import opened ClockTreeSafety
  import opened ClockTreeRuns
  import opened ClockTreeHangs

  /** The nearest running clock, from x upwards. */
  function FirstRunning(p: Parents, clocks: seq<Clock>, x: nat): Option<nat>
    requires Acyclic(p) && |clocks| == |p| && x < |p|
    decreases Depth(p, x)
  {
    DepthStep(p, x);
    if clocks[x].running then Some(x)
    else if p[x].Some? then FirstRunning(p, clocks, p[x].value)
    else None
  }

  /** The nearest running clock is a proper ancestor of x, and has no reference. */
  predicate Exposed(p: Parents, s: State, x: nat)
    requires Acyclic(p) && Shaped(p, s) && x < |p|
  {
    var first := FirstRunning(p, s.clocks, x);
    first.Some? && first.value != x && first.value < |p| && s.clocks[first.value].ref == 0
  }

  // ------------------------------------------------------------ the climb

  /** No clock has changed its driver state or its count. */
  predicate Untouched(s: State, t: State) {
    |s.clocks| == |t.clocks| && forall y :: 0 <= y < |s.clocks| ==>
      t.clocks[y].running == s.clocks[y].running && t.clocks[y].ref == s.clocks[y].ref
  }

  lemma {:induction false} FirstRunningSame(p: Parents, s: State, t: State, x: nat)
    requires Acyclic(p) && |s.clocks| == |p| && x < |p| && Untouched(s, t)
    ensures FirstRunning(p, t.clocks, x) == FirstRunning(p, s.clocks, x)
    decreases Depth(p, x)
  {
    DepthStep(p, x);
    if !s.clocks[x].running && p[x].Some? {
      FirstRunningSame(p, s, t, p[x].value);
    }
  }

  /** While the request of x climbs, nothing is touched, and the nearest running clock lies ahead. */
  ghost predicate Climbing(p: Parents, s: State, x: nat, t: State, ph: Phase) {
    && Inv(p, t, ph) && |s.clocks| == |p| && x < |p|
    && (Owner(ph) == Some(x) || Owner(ph) == None)
    && (ph.Climb? ==>
          && Untouched(s, t) && ph.at < |p|
          && FirstRunning(p, s.clocks, ph.at) == FirstRunning(p, s.clocks, x))
  }

  lemma ClimbStep(p: Parents, s: State, x: nat, u: State, ph: Phase, a: Answer, t: State) returns (nx: Phase)
    requires Climbing(p, s, x, u, ph) && Step(p, u, a, t)
    ensures Climbing(p, s, x, t, nx)
  {
    hide Deliver, Waiting, Owned, InFlight, Counted, Alive, Ledger;
    StepKeeps(p, u, ph, a);
    nx := Next(p, u, ph, a);
    if nx.Climb? {
      HeadRuns(p, u, ph);
      ClimbFacts(p, u, ph.path, ph.at);
      ClimbEffect(p, u, ph.path, ph.at, a);
      DepthStep(p, ph.at);
    }
  }

  lemma {:induction false} ClimbTrace(p: Parents, x: nat, states: seq<State>, answers: seq<Answer>, k: nat) returns (ph: Phase)
    requires Trace(p, states, answers) && k <= |answers| && Climbing(p, states[0], x, states[0], Climb([], x))
    ensures Climbing(p, states[0], x, states[k], ph)
    decreases k
  {
    hide Climbing, Deliver;
    if k == 0 {
      ph := Climb([], x);
    } else {
      var mid := ClimbTrace(p, x, states, answers, k - 1);
      assert Step(p, states[k - 1], answers[k - 1], states[k]);
      ph := ClimbStep(p, states[0], x, states[k - 1], mid, answers[k - 1], states[k]);
    }
  }

  lemma TakesClimbs(p: Parents, s: State, ph: Phase, a: Answer)
    requires Traffic(p, s, ph) && Takes(p, s, a)
    ensures ph.Climb? && ph.at == s.queue[0].target
  {
    hide Loose;
  }

  /** Only the nearest running clock can be given a reference; if that is x itself, the start succeeds at once. */
  lemma TakesFirst(p: Parents, x: nat, states: seq<State>, answers: seq<Answer>, i: nat)
    requires Trace(p, states, answers) && Inv(p, states[0], Climb([], x)) && x < |p|
    requires i < |answers| && Takes(p, states[i], answers[i])
    ensures var y := states[i].queue[0].target;
      && FirstRunning(p, states[0].clocks, x) == Some(y) && states[0].clocks[y].ref == 0
      && (y == x ==> states[i + 1].queue == [] && Succeeded(states[i], states[i + 1], x))
  {
    hide Deliver, Waiting, Owned, Counted, Alive, Ledger, InFlight;
    var ph := ClimbTrace(p, x, states, answers, i);
    var s, a := states[i], answers[i];
    TakesClimbs(p, s, ph, a);
    DepthStep(p, ph.at);
    ClimbFacts(p, s, ph.path, ph.at);
    assert Step(p, s, a, states[i + 1]);
    ClimbEffect(p, s, ph.path, ph.at, a);
  }

  predicate Succeeded(s: State, t: State, x: nat) { t.done == s.done + [Completion(x, Run, SUCCESS)] }

  /** Before the request: unless the nearest running clock is a proper ancestor without a reference, nothing is lost. */
  lemma UnexposedIsAllOrNothing(p: Parents, s: State, x: nat, states: seq<State>, answers: seq<Answer>) returns (status: int)
    requires Requesting(p, s, x, Run, states, answers) && states[|answers|].queue == [] && !Exposed(p, s, x)
    ensures AllOrNothing(p, s, states[|answers|], x, status)
  {
    status := StartIsAllOrNothing(p, s, x, states, answers);
    if Taken(p, states, answers) {
      hide Deliver, Waiting, Owned, InFlight, Counted, Alive, Ledger, AllOrNothing, Takes;
      var i :| 0 <= i < |answers| && Takes(p, states[i], answers[i]);
      RequestClimbs(p, s, x, states, answers);
      FirstRunningSame(p, s, states[0], x);
      TakesFirst(p, x, states, answers, i);
      OnlySuccess(p, s, x, states, answers, i, status);
    }
  }

  lemma RequestClimbs(p: Parents, s: State, x: nat, states: seq<State>, answers: seq<Answer>)
    requires Requesting(p, s, x, Run, states, answers)
    ensures Inv(p, states[0], Climb([], x)) && Climbing(p, states[0], x, states[0], Climb([], x))
    ensures Untouched(s, states[0]) && states[0].done == s.done
  {
    hide Deliver;
    var a: Answer :| states[0] == Request(p, s, x, Run, a);
    RequestKeeps(p, s, x, Run, a);
    RequestEffect(p, s, x, Run, a);
  }

  lemma GoesOn(p: Parents, states: seq<State>, answers: seq<Answer>)
    requires Trace(p, states, answers)
    ensures forall i :: 0 <= i < |answers| ==> states[i].queue != []
  {
    forall i | 0 <= i < |answers|
      ensures states[i].queue != []
    {
      assert Step(p, states[i], answers[i], states[i + 1]);
    }
  }

  /** A trace ends with the event that empties its queue. */
  lemma OnlySuccess(p: Parents, s: State, x: nat, states: seq<State>, answers: seq<Answer>, i: nat, status: int)
    requires Trace(p, states, answers) && i < |answers| && states[i + 1].queue == [] && Succeeded(states[i], states[i + 1], x)
    requires states[|answers|].done == s.done + [Completion(x, Run, status)]
    ensures status == SUCCESS
  {
    assert i + 1 == |answers| by {
      hide Trace;
      GoesOn(p, states, answers);
    }
    var done := states[i + 1].done;
    assert done[|done| - 1] == Completion(x, Run, SUCCESS) == Completion(x, Run, status);
  }

  // ------------------------------------------------------------ a start that is refused below

  lemma Prepend(p: Parents, s: State, a: Answer, states: seq<State>, answers: seq<Answer>)
    requires Trace(p, states, answers) && Step(p, s, a, states[0])
    ensures Trace(p, [s] + states, [a] + answers)
    ensures forall i :: 0 <= i < |answers| ==> ([s] + states)[i + 1] == states[i] && ([a] + answers)[i + 1] == answers[i]
  {
    var t, b := [s] + states, [a] + answers;
    forall i, j | 0 <= i < |b| && j == i + 1
      ensures Step(p, t[i], b[i], t[j])
    {
      if i > 0 {
        assert t[i] == states[i - 1] && b[i] == answers[i - 1] && t[j] == states[j - 1];
        assert Step(p, states[i - 1], answers[i - 1], states[j - 1]);
      }
    }
  }

  /** Whatever is in flight can be processed to the end. */
  lemma {:induction false} Drain(p: Parents, s: State, ph: Phase) returns (states: seq<State>, answers: seq<Answer>)
    requires Inv(p, s, ph)
    ensures Trace(p, states, answers) && states[0] == s && states[|answers|].queue == []
    decreases Measure(p, ph)
  {
    hide Deliver, Waiting, Owned, InFlight, Counted, Alive, Ledger;
    if s.queue == [] {
      states, answers := [s], [];
    } else {
      var t := Deliver(p, s, WILLING);
      assert Step(p, s, WILLING, t);
      var nx := StepAll(p, s, ph, WILLING, t);
      states, answers := Drain(p, t, nx);
      Prepend(p, s, WILLING, states, answers);
      states, answers := [s] + states, [WILLING] + answers;
    }
  }

  ghost predicate RefusedIn(p: Parents, states: seq<State>, answers: seq<Answer>) {
    exists i :: 0 <= i < |answers| && i < |states| && Refuses(p, states[i], answers[i])
  }

  /** From s the start drains, and a driver refuses it after a clock without a reference was given one. */
  ghost predicate Spoils(p: Parents, s: State, states: seq<State>, answers: seq<Answer>) {
    && Trace(p, states, answers) && states[0] == s && states[|answers|].queue == []
    && Taken(p, states, answers) && RefusedIn(p, states, answers)
  }

  lemma SpoilsBefore(p: Parents, s: State, a: Answer, t: State, states: seq<State>, answers: seq<Answer>)
    requires Step(p, s, a, t) && Spoils(p, t, states, answers)
    ensures Spoils(p, s, [s] + states, [a] + answers)
  {
    hide Step, Taken, RefusedIn;
    Prepend(p, s, a, states, answers);
    Later(p, s, a, states, answers);
  }

  lemma Later(p: Parents, s: State, a: Answer, states: seq<State>, answers: seq<Answer>)
    requires |states| == |answers| + 1
    ensures Taken(p, states, answers) || Takes(p, s, a) ==> Taken(p, [s] + states, [a] + answers)
    ensures RefusedIn(p, states, answers) || Refuses(p, s, a) ==> RefusedIn(p, [s] + states, [a] + answers)
  {
    hide Takes, Refuses;
    var t, b := [s] + states, [a] + answers;
    assert t[0] == s && b[0] == a;
    if Taken(p, states, answers) {
      var i :| 0 <= i < |answers| && i < |states| && Takes(p, states[i], answers[i]);
      assert t[i + 1] == states[i] && b[i + 1] == answers[i];
    }
    if RefusedIn(p, states, answers) {
      var i :| 0 <= i < |answers| && i < |states| && Refuses(p, states[i], answers[i]);
      assert t[i + 1] == states[i] && b[i + 1] == answers[i];
    }
  }

  const UNWILLING: Answer := Answer(SUCCESS, E_PARAM)

  /** The clock told of its parent's success refuses. */
  lemma GrantRefused(p: Parents, s: State, path: seq<nat>) returns (states: seq<State>, answers: seq<Answer>)
    requires Inv(p, s, Grant(path))
    ensures Trace(p, states, answers) && states[0] == s && states[|answers|].queue == [] && RefusedIn(p, states, answers)
  {
    hide Deliver, Waiting, Owned, InFlight, Counted, Alive, Ledger;
    GrantDrives(p, s, path);
    var t := Deliver(p, s, UNWILLING);
    assert Step(p, s, UNWILLING, t);
    StepKeeps(p, s, Grant(path), UNWILLING);
    states, answers := Drain(p, t, Next(p, s, Grant(path), UNWILLING));
    Prepend(p, s, UNWILLING, states, answers);
    states, answers := [s] + states, [UNWILLING] + answers;
    assert Refuses(p, states[0], answers[0]);
  }

  lemma GrantDrives(p: Parents, s: State, path: seq<nat>)
    requires Inv(p, s, Grant(path))
    ensures s.queue != [] && s.queue[0].goal == Run && Refuses(p, s, UNWILLING)
  {
    SplitLast(path);
    NoticeFacts(p, s, Grant(path), path[..|path| - 1], path[|path| - 1], s.queue[0]);
  }

  /** Clock `at` is the nearest running one: it is given a reference, and the clock below it refuses. */
  lemma SpoilTop(p: Parents, s: State, path: seq<nat>, at: nat) returns (states: seq<State>, answers: seq<Answer>)
    requires Inv(p, s, Climb(path, at)) && path != [] && at in Loose(p, s)
    ensures Spoils(p, s, states, answers)
  {
    hide Deliver, Waiting, Owned, InFlight, Counted, Alive, Ledger;
    ClimbFacts(p, s, path, at);
    var t := Deliver(p, s, WILLING);
    assert Step(p, s, WILLING, t);
    assert Takes(p, s, WILLING);
    StepKeeps(p, s, Climb(path, at), WILLING);
    var rest, more := GrantRefused(p, t, path);
    states, answers := SpoilsAt(p, s, t, rest, more);
  }

  lemma SpoilsAt(p: Parents, s: State, t: State, rest: seq<State>, more: seq<Answer>) returns (states: seq<State>, answers: seq<Answer>)
    requires Step(p, s, WILLING, t) && Takes(p, s, WILLING)
    requires Trace(p, rest, more) && rest[0] == t && rest[|more|].queue == [] && RefusedIn(p, rest, more)
    ensures Spoils(p, s, states, answers)
  {
    hide Step, Taken, RefusedIn, Takes;
    states, answers := [s] + rest, [WILLING] + more;
    Prepend(p, s, WILLING, rest, more);
    Later(p, s, WILLING, rest, more);
  }

  /** The request climbs to that clock. */
  lemma {:induction false} Spoil(p: Parents, s: State, path: seq<nat>, at: nat, y: nat) returns (states: seq<State>, answers: seq<Answer>)
    requires Inv(p, s, Climb(path, at)) && at < |p| && FirstRunning(p, s.clocks, at) == Some(y) && y in Loose(p, s)
    requires path != [] || at != y
    ensures Spoils(p, s, states, answers)
    decreases Depth(p, at)
  {
    hide Deliver, Waiting, Owned, InFlight, Counted, Alive, Ledger, Loose, Spoils;
    DepthStep(p, at);
    if s.clocks[at].running {
      states, answers := SpoilTop(p, s, path, at);
    } else {
      var t := SpoilClimbs(p, s, path, at, y);
      states, answers := Spoil(p, t, path + [at], p[at].value, y);
      SpoilsBefore(p, s, WILLING, t, states, answers);
      states, answers := [s] + states, [WILLING] + answers;
    }
  }

  lemma SpoilClimbs(p: Parents, s: State, path: seq<nat>, at: nat, y: nat) returns (t: State)
    requires Inv(p, s, Climb(path, at)) && at < |p| && FirstRunning(p, s.clocks, at) == Some(y) && y in Loose(p, s)
    requires !s.clocks[at].running
    ensures p[at].Some? && Step(p, s, WILLING, t) && Inv(p, t, Climb(path + [at], p[at].value))
    ensures FirstRunning(p, t.clocks, p[at].value) == Some(y) && y in Loose(p, t)
  {
    hide Deliver, Waiting, Owned, InFlight, Counted, Alive, Ledger;
    DepthStep(p, at);
    ClimbFacts(p, s, path, at);
    t := Deliver(p, s, WILLING);
    assert Step(p, s, WILLING, t);
    StepKeeps(p, s, Climb(path, at), WILLING);
    ClimbEffect(p, s, path, at, WILLING);
    FirstRunningSame(p, s, t, p[at].value);
  }

  lemma {:induction false} FirstRunningFacts(p: Parents, clocks: seq<Clock>, x: nat)
    requires Acyclic(p) && |clocks| == |p| && x < |p| && FirstRunning(p, clocks, x).Some?
    ensures var y := FirstRunning(p, clocks, x).value; y < |p| && clocks[y].running && Above(p, y, x)
    ensures var y := FirstRunning(p, clocks, x).value; y != x ==> HasChild(p, y)
    decreases Depth(p, x)
  {
    DepthStep(p, x);
    if !clocks[x].running {
      FirstRunningFacts(p, clocks, p[x].value);
      assert p[x] == Some(p[x].value);
    }
  }

  lemma ExposedIsSpoiled(p: Parents, s: State, x: nat) returns (states: seq<State>, answers: seq<Answer>)
    requires Inv(p, s, Quiet) && Permitted(p, s, x, Run) && !SingleNode(p, x) && Exposed(p, s, x)
    ensures Requesting(p, s, x, Run, states, answers) && Spoils(p, states[0], states, answers)
  {
    hide Deliver, Owned, InFlight, Counted, Alive, Ledger, Taken, RefusedIn;
    var u := Request(p, s, x, Run, WILLING);
    RequestKeeps(p, s, x, Run, WILLING);
    RequestLoose(p, s, x, Run, WILLING);
    FirstRunningFacts(p, s.clocks, x);
    assert !s.clocks[x].waiting;
    FirstRunningSame(p, s, u, x);
    states, answers := Spoil(p, u, [], x, FirstRunning(p, s.clocks, x).value);
  }

  /** Every drained start of x is all or nothing. */
  ghost predicate Harmless(p: Parents, s: State, x: nat)
    requires Acyclic(p) && Shaped(p, s) && x < |p|
  {
    forall states: seq<State>, answers: seq<Answer> :: Requesting(p, s, x, Run, states, answers) && states[|answers|].queue == [] ==>
      exists status :: AllOrNothing(p, s, states[|answers|], x, status)
  }

  /**
   Exactly when starting x is all or nothing, whatever the drivers answer: unless the nearest
   running clock is a proper ancestor that has no reference.
   */
  lemma HarmlessIff(p: Parents, s: State, x: nat)
    requires Inv(p, s, Quiet) && Permitted(p, s, x, Run) && !SingleNode(p, x)
    ensures Harmless(p, s, x) <==> !Exposed(p, s, x)
  {
    hide Deliver, Waiting, Owned, InFlight, Counted, Alive, Ledger, Exposed, AllOrNothing, Spoils;
    if !Exposed(p, s, x) {
      forall states: seq<State>, answers: seq<Answer> | Requesting(p, s, x, Run, states, answers) && states[|answers|].queue == []
        ensures exists status :: AllOrNothing(p, s, states[|answers|], x, status)
      {
        var status := UnexposedIsAllOrNothing(p, s, x, states, answers);
      }
    } else {
      var states, answers := ExposedIsSpoiled(p, s, x);
      SpoiledFails(p, s, x, states, answers);
    }
  }

  lemma SpoiledFails(p: Parents, s: State, x: nat, states: seq<State>, answers: seq<Answer>)
    requires Requesting(p, s, x, Run, states, answers) && Spoils(p, states[0], states, answers)
    ensures states[|answers|].queue == [] && !exists status :: AllOrNothing(p, s, states[|answers|], x, status)
  {
    hide Deliver, Waiting, Owned, InFlight, Counted, Alive, Ledger, Takes, Refuses;
    var status := StartIsAllOrNothing(p, s, x, states, answers);
    IsAnyTrace(p, states, answers);
    SucceedsIff(p, s, x, states, answers);
    OneStatus(s.done, states[|answers|].done, x, status);
  }

  lemma OneStatus(before: seq<Completion>, after: seq<Completion>, x: nat, status: int)
    requires after == before + [Completion(x, Run, status)]
    ensures forall other :: after == before + [Completion(x, Run, other)] ==> other == status
  {
    assert after[|before|].status == status;
  }

  lemma IsAnyTrace(p: Parents, states: seq<State>, answers: seq<Answer>)
    requires Trace(p, states, answers)
    ensures AnyTrace(p, states, answers)
  {
    hide Deliver;
    forall i, j | 0 <= i < |answers| && j == i + 1
      ensures AnyStep(p, states[i], answers[i], states[j])
    {
      assert Step(p, states[i], answers[i], states[j]);
    }
  }

  // ------------------------------------------------------------ what is lost

  lemma {:induction false} ChildBetween(p: Parents, y: nat, d: nat) returns (c: nat)
    requires Acyclic(p) && y < |p| && d < |p| && Above(p, y, d) && y != d
    ensures c < |p| && p[c] == Some(y) && Above(p, c, d)
    decreases Depth(p, d)
  {
    DepthStep(p, d);
    if p[d] == Some(y) {
      c := d;
      assert Above(p, d, d);
    } else {
      c := ChildBetween(p, y, p[d].value);
    }
  }

  /** Nothing below a clock without a reference keeps it running. */
  lemma LooseAlone(p: Parents, s: State, y: nat, d: nat)
    requires Accounts(p, s, Quiet) && y in Loose(p, s) && d < |p| && Above(p, y, d)
    requires s.starts[d] > 0 || d in Loose(p, s)
    ensures d == y && s.starts[y] == 0
  {
    if d != y {
      var c := ChildBetween(p, y, d);
      AncestorsRun(p, s, Quiet, c, d);
      CountChild(p, s.clocks, y, c, |p|);
    }
  }

  /** A start that was not successful has stopped the clock to which it gave its first reference. */
  lemma RefusalStops(p: Parents, s: State, x: nat, states: seq<State>, answers: seq<Answer>, i: nat)
    requires Requesting(p, s, x, Run, states, answers) && states[|answers|].queue == []
    requires i < |answers| && Takes(p, states[i], answers[i])
    requires states[|answers|].done != s.done + [Completion(x, Run, SUCCESS)]
    ensures var y := states[i].queue[0].target;
      s.clocks[y].running && !states[|answers|].clocks[y].running
  {
    hide Deliver, Waiting, Owned, InFlight, Counted, Alive, Ledger;
    var y, t := states[i].queue[0].target, states[|answers|];
    var status := StartIsAllOrNothing(p, s, x, states, answers);
    var last := RequestLast(p, s, x, Run, states, answers);
    RequestClimbs(p, s, x, states, answers);
    RequestTakes(p, s, x, states, answers);
    TraceLoose(p, Climb([], x), states, answers, |answers|);
    assert y in Loose(p, states[0]) && y in Loose(p, s);
    if t.clocks[y].running {
      RunningIsNeeded(p, t, y);
      var d :| 0 <= d < |p| && (t.starts[d] > 0 || d in Loose(p, t)) && Above(p, y, d);
      LooseAlone(p, s, y, d);
      assert false;
    }
  }

  const RUNNING: Clock := STOPPED.(running := true)

  lemma PairBooted(done: seq<Completion>) returns (s: State)
    ensures s == State([RUNNING, STOPPED], [], done, [0, 0])
    ensures Acyclic(PAIR) && Booted(PAIR, s) && Inv(PAIR, s, Quiet) && !SingleNode(PAIR, 1)
  {
    s := State([RUNNING, STOPPED], [], done, [0, 0]);
    assert ReachesRoot(PAIR, 0, 2) && ReachesRoot(PAIR, 1, 2);
    assert PAIR[1] == Some(0) && PAIR[0] == None;
    forall x: nat | x < 2
      ensures RunningChildren(PAIR, s.clocks, x, 2) == 0
    {
      assert RunningChildren(PAIR, s.clocks, x, 1) == 0;
    }
    BootKeeps(PAIR, s);
  }

  /** Two clocks at boot, the root running: a start of the child, refused by its driver, drains with the root stopped. */
  lemma RootLost(done: seq<Completion>) returns (states: seq<State>, answers: seq<Answer>)
    ensures var s := State([RUNNING, STOPPED], [], done, [0, 0]);
      && Acyclic(PAIR) && Booted(PAIR, s) && Requesting(PAIR, s, 1, Run, states, answers)
      && var t := states[|answers|];
         && t.queue == [] && t.done == done + [Completion(1, Run, E_PARAM)]
         && !t.clocks[0].running && t.starts == s.starts
  {
    hide Booted, Acyclic, Waiting, Owned, InFlight, Counted, Alive, Ledger;
    var s := PairBooted(done);
    var a := Request(PAIR, s, 1, Run, WILLING);
    var b := Deliver(PAIR, a, WILLING);
    assert b.queue == [Msg(ClockId(1), 0, Run, SUCCESS)];
    var c := Deliver(PAIR, b, WILLING);
    assert c.queue == [Msg(ClockId(0), 1, Run, SUCCESS)] && c.clocks[0].ref == 1;
    var d := Deliver(PAIR, c, UNWILLING);
    assert d.queue == [Msg(ClockId(1), 0, Halt, E_PARAM)];
    var e := Deliver(PAIR, d, WILLING);
    states, answers := [a, b, c, d, e], [WILLING, WILLING, UNWILLING, WILLING];
    forall i, j | 0 <= i < 4 && j == i + 1
      ensures Step(PAIR, states[i], answers[i], states[j])
    {
      assert i == 0 || i == 1 || i == 2 || i == 3;
    }
  }
}
