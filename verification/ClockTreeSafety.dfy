/**
 Safety of the clock-tree protocol in every state of every serialised run, also while
 events are in flight. Every reference count is explained: by the requesters' ledger, by
 the running children, and by the one reference that travels with an event in flight.
 */
module ClockTreeSafety {
  import opened Status
  import opened Counting
  import opened Forest
  import opened ClockTree

  /** How many of the first n clocks are running children of x. */
  function RunningChildren(p: Parents, clocks: seq<Clock>, x: nat, n: nat): nat
    requires n <= |p| == |clocks|
  {
    if n == 0 then 0
    else RunningChildren(p, clocks, x, n - 1) + Bit(p[n - 1] == Some(x) && clocks[n - 1].running)
  }

  /**
   Where a serialised transition stands. Climb: the request is at clock `at`, the path below
   it waits. Grant / Refuse: the last clock of the path is about to hear from its parent.
   Drop: a stop is about to take one reference from clock q. A refusal may be accompanied by
   such a stop, queued before (ahead) or after the notice to the path.
   */
  datatype Phase =
    | Quiet
    | Climb(path: seq<nat>, at: nat)
    | Grant(path: seq<nat>)
    | Refuse(path: seq<nat>, undo: Option<nat>, ahead: bool)
    | Drop(q: nat, asked: bool)

  function PathOf(ph: Phase): seq<nat> {
    if ph.Climb? || ph.Grant? || ph.Refuse? then ph.path else []
  }

  /** The clock whose requester still waits for a completion. */
  function Owner(ph: Phase): Option<nat> {
    if PathOf(ph) != [] then Some(PathOf(ph)[0])
    else if ph.Climb? then Some(ph.at)
    else if ph.Drop? && ph.asked then Some(ph.q)
    else None
  }

  /** The reference of x that an event in flight carries. */
  function Credit(p: Parents, ph: Phase, x: nat): nat {
    match ph
    case Grant(path) => Bit(path != [] && path[|path| - 1] < |p| && p[path[|path| - 1]] == Some(x))
    case Refuse(_, undo, _) => Bit(undo == Some(x))
    case Drop(q, _) => Bit(q == x)
    case _ => 0
  }

  ghost predicate Counted(p: Parents, s: State, ph: Phase)
    requires Shaped(p, s)
  {
    forall x :: 0 <= x < |p| ==>
      s.clocks[x].ref == s.starts[x] + RunningChildren(p, s.clocks, x, |p|) + Credit(p, ph, x)
  }

  /** A referenced clock runs. */
  ghost predicate Alive(p: Parents, s: State)
    requires Shaped(p, s)
  {
    forall x :: 0 <= x < |p| && s.clocks[x].ref > 0 ==> s.clocks[x].running
  }

  /** The tree clocks that run without a reference, as one left running at boot may. */
  function Loose(p: Parents, s: State): set<nat>
    requires Shaped(p, s)
  {
    set x: nat | x < |p| && s.clocks[x].running && s.clocks[x].ref == 0 && !SingleNode(p, x)
  }

  /** The ledger, with the start being requested, fits the 32-bit count. */
  ghost predicate Ledger(p: Parents, s: State, ph: Phase)
    requires Shaped(p, s)
  {
    forall x :: 0 <= x < |p| ==>
      && 0 <= s.starts[x] && s.starts[x] + Bit(Owner(ph) == Some(x)) + |p| + 1 < MAX_U32
      && (SingleNode(p, x) ==> s.starts[x] == 0)
  }

  /** The waiting clocks form one upward path of stopped clocks, each called by the one below. */
  ghost predicate Waiting(p: Parents, s: State, path: seq<nat>)
    requires Shaped(p, s) && Acyclic(p)
  {
    && (forall i :: 0 <= i < |path| ==> path[i] < |p| && p[path[i]].Some? && !s.clocks[path[i]].running)
    && (forall i :: 0 <= i < |path| ==> Depth(p, path[i]) + i == Depth(p, path[0]))
    && (forall i, j :: 0 <= i < j < |path| && j == i + 1 ==>
          p[path[i]] == Some(path[j]) && s.clocks[path[j]].caller == ClockId(path[i]))
    && (forall x :: 0 <= x < |p| ==> (s.clocks[x].waiting <==> x in path))
  }

  ghost predicate Owned(p: Parents, s: State, ph: Phase)
    requires Shaped(p, s)
  {
    forall x :: 0 <= x < |p| ==> (s.clocks[x].initiator <==> Owner(ph) == Some(x))
  }

  predicate Notice(p: Parents, m: Msg, path: seq<nat>, ok: bool) {
    && path != [] && path[|path| - 1] < |p| && p[path[|path| - 1]].Some?
    && m.target == path[|path| - 1] && m.source == ClockId(p[path[|path| - 1]].value)
    && m.goal == Run && (m.status == SUCCESS <==> ok)
  }

  /** A clock outside the waiting path that lies below no waiting clock's parent. */
  ghost predicate Clear(p: Parents, path: seq<nat>, q: nat)
    requires Acyclic(p)
  {
    && q < |p| && !SingleNode(p, q)
    && forall i :: 0 <= i < |path| ==> path[i] < |p| && Depth(p, q) < Depth(p, path[i])
  }

  ghost predicate InFlight(p: Parents, s: State, ph: Phase)
    requires Shaped(p, s) && Acyclic(p)
  {
    match ph
    case Quiet => s.queue == []
    case Climb(path, at) =>
      && |s.queue| == 1
      && s.queue[0] == Msg(if path == [] then AgentId else ClockId(path[|path| - 1]), at, Run, SUCCESS)
      && Clear(p, path, at)
      && (path != [] ==> path[|path| - 1] < |p| && p[path[|path| - 1]] == Some(at))
    case Grant(path) =>
      |s.queue| == 1 && Notice(p, s.queue[0], path, true)
    case Refuse(path, undo, ahead) =>
      if undo.None? then |s.queue| == 1 && Notice(p, s.queue[0], path, false)
      else
        && |s.queue| == 2
        && Notice(p, s.queue[if ahead then 1 else 0], path, false)
        && Stopping(s.queue[if ahead then 0 else 1], undo.value)
        && Clear(p, path, undo.value)
    case Drop(q, asked) =>
      |s.queue| == 1 && Stopping(s.queue[0], q) && Clear(p, [], q) && (asked ==> s.queue[0].status == SUCCESS)
  }

  predicate Stopping(m: Msg, q: nat) { m.target == q && m.goal == Halt }

  ghost predicate Accounts(p: Parents, s: State, ph: Phase) {
    Acyclic(p) && Shaped(p, s) && Counted(p, s, ph) && Alive(p, s) && Ledger(p, s, ph)
  }

  ghost predicate Traffic(p: Parents, s: State, ph: Phase) {
    Acyclic(p) && Shaped(p, s) && Waiting(p, s, PathOf(ph)) && Owned(p, s, ph) && InFlight(p, s, ph)
  }

  ghost predicate Inv(p: Parents, s: State, ph: Phase) {
    Accounts(p, s, ph) && Traffic(p, s, ph)
  }

  // ---------------------------------------------------------------- counting

  lemma {:induction false} CountUpdate(p: Parents, clocks: seq<Clock>, x: nat, c: Clock, y: nat, n: nat)
    requires n <= |p| == |clocks| && x < |p|
    ensures RunningChildren(p, clocks[x := c], y, n)
         == RunningChildren(p, clocks, y, n)
            + (if x < n && p[x] == Some(y) then Bit(c.running) - Bit(clocks[x].running) else 0)
    decreases n
  {
    if n > 0 {
      CountUpdate(p, clocks, x, c, y, n - 1);
    }
  }

  lemma {:induction false} CountChild(p: Parents, clocks: seq<Clock>, x: nat, y: nat, n: nat)
    requires n <= |p| == |clocks| && y < n && p[y] == Some(x) && clocks[y].running
    ensures RunningChildren(p, clocks, x, n) > 0
    decreases n
  {
    if y < n - 1 {
      CountChild(p, clocks, x, y, n - 1);
    }
  }

  lemma {:induction false} CountWitness(p: Parents, clocks: seq<Clock>, x: nat, n: nat) returns (y: nat)
    requires n <= |p| == |clocks| && RunningChildren(p, clocks, x, n) > 0
    ensures y < n && p[y] == Some(x) && clocks[y].running
    decreases n
  {
    if p[n - 1] == Some(x) && clocks[n - 1].running {
      y := n - 1;
    } else {
      y := CountWitness(p, clocks, x, n - 1);
    }
  }

  lemma {:induction false} CountBound(p: Parents, clocks: seq<Clock>, x: nat, n: nat)
    requires n <= |p| == |clocks|
    ensures RunningChildren(p, clocks, x, n) <= n
    decreases n
  {
    if n > 0 {
      CountBound(p, clocks, x, n - 1);
    }
  }

  /** Replacing one clock changes the count of its parent only. */
  lemma CountUpdates(p: Parents, clocks: seq<Clock>, x: nat, c: Clock)
    requires |p| == |clocks| && x < |p|
    ensures forall y: nat ::
              RunningChildren(p, clocks[x := c], y, |p|)
              == RunningChildren(p, clocks, y, |p|)
                 + (if p[x] == Some(y) then Bit(c.running) - Bit(clocks[x].running) else 0)
  {
    forall y: nat
      ensures RunningChildren(p, clocks[x := c], y, |p|)
         == RunningChildren(p, clocks, y, |p|)
            + (if p[x] == Some(y) then Bit(c.running) - Bit(clocks[x].running) else 0)
    {
      CountUpdate(p, clocks, x, c, y, |p|);
    }
  }

  // ------------------------------------------------------------ the transitions

  /** A stop never fails, nor does its query. */
  predicate Tolerated(a: Answer, goal: Goal) {
    goal == Halt ==> a.getStatus == SUCCESS && a.setStatus == SUCCESS
  }

  /** The hypotheses on drivers: besides, they are synchronous, and no start is refused as "not supported". */
  predicate Sound(a: Answer, goal: Goal) {
    Tolerated(a, goal) && a.getStatus != PENDING && !Unsupported(a.setStatus)
  }

  /** The status with which an idle clock asked to run refuses: its query failed, or its driver did. */
  function Refusal(a: Answer): int { if a.getStatus != SUCCESS then a.getStatus else a.setStatus }

  /** Whether clock x, asked to run, does so at once. */
  predicate Gains(p: Parents, s: State, x: nat, a: Answer)
    requires Shaped(p, s) && x < |p|
  {
    a.getStatus == SUCCESS && (s.clocks[x].running || (p[x].None? && a.setStatus == SUCCESS))
  }

  function Granted(path: seq<nat>): Phase { if path == [] then Quiet else Grant(path) }

  function Failed(path: seq<nat>, undo: Option<nat>): Phase {
    if path != [] then Refuse(path, undo, true)
    else if undo.Some? then Drop(undo.value, false)
    else Quiet
  }

  function Next(p: Parents, s: State, ph: Phase, a: Answer): Phase
    requires Shaped(p, s)
  {
    match ph
    case Quiet => Quiet
    case Climb(path, at) =>
      if at >= |p| then Quiet
      else if Gains(p, s, at, a) then Granted(path)
      else if a.getStatus == SUCCESS && p[at].Some? then Climb(path + [at], p[at].value)
      else Failed(path, None)
    case Grant(path) =>
      if path == [] || path[|path| - 1] >= |p| then Quiet
      else if a.setStatus == SUCCESS then Granted(path[..|path| - 1])
      else Failed(path[..|path| - 1], p[path[|path| - 1]])
    case Refuse(path, undo, ahead) =>
      if undo.Some? && ahead then Refuse(path, AfterDrop(p, s, undo.value), false)
      else if path == [] then Quiet
      else Failed(path[..|path| - 1], undo)
    case Drop(q, _) =>
      match AfterDrop(p, s, q)
      case Some(r) => Drop(r, false)
      case None => Quiet
  }

  /** Where the stop goes after clock q has given up one reference. */
  function AfterDrop(p: Parents, s: State, q: nat): Option<nat>
    requires Shaped(p, s)
  {
    if q < |p| && s.clocks[q].ref == 1 then p[q] else None
  }

  // ------------------------------------------- events outside the hypotheses

  /** The counts are 32-bit ones. */
  lemma CountsWrap(r: int)
    requires 0 <= r <= MAX_U32
    ensures Up(r) == (r + 1) % (MAX_U32 + 1) && Down(r) == (r - 1) % (MAX_U32 + 1)
  {
  }

  /** An event from anybody but its parent changes no clock while the addressed one waits; a clock that sent it hears BUSY. */
  lemma StrangerIsBusy(p: Parents, s: State, a: Answer)
    requires Shaped(p, s) && s.queue != [] && s.clocks[s.queue[0].target].waiting
    requires var m := s.queue[0]; p[m.target].None? || m.source != ClockId(p[m.target].value)
    ensures var m, t := s.queue[0], Deliver(p, s, a);
      && t.clocks == s.clocks && t.done == s.done && t.starts == s.starts
      && if m.source.ClockId? then
           |t.queue| == |s.queue| && t.queue[..|s.queue| - 1] == s.queue[1..]
           && var r := t.queue[|s.queue| - 1];
              r.source == ClockId(m.target) && r.target == m.source.i && r.goal == m.goal && r.status == E_BUSY
         else t.queue == s.queue[1..]
  {
  }

  /** Nothing but the recorded caller has changed among the clocks. */
  predicate OnlyCaller(s: State, t: State, x: nat) {
    && x < |s.clocks| == |t.clocks| && t.starts == s.starts
    && t.clocks[x].ref == s.clocks[x].ref && t.clocks[x].running == s.clocks[x].running
    && forall y :: 0 <= y < |s.clocks| && y != x ==> t.clocks[y] == s.clocks[y]
  }

  /** A stop whose query fails takes no reference; the requester, if it waits for one, hears the error, and nobody else. */
  lemma UnqueriedStop(p: Parents, s: State, a: Answer)
    requires Shaped(p, s) && s.queue != [] && s.queue[0].goal == Halt && !s.clocks[s.queue[0].target].waiting
    requires a.getStatus != SUCCESS
    ensures var x, t := s.queue[0].target, Deliver(p, s, a);
      && OnlyCaller(s, t, x) && t.queue == s.queue[1..]
      && (t.clocks[x].initiator <==> s.clocks[x].initiator && a.getStatus == PENDING)
      && t.done == if s.clocks[x].initiator && a.getStatus != PENDING then s.done + [Completion(x, Halt, a.getStatus)] else s.done
  {
  }

  /**
   A stop that takes the last reference, at which the driver fails: the clock goes on running
   without a reference, and its parent is told of the stop all the same, with the error.
   */
  lemma FailedStop(p: Parents, s: State, a: Answer)
    requires Shaped(p, s) && s.queue != [] && s.queue[0].goal == Halt && !s.clocks[s.queue[0].target].waiting
    requires a.getStatus == SUCCESS && a.setStatus != SUCCESS && !Unsupported(a.setStatus)
    requires s.clocks[s.queue[0].target].ref == 1
    ensures var x, t := s.queue[0].target, Deliver(p, s, a);
      && t.clocks[x].ref == 0 && t.clocks[x].running == s.clocks[x].running && t.starts == s.starts
      && (forall y :: 0 <= y < |p| && y != x ==> t.clocks[y] == s.clocks[y])
      && t.queue == s.queue[1..] + (if p[x].Some? then [Msg(ClockId(x), p[x].value, Halt, a.setStatus)] else [])
      && t.done == if s.clocks[x].initiator then s.done + [Completion(x, Halt, a.setStatus)] else s.done
  {
  }

  /** The stop takes the last reference of a clock whose driver does not support it: nobody hears of it. */
  lemma UnsupportedStop(p: Parents, s: State, a: Answer)
    requires Shaped(p, s) && s.queue != [] && s.queue[0].goal == Halt && !s.clocks[s.queue[0].target].waiting
    requires a.getStatus == SUCCESS && Unsupported(a.setStatus) && s.clocks[s.queue[0].target].ref == 1
    ensures var x, t := s.queue[0].target, Deliver(p, s, a);
      && t.clocks[x].ref == 0 && t.clocks[x].running == s.clocks[x].running && t.starts == s.starts
      && t.clocks[x].initiator == s.clocks[x].initiator && t.done == s.done && t.queue == s.queue[1..]
      && forall y :: 0 <= y < |p| && y != x ==> t.clocks[y] == s.clocks[y]
  {
  }

  /** A clock that keeps other references hands on the status of the event, up or down. */
  lemma StatusIsPassedOn(p: Parents, s: State, a: Answer)
    requires Shaped(p, s) && s.queue != [] && !s.clocks[s.queue[0].target].waiting && a.getStatus == SUCCESS
    requires 0 < s.clocks[s.queue[0].target].ref < MAX_U32
    ensures var m, c, t := s.queue[0], s.clocks[s.queue[0].target], Deliver(p, s, a);
      && (m.goal == Run && c.running ==>
            && t.clocks[m.target].ref == c.ref + 1
            && (c.initiator ==> t.done == s.done + [Completion(m.target, Run, m.status)] && t.queue == s.queue[1..])
            && (!c.initiator && m.source.ClockId? ==>
                  t.queue == s.queue[1..] + [Msg(ClockId(m.target), m.source.i, Run, m.status)] && t.done == s.done))
      && (m.goal == Run && !c.running && p[m.target].Some? ==>
            && t.clocks[m.target].waiting && t.done == s.done
            && t.queue == s.queue[1..] + [Msg(ClockId(m.target), p[m.target].value, Run, m.status)])
      && (m.goal == Halt && c.ref > 1 ==>
            && t.clocks[m.target].ref == c.ref - 1 && t.clocks[m.target].running == c.running && t.queue == s.queue[1..]
            && t.done == if c.initiator then s.done + [Completion(m.target, Halt, m.status)] else s.done)
  {
  }

  /** A waiting clock that hears of a failure from its parent reports it with the goal of the event. */
  lemma FailureIsPassedOn(p: Parents, s: State, a: Answer)
    requires Shaped(p, s) && s.queue != [] && s.clocks[s.queue[0].target].waiting
    requires var m := s.queue[0]; p[m.target].Some? && m.source == ClockId(p[m.target].value) && m.status != SUCCESS
    ensures var m, c, t := s.queue[0], s.clocks[s.queue[0].target], Deliver(p, s, a);
      && OnlyCaller(s, t, m.target) && !t.clocks[m.target].waiting && !t.clocks[m.target].initiator
      && (if c.initiator then t.done == s.done + [Completion(m.target, m.goal, m.status)] && t.queue == s.queue[1..]
          else
            && t.done == s.done
            && (m.goal != Halt && c.caller.ClockId? ==>
                  t.queue == s.queue[1..] + [Msg(ClockId(m.target), c.caller.i, m.goal, m.status)]))
  {
  }

  /** A request for a third state is dropped. */
  lemma OtherGoalIgnored(p: Parents, s: State, a: Answer)
    requires Shaped(p, s) && s.queue != [] && s.queue[0].goal == OtherGoal && !s.clocks[s.queue[0].target].waiting
    requires a.getStatus == SUCCESS
    ensures var x, t := s.queue[0].target, Deliver(p, s, a);
      OnlyCaller(s, t, x) && t.queue == s.queue[1..] && t.done == s.done && t.clocks[x].initiator == s.clocks[x].initiator
  {
  }

  // ------------------------------------------- how the parts survive one changed clock

  lemma Recount(p: Parents, s: State, ph: Phase, t: State, nx: Phase, x: nat)
    requires Shaped(p, s) && Shaped(p, t) && Counted(p, s, ph) && x < |p|
    requires t.clocks == s.clocks[x := t.clocks[x]]
    requires forall y :: 0 <= y < |p| ==>
      t.clocks[y].ref - t.starts[y] - Credit(p, nx, y)
      == s.clocks[y].ref - s.starts[y] - Credit(p, ph, y)
         + (if p[x] == Some(y) then Bit(t.clocks[x].running) - Bit(s.clocks[x].running) else 0)
    ensures Counted(p, t, nx)
  {
    CountUpdates(p, s.clocks, x, t.clocks[x]);
  }

  lemma PathSame(p: Parents, s: State, t: State, path: seq<nat>, x: nat)
    requires Acyclic(p) && Shaped(p, s) && Shaped(p, t) && Waiting(p, s, path) && x < |p| && x !in path
    requires t.clocks == s.clocks[x := t.clocks[x]] && !t.clocks[x].waiting
    ensures Waiting(p, t, path)
  {
  }

  lemma PathPush(p: Parents, s: State, t: State, path: seq<nat>, x: nat)
    requires Acyclic(p) && Shaped(p, s) && Shaped(p, t) && Waiting(p, s, path) && Clear(p, path, x)
    requires p[x].Some? && (path != [] ==> p[path[|path| - 1]] == Some(x))
    requires t.clocks == s.clocks[x := t.clocks[x]] && t.clocks[x].waiting && !t.clocks[x].running
    requires path != [] ==> t.clocks[x].caller == ClockId(path[|path| - 1])
    ensures Waiting(p, t, path + [x])
  {
    var q := path + [x];
    if path != [] {
      DepthStep(p, path[|path| - 1]);
    }
    assert x !in path;
    forall i | 0 <= i < |q|
      ensures q[i] < |p| && p[q[i]].Some? && !t.clocks[q[i]].running && Depth(p, q[i]) + i == Depth(p, q[0])
      ensures i > 0 ==> p[q[i - 1]] == Some(q[i]) && t.clocks[q[i]].caller == ClockId(q[i - 1])
    {
      if i < |path| {
        assert q[i] == path[i] != x;
      }
    }
  }

  lemma PathPop(p: Parents, s: State, t: State, path: seq<nat>, x: nat)
    requires Acyclic(p) && Shaped(p, s) && Shaped(p, t) && x < |p|
    requires Waiting(p, s, path + [x])
    requires t.clocks == s.clocks[x := t.clocks[x]] && !t.clocks[x].waiting
    ensures x !in path && Waiting(p, t, path)
  {
    var q := path + [x];
    assert q[|path|] == x;
    forall i | 0 <= i < |path|
      ensures path[i] != x
    {
      assert q[i] == path[i];
    }
    forall i | 0 <= i < |path|
      ensures path[i] < |p| && p[path[i]].Some? && !t.clocks[path[i]].running
      ensures Depth(p, path[i]) + i == Depth(p, path[0])
      ensures i > 0 ==> path[i - 1] < |p| && p[path[i - 1]] == Some(path[i]) && t.clocks[path[i]].caller == ClockId(path[i - 1])
    {
      assert q[i] == path[i] && q[0] == path[0] && (i > 0 ==> q[i - 1] == path[i - 1]);
    }
  }

  /** The parent of the last waiting clock lies outside the path. */
  lemma ParentClear(p: Parents, s: State, path: seq<nat>, x: nat)
    requires Acyclic(p) && Shaped(p, s) && x < |p| && Waiting(p, s, path + [x])
    ensures p[x].Some? && Clear(p, path + [x], p[x].value) && Clear(p, path, p[x].value)
  {
    var q := path + [x];
    assert q[|path|] == x;
    DepthStep(p, x);
    forall i | 0 <= i < |q|
      ensures q[i] < |p| && Depth(p, x) <= Depth(p, q[i])
    {
      assert Depth(p, q[i]) + i == Depth(p, q[|path|]) + |path|;
    }
    forall i | 0 <= i < |path|
      ensures path[i] == q[i]
    {
    }
    assert p[x] == Some(p[x].value);
  }

  lemma OwnedSame(p: Parents, s: State, t: State, ph: Phase, nx: Phase, x: nat)
    requires Shaped(p, s) && Shaped(p, t) && Owned(p, s, ph) && x < |p| && Owner(nx) == Owner(ph)
    requires t.clocks == s.clocks[x := t.clocks[x]] && t.clocks[x].initiator == s.clocks[x].initiator
    ensures Owned(p, t, nx)
  {
  }

  /** Clock x is no initiator any more: its requester was answered, or waits for another clock. */
  lemma OwnedPassed(p: Parents, s: State, t: State, ph: Phase, nx: Phase, path: seq<nat>, x: nat)
    requires Shaped(p, s) && Shaped(p, t) && Owned(p, s, ph) && x < |p| && x !in path
    requires Owner(ph) == Some(if path == [] then x else path[0])
    requires Owner(nx) == if path == [] then None else Some(path[0])
    requires t.clocks == s.clocks[x := t.clocks[x]] && !t.clocks[x].initiator
    ensures Owned(p, t, nx)
  {
  }

  /** Clock x has gained a reference and runs: it told the path below it, or its requester. */
  ghost predicate Gained(p: Parents, s: State, t: State, path: seq<nat>, x: nat)
    requires Shaped(p, s) && x < |p|
  {
    && Shaped(p, t)
    && t.clocks == s.clocks[x := t.clocks[x]]
    && t.clocks[x].running && t.clocks[x].ref == s.clocks[x].ref + 1
    && !t.clocks[x].waiting && !t.clocks[x].initiator
    && t.queue == (if path == [] then [] else [Msg(ClockId(x), path[|path| - 1], Run, SUCCESS)])
    && t.starts == (if path == [] then s.starts[x := s.starts[x] + 1] else s.starts)
    && t.done == (if path == [] then s.done + [Completion(x, Run, SUCCESS)] else s.done)
  }

  /** The path below x is about to hear from x. */
  ghost predicate Reached(p: Parents, s: State, ph: Phase, path: seq<nat>, x: nat)
    requires Shaped(p, s)
  {
    && x < |p| && (ph == Climb(path, x) || ph == Grant(path + [x]))
    && (ph.Climb? && !s.clocks[x].running ==> p[x].None?)
  }

  lemma ReachedFacts(p: Parents, s: State, ph: Phase, path: seq<nat>, x: nat)
    requires Traffic(p, s, ph) && Reached(p, s, ph, path, x)
    ensures x !in path && !SingleNode(p, x)
    ensures s.clocks[x].initiator <==> path == []
    ensures Owner(ph) == Some(if path == [] then x else path[0])
    ensures path != [] ==> path[|path| - 1] < |p| && p[path[|path| - 1]] == Some(x)
    ensures ph.Grant? ==> !s.clocks[x].running && (path != [] ==> s.clocks[x].caller == ClockId(path[|path| - 1]))
  {
    if ph.Grant? {
      var q := path + [x];
      assert q[|path|] == x;
      PathPop(p, s, Put(p, s, x, s.clocks[x].(waiting := false)), path, x);
    }
  }

  lemma RefBound(p: Parents, s: State, ph: Phase, x: nat)
    requires Accounts(p, s, ph) && x < |p|
    ensures Credit(p, ph, x) <= s.clocks[x].ref < MAX_U32
  {
    CountBound(p, s.clocks, x, |p|);
  }

  lemma GainCredits(p: Parents, ph: Phase, path: seq<nat>, x: nat)
    requires x < |p| && (ph == Climb(path, x) || ph == Grant(path + [x]))
    requires path != [] ==> path[|path| - 1] < |p| && p[path[|path| - 1]] == Some(x)
    ensures forall y: nat :: Credit(p, Granted(path), y) == Bit(path != [] && y == x)
    ensures forall y: nat :: Credit(p, ph, y) == Bit(ph.Grant? && p[x] == Some(y))
  {
    assert (path + [x])[|path + [x]| - 1] == x;
  }

  lemma GainCounts(p: Parents, s: State, ph: Phase, t: State, path: seq<nat>, x: nat)
    requires Accounts(p, s, ph) && Reached(p, s, ph, path, x) && Gained(p, s, t, path, x)
    requires path != [] ==> path[|path| - 1] < |p| && p[path[|path| - 1]] == Some(x)
    requires ph.Grant? ==> !s.clocks[x].running
    ensures Counted(p, t, Granted(path))
  {
    hide Alive, Ledger, Acyclic;
    GainCredits(p, ph, path, x);
    Recount(p, s, ph, t, Granted(path), x);
  }

  lemma GainAccounts(p: Parents, s: State, ph: Phase, t: State, path: seq<nat>, x: nat)
    requires Accounts(p, s, ph) && x < |p| && !SingleNode(p, x) && Gained(p, s, t, path, x)
    requires Owner(ph) == Some(if path == [] then x else path[0])
    requires Counted(p, t, Granted(path))
    ensures Accounts(p, t, Granted(path))
  {
    assert Owner(Granted(path)) == if path == [] then None else Some(path[0]);
  }

  lemma GainPath(p: Parents, s: State, ph: Phase, t: State, path: seq<nat>, x: nat)
    requires Traffic(p, s, ph) && Reached(p, s, ph, path, x) && Gained(p, s, t, path, x) && x !in path
    ensures Waiting(p, t, path)
  {
    if ph.Climb? {
      PathSame(p, s, t, path, x);
    } else {
      PathPop(p, s, t, path, x);
    }
  }

  lemma GainTraffic(p: Parents, s: State, ph: Phase, t: State, path: seq<nat>, x: nat)
    requires Acyclic(p) && Shaped(p, s) && Owned(p, s, ph) && x < |p| && Gained(p, s, t, path, x)
    requires Owner(ph) == Some(if path == [] then x else path[0]) && x !in path
    requires path != [] ==> path[|path| - 1] < |p| && p[path[|path| - 1]] == Some(x)
    requires Waiting(p, t, path)
    ensures Traffic(p, t, Granted(path))
  {
    hide Waiting, Owned, Acyclic;
    OwnedPassed(p, s, t, ph, Granted(path), path, x);
  }

  lemma GainKeeps(p: Parents, s: State, ph: Phase, t: State, path: seq<nat>, x: nat)
    requires Inv(p, s, ph) && Reached(p, s, ph, path, x) && Gained(p, s, t, path, x)
    ensures Inv(p, t, Granted(path))
  {
    hide Waiting, Owned, InFlight, Counted, Alive, Ledger;
    ReachedFacts(p, s, ph, path, x);
    GainCounts(p, s, ph, t, path, x);
    GainAccounts(p, s, ph, t, path, x);
    GainPath(p, s, ph, t, path, x);
    GainTraffic(p, s, ph, t, path, x);
  }

  /** Clock x has passed the request up and waits. */
  ghost predicate Climbed(p: Parents, s: State, t: State, path: seq<nat>, x: nat)
    requires Shaped(p, s) && x < |p| && p[x].Some?
  {
    && Shaped(p, t)
    && t.clocks == s.clocks[x := t.clocks[x]]
    && t.clocks[x] == s.clocks[x].(waiting := true, caller := if path == [] then AgentId else ClockId(path[|path| - 1]))
    && t.queue == [Msg(ClockId(x), p[x].value, Run, SUCCESS)]
    && t.starts == s.starts && t.done == s.done
  }

  lemma ClimbAccounts(p: Parents, s: State, t: State, path: seq<nat>, x: nat)
    requires Accounts(p, s, Climb(path, x)) && x < |p| && p[x].Some? && Climbed(p, s, t, path, x)
    ensures Accounts(p, t, Climb(path + [x], p[x].value))
  {
    Recount(p, s, Climb(path, x), t, Climb(path + [x], p[x].value), x);
    assert Owner(Climb(path, x)) == Owner(Climb(path + [x], p[x].value));
  }

  lemma ClimbPlace(p: Parents, s: State, path: seq<nat>, x: nat)
    requires Traffic(p, s, Climb(path, x))
    ensures Clear(p, path, x) && (path != [] ==> p[path[|path| - 1]] == Some(x))
  {
  }

  lemma ClimbLands(p: Parents, t: State, path: seq<nat>, x: nat)
    requires Acyclic(p) && Shaped(p, t) && x < |p| && p[x].Some? && Clear(p, path + [x], p[x].value)
    requires t.queue == [Msg(ClockId(x), p[x].value, Run, SUCCESS)]
    ensures InFlight(p, t, Climb(path + [x], p[x].value))
  {
    assert (path + [x])[|path|] == x;
  }

  lemma ClimbTraffic(p: Parents, s: State, t: State, path: seq<nat>, x: nat)
    requires Traffic(p, s, Climb(path, x)) && x < |p| && p[x].Some? && Climbed(p, s, t, path, x)
    requires !s.clocks[x].running
    ensures Traffic(p, t, Climb(path + [x], p[x].value))
  {
    hide Waiting, Owned, Acyclic, InFlight;
    ClimbPlace(p, s, path, x);
    PathPush(p, s, t, path, x);
    ParentClear(p, t, path, x);
    OwnedSame(p, s, t, Climb(path, x), Climb(path + [x], p[x].value), x);
    ClimbLands(p, t, path, x);
  }

  /** Clock x gives up waiting; stop is the rollback event left in flight, if any. */
  ghost predicate GaveUp(p: Parents, s: State, t: State, path: seq<nat>, x: nat, stop: seq<Msg>, status: int)
    requires Shaped(p, s) && x < |p|
  {
    && Shaped(p, t) && status != SUCCESS
    && t.clocks == s.clocks[x := t.clocks[x]]
    && t.clocks[x].running == s.clocks[x].running && t.clocks[x].ref == s.clocks[x].ref
    && !t.clocks[x].waiting && !t.clocks[x].initiator
    && t.queue == stop + (if path == [] then [] else [Msg(ClockId(x), path[|path| - 1], Run, status)])
    && t.starts == s.starts
    && t.done == (if path == [] then s.done + [Completion(x, Run, status)] else s.done)
  }

  lemma FailAccounts(p: Parents, s: State, ph: Phase, t: State, path: seq<nat>, x: nat, undo: Option<nat>, stop: seq<Msg>, status: int)
    requires Accounts(p, s, ph) && x < |p| && GaveUp(p, s, t, path, x, stop, status)
    requires Owner(ph) == Some(if path == [] then x else path[0])
    requires forall y: nat :: y < |p| ==> Credit(p, ph, y) == Credit(p, Failed(path, undo), y)
    ensures Accounts(p, t, Failed(path, undo))
  {
    Recount(p, s, ph, t, Failed(path, undo), x);
    assert Owner(Failed(path, undo)) == if path == [] then None else Some(path[0]);
  }

  lemma FailTraffic(p: Parents, s: State, ph: Phase, t: State, path: seq<nat>, x: nat, undo: Option<nat>, stop: seq<Msg>, status: int)
    requires Acyclic(p) && Shaped(p, s) && Owned(p, s, ph) && x < |p| && GaveUp(p, s, t, path, x, stop, status)
    requires Owner(ph) == Some(if path == [] then x else path[0]) && x !in path
    requires path != [] ==> path[|path| - 1] < |p| && p[path[|path| - 1]] == Some(x)
    requires Waiting(p, t, path)
    requires if undo.None? then stop == [] else |stop| == 1 && Stopping(stop[0], undo.value) && Clear(p, path, undo.value)
    ensures Traffic(p, t, Failed(path, undo))
  {
    hide Waiting, Owned, Acyclic;
    OwnedPassed(p, s, t, ph, Failed(path, undo), path, x);
  }

  /** Clock q has given up one reference, and stopped if that was the last one. */
  ghost predicate Dropped(p: Parents, s: State, t: State, q: nat, rest: seq<Msg>)
    requires Shaped(p, s) && q < |p|
  {
    && Shaped(p, t)
    && t.clocks == s.clocks[q := t.clocks[q]]
    && t.clocks[q].ref == s.clocks[q].ref - 1
    && t.clocks[q].running == (s.clocks[q].running && s.clocks[q].ref != 1)
    && !t.clocks[q].waiting && !t.clocks[q].initiator
    && t.starts == s.starts
    && t.done == (if s.clocks[q].initiator then s.done + [Completion(q, Halt, SUCCESS)] else s.done)
    && t.queue == rest + (match AfterDrop(p, s, q) case Some(r) => [Msg(ClockId(q), r, Halt, SUCCESS)] case None => [])
  }

  lemma DropAccounts(p: Parents, s: State, ph: Phase, t: State, nx: Phase, q: nat, rest: seq<Msg>)
    requires Accounts(p, s, ph) && q < |p| && s.clocks[q].ref >= 1 && Dropped(p, s, t, q, rest)
    requires Owner(nx) == Owner(ph) || Owner(nx) == None
    requires forall y: nat :: y < |p| ==> Credit(p, ph, y) == Bit(y == q)
    requires forall y: nat :: y < |p| ==> Credit(p, nx, y) == Bit(AfterDrop(p, s, q) == Some(y))
    ensures Accounts(p, t, nx)
  {
    Recount(p, s, ph, t, nx, q);
  }

  /** The clock that a stop moves on to is again above the waiting path. */
  lemma DropClear(p: Parents, s: State, path: seq<nat>, q: nat)
    requires Acyclic(p) && Shaped(p, s) && Clear(p, path, q)
    ensures var r := AfterDrop(p, s, q); r.Some? ==> Clear(p, path, r.value)
  {
    DepthStep(p, q);
    assert p[q].Some? ==> p[q] == Some(p[q].value);
  }

  lemma DropAlone(p: Parents, s: State, ph: Phase, t: State, q: nat)
    requires Traffic(p, s, ph) && ph.Drop? && ph.q == q && q < |p| && Dropped(p, s, t, q, [])
    ensures Traffic(p, t, match AfterDrop(p, s, q) case Some(r) => Drop(r, false) case None => Quiet)
  {
    DropClear(p, s, [], q);
    PathSame(p, s, t, [], q);
  }

  lemma DropLands(p: Parents, s: State, path: seq<nat>, t: State, q: nat)
    requires Traffic(p, s, Refuse(path, Some(q), true)) && q < |p| && Dropped(p, s, t, q, s.queue[1..])
    ensures InFlight(p, t, Refuse(path, AfterDrop(p, s, q), false))
  {
    hide Waiting, Owned;
    DropClear(p, s, path, q);
  }

  lemma DropAhead(p: Parents, s: State, path: seq<nat>, t: State, q: nat)
    requires Traffic(p, s, Refuse(path, Some(q), true)) && q < |p| && Dropped(p, s, t, q, s.queue[1..])
    ensures Traffic(p, t, Refuse(path, AfterDrop(p, s, q), false))
  {
    DropLands(p, s, path, t, q);
    hide Waiting, Owned, Acyclic, InFlight;
    DropFacts(p, s, Refuse(path, Some(q), true), q);
    DropClear(p, s, path, q);
    PathSame(p, s, t, path, q);
    OwnedSame(p, s, t, Refuse(path, Some(q), true), Refuse(path, AfterDrop(p, s, q), false), q);
  }

  // ------------------------------------------------------------ one event of each phase

  /** t adds to s the one completion d that phase ph owed its requester. */
  predicate Completed(s: State, t: State, ph: Phase, d: Completion) {
    && t.done == s.done + [d] && Owner(ph) == Some(d.clock) && d.clock < |s.starts|
    && d.goal == (if ph.Drop? then Halt else Run) && (d.goal == Halt ==> d.status == SUCCESS)
    && t.starts == (if d.goal == Run && d.status == SUCCESS then s.starts[d.clock := s.starts[d.clock] + 1] else s.starts)
  }

  /** What one event does for the requester: nothing, or the one completion it waits for. */
  predicate Answers(s: State, t: State, ph: Phase, nx: Phase) {
    if Owner(nx) == Owner(ph) then t.done == s.done && t.starts == s.starts
    else Owner(nx) == None && |t.done| == |s.done| + 1 && Completed(s, t, ph, t.done[|s.done|])
  }

  function Sender(path: seq<nat>): Id { if path == [] then AgentId else ClockId(path[|path| - 1]) }

  lemma ClimbEffect(p: Parents, s: State, path: seq<nat>, x: nat, a: Answer)
    requires Shaped(p, s) && x < |p| && s.queue == [Msg(Sender(path), x, Run, SUCCESS)] && Sound(a, Run)
    requires !s.clocks[x].waiting && s.clocks[x].ref < MAX_U32 && (s.clocks[x].initiator <==> path == [])
    ensures var t := Deliver(p, s, a);
      if Gains(p, s, x, a) then Gained(p, s, t, path, x)
      else if a.getStatus == SUCCESS && p[x].Some? then Climbed(p, s, t, path, x)
      else GaveUp(p, s, t, path, x, [], Refusal(a))
  {
    assert s.queue[0] == Msg(Sender(path), x, Run, SUCCESS) && s.queue[1..] == [];
  }

  lemma ClimbFacts(p: Parents, s: State, path: seq<nat>, x: nat)
    requires Inv(p, s, Climb(path, x))
    ensures x < |p| && s.queue == [Msg(Sender(path), x, Run, SUCCESS)] && x !in path
    ensures !s.clocks[x].waiting && s.clocks[x].ref < MAX_U32 && (s.clocks[x].initiator <==> path == [])
    ensures Owner(Climb(path, x)) == Some(if path == [] then x else path[0])
    ensures path != [] ==> path[|path| - 1] < |p| && p[path[|path| - 1]] == Some(x)
  {
    RefBound(p, s, Climb(path, x), x);
  }

  lemma ClimbFails(p: Parents, s: State, t: State, path: seq<nat>, x: nat, status: int)
    requires Traffic(p, s, Climb(path, x)) && x < |p| && x !in path && GaveUp(p, s, t, path, x, [], status)
    requires Owner(Climb(path, x)) == Some(if path == [] then x else path[0])
    requires path != [] ==> path[|path| - 1] < |p| && p[path[|path| - 1]] == Some(x)
    ensures Traffic(p, t, Failed(path, None))
  {
    PathSame(p, s, t, path, x);
    FailTraffic(p, s, Climb(path, x), t, path, x, None, [], status);
  }

  lemma GainAnswers(p: Parents, s: State, ph: Phase, t: State, path: seq<nat>, x: nat)
    requires Shaped(p, s) && x < |p| && Gained(p, s, t, path, x) && !ph.Drop?
    requires Owner(ph) == Some(if path == [] then x else path[0])
    ensures Answers(s, t, ph, Granted(path))
  {
    assert Owner(Granted(path)) == if path == [] then None else Some(path[0]);
  }

  lemma FailAnswers(p: Parents, s: State, ph: Phase, t: State, path: seq<nat>, x: nat, undo: Option<nat>, stop: seq<Msg>, status: int)
    requires Shaped(p, s) && x < |p| && GaveUp(p, s, t, path, x, stop, status) && !ph.Drop?
    requires Owner(ph) == Some(if path == [] then x else path[0])
    ensures Answers(s, t, ph, Failed(path, undo))
  {
    assert Owner(Failed(path, undo)) == if path == [] then None else Some(path[0]);
  }

  lemma ClimbMoves(p: Parents, s: State, t: State, path: seq<nat>, x: nat, a: Answer)
    requires Inv(p, s, Climb(path, x)) && x < |p| && x !in path
    requires Owner(Climb(path, x)) == Some(if path == [] then x else path[0])
    requires path != [] ==> path[|path| - 1] < |p| && p[path[|path| - 1]] == Some(x)
    requires if Gains(p, s, x, a) then Gained(p, s, t, path, x)
      else if a.getStatus == SUCCESS && p[x].Some? then Climbed(p, s, t, path, x)
      else GaveUp(p, s, t, path, x, [], Refusal(a))
    ensures var nx := Next(p, s, Climb(path, x), a); Inv(p, t, nx) && Answers(s, t, Climb(path, x), nx)
  {
    hide Waiting, Owned, InFlight, Counted, Alive, Ledger;
    var ph := Climb(path, x);
    if Gains(p, s, x, a) {
      GainKeeps(p, s, ph, t, path, x);
      GainAnswers(p, s, ph, t, path, x);
    } else if a.getStatus == SUCCESS && p[x].Some? {
      ClimbAccounts(p, s, t, path, x);
      ClimbTraffic(p, s, t, path, x);
    } else {
      FailAccounts(p, s, ph, t, path, x, None, [], Refusal(a));
      ClimbFails(p, s, t, path, x, Refusal(a));
      FailAnswers(p, s, ph, t, path, x, None, [], Refusal(a));
    }
  }

  lemma ClimbKeeps(p: Parents, s: State, path: seq<nat>, x: nat, a: Answer)
    requires Inv(p, s, Climb(path, x)) && Sound(a, Run)
    ensures s.queue != []
    ensures Inv(p, Deliver(p, s, a), Next(p, s, Climb(path, x), a))
    ensures Answers(s, Deliver(p, s, a), Climb(path, x), Next(p, s, Climb(path, x), a))
  {
    hide Waiting, Owned, InFlight, Counted, Alive, Ledger;
    ClimbFacts(p, s, path, x);
    ClimbEffect(p, s, path, x, a);
    ClimbMoves(p, s, Deliver(p, s, a), path, x, a);
  }

  // ------------------------------------------------------------ notices down the path

  /** Clock x is the last of the waiting path rest + [x] and hears from its parent. */
  ghost predicate Hears(p: Parents, s: State, path: seq<nat>, x: nat, m: Msg)
    requires Shaped(p, s)
  {
    && x < |p| && p[x].Some? && m.source == ClockId(p[x].value) && m.target == x && m.goal == Run
    && s.clocks[x].waiting && (s.clocks[x].initiator <==> path == [])
    && (path != [] ==> s.clocks[x].caller == ClockId(path[|path| - 1]))
  }

  lemma NoticeFacts(p: Parents, s: State, ph: Phase, path: seq<nat>, x: nat, m: Msg)
    requires Traffic(p, s, ph) && PathOf(ph) == path + [x] && Notice(p, m, path + [x], m.status == SUCCESS)
    ensures Hears(p, s, path, x, m) && x !in path && Clear(p, path, p[x].value)
    ensures Owner(ph) == Some(if path == [] then x else path[0])
    ensures path != [] ==> path[|path| - 1] < |p| && p[path[|path| - 1]] == Some(x)
  {
    var q := path + [x];
    assert q[|path|] == x;
    PathPop(p, s, Put(p, s, x, s.clocks[x].(waiting := false)), path, x);
    ParentClear(p, s, path, x);
    if path != [] {
      assert q[|path| - 1] == path[|path| - 1];
    }
  }

  lemma GrantEffect(p: Parents, s: State, path: seq<nat>, x: nat, m: Msg, a: Answer)
    requires Shaped(p, s) && s.queue == [m] && Hears(p, s, path, x, m) && m.status == SUCCESS && Sound(a, Run)
    requires s.clocks[x].ref < MAX_U32
    ensures var t := Deliver(p, s, a);
      if a.setStatus == SUCCESS then Gained(p, s, t, path, x)
      else GaveUp(p, s, t, path, x, [Msg(ClockId(x), p[x].value, Halt, a.setStatus)], a.setStatus)
  {
    assert s.queue[0] == m && s.queue[1..] == [];
  }

  lemma RefuseEffect(p: Parents, s: State, path: seq<nat>, x: nat, m: Msg, rest: seq<Msg>, a: Answer)
    requires Shaped(p, s) && s.queue == [m] + rest && Hears(p, s, path, x, m) && m.status != SUCCESS
    ensures GaveUp(p, s, Deliver(p, s, a), path, x, rest, m.status)
  {
    assert s.queue[0] == m && s.queue[1..] == rest;
  }

  /** A clock that gives up leaves the path below it waiting for its notice. */
  lemma NoticeFails(p: Parents, s: State, ph: Phase, t: State, path: seq<nat>, x: nat, undo: Option<nat>, stop: seq<Msg>, status: int)
    requires Traffic(p, s, ph) && PathOf(ph) == path + [x] && x < |p| && GaveUp(p, s, t, path, x, stop, status)
    requires Owner(ph) == Some(if path == [] then x else path[0])
    requires path != [] ==> path[|path| - 1] < |p| && p[path[|path| - 1]] == Some(x)
    requires if undo.None? then stop == [] else |stop| == 1 && Stopping(stop[0], undo.value) && Clear(p, path, undo.value)
    ensures Traffic(p, t, Failed(path, undo))
  {
    PathPop(p, s, t, path, x);
    FailTraffic(p, s, ph, t, path, x, undo, stop, status);
  }

  lemma GrantKeeps(p: Parents, s: State, path: seq<nat>, x: nat, a: Answer)
    requires Inv(p, s, Grant(path + [x])) && Sound(a, Run)
    ensures s.queue != []
    ensures x < |p| && var nx := (if a.setStatus == SUCCESS then Granted(path) else Failed(path, p[x]));
      Inv(p, Deliver(p, s, a), nx) && Answers(s, Deliver(p, s, a), Grant(path + [x]), nx)
  {
    hide Deliver, Waiting, Owned, Counted, Alive, Ledger;
    var ph, m := Grant(path + [x]), s.queue[0];
    NoticeFacts(p, s, ph, path, x, m);
    RefBound(p, s, ph, x);
    assert s.queue == [m];
    GrantEffect(p, s, path, x, m, a);
    if a.setStatus == SUCCESS {
      GrantGains(p, s, Deliver(p, s, a), path, x);
    } else {
      GrantFails(p, s, Deliver(p, s, a), path, x, [Msg(ClockId(x), p[x].value, Halt, a.setStatus)], a.setStatus);
    }
  }

  lemma GrantGains(p: Parents, s: State, t: State, path: seq<nat>, x: nat)
    requires Inv(p, s, Grant(path + [x])) && x < |p| && Gained(p, s, t, path, x)
    requires Owner(Grant(path + [x])) == Some(if path == [] then x else path[0])
    ensures Inv(p, t, Granted(path)) && Answers(s, t, Grant(path + [x]), Granted(path))
  {
    hide Waiting, Owned, InFlight, Counted, Alive, Ledger;
    GainKeeps(p, s, Grant(path + [x]), t, path, x);
    GainAnswers(p, s, Grant(path + [x]), t, path, x);
  }

  lemma GrantFails(p: Parents, s: State, t: State, path: seq<nat>, x: nat, stop: seq<Msg>, status: int)
    requires Inv(p, s, Grant(path + [x])) && x < |p| && p[x].Some? && GaveUp(p, s, t, path, x, stop, status)
    requires |stop| == 1 && Stopping(stop[0], p[x].value) && Clear(p, path, p[x].value)
    requires path != [] ==> path[|path| - 1] < |p| && p[path[|path| - 1]] == Some(x)
    ensures Inv(p, t, Failed(path, p[x])) && Answers(s, t, Grant(path + [x]), Failed(path, p[x]))
  {
    hide Waiting, Owned, InFlight, Counted, Alive, Ledger;
    GainCredits(p, Grant(path + [x]), path, x);
    FailAccounts(p, s, Grant(path + [x]), t, path, x, p[x], stop, status);
    NoticeFails(p, s, Grant(path + [x]), t, path, x, p[x], stop, status);
    FailAnswers(p, s, Grant(path + [x]), t, path, x, p[x], stop, status);
  }

  lemma RefuseKeeps(p: Parents, s: State, path: seq<nat>, x: nat, undo: Option<nat>, ahead: bool, a: Answer)
    requires Inv(p, s, Refuse(path + [x], undo, ahead)) && (undo.None? || !ahead)
    ensures s.queue != []
    ensures Inv(p, Deliver(p, s, a), Failed(path, undo))
    ensures Answers(s, Deliver(p, s, a), Refuse(path + [x], undo, ahead), Failed(path, undo))
  {
    hide Deliver, Waiting, Owned, Counted, Alive, Ledger;
    var ph, m, rest := Refuse(path + [x], undo, ahead), s.queue[0], s.queue[1..];
    NoticeFacts(p, s, ph, path, x, m);
    RefuseEffect(p, s, path, x, m, rest, a);
    var t := Deliver(p, s, a);
    FailAccounts(p, s, ph, t, path, x, undo, rest, m.status);
    assert undo.Some? ==> Clear(p, path, undo.value) by {
      if undo.Some? {
        assert forall i :: 0 <= i < |path| ==> path[i] == (path + [x])[i];
      }
    }
    NoticeFails(p, s, ph, t, path, x, undo, rest, m.status);
    FailAnswers(p, s, ph, t, path, x, undo, rest, m.status);
  }

  // ------------------------------------------------------------ stops

  lemma DropEffect(p: Parents, s: State, q: nat, m: Msg, rest: seq<Msg>, a: Answer)
    requires Shaped(p, s) && q < |p| && s.queue == [m] + rest && Stopping(m, q) && Sound(a, Halt)
    requires !s.clocks[q].waiting && s.clocks[q].ref >= 1 && (s.clocks[q].initiator ==> m.status == SUCCESS)
    ensures Dropped(p, s, Deliver(p, s, a), q, rest)
  {
    assert s.queue[0] == m && s.queue[1..] == rest;
  }

  /** The stop at the head of the queue reaches an idle clock, the requested one only if its requester waits. */
  lemma DropFacts(p: Parents, s: State, ph: Phase, q: nat)
    requires Traffic(p, s, ph)
    requires (ph.Drop? && ph.q == q) || (ph.Refuse? && ph.undo == Some(q) && ph.ahead)
    ensures s.queue != [] && Stopping(s.queue[0], q) && q < |p| && Clear(p, PathOf(ph), q)
    ensures !s.clocks[q].waiting && (s.clocks[q].initiator <==> ph == Drop(q, true))
    ensures s.clocks[q].initiator ==> s.queue[0].status == SUCCESS
    ensures ph.Drop? ==> s.queue[1..] == []
  {
    assert Clear(p, PathOf(ph), q);
    assert q !in PathOf(ph);
    if ph.Refuse? {
      assert s.clocks[q].initiator <==> PathOf(ph)[0] == q;
    }
  }

  lemma DropKeeps(p: Parents, s: State, ph: Phase, q: nat, a: Answer)
    requires Inv(p, s, ph) && Sound(a, Halt)
    requires (ph.Drop? && ph.q == q) || (ph.Refuse? && ph.undo == Some(q) && ph.ahead)
    ensures s.queue != []
    ensures Inv(p, Deliver(p, s, a), Next(p, s, ph, a))
    ensures Answers(s, Deliver(p, s, a), ph, Next(p, s, ph, a))
  {
    hide Deliver, Waiting, Owned, InFlight, Counted, Alive, Ledger;
    DropFacts(p, s, ph, q);
    var m, rest, nx := s.queue[0], s.queue[1..], Next(p, s, ph, a);
    RefBound(p, s, ph, q);
    DropEffect(p, s, q, m, rest, a);
    var t := Deliver(p, s, a);
    DropAccounts(p, s, ph, t, nx, q, rest);
    if ph.Drop? {
      DropAlone(p, s, ph, t, q);
    } else {
      DropAhead(p, s, ph.path, t, q);
    }
  }

  // ------------------------------------------------------------ any event, any request

  /** Every queued event, whatever the driver answers, keeps the invariant and owes no second completion. */
  lemma StepKeeps(p: Parents, s: State, ph: Phase, a: Answer)
    requires Inv(p, s, ph) && s.queue != [] && Sound(a, s.queue[0].goal)
    ensures Inv(p, Deliver(p, s, a), Next(p, s, ph, a))
    ensures Answers(s, Deliver(p, s, a), ph, Next(p, s, ph, a))
  {
    hide Deliver, Waiting, Owned, Counted, Alive, Ledger;
    match ph
    case Climb(path, at) => ClimbKeeps(p, s, path, at, a);
    case Drop(q, _) => DropKeeps(p, s, ph, q, a);
    case Grant(path) => GrantStep(p, s, path, a);
    case Refuse(path, undo, ahead) =>
      if undo.Some? && ahead {
        DropKeeps(p, s, ph, undo.value, a);
      } else {
        SplitLast(path);
        RefuseKeeps(p, s, path[..|path| - 1], path[|path| - 1], undo, ahead, a);
      }
  }

  lemma GrantStep(p: Parents, s: State, path: seq<nat>, a: Answer)
    requires Inv(p, s, Grant(path)) && Sound(a, Run)
    ensures s.queue != []
    ensures Inv(p, Deliver(p, s, a), Next(p, s, Grant(path), a))
    ensures Answers(s, Deliver(p, s, a), Grant(path), Next(p, s, Grant(path), a))
  {
    hide Waiting, Owned, Counted, Alive, Ledger;
    SplitLast(path);
    GrantKeeps(p, s, path[..|path| - 1], path[|path| - 1], a);
  }

  lemma SplitLast(path: seq<nat>)
    requires path != []
    ensures path == path[..|path| - 1] + [path[|path| - 1]]
  {
  }

  function Requested(p: Parents, x: nat, goal: Goal): Phase
    requires x < |p|
  {
    if SingleNode(p, x) then Quiet else if goal == Run then Climb([], x) else Drop(x, true)
  }

  /** Requesters stop only what they started, and the count of starts fits the 32-bit field. */
  predicate Permitted(p: Parents, s: State, x: nat, goal: Goal)
    requires Shaped(p, s)
  {
    && x < |p| && s.queue == []
    && (goal == Run || (goal == Halt && (SingleNode(p, x) || s.starts[x] > 0)))
    && s.starts[x] + |p| + 2 < MAX_U32
  }

  lemma SingleKeeps(p: Parents, s: State, t: State, x: nat, running: bool)
    requires Inv(p, s, Quiet) && x < |p| && SingleNode(p, x)
    requires t == s.(clocks := s.clocks[x := s.clocks[x].(running := running)])
    ensures Inv(p, t, Quiet)
  {
    if RunningChildren(p, s.clocks, x, |p|) > 0 {
      var y := CountWitness(p, s.clocks, x, |p|);
      assert false;
    }
    Recount(p, s, Quiet, t, Quiet, x);
    PathSame(p, s, t, [], x);
  }

  lemma AskKeeps(p: Parents, s: State, t: State, x: nat, goal: Goal)
    requires Inv(p, s, Quiet) && Permitted(p, s, x, goal) && !SingleNode(p, x)
    requires t.clocks == s.clocks[x := s.clocks[x].(initiator := true)]
    requires t.queue == [Msg(AgentId, x, goal, SUCCESS)] && t.done == s.done
    requires t.starts == if goal == Halt then s.starts[x := s.starts[x] - 1] else s.starts
    ensures Inv(p, t, Requested(p, x, goal))
  {
    hide Waiting, Owned, InFlight, ReachesRoot;
    Recount(p, s, Quiet, t, Requested(p, x, goal), x);
    AskTraffic(p, s, t, x, goal);
  }

  lemma AskTraffic(p: Parents, s: State, t: State, x: nat, goal: Goal)
    requires Traffic(p, s, Quiet) && Shaped(p, t) && x < |p| && !SingleNode(p, x) && (goal == Run || goal == Halt)
    requires t.clocks == s.clocks[x := s.clocks[x].(initiator := true)]
    requires t.queue == [Msg(AgentId, x, goal, SUCCESS)]
    ensures Traffic(p, t, Requested(p, x, goal))
  {
    PathSame(p, s, t, [], x);
  }

  lemma RequestKeeps(p: Parents, s: State, x: nat, goal: Goal, a: Answer)
    requires Inv(p, s, Quiet) && Permitted(p, s, x, goal)
    ensures Inv(p, Request(p, s, x, goal, a), Requested(p, x, goal))
  {
    if SingleNode(p, x) {
      SingleKeeps(p, s, Request(p, s, x, goal, a), x, Drive(s.clocks[x], goal, a.setStatus).running);
    } else {
      AskKeeps(p, s, Request(p, s, x, goal, a), x, goal);
    }
  }
}
