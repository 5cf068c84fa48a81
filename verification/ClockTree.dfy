/**
 The clock-tree state protocol: what each clock does with one queued "set state
 pre-request" event, the request that starts a transition, and runs of both.
 The state holds the device table, the events of this kind still queued, the
 completions handed to the requesters, and the requesters' own ledger of starts
 that succeeded and were not yet stopped.
 */
module ClockTree {
  import opened Status
  import opened Forest

  const MAX_U32: int := 0xFFFF_FFFF

  datatype Id = NoId | ClockId(i: nat) | AgentId

  datatype Goal = Run | Halt | OtherGoal

  /** Device context: reference count, driver state, and the transition fields. */
  datatype Clock = Clock(ref: int, running: bool, waiting: bool, caller: Id, initiator: bool)

  /** A pre-request event: sender, addressee, wanted state and the status it reports. */
  datatype Msg = Msg(source: Id, target: nat, goal: Goal, status: int)

  datatype Completion = Completion(clock: nat, goal: Goal, status: int)

  datatype State = State(clocks: seq<Clock>, queue: seq<Msg>, done: seq<Completion>, starts: seq<int>)

  /** What the driver of the addressed clock answers while one event is processed. */
  datatype Answer = Answer(getStatus: int, setStatus: int)

  predicate Addressed(p: Parents, m: Msg) {
    m.target < |p| && (m.source.ClockId? ==> m.source.i < |p|)
  }

  predicate Shaped(p: Parents, s: State) {
    && WellFormed(p)
    && |s.clocks| == |s.starts| == |p|
    && (forall k :: 0 <= k < |s.queue| ==> Addressed(p, s.queue[k]))
    && (forall x :: 0 <= x < |p| && s.clocks[x].caller.ClockId? ==> s.clocks[x].caller.i < |p|)
  }

  function Up(r: int): int { if r == MAX_U32 then 0 else r + 1 }

  function Down(r: int): int { if r == 0 then MAX_U32 else r - 1 }

  function Send(p: Parents, s: State, m: Msg): (t: State)
    requires Shaped(p, s) && Addressed(p, m)
    ensures Shaped(p, t)
  {
    s.(queue := s.queue + [m])
  }

  function Put(p: Parents, s: State, x: nat, c: Clock): (t: State)
    requires Shaped(p, s) && x < |p| && (c.caller.ClockId? ==> c.caller.i < |p|)
    ensures Shaped(p, t)
  {
    s.(clocks := s.clocks[x := c])
  }

  /** The transition of x is over: tell the clock that called it, or the requester. */
  function Respond(p: Parents, s: State, x: nat, goal: Goal, status: int): (t: State)
    requires Shaped(p, s) && x < |p|
    ensures Shaped(p, t)
  {
    var c := s.clocks[x].(waiting := false);
    if c.initiator then
      var t := Put(p, s, x, c.(initiator := false));
      t.(done := t.done + [Completion(x, goal, status)],
         starts := if goal == Run && status == SUCCESS then t.starts[x := t.starts[x] + 1] else t.starts)
    else if goal != Halt && c.caller.ClockId? then
      Send(p, Put(p, s, x, c), Msg(ClockId(x), c.caller.i, goal, status))
    else
      Put(p, s, x, c)
  }

  /** The driver is told to change state; only a success changes the clock. */
  function Drive(c: Clock, goal: Goal, status: int): Clock {
    if status == SUCCESS then c.(running := goal == Run) else c
  }

  predicate Unsupported(status: int) { status == PENDING || status == E_SUPPORT }

  /** An idle clock is asked to run. */
  function OnRun(p: Parents, s: State, m: Msg, a: Answer): (t: State)
    requires Shaped(p, s) && Addressed(p, m)
    ensures Shaped(p, t)
  {
    var x := m.target;
    var c := s.clocks[x];
    if c.running then Respond(p, Put(p, s, x, c.(ref := Up(c.ref))), x, Run, m.status)
    else if p[x].Some? then Send(p, Put(p, s, x, c.(waiting := true)), Msg(ClockId(x), p[x].value, Run, m.status))
    else if Unsupported(a.setStatus) then s
    else if a.setStatus == SUCCESS then
      Respond(p, Put(p, s, x, Drive(c, Run, SUCCESS).(ref := Up(c.ref))), x, Run, SUCCESS)
    else Respond(p, s, x, Run, a.setStatus)
  }

  /** An idle clock loses one reference, and stops with the last one. */
  function OnHalt(p: Parents, s: State, m: Msg, a: Answer): (t: State)
    requires Shaped(p, s) && Addressed(p, m)
    ensures Shaped(p, t)
  {
    var x := m.target;
    var c := s.clocks[x].(ref := Down(s.clocks[x].ref));
    if c.ref != 0 then Respond(p, Put(p, s, x, c), x, Halt, m.status)
    else if Unsupported(a.setStatus) then Put(p, s, x, c)
    else
      var s := Respond(p, Put(p, s, x, Drive(c, Halt, a.setStatus)), x, Halt, a.setStatus);
      if p[x].Some? then Send(p, s, Msg(ClockId(x), p[x].value, Halt, a.setStatus)) else s
  }

  function OnIdle(p: Parents, s: State, m: Msg, a: Answer): (t: State)
    requires Shaped(p, s) && Addressed(p, m)
    ensures Shaped(p, t)
  {
    var s := Put(p, s, m.target, s.clocks[m.target].(caller := m.source));
    if a.getStatus == PENDING then s
    else if a.getStatus != SUCCESS then Respond(p, s, m.target, m.goal, a.getStatus)
    else match m.goal
      case Run => OnRun(p, s, m, a)
      case Halt => OnHalt(p, s, m, a)
      case OtherGoal => s
  }

  function OnWait(p: Parents, s: State, m: Msg, a: Answer): (t: State)
    requires Shaped(p, s) && Addressed(p, m)
    ensures Shaped(p, t)
  {
    var x := m.target;
    var c := s.clocks[x];
    if p[x].None? || m.source != ClockId(p[x].value) then
      if m.source.ClockId? then Send(p, s, Msg(ClockId(x), m.source.i, m.goal, E_BUSY)) else s
    else if m.status != SUCCESS then Respond(p, s, x, m.goal, m.status)
    else if Unsupported(a.setStatus) then s
    else if a.setStatus == SUCCESS then
      Respond(p, Put(p, s, x, Drive(c, m.goal, SUCCESS).(ref := Up(c.ref))), x, m.goal, SUCCESS)
    else
      Respond(p, Send(p, s, Msg(ClockId(x), p[x].value, Halt, a.setStatus)), x, Run, a.setStatus)
  }

  /** The event at the head of the queue is processed by the clock it addresses. */
  function Deliver(p: Parents, s: State, a: Answer): (t: State)
    requires Shaped(p, s) && s.queue != []
    ensures Shaped(p, t)
  {
    var m := s.queue[0];
    var t := s.(queue := s.queue[1..]);
    if s.clocks[m.target].waiting then OnWait(p, t, m, a) else OnIdle(p, t, m, a)
  }

  /** A requester asks clock x for a state. Single-node clocks go straight to their driver. */
  function Request(p: Parents, s: State, x: nat, goal: Goal, a: Answer): (t: State)
    requires Shaped(p, s) && x < |p|
    ensures Shaped(p, t)
  {
    var c := s.clocks[x];
    if c.waiting then s
    else if SingleNode(p, x) then Put(p, s, x, Drive(c, goal, a.setStatus))
    else
      var t := Send(p, Put(p, s, x, c.(initiator := true)), Msg(AgentId, x, goal, SUCCESS));
      if goal == Halt then t.(starts := t.starts[x := t.starts[x] - 1]) else t
  }
}
