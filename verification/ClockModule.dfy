/**
 The clock module as the object it is: a device table and a queue that the event handlers
 update in place. Each method is proved to be the corresponding step of the protocol.
 */
module ClockModule {
  import opened Status
  import opened Forest
  import opened ClockTree
  import opened ClockTreeSafety
  import opened ClockTreeRuns

  /** The clocks among the first n whose parent is x, in table order. */
  function ChildrenOf(p: Parents, x: nat, n: nat): seq<nat>
    requires n <= |p|
  {
    if n == 0 then [] else ChildrenOf(p, x, n - 1) + (if p[n - 1] == Some(x) then [n - 1] else [])
  }

  /** The list holds exactly the children, in increasing table order. */
  lemma {:induction false} ChildrenAre(p: Parents, x: nat, n: nat)
    requires n <= |p|
    ensures forall y :: y in ChildrenOf(p, x, n) <==> 0 <= y < n && p[y] == Some(x)
    ensures forall i, j :: 0 <= i < j < |ChildrenOf(p, x, n)| ==> ChildrenOf(p, x, n)[i] < ChildrenOf(p, x, n)[j]
    decreases n
  {
    if n > 0 {
      ChildrenAre(p, x, n - 1);
      var c := ChildrenOf(p, x, n - 1);
      assert forall i :: 0 <= i < |c| ==> c[i] in c;
    }
  }

  lemma NoChildren(p: Parents, x: nat)
    ensures |ChildrenOf(p, x, |p|)| == 0 <==> !HasChild(p, x)
  {
    ChildrenAre(p, x, |p|);
    var c := ChildrenOf(p, x, |p|);
    if |c| > 0 {
      assert c[0] in c;
    }
  }

  /** Clock i is the first one with a parent whose driver does not report, and status says why. */
  predicate FailsFirst(p: Parents, reports: seq<int>, i: nat, status: int) {
    && i < |p| == |reports| && p[i].Some? && reports[i] != SUCCESS
    && (forall k :: 0 <= k < i && p[k].Some? ==> reports[k] == SUCCESS)
    && status == if reports[i] == PENDING then E_SUPPORT else reports[i]
  }

  /** The clocks differ in the driver state of x alone, which is the one asked for. */
  predicate DrivenOnly(before: seq<Clock>, after: seq<Clock>, x: nat, goal: Goal) {
    && |after| == |before| && x < |after|
    && (after[x].running <==> goal == Run)
    && after[x].ref == before[x].ref && after[x].waiting == before[x].waiting
    && after[x].caller == before[x].caller && after[x].initiator == before[x].initiator
    && forall y :: 0 <= y < |after| && y != x ==> after[y] == before[y]
  }

  /** The clocks differ in that x is now the initiator of a transition. */
  predicate AskedOnly(before: seq<Clock>, after: seq<Clock>, x: nat) {
    && |after| == |before| && x < |after| && after[x].initiator
    && after[x].ref == before[x].ref && after[x].waiting == before[x].waiting
    && after[x].caller == before[x].caller && after[x].running == before[x].running
    && forall y :: 0 <= y < |after| && y != x ==> after[y] == before[y]
  }

  class Clocks {
    const p: Parents
    var children: seq<seq<nat>>
    var clocks: seq<Clock>
    var queue: seq<Msg>
    var done: seq<Completion>
    var starts: seq<int>
    /** Requests whose completion has not been handled yet (see ClockRequests). */
    var ongoing: seq<bool>

    ghost function View(): State
      reads this
    {
      State(clocks, queue, done, starts)
    }

    ghost predicate Valid()
      reads this
    {
      Shaped(p, View())
    }

    /** The element contexts as allocated: everything zero, the driver in its boot state. */
    constructor (parents: Parents, running: seq<bool>)
      requires WellFormed(parents) && |running| == |parents|
      ensures p == parents && children == seq(|parents|, _ => [])
      ensures Valid() && queue == [] && done == [] && starts == seq(|parents|, _ => 0) && ongoing == seq(|parents|, _ => false)
      ensures clocks == seq(|parents|, i requires 0 <= i < |parents| => Clock(0, running[i], false, NoId, false))
    {
      p := parents;
      children := seq(|parents|, _ => []);
      clocks := seq(|parents|, i requires 0 <= i < |parents| => Clock(0, running[i], false, NoId, false));
      queue, done, starts := [], [], seq(|parents|, _ => 0);
      ongoing := seq(|parents|, _ => false);
    }

    /**
     Builds the tree: children lists in table order, and one reference on the parent for
     every child whose driver reports it running. Fails exactly when the driver of a clock
     with a parent fails to report.
     */
    method ConnectTree(reports: seq<int>) returns (status: int)
      requires Valid() && |children| == |reports| == |p|
      requires forall x :: 0 <= x < |p| ==> children[x] == [] && clocks[x].ref == 0
      modifies this`children, this`clocks
      ensures Valid()
      ensures status == SUCCESS <==> forall i :: 0 <= i < |p| && p[i].Some? ==> reports[i] == SUCCESS
      ensures status != SUCCESS ==> exists i :: FailsFirst(p, reports, i, status)
      ensures status == SUCCESS ==>
        && |children| == |p|
        && (forall x :: 0 <= x < |p| ==> children[x] == ChildrenOf(p, x, |p|))
        && (forall x :: 0 <= x < |p| ==>
              clocks[x] == old(clocks)[x].(ref := RunningChildren(p, old(clocks), x, |p|)))
    {
      var i := 0;
      while i < |p|
        invariant 0 <= i <= |p| == |children| == |clocks| == |starts|
        invariant forall x :: 0 <= x < |p| ==> children[x] == ChildrenOf(p, x, i)
        invariant forall x :: 0 <= x < |p| ==> clocks[x] == old(clocks)[x].(ref := RunningChildren(p, old(clocks), x, i))
        invariant forall k :: 0 <= k < i && p[k].Some? ==> reports[k] == SUCCESS
      {
        if p[i].Some? {
          var parent := p[i].value;
          children := children[parent := children[parent] + [i]];
          if reports[i] == PENDING {
            assert FailsFirst(p, reports, i, E_SUPPORT);
            return E_SUPPORT;
          } else if reports[i] != SUCCESS {
            assert FailsFirst(p, reports, i, reports[i]);
            return reports[i];
          }
          if clocks[i].running {
            clocks := clocks[parent := clocks[parent].(ref := clocks[parent].ref + 1)];
          }
        }
        i := i + 1;
      }
      status := SUCCESS;
    }

    method Send(m: Msg)
      requires Valid() && Addressed(p, m)
      modifies this`queue
      ensures Valid() && View() == ClockTree.Send(p, old(View()), m)
    {
      queue := queue + [m];
    }

    /** Ends the transition of clock x and responds to whoever asked for it. */
    method CompleteResponse(x: nat, goal: Goal, status: int)
      requires Valid() && x < |p|
      modifies this`clocks, this`queue, this`done, this`starts
      ensures Valid() && View() == Respond(p, old(View()), x, goal, status)
    {
      clocks := clocks[x := clocks[x].(waiting := false)];
      if !clocks[x].initiator {
        if goal != Halt && clocks[x].caller.ClockId? {
          Send(Msg(ClockId(x), clocks[x].caller.i, goal, status));
        }
        return;
      }
      clocks := clocks[x := clocks[x].(initiator := false)];
      done := done + [Completion(x, goal, status)];
      if goal == Run && status == SUCCESS {
        starts := starts[x := starts[x] + 1];
      }
    }

    /** Tells the driver of clock x to change state. */
    method CompleteTransition(x: nat, goal: Goal, a: Answer) returns (status: int)
      requires Valid() && x < |p|
      modifies this`clocks
      ensures Valid() && status == (if a.setStatus == PENDING then E_SUPPORT else a.setStatus)
      ensures clocks == old(clocks)[x := Drive(old(clocks)[x], goal, a.setStatus)]
    {
      if a.setStatus == SUCCESS {
        clocks := clocks[x := clocks[x].(running := goal == Run)];
      }
      status := if a.setStatus == PENDING then E_SUPPORT else a.setStatus;
    }

    /** Processes the pre-request event at the head of the queue. */
    method ProcessState(a: Answer)
      requires Valid() && queue != []
      modifies this`clocks, this`queue, this`done, this`starts
      ensures Valid() && View() == Deliver(p, old(View()), a)
    {
      var m := queue[0];
      queue := queue[1..];
      if clocks[m.target].waiting {
        ProcessWaiting(m, a);
      } else {
        ProcessIdle(m, a);
      }
    }

    method ProcessIdle(m: Msg, a: Answer)
      requires Valid() && Addressed(p, m)
      modifies this`clocks, this`queue, this`done, this`starts
      ensures Valid() && View() == OnIdle(p, old(View()), m, a)
    {
      var x := m.target;
      clocks := clocks[x := clocks[x].(caller := m.source)];
      if a.getStatus == PENDING {
        return;
      }
      if a.getStatus != SUCCESS {
        CompleteResponse(x, m.goal, a.getStatus);
        return;
      }
      if m.goal == Run {
        ProcessRun(m, a);
      } else if m.goal == Halt {
        ProcessHalt(m, a);
      }
    }

    method ProcessRun(m: Msg, a: Answer)
      requires Valid() && Addressed(p, m)
      modifies this`clocks, this`queue, this`done, this`starts
      ensures Valid() && View() == OnRun(p, old(View()), m, a)
    {
      var x := m.target;
      if clocks[x].running {
        clocks := clocks[x := clocks[x].(ref := Up(clocks[x].ref))];
        CompleteResponse(x, Run, m.status);
        return;
      }
      if p[x].None? {
        var status := CompleteTransition(x, Run, a);
        if status == E_SUPPORT {
          return;
        } else if status == SUCCESS {
          clocks := clocks[x := clocks[x].(ref := Up(clocks[x].ref))];
        }
        CompleteResponse(x, Run, status);
        return;
      }
      clocks := clocks[x := clocks[x].(waiting := true)];
      Send(Msg(ClockId(x), p[x].value, Run, m.status));
    }

    method ProcessHalt(m: Msg, a: Answer)
      requires Valid() && Addressed(p, m)
      modifies this`clocks, this`queue, this`done, this`starts
      ensures Valid() && View() == OnHalt(p, old(View()), m, a)
    {
      var x := m.target;
      clocks := clocks[x := clocks[x].(ref := Down(clocks[x].ref))];
      if clocks[x].ref == 0 {
        var status := CompleteTransition(x, Halt, a);
        if status == E_SUPPORT {
          return;
        }
        CompleteResponse(x, Halt, status);
        if p[x].Some? {
          Send(Msg(ClockId(x), p[x].value, Halt, status));
        }
        return;
      }
      CompleteResponse(x, Halt, m.status);
    }

    method ProcessWaiting(m: Msg, a: Answer)
      requires Valid() && Addressed(p, m)
      modifies this`clocks, this`queue, this`done, this`starts
      ensures Valid() && View() == OnWait(p, old(View()), m, a)
    {
      hide Respond;
      var x := m.target;
      if p[x].None? || m.source != ClockId(p[x].value) {
        if m.source.ClockId? {
          Send(Msg(ClockId(x), m.source.i, m.goal, E_BUSY));
        }
        return;
      }
      var goal, status := m.goal, m.status;
      if status == SUCCESS {
        status := CompleteTransition(x, goal, a);
        if status == E_SUPPORT {
          return;
        } else if status == SUCCESS {
          clocks := clocks[x := clocks[x].(ref := Up(clocks[x].ref))];
          assert View() == Put(p, old(View()), x, Drive(old(clocks)[x], goal, SUCCESS).(ref := Up(old(clocks)[x].ref)));
        } else {
          Send(Msg(ClockId(x), p[x].value, Halt, status));
          assert View() == ClockTree.Send(p, old(View()), Msg(ClockId(x), p[x].value, Halt, a.setStatus));
          goal := Run;
        }
      }
      CompleteResponse(x, goal, status);
    }

    /** Queues the request event of clock x; put is what the framework answers. */
    method CreateAsyncRequest(x: nat, put: int) returns (status: int)
      requires x < |ongoing|
      modifies this`ongoing
      ensures status == (if put == SUCCESS then PENDING else put)
      ensures ongoing == if put == SUCCESS then old(ongoing)[x := true] else old(ongoing)
    {
      if put != SUCCESS {
        return put;
      }
      ongoing := ongoing[x := true];
      status := PENDING;
    }

    /**
     Asks clock x for a state on behalf of a requester. The framework answers the put of the
     request event and the put of the pre-request event with put and prePut; a put succeeds or
     fails. A clock with a request in progress, or waiting in the tree, is not disturbed; a
     single-node clock is driven directly; otherwise the protocol step Request is made, unless
     an event cannot be queued: the first failure changes nothing, the second one leaves the
     request open.
     */
    method SetState(x: nat, goal: Goal, a: Answer, put: int, prePut: int) returns (status: int)
      requires Valid() && x < |p| == |children| == |ongoing| && put != PENDING
      requires children[x] == ChildrenOf(p, x, |p|)
      modifies this`clocks, this`queue, this`starts, this`ongoing
      ensures Valid()
      ensures !old(ongoing)[x] && !old(clocks)[x].waiting && SingleNode(p, x) ==>
        && (if a.setStatus == SUCCESS then DrivenOnly(old(clocks), clocks, x, goal) else clocks == old(clocks))
        && queue == old(queue) && done == old(done) && starts == old(starts)
      ensures !old(ongoing)[x] && !old(clocks)[x].waiting && !SingleNode(p, x) && put == SUCCESS && prePut == SUCCESS ==>
        && AskedOnly(old(clocks), clocks, x) && done == old(done)
        && queue == old(queue) + [Msg(AgentId, x, goal, SUCCESS)]
        && starts == old(starts)[x := old(starts)[x] - (if goal == Halt then 1 else 0)]
      ensures var before := old(View());
        if old(ongoing)[x] || before.clocks[x].waiting then
          status == E_BUSY && View() == before && ongoing == old(ongoing)
        else if SingleNode(p, x) then
          && View() == Request(p, before, x, goal, a)
          && status == (if a.setStatus == PENDING && put != SUCCESS then put else a.setStatus)
          && ongoing == old(ongoing)[x := a.setStatus == PENDING && put == SUCCESS]
        else if put != SUCCESS then status == put && View() == before && ongoing == old(ongoing)
        else
          && ongoing == old(ongoing)[x := true]
          && if prePut == SUCCESS then status == PENDING && View() == Request(p, before, x, goal, a)
             else status == prePut && View() == before.(clocks := before.clocks[x := before.clocks[x].(initiator := true)])
    {
      if ongoing[x] || clocks[x].waiting {
        return E_BUSY;
      }
      NoChildren(p, x);
      if p[x].None? && |children[x]| == 0 {
        status := CompleteTransition(x, goal, a);
        if a.setStatus == PENDING {
          status := CreateAsyncRequest(x, put);
          return;
        }
        return a.setStatus;
      }
      status := CreateAsyncRequest(x, put);
      if status != PENDING {
        return;
      }
      clocks := clocks[x := clocks[x].(initiator := true)];
      if prePut != SUCCESS {
        return prePut;
      }
      Send(Msg(AgentId, x, goal, SUCCESS));
      if goal == Halt {
        starts := starts[x := starts[x] - 1];
      }
      status := PENDING;
    }
  }

  /** A connected tree in which every running clock has a running parent is a boot state. */
  lemma ConnectedIsBooted(p: Parents, before: seq<Clock>, s: State)
    requires Acyclic(p) && Shaped(p, s) && s.queue == [] && |p| + 1 < MAX_U32 && |before| == |p|
    requires forall x :: 0 <= x < |p| ==>
      && s.clocks[x] == before[x].(ref := RunningChildren(p, before, x, |p|))
      && s.starts[x] == 0 && !before[x].waiting && !before[x].initiator
      && (p[x].Some? && before[x].running ==> before[p[x].value].running)
    ensures Booted(p, s)
  {
    forall x | 0 <= x < |p|
      ensures s.clocks[x].ref == RunningChildren(p, s.clocks, x, |p|)
    {
      CountSame(p, before, s.clocks, x, |p|);
    }
  }
}
