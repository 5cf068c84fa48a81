/**
 A clock of the tree from the call of clock_set_state to the response at its requester: the
 tree protocol and the request protocol of one clock c as one system. Nothing is assumed of
 the completion: the tree owes it, gives it once, and the engine delivers it. The pre-request
 events are in a queue of their own, processed in order and at any time between the other events.
 */
module ClockSetState {
  import opened Status
  import opened Counting
  import opened Forest
  import opened Events
  import opened DelayedResponses
  import T = ClockTree
  import S = ClockTreeSafety
  import U = ClockTreeRuns
  import R = ClockRequests

  datatype System = System(tree: T.State, req: R.System)

  /**
   Enter: both guards of a call for c are passed. Post: it queues the request event and the
   pre-request. Ask: a request for another clock. Process: the next pre-request event.
   */
  datatype Step =
    | Enter(source: nat)
    | Post(goal: T.Goal, a: T.Answer)
    | Ask(x: nat, goal: T.Goal, a: T.Answer)
    | Process(a: T.Answer)
    | HandleRequest
    | HandleCompletion
    | Other(m: Move)

  /** The completion that the step from s to t of the tree gives for clock c. */
  function Given(s: T.State, t: T.State, c: nat): Option<T.Completion> {
    if |t.done| > |s.done| && t.done[|t.done| - 1].clock == c then Some(t.done[|t.done| - 1]) else None
  }

  /** The framework can take the completion event. */
  predicate Room(r: R.System, c: nat) {
    && c < |r.e.parked| && (r.e.current.Some? ==> r.e.current.value.target < |r.e.parked|)
    && r.e.counter + 1 < WRAP && r.e.free != []
  }

  predicate Enabled(p: Parents, s: System, c: nat, st: Step)
    requires T.Shaped(p, s.tree)
  {
    match st
    case Enter(source) => R.Enabled(s.req, c, R.DriverPends(source)) && s.tree.queue == []
    case Post(goal, a) => R.Enabled(s.req, c, R.PostRequest) && S.Permitted(p, s.tree, c, goal)
    case Ask(x, goal, a) => x != c && !s.req.calling && S.Permitted(p, s.tree, x, goal)
    case Process(a) => !s.req.calling && s.tree.queue != [] && S.Sound(a, s.tree.queue[0].goal) && Room(s.req, c)
    case HandleRequest => R.Enabled(s.req, c, R.HandleRequest)
    case HandleCompletion => R.Enabled(s.req, c, R.HandleCompletion)
    case Other(m) => R.Enabled(s.req, c, R.Other(m))
  }

  /** The clock hands the status of its transition to clock_request_complete. */
  function Complete(r: R.System, c: nat, status: int): R.System
    requires Room(r, c)
  {
    r.(e := Events.Post(r.e, R.CompletionEvent(c, c, status), false, false).engine, pending := false)
  }

  function Do(p: Parents, s: System, c: nat, st: Step): System
    requires T.Shaped(p, s.tree) && Enabled(p, s, c, st)
  {
    match st
    case Enter(source) => s.(req := R.Do(s.req, c, R.DriverPends(source)))
    case Post(goal, a) => System(T.Request(p, s.tree, c, goal, a), R.Do(s.req, c, R.PostRequest))
    case Ask(x, goal, a) => s.(tree := T.Request(p, s.tree, x, goal, a))
    case Process(a) =>
      var t := T.Deliver(p, s.tree, a);
      var given := Given(s.tree, t, c);
      System(t, if given.Some? then Complete(s.req, c, given.value.status) else s.req)
    case HandleRequest => s.(req := R.Do(s.req, c, R.HandleRequest))
    case HandleCompletion => s.(req := R.Do(s.req, c, R.HandleCompletion))
    case Other(m) => s.(req := R.Do(s.req, c, R.Other(m)))
  }

  // ------------------------------------------------------------ the invariant

  /** The last completion of c. */
  function Last(done: seq<T.Completion>, c: nat): Option<T.Completion> {
    if done == [] then None
    else if done[|done| - 1].clock == c then Some(done[|done| - 1])
    else Last(done[..|done| - 1], c)
  }

  lemma LastPush(done: seq<T.Completion>, d: T.Completion, c: nat)
    ensures Last(done + [d], c) == if d.clock == c then Some(d) else Last(done, c)
  {
    assert (done + [d])[..|done|] == done;
  }

  predicate Reports(ev: Event, c: nat, last: Option<T.Completion>) {
    R.IsFor(R.COMPLETION, c)(ev) ==> last.Some? && ev.params == last.value.status
  }

  /** The completion event of c, wherever it is, carries the status of the last completion. */
  predicate Carries(e: Engine, c: nat, last: Option<T.Completion>) {
    && (forall i :: 0 <= i < |e.ready| ==> Reports(e.ready[i], c, last))
    && (forall i :: 0 <= i < |e.isr| ==> Reports(e.isr[i], c, last))
    && (e.current.Some? ==> Reports(e.current.value, c, last))
  }

  /** A start reported as successful stays on the ledger until its requester has heard. */
  predicate Kept(s: System, c: nat)
    requires c < |s.tree.starts|
  {
    var last := Last(s.tree.done, c);
    s.req.ongoing && !s.req.pending && last.Some? && last.value.goal == T.Run && last.value.status == SUCCESS ==>
      s.tree.starts[c] > 0
  }

  ghost predicate Inv(p: Parents, s: System, c: nat, ph: S.Phase) {
    && S.Inv(p, s.tree, ph) && R.Inv(s.req, c) && c < |p| && !SingleNode(p, c)
    && (s.req.calling ==> ph == S.Quiet)
    && (s.req.pending <==> s.req.calling || S.Owner(ph) == Some(c))
    && Carries(s.req.e, c, Last(s.tree.done, c)) && Kept(s, c)
  }

  // ------------------------------------------------------------ the completion events

  /** With no completion event under way there is nothing to carry. */
  lemma NothingCarried(e: Engine, c: nat, last: Option<T.Completion>)
    requires Live(e, R.IsFor(R.COMPLETION, c)) == 0
    ensures Carries(e, c, last)
  {
    CountZero(e.ready, R.IsFor(R.COMPLETION, c));
    CountZero(e.isr, R.IsFor(R.COMPLETION, c));
  }

  lemma ApartCarries(e: Engine, t: Engine, c: nat, last: Option<T.Completion>)
    requires R.Apart(e, t, c) && Carries(e, c, last)
    ensures Carries(t, c, last)
  {
  }

  lemma OtherCarries(r: R.System, c: nat, m: Move, last: Option<T.Completion>)
    requires R.Inv(r, c) && R.Enabled(r, c, R.Other(m)) && Carries(r.e, c, last)
    ensures Carries(Apply(r.e, m), c, last)
  {
    if !m.Dispatch? && !m.PullIsr? {
      R.ForeignApart(r, c, m);
      hide Apply;
      ApartCarries(r.e, Apply(r.e, m), c, last);
    }
  }

  lemma PostCarries(r: R.System, c: nat, last: Option<T.Completion>)
    requires R.Inv(r, c) && R.Enabled(r, c, R.PostRequest) && Carries(r.e, c, last)
    ensures Carries(R.Do(r, c, R.PostRequest).e, c, last)
  {
    hide Events.Post, Unique, Live;
    var x := R.PostQueues(r.e, R.RequestEvent(c, r.requester), false, c);
  }

  lemma CompleteCarries(r: R.System, c: nat, last: T.Completion)
    requires R.Inv(r, c) && Room(r, c) && Live(r.e, R.IsFor(R.COMPLETION, c)) == 0
    ensures Carries(Complete(r, c, last.status).e, c, Some(last))
  {
    NothingCarried(r.e, c, Some(last));
    hide Events.Post, Unique, Live;
    var x := R.PostQueues(r.e, R.CompletionEvent(c, c, last.status), false, c);
  }

  // ------------------------------------------------------------ every step

  /** What one event of the tree means for c: its completion is given exactly when it stops being owed. */
  lemma GivenIff(s: T.State, t: T.State, ph: S.Phase, nx: S.Phase, c: nat)
    requires S.Answers(s, t, ph, nx)
    ensures Given(s, t, c).Some? <==> S.Owner(ph) == Some(c) && S.Owner(nx) != Some(c)
    ensures S.Owner(ph) != Some(c) ==> S.Owner(nx) != Some(c)
    ensures Last(t.done, c) == if Given(s, t, c).Some? then Given(s, t, c) else Last(s.done, c)
    ensures c < |s.starts| == |t.starts| && Given(s, t, c).None? ==> t.starts[c] == s.starts[c]
    ensures Given(s, t, c).Some? && Given(s, t, c).value.goal == T.Run && Given(s, t, c).value.status == SUCCESS ==>
      c < |s.starts| && t.starts == s.starts[c := s.starts[c] + 1]
  {
    if |t.done| > |s.done| {
      LastPush(s.done, t.done[|s.done|], c);
    }
  }

  lemma ProcessKeeps(p: Parents, s: System, c: nat, a: T.Answer, ph: S.Phase)
    requires Inv(p, s, c, ph) && Enabled(p, s, c, Process(a))
    ensures Inv(p, Do(p, s, c, Process(a)), c, S.Next(p, s.tree, ph, a))
  {
    hide T.Deliver, S.Waiting, S.Owned, S.InFlight, S.Counted, S.Alive, Unique, Live, R.Lined, R.Parked, Carries;
    var t, nx := T.Deliver(p, s.tree, a), S.Next(p, s.tree, ph, a);
    S.StepKeeps(p, s.tree, ph, a);
    GivenIff(s.tree, t, ph, nx, c);
    var given := Given(s.tree, t, c);
    if given.Some? {
      assert s.req.pending;
      R.CompleteKeeps(s.req, c, c, given.value.status, false);
      CompleteCarries(s.req, c, given.value);
    }
  }

  lemma PostKeeps(p: Parents, s: System, c: nat, goal: T.Goal, a: T.Answer, ph: S.Phase)
    requires Inv(p, s, c, ph) && Enabled(p, s, c, Post(goal, a))
    ensures Inv(p, Do(p, s, c, Post(goal, a)), c, S.Requested(p, c, goal))
  {
    hide S.Owned, S.InFlight, S.Counted, S.Alive, S.Ledger, Unique, Live, R.Lined, R.Parked, Carries, R.Do;
    S.RequestKeeps(p, s.tree, c, goal, a);
    U.RequestEffect(p, s.tree, c, goal, a);
    R.PostRequestKeeps(s.req, c);
    PostCarries(s.req, c, Last(s.tree.done, c));
    PostFields(s.req, c);
  }

  lemma PostFields(r: R.System, c: nat)
    requires R.Enabled(r, c, R.PostRequest)
    ensures var t := R.Do(r, c, R.PostRequest); t.ongoing && !t.calling && t.pending == r.pending
  {
  }

  lemma AskKeeps(p: Parents, s: System, c: nat, x: nat, goal: T.Goal, a: T.Answer, ph: S.Phase)
    requires Inv(p, s, c, ph) && Enabled(p, s, c, Ask(x, goal, a))
    ensures Inv(p, Do(p, s, c, Ask(x, goal, a)), c, S.Requested(p, x, goal))
  {
    hide S.Owned, S.InFlight, S.Counted, S.Alive, S.Ledger, Unique, Live, R.Lined, R.Parked, Carries;
    U.QuietOnly(p, s.tree, ph);
    S.RequestKeeps(p, s.tree, x, goal, a);
  }

  lemma EnterKeeps(p: Parents, s: System, c: nat, source: nat, ph: S.Phase)
    requires Inv(p, s, c, ph) && Enabled(p, s, c, Enter(source))
    ensures Inv(p, Do(p, s, c, Enter(source)), c, ph)
  {
    U.QuietOnly(p, s.tree, ph);
    hide S.Inv, Unique, Live, R.Lined, R.Parked, Carries;
    R.PendsKeeps(s.req, c, source);
  }

  lemma HandleRequestKeeps(p: Parents, s: System, c: nat, ph: S.Phase)
    requires Inv(p, s, c, ph) && Enabled(p, s, c, HandleRequest)
    ensures Inv(p, Do(p, s, c, HandleRequest), c, ph)
  {
    hide S.Inv, Unique, Live, R.Lined, R.Parked;
    R.HandleRequestKeeps(s.req, c);
  }

  lemma HandleCompletionKeeps(p: Parents, s: System, c: nat, ph: S.Phase)
    requires Inv(p, s, c, ph) && Enabled(p, s, c, HandleCompletion)
    ensures Inv(p, Do(p, s, c, HandleCompletion), c, ph)
  {
    hide S.Inv, Unique, Live, R.Lined, R.Parked, Carries;
    R.HandleCompletionKeeps(s.req, c);
    NothingCarried(R.Do(s.req, c, R.HandleCompletion).e, c, Last(s.tree.done, c));
  }

  lemma OtherKeeps(p: Parents, s: System, c: nat, m: Move, ph: S.Phase)
    requires Inv(p, s, c, ph) && Enabled(p, s, c, Other(m))
    ensures Inv(p, Do(p, s, c, Other(m)), c, ph)
  {
    hide S.Inv, Unique, R.Tallied, R.Lined, R.Parked, Apply, Carries;
    R.OtherKeeps(s.req, c, m);
    OtherCarries(s.req, c, m, Last(s.tree.done, c));
  }

  lemma StepKeeps(p: Parents, s: System, c: nat, st: Step, ph: S.Phase) returns (nx: S.Phase)
    requires Inv(p, s, c, ph) && Enabled(p, s, c, st)
    ensures Inv(p, Do(p, s, c, st), c, nx)
  {
    assert T.Shaped(p, s.tree);
    hide Inv, Do;
    nx := ph;
    match st {
      case Enter(source) => EnterKeeps(p, s, c, source, ph);
      case Post(goal, a) =>
        PostKeeps(p, s, c, goal, a, ph);
        nx := S.Requested(p, c, goal);
      case Ask(x, goal, a) =>
        AskKeeps(p, s, c, x, goal, a, ph);
        nx := S.Requested(p, x, goal);
      case Process(a) =>
        ProcessKeeps(p, s, c, a, ph);
        nx := S.Next(p, s.tree, ph, a);
      case HandleRequest => HandleRequestKeeps(p, s, c, ph);
      case HandleCompletion => HandleCompletionKeeps(p, s, c, ph);
      case Other(m) => OtherKeeps(p, s, c, m, ph);
    }
  }

  // ------------------------------------------------------------ runs

  ghost predicate Next(p: Parents, s: System, c: nat, st: Step, t: System) {
    T.Shaped(p, s.tree) && Enabled(p, s, c, st) && t == Do(p, s, c, st)
  }

  ghost predicate Run(p: Parents, c: nat, states: seq<System>, steps: seq<Step>) {
    && |states| == |steps| + 1
    && forall i, j :: 0 <= i < |steps| && j == i + 1 ==> Next(p, states[i], c, steps[i], states[j])
  }

  ghost predicate Booted(p: Parents, s: System, c: nat) {
    U.Booted(p, s.tree) && R.Booted(s.req, c) && c < |p| && !SingleNode(p, c)
  }

  lemma BootKeeps(p: Parents, s: System, c: nat)
    requires Booted(p, s, c)
    ensures Inv(p, s, c, S.Quiet)
  {
    U.BootKeeps(p, s.tree);
    R.BootKeeps(s.req, c);
    NothingCarried(s.req.e, c, Last(s.tree.done, c));
  }

  lemma {:induction false} RunKeeps(p: Parents, c: nat, states: seq<System>, steps: seq<Step>, i: nat) returns (ph: S.Phase)
    requires Run(p, c, states, steps) && Booted(p, states[0], c) && i <= |steps|
    ensures Inv(p, states[i], c, ph)
    decreases i
  {
    hide Inv, Do, Booted;
    if i == 0 {
      BootKeeps(p, states[0], c);
      ph := S.Quiet;
    } else {
      var mid := RunKeeps(p, c, states, steps, i - 1);
      assert Next(p, states[i - 1], c, steps[i - 1], states[i]);
      ph := StepKeeps(p, states[i - 1], c, steps[i - 1], mid);
    }
  }

  /** The step sends the requester of c its response, with the status of the last completion of c. */
  ghost predicate Responds(p: Parents, s: System, t: System, c: nat) {
    var n, last := |s.req.e.ready|, Last(s.tree.done, c);
    && t.req.answered == s.req.answered + 1 && !t.req.ongoing && t.tree == s.tree
    && |t.req.e.ready| == n + 1 && t.req.e.ready[..n] == s.req.e.ready
    && var r := t.req.e.ready[n];
       && r.target == s.req.requester && r.isResponse && r.id == R.REQUEST
       && last.Some? && r.params == last.value.status
       && (last.value.goal == T.Run && r.params == SUCCESS ==> Powered(p, t.tree, c))
  }

  /** The clock and all its ancestors run. */
  ghost predicate Powered(p: Parents, s: T.State, c: nat) {
    && Acyclic(p) && T.Shaped(p, s) && c < |p|
    && forall y :: 0 <= y < |p| && Above(p, y, c) ==> s.clocks[y].running
  }

  lemma CompletionResponds(p: Parents, s: System, c: nat, ph: S.Phase)
    requires Inv(p, s, c, ph) && Enabled(p, s, c, HandleCompletion)
    ensures Responds(p, s, Do(p, s, c, HandleCompletion), c)
  {
    hide S.Waiting, S.Owned, S.InFlight, S.Counted, S.Alive, Unique, R.Lined, R.Parked;
    R.HandleCompletionKeeps(s.req, c);
    var ev := R.CompletionFinds(s.req, c);
    if s.tree.starts[c] > 0 {
      U.StartedRuns(p, s.tree, ph, c);
    }
  }

  /**
   From the call to the response, in every run of both protocols together: the responses are
   the requests of c made, but for the one under way. That one is either with the tree, which
   has an event in flight for it, or has its one completion event under way; so once both are
   drained every request is answered. The response goes to the requester, once, with the
   status that the tree gave; a start is reported as successful while c and all its ancestors run.
   */
  lemma EveryCallAnswered(p: Parents, c: nat, states: seq<System>, steps: seq<Step>, i: nat)
    requires Run(p, c, states, steps) && Booted(p, states[0], c) && i <= |steps|
    ensures var s := states[i];
      && s.req.asked == s.req.answered + Bit(s.req.ongoing)
      && (s.req.ongoing <==> (s.req.pending && !s.req.calling) || Live(s.req.e, R.IsFor(R.COMPLETION, c)) == 1)
      && Live(s.req.e, R.IsFor(R.COMPLETION, c)) <= 1 - Bit(s.req.pending)
      && (s.req.pending && !s.req.calling ==> s.tree.queue != [] && c < |s.tree.clocks| && s.tree.clocks[c].initiator)
      && (i < |steps| && steps[i].HandleCompletion? ==> Responds(p, s, states[i + 1], c))
      && (i < |steps| && !steps[i].HandleCompletion? ==> states[i + 1].req.answered == s.req.answered)
  {
    var ph := RunKeeps(p, c, states, steps, i);
    var s := states[i];
    hide Do, Unique, Live, R.Lined, R.Parked, Carries, Responds;
    U.QuietOnly(p, s.tree, ph);
    if i < |steps| {
      assert Next(p, s, c, steps[i], states[i + 1]);
      if steps[i].HandleCompletion? {
        CompletionResponds(p, s, c, ph);
      } else {
        OthersSilent(p, s, c, steps[i]);
      }
    }
  }

  lemma OthersSilent(p: Parents, s: System, c: nat, st: Step)
    requires T.Shaped(p, s.tree) && Enabled(p, s, c, st) && !st.HandleCompletion?
    ensures Do(p, s, c, st).req.answered == s.req.answered
  {
  }
}
