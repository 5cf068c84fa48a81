/**
 Whole runs of the clock-tree protocol: what holds in every state, what a drained request
 has done, and how many events it took.
 */
module ClockTreeRuns {
  import opened Status
  import opened Forest
  import opened ClockTree
  import opened ClockTreeSafety

  // ------------------------------------------------------------ every state of every run

  /** A requester asks for a state, or the next queued event is processed. */
  datatype Move = Ask(x: nat, goal: Goal, a: Answer) | Process(a: Answer)

  /** Serialised: a request begins only when no pre-request event is in flight. */
  predicate Enabled(p: Parents, s: State, m: Move)
    requires Shaped(p, s)
  {
    match m
    case Ask(x, goal, _) => Permitted(p, s, x, goal)
    case Process(a) => s.queue != [] && Sound(a, s.queue[0].goal)
  }

  function Apply(p: Parents, s: State, m: Move): (t: State)
    requires Shaped(p, s) && Enabled(p, s, m)
    ensures Shaped(p, t)
  {
    match m
    case Ask(x, goal, a) => Request(p, s, x, goal, a)
    case Process(a) => Deliver(p, s, a)
  }

  predicate Legal(p: Parents, s: State, run: seq<Move>)
    requires Shaped(p, s)
    decreases |run|
  {
    run == [] || (Enabled(p, s, run[0]) && Legal(p, Apply(p, s, run[0]), run[1..]))
  }

  function Exec(p: Parents, s: State, run: seq<Move>): (t: State)
    requires Shaped(p, s) && Legal(p, s, run)
    ensures Shaped(p, t)
    decreases |run|
  {
    if run == [] then s else Exec(p, Apply(p, s, run[0]), run[1..])
  }

  /** After the tree is connected: idle, counts cover the running children, a running clock's parent runs. */
  ghost predicate Booted(p: Parents, s: State) {
    && Acyclic(p) && Shaped(p, s) && s.queue == [] && |p| + 1 < MAX_U32
    && (forall x :: 0 <= x < |p| ==>
          && s.starts[x] == 0 && !s.clocks[x].waiting && !s.clocks[x].initiator
          && s.clocks[x].ref == RunningChildren(p, s.clocks, x, |p|)
          && (p[x].Some? && s.clocks[x].running ==> s.clocks[p[x].value].running))
  }

  lemma BootKeeps(p: Parents, s: State)
    requires Booted(p, s)
    ensures Inv(p, s, Quiet)
  {
    forall x | 0 <= x < |p| && s.clocks[x].ref > 0
      ensures s.clocks[x].running
    {
      var y := CountWitness(p, s.clocks, x, |p|);
    }
  }

  lemma MoveKeeps(p: Parents, s: State, ph: Phase, m: Move) returns (nx: Phase)
    requires Inv(p, s, ph) && Enabled(p, s, m)
    ensures Inv(p, Apply(p, s, m), nx)
    ensures Loose(p, Apply(p, s, m)) == Loose(p, s) - Claimed(p, s, m)
  {
    hide Owned, InFlight, Counted, Alive, Ledger;
    match m {
      case Ask(x, goal, a) =>
        QuietOnly(p, s, ph);
        RequestKeeps(p, s, x, goal, a);
        nx := Requested(p, x, goal);
        RequestLoose(p, s, x, goal, a);
      case Process(a) =>
        StepKeeps(p, s, ph, a);
        nx := Next(p, s, ph, a);
        StepLoose(p, s, ph, a);
    }
  }

  /** The clocks without a reference to which the run gives one. */
  function ClaimedBy(p: Parents, s: State, run: seq<Move>): set<nat>
    requires Shaped(p, s) && Legal(p, s, run)
    decreases |run|
  {
    if run == [] then {} else Claimed(p, s, run[0]) + ClaimedBy(p, Apply(p, s, run[0]), run[1..])
  }

  function Claimed(p: Parents, s: State, m: Move): set<nat>
    requires Shaped(p, s)
  {
    if m.Process? && Takes(p, s, m.a) then {s.queue[0].target} else {}
  }

  lemma {:induction false} RunKeeps(p: Parents, s: State, ph: Phase, run: seq<Move>) returns (last: Phase)
    requires Inv(p, s, ph) && Legal(p, s, run)
    ensures Inv(p, Exec(p, s, run), last)
    ensures Loose(p, Exec(p, s, run)) == Loose(p, s) - ClaimedBy(p, s, run)
    decreases |run|
  {
    if run == [] {
      last := ph;
    } else {
      hide Inv, Loose, Claimed;
      var nx := MoveKeeps(p, s, ph, run[0]);
      last := RunKeeps(p, Apply(p, s, run[0]), nx, run[1..]);
    }
  }

  lemma QuietOnly(p: Parents, s: State, ph: Phase)
    requires Inv(p, s, ph)
    ensures s.queue == [] <==> ph == Quiet
  {
  }

  lemma DeliverFrame(p: Parents, s: State, a: Answer)
    requires Shaped(p, s) && s.queue != []
    ensures var x, t := s.queue[0].target, Deliver(p, s, a); t.clocks == s.clocks[x := t.clocks[x]]
  {
  }

  lemma HeadInTree(p: Parents, s: State, ph: Phase)
    requires Traffic(p, s, ph) && s.queue != []
    ensures !SingleNode(p, s.queue[0].target)
  {
  }

  /** The event at the head of the queue gives a reference to a running clock that had none. */
  predicate Takes(p: Parents, s: State, a: Answer) {
    && Shaped(p, s) && s.queue != []
    && s.queue[0].goal == Run && a.getStatus == SUCCESS
    && !s.clocks[s.queue[0].target].waiting && s.queue[0].target in Loose(p, s)
  }

  /** An event changes the clocks without a reference by taking out the one to which it gives one, and not otherwise. */
  lemma StepLoose(p: Parents, s: State, ph: Phase, a: Answer)
    requires Inv(p, s, ph) && s.queue != [] && Sound(a, s.queue[0].goal)
    ensures Loose(p, Deliver(p, s, a)) == Loose(p, s) - (if Takes(p, s, a) then {s.queue[0].target} else {})
  {
    hide Deliver, Waiting, Owned, InFlight, Counted, Alive, Ledger;
    var x, t := s.queue[0].target, Deliver(p, s, a);
    HeadFacts(p, s, ph);
    RefBound(p, s, ph, x);
    DeliverFrame(p, s, a);
    DriveLoose(p, s, a);
  }

  lemma HeadFacts(p: Parents, s: State, ph: Phase)
    requires Inv(p, s, ph) && s.queue != []
    ensures var m := s.queue[0];
      && !SingleNode(p, m.target) && m.goal != OtherGoal
      && (s.clocks[m.target].waiting ==> !s.clocks[m.target].running)
      && (m.goal == Halt ==> s.clocks[m.target].ref > 0)
  {
    if s.queue[0].goal == Halt {
      RefBound(p, s, ph, s.queue[0].target);
    }
  }

  lemma DriveLoose(p: Parents, s: State, a: Answer)
    requires Shaped(p, s) && s.queue != [] && Sound(a, s.queue[0].goal) && s.queue[0].goal != OtherGoal
    requires var c := s.clocks[s.queue[0].target];
      0 <= c.ref < MAX_U32 && (c.waiting ==> !c.running) && (s.queue[0].goal == Halt ==> c.ref > 0)
    ensures var m := s.queue[0];
      var c, d := s.clocks[m.target], Deliver(p, s, a).clocks[m.target];
      d.running && d.ref == 0 <==> c.running && c.ref == 0 && (m.goal == Halt || a.getStatus != SUCCESS)
  {
  }

  lemma RequestLoose(p: Parents, s: State, x: nat, goal: Goal, a: Answer)
    requires Shaped(p, s) && x < |p|
    ensures Loose(p, Request(p, s, x, goal, a)) == Loose(p, s)
  {
  }

  /** A running clock's ancestors all run, also while events are in flight. */
  lemma {:induction false} AncestorsRun(p: Parents, s: State, ph: Phase, a: nat, x: nat)
    requires Accounts(p, s, ph) && a < |p| && x < |p| && Above(p, a, x) && s.clocks[x].running
    ensures s.clocks[a].running
    decreases Depth(p, x)
  {
    if a != x {
      DepthStep(p, x);
      CountChild(p, s.clocks, p[x].value, x, |p|);
      assert s.clocks[p[x].value].ref > 0;
      AncestorsRun(p, s, ph, a, p[x].value);
    }
  }

  /** What holds in every state, in flight or not. */
  ghost predicate Safe(p: Parents, t: State)
    requires Acyclic(p) && Shaped(p, t)
  {
    && (forall a, x :: 0 <= a < |p| && 0 <= x < |p| && Above(p, a, x) && t.clocks[x].running ==> t.clocks[a].running)
    && (forall x :: 0 <= x < |p| && t.clocks[x].ref > 0 ==> t.clocks[x].running)
    && (exists path :: Waiting(p, t, path) && (path != [] ==> t.clocks[path[0]].initiator))
    && (t.queue != [] && t.clocks[t.queue[0].target].waiting ==> FromParent(p, t.queue[0]))
    && (t.queue == [] ==> Settled(p, t))
  }

  predicate FromParent(p: Parents, m: Msg)
    requires m.target < |p|
  {
    p[m.target].Some? && m.source == ClockId(p[m.target].value)
  }

  ghost predicate Settled(p: Parents, t: State)
    requires Shaped(p, t)
  {
    forall x :: 0 <= x < |p| ==>
      && t.clocks[x].ref == t.starts[x] + RunningChildren(p, t.clocks, x, |p|)
      && !t.clocks[x].waiting && !t.clocks[x].initiator
  }

  lemma InvIsSafe(p: Parents, t: State, ph: Phase)
    requires Inv(p, t, ph)
    ensures Safe(p, t)
  {
    forall a, x | 0 <= a < |p| && 0 <= x < |p| && Above(p, a, x) && t.clocks[x].running
      ensures t.clocks[a].running
    {
      AncestorsRun(p, t, ph, a, x);
    }
    assert Waiting(p, t, PathOf(ph)) && (PathOf(ph) != [] ==> Owner(ph) == Some(PathOf(ph)[0]));
    QuietOnly(p, t, ph);
    if t.queue != [] && t.clocks[t.queue[0].target].waiting {
      HeadFromParent(p, t, ph);
    }
  }

  /**
   Every state of every serialised run from boot: a running clock has running ancestors, a
   counted clock runs, and whenever no event is in flight the count is exactly the
   outstanding starts plus the running children. The waiting clocks form one upward path of
   stopped clocks from the requested one, and an event that reaches a waiting clock comes from its parent, so the
   answer BUSY is never given.
   */
  lemma EveryState(p: Parents, s: State, run: seq<Move>)
    requires Booted(p, s) && Legal(p, s, run)
    ensures Safe(p, Exec(p, s, run))
  {
    BootKeeps(p, s);
    var ph := RunKeeps(p, s, Quiet, run);
    InvIsSafe(p, Exec(p, s, run), ph);
  }

  lemma HeadFromParent(p: Parents, s: State, ph: Phase)
    requires Traffic(p, s, ph) && s.queue != [] && s.clocks[s.queue[0].target].waiting
    ensures FromParent(p, s.queue[0])
  {
    if ph.Climb? {
      assert false;
    }
  }

  // ------------------------------------------------------------ the state is what the ledger demands

  /** Some clock at or below x has an outstanding start, or runs without a reference. */
  ghost predicate Needed(p: Parents, starts: seq<int>, loose: set<nat>, x: nat)
    requires Acyclic(p) && |starts| == |p| && x < |p|
  {
    exists d :: 0 <= d < |p| && (starts[d] > 0 || d in loose) && Above(p, x, d)
  }

  lemma {:induction false} RunningIsNeeded(p: Parents, s: State, x: nat)
    requires Accounts(p, s, Quiet) && x < |p| && !SingleNode(p, x) && s.clocks[x].running
    ensures Needed(p, s.starts, Loose(p, s), x)
    decreases |p| - Depth(p, x)
  {
    if s.starts[x] > 0 || s.clocks[x].ref == 0 {
      assert x in Loose(p, s) || s.starts[x] > 0;
      assert Above(p, x, x);
    } else {
      RefBound(p, s, Quiet, x);
      var y := CountWitness(p, s.clocks, x, |p|);
      DepthStep(p, x);
      DepthStep(p, y);
      RunningIsNeeded(p, s, y);
      var d :| 0 <= d < |p| && (s.starts[d] > 0 || d in Loose(p, s)) && Above(p, y, d);
      AboveStep(p, x, y, d);
    }
  }

  lemma {:induction false} AboveStep(p: Parents, x: nat, y: nat, d: nat)
    requires Acyclic(p) && x < |p| && y < |p| && d < |p| && p[y] == Some(x) && Above(p, y, d)
    ensures Above(p, x, d)
    decreases Depth(p, d)
  {
    DepthStep(p, d);
    if y == d {
      assert Above(p, x, x);
    } else {
      AboveStep(p, x, y, p[d].value);
    }
  }

  /**
   With no event in flight, a tree clock runs exactly when at or below it a start is
   outstanding or a clock runs without a reference, and its count is its own starts plus its
   running children: drivers and counts are a function of the ledger and of those clocks.
   */
  lemma QuietState(p: Parents, s: State, x: nat)
    requires Accounts(p, s, Quiet) && x < |p| && !SingleNode(p, x)
    ensures s.clocks[x].running <==> Needed(p, s.starts, Loose(p, s), x)
    ensures s.clocks[x].running && x !in Loose(p, s) <==> s.clocks[x].ref > 0
    ensures s.clocks[x].ref == s.starts[x] + RunningChildren(p, s.clocks, x, |p|)
  {
    RefBound(p, s, Quiet, x);
    if s.clocks[x].running {
      RunningIsNeeded(p, s, x);
    }
    if Needed(p, s.starts, Loose(p, s), x) {
      var d :| 0 <= d < |p| && (s.starts[d] > 0 || d in Loose(p, s)) && Above(p, x, d);
      assert s.starts[d] > 0 ==> s.clocks[d].ref > 0;
      AncestorsRun(p, s, Quiet, x, d);
    }
  }

  lemma {:induction false} CountSame(p: Parents, c: seq<Clock>, d: seq<Clock>, x: nat, n: nat)
    requires n <= |p| == |c| == |d|
    requires forall y :: 0 <= y < n && p[y] == Some(x) ==> c[y].running == d[y].running
    ensures RunningChildren(p, c, x, n) == RunningChildren(p, d, x, n)
    decreases n
  {
    if n > 0 {
      CountSame(p, c, d, x, n - 1);
    }
  }

  lemma SameLedgerSameState(p: Parents, s: State, t: State)
    requires Accounts(p, s, Quiet) && Accounts(p, t, Quiet) && s.starts == t.starts && Loose(p, s) == Loose(p, t)
    ensures forall x :: 0 <= x < |p| && !SingleNode(p, x) ==>
      s.clocks[x].running == t.clocks[x].running && s.clocks[x].ref == t.clocks[x].ref
  {
    forall x | 0 <= x < |p| && !SingleNode(p, x)
      ensures s.clocks[x].running == t.clocks[x].running
    {
      QuietState(p, s, x);
      QuietState(p, t, x);
    }
    forall x | 0 <= x < |p| && !SingleNode(p, x)
      ensures s.clocks[x].ref == t.clocks[x].ref
    {
      forall y | 0 <= y < |p| && p[y] == Some(x)
        ensures s.clocks[y].running == t.clocks[y].running
      {
        assert !SingleNode(p, y);
      }
      CountSame(p, s.clocks, t.clocks, x, |p|);
      QuietState(p, s, x);
      QuietState(p, t, x);
    }
  }

  /**
   The drained states of all runs from any boot are what the ledger demands, together with
   the clocks left running at boot to which no start has given a reference since.
   */
  lemma EveryQuietState(p: Parents, s: State, run: seq<Move>, x: nat)
    requires Booted(p, s) && Legal(p, s, run) && Exec(p, s, run).queue == []
    requires x < |p| && !SingleNode(p, x)
    ensures var t, loose := Exec(p, s, run), Loose(p, s) - ClaimedBy(p, s, run);
      && (t.clocks[x].running <==> Needed(p, t.starts, loose, x))
      && (t.clocks[x].running && x !in loose <==> t.clocks[x].ref > 0)
      && t.clocks[x].ref == t.starts[x] + RunningChildren(p, t.clocks, x, |p|)
  {
    BootKeeps(p, s);
    var ph := RunKeeps(p, s, Quiet, run);
    QuietOnly(p, Exec(p, s, run), ph);
    QuietState(p, Exec(p, s, run), x);
  }

  /** At boot those are the running tree clocks none of whose children runs: none, if the tree starts stopped. */
  lemma LooseAtBoot(p: Parents, s: State, x: nat)
    requires Booted(p, s) && x < |p| && !SingleNode(p, x)
    ensures x in Loose(p, s) <==> s.clocks[x].running && forall y :: 0 <= y < |p| && p[y] == Some(x) ==> !s.clocks[y].running
  {
    if RunningChildren(p, s.clocks, x, |p|) > 0 {
      var y := CountWitness(p, s.clocks, x, |p|);
    }
    forall y | 0 <= y < |p| && p[y] == Some(x) && s.clocks[y].running
      ensures RunningChildren(p, s.clocks, x, |p|) > 0
    {
      CountChild(p, s.clocks, x, y, |p|);
    }
  }

  // ------------------------------------------------------------ clocks outside the tree

  /** The last request of the single-node clock x that its driver obeyed. */
  function LastObeyed(x: nat, run: seq<Move>): Option<Goal> {
    if run == [] then None
    else
      var m := run[|run| - 1];
      if m.Ask? && m.x == x && m.a.setStatus == SUCCESS then Some(m.goal) else LastObeyed(x, run[..|run| - 1])
  }

  lemma {:induction false} LastObeyedFirst(x: nat, m: Move, run: seq<Move>)
    ensures LastObeyed(x, [m] + run) == if LastObeyed(x, run).Some? then LastObeyed(x, run) else LastObeyed(x, [m])
  {
    if run == [] {
      assert [m] + run == [m];
    } else {
      assert ([m] + run)[..|run|] == [m] + run[..|run| - 1];
      LastObeyedFirst(x, m, run[..|run| - 1]);
    }
  }

  /** One request or event, seen from a single-node clock. */
  lemma SingleMove(p: Parents, s: State, ph: Phase, m: Move, x: nat)
    requires Inv(p, s, ph) && Enabled(p, s, m) && x < |p| && SingleNode(p, x)
    ensures var c := Apply(p, s, m).clocks[x];
      && (c.running <==> if LastObeyed(x, [m]).Some? then LastObeyed(x, [m]) == Some(Run) else s.clocks[x].running)
      && c.ref == s.clocks[x].ref && !c.waiting && !c.initiator
  {
    hide Deliver, InFlight, Counted, Alive, Ledger;
    SingleIdle(p, s, ph, x);
    match m
    case Ask(y, goal, a) =>
    case Process(a) => StepSingles(p, s, ph, a);
  }

  lemma SingleIdle(p: Parents, s: State, ph: Phase, x: nat)
    requires Traffic(p, s, ph) && x < |p| && SingleNode(p, x)
    ensures !s.clocks[x].waiting && !s.clocks[x].initiator
  {
  }

  /**
   Over every run a single-node clock is left as the tree found it, and runs if and only if the
   last request that its driver obeyed was a start, or there was none and it ran before.
   */
  lemma {:induction false} SingleFollowsRequests(p: Parents, s: State, ph: Phase, run: seq<Move>, x: nat)
    requires Inv(p, s, ph) && Legal(p, s, run) && x < |p| && SingleNode(p, x)
    ensures var c := Exec(p, s, run).clocks[x];
      && (c.running <==> if LastObeyed(x, run).Some? then LastObeyed(x, run) == Some(Run) else s.clocks[x].running)
      && c.ref == s.clocks[x].ref && !c.waiting && !c.initiator
    decreases |run|
  {
    SingleIdle(p, s, ph, x);
    if run != [] {
      hide Inv;
      SingleMove(p, s, ph, run[0], x);
      var nx := MoveKeeps(p, s, ph, run[0]);
      SingleFollowsRequests(p, Apply(p, s, run[0]), nx, run[1..], x);
      LastObeyedFirst(x, run[0], run[1..]);
      assert [run[0]] + run[1..] == run;
    }
  }

  // ------------------------------------------------------------ the events of one request

  /** One queued event is processed, with driver answer a. */
  ghost predicate Step(p: Parents, s: State, a: Answer, t: State) {
    Shaped(p, s) && s.queue != [] && Sound(a, s.queue[0].goal) && t == Deliver(p, s, a)
  }

  /** The states that the queued events lead through, one driver answer each. */
  ghost predicate Trace(p: Parents, states: seq<State>, answers: seq<Answer>) {
    && |states| == |answers| + 1
    && (forall i :: 0 <= i < |states| ==> Shaped(p, states[i]))
    && forall i, j :: 0 <= i < |answers| && j == i + 1 ==> Step(p, states[i], answers[i], states[j])
  }

  function Level(p: Parents, x: nat): nat
    requires Acyclic(p)
  {
    if x < |p| then Depth(p, x) else 0
  }

  /** Events still to be processed, at most. */
  function Measure(p: Parents, ph: Phase): nat
    requires Acyclic(p)
  {
    match ph
    case Quiet => 0
    case Climb(path, at) => 2 * |path| + 3 * Level(p, at) + 3
    case Grant(path) => 2 * |path| + (if path == [] then 0 else Level(p, path[|path| - 1]))
    case Refuse(path, undo, _) => |path| + (if undo.Some? then Level(p, undo.value) + 1 else 0)
    case Drop(q, _) => Level(p, q) + 1
  }

  lemma GrantDecreases(p: Parents, s: State, path: seq<nat>, a: Answer)
    requires Acyclic(p) && Shaped(p, s) && path != [] && path[|path| - 1] < |p| && p[path[|path| - 1]].Some?
    requires |path| > 1 ==> path[|path| - 2] < |p| && p[path[|path| - 2]] == Some(path[|path| - 1])
    ensures Measure(p, Next(p, s, Grant(path), a)) < Measure(p, Grant(path))
  {
    DepthStep(p, path[|path| - 1]);
    if |path| > 1 {
      DepthStep(p, path[|path| - 2]);
    }
  }

  lemma ClimbDecreases(p: Parents, s: State, path: seq<nat>, at: nat, a: Answer)
    requires Acyclic(p) && Shaped(p, s) && at < |p|
    requires path != [] ==> path[|path| - 1] < |p| && p[path[|path| - 1]] == Some(at)
    ensures Measure(p, Next(p, s, Climb(path, at), a)) < Measure(p, Climb(path, at))
  {
    DepthStep(p, at);
    if path != [] {
      DepthStep(p, path[|path| - 1]);
    }
  }

  lemma DropDecreases(p: Parents, s: State, q: nat)
    requires Acyclic(p) && Shaped(p, s) && q < |p|
    ensures AfterDrop(p, s, q).Some? ==> Level(p, AfterDrop(p, s, q).value) < Level(p, q)
  {
    DepthStep(p, q);
  }

  lemma RefuseDecreases(p: Parents, s: State, path: seq<nat>, undo: Option<nat>, ahead: bool, a: Answer)
    requires Acyclic(p) && Shaped(p, s) && path != [] && (undo.Some? ==> undo.value < |p|)
    ensures Measure(p, Next(p, s, Refuse(path, undo, ahead), a)) < Measure(p, Refuse(path, undo, ahead))
  {
    if undo.Some? {
      DropDecreases(p, s, undo.value);
    }
  }

  lemma StepDecreases(p: Parents, s: State, ph: Phase, a: Answer)
    requires Traffic(p, s, ph) && s.queue != []
    ensures Measure(p, Next(p, s, ph, a)) < Measure(p, ph)
  {
    match ph
    case Grant(path) => GrantDecreases(p, s, path, a);
    case Climb(path, at) => ClimbDecreases(p, s, path, at, a);
    case Drop(q, _) => DropDecreases(p, s, q);
    case Refuse(path, undo, ahead) => RefuseDecreases(p, s, path, undo, ahead, a);
  }

  /** A request that owes one completion is answered once, over any number of events. */
  lemma AnswersThen(s: State, u: State, t: State, ph: Phase, nx: Phase, last: Phase)
    requires Answers(s, u, ph, nx) && Answers(u, t, nx, last)
    requires (nx == ph || Follows(ph, nx)) && Follows(nx, last)
    ensures Answers(s, t, ph, last) && Follows(ph, last)
  {
  }

  /** Only the request itself owes a completion for a stop, and a stop leads to stops only. */
  predicate Follows(ph: Phase, nx: Phase) {
    (nx.Drop? ==> !nx.asked) && (ph.Drop? || ph.Quiet? ==> nx.Drop? || nx.Quiet?)
  }

  /** Clocks outside the tree protocol are left alone. */
  ghost predicate SameSingles(p: Parents, s: State, t: State)
    requires Shaped(p, s) && Shaped(p, t)
  {
    forall y :: 0 <= y < |p| && SingleNode(p, y) ==> t.clocks[y] == s.clocks[y]
  }

  lemma StepSingles(p: Parents, s: State, ph: Phase, a: Answer)
    requires Traffic(p, s, ph) && s.queue != []
    ensures SameSingles(p, s, Deliver(p, s, a))
  {
    DeliverFrame(p, s, a);
    HeadInTree(p, s, ph);
  }

  lemma StepAll(p: Parents, s: State, ph: Phase, a: Answer, t: State) returns (nx: Phase)
    requires Inv(p, s, ph) && Step(p, s, a, t)
    ensures Inv(p, t, nx) && Answers(s, t, ph, nx)
    ensures Measure(p, nx) < Measure(p, ph) && Follows(ph, nx) && SameSingles(p, s, t)
  {
    hide Deliver, Waiting, Owned, InFlight, Counted, Alive, Ledger;
    nx := Next(p, s, ph, a);
    StepKeeps(p, s, ph, a);
    StepDecreases(p, s, ph, a);
    StepSingles(p, s, ph, a);
  }

  lemma {:induction false} TraceKeeps(p: Parents, ph: Phase, states: seq<State>, answers: seq<Answer>, k: nat) returns (last: Phase)
    requires Trace(p, states, answers) && k <= |answers| && Inv(p, states[0], ph)
    ensures Inv(p, states[k], last) && Answers(states[0], states[k], ph, last)
    ensures Measure(p, last) + k <= Measure(p, ph) && (last == ph || Follows(ph, last))
    ensures SameSingles(p, states[0], states[k])
    decreases k
  {
    hide Inv, Deliver, Measure, Acyclic;
    if k == 0 {
      last := ph;
    } else {
      var mid := TraceKeeps(p, ph, states, answers, k - 1);
      assert Step(p, states[k - 1], answers[k - 1], states[k]);
      last := StepAll(p, states[k - 1], mid, answers[k - 1], states[k]);
      AnswersThen(states[0], states[k - 1], states[k], ph, mid, last);
    }
  }

  /** Some event of the trace gives a reference to a running clock that had none. */
  ghost predicate Taken(p: Parents, states: seq<State>, answers: seq<Answer>) {
    exists i :: 0 <= i < |answers| && i < |states| && Takes(p, states[i], answers[i])
  }

  lemma {:induction false} TraceLoose(p: Parents, ph: Phase, states: seq<State>, answers: seq<Answer>, k: nat)
    requires Trace(p, states, answers) && k <= |answers| && Inv(p, states[0], ph)
    ensures Loose(p, states[k]) <= Loose(p, states[0])
    ensures forall i :: 0 <= i < k && Takes(p, states[i], answers[i]) ==>
      states[i].queue[0].target in Loose(p, states[0]) - Loose(p, states[k])
    ensures (forall i :: 0 <= i < k ==> !Takes(p, states[i], answers[i])) ==> Loose(p, states[k]) == Loose(p, states[0])
    decreases k
  {
    hide Inv, Deliver, Loose, Takes, Measure, Answers, SameSingles, Acyclic;
    if k > 0 {
      TraceLoose(p, ph, states, answers, k - 1);
      var mid := TraceKeeps(p, ph, states, answers, k - 1);
      assert Step(p, states[k - 1], answers[k - 1], states[k]);
      StepLoose(p, states[k - 1], mid, answers[k - 1]);
      TakesLoose(p, states[k - 1], answers[k - 1]);
    }
  }

  lemma TakesLoose(p: Parents, s: State, a: Answer)
    requires Shaped(p, s) && s.queue != []
    ensures Takes(p, s, a) ==> s.queue[0].target in Loose(p, s)
  {
  }

  /** The events that follow a request to a tree clock x in a quiet state, up to some point. */
  ghost predicate Requesting(p: Parents, s: State, x: nat, goal: Goal, states: seq<State>, answers: seq<Answer>) {
    exists a: Answer ::
      && Inv(p, s, Quiet) && Permitted(p, s, x, goal) && !SingleNode(p, x)
      && Trace(p, states, answers) && states[0] == Request(p, s, x, goal, a)
  }

  lemma RequestEffect(p: Parents, s: State, x: nat, goal: Goal, a: Answer)
    requires Shaped(p, s) && x < |p| && !SingleNode(p, x) && !s.clocks[x].waiting
    ensures var u := Request(p, s, x, goal, a);
      && u.done == s.done && SameSingles(p, s, u)
      && u.starts == if goal == Halt then s.starts[x := s.starts[x] - 1] else s.starts
  {
  }

  lemma RequestLast(p: Parents, s: State, x: nat, goal: Goal, states: seq<State>, answers: seq<Answer>) returns (last: Phase)
    requires Requesting(p, s, x, goal, states, answers)
    ensures var t := states[|answers|];
      && Inv(p, t, last) && Measure(p, last) + |answers| <= Measure(p, Requested(p, x, goal))
      && Answers(states[0], t, Requested(p, x, goal), last) && (t.queue == [] <==> last == Quiet)
    ensures states[0].done == s.done
    ensures states[0].starts == if goal == Halt then s.starts[x := s.starts[x] - 1] else s.starts
    ensures SameSingles(p, s, states[|answers|])
  {
    hide Owned, InFlight, Counted, Alive, Ledger;
    var a: Answer :| states[0] == Request(p, s, x, goal, a);
    RequestEffect(p, s, x, goal, a);
    RequestKeeps(p, s, x, goal, a);
    last := TraceKeeps(p, Requested(p, x, goal), states, answers, |answers|);
    QuietOnly(p, states[|answers|], last);
  }

  /** The traffic of a request is linear in the depth of its clock: three events a level to start, one to stop. */
  lemma TrafficIsLinear(p: Parents, s: State, x: nat, goal: Goal, states: seq<State>, answers: seq<Answer>)
    requires Requesting(p, s, x, goal, states, answers)
    ensures |answers| <= if goal == Run then 3 * Depth(p, x) + 3 else Depth(p, x) + 1
  {
    var last := RequestLast(p, s, x, goal, states, answers);
  }

  lemma StartedRuns(p: Parents, s: State, ph: Phase, x: nat)
    requires Accounts(p, s, ph) && x < |p| && s.starts[x] > 0
    ensures forall y :: 0 <= y < |p| && Above(p, y, x) ==> s.clocks[y].running
  {
    forall y | 0 <= y < |p| && Above(p, y, x)
      ensures s.clocks[y].running
    {
      AncestorsRun(p, s, ph, y, x);
    }
  }

  /** Every field of every clock, except who called it last, is the same. */
  ghost predicate SameClocks(p: Parents, s: State, t: State)
    requires Shaped(p, s) && Shaped(p, t)
  {
    forall y :: 0 <= y < |p| ==> t.clocks[y] == s.clocks[y].(caller := t.clocks[y].caller)
  }

  /**
   What a drained start leaves: exactly one completion. On success the ledger gains the start
   and the clock and all its ancestors run; on failure the ledger is as before.
   */
  ghost predicate Ended(p: Parents, s: State, t: State, x: nat, status: int)
    requires Acyclic(p) && Shaped(p, s) && Shaped(p, t) && x < |p|
  {
    && t.done == s.done + [Completion(x, Run, status)]
    && (status == SUCCESS ==>
          && t.starts == s.starts[x := s.starts[x] + 1]
          && forall y :: 0 <= y < |p| && Above(p, y, x) ==> t.clocks[y].running)
    && (status != SUCCESS ==> t.starts == s.starts)
  }

  /** Besides, on failure every clock is as before the request. */
  ghost predicate AllOrNothing(p: Parents, s: State, t: State, x: nat, status: int)
    requires Acyclic(p) && Shaped(p, s) && Shaped(p, t) && x < |p|
  {
    Ended(p, s, t, x, status) && (status != SUCCESS ==> SameClocks(p, s, t))
  }

  /** Nothing but the clocks without a reference tells two quiet states with the same starts apart. */
  lemma SameClocksIff(p: Parents, s: State, t: State)
    requires Inv(p, s, Quiet) && Inv(p, t, Quiet) && SameSingles(p, s, t) && s.starts == t.starts
    ensures SameClocks(p, s, t) <==> Loose(p, s) == Loose(p, t)
  {
    hide Counted, Alive, Ledger, InFlight;
    if Loose(p, s) == Loose(p, t) {
      SameLedgerSameState(p, s, t);
    }
  }

  lemma CompletedRun(s: State, u: State, t: State, x: nat)
    requires u.done == s.done && u.starts == s.starts && Answers(u, t, Climb([], x), Quiet)
    ensures |t.done| == |s.done| + 1 && t.done == s.done + [Completion(x, Run, t.done[|s.done|].status)]
    ensures x < |s.starts|
    ensures t.starts == if t.done[|s.done|].status == SUCCESS then s.starts[x := s.starts[x] + 1] else s.starts
  {
  }

  /**
   A drained start is completed once. It is all or nothing, whichever driver on the path
   refuses or cannot be queried, if and only if it succeeds or no event of it gave a
   reference to a clock left running without one.
   */
  lemma StartIsAllOrNothing(p: Parents, s: State, x: nat, states: seq<State>, answers: seq<Answer>) returns (status: int)
    requires Requesting(p, s, x, Run, states, answers) && states[|answers|].queue == []
    ensures Ended(p, s, states[|answers|], x, status)
    ensures AllOrNothing(p, s, states[|answers|], x, status) <==> status == SUCCESS || !Taken(p, states, answers)
  {
    hide Waiting, Owned, InFlight, Counted, Alive, Loose, Takes;
    var last := RequestLast(p, s, x, Run, states, answers);
    var t := states[|answers|];
    CompletedRun(s, states[0], t, x);
    status := t.done[|s.done|].status;
    if status == SUCCESS {
      StartedRuns(p, t, Quiet, x);
    } else {
      SameClocksIff(p, s, t);
      RequestTakes(p, s, x, states, answers);
    }
  }

  lemma RequestTakes(p: Parents, s: State, x: nat, states: seq<State>, answers: seq<Answer>)
    requires Requesting(p, s, x, Run, states, answers)
    ensures Loose(p, states[|answers|]) <= Loose(p, s)
    ensures Loose(p, states[|answers|]) == Loose(p, s) <==> !Taken(p, states, answers)
  {
    hide Waiting, Owned, InFlight, Counted, Alive, Ledger, Loose, Takes, Deliver;
    var a: Answer :| states[0] == Request(p, s, x, Run, a);
    RequestKeeps(p, s, x, Run, a);
    RequestLoose(p, s, x, Run, a);
    TraceLoose(p, Requested(p, x, Run), states, answers, |answers|);
  }

  /** Where every running tree clock has a reference, as when the tree is stopped at boot, all starts are all or nothing. */
  lemma NoneLoose(p: Parents, s: State, x: nat, states: seq<State>, answers: seq<Answer>) returns (status: int)
    requires Requesting(p, s, x, Run, states, answers) && states[|answers|].queue == [] && Loose(p, s) == {}
    ensures AllOrNothing(p, s, states[|answers|], x, status)
  {
    hide Inv, Loose, Takes, Deliver;
    status := StartIsAllOrNothing(p, s, x, states, answers);
    RequestTakes(p, s, x, states, answers);
  }

  /** A stop request, once drained, has succeeded, completed once and taken one start off the ledger. */
  lemma StopGivesBack(p: Parents, s: State, x: nat, states: seq<State>, answers: seq<Answer>)
    requires Requesting(p, s, x, Halt, states, answers) && states[|answers|].queue == []
    ensures var t := states[|answers|];
      t.done == s.done + [Completion(x, Halt, SUCCESS)] && t.starts == s.starts[x := s.starts[x] - 1]
  {
    var last := RequestLast(p, s, x, Halt, states, answers);
    assert Completed(states[0], states[|answers|], Drop(x, true), states[|answers|].done[|s.done|]);
  }

  /** At the very event that reports a start as successful, the clock and all its ancestors run. */
  lemma SuccessMeansRunning(p: Parents, s: State, ph: Phase, a: Answer, t: State, x: nat)
    requires Inv(p, s, ph) && Step(p, s, a, t) && t.done == s.done + [Completion(x, Run, SUCCESS)]
    ensures x < |p| && forall y :: 0 <= y < |p| && Above(p, y, x) ==> t.clocks[y].running
  {
    StepKeeps(p, s, ph, a);
    assert t.done[|s.done|] == Completion(x, Run, SUCCESS);
    StartedRuns(p, t, Next(p, s, ph, a), x);
  }

  // ------------------------------------------------------------ what drivers decide

  predicate Rising(ph: Phase) { ph.Climb? || ph.Grant? }

  /** The start goes on, or completes with success. */
  predicate Rises(s: State, t: State, ph: Phase, nx: Phase) {
    if nx == Quiet then Owner(ph).Some? && t.done == s.done + [Completion(Owner(ph).value, Run, SUCCESS)]
    else Rising(nx) && Owner(nx) == Owner(ph) && t.done == s.done
  }

  lemma ClimbRises(p: Parents, s: State, path: seq<nat>, x: nat, a: Answer)
    requires Inv(p, s, Climb(path, x)) && Sound(a, Run) && a.getStatus == SUCCESS && a.setStatus == SUCCESS
    ensures s.queue != [] && Rises(s, Deliver(p, s, a), Climb(path, x), Next(p, s, Climb(path, x), a))
  {
    ClimbFacts(p, s, path, x);
    ClimbEffect(p, s, path, x, a);
  }

  lemma GrantRises(p: Parents, s: State, path: seq<nat>, x: nat, a: Answer)
    requires Inv(p, s, Grant(path + [x])) && Sound(a, Run) && a.getStatus == SUCCESS && a.setStatus == SUCCESS
    ensures s.queue != [] && Rises(s, Deliver(p, s, a), Grant(path + [x]), Granted(path))
  {
    NoticeFacts(p, s, Grant(path + [x]), path, x, s.queue[0]);
    RefBound(p, s, Grant(path + [x]), x);
    assert s.queue == [s.queue[0]];
    GrantEffect(p, s, path, x, s.queue[0], a);
  }

  lemma RiseEffect(p: Parents, s: State, ph: Phase, a: Answer)
    requires Inv(p, s, ph) && Rising(ph) && Sound(a, Run) && a.getStatus == SUCCESS && a.setStatus == SUCCESS
    ensures s.queue != [] && Rises(s, Deliver(p, s, a), ph, Next(p, s, ph, a))
  {
    match ph
    case Climb(path, x) => ClimbRises(p, s, path, x, a);
    case Grant(path) =>
      SplitLast(path);
      GrantRises(p, s, path[..|path| - 1], path[|path| - 1], a);
  }

  /** A start of x that nobody refused so far: on its way, or completed with success. */
  ghost predicate Risen(p: Parents, x: nat, s: State, t: State, ph: Phase) {
    && Inv(p, t, ph)
    && if ph == Quiet then t.done == s.done + [Completion(x, Run, SUCCESS)]
       else Rising(ph) && Owner(ph) == Some(x) && t.done == s.done
  }

  lemma RiseStep(p: Parents, x: nat, s: State, u: State, a: Answer, t: State, ph: Phase) returns (nx: Phase)
    requires Risen(p, x, s, u, ph) && Step(p, u, a, t) && a.getStatus == SUCCESS && a.setStatus == SUCCESS
    ensures Risen(p, x, s, t, nx)
  {
    hide Deliver, Waiting, Owned, InFlight, Counted, Alive, Ledger;
    QuietOnly(p, u, ph);
    StepKeeps(p, u, ph, a);
    RiseEffect(p, u, ph, a);
    nx := Next(p, u, ph, a);
  }

  lemma {:induction false} RiseTrace(p: Parents, x: nat, states: seq<State>, answers: seq<Answer>, k: nat) returns (ph: Phase)
    requires Trace(p, states, answers) && k <= |answers| && Inv(p, states[0], Climb([], x))
    requires forall i :: 0 <= i < |answers| ==> answers[i].getStatus == SUCCESS && answers[i].setStatus == SUCCESS
    ensures Risen(p, x, states[0], states[k], ph)
    decreases k
  {
    if k == 0 {
      ph := Climb([], x);
    } else {
      hide Inv, Deliver;
      var mid := RiseTrace(p, x, states, answers, k - 1);
      assert Step(p, states[k - 1], answers[k - 1], states[k]);
      ph := RiseStep(p, x, states[0], states[k - 1], answers[k - 1], states[k], mid);
    }
  }

  /** If no driver refuses, the drained start has succeeded. */
  lemma WillingDriversSucceed(p: Parents, s: State, x: nat, states: seq<State>, answers: seq<Answer>)
    requires Requesting(p, s, x, Run, states, answers) && states[|answers|].queue == []
    requires forall i :: 0 <= i < |answers| ==> answers[i].getStatus == SUCCESS && answers[i].setStatus == SUCCESS
    ensures states[|answers|].done == s.done + [Completion(x, Run, SUCCESS)]
  {
    var a: Answer :| states[0] == Request(p, s, x, Run, a);
    RequestKeeps(p, s, x, Run, a);
    RequestEffect(p, s, x, Run, a);
    var ph := RiseTrace(p, x, states, answers, |answers|);
    QuietOnly(p, states[|answers|], ph);
  }
}
