/**
 Asynchronous clock requests over the event engine. The driver answers "pending", then the
 call queues a request event whose handler parks a delayed response; the driver (from an
 interrupt, possibly before the request event is queued) or the tree protocol (from a handler)
 queues a completion event, which must find that response and send it. One clock c is
 followed; everything else that happens in the system is arbitrary.
 */
module ClockRequests {
  import opened Status
  import opened Counting
  import opened Events
  import opened DelayedResponses

  const REQUEST: nat := 0
  const COMPLETION: nat := 1

  /**
   The engine and the request fields of clock c. While calling, the driver has answered
   "pending" and the call has not queued its request yet; while pending, the driver owes a
   completion. The rest is a tally: who asked, and how many requests and replies there were.
   */
  datatype System = System(
    e: Engine, ongoing: bool, cookie: int, calling: bool, pending: bool, requester: nat, asked: nat, answered: nat)

  function RequestEvent(c: nat, source: nat): Event {
    Event(0, source, c, 0, false, true, false, false, REQUEST, 0)
  }

  function CompletionEvent(c: nat, source: nat, params: int): Event {
    Event(0, source, c, 0, false, false, false, false, COMPLETION, params)
  }

  function IsFor(id: nat, c: nat): Event -> bool { (e: Event) => e.id == id && e.target == c }

  /** An event of the request protocol of clock c. */
  predicate InProtocol(ev: Event, c: nat) { IsFor(REQUEST, c)(ev) || IsFor(COMPLETION, c)(ev) }

  datatype Step =
    | DriverPends(source: nat)
    | PostRequest
    | CompleteInIsr(source: nat, params: int)
    | CompleteInThread(source: nat, params: int)
    | HandleRequest
    | HandleCompletion
    | Other(m: Move)

  /** A step of the rest of the system: it neither sends events of c's request protocol nor releases its response. */
  predicate Foreign(s: System, c: nat, m: Move) {
    && Ordinary(s.e, c, m) && !Releases(s.e, c, REQUEST, m)
    && match m
       case Call(ev, _) => !InProtocol(ev, c)
       case Interrupt(ev, _) => !InProtocol(ev, c)
       case Notify(ev, _) => !InProtocol(ev, c)
       case Return(reply) => s.e.current.Some? && !InProtocol(s.e.current.value, c) && !InProtocol(reply, c)
       case _ => true
  }

  predicate Enabled(s: System, c: nat, st: Step) {
    var e := s.e;
    && c < |e.parked| && (e.current.Some? ==> e.current.value.target < |e.parked|) && e.counter + 1 < WRAP
    && match st
       case DriverPends(source) => !s.ongoing && !s.calling && Caller(e, source) < |e.parked| && Caller(e, source) != c
       case PostRequest => s.calling && e.free != []
       case CompleteInIsr(source, _) => s.pending && e.free != [] && source < |e.parked|
       case CompleteInThread(source, _) => s.pending && !s.calling && e.free != [] && Caller(e, source) < |e.parked|
       case HandleRequest => !s.calling && e.current.Some? && IsFor(REQUEST, c)(e.current.value) && e.free != []
       case HandleCompletion => !s.calling && e.current.Some? && IsFor(COMPLETION, c)(e.current.value)
       // while the call is under way only interrupts strike
       case Other(m) => Events.Enabled(e, m) && Foreign(s, c, m) && (s.calling ==> InInterrupt(m))
  }

  function Do(s: System, c: nat, st: Step): System
    requires Enabled(s, c, st)
  {
    match st
    case DriverPends(source) => s.(calling := true, pending := true, requester := Caller(s.e, source))
    case PostRequest =>
      s.(e := Post(s.e, RequestEvent(c, s.requester), false, false).engine,
         ongoing := true, calling := false, asked := s.asked + 1)
    case CompleteInIsr(source, params) =>
      s.(e := Post(s.e, CompletionEvent(c, source, params), true, false).engine, pending := false)
    case CompleteInThread(source, params) =>
      s.(e := Post(s.e, CompletionEvent(c, source, params), false, false).engine, pending := false)
    case HandleRequest =>
      var ev := s.e.current.value;
      s.(e := Finish(s.e, Delayed(ev)), cookie := ev.cookie)
    case HandleCompletion =>
      var ev, q := s.e.current.value, s.e.parked[c];
      if Find(q, s.cookie) == |q| then s.(e := Finish(s.e, Response(ev)))
      else
        s.(e := Finish(Post(s.e, Completed(s.e, c, s.cookie, ev), false, false).engine, Response(ev)),
           ongoing := false, answered := s.answered + 1)
    case Other(m) => s.(e := Apply(s.e, m))
  }

  /** The response of a handler that will answer later. */
  function Delayed(ev: Event): Event { Response(ev).(isDelayed := true) }

  /** The parked response, with the result that the completion event carries. */
  function Completed(e: Engine, c: nat, cookie: int, ev: Event): Event
    requires c < |e.parked| && Find(e.parked[c], cookie) < |e.parked[c]|
  {
    e.parked[c][Find(e.parked[c], cookie)].(params := ev.params)
  }

  // ------------------------------------------------------------ the invariant

  /** Request events of c not yet handled. */
  function Requests(e: Engine, c: nat): nat { Live(e, IsFor(REQUEST, c)) }

  /** Completion events of c not yet handled, or still to be raised. */
  function Completions(s: System, c: nat): nat { Live(s.e, IsFor(COMPLETION, c)) + Bit(s.pending) }

  /** A request under way is owed exactly one completion; afterwards nothing is left behind. */
  ghost predicate Tallied(s: System, c: nat) {
    && s.asked == s.answered + Bit(s.ongoing) && !(s.calling && s.ongoing)
    && Completions(s, c) == Bit(s.calling || s.ongoing) && Requests(s.e, c) <= Bit(s.ongoing)
    && Unparked(s.e, c) && Count(s.e.isr, IsFor(REQUEST, c)) == 0
    && (s.calling || s.ongoing ==> s.requester != c)
    && (s.calling ==> s.requester < |s.e.parked| && (s.e.current.Some? ==> s.e.current.value.target == s.requester))
  }

  /** No event addressed to c by its request protocol waits among the delayed responses. */
  ghost predicate Unparked(e: Engine, c: nat) {
    CountAny(e.parked, IsFor(REQUEST, c)) == 0 && CountAny(e.parked, IsFor(COMPLETION, c)) == 0
  }

  predicate WellAsked(s: System, c: nat, ev: Event) {
    && (IsFor(REQUEST, c)(ev) ==> ev.responseRequested && ev.source == s.requester)
    && (IsFor(COMPLETION, c)(ev) ==> !ev.responseRequested)
    && (InProtocol(ev, c) ==> !ev.isNotification && !ev.isResponse)
  }

  /** No completion is ahead of its request. */
  ghost predicate Lined(s: System, c: nat) {
    && (forall i, j :: 0 <= i < j < |s.e.ready| && IsFor(COMPLETION, c)(s.e.ready[i]) ==> !IsFor(REQUEST, c)(s.e.ready[j]))
    && (s.e.current.Some? && IsFor(COMPLETION, c)(s.e.current.value) ==> Requests(s.e, c) == 0)
    && (s.calling ==> Count(s.e.ready, IsFor(COMPLETION, c)) == 0)
    && (forall i :: 0 <= i < |s.e.ready| ==> WellAsked(s, c, s.e.ready[i]))
    && (forall i :: 0 <= i < |s.e.isr| ==> WellAsked(s, c, s.e.isr[i]))
    && (s.e.current.Some? ==> WellAsked(s, c, s.e.current.value))
  }

  predicate Owed(s: System, ev: Event) {
    ev.isDelayed && ev.isResponse && !ev.isNotification && !ev.responseRequested
    && ev.id == REQUEST && ev.target == s.requester
  }

  /** Once its request event is handled, the response waits in the list of c under the saved cookie. */
  ghost predicate Parked(s: System, c: nat) {
    s.ongoing && Requests(s.e, c) == 0 ==> exists ev :: Held(s.e, c, s.cookie, ev) && Owed(s, ev)
  }

  ghost predicate Inv(s: System, c: nat) {
    Unique(s.e, c) && Tallied(s, c) && Lined(s, c) && Parked(s, c)
  }

  // ------------------------------------------------------------ steps apart from the protocol

  ghost predicate Grown(q: seq<Event>, r: seq<Event>, c: nat) {
    r == q || (|r| == |q| + 1 && r == q + [r[|q|]] && !InProtocol(r[|q|], c))
  }

  /** What a step that does not concern the request protocol of c does to the queues. */
  ghost predicate Apart(e: Engine, t: Engine, c: nat) {
    && |t.parked| == |e.parked| && Grown(e.ready, t.ready, c) && Grown(e.isr, t.isr, c) && Unparked(t, c)
    && (t.current == e.current || (t.current.None? && e.current.Some? && !InProtocol(e.current.value, c)))
  }

  lemma GrownCount(q: seq<Event>, r: seq<Event>, c: nat, id: nat)
    requires Grown(q, r, c) && (id == REQUEST || id == COMPLETION)
    ensures Count(r, IsFor(id, c)) == Count(q, IsFor(id, c))
  {
    if r != q {
      CountPush(q, r[|q|], IsFor(id, c));
    }
  }

  lemma PutApart(e: Engine, ev: Event, intr: bool, light: bool, c: nat)
    requires c < |e.parked| && ev.source < |e.parked| && !InProtocol(ev, c) && Unparked(e, c)
    ensures Apart(e, PutEvent(e, ev, intr, light).engine, c)
  {
    PutEffect(e, ev, intr, light);
    var t := PutEvent(e, ev, intr, light).engine;
    hide PutEvent;
    if Available(e, ev, light) {
      assert e.ready + [] == e.ready && e.isr + [] == e.isr;
      if !light && ev.isDelayed {
        var q, i := e.parked[ev.source], Find(e.parked[ev.source], ev.cookie);
        TakenApart(e, ev.source, i, c, REQUEST);
        TakenApart(e, ev.source, i, c, COMPLETION);
      }
    }
  }

  lemma TakenApart(e: Engine, j: nat, i: nat, c: nat, id: nat)
    requires j < |e.parked| && i < |e.parked[j]| && CountAny(e.parked, IsFor(id, c)) == 0
    ensures !IsFor(id, c)(e.parked[j][i])
    ensures CountAny(e.parked[j := Without(e.parked[j], i)], IsFor(id, c)) == 0
  {
    CountAnyAt(e.parked, j, IsFor(id, c));
    CountZero(e.parked[j], IsFor(id, c));
    CountWithout(e.parked[j], i, IsFor(id, c));
    CountAnyUpdate(e.parked, j, Without(e.parked[j], i), IsFor(id, c));
  }

  lemma FinishApart(e: Engine, reply: Event, c: nat)
    requires c < |e.parked| && e.current.Some? && reply.source < |e.parked| && Unparked(e, c)
    requires !InProtocol(e.current.value, c) && !InProtocol(reply, c)
    ensures Apart(e, Finish(e, reply), c)
  {
    var r := reply.(isResponse := true, responseRequested := false);
    if e.current.value.responseRequested && !reply.isDelayed {
      PutApart(e, r, false, false, c);
    } else if e.current.value.responseRequested && e.free != [] {
      var q, x := e.parked[r.source], Fill(e.free[0], r, false);
      CountPush(q, x, IsFor(REQUEST, c));
      CountPush(q, x, IsFor(COMPLETION, c));
      CountAnyUpdate(e.parked, r.source, q + [x], IsFor(REQUEST, c));
      CountAnyUpdate(e.parked, r.source, q + [x], IsFor(COMPLETION, c));
    }
  }

  /** A foreign step other than a dispatch or a pull. */
  lemma ForeignApart(s: System, c: nat, m: Move)
    requires Enabled(s, c, Other(m)) && !m.Dispatch? && !m.PullIsr? && Unparked(s.e, c)
    ensures Apart(s.e, Apply(s.e, m), c)
  {
    hide PutEvent, Finish;
    var e := s.e;
    match m
    case Call(ev, light) =>
      if Caller(e, ev.source) < |e.parked| {
        PutApart(e, ev.(source := Caller(e, ev.source)), false, light, c);
      }
    case Interrupt(ev, light) =>
      if ev.source < |e.parked| {
        PutApart(e, ev, true, light, c);
      }
    case Notify(ev, intr) => PutApart(e, ev.(isResponse := false, isNotification := true), intr, false, c);
    case Return(reply) => FinishApart(e, reply, c);
  }

  lemma ApartCounts(e: Engine, t: Engine, c: nat)
    requires Apart(e, t, c) && Unparked(e, c)
    ensures Requests(t, c) == Requests(e, c) && Live(t, IsFor(COMPLETION, c)) == Live(e, IsFor(COMPLETION, c))
    ensures Count(t.isr, IsFor(REQUEST, c)) == Count(e.isr, IsFor(REQUEST, c))
    ensures Count(t.ready, IsFor(COMPLETION, c)) == Count(e.ready, IsFor(COMPLETION, c))
  {
    GrownCount(e.ready, t.ready, c, REQUEST);
    GrownCount(e.ready, t.ready, c, COMPLETION);
    GrownCount(e.isr, t.isr, c, REQUEST);
    GrownCount(e.isr, t.isr, c, COMPLETION);
  }

  lemma ApartTallied(s: System, c: nat, t: Engine)
    requires Tallied(s, c) && Apart(s.e, t, c)
    ensures Tallied(s.(e := t), c) && Requests(t, c) == Requests(s.e, c)
  {
    hide Live, Count, Grown;
    ApartCounts(s.e, t, c);
  }

  lemma ApartLined(s: System, c: nat, t: Engine)
    requires Unparked(s.e, c) && Lined(s, c) && Apart(s.e, t, c)
    ensures Lined(s.(e := t), c)
  {
    hide Live, Count, CountAny;
    ApartCounts(s.e, t, c);
  }

  lemma HeldKeeps(s: System, c: nat, m: Move)
    requires Enabled(s, c, Other(m)) && Parked(s, c) && Requests(Apply(s.e, m), c) == Requests(s.e, c)
    ensures Parked(s.(e := Apply(s.e, m)), c)
  {
    hide Apply, Live;
    if s.ongoing && Requests(s.e, c) == 0 {
      var ev :| Held(s.e, c, s.cookie, ev) && Owed(s, ev);
      MoveHolds(s.e, c, m, s.cookie, ev);
    }
  }

  lemma DispatchKeeps(s: System, c: nat)
    requires Tallied(s, c) && Lined(s, c) && s.e.current.None? && s.e.ready != [] && !s.calling
    ensures Tallied(s.(e := Begin(s.e)), c) && Lined(s.(e := Begin(s.e)), c)
    ensures Requests(Begin(s.e), c) == Requests(s.e, c)
  {
    BeginLive(s.e, IsFor(REQUEST, c));
    BeginLive(s.e, IsFor(COMPLETION, c));
    if IsFor(COMPLETION, c)(s.e.ready[0]) {
      forall j | 0 <= j < |s.e.ready[1..]|
        ensures !IsFor(REQUEST, c)(s.e.ready[1..][j])
      {
        assert s.e.ready[1..][j] == s.e.ready[j + 1];
      }
      CountZero(s.e.ready[1..], IsFor(REQUEST, c));
    }
  }

  lemma PullKeeps(s: System, c: nat)
    requires Tallied(s, c) && Lined(s, c) && s.e.current.None? && s.e.ready == [] && s.e.isr != [] && !s.calling
    ensures Tallied(s.(e := Pull(s.e)), c) && Lined(s.(e := Pull(s.e)), c)
    ensures Requests(Pull(s.e), c) == Requests(s.e, c)
  {
    PullLive(s.e, IsFor(REQUEST, c));
    PullLive(s.e, IsFor(COMPLETION, c));
  }

  lemma OtherKeeps(s: System, c: nat, m: Move)
    requires Inv(s, c) && Enabled(s, c, Other(m))
    ensures Inv(Do(s, c, Other(m)), c)
  {
    hide Unique, Parked;
    MoveUnique(s.e, c, m);
    if m.Dispatch? {
      DispatchKeeps(s, c);
    } else if m.PullIsr? {
      PullKeeps(s, c);
    } else {
      ForeignApart(s, c, m);
      hide Lined, Apart;
      ApartTallied(s, c, Apply(s.e, m));
      ApartLined(s, c, Apply(s.e, m));
    }
    HeldKeeps(s, c, m);
  }

  // ------------------------------------------------------------ steps of the protocol

  /** Event x of the protocol was queued at the end of one queue; nothing else changed. */
  ghost predicate Queued(e: Engine, t: Engine, x: Event, intr: bool) {
    && t.ready == e.ready + (if intr then [] else [x]) && t.isr == e.isr + (if intr then [x] else [])
    && t.current == e.current && t.parked == e.parked
  }

  lemma QueuedLive(e: Engine, t: Engine, x: Event, intr: bool, f: Event -> bool)
    requires Queued(e, t, x, intr)
    ensures Live(t, f) == Live(e, f) + Bit(f(x))
    ensures Count(t.ready, f) == Count(e.ready, f) + Bit(!intr && f(x))
    ensures Count(t.isr, f) == Count(e.isr, f) + Bit(intr && f(x))
  {
    CountPush(e.ready, x, f);
    CountPush(e.isr, x, f);
    assert e.ready + [] == e.ready && e.isr + [] == e.isr;
  }

  lemma PostQueues(e: Engine, ev: Event, intr: bool, c: nat) returns (x: Event)
    requires Unique(e, c) && e.counter + 1 < WRAP && e.free != [] && !ev.isDelayed
    requires (if intr then ev.source else Caller(e, ev.source)) < |e.parked| && (e.current.Some? ==> e.current.value.target < |e.parked|)
    ensures var t := Post(e, ev, intr, false).engine; Queued(e, t, x, intr) && Unique(t, c)
    ensures x == ev.(slot := x.slot, cookie := x.cookie, source := if intr then ev.source else Caller(e, ev.source))
  {
    var y := ev.(source := if intr then ev.source else Caller(e, ev.source));
    PutUnique(e, y, intr, false, c);
    PutEffect(e, y, intr, false);
    x := Stamped(e, Entrant(e, y, false), false);
  }

  lemma PostRequestKeeps(s: System, c: nat)
    requires Inv(s, c) && Enabled(s, c, PostRequest)
    ensures Inv(Do(s, c, PostRequest), c)
  {
    hide Post, Unique;
    var t := Do(s, c, PostRequest);
    var x := PostQueues(s.e, RequestEvent(c, s.requester), false, c);
    QueuedLive(s.e, t.e, x, false, IsFor(REQUEST, c));
    QueuedLive(s.e, t.e, x, false, IsFor(COMPLETION, c));
    CountZero(s.e.ready, IsFor(COMPLETION, c));
    CountZero(s.e.ready, IsFor(REQUEST, c));
    CountZero(s.e.isr, IsFor(REQUEST, c));
    RequestLined(s, t, c, x);
  }

  /** The request is queued behind nothing of its protocol: no completion is in the ordinary queue. */
  lemma RequestLined(s: System, t: System, c: nat, x: Event)
    requires Lined(s, c) && s.calling && !t.calling && t.requester == s.requester && Queued(s.e, t.e, x, false)
    requires IsFor(REQUEST, c)(x) && WellAsked(s, c, x)
    requires s.e.current.Some? ==> s.e.current.value.target != c
    requires forall i :: 0 <= i < |s.e.ready| ==> !IsFor(COMPLETION, c)(s.e.ready[i])
    ensures Lined(t, c)
  {
    hide Live, Count;
    assert t.e.isr == s.e.isr;
  }

  lemma CompleteKeeps(s: System, c: nat, source: nat, params: int, intr: bool)
    requires Inv(s, c) && Enabled(s, c, if intr then CompleteInIsr(source, params) else CompleteInThread(source, params))
    ensures Inv(s.(e := Post(s.e, CompletionEvent(c, source, params), intr, false).engine, pending := false), c)
  {
    hide Post, Unique;
    var t := s.(e := Post(s.e, CompletionEvent(c, source, params), intr, false).engine, pending := false);
    var x := PostQueues(s.e, CompletionEvent(c, source, params), intr, c);
    QueuedLive(s.e, t.e, x, intr, IsFor(REQUEST, c));
    QueuedLive(s.e, t.e, x, intr, IsFor(COMPLETION, c));
    CompletionLined(s, t, c, x, intr);
    hide Live, Count, Lined;
    if t.ongoing && Requests(t.e, c) == 0 {
      var ev :| Held(s.e, c, s.cookie, ev) && Owed(s, ev);
      assert Held(t.e, c, t.cookie, ev);
    }
  }

  lemma CompletionLined(s: System, t: System, c: nat, x: Event, intr: bool)
    requires Lined(s, c) && Queued(s.e, t.e, x, intr) && t == s.(e := t.e, pending := false) && (intr || !s.calling)
    requires IsFor(COMPLETION, c)(x) && WellAsked(s, c, x) && Requests(t.e, c) == Requests(s.e, c)
    requires Count(t.e.ready, IsFor(COMPLETION, c)) == Count(s.e.ready, IsFor(COMPLETION, c)) + Bit(!intr)
    ensures Lined(t, c)
  {
    hide Live, Count;
  }

  /** The handled request event has left its response parked under the saved cookie, addressed to the requester. */
  lemma HandleRequestKeeps(s: System, c: nat)
    requires Inv(s, c) && Enabled(s, c, HandleRequest)
    ensures Inv(Do(s, c, HandleRequest), c)
    ensures var t := Do(s, c, HandleRequest);
      t.cookie == s.e.current.value.cookie && exists ev :: Held(t.e, c, t.cookie, ev) && Owed(t, ev)
  {
    var ev, t := s.e.current.value, Do(s, c, HandleRequest);
    FinishUnique(s.e, Delayed(ev), c);
    ParkHolds(s.e, c, Delayed(ev));
    var x := Delayed(ev).(isResponse := true, responseRequested := false, slot := s.e.free[0].slot);
    assert Held(t.e, c, t.cookie, x) && Owed(t, x);
    ParkedGone(s.e, t.e, c, x, IsFor(REQUEST, c));
    ParkedGone(s.e, t.e, c, x, IsFor(COMPLETION, c));
    HandledLined(s, t, c);
  }

  lemma ParkedGone(e: Engine, t: Engine, c: nat, x: Event, f: Event -> bool)
    requires c < |e.parked| && e.current.Some? && t.current.None? && t.ready == e.ready && t.isr == e.isr
    requires t.parked == e.parked[c := e.parked[c] + [x]] && !f(x)
    ensures Live(t, f) + Bit(f(e.current.value)) == Live(e, f) && CountAny(t.parked, f) == CountAny(e.parked, f)
  {
    CountPush(e.parked[c], x, f);
    CountAnyUpdate(e.parked, c, e.parked[c] + [x], f);
  }

  /** No event is left being processed; the queues are as they were. */
  lemma HandledLined(s: System, t: System, c: nat)
    requires Lined(s, c) && t.e.current.None? && t.e.ready == s.e.ready && t.e.isr == s.e.isr
    requires t.requester == s.requester && t.calling == s.calling
    ensures Lined(t, c)
  {
    hide Live, Count;
  }

  /** While a completion event is being handled, its request is ongoing and the response is parked. */
  lemma CompletionFinds(s: System, c: nat) returns (ev: Event)
    requires Inv(s, c) && s.e.current.Some? && IsFor(COMPLETION, c)(s.e.current.value)
    ensures s.ongoing && !s.pending && Requests(s.e, c) == 0 && !s.e.current.value.responseRequested
    ensures Held(s.e, c, s.cookie, ev) && Owed(s, ev) && s.requester != c
    ensures Live(s.e, IsFor(COMPLETION, c)) == 1
  {
    assert Live(s.e, IsFor(COMPLETION, c)) >= 1;
    ev :| Held(s.e, c, s.cookie, ev) && Owed(s, ev);
  }

  /** The completion event finds the parked response and hands it to the requester, once. */
  lemma HandleCompletionKeeps(s: System, c: nat)
    requires Inv(s, c) && Enabled(s, c, HandleCompletion)
    ensures Inv(Do(s, c, HandleCompletion), c)
    ensures var t := Do(s, c, HandleCompletion);
      && s.ongoing && !t.ongoing && t.answered == s.answered + 1
      && |t.e.ready| == |s.e.ready| + 1 && t.e.ready[..|s.e.ready|] == s.e.ready
      && var r := t.e.ready[|s.e.ready|];
         && r.target == s.requester && r.isResponse && r.id == REQUEST && r.params == s.e.current.value.params
         && !r.isNotification && !r.responseRequested
  {
    var ev := CompletionFinds(s, c);
    var t := Do(s, c, HandleCompletion);
    var reply := Completed(s.e, c, s.cookie, s.e.current.value);
    var u := Post(s.e, reply, false, false).engine;
    PutUnique(s.e, reply.(source := c), false, false, c);
    PutEffect(s.e, reply.(source := c), false, false);
    PutApart(s.e, reply.(source := c), false, false, c);
    hide PutEvent, Unique, Lined, Apart;
    ReleaseUnique(u, t.e, c);
    ApartCounts(s.e, u, c);
    ApartLined(s, c, u);
    HandledLined(s.(e := u), t, c);
  }

  lemma StepKeeps(s: System, c: nat, st: Step)
    requires Inv(s, c) && Enabled(s, c, st)
    ensures Inv(Do(s, c, st), c)
  {
    hide Unique, Parked;
    match st
    case DriverPends(source) => PendsKeeps(s, c, source);
    case PostRequest => PostRequestKeeps(s, c);
    case CompleteInIsr(source, params) => CompleteKeeps(s, c, source, params, true);
    case CompleteInThread(source, params) => CompleteKeeps(s, c, source, params, false);
    case HandleRequest => HandleRequestKeeps(s, c);
    case HandleCompletion => HandleCompletionKeeps(s, c);
    case Other(m) => OtherKeeps(s, c, m);
  }

  lemma PendsKeeps(s: System, c: nat, source: nat)
    requires Inv(s, c) && Enabled(s, c, DriverPends(source))
    ensures Inv(Do(s, c, DriverPends(source)), c)
  {
    CountZero(s.e.ready, IsFor(REQUEST, c));
    CountZero(s.e.isr, IsFor(REQUEST, c));
  }

  predicate Next(s: System, c: nat, st: Step, t: System) { Enabled(s, c, st) && t == Do(s, c, st) }

  ghost predicate Run(c: nat, states: seq<System>, steps: seq<Step>) {
    && |states| == |steps| + 1
    && forall i, j :: 0 <= i < |steps| && j == i + 1 ==> Next(states[i], c, steps[i], states[j])
  }

  /** Nothing requested, nothing queued or parked. */
  ghost predicate Booted(s: System, c: nat) {
    && c < |s.e.parked| && !s.ongoing && !s.calling && !s.pending && s.asked == s.answered == 0
    && s.e.ready == [] && s.e.isr == [] && s.e.current.None?
    && forall j :: 0 <= j < |s.e.parked| ==> s.e.parked[j] == []
  }

  lemma BootKeeps(s: System, c: nat)
    requires Booted(s, c)
    ensures Inv(s, c)
  {
    BootUnique(s.e, c);
    CountAnyEmpty(s.e.parked, IsFor(REQUEST, c));
    CountAnyEmpty(s.e.parked, IsFor(COMPLETION, c));
  }

  lemma {:induction false} RunKeeps(c: nat, states: seq<System>, steps: seq<Step>, i: nat)
    requires Run(c, states, steps) && Booted(states[0], c) && i <= |steps|
    ensures Inv(states[i], c)
    decreases i
  {
    if i == 0 {
      BootKeeps(states[0], c);
    } else {
      hide Inv;
      RunKeeps(c, states, steps, i - 1);
      assert Next(states[i - 1], c, steps[i - 1], states[i]);
      StepKeeps(states[i - 1], c, steps[i - 1]);
    }
  }

  /**
   In every run, also when the completion interrupt strikes before the request event is even
   queued, each request of c gets exactly one response: the replies sent are the requests
   made, but for the one in progress. A completion event is dispatched only after the request
   event, and then finds the delayed response, addressed to the requester.
   */
  lemma EveryRequestAnswered(c: nat, states: seq<System>, steps: seq<Step>, i: nat)
    requires Run(c, states, steps) && Booted(states[0], c) && i <= |steps|
    ensures var s := states[i];
      && s.asked == s.answered + Bit(s.ongoing)
      && Completions(s, c) == Bit(s.calling || s.ongoing)
      && (s.e.current.Some? && IsFor(COMPLETION, c)(s.e.current.value) ==>
            && s.ongoing && Requests(s.e, c) == 0
            && exists ev :: Held(s.e, c, s.cookie, ev) && Owed(s, ev))
  {
    RunKeeps(c, states, steps, i);
    var s := states[i];
    if s.e.current.Some? && IsFor(COMPLETION, c)(s.e.current.value) {
      var ev := CompletionFinds(s, c);
    }
  }
}
