/**
 Power-domain pre-transitions over the event engine. A clock c that hears of one asks its
 driver, notifies its own subscribers, and delays its response until every notified subscriber
 has responded; subscribers respond when they like, at once or from a delayed response.
 */
module ClockPower {
  import opened Status
  import opened Counting
  import opened Events
  import opened DelayedResponses
  import opened Notifications

  /** The pre-transition notification of the power domain, and the clock's own "state change pending". */
  const PRE: nat := 2
  const NOTE: nat := 3

  /** The fields of the clock: notices not yet answered, the status so far, and the cookie to answer. */
  datatype Fields = Fields(sent: nat, status: int, cookie: int)

  /** What a handler of the clock leaves behind. */
  datatype Reaction = Reaction(e: Engine, f: Fields, reply: Event)

  const PD_ON: int := 1
  const CLOCK_STOPPED: int := 0
  const CLOCK_RUNNING: int := 1

  /** The state of the clock that follows from the target state of its power domain. */
  function NewState(target: int): int { if target == PD_ON then CLOCK_RUNNING else CLOCK_STOPPED }

  function Outbound(c: nat, state: int): Event { Event(0, c, 0, 0, false, true, false, false, NOTE, state) }

  /**
   The handler of a pre-transition, which carries the target state of the power domain; valid
   tells whether the notification is one the clock may emit.
   */
  function OnPre(e: Engine, f: Fields, ev: Event, driver: int, valid: bool, subs: seq<Subscription>): Reaction
    requires ev.target < |e.parked|
  {
    var reply := Response(ev).(params := driver);
    if driver != SUCCESS then Reaction(e, f.(sent := 0), reply)
    else if !valid then Reaction(e, f.(status := SUCCESS), reply.(params := E_PARAM))
    else
      var r := NotifyAll(e, Outbound(ev.target, NewState(ev.params)), subs, false);
      if r.count > 0 then Reaction(r.engine, Fields(r.count, SUCCESS, ev.cookie), reply.(isDelayed := true))
      else Reaction(r.engine, Fields(0, SUCCESS, f.cookie), reply)
  }

  /** The response that ends the pre-transition; pd is the configured power domain. */
  function Answer(f: Fields, c: nat, pd: nat): Event { Event(0, c, pd, f.cookie, true, false, true, true, PRE, f.status) }

  function Noted(f: Fields, response: int): Fields
    requires f.sent > 0
  {
    Fields(f.sent - 1, if response != SUCCESS then response else f.status, f.cookie)
  }

  /** The handler of a subscriber's response; the last one releases the answer. */
  function OnReply(e: Engine, f: Fields, ev: Event, pd: nat): (Outcome, Fields)
    requires ev.target < |e.parked| && e.current == Some(ev)
  {
    if f.sent == 0 then (Outcome(e, E_PANIC), f)
    else
      var g := Noted(f, ev.params);
      (if g.sent == 0 then Post(e, Answer(g, ev.target, pd), false, false) else Outcome(e, SUCCESS), g)
  }

  // ------------------------------------------------------------ the system

  /**
   The engine and the fields of clock c, with the story of the last pre-transition: who sent
   it, who was notified, who has responded and what; and how many were begun and answered.
   */
  datatype System = System(
    e: Engine, f: Fields, requester: nat, notified: seq<nat>, heard: seq<nat>, statuses: seq<int>, begun: nat, answered: nat)

  predicate IsPre(ev: Event, c: nat) {
    ev.id == PRE && ev.target == c && ev.isNotification && !ev.isResponse && ev.responseRequested
  }

  /** A notice of c to a subscriber, or the response to one. */
  predicate IsToken(ev: Event, c: nat) {
    && ev.id == NOTE && ev.isNotification
    && if ev.isResponse then ev.target == c && !ev.responseRequested else ev.source == c && ev.responseRequested
  }

  /** The subscriber that a notice or response belongs to. */
  function Peer(ev: Event): nat { if ev.isResponse then ev.source else ev.target }

  function Token(c: nat, d: nat): Event -> bool { (ev: Event) => IsToken(ev, c) && Peer(ev) == d }

  predicate IsReply(ev: Event, c: nat) { IsToken(ev, c) && ev.isResponse }

  datatype Step =
    | HandlePre(driver: int, valid: bool, subs: seq<Subscription>)
    | HandleReply(pd: nat)
    | Other(m: Move)

  /**
   A step of the rest of the system, subscribers included: nobody else sends the notices of c
   or answers its pre-transitions, and the response to a notice finds a free event structure.
   */
  predicate Foreign(e: Engine, c: nat, m: Move) {
    && Ordinary(e, c, m) && !Releases(e, c, PRE, m)
    && match m
       case Call(ev, light) => light || ev.isDelayed || !IsToken(ev.(source := Caller(e, ev.source)), c)
       case Interrupt(ev, light) => light || ev.isDelayed || !IsToken(ev, c)
       case Notify(ev, _) => ev.isDelayed || !IsToken(ev.(isResponse := false, isNotification := true), c)
       case Return(reply) =>
         && e.current.Some? && !(e.current.value.id == PRE && e.current.value.target == c) && !IsReply(e.current.value, c)
         && (e.current.value.responseRequested ==>
               if IsToken(e.current.value, c) then e.free != []
               else !IsToken(reply.(isResponse := true, responseRequested := false), c))
       case _ => true
  }

  predicate Enabled(s: System, c: nat, st: Step) {
    var e := s.e;
    && c < |e.parked| && (e.current.Some? ==> e.current.value.target < |e.parked|) && e.counter + 1 < WRAP
    && match st
       case HandlePre(driver, valid, subs) =>
         && e.current.Some? && IsPre(e.current.value, c) && e.counter + |subs| + 1 < WRAP
         && OnPre(e, s.f, e.current.value, driver, valid, subs).e.free != []
       case HandleReply(_) => e.current.Some? && IsReply(e.current.value, c)
       case Other(m) => Events.Enabled(e, m) && Foreign(e, c, m)
  }

  /** The targets of the first n subscriptions to the source. */
  function Notified(subs: seq<Subscription>, source: nat, n: nat): seq<nat>
    decreases |subs|
  {
    if subs == [] || n == 0 then []
    else if subs[0].source != source then Notified(subs[1..], source, n)
    else [subs[0].target] + Notified(subs[1..], source, n - 1)
  }

  function Do(s: System, c: nat, st: Step): System
    requires Enabled(s, c, st)
  {
    match st
    case HandlePre(driver, valid, subs) =>
      var ev := s.e.current.value;
      var r := OnPre(s.e, s.f, ev, driver, valid, subs);
      NotifyIsFramed(s.e, Outbound(c, NewState(ev.params)), subs, false);
      var t := s.(e := Finish(r.e, r.reply), f := r.f);
      if r.reply.isDelayed then
        t.(requester := ev.source, notified := Notified(subs, c, r.f.sent), heard := [], statuses := [], begun := s.begun + 1)
      else t
    case HandleReply(pd) =>
      var ev := s.e.current.value;
      var (o, g) := OnReply(s.e, s.f, ev, pd);
      var t := s.(e := Finish(o.engine, Response(ev)), f := g);
      if s.f.sent == 0 then t
      else
        t.(heard := s.heard + [ev.source], statuses := s.statuses + [ev.params],
           answered := s.answered + Bit(g.sent == 0 && o.status == SUCCESS))
    case Other(m) => s.(e := Apply(s.e, m))
  }

  // ------------------------------------------------------------ the invariant

  /** The last response that was not a success, if any. */
  function Verdict(statuses: seq<int>): int {
    if statuses == [] then SUCCESS
    else
      var last := statuses[|statuses| - 1];
      if last != SUCCESS then last else Verdict(statuses[..|statuses| - 1])
  }

  predicate AllSucceed(statuses: seq<int>) { forall i :: 0 <= i < |statuses| ==> statuses[i] == SUCCESS }

  lemma {:induction false} VerdictIs(statuses: seq<int>)
    ensures Verdict(statuses) == SUCCESS <==> AllSucceed(statuses)
  {
    if statuses != [] {
      VerdictIs(statuses[..|statuses| - 1]);
    }
  }

  /** Every notified subscriber has responded, or its notice or response is still under way. */
  ghost predicate Accounted(s: System, c: nat) {
    forall d: nat :: multiset(s.notified)[d] == multiset(s.heard)[d] + Live(s.e, Token(c, d))
  }

  ghost predicate Tallied(s: System) {
    && |s.heard| == |s.statuses| && s.f.sent == |s.notified| - |s.heard|
    && s.begun == s.answered + Bit(s.f.sent > 0) && (s.f.sent > 0 ==> s.f.status == Verdict(s.statuses))
  }

  predicate Owed(s: System, c: nat, ev: Event) {
    ev.isDelayed && ev.isResponse && ev.isNotification && ev.id == PRE && ev.source == c && ev.target == s.requester
  }

  /** While responses are missing, the response to the pre-transition waits under the saved cookie. */
  ghost predicate Due(s: System, c: nat) {
    s.f.sent > 0 ==> exists ev :: Held(s.e, c, s.f.cookie, ev) && Owed(s, c, ev)
  }

  ghost predicate Inv(s: System, c: nat) {
    Unique(s.e, c) && Accounted(s, c) && Tallied(s) && Due(s, c)
  }

  // ------------------------------------------------------------ the rest of the system

  lemma PutTokens(e: Engine, ev: Event, intr: bool, light: bool, c: nat, d: nat)
    requires ev.source < |e.parked| && (light || ev.isDelayed || !IsToken(ev, c))
    ensures Live(PutEvent(e, ev, intr, light).engine, Token(c, d)) == Live(e, Token(c, d))
  {
    PutEffect(e, ev, intr, light);
    hide PutEvent;
    if Available(e, ev, light) {
      EntersLive(e, PutEvent(e, ev, intr, light).engine, ev, intr, light, Token(c, d));
    }
  }

  /** An event that is done with is gone, and its response is sent or parked if there is a free structure. */
  lemma FinishTokens(e: Engine, reply: Event, c: nat, d: nat)
    requires e.current.Some? && reply.source < |e.parked|
    ensures var cur, r := e.current.value, reply.(isResponse := true, responseRequested := false);
      Live(Finish(e, reply), Token(c, d)) + Bit(Token(c, d)(cur))
      == Live(e, Token(c, d)) + Bit(cur.responseRequested && e.free != [] && Token(c, d)(r))
  {
    var cur, r := e.current.value, reply.(isResponse := true, responseRequested := false);
    if cur.responseRequested && !reply.isDelayed {
      PutEffect(e, r, false, false);
      hide PutEvent;
      if e.free != [] {
        EntersLive(e, PutEvent(e, r, false, false).engine, r, false, false, Token(c, d));
      }
    } else if cur.responseRequested && e.free != [] {
      ParksLive(e, Respond(e, reply), r, Token(c, d));
    }
  }

  lemma ForeignTokens(e: Engine, c: nat, m: Move, d: nat)
    requires Events.Enabled(e, m) && Foreign(e, c, m)
    ensures Live(Apply(e, m), Token(c, d)) == Live(e, Token(c, d))
  {
    hide PutEvent, Finish;
    match m
    case Call(ev, light) =>
      if Caller(e, ev.source) < |e.parked| {
        PutTokens(e, ev.(source := Caller(e, ev.source)), false, light, c, d);
      }
    case Interrupt(ev, light) =>
      if ev.source < |e.parked| {
        PutTokens(e, ev, true, light, c, d);
      }
    case Notify(ev, intr) => PutTokens(e, ev.(isResponse := false, isNotification := true), intr, false, c, d);
    case Return(reply) => FinishTokens(e, reply, c, d);
    case Dispatch => BeginLive(e, Token(c, d));
    case PullIsr => PullLive(e, Token(c, d));
  }

  lemma OtherKeeps(s: System, c: nat, m: Move)
    requires Inv(s, c) && Enabled(s, c, Other(m))
    ensures Inv(Do(s, c, Other(m)), c)
  {
    hide Apply, Live;
    MoveUnique(s.e, c, m);
    forall d: nat
      ensures Live(Apply(s.e, m), Token(c, d)) == Live(s.e, Token(c, d))
    {
      ForeignTokens(s.e, c, m, d);
    }
    if s.f.sent > 0 {
      var ev :| Held(s.e, c, s.f.cookie, ev) && Owed(s, c, ev);
      MoveHolds(s.e, c, m, s.f.cookie, ev);
    }
  }

  // ------------------------------------------------------------ notifying the subscribers

  /** Each notice queued is one token of its subscriber. */
  lemma {:induction false} NotifyTokens(e: Engine, c: nat, state: int, subs: seq<Subscription>, d: nat)
    requires c < |e.parked|
    ensures var r := NotifyAll(e, Outbound(c, state), subs, false);
      Live(r.engine, Token(c, d)) == Live(e, Token(c, d)) + multiset(Notified(subs, c, r.count))[d]
      && |Notified(subs, c, r.count)| == r.count
    decreases |subs|
  {
    if subs != [] && subs[0].source != c {
      NotifyTokens(e, c, state, subs[1..], d);
    } else if subs != [] {
      var ev := Outbound(c, state).(target := subs[0].target, isResponse := false, isNotification := true);
      var u := PutEvent(e, ev, false, false).engine;
      PutEffect(e, ev, false, false);
      hide PutEvent;
      if e.free != [] {
        EntersLive(e, u, ev, false, false, Token(c, d));
        NotifyTokens(u, c, state, subs[1..], d);
      } else {
        NoneNotified(e, c, state, subs);
      }
    }
  }

  /** Without a free structure nobody is notified. */
  lemma {:induction false} NoneNotified(e: Engine, c: nat, state: int, subs: seq<Subscription>)
    requires c < |e.parked| && e.free == []
    ensures NotifyAll(e, Outbound(c, state), subs, false) == Sent(e, 0)
    decreases |subs|
  {
    if subs != [] {
      NoneNotified(e, c, state, subs[1..]);
    }
  }

  lemma {:induction false} NotifyUnique(e: Engine, c: nat, state: int, subs: seq<Subscription>)
    requires c < |e.parked| && Unique(e, c) && e.counter + |subs| < WRAP
    ensures var r := NotifyAll(e, Outbound(c, state), subs, false);
      Unique(r.engine, c) && r.engine.counter <= e.counter + |subs|
    decreases |subs|
  {
    hide Unique;
    if subs != [] && subs[0].source != c {
      NotifyUnique(e, c, state, subs[1..]);
    } else if subs != [] {
      var ev := Outbound(c, state).(target := subs[0].target, isResponse := false, isNotification := true);
      PutUnique(e, ev, false, false, c);
      PutEffect(e, ev, false, false);
      hide PutEvent;
      NotifyUnique(PutEvent(e, ev, false, false).engine, c, state, subs[1..]);
    }
  }

  // ------------------------------------------------------------ the clock's own steps

  /** When no response is missing, all notified subscribers have responded and nothing is under way. */
  lemma AllHeard(s: System, c: nat)
    requires Accounted(s, c) && Tallied(s) && s.f.sent == 0
    ensures multiset(s.heard) == multiset(s.notified) && forall d: nat :: Live(s.e, Token(c, d)) == 0
  {
    hide Live;
    var a, b := multiset(s.heard), multiset(s.notified);
    assert a <= b;
    assert |b - a| == 0;
    assert b == a + (b - a);
  }

  lemma PreKeeps(s: System, c: nat, driver: int, valid: bool, subs: seq<Subscription>)
    requires Inv(s, c) && Enabled(s, c, HandlePre(driver, valid, subs)) && s.f.sent == 0
    ensures Inv(Do(s, c, HandlePre(driver, valid, subs)), c)
  {
    hide Do, OnPre, Unique, Live, Tallied, Due;
    var t := Do(s, c, HandlePre(driver, valid, subs));
    AllHeard(s, c);
    PreTallied(s, c, driver, valid, subs);
    PreDue(s, c, driver, valid, subs);
    forall d: nat
      ensures multiset(t.notified)[d] == multiset(t.heard)[d] + Live(t.e, Token(c, d))
    {
      PreAccounts(s, c, driver, valid, subs, d);
    }
  }

  lemma PreTallied(s: System, c: nat, driver: int, valid: bool, subs: seq<Subscription>)
    requires Unique(s.e, c) && Tallied(s) && s.f.sent == 0 && Enabled(s, c, HandlePre(driver, valid, subs))
    ensures Tallied(Do(s, c, HandlePre(driver, valid, subs)))
  {
    PreFrame(s, c, driver, valid, subs);
    PreTokens(s, c, driver, valid, subs, 0);
    hide OnPre, Unique, Live, Finish;
  }

  lemma PreDue(s: System, c: nat, driver: int, valid: bool, subs: seq<Subscription>)
    requires Unique(s.e, c) && s.f.sent == 0 && Enabled(s, c, HandlePre(driver, valid, subs))
    ensures var t := Do(s, c, HandlePre(driver, valid, subs)); Unique(t.e, c) && Due(t, c)
  {
    var r := OnPre(s.e, s.f, s.e.current.value, driver, valid, subs);
    PreFrame(s, c, driver, valid, subs);
    hide OnPre, Unique, Finish;
    FinishUnique(r.e, r.reply, c);
    if r.reply.isDelayed {
      ParkHolds(r.e, c, r.reply);
    }
  }

  lemma PreAccounts(s: System, c: nat, driver: int, valid: bool, subs: seq<Subscription>, d: nat)
    requires Enabled(s, c, HandlePre(driver, valid, subs)) && Unique(s.e, c)
    requires multiset(s.heard) == multiset(s.notified) && Live(s.e, Token(c, d)) == 0
    ensures var t := Do(s, c, HandlePre(driver, valid, subs));
      multiset(t.notified)[d] == multiset(t.heard)[d] + Live(t.e, Token(c, d))
  {
    var r := OnPre(s.e, s.f, s.e.current.value, driver, valid, subs);
    PreFrame(s, c, driver, valid, subs);
    PreTokens(s, c, driver, valid, subs, d);
    hide OnPre, Live, Finish, Unique;
    FinishTokens(r.e, r.reply, c, d);
  }

  /** What the handler does to the engine before it returns, and how it fills in the response. */
  lemma PreFrame(s: System, c: nat, driver: int, valid: bool, subs: seq<Subscription>)
    requires Unique(s.e, c) && Enabled(s, c, HandlePre(driver, valid, subs))
    ensures var r := OnPre(s.e, s.f, s.e.current.value, driver, valid, subs);
      && r.e.current == s.e.current && r.e.parked == s.e.parked && Unique(r.e, c) && r.e.counter + 1 < WRAP
      && Fills(s.e.current.value, r.reply) && (r.reply.isDelayed <==> driver == SUCCESS && valid && r.f.sent > 0)
      && (r.reply.isDelayed ==> r.f.status == SUCCESS && r.f.cookie == s.e.current.value.cookie)
      && (!r.reply.isDelayed ==> r.f.sent == if driver == SUCCESS && !valid then s.f.sent else 0)
      && r.reply.params == if driver != SUCCESS then driver else if !valid then E_PARAM else SUCCESS
  {
    NotifyIsFramed(s.e, Outbound(c, NewState(s.e.current.value.params)), subs, false);
    if driver == SUCCESS && valid {
      NotifyUnique(s.e, c, NewState(s.e.current.value.params), subs);
    }
  }

  lemma PreTokens(s: System, c: nat, driver: int, valid: bool, subs: seq<Subscription>, d: nat)
    requires Enabled(s, c, HandlePre(driver, valid, subs))
    ensures var r := OnPre(s.e, s.f, s.e.current.value, driver, valid, subs);
      && Live(r.e, Token(c, d)) == Live(s.e, Token(c, d))
           + (if r.reply.isDelayed then multiset(Notified(subs, c, r.f.sent))[d] else 0)
      && (r.reply.isDelayed ==> |Notified(subs, c, r.f.sent)| == r.f.sent)
  {
    hide Live;
    NotifyTokens(s.e, c, NewState(s.e.current.value.params), subs, d);
  }

  /** While a subscriber's response is being handled, a pre-transition is pending and its response is parked. */
  lemma ReplyFinds(s: System, c: nat) returns (ev: Event)
    requires Inv(s, c) && s.e.current.Some? && IsReply(s.e.current.value, c)
    ensures s.f.sent > 0 && Held(s.e, c, s.f.cookie, ev) && Owed(s, c, ev)
  {
    assert Live(s.e, Token(c, s.e.current.value.source)) >= 1;
    if s.f.sent == 0 {
      AllHeard(s, c);
    }
    ev :| Held(s.e, c, s.f.cookie, ev) && Owed(s, c, ev);
  }

  /** The answer takes the parked response, addressed to the power domain that asked. */
  lemma AnswerEffect(s: System, c: nat, pd: nat, ev: Event)
    requires Unique(s.e, c) && s.e.current.Some? && s.e.current.value.target == c && s.e.counter + 1 < WRAP
    requires Held(s.e, c, s.f.cookie, ev) && Owed(s, c, ev) && s.f.sent == 1
    ensures var (o, g) := OnReply(s.e, s.f, s.e.current.value, pd);
      && o.status == SUCCESS && g.sent == 0 && Unique(o.engine, c) && o.engine.current == s.e.current
      && |o.engine.parked| == |s.e.parked| && o.engine.isr == s.e.isr
      && o.engine.ready == s.e.ready + [ev.(params := g.status, cookie := s.e.counter)]
      && forall d: nat :: Live(o.engine, Token(c, d)) == Live(s.e, Token(c, d))
  {
    var g := Noted(s.f, s.e.current.value.params);
    var a := Answer(g, c, pd);
    PutUnique(s.e, a, false, false, c);
    PutEffect(s.e, a, false, false);
    forall d: nat
      ensures Live(PutEvent(s.e, a, false, false).engine, Token(c, d)) == Live(s.e, Token(c, d))
    {
      PutTokens(s.e, a, false, false, c, d);
    }
  }

  /** What one subscriber's response does: the last one, and only that, sends the answer. */
  ghost predicate Answered(s: System, t: System, c: nat) {
    if s.f.sent > 1 then t.answered == s.answered && t.e.ready == s.e.ready && t.f.sent == s.f.sent - 1
    else
      && t.f.sent == 0 && t.answered == s.answered + 1
      && |t.e.ready| == |s.e.ready| + 1 && t.e.ready[..|s.e.ready|] == s.e.ready
      && multiset(t.heard) == multiset(t.notified) && (forall d: nat :: Live(t.e, Token(c, d)) == 0)
      && var r := t.e.ready[|s.e.ready|];
         && r.target == s.requester && r.source == c && r.id == PRE && r.isResponse && r.isNotification
         && (r.params == SUCCESS <==> AllSucceed(t.statuses))
  }

  lemma ReplyKeeps(s: System, c: nat, pd: nat)
    requires Inv(s, c) && Enabled(s, c, HandleReply(pd))
    ensures s.f.sent > 0 && Inv(Do(s, c, HandleReply(pd)), c) && Answered(s, Do(s, c, HandleReply(pd)), c)
  {
    var ev := ReplyFinds(s, c);
    var t := Do(s, c, HandleReply(pd));
    ReplyEffect(s, c, pd, ev);
    hide Do, Unique, Live, Verdict;
    if s.f.sent > 1 {
      assert Held(t.e, c, t.f.cookie, ev) && Owed(t, c, ev);
    } else {
      AllHeard(t, c);
      VerdictIs(t.statuses);
    }
  }

  lemma ReplyEffect(s: System, c: nat, pd: nat, ev: Event)
    requires Inv(s, c) && Enabled(s, c, HandleReply(pd)) && s.f.sent > 0
    requires Held(s.e, c, s.f.cookie, ev) && Owed(s, c, ev)
    ensures var t := Do(s, c, HandleReply(pd));
      && Unique(t.e, c) && Accounted(t, c) && Tallied(t) && t.f.status == Verdict(t.statuses)
      && t.requester == s.requester && t.f.sent == s.f.sent - 1 && t.f.cookie == s.f.cookie
      && t.answered == s.answered + Bit(s.f.sent == 1)
      && if s.f.sent > 1 then t.e.ready == s.e.ready && t.e.parked == s.e.parked
         else t.e.ready == s.e.ready + [ev.(params := t.f.status, cookie := s.e.counter)]
  {
    var cur, t := s.e.current.value, Do(s, c, HandleReply(pd));
    var u := OnReply(s.e, s.f, cur, pd).0.engine;
    if s.f.sent == 1 {
      AnswerEffect(s, c, pd, ev);
    }
    assert t.e == u.(current := None, free := t.e.free);
    hide PutEvent, Unique, Verdict, Live;
    ReplyTallied(s, t, cur);
    ReleaseUnique(u, t.e, c);
    forall d: nat
      ensures multiset(t.notified)[d] == multiset(t.heard)[d] + Live(t.e, Token(c, d))
    {
      ReplyReleased(s.e, u, t.e, c, d);
    }
  }

  lemma ReplyReleased(e: Engine, u: Engine, t: Engine, c: nat, d: nat)
    requires e.current.Some? && IsReply(e.current.value, c) && u.current == e.current && t == u.(current := None, free := t.free)
    requires Live(u, Token(c, d)) == Live(e, Token(c, d))
    ensures Live(t, Token(c, d)) + Bit(e.current.value.source == d) == Live(e, Token(c, d))
  {
  }

  lemma ReplyTallied(s: System, t: System, cur: Event)
    requires Tallied(s) && s.f.sent > 0 && t.f == Noted(s.f, cur.params) && t.notified == s.notified && t.begun == s.begun
    requires t.heard == s.heard + [cur.source] && t.statuses == s.statuses + [cur.params]
    requires t.answered == s.answered + Bit(s.f.sent == 1)
    ensures Tallied(t) && t.f.status == Verdict(t.statuses)
  {
    assert t.statuses[..|t.statuses| - 1] == s.statuses;
  }

  // ------------------------------------------------------------ runs

  /**
   A pre-transition is handled at once exactly when the driver refuses, the notification is not
   valid, or nobody could be notified; otherwise no response is sent yet.
   */
  lemma PreAnswer(s: System, c: nat, driver: int, valid: bool, subs: seq<Subscription>)
    requires Unique(s.e, c) && Enabled(s, c, HandlePre(driver, valid, subs))
    ensures var t, u := Do(s, c, HandlePre(driver, valid, subs)),
                        OnPre(s.e, s.f, s.e.current.value, driver, valid, subs).e;
      && t.begun == s.begun + Bit(t.e.ready == u.ready)
      && (t.begun > s.begun <==> driver == SUCCESS && valid && t.f.sent > 0)
      && (t.begun == s.begun ==>
            && |t.e.ready| == |u.ready| + 1 && t.e.ready[..|u.ready|] == u.ready
            && var x := t.e.ready[|u.ready|];
               && x.id == PRE && x.isResponse && x.source == c && x.target == s.e.current.value.source
               && x.params == if driver != SUCCESS then driver else if !valid then E_PARAM else SUCCESS)
  {
    var r := OnPre(s.e, s.f, s.e.current.value, driver, valid, subs);
    PreFrame(s, c, driver, valid, subs);
    PutEffect(r.e, r.reply.(isResponse := true, responseRequested := false), false, false);
    hide OnPre, PutEvent, Unique;
  }

  /** A notice of c that the clock is about to be running or stopped, as the power domain will be on or not. */
  predicate Announces(n: Event, c: nat, target: int, d: nat) {
    && n.source == c && n.target == d && n.id == NOTE && n.isNotification && !n.isResponse && n.responseRequested
    && n.params == if target == PD_ON then CLOCK_RUNNING else CLOCK_STOPPED
  }

  /**
   Whom a pre-transition reaches: nobody, if the driver refuses it or the notification is not
   valid; otherwise each subscriber of c in order, as far as there are free structures.
   */
  lemma PreNotices(s: System, c: nat, driver: int, valid: bool, subs: seq<Subscription>)
    requires Enabled(s, c, HandlePre(driver, valid, subs))
    ensures var r, ms := OnPre(s.e, s.f, s.e.current.value, driver, valid, subs), Matching(subs, c);
      if driver != SUCCESS || !valid then r.e == s.e
      else
        && r.f.sent == Min(|ms|, |s.e.free|) && |r.e.ready| == |s.e.ready| + r.f.sent && s.e.ready <= r.e.ready
        && forall i :: 0 <= i < r.f.sent ==>
             Announces(r.e.ready[|s.e.ready| + i], c, s.e.current.value.params, ms[i].target)
  {
    NotifyIsExact(s.e, Outbound(c, NewState(s.e.current.value.params)), subs, false);
  }

  predicate Next(s: System, c: nat, st: Step, t: System) { Enabled(s, c, st) && t == Do(s, c, st) }

  /** Serialised: a pre-transition is handled only when the previous one has been answered. */
  predicate Serial(s: System, st: Step) { st.HandlePre? ==> s.f.sent == 0 }

  ghost predicate AnyRun(c: nat, states: seq<System>, steps: seq<Step>) {
    && |states| == |steps| + 1
    && forall i, j :: 0 <= i < |steps| && j == i + 1 ==> Next(states[i], c, steps[i], states[j])
  }

  ghost predicate Run(c: nat, states: seq<System>, steps: seq<Step>) {
    AnyRun(c, states, steps) && forall i :: 0 <= i < |steps| ==> Serial(states[i], steps[i])
  }

  ghost predicate Booted(s: System, c: nat) {
    && c < |s.e.parked| && s.f.sent == 0 && s.notified == s.heard == [] && s.statuses == [] && s.begun == s.answered == 0
    && s.e.ready == [] && s.e.isr == [] && s.e.current.None?
    && forall j :: 0 <= j < |s.e.parked| ==> s.e.parked[j] == []
  }

  lemma BootKeeps(s: System, c: nat)
    requires Booted(s, c)
    ensures Inv(s, c)
  {
    BootUnique(s.e, c);
    forall d: nat
      ensures Live(s.e, Token(c, d)) == 0
    {
      CountAnyEmpty(s.e.parked, Token(c, d));
    }
  }

  lemma StepKeeps(s: System, c: nat, st: Step)
    requires Inv(s, c) && Enabled(s, c, st) && Serial(s, st)
    ensures Inv(Do(s, c, st), c)
  {
    hide Inv, Do;
    match st
    case HandlePre(driver, valid, subs) => PreKeeps(s, c, driver, valid, subs);
    case HandleReply(pd) => ReplyKeeps(s, c, pd);
    case Other(m) => OtherKeeps(s, c, m);
  }

  lemma {:induction false} RunKeeps(c: nat, states: seq<System>, steps: seq<Step>, i: nat)
    requires Run(c, states, steps) && Booted(states[0], c) && i <= |steps|
    ensures Inv(states[i], c)
    decreases i
  {
    if i == 0 {
      BootKeeps(states[0], c);
    } else {
      hide Inv, Do;
      RunKeeps(c, states, steps, i - 1);
      assert Next(states[i - 1], c, steps[i - 1], states[i]);
      StepKeeps(states[i - 1], c, steps[i - 1]);
    }
  }

  /**
   In every serialised run, each pre-transition whose notices were sent is answered exactly
   once: the answers are the pre-transitions begun, but for the one in progress. Every
   subscriber notified has responded or its notice or response is under way. Whenever a
   response is handled, the parked response to the power domain is found; and the answer is
   sent with the last one, when nothing of the transition is under way any more, with success
   exactly when all the responses were.
   */
  lemma EveryTransitionAnswered(c: nat, states: seq<System>, steps: seq<Step>, i: nat)
    requires Run(c, states, steps) && Booted(states[0], c) && i <= |steps|
    ensures var s := states[i];
      && s.begun == s.answered + Bit(s.f.sent > 0)
      && (forall d: nat :: multiset(s.notified)[d] == multiset(s.heard)[d] + Live(s.e, Token(c, d)))
      && (s.f.sent == 0 ==> multiset(s.heard) == multiset(s.notified) && forall d: nat :: Live(s.e, Token(c, d)) == 0)
      && (s.f.sent > 0 ==> exists ev :: Held(s.e, c, s.f.cookie, ev) && Owed(s, c, ev))
      && (s.e.current.Some? && IsReply(s.e.current.value, c) ==> s.f.sent > 0)
      && (i < |steps| && steps[i].HandleReply? ==> Answered(s, states[i + 1], c))
      && (i < |steps| && !steps[i].HandleReply? ==> states[i + 1].answered == s.answered)
  {
    RunKeeps(c, states, steps, i);
    var s := states[i];
    hide Live, Unique, Answered;
    if s.f.sent == 0 {
      AllHeard(s, c);
    }
    if s.e.current.Some? && IsReply(s.e.current.value, c) {
      var ev := ReplyFinds(s, c);
    }
    if i < |steps| {
      assert Next(s, c, steps[i], states[i + 1]);
      if steps[i].HandleReply? {
        ReplyKeeps(s, c, steps[i].pd);
      }
    }
  }

  // ------------------------------------------------------------ overlapping pre-transitions

  /** The response parked under cookie k will not be asked for. */
  ghost predicate Lost(s: System, c: nat, k: int, ev: Event) {
    Unique(s.e, c) && Held(s.e, c, k, ev) && ev.id == PRE && !(s.f.sent > 0 && s.f.cookie == k)
  }

  lemma {:induction false} HeldUsed(q: seq<Event>, k: int)
    requires Find(q, k) < |q|
    ensures Count(q, HasCookie(k)) >= 1
  {
    if q[0].cookie != k {
      HeldUsed(q[1..], k);
    }
  }

  /** A pre-transition being handled carries another cookie than any response parked. */
  lemma FreshCookie(e: Engine, c: nat, k: int, ev: Event)
    requires Unique(e, c) && Held(e, c, k, ev) && e.current.Some? && IsPre(e.current.value, c)
    ensures e.current.value.cookie != k
  {
    HeldUsed(e.parked[c], k);
    assert Uses(e, c, k) <= 1;
  }

  lemma PreHolds(s: System, c: nat, driver: int, valid: bool, subs: seq<Subscription>, k: int, ev: Event)
    requires Unique(s.e, c) && Held(s.e, c, k, ev) && Enabled(s, c, HandlePre(driver, valid, subs))
    ensures var t := Do(s, c, HandlePre(driver, valid, subs));
      && Unique(t.e, c) && Held(t.e, c, k, ev)
      && (t.f.sent > 0 && t.f.cookie == k ==> s.f.sent > 0 && s.f.cookie == k && driver == SUCCESS && !valid)
  {
    var r := OnPre(s.e, s.f, s.e.current.value, driver, valid, subs);
    PreFrame(s, c, driver, valid, subs);
    FreshCookie(s.e, c, k, ev);
    FinishUnique(r.e, r.reply, c);
    FinishHolds(r.e, r.reply, c, k, ev);
  }

  lemma LostStep(s: System, c: nat, st: Step, k: int, ev: Event)
    requires Lost(s, c, k, ev) && Enabled(s, c, st)
    ensures Lost(Do(s, c, st), c, k, ev)
  {
    match st
    case HandlePre(driver, valid, subs) => PreHolds(s, c, driver, valid, subs, k, ev);
    case HandleReply(pd) => ReplyHolds(s, c, pd, k, ev);
    case Other(m) =>
      MoveUnique(s.e, c, m);
      MoveHolds(s.e, c, m, k, ev);
  }

  /** The answer is looked for under the saved cookie: another response stays. */
  lemma ReplyHolds(s: System, c: nat, pd: nat, k: int, ev: Event)
    requires Lost(s, c, k, ev) && Enabled(s, c, HandleReply(pd))
    ensures Lost(Do(s, c, HandleReply(pd)), c, k, ev)
  {
    var cur, t := s.e.current.value, Do(s, c, HandleReply(pd));
    var (o, g) := OnReply(s.e, s.f, cur, pd);
    if s.f.sent > 0 && g.sent == 0 {
      var a := Answer(g, c, pd);
      PutUnique(s.e, a, false, false, c);
      PutEffect(s.e, a, false, false);
      hide PutEvent;
      if Available(s.e, a, false) {
        FindWithout(s.e.parked[c], Find(s.e.parked[c], a.cookie), k);
      }
    }
    assert t.e == o.engine.(current := None, free := t.e.free);
    ReleaseUnique(o.engine, t.e, c);
  }

  /**
   When pre-transitions overlap: handling a second one while responses to the first are missing
   loses the first, if and only if the driver refuses the second or its notification is valid.
   Otherwise the first goes on with its collected status reset to success, so what the
   subscribers said so far is forgotten unless all of them agreed.
   */
  lemma OverlapLoses(s: System, c: nat, driver: int, valid: bool, subs: seq<Subscription>) returns (ev: Event)
    requires Inv(s, c) && s.f.sent > 0 && Enabled(s, c, HandlePre(driver, valid, subs))
    ensures Held(s.e, c, s.f.cookie, ev) && Owed(s, c, ev)
    ensures var t := Do(s, c, HandlePre(driver, valid, subs));
      && (Lost(t, c, s.f.cookie, ev) <==> driver != SUCCESS || valid)
      && (driver == SUCCESS && !valid ==>
            && t.f == s.f.(status := SUCCESS) && t.statuses == s.statuses
            && (t.f.status == Verdict(t.statuses) <==> AllSucceed(t.statuses)))
  {
    ev :| Held(s.e, c, s.f.cookie, ev) && Owed(s, c, ev);
    PreHolds(s, c, driver, valid, subs, s.f.cookie, ev);
    VerdictIs(s.statuses);
  }

  const SPARE: Event := Event(0, 0, 0, 0, false, false, false, false, 0, 0)

  /** A clock 0, a power domain 1 and a subscriber 2, with six event structures. */
  const START: System := System(
    Engine([SPARE, SPARE.(slot := 1), SPARE.(slot := 2), SPARE.(slot := 3), SPARE.(slot := 4), SPARE.(slot := 5)],
           [], [], [[], [], []], None, 0),
    Fields(0, SUCCESS, 0), 0, [], [], [], 0, 0)

  const NEWS: Event := Event(0, 1, 0, 0, false, true, true, false, PRE, 0)

  const TELL: Step := Other(Notify(NEWS, false))
  const GO: Step := Other(Dispatch)

  lemma TwoTold() returns (s: System, t: System, u: System)
    ensures Next(START, 0, TELL, s) && Next(s, 0, TELL, t) && Next(t, 0, GO, u)
    ensures |u.e.parked| == 3 && u.e.parked[0] == [] && u.e.counter == 2 && |u.e.free| == 4 && u.f.sent == 0
    ensures u.e.current == Some(NEWS) && |u.e.ready| == 1 && IsPre(u.e.ready[0], 0)
  {
    s := Do(START, 0, TELL);
    t := Do(s, 0, TELL);
    assert t.e.ready == [NEWS, NEWS.(slot := 1, cookie := 1)];
    u := Do(t, 0, GO);
  }

  lemma SecondBegun(s: System) returns (t: System)
    requires |s.e.parked| == 3 && s.e.counter == 3 && s.e.free != [] && s.e.current.None?
    requires |s.e.ready| == 2 && IsPre(s.e.ready[0], 0)
    ensures Next(s, 0, GO, t) && t.f == s.f && Enabled(t, 0, HandlePre(E_PARAM, true, []))
  {
    t := Do(s, 0, GO);
  }

  /** From boot, in steps that are serialised so far, to a second pre-transition; handling it loses the first. */
  lemma OverlapReached() returns (states: seq<System>, steps: seq<Step>, ev: Event)
    ensures Run(0, states, steps) && Booted(states[0], 0)
    ensures var s := states[|steps|];
      && s.f.sent == 1 && Enabled(s, 0, HandlePre(E_PARAM, true, []))
      && Lost(Do(s, 0, HandlePre(E_PARAM, true, [])), 0, s.f.cookie, ev)
  {
    hide Do, Enabled, Inv, Lost;
    var subs := [Subscription(0, 0, 2)];
    var s1, s2, s3 := TwoTold();
    var s4 := FirstHandled(s3, subs);
    var s5 := SecondBegun(s4);
    states, steps := [START, s1, s2, s3, s4, s5], [TELL, TELL, GO, HandlePre(SUCCESS, true, subs), GO];
    assert Booted(START, 0);
    forall i, j | 0 <= i < |steps| && j == i + 1
      ensures Next(states[i], 0, steps[i], states[j]) && Serial(states[i], steps[i])
    {
      assert i == 0 || i == 1 || i == 2 || i == 3 || i == 4;
    }
    RunKeeps(0, states, steps, |steps|);
    ev := OverlapLoses(s5, 0, E_PARAM, true, []);
  }

  lemma FirstHandled(s: System, subs: seq<Subscription>) returns (t: System)
    requires |s.e.parked| == 3 && s.e.parked[0] == [] && s.e.counter == 2 && |s.e.free| == 4 && s.f.sent == 0
    requires s.e.current == Some(NEWS) && |s.e.ready| == 1 && IsPre(s.e.ready[0], 0) && subs == [Subscription(0, 0, 2)]
    ensures Enabled(s, 0, HandlePre(SUCCESS, true, subs)) && t == Do(s, 0, HandlePre(SUCCESS, true, subs))
    ensures t.f.sent == 1 && |t.e.parked| == 3 && t.e.counter == 3 && t.e.free != [] && t.e.current.None?
    ensures |t.e.ready| == 2 && t.e.ready[0] == s.e.ready[0]
  {
    assert subs[1..] == [];
    assert NotifyAll(s.e, Outbound(0, 0), subs, false).count == 1;
    t := Do(s, 0, HandlePre(SUCCESS, true, subs));
  }

  /** A lost response stays parked in every continuation: its power domain never hears. */
  lemma {:induction false} LostForever(c: nat, states: seq<System>, steps: seq<Step>, i: nat, k: int, ev: Event)
    requires AnyRun(c, states, steps) && Lost(states[0], c, k, ev) && i <= |steps|
    ensures Lost(states[i], c, k, ev)
    decreases i
  {
    if i > 0 {
      hide Lost, Do;
      LostForever(c, states, steps, i - 1, k, ev);
      assert Next(states[i - 1], c, steps[i - 1], states[i]);
      LostStep(states[i - 1], c, steps[i - 1], k, ev);
    }
  }
}
