/**
 The request fields and the power-domain notification fields of one clock, as its event
 handlers update them over the framework and the subscription table.
 */
module ClockDevice {
  import opened Status
  import opened Events
  import opened Framework
  import opened Notifications
  import opened DelayedResponses
  import opened ClockRequests
  import P = ClockPower

  /** The clock's part of a step of ClockRequests, on the fields themselves. */
  class Device {
    const c: nat
    const fw: Context
    var ongoing: bool
    var cookie: int

    constructor (id: nat, framework: Context)
      ensures c == id && fw == framework && !ongoing
    {
      c, fw, ongoing, cookie := id, framework, false, 0;
    }

    ghost predicate Ready()
      reads this, fw
    {
      c < |fw.parked| && (fw.current.Some? ==> fw.current.value.target < |fw.parked|)
    }

    /** A request whose driver answered "pending": queue the request event and mark it ongoing. */
    method CreateAsyncRequest(source: nat) returns (status: int)
      requires Ready()
      modifies fw, this`ongoing
      ensures fw.View() == Post(old(fw.View()), RequestEvent(c, source), false, false).engine
      ensures var put := Post(old(fw.View()), RequestEvent(c, source), false, false).status;
        if put == SUCCESS then status == PENDING && ongoing else status == put && ongoing == old(ongoing)
    {
      status := fw.PutPublic(RequestEvent(c, source), false, false);
      if status != SUCCESS {
        return;
      }
      ongoing := true;
      status := PENDING;
    }

    /**
     The request event at the head of the queue is handled: its response is parked until the
     driver completes, and is found under the cookie saved here if a structure was free.
     */
    method ProcessRequestEvent()
      requires Ready() && fw.current.None? && fw.ready != [] && IsFor(REQUEST, c)(fw.ready[0])
      modifies fw, this`cookie
      ensures var begun := Begin(old(fw.View()));
        && fw.View() == Finish(begun, Delayed(old(fw.ready)[0])) && cookie == old(fw.ready)[0].cookie
        && (Unique(begun, c) && begun.free != [] && old(fw.ready)[0].responseRequested ==>
              exists ev :: Held(fw.View(), c, cookie, ev) && ev.isDelayed && ev.target == old(fw.ready)[0].source)
    {
      var event := fw.ready[0];
      ghost var begun := Begin(fw.View());
      cookie := event.cookie;
      var reply := Response(event).(isDelayed := true);
      if Unique(begun, c) && begun.free != [] && event.responseRequested {
        ParkHolds(begun, c, reply);
      }
      fw.ProcessNextEvent(Handler([], reply));
    }

    /** The completion event releases the parked response, carrying the driver's result. */
    method ProcessResponseEvent(event: Event) returns (status: int)
      requires Ready() && event.target == c && fw.current == Some(event)
      modifies fw, this`ongoing
      ensures var before, q := old(fw.View()), old(fw.parked)[c];
        if Find(q, cookie) == |q| then status == E_PARAM && fw.View() == before && ongoing == old(ongoing)
        else
          && Outcome(fw.View(), status) == Post(before, Completed(before, c, cookie, event), false, false)
          && !ongoing
    {
      var found := fw.SearchDelayedResponse(event.target, cookie);
      if found.None? {
        return E_PARAM;
      }
      var reply := fw.parked[event.target][found.value].(params := event.params);
      ongoing := false;
      status := fw.PutPublic(reply, false, false);
    }
  }

  /** The clock's part of a step of ClockPower. */
  class PowerNotifications {
    const c: nat
    const fw: Context
    const registry: Registry
    var sent: nat
    var status: int
    var cookie: int

    constructor (id: nat, table: Registry)
      ensures c == id && registry == table && fw == table.fw && sent == 0
    {
      c, registry, fw := id, table, table.fw;
      sent, status, cookie := 0, SUCCESS, 0;
    }

    ghost function View(): P.Fields
      reads this
    {
      P.Fields(sent, status, cookie)
    }

    ghost predicate Handling(event: Event)
      reads this, fw
    {
      registry.fw == fw && fw.current == Some(event) && event.target == c < |fw.parked|
    }

    /**
     A pre-transition notification: the driver may refuse it at once; otherwise the clock
     notifies its own subscribers, those of list l, and answers now only if there were none.
     */
    method ProcessPreTransition(event: Event, driver: int, valid: bool, l: nat) returns (reply: Event)
      requires Handling(event) && l < |registry.lists|
      modifies fw, this
      ensures P.Reaction(fw.View(), View(), reply)
        == P.OnPre(old(fw.View()), old(View()), event, driver, valid, registry.lists[l])
    {
      reply := Response(event).(params := driver);
      if driver != SUCCESS {
        sent := 0;
        return;
      }
      status := SUCCESS;
      // the emitter is left open: the framework puts in the entity whose event is processed
      var outbound := P.Outbound(|fw.parked|, if event.params == P.PD_ON then P.CLOCK_RUNNING else P.CLOCK_STOPPED);
      assert outbound.(source := c) == P.Outbound(c, P.NewState(event.params));
      var notify, count := registry.Notify(outbound, valid, l, false);
      if notify != SUCCESS {
        reply := reply.(params := notify);
        return;
      }
      sent := count;
      if sent > 0 {
        reply := reply.(isDelayed := true);
        cookie := event.cookie;
      }
    }

    /** One subscriber's response; the last one releases the answer. */
    method ProcessResponse(event: Event, pd: nat) returns (result: int)
      requires Handling(event)
      modifies fw, this`sent, this`status
      ensures (Outcome(fw.View(), result), View()) == P.OnReply(old(fw.View()), old(View()), event, pd)
      ensures old(sent) == 0 ==> result == E_PANIC && fw.View() == old(fw.View()) && View() == old(View())
      ensures old(sent) > 0 ==> sent == old(sent) - 1 && status == if event.params != SUCCESS then event.params else old(status)
      ensures old(sent) > 1 ==> result == SUCCESS && fw.View() == old(fw.View())
    {
      if sent == 0 {
        return E_PANIC;
      }
      if event.params != SUCCESS {
        status := event.params;
      }
      sent := sent - 1;
      if sent == 0 {
        result := fw.PutPublic(P.Answer(P.Fields(sent, status, cookie), c, pd), false, false);
        return;
      }
      result := SUCCESS;
    }
  }
}
