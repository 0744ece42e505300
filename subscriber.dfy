/** The subscriber reconnect engine (src/lib/core/components/subscriber.ts).

    A `Subscriber` owns one subscription handle at a time, counts the
    messages whose handler has not yet called `ack`/`nack`, and, each time
    that count drops to zero, arms a timer; a timer that fires while the
    count is still zero tears the handle down and creates a new one.

    Timers are explicit: arming one adds a fresh id to the set of timers the
    event loop still holds, `clearTimeout` removes it, and `TimerFires(id)`
    is the event loop running it. The functional part (`SubState`, `Step`,
    `Run`) states the transitions; the class performs them field by field
    and is proved to follow them. */
module SubscriberEngine {
  import opened Values

  /** The n-th subscription object created by `setup()` has id n. */
  type HandleId = nat
  type TimerId = nat
  /** An incoming message, identified by the delivery that produced it. */
  type MessageId = nat

  /** The engine's fields, plus the timers still held by the event loop. */
  datatype SubState = SubState(
    period: int,                    // reconnectTimeoutMillis
    subscription: Option<HandleId>, // the current handle; None once cleared
    count: int,                     // messageInProcessingCount
    timeout: Option<TimerId>,       // the last timer armed; never reset to null
    pending: set<TimerId>,          // armed timers neither fired nor cancelled
    nextTimer: TimerId,
    hooked: nat)                    // number of setup() calls so far

  /** `options.reconnectAfterMillis ?? 0`. */
  function ReconnectPeriod(options: Options): (r: int)
    ensures "reconnectAfterMillis" !in options ==> r == 0
    ensures "reconnectAfterMillis" in options && options["reconnectAfterMillis"].Num? ==>
              r == options["reconnectAfterMillis"].n
  {
    NumberField(Some(options), "reconnectAfterMillis").GetOr(0)
  }

  /** `setup()`: a new subscription handle with the listener hooked on. */
  function AfterSetup(s: SubState): SubState {
    s.(subscription := Some(s.hooked), hooked := s.hooked + 1)
  }

  /** `clearTimeout()`: cancels the last armed timer (a no-op if it already ran). */
  function CancelTimer(s: SubState): SubState {
    if s.timeout.Some? then s.(pending := s.pending - {s.timeout.value}) else s
  }

  /** `clear()`: cancel the timer, remove all listeners, drop the handle. */
  function ClearState(s: SubState): SubState {
    CancelTimer(s).(subscription := None)
  }

  /** `rescheduleTimer()`: nothing when the period is 0; otherwise cancel the
      previous timer and arm a fresh one. */
  function Reschedule(s: SubState): SubState {
    if s.period == 0 then s
    else
      var c := CancelTimer(s);
      c.(timeout := Some(c.nextTimer), pending := c.pending + {c.nextTimer}, nextTimer := c.nextTimer + 1)
  }

  /** `messageOut()`: one message fewer in flight; re-arm when dry. */
  function AfterMessageOut(s: SubState): SubState {
    var d := s.(count := s.count - 1);
    if d.count == 0 then Reschedule(d) else d
  }

  /** `refresh()`: recycle the subscription only when dry. */
  function AfterRefresh(s: SubState): SubState {
    if s.count != 0 then s else AfterSetup(ClearState(s))
  }

  /** The event loop runs timer `id`: a timer no longer pending never runs. */
  function AfterFire(s: SubState, id: TimerId): SubState {
    if id in s.pending then AfterRefresh(s.(pending := s.pending - {id})) else s
  }

  /** A message arrives on the current handle; without a handle there is no
      listener, so nothing happens. */
  function AfterDeliver(s: SubState): SubState {
    if s.subscription.Some? then s.(count := s.count + 1) else s
  }

  /** The state right after construction. */
  function Initial(period: int): (s: SubState)
    ensures s.period == period && s.count == 0
    ensures s.hooked == 1 && s.subscription == Some(0)
    ensures s.timeout.None? && s.pending == {}
  {
    AfterSetup(SubState(period, None, 0, None, {}, 0, 0))
  }

  /** What can happen to an engine. */
  datatype SubEvent =
    | Delivery           // the SDK delivers a message to the listener
    | Settlement         // the handler calls the patched ack or nack
    | TimerFired(id: TimerId)
    | ExplicitClear      // a caller invokes clear()

  function Step(s: SubState, e: SubEvent): (r: SubState)
    ensures r.period == s.period && r.nextTimer >= s.nextTimer && r.hooked >= s.hooked
  {
    match e
    case Delivery => AfterDeliver(s)
    case Settlement => AfterMessageOut(s)
    case TimerFired(id) => AfterFire(s, id)
    case ExplicitClear => ClearState(s)
  }

  function Run(s: SubState, es: seq<SubEvent>): (r: SubState)
    ensures r.period == s.period && r.nextTimer >= s.nextTimer && r.hooked >= s.hooked
    decreases |es|
  {
    if es == [] then s else Run(Step(s, es[0]), es[1..])
  }

  /** The engine's invariant: the only timer that can still be pending is
      the last one armed, every timer id was handed out before, and the
      current handle is the most recently created one. */
  ghost predicate Inv(s: SubState) {
    && (s.timeout.None? ==> s.pending == {})
    && (s.timeout.Some? ==> s.pending <= {s.timeout.value} && s.timeout.value < s.nextTimer)
    && (s.subscription.Some? ==> s.subscription.value + 1 == s.hooked)
  }

  lemma InitialInv(period: int)
    ensures Inv(Initial(period))
  {
  }

  lemma StepInv(s: SubState, e: SubEvent)
    requires Inv(s)
    ensures Inv(Step(s, e))
  {
  }

  /** Every reachable state satisfies the invariant. */
  lemma {:induction false} RunInv(s: SubState, es: seq<SubEvent>)
    requires Inv(s)
    ensures Inv(Run(s, es))
    decreases |es|
  {
    if es != [] {
      StepInv(s, es[0]);
      RunInv(Step(s, es[0]), es[1..]);
    }
  }

  /** At most one timer is ever pending. */
  lemma AtMostOneTimer(s: SubState)
    requires Inv(s)
    ensures |s.pending| <= 1
  {
    if s.timeout.Some? {
      var t := s.timeout.value;
      assert s.pending == {} || s.pending == {t};
    }
  }

  /** A new timer is armed only by an ack/nack that brings the count to zero
      with a nonzero period; such a settlement always leaves exactly one
      pending timer, the fresh one. */
  lemma ArmsOnlyWhenDrained(s: SubState, e: SubEvent)
    requires Inv(s)
    ensures Step(s, e).pending - s.pending != {} ==>
              e == Settlement && s.count == 1 && s.period != 0
    ensures e == Settlement && s.count == 1 && s.period != 0 ==>
              Step(s, e).pending == {s.nextTimer} && Step(s, e).timeout == Some(s.nextTimer)
  {
    if e == Settlement && s.count == 1 && s.period != 0 {
      var c := CancelTimer(s.(count := 0));
      assert c.pending == {};
    }
  }

  /** With a reconnect period of 0 no timer is ever armed, so no reconnect
      ever happens: the number of setup() calls never changes. */
  lemma {:induction false} PeriodZeroNeverReconnects(s: SubState, es: seq<SubEvent>)
    requires s.period == 0 && s.pending == {}
    ensures Run(s, es).pending == {}
    ensures Run(s, es).hooked == s.hooked
    ensures Run(s, es).period == 0
    decreases |es|
  {
    if es != [] {
      PeriodZeroNeverReconnects(Step(s, es[0]), es[1..]);
    }
  }

  /** A timer that fires while messages are in flight only leaves the set of
      pending timers; the subscription is kept. */
  lemma BusyFireKeepsSubscription(s: SubState, id: TimerId)
    requires s.count != 0
    ensures AfterFire(s, id) == s.(pending := s.pending - {id})
  {
  }

  /** A timer that fires while the engine is dry recycles the subscription:
      the old handle is dropped, exactly one new handle is created, and no
      timer is left pending. */
  lemma DryFireRecycles(s: SubState, id: TimerId)
    requires Inv(s) && s.count == 0 && id in s.pending
    ensures var r := AfterFire(s, id);
      && r.hooked == s.hooked + 1
      && r.subscription == Some(s.hooked)
      && r.pending == {}
      && r.count == 0 && r.period == s.period
  {
  }

  /** `clear()` is not terminal: if a message was still in flight, its later
      ack re-arms the timer, and when that timer fires `refresh` calls
      `setup()` again. */
  lemma ClearNotTerminal(s: SubState)
    requires Inv(s) && s.count == 1 && s.period != 0
    ensures var cleared := ClearState(s);
      var r := Run(cleared, [Settlement, TimerFired(cleared.nextTimer)]);
      && cleared.subscription.None?
      && r.subscription == Some(s.hooked)
      && r.hooked == s.hooked + 1
  {
    var cleared := ClearState(s);
    var settled := Step(cleared, Settlement);
    assert settled.pending == {cleared.nextTimer} by {
      ArmsOnlyWhenDrained(cleared, Settlement);
    }
    assert Run(cleared, [Settlement, TimerFired(cleared.nextTimer)])
        == Run(settled, [TimerFired(cleared.nextTimer)]);
    StepInv(cleared, Settlement);
    DryFireRecycles(settled, cleared.nextTimer);
    assert Run(settled, [TimerFired(cleared.nextTimer)]) == Step(settled, TimerFired(cleared.nextTimer));
  }

  /** The runs during which the count never drops to zero. */
  ghost predicate StaysBusy(s: SubState, es: seq<SubEvent>)
    decreases |es|
  {
    es == [] || (Step(s, es[0]).count > 0 && StaysBusy(Step(s, es[0]), es[1..]))
  }

  /** While messages keep the engine busy, no timer is armed and the
      subscription is never recycled; a timer left pending by an earlier
      drain may fire meanwhile, but only retires. */
  lemma {:induction false} BusyRunNeverRecycles(s: SubState, es: seq<SubEvent>)
    requires s.count > 0 && StaysBusy(s, es)
    ensures Run(s, es).pending <= s.pending
    ensures Run(s, es).hooked == s.hooked
    decreases |es|
  {
    if es != [] {
      BusyRunNeverRecycles(Step(s, es[0]), es[1..]);
    }
  }

  /** One message handled and acknowledged, followed by the idle timer. */
  function DryCycle(timer: TimerId): seq<SubEvent> {
    [Delivery, Settlement, TimerFired(timer)]
  }

  function Cycles(n: nat): seq<SubEvent> {
    if n == 0 then [] else Cycles(n - 1) + DryCycle(n - 1)
  }

  /** With a nonzero period, every message that is handled and followed by
      an idle period causes one reconnect: n such cycles after construction
      leave n + 1 setup() calls, the n-th new handle current and no timer
      pending. */
  lemma {:induction false} DryCyclesReconnect(period: int, n: nat)
    requires period != 0
    ensures var r := Run(Initial(period), Cycles(n));
      && r.period == period && r.hooked == n + 1 && r.subscription == Some(n)
      && r.count == 0 && r.pending == {} && r.nextTimer == n
      && r.timeout == (if n == 0 then None else Some(n - 1))
  {
    if n > 0 {
      DryCyclesReconnect(period, n - 1);
      var before := Run(Initial(period), Cycles(n - 1));
      RunAppend(Initial(period), Cycles(n - 1), DryCycle(n - 1));
      var delivered := Step(before, Delivery);
      assert delivered.count == 1 && delivered.pending == {};
      var settled := Step(delivered, Settlement);
      assert settled.pending == {n - 1};
      var fired := Step(settled, TimerFired(n - 1));
      assert DryCycle(n - 1)[1..] == [Settlement, TimerFired(n - 1)];
      assert [Settlement, TimerFired(n - 1)][1..] == [TimerFired(n - 1)];
      calc {
        Run(before, DryCycle(n - 1));
        Run(delivered, [Settlement, TimerFired(n - 1)]);
        Run(settled, [TimerFired(n - 1)]);
        Run(fired, []);
      }
    }
  }

  lemma {:induction false} RunAppend(s: SubState, a: seq<SubEvent>, b: seq<SubEvent>)
    ensures Run(s, a + b) == Run(Run(s, a), b)
    decreases |a|
  {
    if a != [] {
      assert (a + b)[0] == a[0];
      assert (a + b)[1..] == a[1..] + b;
      RunAppend(Step(s, a[0]), a[1..], b);
    } else {
      assert a + b == b;
    }
  }

  /** Which of the two patched methods a handler called. */
  datatype Settle = AckOf(message: MessageId) | NackOf(message: MessageId)

  /** A call of the application handler, with the in-flight count it saw. */
  datatype HandlerCall = HandlerCall(message: MessageId, inFlight: int)

  class Subscriber {
    const subscriptionName: string
    const options: Options
    const reconnectTimeoutMillis: int
    var subscription: Option<HandleId>
    var messageInProcessingCount: int
    var timeout: Option<TimerId>
    /** Timers of this engine still held by the event loop. */
    var pendingTimers: set<TimerId>
    var nextTimerId: TimerId
    /** How many times `setup()` ran: subscriptions created and listeners hooked. */
    var hooked: nat
    /** The application handler's invocations, in order. */
    var handlerCalls: seq<HandlerCall>
    /** The original `ack`/`nack` calls the patched ones forwarded, in order. */
    var forwarded: seq<Settle>

    function State(): SubState
      reads this
    {
      SubState(reconnectTimeoutMillis, subscription, messageInProcessingCount,
               timeout, pendingTimers, nextTimerId, hooked)
    }

    ghost predicate Valid()
      reads this
    {
      Inv(State())
    }

    /** Whether the handler was ever given message `m` (only such a message
        carries the patched `ack` and `nack`). */
    ghost predicate Delivered(m: MessageId)
      reads this
    {
      exists i :: 0 <= i < |handlerCalls| && handlerCalls[i].message == m
    }

    /** Construction reads the period (default 0) and runs `setup()` once. */
    constructor (name: string, options: Options)
      ensures Valid()
      ensures subscriptionName == name && this.options == options
      ensures State() == Initial(ReconnectPeriod(options))
      ensures handlerCalls == [] && forwarded == []
    {
      subscriptionName := name;
      this.options := options;
      reconnectTimeoutMillis := ReconnectPeriod(options);
      subscription := None;
      messageInProcessingCount := 0;
      timeout := None;
      pendingTimers := {};
      nextTimerId := 0;
      hooked := 0;
      handlerCalls := [];
      forwarded := [];
      new;
      Setup();
    }

    /** `setup()` followed by `hookHandler()`: one new subscription, created
        with this engine's name and options, with the listener attached. */
    method Setup()
      modifies this
      ensures State() == AfterSetup(old(State()))
      ensures handlerCalls == old(handlerCalls) && forwarded == old(forwarded)
    {
      subscription := Some(hooked);
      hooked := hooked + 1;
    }

    /** The 'message' listener: count the message in, then hand the patched
        message to the handler. Without a current handle there is no
        listener and nothing happens. */
    method Deliver(m: MessageId)
      requires Valid()
      modifies this
      ensures Valid()
      ensures State() == AfterDeliver(old(State()))
      ensures old(subscription).Some? ==>
                messageInProcessingCount == old(messageInProcessingCount) + 1 &&
                handlerCalls == old(handlerCalls) + [HandlerCall(m, old(messageInProcessingCount) + 1)]
      ensures old(subscription).None? ==> handlerCalls == old(handlerCalls)
      ensures forwarded == old(forwarded)
    {
      if subscription.Some? {
        MessageIn();
        handlerCalls := handlerCalls + [HandlerCall(m, messageInProcessingCount)];
      }
    }

    method MessageIn()
      modifies this
      ensures State() == old(State()).(count := old(State()).count + 1)
      ensures handlerCalls == old(handlerCalls) && forwarded == old(forwarded)
    {
      messageInProcessingCount := messageInProcessingCount + 1;
    }

    /** The patched `ack` or `nack` of a delivered message: forward to the
        original once, then count the message out. */
    method AckOrNack(call: Settle)
      requires Valid() && Delivered(call.message)
      modifies this
      ensures Valid()
      ensures forwarded == old(forwarded) + [call]
      ensures State() == AfterMessageOut(old(State()))
      ensures messageInProcessingCount == old(messageInProcessingCount) - 1
      ensures handlerCalls == old(handlerCalls)
    {
      forwarded := forwarded + [call];
      MessageOut();
      StepInv(old(State()), Settlement);
    }

    method MessageOut()
      modifies this
      ensures State() == AfterMessageOut(old(State()))
      ensures handlerCalls == old(handlerCalls) && forwarded == old(forwarded)
    {
      messageInProcessingCount := messageInProcessingCount - 1;
      if IsDry() {
        RescheduleTimer();
      }
    }

    method RescheduleTimer()
      modifies this
      ensures State() == Reschedule(old(State()))
      ensures handlerCalls == old(handlerCalls) && forwarded == old(forwarded)
    {
      if reconnectTimeoutMillis == 0 {
        return;
      }
      ClearTimeout();
      timeout := Some(nextTimerId);
      pendingTimers := pendingTimers + {nextTimerId};
      nextTimerId := nextTimerId + 1;
    }

    /** The event loop runs timer `id`; its callback is `refresh()`. */
    method TimerFires(id: TimerId)
      requires Valid()
      modifies this
      ensures Valid()
      ensures State() == AfterFire(old(State()), id)
      ensures handlerCalls == old(handlerCalls) && forwarded == old(forwarded)
    {
      if id in pendingTimers {
        pendingTimers := pendingTimers - {id};
        Refresh();
      }
      StepInv(old(State()), TimerFired(id));
    }

    method Refresh()
      requires Valid()
      modifies this
      ensures Valid()
      ensures State() == AfterRefresh(old(State()))
      ensures handlerCalls == old(handlerCalls) && forwarded == old(forwarded)
    {
      if !IsDry() {
        return;
      }
      Clear();
      Setup();
    }

    /** `clear()`: cancel the timer, remove all listeners, drop the handle. */
    method Clear()
      requires Valid()
      modifies this
      ensures Valid()
      ensures State() == ClearState(old(State()))
      ensures subscription.None?
      ensures handlerCalls == old(handlerCalls) && forwarded == old(forwarded)
    {
      ClearTimeout();
      subscription := None;
    }

    method ClearTimeout()
      modifies this
      ensures State() == CancelTimer(old(State()))
      ensures handlerCalls == old(handlerCalls) && forwarded == old(forwarded)
    {
      if timeout.Some? {
        pendingTimers := pendingTimers - {timeout.value};
      }
    }

    function IsDry(): (r: bool)
      reads this
      ensures r <==> messageInProcessingCount == 0
    {
      messageInProcessingCount == 0
    }
  }
}
