/** The orchestrator `createFuQu` (src/lib/fuquAdapter.ts).

    It wraps a backend adapter and turns every public call into backend
    calls and lifecycle events. What the orchestrator does is recorded as
    one sequence of steps: an event handed to the event logger (`Emit`), a
    call into the adapter (`Call`), or a call of the application's handler
    (`Invoke`). How each foreign promise settles (the adapter's `publishJson`,
    `ack`, `nack`, `close`, the handler itself) is a parameter, and the
    `isAlive` race is decided by when the probe settles against the timer,
    with a free choice where the two tie. The pure `...Run` functions state
    each operation; the `FuQu` class performs it step by step. */
module Orchestrator {
  import opened Values
  import opened Metadata
  import Memory
  import PubSub

  /** The two backend adapters of the library's own generation. */
  datatype Adapter = MemoryAdapter | PubSubAdapter {
    /** `adapter.name`. */
    function Name(): string {
      match this
      case MemoryAdapter => "memory"
      case PubSubAdapter => "pubsub"
    }
  }

  /** The backend's own message object, as the handler receives it. */
  datatype RawMessage = FromMemory(m: Memory.Message) | FromPubSub(c: PubSub.CloudMessage)

  /** `adapter.createIncomingMessageMetadata(message, payload)`; `now` is the
      clock reading the in-memory backend takes as receive time. */
  function CreateIncoming(raw: RawMessage, payload: Payload, now: Timestamp): (r: IncomingMetadata)
    ensures r.payload == payload
    ensures raw.FromMemory? ==> r.attributes == raw.m.attributes && r.publishTime == raw.m.publishTime && r.receiveTime == now
    ensures raw.FromPubSub? ==> r.attributes == Some(raw.c.attributes) && r.publishTime == raw.c.publishTime && r.receiveTime == raw.c.received
  {
    match raw
    case FromMemory(m) => Memory.CreateIncomingMessageMetadata(m, payload, now)
    case FromPubSub(c) => PubSub.CreateIncomingMessageMetadata(c, payload)
  }

  /** A call into the wrapped adapter. */
  datatype BackendCall =
    | PublishJsonCall(payload: Payload, attributes: Option<Attributes>, publishOptions: Option<Options>)
    | RegisterHandlerCall
    | AckCall(message: RawMessage)
    | NackCall(message: RawMessage)
    | CloseCall
    | IsAliveCall

  /** One observable step of the orchestrator. */
  datatype Step =
    | Emit(event: Event)
    | Call(call: BackendCall)
    | Invoke(payload: Payload, attributes: Option<Attributes>, message: RawMessage)

  /** An operation's steps and how its returned promise settles. */
  datatype Done = Done(steps: seq<Step>, outcome: Outcome<Error>)

  /** `log(justEvent)`: the event tagged with the adapter's name and the
      instance's topic. */
  function Log(adapter: Adapter, topicName: string, body: BareEvent): (s: Step)
    ensures s.Emit? && s.event.body == body
    ensures s.event.topicName == topicName && s.event.adapter == adapter.Name()
  {
    Emit(Event(topicName, adapter.Name(), body))
  }

  /** Every event among the steps is tagged with this adapter and topic and
      none of them is a `create` event. */
  predicate LaterSteps(steps: seq<Step>, adapter: Adapter, topicName: string) {
    forall i :: 0 <= i < |steps| && steps[i].Emit? ==>
      steps[i].event.topicName == topicName && steps[i].event.adapter == adapter.Name() &&
      !steps[i].event.body.Create?
  }

  /** The events among the steps, in order. */
  function Emitted(steps: seq<Step>): seq<Event> {
    if steps == [] then []
    else Emitted(steps[..|steps| - 1]) + (if steps[|steps| - 1].Emit? then [steps[|steps| - 1].event] else [])
  }

  /** The adapter calls among the steps, in order. */
  function Calls(steps: seq<Step>): seq<BackendCall> {
    if steps == [] then []
    else Calls(steps[..|steps| - 1]) + (if steps[|steps| - 1].Call? then [steps[|steps| - 1].call] else [])
  }

  lemma {:induction false} EmittedAppend(a: seq<Step>, b: seq<Step>)
    ensures Emitted(a + b) == Emitted(a) + Emitted(b)
  {
    if b != [] {
      assert (a + b)[..|a + b| - 1] == a + b[..|b| - 1];
      EmittedAppend(a, b[..|b| - 1]);
    } else {
      assert a + b == a;
    }
  }

  lemma {:induction false} CallsAppend(a: seq<Step>, b: seq<Step>)
    ensures Calls(a + b) == Calls(a) + Calls(b)
  {
    if b != [] {
      assert (a + b)[..|a + b| - 1] == a + b[..|b| - 1];
      CallsAppend(a, b[..|b| - 1]);
    } else {
      assert a + b == a;
    }
  }

  /** Construction: one `create` event carrying the options, nothing else. */
  function CreateSteps(adapter: Adapter, topicName: string, options: Option<Options>): (r: seq<Step>)
    ensures Emitted(r) == [Event(topicName, adapter.Name(), Create(options))]
    ensures Calls(r) == []
  {
    var r := [Log(adapter, topicName, Create(options))];
    assert r[..0] == [];
    r
  }

  /** `publish`: `publishJson` first; the `publish` event only once it has
      resolved; a rejection is passed on with no event. */
  function PublishRun(adapter: Adapter, topicName: string, payload: Payload, attributes: Option<Attributes>,
                      publishOptions: Option<Options>, published: Outcome<Error>): (r: Done)
    ensures LaterSteps(r.steps, adapter, topicName)
  {
    Done([Call(PublishJsonCall(payload, attributes, publishOptions))] +
         (if published.Pass? then [Log(adapter, topicName, Publish(payload, attributes))] else []),
         published)
  }

  /** `subscribe`: the `subscribe` event with the handler's name, then one
      registration of the wrapped handler, whose settling is passed on. */
  function SubscribeRun(adapter: Adapter, topicName: string, handlerName: string, registered: Outcome<Error>): (r: Done)
    ensures LaterSteps(r.steps, adapter, topicName)
  {
    Done([Log(adapter, topicName, Subscribe(handlerName)), Call(RegisterHandlerCall)], registered)
  }

  /** `close`: the `close` event only once the adapter's close has resolved. */
  function CloseRun(adapter: Adapter, topicName: string, closed: Outcome<Error>): (r: Done)
    ensures LaterSteps(r.steps, adapter, topicName)
  {
    Done([Call(CloseCall)] + (if closed.Pass? then [Log(adapter, topicName, Close)] else []), closed)
  }

  /** How the three awaited calls of one delivery settle: the application
      handler, then the adapter's `ack` and `nack` if they are reached. */
  datatype Reaction = Reaction(handler: Outcome<Error>, ack: Outcome<Error>, nack: Outcome<Error>)

  /** The adapters' finished-metadata builder, which the wrapped handler
      calls with the incoming record it built before. */
  function CreateFinished(incoming: IncomingMetadata, finishedAt: Timestamp): Result<FinishedMetadata, Error> {
    Success(CreateFinishedMessageMetadata(incoming, finishedAt))
  }

  /** The wrapped handler for one delivery, given what the adapter's
      finished-metadata builder returns (it throws on `Failure`). Inside the
      `try`: the `receive` event, the handler, `adapter.ack`, the `ack`
      event. Anything thrown there leads to `adapter.nack` and the `nack`
      event carrying the error; a throw inside the `catch` rejects the
      wrapped handler. */
  function DeliveryRunWith(adapter: Adapter, topicName: string, raw: RawMessage, payload: Payload,
                           attributes: Option<Attributes>, receivedAt: Timestamp, x: Reaction,
                           finished: Result<FinishedMetadata, Error>): (r: Done)
    ensures LaterSteps(r.steps, adapter, topicName)
  {
    var incoming := CreateIncoming(raw, payload, receivedAt);
    var head := [Log(adapter, topicName, Receive(incoming)), Invoke(payload, attributes, raw)];
    if x.handler.Pass? && x.ack.Pass? && finished.Success? then
      Done(head + [Call(AckCall(raw)), Log(adapter, topicName, Ack(finished.value))], Pass)
    else
      var tried := if x.handler.Pass? then head + [Call(AckCall(raw))] else head;
      var error := if x.handler.Fail? then x.handler.error else if x.ack.Fail? then x.ack.error else finished.error;
      var caught := tried + [Call(NackCall(raw))];
      if x.nack.Fail? then Done(caught, x.nack)
      else if finished.Failure? then Done(caught, Fail(finished.error))
      else Done(caught + [Log(adapter, topicName, Nack(finished.value, error))], Pass)
  }

  /** The wrapped handler with the adapters' builder. */
  function DeliveryRun(adapter: Adapter, topicName: string, raw: RawMessage, payload: Payload,
                       attributes: Option<Attributes>, receivedAt: Timestamp, finishedAt: Timestamp,
                       x: Reaction): (r: Done)
    ensures LaterSteps(r.steps, adapter, topicName)
  {
    DeliveryRunWith(adapter, topicName, raw, payload, attributes, receivedAt, x,
                    CreateFinished(CreateIncoming(raw, payload, receivedAt), finishedAt))
  }

  /** The wrapped handler's steps, case by case, with the adapters' builder
      (which always succeeds). */
  lemma DeliverySteps(adapter: Adapter, topicName: string, raw: RawMessage, payload: Payload,
                      attributes: Option<Attributes>, receivedAt: Timestamp, finishedAt: Timestamp, x: Reaction)
    ensures var incoming := CreateIncoming(raw, payload, receivedAt);
      var finished := CreateFinishedMessageMetadata(incoming, finishedAt);
      var head := [Log(adapter, topicName, Receive(incoming)), Invoke(payload, attributes, raw)];
      var r := DeliveryRun(adapter, topicName, raw, payload, attributes, receivedAt, finishedAt, x);
      && (x.handler.Pass? && x.ack.Pass? ==>
            r.steps == head + [Call(AckCall(raw)), Log(adapter, topicName, Ack(finished))] && r.outcome == Pass)
      && (x.handler.Pass? && x.ack.Fail? ==>
            r.steps == head + [Call(AckCall(raw))] + [Call(NackCall(raw))] +
              (if x.nack.Pass? then [Log(adapter, topicName, Nack(finished, x.ack.error))] else [])
            && r.outcome == x.nack)
      && (x.handler.Fail? ==>
            r.steps == head + [Call(NackCall(raw))] +
              (if x.nack.Pass? then [Log(adapter, topicName, Nack(finished, x.handler.error))] else [])
            && r.outcome == x.nack)
  {
  }

  /** The event a step contributes, if it is one. */
  function EventOf(s: Step): seq<Event> {
    if s.Emit? then [s.event] else []
  }

  /** The adapter call a step contributes, if it is one. */
  function CallOf(s: Step): seq<BackendCall> {
    if s.Call? then [s.call] else []
  }

  /** One more step adds its own event or call at the end. */
  lemma Snoc(steps: seq<Step>, s: Step)
    ensures Emitted(steps + [s]) == Emitted(steps) + EventOf(s)
    ensures Calls(steps + [s]) == Calls(steps) + CallOf(s)
  {
    assert (steps + [s])[..|steps|] == steps;
  }

  /** The events and calls of one, two, three and four steps. */
  lemma One(a: Step)
    ensures Emitted([a]) == EventOf(a) && Calls([a]) == CallOf(a)
  {
    Snoc([], a);
    assert [] + [a] == [a];
  }

  lemma Two(a: Step, b: Step)
    ensures Emitted([a, b]) == EventOf(a) + EventOf(b) && Calls([a, b]) == CallOf(a) + CallOf(b)
  {
    One(a);
    Snoc([a], b);
    assert [a] + [b] == [a, b];
  }

  lemma Three(a: Step, b: Step, c: Step)
    ensures Emitted([a, b, c]) == EventOf(a) + EventOf(b) + EventOf(c)
    ensures Calls([a, b, c]) == CallOf(a) + CallOf(b) + CallOf(c)
  {
    Two(a, b);
    Snoc([a, b], c);
    assert [a, b] + [c] == [a, b, c];
  }

  lemma Four(a: Step, b: Step, c: Step, d: Step)
    ensures Emitted([a, b, c, d]) == EventOf(a) + EventOf(b) + EventOf(c) + EventOf(d)
    ensures Calls([a, b, c, d]) == CallOf(a) + CallOf(b) + CallOf(c) + CallOf(d)
  {
    Three(a, b, c);
    Snoc([a, b, c], d);
    assert [a, b, c] + [d] == [a, b, c, d];
  }

  /** For one delivery whose handler succeeds and whose `ack` resolves: the
      `receive` event, the handler, `adapter.ack`, then the `ack` event; no
      nack. */
  lemma DeliveryAcked(adapter: Adapter, topicName: string, raw: RawMessage, payload: Payload,
                      attributes: Option<Attributes>, receivedAt: Timestamp, finishedAt: Timestamp, x: Reaction)
    requires x.handler.Pass? && x.ack.Pass?
    ensures var r := DeliveryRun(adapter, topicName, raw, payload, attributes, receivedAt, finishedAt, x);
      var incoming := CreateIncoming(raw, payload, receivedAt);
      var finished := CreateFinishedMessageMetadata(incoming, finishedAt);
      && r.steps[0] == Log(adapter, topicName, Receive(incoming))
      && r.steps[1] == Invoke(payload, attributes, raw)
      && r.steps[2] == Call(AckCall(raw))
      && Emitted(r.steps) == [Event(topicName, adapter.Name(), Receive(incoming)),
                              Event(topicName, adapter.Name(), Ack(finished))]
      && Calls(r.steps) == [AckCall(raw)]
      && r.outcome == Pass
  {
    var r := DeliveryRun(adapter, topicName, raw, payload, attributes, receivedAt, finishedAt, x);
    var incoming := CreateIncoming(raw, payload, receivedAt);
    var rcv := Log(adapter, topicName, Receive(incoming));
    var inv := Invoke(payload, attributes, raw);
    var ackEvent := Log(adapter, topicName, Ack(CreateFinishedMessageMetadata(incoming, finishedAt)));
    assert r.steps == [rcv, inv, Call(AckCall(raw)), ackEvent];
    AckThenEvent(rcv, inv, raw, ackEvent);
  }

  /** The events and calls of a receive, a handler call, an ack and the
      `ack` event. */
  lemma AckThenEvent(rcv: Step, inv: Step, raw: RawMessage, ackEvent: Step)
    requires rcv.Emit? && inv.Invoke? && ackEvent.Emit?
    ensures Emitted([rcv, inv, Call(AckCall(raw)), ackEvent]) == [rcv.event, ackEvent.event]
    ensures Calls([rcv, inv, Call(AckCall(raw)), ackEvent]) == [AckCall(raw)]
  {
    Four(rcv, inv, Call(AckCall(raw)), ackEvent);
  }

  /** For one delivery whose handler throws: the `receive` event and the
      handler, no `adapter.ack`, then `adapter.nack`, and, if the nack
      resolved, the `nack` event carrying the handler's error; a rejected
      nack rejects the wrapped handler. */
  lemma DeliveryHandlerThrew(adapter: Adapter, topicName: string, raw: RawMessage, payload: Payload,
                             attributes: Option<Attributes>, receivedAt: Timestamp, finishedAt: Timestamp, x: Reaction)
    requires x.handler.Fail?
    ensures var r := DeliveryRun(adapter, topicName, raw, payload, attributes, receivedAt, finishedAt, x);
      var incoming := CreateIncoming(raw, payload, receivedAt);
      var finished := CreateFinishedMessageMetadata(incoming, finishedAt);
      && r.steps[0] == Log(adapter, topicName, Receive(incoming))
      && r.steps[1] == Invoke(payload, attributes, raw)
      && r.steps[2] == Call(NackCall(raw))
      && Emitted(r.steps) == [Event(topicName, adapter.Name(), Receive(incoming))] +
           (if x.nack.Pass? then [Event(topicName, adapter.Name(), Nack(finished, x.handler.error))] else [])
      && Calls(r.steps) == [NackCall(raw)]
      && r.outcome == x.nack
  {
    var r := DeliveryRun(adapter, topicName, raw, payload, attributes, receivedAt, finishedAt, x);
    var incoming := CreateIncoming(raw, payload, receivedAt);
    var finished := CreateFinishedMessageMetadata(incoming, finishedAt);
    var rcv := Log(adapter, topicName, Receive(incoming));
    var inv := Invoke(payload, attributes, raw);
    var tried := [rcv, inv, Call(NackCall(raw))];
    var last := if x.nack.Pass? then [Log(adapter, topicName, Nack(finished, x.handler.error))] else [];
    assert r.steps == tried + last;
    NackOnly(rcv, inv, raw);
    OptionalEvent(last);
    EmittedAppend(tried, last);
    CallsAppend(tried, last);
  }

  /** The events and calls of a receive, a handler call and a nack. */
  lemma NackOnly(rcv: Step, inv: Step, raw: RawMessage)
    requires rcv.Emit? && inv.Invoke?
    ensures Emitted([rcv, inv, Call(NackCall(raw))]) == [rcv.event]
    ensures Calls([rcv, inv, Call(NackCall(raw))]) == [NackCall(raw)]
  {
    Three(rcv, inv, Call(NackCall(raw)));
  }

  /** For one delivery whose handler succeeds but whose `ack` rejects: the
      `receive` event, the handler, `adapter.ack`, then `adapter.nack` of the
      same message, and, if the nack resolved, the `nack` event carrying the
      ack's error; no `ack` event. */
  lemma DeliveryAckRejected(adapter: Adapter, topicName: string, raw: RawMessage, payload: Payload,
                            attributes: Option<Attributes>, receivedAt: Timestamp, finishedAt: Timestamp, x: Reaction)
    requires x.handler.Pass? && x.ack.Fail?
    ensures var r := DeliveryRun(adapter, topicName, raw, payload, attributes, receivedAt, finishedAt, x);
      var incoming := CreateIncoming(raw, payload, receivedAt);
      var finished := CreateFinishedMessageMetadata(incoming, finishedAt);
      && r.steps[0] == Log(adapter, topicName, Receive(incoming))
      && r.steps[1] == Invoke(payload, attributes, raw)
      && Emitted(r.steps) == [Event(topicName, adapter.Name(), Receive(incoming))] +
           (if x.nack.Pass? then [Event(topicName, adapter.Name(), Nack(finished, x.ack.error))] else [])
      && Calls(r.steps) == [AckCall(raw), NackCall(raw)]
      && r.outcome == x.nack
  {
    var r := DeliveryRun(adapter, topicName, raw, payload, attributes, receivedAt, finishedAt, x);
    var incoming := CreateIncoming(raw, payload, receivedAt);
    var finished := CreateFinishedMessageMetadata(incoming, finishedAt);
    var rcv := Log(adapter, topicName, Receive(incoming));
    var inv := Invoke(payload, attributes, raw);
    var tried := [rcv, inv, Call(AckCall(raw)), Call(NackCall(raw))];
    var last := if x.nack.Pass? then [Log(adapter, topicName, Nack(finished, x.ack.error))] else [];
    assert r.steps == tried + last;
    AckThenNack(rcv, inv, raw);
    OptionalEvent(last);
    EmittedAppend(tried, last);
    CallsAppend(tried, last);
  }

  /** The events and calls of a receive, a handler call, an ack and a nack. */
  lemma AckThenNack(rcv: Step, inv: Step, raw: RawMessage)
    requires rcv.Emit? && inv.Invoke?
    ensures Emitted([rcv, inv, Call(AckCall(raw)), Call(NackCall(raw))]) == [rcv.event]
    ensures Calls([rcv, inv, Call(AckCall(raw)), Call(NackCall(raw))]) == [AckCall(raw), NackCall(raw)]
  {
    Four(rcv, inv, Call(AckCall(raw)), Call(NackCall(raw)));
  }

  /** At most one trailing event: its events are itself, and it calls nothing. */
  lemma OptionalEvent(last: seq<Step>)
    requires |last| <= 1 && (last != [] ==> last[0].Emit?)
    ensures Emitted(last) == (if last == [] then [] else [last[0].event])
    ensures Calls(last) == []
  {
    if last != [] {
      One(last[0]);
      assert last == [last[0]];
    }
  }

  /** The incoming record is built once per delivery and reused: the
      finished record of the `ack` or `nack` event repeats it field for
      field, so both events agree with `receive` on payload, attributes,
      publish time and receive time; with the in-memory backend these are
      the ones the message was published with. */
  lemma MetadataReused(adapter: Adapter, topicName: string, m: Memory.Message, receivedAt: Timestamp,
                       finishedAt: Timestamp, x: Reaction)
    requires x.handler.Pass? && x.ack.Pass?
    ensures var r := DeliveryRun(adapter, topicName, FromMemory(m), m.payload, m.attributes, receivedAt, finishedAt, x);
      && r.steps[0].Emit? && r.steps[0].event.body.Receive?
      && r.steps[|r.steps| - 1].Emit? && r.steps[|r.steps| - 1].event.body.Ack?
      && var incoming := r.steps[0].event.body.incoming;
         var finished := r.steps[|r.steps| - 1].event.body.finished;
         && finished.IncomingPart() == incoming
         && incoming.payload == m.payload && incoming.attributes == m.attributes
         && incoming.publishTime == m.publishTime && incoming.receiveTime == receivedAt
         && finished.finishTime == finishedAt
  {
  }

  /** Node's `setTimeout`: a delay below 1 ms or above 2^31 - 1 ms is
      replaced by 1 ms. */
  const MaxTimerDelay: int := 2147483647

  /** `isAlive(timeoutMillis = 10 * 1e3)`: the delay of the timer it races
      against the probe. */
  function TimerDelay(timeoutMillis: Option<int>): (d: int)
    ensures 1 <= d <= MaxTimerDelay
    ensures timeoutMillis.None? ==> d == 10000
    ensures timeoutMillis.Some? && 1 <= timeoutMillis.value <= MaxTimerDelay ==> d == timeoutMillis.value
  {
    var t := timeoutMillis.GetOr(10000);
    if t < 1 || t > MaxTimerDelay then 1 else t
  }

  /** When the probe (with its `catch`) settles, if ever. */
  function SettlesAt(probe: Settling<bool>): Option<nat> {
    match probe
    case ResolvesAfter(_, after) => Some(after)
    case RejectsAfter(_, after) => Some(after)
    case NeverSettles => None
  }

  /** Whether the probe settles the race: it settles before the timer,
      or together with it and the event loop (`timerFirst` false) runs it
      first. */
  predicate ProbeWins(probe: Settling<bool>, delay: int, timerFirst: bool) {
    var at := SettlesAt(probe);
    at.Some? && (at.value < delay || (at.value == delay && !timerFirst))
  }

  /** The value `Promise.race` settles with: the probe's value if it wins,
      `false` if it rejected (the `catch`) or lost to the timer. */
  function RaceResult(probe: Settling<bool>, timeoutMillis: Option<int>, timerFirst: bool): (ok: bool)
    ensures ok ==> probe.ResolvesAfter? && probe.value
  {
    if ProbeWins(probe, TimerDelay(timeoutMillis), timerFirst) && probe.ResolvesAfter? then probe.value else false
  }

  /** `isAlive` is true exactly when the probe resolves with true before
      the timer (or with it, when the event loop runs the probe first). */
  lemma {:induction false} IsAliveOnlyIfProbeSaysSo(probe: Settling<bool>, timeoutMillis: Option<int>, timerFirst: bool)
    ensures RaceResult(probe, timeoutMillis, timerFirst) <==>
      probe.ResolvesAfter? && probe.value &&
      (probe.after < TimerDelay(timeoutMillis) || (probe.after == TimerDelay(timeoutMillis) && !timerFirst))
  {
  }

  /** A rejecting probe, a probe that never settles, and a probe slower
      than the timer all give `false`. */
  lemma IsAliveFalseCases(probe: Settling<bool>, timeoutMillis: Option<int>, timerFirst: bool)
    ensures probe.RejectsAfter? || probe.NeverSettles? ==> !RaceResult(probe, timeoutMillis, timerFirst)
    ensures probe.ResolvesAfter? && probe.after > TimerDelay(timeoutMillis) ==> !RaceResult(probe, timeoutMillis, timerFirst)
  {
  }

  /** A probe that has already settled (after 0 ms) always decides the race,
      whatever the timeout. */
  lemma SettledProbeDecides(v: bool, timeoutMillis: Option<int>, timerFirst: bool)
    ensures RaceResult(ResolvesAfter(v, 0), timeoutMillis, timerFirst) == v
  {
  }

  /** `isAlive`: the adapter's probe raced against the timer, then one `hc`
      event carrying the value returned. */
  function IsAliveSteps(adapter: Adapter, topicName: string, ok: bool): (r: seq<Step>)
    ensures LaterSteps(r, adapter, topicName)
  {
    [Call(IsAliveCall), Log(adapter, topicName, Hc(ok))]
  }

  /** The in-memory probe with the default timeout reports the `opened`
      flag as it stands when the probe's 500 ms sleep ends (the value
      `Memory.MemoryBackend.ProbeSettles` reads): true until `close`, false
      after. With `isAlive(0)` the timer (clamped to 1 ms) beats the 500 ms
      probe and the answer is false. */
  lemma MemoryHealthCheck(isOpened: bool, timerFirst: bool)
    ensures RaceResult(ResolvesAfter(isOpened, Memory.ProbeDelayMillis), None, timerFirst) == isOpened
    ensures !RaceResult(ResolvesAfter(isOpened, Memory.ProbeDelayMillis), Some(0), timerFirst)
  {
  }

  /** `publish` calls `publishJson` once; the `publish` event, carrying the
      payload and attributes, follows only if that call resolved, and a
      rejection is passed on with no event. */
  lemma PublishEvents(adapter: Adapter, topicName: string, payload: Payload, attributes: Option<Attributes>,
                      publishOptions: Option<Options>, published: Outcome<Error>)
    ensures var r := PublishRun(adapter, topicName, payload, attributes, publishOptions, published);
      && r.steps[0] == Call(PublishJsonCall(payload, attributes, publishOptions))
      && Emitted(r.steps) == (if published.Pass? then [Event(topicName, adapter.Name(), Publish(payload, attributes))] else [])
      && Calls(r.steps) == [PublishJsonCall(payload, attributes, publishOptions)]
      && r.outcome == published
  {
    var r := PublishRun(adapter, topicName, payload, attributes, publishOptions, published);
    var call := Call(PublishJsonCall(payload, attributes, publishOptions));
    if published.Pass? {
      Two(call, Log(adapter, topicName, Publish(payload, attributes)));
    } else {
      One(call);
    }
  }

  /** `subscribe` emits the `subscribe` event with the handler's name and
      then registers exactly one wrapped handler. */
  lemma SubscribeEvents(adapter: Adapter, topicName: string, handlerName: string, registered: Outcome<Error>)
    ensures var r := SubscribeRun(adapter, topicName, handlerName, registered);
      && r.steps[0] == Log(adapter, topicName, Subscribe(handlerName))
      && Emitted(r.steps) == [Event(topicName, adapter.Name(), Subscribe(handlerName))]
      && Calls(r.steps) == [RegisterHandlerCall]
      && r.outcome == registered
  {
    Two(Log(adapter, topicName, Subscribe(handlerName)), Call(RegisterHandlerCall));
  }

  /** `close` calls the adapter's close; the `close` event follows only if
      it resolved. */
  lemma CloseEvents(adapter: Adapter, topicName: string, closed: Outcome<Error>)
    ensures var r := CloseRun(adapter, topicName, closed);
      && r.steps[0] == Call(CloseCall)
      && Emitted(r.steps) == (if closed.Pass? then [Event(topicName, adapter.Name(), Close)] else [])
      && Calls(r.steps) == [CloseCall]
      && r.outcome == closed
  {
    if closed.Pass? {
      Two(Call(CloseCall), Log(adapter, topicName, Close));
    } else {
      One(Call(CloseCall));
    }
  }

  /** `isAlive` probes the adapter once and emits exactly one `hc` event,
      carrying the value it returns. */
  lemma IsAliveEvents(adapter: Adapter, topicName: string, ok: bool)
    ensures Emitted(IsAliveSteps(adapter, topicName, ok)) == [Event(topicName, adapter.Name(), Hc(ok))]
    ensures Calls(IsAliveSteps(adapter, topicName, ok)) == [IsAliveCall]
  {
    Two(Call(IsAliveCall), Log(adapter, topicName, Hc(ok)));
  }

  /** The steps of one in-memory instance that is built, given a handler,
      publishes one message, has it delivered and acked, is health-checked
      and closed. */
  function FullCycle(topicName: string, options: Option<Options>, handlerName: string,
                     m: Memory.Message, receivedAt: Timestamp, finishedAt: Timestamp, ok: bool): seq<Step>
  {
    CreateSteps(MemoryAdapter, topicName, options) +
    SubscribeRun(MemoryAdapter, topicName, handlerName, Pass).steps +
    PublishRun(MemoryAdapter, topicName, m.payload, m.attributes, None, Pass).steps +
    DeliveryRun(MemoryAdapter, topicName, FromMemory(m), m.payload, m.attributes, receivedAt, finishedAt, Reaction(Pass, Pass, Pass)).steps +
    IsAliveSteps(MemoryAdapter, topicName, ok) +
    CloseRun(MemoryAdapter, topicName, Pass).steps
  }

  /** The events of that cycle, in order. */
  lemma FullCycleEvents(topicName: string, options: Option<Options>, handlerName: string,
                        m: Memory.Message, receivedAt: Timestamp, finishedAt: Timestamp, ok: bool)
    ensures var name := "memory";
      var incoming := CreateIncoming(FromMemory(m), m.payload, receivedAt);
      Emitted(FullCycle(topicName, options, handlerName, m, receivedAt, finishedAt, ok)) ==
        [Event(topicName, name, Create(options)), Event(topicName, name, Subscribe(handlerName)),
         Event(topicName, name, Publish(m.payload, m.attributes)), Event(topicName, name, Receive(incoming)),
         Event(topicName, name, Ack(CreateFinishedMessageMetadata(incoming, finishedAt))),
         Event(topicName, name, Hc(ok)), Event(topicName, name, Close)]
  {
    var c := CreateSteps(MemoryAdapter, topicName, options);
    var s := SubscribeRun(MemoryAdapter, topicName, handlerName, Pass).steps;
    var p := PublishRun(MemoryAdapter, topicName, m.payload, m.attributes, None, Pass).steps;
    var d := DeliveryRun(MemoryAdapter, topicName, FromMemory(m), m.payload, m.attributes, receivedAt, finishedAt, Reaction(Pass, Pass, Pass)).steps;
    var h := IsAliveSteps(MemoryAdapter, topicName, ok);
    var k := CloseRun(MemoryAdapter, topicName, Pass).steps;
    var name := "memory";
    var incoming := CreateIncoming(FromMemory(m), m.payload, receivedAt);
    var e0, e1, e2 := Event(topicName, name, Create(options)), Event(topicName, name, Subscribe(handlerName)),
                      Event(topicName, name, Publish(m.payload, m.attributes));
    var e3, e4 := Event(topicName, name, Receive(incoming)),
                  Event(topicName, name, Ack(CreateFinishedMessageMetadata(incoming, finishedAt)));
    var e5, e6 := Event(topicName, name, Hc(ok)), Event(topicName, name, Close);
    assert Emitted(c) == [e0];
    SubscribeEvents(MemoryAdapter, topicName, handlerName, Pass);
    assert Emitted(s) == [e1];
    PublishEvents(MemoryAdapter, topicName, m.payload, m.attributes, None, Pass);
    assert Emitted(p) == [e2];
    DeliveryAcked(MemoryAdapter, topicName, FromMemory(m), m.payload, m.attributes, receivedAt, finishedAt, Reaction(Pass, Pass, Pass));
    assert Emitted(d) == [e3, e4];
    IsAliveEvents(MemoryAdapter, topicName, ok);
    assert Emitted(h) == [e5];
    CloseEvents(MemoryAdapter, topicName, Pass);
    assert Emitted(k) == [e6];
    EmittedAppend(c, s);
    EmittedAppend(c + s, p);
    EmittedAppend(c + s + p, d);
    EmittedAppend(c + s + p + d, h);
    EmittedAppend(c + s + p + d + h, k);
    assert FullCycle(topicName, options, handlerName, m, receivedAt, finishedAt, ok) == c + s + p + d + h + k;
    Concat7(e0, e1, e2, e3, e4, e5, e6);
  }

  /** The cycle's pieces of one, one, one, two, one and one element, joined. */
  lemma Concat7<T>(x0: T, x1: T, x2: T, x3: T, x4: T, x5: T, x6: T)
    ensures [x0] + [x1] + [x2] + [x3, x4] + [x5] + [x6] == [x0, x1, x2, x3, x4, x5, x6]
  {
  }

  /** The whole trace of that cycle: the events are exactly create,
      subscribe, publish, receive, ack, hc, close, all tagged with the
      instance's topic and the adapter name "memory". */
  lemma FullCycleTrace(topicName: string, options: Option<Options>, handlerName: string,
                       m: Memory.Message, receivedAt: Timestamp, finishedAt: Timestamp, ok: bool)
    ensures var events := Emitted(FullCycle(topicName, options, handlerName, m, receivedAt, finishedAt, ok));
      && Actions(events) == ["create", "subscribe", "publish", "receive", "ack", "hc", "close"]
      && (forall i :: 0 <= i < |events| ==> events[i].topicName == topicName && events[i].adapter == "memory")
  {
    FullCycleEvents(topicName, options, handlerName, m, receivedAt, finishedAt, ok);
    var incoming := CreateIncoming(FromMemory(m), m.payload, receivedAt);
    CycleShape(topicName, "memory", Create(options), Subscribe(handlerName), Publish(m.payload, m.attributes),
               Receive(incoming), Ack(CreateFinishedMessageMetadata(incoming, finishedAt)), Hc(ok), Close);
  }

  /** Seven events of the cycle's kinds, all with one topic and adapter:
      their action names in order, and their tags. */
  lemma CycleShape(topicName: string, name: string,
                   b0: BareEvent, b1: BareEvent, b2: BareEvent, b3: BareEvent, b4: BareEvent, b5: BareEvent, b6: BareEvent)
    requires b0.Create? && b1.Subscribe? && b2.Publish? && b3.Receive? && b4.Ack? && b5.Hc? && b6.Close?
    ensures var es := [Event(topicName, name, b0), Event(topicName, name, b1), Event(topicName, name, b2),
                       Event(topicName, name, b3), Event(topicName, name, b4), Event(topicName, name, b5),
                       Event(topicName, name, b6)];
      && Actions(es) == ["create", "subscribe", "publish", "receive", "ack", "hc", "close"]
      && forall i :: 0 <= i < |es| ==> es[i].topicName == topicName && es[i].adapter == name
  {
    var e0, e1, e2, e3 := Event(topicName, name, b0), Event(topicName, name, b1), Event(topicName, name, b2), Event(topicName, name, b3);
    var e4, e5, e6 := Event(topicName, name, b4), Event(topicName, name, b5), Event(topicName, name, b6);
    Peel7(e0, e1, e2, e3, e4, e5, e6);
    ActionsCons(e6, []);
    ActionsCons(e5, [e6]);
    ActionsCons(e4, [e5, e6]);
    ActionsCons(e3, [e4, e5, e6]);
    ActionsCons(e2, [e3, e4, e5, e6]);
    ActionsCons(e1, [e2, e3, e4, e5, e6]);
    ActionsCons(e0, [e1, e2, e3, e4, e5, e6]);
    Peel7("create", "subscribe", "publish", "receive", "ack", "hc", "close");
  }

  /** Seven elements taken apart one at a time from the front. */
  lemma Peel7<T>(x0: T, x1: T, x2: T, x3: T, x4: T, x5: T, x6: T)
    ensures [x6] + [] == [x6]
    ensures [x5] + [x6] == [x5, x6]
    ensures [x4] + [x5, x6] == [x4, x5, x6]
    ensures [x3] + [x4, x5, x6] == [x3, x4, x5, x6]
    ensures [x2] + [x3, x4, x5, x6] == [x2, x3, x4, x5, x6]
    ensures [x1] + [x2, x3, x4, x5, x6] == [x1, x2, x3, x4, x5, x6]
    ensures [x0] + [x1, x2, x3, x4, x5, x6] == [x0, x1, x2, x3, x4, x5, x6]
  {
  }

  /** An instance of `createFuQu`: the adapter, the topic, the options, and
      the steps taken so far. */
  class FuQu {
    const adapter: Adapter
    const topicName: string
    const options: Option<Options>
    var log: seq<Step>

    /** The first step is the one `create` event; every later event is
        tagged with this instance's adapter and topic. */
    ghost predicate Valid()
      reads this
    {
      |log| >= 1 && log[0] == Log(adapter, topicName, Create(options)) &&
      LaterSteps(log[1..], adapter, topicName)
    }

    /** `createFuQu(adapter, topicName, options)`. */
    constructor (adapter: Adapter, topicName: string, options: Option<Options>)
      ensures this.adapter == adapter && this.topicName == topicName && this.options == options
      ensures log == CreateSteps(adapter, topicName, options)
      ensures Valid()
    {
      this.adapter := adapter;
      this.topicName := topicName;
      this.options := options;
      log := [Log(adapter, topicName, Create(options))];
    }

    /** `log(justEvent)`: tag the event and hand it to the event logger. */
    method Emit(body: BareEvent)
      requires Valid() && !body.Create?
      modifies this`log
      ensures Valid()
      ensures log == old(log) + [Log(adapter, topicName, body)]
    {
      log := log + [Log(adapter, topicName, body)];
      assert log[1..] == old(log)[1..] + [Log(adapter, topicName, body)];
    }

    method CallAdapter(call: BackendCall)
      requires Valid()
      modifies this`log
      ensures Valid()
      ensures log == old(log) + [Call(call)]
    {
      log := log + [Call(call)];
      assert log[1..] == old(log)[1..] + [Call(call)];
    }

    method Publish(payload: Payload, attributes: Option<Attributes>, publishOptions: Option<Options>,
                   published: Outcome<Error>) returns (outcome: Outcome<Error>)
      requires Valid()
      modifies this`log
      ensures Valid()
      ensures var r := PublishRun(adapter, topicName, payload, attributes, publishOptions, published);
        log == old(log) + r.steps && outcome == r.outcome
    {
      CallAdapter(PublishJsonCall(payload, attributes, publishOptions));
      if published.Fail? {
        return published;
      }
      Emit(Metadata.Publish(payload, attributes));
      outcome := Pass;
    }

    method Subscribe(handlerName: string, registered: Outcome<Error>) returns (outcome: Outcome<Error>)
      requires Valid()
      modifies this`log
      ensures Valid()
      ensures var r := SubscribeRun(adapter, topicName, handlerName, registered);
        log == old(log) + r.steps && outcome == r.outcome
    {
      Emit(Metadata.Subscribe(handlerName));
      CallAdapter(RegisterHandlerCall);
      outcome := registered;
    }

    /** The application handler is called with the payload, the attributes
        and the backend's message. */
    method CallHandler(payload: Payload, attributes: Option<Attributes>, raw: RawMessage)
      requires Valid()
      modifies this`log
      ensures Valid()
      ensures log == old(log) + [Invoke(payload, attributes, raw)]
    {
      log := log + [Invoke(payload, attributes, raw)];
      assert log[1..] == old(log)[1..] + [Invoke(payload, attributes, raw)];
    }

    /** The `catch` of the wrapped handler: `adapter.nack`, then the `nack`
        event with the error, unless the nack rejects. */
    method Caught(raw: RawMessage, incoming: IncomingMetadata, finishedAt: Timestamp, error: Error,
                  nack: Outcome<Error>) returns (outcome: Outcome<Error>)
      requires Valid()
      modifies this`log
      ensures Valid()
      ensures log == old(log) + [Call(NackCall(raw))] +
        (if nack.Pass? then [Log(adapter, topicName, Nack(CreateFinishedMessageMetadata(incoming, finishedAt), error))] else [])
      ensures outcome == nack
    {
      CallAdapter(NackCall(raw));
      if nack.Fail? {
        return nack;
      }
      Emit(Nack(CreateFinishedMessageMetadata(incoming, finishedAt), error));
      outcome := Pass;
    }

    /** After the handler resolved: `adapter.ack` and the `ack` event, or,
        when the ack rejects, the `catch`. */
    method Settle(raw: RawMessage, incoming: IncomingMetadata, finishedAt: Timestamp,
                  ack: Outcome<Error>, nack: Outcome<Error>) returns (outcome: Outcome<Error>)
      requires Valid()
      modifies this`log
      ensures Valid()
      ensures ack.Pass? ==> log == old(log) + [Call(AckCall(raw)), Log(adapter, topicName, Ack(CreateFinishedMessageMetadata(incoming, finishedAt)))]
      ensures ack.Pass? ==> outcome == Pass
      ensures ack.Fail? ==> (log == old(log) + [Call(AckCall(raw))] + [Call(NackCall(raw))] +
        (if nack.Pass? then [Log(adapter, topicName, Nack(CreateFinishedMessageMetadata(incoming, finishedAt), ack.error))] else []))
      ensures ack.Fail? ==> outcome == nack
    {
      CallAdapter(AckCall(raw));
      if ack.Pass? {
        Emit(Ack(CreateFinishedMessageMetadata(incoming, finishedAt)));
        return Pass;
      }
      outcome := Caught(raw, incoming, finishedAt, ack.error, nack);
    }

    /** The wrapped handler, run for one delivery. */
    method Deliver(raw: RawMessage, payload: Payload, attributes: Option<Attributes>,
                   receivedAt: Timestamp, finishedAt: Timestamp, x: Reaction) returns (outcome: Outcome<Error>)
      requires Valid()
      modifies this`log
      ensures Valid()
      ensures var r := DeliveryRun(adapter, topicName, raw, payload, attributes, receivedAt, finishedAt, x);
        log == old(log) + r.steps && outcome == r.outcome
    {
      var incoming := CreateIncoming(raw, payload, receivedAt);
      DeliverySteps(adapter, topicName, raw, payload, attributes, receivedAt, finishedAt, x);
      Emit(Receive(incoming));
      CallHandler(payload, attributes, raw);
      if x.handler.Pass? {
        outcome := Settle(raw, incoming, finishedAt, x.ack, x.nack);
      } else {
        outcome := Caught(raw, incoming, finishedAt, x.handler.error, x.nack);
      }
    }

    method Close(closed: Outcome<Error>) returns (outcome: Outcome<Error>)
      requires Valid()
      modifies this`log
      ensures Valid()
      ensures var r := CloseRun(adapter, topicName, closed);
        log == old(log) + r.steps && outcome == r.outcome
    {
      CallAdapter(CloseCall);
      if closed.Fail? {
        return closed;
      }
      Emit(Metadata.Close);
      outcome := Pass;
    }

    method IsAlive(timeoutMillis: Option<int>, probe: Settling<bool>, timerFirst: bool) returns (ok: bool)
      requires Valid()
      modifies this`log
      ensures Valid()
      ensures ok == RaceResult(probe, timeoutMillis, timerFirst)
      ensures log == old(log) + IsAliveSteps(adapter, topicName, ok)
    {
      CallAdapter(IsAliveCall);
      var delay := TimerDelay(timeoutMillis);
      ok := false;
      match probe {
        case ResolvesAfter(v, after) =>
          if after < delay || (after == delay && !timerFirst) {
            ok := v;
          }
        case RejectsAfter(_, _) =>
        case NeverSettles =>
      }
      Emit(Hc(ok));
    }
  }
}
