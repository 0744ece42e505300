# fuqu, modelled in Dafny

fuqu is a small TypeScript library that puts one interface over message
queues: publish a JSON payload with attributes, subscribe a handler that is
acked when it succeeds and nacked when it throws, ask whether the
connection is alive, and close it. Every action is reported as an event to
an optional event logger. This project models the core of the library's
`lib/` generation:

- **values.dfy** (`Values`): the JavaScript values the library handles.
  These are option objects, JSON payloads, and the coercions it relies on:
  truthiness, `??`, object spread and `String(x)`.
- **metadata.dfy** (`Metadata`): the incoming and finished message
  metadata records, the finished-metadata arithmetic and the lifecycle
  events.
- **subscriber.dfy** (`SubscriberEngine`): the subscriber's reconnect
  engine, as a class whose methods update its fields.
  - It counts the messages in flight and arms a timer when the count drops
    to zero. A timer that fires while the engine is still idle recycles the
    subscription.
  - The functions `Step`/`Run` state the transitions and the class is
    proved to follow them. Lemmas state what every run preserves.
- **memory.dfy** (`Memory`): the in-memory backend, as a class over its
  message stack, open-message counter, handlers and `opened` flag.
  - `setImmediate` callbacks are an explicit task queue run by
    `RunImmediate`.
  - The consume step is modelled literally, loop included.
- **pubsub.dfy** (`PubSub`): the Google Pub/Sub adapter's own logic.
  - `useMock` chooses the in-memory backend.
  - `maxMessages` is rewritten into the subscription's flow control, on the
    caller's options object.
  - The publish request forwards only `orderingKey`.
  - It has its own incoming-metadata builder.
- **orchestrator.dfy** (`Orchestrator`): `createFuQu`, which wraps a
  backend adapter.
  - Each operation is a sequence of steps: an event handed to the logger,
    a call into the adapter, or a call of the application's handler.
  - How each foreign promise settles is a parameter.
  - The `isAlive` race is decided by when the probe settles against the
    timer. Where the two tie, the order is a free choice.
  - The `FuQu` class performs the operations and is proved equal to the
    pure `...Run` functions.
- **factory.dfy** (`Factory`): the `FuQu(createClient, options)` factory.
  It holds the options merge that feeds each new subscriber, and the
  publisher's hook-then-publish order with its `String(result)`.
- **findings.dfy** (`Findings`) and **scenarios.dfy** (`Scenarios`): the
  in-memory backend's finished-metadata builder as written, traced through
  the orchestrator and the backend, next to the corrected builder.
  Scenarios also hold short runs of the backend's event loop.

The two backends are a closed datatype (`Orchestrator.Adapter`), not an
open interface. The orchestrator does not look inside them. It records
what it asks of the adapter and takes how each call settles as a parameter.
Timestamps are integer milliseconds.

## Model

| member | source | states |
|---|---|---|
| Values.Spread | src/lib/adapters/pubsub.ts:18-21 | spreading an object copies exactly its own fields; spreading `undefined`, `null`, a boolean, a number or a function copies nothing |
| Values.NumberField | src/lib/queue/memory.ts:15 | a numeric option is read only when the key is present and holds a number |
| Values.JsString | src/lib/core/fuqu-factory.ts:31 | `String(x)` of a string is that string, and of `undefined` (absent or present) is "undefined" |
| Values.NatToDecimalRoundTrip | src/lib/core/fuqu-factory.ts:31 | the decimal text `String(n)` gives for a natural number reads back as `n` |
| Metadata.CreateFinishedMessageMetadata | src/lib/adapters/pubsub.ts:70-77 | the finished record keeps every incoming field; publish time plus total duration, and receive time plus process duration, both equal the finish time |
| Metadata.DurationsOrdered | src/lib/adapters/pubsub.ts:70-77 | when publish <= receive <= finish: 0 <= process duration <= total duration, and total = (receive - publish) + process |
| Metadata.Actions | src/lib/fuqu.ts:22-39 | one action name per event |
| Metadata.ActionsInOrder | src/lib/fuqu.ts:22-39 | the i-th action name is the `action` discriminator of the i-th event |
| SubscriberEngine.ReconnectPeriod | src/lib/core/components/subscriber.ts:24 | the period is `reconnectAfterMillis` when it is a number, and 0 when it is absent |
| SubscriberEngine.Initial | src/lib/core/components/subscriber.ts:18-35 | a new engine has count 0, no timer, one `setup()` call and the first handle current |
| SubscriberEngine.Step | src/lib/core/components/subscriber.ts:37-99 | one event (a delivery, an ack or nack, a timer firing, a `clear()` call) keeps the period and never lowers the timer ids or the number of `setup()` calls; `StepInv` shows it keeps the invariant |
| SubscriberEngine.Run | src/lib/core/components/subscriber.ts:37-99 | the same over any sequence of events; `RunInv` and `RunAppend` show it keeps the invariant and composes |
| SubscriberEngine.AfterDeliver | src/lib/core/components/subscriber.ts:38-42 | with a handle the count goes up by 1, without one nothing happens (stated by `Subscriber.Deliver`, whose new state is this function of the old) |
| SubscriberEngine.AfterMessageOut | src/lib/core/components/subscriber.ts:63-68 | the count goes down by 1 and the timer is re-armed exactly when it reaches 0 (`ArmsOnlyWhenDrained`) |
| SubscriberEngine.Reschedule | src/lib/core/components/subscriber.ts:70-76 | nothing for period 0, else the last timer is cancelled and one fresh timer armed (`ArmsOnlyWhenDrained`, `AtMostOneTimer`) |
| SubscriberEngine.AfterFire | src/lib/core/components/subscriber.ts:73-83 | a timer no longer pending does nothing; a pending one retires and refreshes (`BusyFireKeepsSubscription`, `DryFireRecycles`) |
| SubscriberEngine.AfterRefresh | src/lib/core/components/subscriber.ts:78-83 | busy: no change; idle: `clear()` then `setup()`, one new handle (`DryFireRecycles`) |
| SubscriberEngine.ClearState | src/lib/core/components/subscriber.ts:85-89 | the last timer is cancelled and the handle dropped, and the engine is not finished (`ClearNotTerminal`) |
| SubscriberEngine.InitialInv | src/lib/core/components/subscriber.ts:13-27 | the engine invariant holds right after construction |
| SubscriberEngine.StepInv | src/lib/core/components/subscriber.ts:37-99 | every delivery, ack/nack, timer firing and `clear()` preserves the invariant: only the last-armed timer can be pending, and the current handle is the newest |
| SubscriberEngine.RunInv | src/lib/core/components/subscriber.ts:37-99 | the invariant holds after any sequence of events |
| SubscriberEngine.AtMostOneTimer | src/lib/core/components/subscriber.ts:70-76 | at most one timer is ever pending |
| SubscriberEngine.ArmsOnlyWhenDrained | src/lib/core/components/subscriber.ts:63-76 | a new timer appears only when an ack/nack brings the count from 1 to 0 with a nonzero period; that ack/nack always leaves exactly the fresh timer pending |
| SubscriberEngine.PeriodZeroNeverReconnects | src/lib/core/components/subscriber.ts:70-71 | with period 0, no run ever arms a timer or calls `setup()` again |
| SubscriberEngine.BusyFireKeepsSubscription | src/lib/core/components/subscriber.ts:78-79 | a timer firing while messages are in flight changes nothing but retiring that timer |
| SubscriberEngine.DryFireRecycles | src/lib/core/components/subscriber.ts:78-89 | a pending timer firing while the engine is idle drops the handle and creates exactly one new one, leaving no timer pending |
| SubscriberEngine.ClearNotTerminal | src/lib/core/components/subscriber.ts:63-89 | after `clear()` with one message in flight, that message's ack and the timer it arms create a new subscription |
| SubscriberEngine.BusyRunNeverRecycles | src/lib/core/components/subscriber.ts:63-83 | while the count never drops to 0, no timer is armed and no reconnect happens; a timer left from an earlier drain may fire but only retires |
| SubscriberEngine.DryCyclesReconnect | src/lib/core/components/subscriber.ts:37-83 | with a nonzero period, n cycles of (delivery, ack, idle timer) after construction give n + 1 `setup()` calls and no pending timer |
| SubscriberEngine.RunAppend | src/lib/core/components/subscriber.ts:37-99 | running two event sequences one after the other is running their concatenation |
| SubscriberEngine.Subscriber.constructor | src/lib/core/components/subscriber.ts:18-27 | the fields start as `Initial` of the period read from the options, with the invariant |
| SubscriberEngine.Subscriber.Setup | src/lib/core/components/subscriber.ts:29-35 | one new handle becomes current and the `setup()` count goes up by one |
| SubscriberEngine.Subscriber.Deliver | src/lib/core/components/subscriber.ts:37-56 | with a handle, the count goes up by exactly 1 before the handler is called, and the handler sees the new count; without one, nothing happens |
| SubscriberEngine.Subscriber.MessageIn | src/lib/core/components/subscriber.ts:59-61 | the count goes up by one and nothing else changes |
| SubscriberEngine.Subscriber.AckOrNack | src/lib/core/components/subscriber.ts:43-54 | the original ack/nack is forwarded once, the count goes down by exactly 1, and a timer is re-armed when it reaches 0; the invariant is kept |
| SubscriberEngine.Subscriber.MessageOut | src/lib/core/components/subscriber.ts:63-68 | the count goes down by one, and the timer is rescheduled exactly when the engine is then idle |
| SubscriberEngine.Subscriber.RescheduleTimer | src/lib/core/components/subscriber.ts:70-76 | with period 0, nothing changes; otherwise the previous timer is cancelled and one fresh timer is armed |
| SubscriberEngine.Subscriber.TimerFires | src/lib/core/components/subscriber.ts:73-75 | a cancelled or spent timer does nothing; a pending one is retired and runs `refresh()`; the invariant is kept |
| SubscriberEngine.Subscriber.Refresh | src/lib/core/components/subscriber.ts:78-83 | with messages in flight, nothing changes; otherwise `clear()` then `setup()` |
| SubscriberEngine.Subscriber.Clear | src/lib/core/components/subscriber.ts:85-89 | the last timer is cancelled and no handle is left |
| SubscriberEngine.Subscriber.ClearTimeout | src/lib/core/components/subscriber.ts:91-95 | the last-armed timer leaves the pending set; the `timeout` field itself is kept |
| SubscriberEngine.Subscriber.IsDry | src/lib/core/components/subscriber.ts:97-99 | true exactly when no message is in flight |
| Memory.BoundOf | src/lib/queue/memory.ts:15 | an absent `maxMessages` means no bound; a given one is the bound |
| Memory.PopCount | src/lib/queue/memory.ts:16-24 | a consume step pops `max(0, min(maxMessages, length) - opened)` messages |
| Memory.PopCountWithinLength | src/lib/queue/memory.ts:17-21 | with a non-negative open count, a step never pops more messages than are waiting |
| Memory.PopCountKeepsBound | src/lib/queue/memory.ts:15-21 | if at most `maxMessages` are open before a step, at most `maxMessages` are open after it; a step that pops fills up to `min(maxMessages, length)` |
| Memory.BoundReachedPopsNothing | src/lib/queue/memory.ts:17 | once the bound is reached (always, for bound 0), nothing is popped |
| Memory.UnboundedIdlePopsAll | src/lib/queue/memory.ts:15-21 | with no bound and nothing open, a step pops every waiting message |
| Memory.WaitingDespiteCapacity | src/lib/queue/memory.ts:17-18 | when as many messages are open as are waiting, a step pops nothing even though the bound admits more |
| Memory.PopLast | src/lib/queue/memory.ts:21 | one pop: the last message and the rest, which put back together give the array; `undefined` and an empty array when it was empty |
| Memory.PopMany | src/lib/queue/memory.ts:19-21 | k pops yield k values |
| Memory.PopManyTakesFromEnd | src/lib/queue/memory.ts:19-21 | popping k <= length times takes the last k messages, newest first, and leaves the others in place |
| Memory.PopManyPastEnd | src/lib/queue/memory.ts:21 | popping more times than there are messages empties the array and yields `undefined` for every extra pop |
| Memory.Dispatches | src/lib/queue/memory.ts:22 | one dispatch callback per popped value |
| Memory.DispatchesInOrder | src/lib/queue/memory.ts:19-22 | the i-th scheduled dispatch carries the i-th popped value |
| Memory.Fanout | src/lib/queue/memory.ts:22 | a dispatched message goes to every registered handler, in registration order, with its own payload and attributes |
| Memory.CreateIncomingMessageMetadata | src/lib/queue/memory.ts:41-46 | the incoming record has the given payload, the stored attributes and publish time, and the clock reading as receive time |
| Memory.MemoryBackend.constructor | src/lib/queue/memory.ts:10-15 | a new backend is open, with no messages, none open, no handlers, the bound from the options, and conservation holding |
| Memory.MemoryBackend.PublishJson | src/lib/queue/memory.ts:32-35 | exactly one message with the given payload, attributes and clock reading is appended, and one consume step is scheduled; nothing else changes and conservation is kept |
| Memory.MemoryBackend.RegisterHandler | src/lib/queue/memory.ts:36-38 | the handler is appended to the handlers |
| Memory.MemoryBackend.Ack | src/lib/queue/memory.ts:39 | the open count goes down by one and the messages are untouched; conservation is kept |
| Memory.MemoryBackend.Nack | src/lib/queue/memory.ts:40 | the open count goes down by one, the same message is pushed back, and a consume step is scheduled; conservation is kept |
| Memory.MemoryBackend.Close | src/lib/queue/memory.ts:31 | only the `opened` flag changes, to false |
| Memory.MemoryBackend.IsAlive | src/lib/queue/memory.ts:30 | `isAlive()` starts one 500 ms sleep and reads nothing yet |
| Memory.MemoryBackend.ProbeSettles | src/lib/queue/memory.ts:30 | when a sleep ends, the probe resolves 500 ms after its start with the `opened` flag as it is at that moment |
| Memory.MemoryBackend.Consume | src/lib/queue/memory.ts:16-26 | pops `PopCount` messages from the end and opens that many; schedules their dispatches in order, plus another step if messages remain; keeps the bound and, with a non-negative open count, conservation |
| Memory.MemoryBackend.PopLoop | src/lib/queue/memory.ts:19-23 | the loop leaves the array, the open count and the task queue exactly as `toPop` successive pops would |
| Memory.MemoryBackend.PopStep | src/lib/queue/memory.ts:17-23 | the guarded loop: the array, the open count and the task queue end as `PopCount` pops would leave them |
| Memory.MemoryBackend.Pop | src/lib/queue/memory.ts:21 | `messages.pop()` on the object: the array and the value returned are exactly `PopLast` of the old array |
| Memory.MemoryBackend.RunImmediate | src/lib/queue/memory.ts:22-25 | runs the oldest callback: a consume step as above; a dispatch fans the message out to every handler; a dispatch of `undefined` crashes exactly when a handler exists; the published and acked counts are kept, and so is conservation when no open count is negative |
| PubSub.WithFlowControl | src/lib/adapters/pubsub.ts:18-25 | the new subscription options have the old keys plus `flowControl`, and every other old key keeps its value |
| PubSub.FlowControlSet | src/lib/adapters/pubsub.ts:20-24 | the new flow control sets `maxMessages` and `allowExcessMessages: false` and keeps every other old flow-control key |
| PubSub.Configure | src/lib/adapters/pubsub.ts:13-46 | the in-memory backend is chosen exactly when `useMock` is truthy; the options stay present or absent as given, and every key except `subscriptionOptions` keeps its value |
| PubSub.MockUsesMemory | src/lib/adapters/pubsub.ts:14-16 | with `useMock`, the in-memory backend is built from the same `maxMessages`, the options are untouched, and the client is not called |
| PubSub.MaxMessagesRewritesFlowControl | src/lib/adapters/pubsub.ts:17-26 | with a truthy `maxMessages` and no `useMock`, only `subscriptionOptions` changes, and its flow control carries `maxMessages` and `allowExcessMessages: false` |
| PubSub.NoMaxMessagesNoRewrite | src/lib/adapters/pubsub.ts:17 | with `maxMessages` absent or 0, the options are untouched |
| PubSub.PubSubClientCalls | src/lib/adapters/pubsub.ts:27-46 | without `useMock`: the topic with the publish options, then the subscription named after the topic with the rewritten subscription options |
| PubSub.FuQuPubSub | src/lib/adapters/pubsub.ts:13-46 | the backend chosen and the caller's options object afterwards are those `Configure` gives for the options before the call |
| PubSub.PublishJsonRequest | src/lib/adapters/pubsub.ts:52-54 | the request carries the payload as `json`, the attributes, and the per-call `orderingKey` |
| PubSub.OnlyOrderingKeyForwarded | src/lib/adapters/pubsub.ts:53 | two sets of per-call publish options with the same `orderingKey` give the same request |
| PubSub.CreateIncomingMessageMetadata | src/lib/adapters/pubsub.ts:64-69 | the receive time is the client's `received` stamp, and the other fields come from the message |
| Orchestrator.CreateIncoming | src/lib/fuquAdapter.ts:49 | the incoming record of each backend has the given payload, and that backend's attributes, publish time and receive time |
| Orchestrator.Log | src/lib/fuquAdapter.ts:33-39 | every logged event carries the adapter's name and the instance's topic around the given body |
| Orchestrator.CreateSteps | src/lib/fuquAdapter.ts:40 | construction emits exactly one `create` event carrying the options, and calls nothing |
| Orchestrator.PublishRun | src/lib/fuquAdapter.ts:42-45 | every event of `publish` is tagged and is not `create` |
| Orchestrator.SubscribeRun | src/lib/fuquAdapter.ts:46-71 | every event of `subscribe` is tagged and is not `create` |
| Orchestrator.CloseRun | src/lib/fuquAdapter.ts:72 | every event of `close` is tagged and is not `create` |
| Orchestrator.DeliveryRunWith | src/lib/fuquAdapter.ts:48-69 | every event of a delivery is tagged and is not `create`, whatever the builder returns |
| Orchestrator.DeliveryRun | src/lib/fuquAdapter.ts:48-69 | every event of a delivery is tagged and is not `create` |
| Orchestrator.EmittedAppend | src/lib/fuquAdapter.ts:33-39 | the events of two step sequences run one after the other are the first's followed by the second's |
| Orchestrator.CallsAppend | src/lib/fuquAdapter.ts:42-72 | the adapter calls of two step sequences run one after the other are the first's followed by the second's |
| Orchestrator.DeliveryAcked | src/lib/fuquAdapter.ts:49-60 | handler and ack succeed: `receive` comes before the handler call, then `adapter.ack`, then the `ack` event; no nack, and the promise resolves |
| Orchestrator.DeliveryHandlerThrew | src/lib/fuquAdapter.ts:48-68 | the handler throws: no ack, then `adapter.nack`, then a `nack` event carrying the handler's error if the nack resolved; the promise settles as the nack did |
| Orchestrator.DeliveryAckRejected | src/lib/fuquAdapter.ts:55-68 | the handler succeeds and ack rejects: `adapter.ack`, then `adapter.nack`, then a `nack` event carrying the ack's error; no `ack` event |
| Orchestrator.MetadataReused | src/lib/fuquAdapter.ts:49-66 | the `ack` event repeats the `receive` event's incoming record field for field; on the in-memory backend, the payload, attributes and publish time are the published ones |
| Orchestrator.TimerDelay | src/lib/fuquAdapter.ts:73-76 | the timeout defaults to 10000 ms; the timer delay is always between 1 and 2^31 - 1 and is the given timeout when that is in range |
| Orchestrator.RaceResult | src/lib/fuquAdapter.ts:74-77 | `isAlive` can only be true when the probe resolves with true |
| Orchestrator.IsAliveOnlyIfProbeSaysSo | src/lib/fuquAdapter.ts:74-77 | `isAlive` is true exactly when the probe resolves with true before the timer, or together with it when the event loop runs the probe first |
| Orchestrator.IsAliveFalseCases | src/lib/fuquAdapter.ts:74-77 | a rejecting probe, a probe that never settles, and a probe slower than the timer all give false |
| Orchestrator.SettledProbeDecides | src/lib/fuquAdapter.ts:74-77 | a probe that has already settled decides the race whatever the timeout |
| Orchestrator.IsAliveSteps | src/lib/fuquAdapter.ts:73-80 | every event of `isAlive` is tagged and is not `create` |
| Orchestrator.MemoryHealthCheck | src/lib/fuquAdapter.ts:73-79 | the in-memory probe with the default timeout reports the `opened` flag; `isAlive(0)` gives false |
| Orchestrator.PublishEvents | src/lib/fuquAdapter.ts:42-45 | `publishJson` is called once, first; the `publish` event follows only if it resolved; a rejection is passed on with no event |
| Orchestrator.SubscribeEvents | src/lib/fuquAdapter.ts:46-71 | the `subscribe` event with the handler's name, then exactly one handler registration |
| Orchestrator.CloseEvents | src/lib/fuquAdapter.ts:72 | the adapter's close is called first; the `close` event follows only if it resolved |
| Orchestrator.IsAliveEvents | src/lib/fuquAdapter.ts:73-80 | one probe call and exactly one `hc` event carrying the returned value |
| Orchestrator.FullCycleEvents | src/lib/fuquAdapter.ts:40-80 | an in-memory create/subscribe/publish/deliver/isAlive/close cycle emits exactly these seven events with these bodies |
| Orchestrator.FullCycleTrace | src/lib/fuquAdapter.ts:33-80 | that cycle's actions are create, subscribe, publish, receive, ack, hc, close, and every event carries the topic and the adapter name "memory" |
| Orchestrator.FuQu.constructor | src/lib/fuquAdapter.ts:27-40 | the instance starts with the one `create` step |
| Orchestrator.FuQu.Emit | src/lib/fuquAdapter.ts:33-39 | appends the tagged event; the trace keeps `create` first and every later event tagged |
| Orchestrator.FuQu.CallAdapter | src/lib/fuquAdapter.ts:41-80 | appends one backend call to the trace and keeps the trace's shape |
| Orchestrator.FuQu.Publish | src/lib/fuquAdapter.ts:42-45 | appends exactly `PublishRun`'s steps and settles as it says |
| Orchestrator.FuQu.Subscribe | src/lib/fuquAdapter.ts:46-71 | appends exactly `SubscribeRun`'s steps |
| Orchestrator.FuQu.CallHandler | src/lib/fuquAdapter.ts:55 | appends the handler call with the payload, attributes and message |
| Orchestrator.FuQu.Caught | src/lib/fuquAdapter.ts:61-68 | appends `adapter.nack`, then the `nack` event with the error unless the nack rejected; settles as the nack did |
| Orchestrator.FuQu.Deliver | src/lib/fuquAdapter.ts:48-69 | appends exactly `DeliveryRun`'s steps and settles as it says |
| Orchestrator.FuQu.Settle | src/lib/fuquAdapter.ts:56-67 | after the handler resolved: `adapter.ack` then the `ack` event, or, when the ack rejects, `adapter.nack` and a `nack` event with the ack's error, settling as the nack did |
| Orchestrator.FuQu.Close | src/lib/fuquAdapter.ts:72 | appends exactly `CloseRun`'s steps |
| Orchestrator.FuQu.IsAlive | src/lib/fuquAdapter.ts:73-80 | returns the race result and appends the probe call and one `hc` event with it |
| Factory.MergeOptions | src/lib/core/fuqu-factory.ts:44-48 | the merged keys are the defaults' plus the additional ones; an additional value wins over a default; a default without a clash is kept |
| Factory.OptionsValue | src/lib/core/fuqu-factory.ts:44-48 | spreading an options object yields its fields, and an absent one yields nothing |
| Factory.MergeWithoutAdditional | src/lib/core/fuqu-factory.ts:44-48 | without additional options (absent or empty), the subscriber gets exactly the defaults |
| Factory.Hook | src/lib/core/fuqu-factory.ts:26 | without a logger, no hook is called; a hook is called exactly when it is a function, and throws exactly when it is present and neither `undefined`, `null` nor a function |
| Factory.CreatePublisher | src/lib/core/fuqu-factory.ts:23-27 | client then topic, then (as the third and last step) the `initializedPublisher` hook exactly when it is a function; `createPublisher` returns exactly when the hook is absent or its call returns; a hook that throws passes its error on, and a non-function hook throws a `TypeError` |
| Factory.Publish | src/lib/core/fuqu-factory.ts:28-32 | nothing happens exactly when the `publishedMessage` hook is not callable; `publishMessage` is called exactly when the hook is absent or its call returns |
| Factory.PublishLogsThenPublishes | src/lib/core/fuqu-factory.ts:28-32 | the hook is called exactly when it is a function. When it returns (or is absent), `publishMessage` is called once, last, with the options as given, and the result is the id string or the publish error. When it throws, `publish` rejects with that error after the hook alone |
| Factory.UndefinedOverridesDefault | src/lib/core/fuqu-factory.ts:44-48 | a subscriber option set to `undefined` overrides the factory's `reconnectAfterMillis`, and the period becomes 0 |
| Factory.PublishNumericId | src/lib/core/fuqu-factory.ts:29-31 | `publish` resolves exactly when the hook is absent or returns, and then a numeric message id comes back as decimal text that reads back as the id |
| Factory.BrokenHookPublishesNothing | src/lib/core/fuqu-factory.ts:29 | a hook that is not a function rejects before anything is published |
| Factory.CreateSubscriber | src/lib/core/fuqu-factory.ts:35-50 | one fresh subscriber, with the given name and the merged options, in its initial state |
| Findings.OfIncoming | src/lib/fuqu.ts:11-14 | an incoming record has both times |
| Findings.OfStored | src/lib/queue/memory.ts:8 | a stored message has a publish time and no receive time |
| Findings.BuildFinished | src/lib/queue/memory.ts:47-55 | the builder succeeds exactly when the object it reads has both times |
| Findings.AsWrittenAlwaysThrows | src/lib/queue/memory.ts:47-55 | as written, the in-memory finished builder throws for every message and every clock reading |
| Findings.CorrectedIsSharedBuilder | src/lib/queue/memory.ts:47-55 | with the parameters in the contract's order, the builder is the shared one: every incoming field kept, durations measured from the incoming times |
| Findings.AckedMessageIsAlsoNacked | src/lib/fuquAdapter.ts:55-68 | with the builder as written, a successful delivery is acked and then nacked; only `receive` is emitted and the wrapped handler rejects |
| Findings.DoubleReleasePopsPastEnd | src/lib/queue/memory.ts:16-22 | after an ack and a nack of one message, the next step pops twice from a one-element array; the second pop is `undefined` |
| Findings.Redeliver | src/lib/queue/memory.ts:16-26 | that step hands the message to the handler once more and then crashes dispatching `undefined`; with no reaction from the handler between the callbacks, one message is open at the crash |
| Findings.AsWrittenRedelivery | src/lib/queue/memory.ts:32-40 | publish, dispatch, ack, then nack of the same message ends in the crash |
| Scenarios.PublishAndDispatch | src/lib/queue/memory.ts:16-38 | one published message with one handler is consumed (one open) and delivered once to that handler; nothing is left waiting or scheduled |
| Scenarios.ConsumeAndDispatch | src/lib/queue/memory.ts:16-25 | one stored message, none open: two event-loop turns open it, empty the array and the task queue, and call the one handler once with it |
| Scenarios.HealthCheckWhileOpen | src/lib/queue/memory.ts:30 | with the default timeout, a health check of an open backend is true |
| Scenarios.CloseDuringHealthCheck | src/lib/queue/memory.ts:30-31 | a `close()` during the probe's sleep makes that health check false |
| Scenarios.NackedMessageComesBack | src/lib/adapters/index.test.ts:57-68 | a nacked message is consumed again and the handler is called a second time with the same message |

## Left out

- Of the Google Pub/Sub client, only the `topic()` and `subscription()`
  calls are recorded (`PubSub.ClientCall`). `topic().get`,
  `subscription().get`, `setPublishOptions`, `setOptions`,
  `on('message')`, `isOpen` and `close` are not modelled. The Pub/Sub
  adapter's `isAlive` and `close` become a probe and an outcome passed to
  the orchestrator.
- The RabbitMQ adapter and the older `src/` snapshots of the orchestrator
  and the Pub/Sub adapter are not part of this model. They repeat the
  modelled logic over other clients.
- Real timers, `setImmediate` and `sleep(500)` are explicit events:
  - the subscriber's `TimerFires`;
  - the backend's task queue and `RunImmediate`;
  - the end of the in-memory probe's sleep (`ProbeSettles`), and the
    probe's settling time in the `isAlive` race.
- Wall-clock `Date` values are integer milliseconds passed in as
  parameters. `Date` objects and fractional or non-finite numbers (NaN,
  Infinity as a value) are not modelled; `Values.Num` holds integers.
- `JSON.parse` of Pub/Sub message data is not modelled: the parsed payload
  is a parameter. Serialisation of payloads is not modelled either.
- `debug` output is left out, and events are appended to a trace rather
  than passed to an `eventLogger`; a throwing `eventLogger` is not
  modelled.
- The subscriber's logger hooks are left out, and so is what they do when
  one throws or is present but not a function:
  - an `ackMessage` or `nackMessage` hook that throws does so after the
    original ack or nack and before `messageOut()`
    (src/lib/core/components/subscriber.ts:46-47, 51-52), so the count
    never returns to 0 and the reconnect timer is never armed;
  - a throwing `receivedMessage` hook (line 39) stops the listener before
    `messageIn()`, so the handler is not called;
  - a throwing `initializedSubscriber` hook (line 25) aborts the
    constructor before `setup()`;
  - a throwing `subscriberReconnected` hook (line 80) stops `refresh()`
    before `clear()`.
  The model always takes the path where every hook returns normally.
- The subscriber's application handler and the monkey-patched message
  object are abstracted: messages are numbered deliveries, and the handler
  decides when to call the patched `ack`/`nack` (`AckOrNack`).
- The subscription SDK's `removeAllListeners` is folded into dropping the
  handle; a dropped handle receives nothing.
- `Orchestrator.FuQu.IsAlive`: the probe is given by when it settles and
  with what. Where the probe and the timer settle in the same
  millisecond, the order is a free choice (`timerFirst`), not Node's own
  timer ordering.
- `Values.NumberField`: a numeric option whose value is present but not
  a number (say `maxMessages: false` or `reconnectAfterMillis: "5"`) is
  treated as absent, whereas `??` keeps it and JavaScript's `<` and
  truthiness then act on it. The option types only admit numbers, so such
  values are outside the model: `SubscriberEngine.ReconnectPeriod` reads
  its option this way, and `Memory.BoundOf` takes `maxMessages` as an
  optional integer.
- The publisher's logger hooks are foreign functions: how a called hook
  ends is a parameter of `Factory.CreatePublisher` and `Factory.Publish`
  (returns, or throws an error), not derived from the function value.
- `Factory.Hook`: a hook that is not a function throws a `TypeError` whose
  message text is a fixed string here, not V8's.
- `Values.Spread`: spreading a string copies its characters under the
  index keys "0", "1", …; the model copies nothing for a string, because
  no option the library spreads is expected to be a string.
- `Values.JsString`: `String(x)` of a function or an object is a fixed
  stand-in text, and numbers are integers only.
- `Factory.MergeOptions`: that merging into a fresh `{}` leaves the
  factory's own options object unchanged follows from value semantics here;
  there is no aliasing to state.
- The orchestrator and the in-memory backend are not composed into one
  object. The scenario methods drive the backend's `Ack`/`Nack` in the
  order the orchestrator's wrapped handler calls them.
- The model keeps these behaviours of the code as written:
  - `consume` pops `min(maxMessages, length) - opened` messages, so it can
    leave messages waiting under an unreached bound
    (`Memory.WaitingDespiteCapacity`);
  - `clear()` is not terminal (`SubscriberEngine.ClearNotTerminal`);
  - `clearTimeout()` never resets the `timeout` field.

## Findings

| source | as written | input that shows it | evidently intended | confidence | as-written member | corrected member |
|---|---|---|---|---|---|---|
| src/lib/queue/memory.ts:47-55 | the finished-metadata builder declares `(message, incomingMetadata)`. The adapter contract (src/lib/fuquAdapter.ts:21-24) and both calls (src/lib/fuquAdapter.ts:59, 66) pass `(incomingMetadata, message)`, so the body reads `receiveTime` of the stored message, which has none, and throws | any delivery on the in-memory backend whose handler and ack succeed: the throw lands in the `catch`, the message is acked and then nacked, and the wrapped handler rejects | parameters `(incomingMetadata, message)`, as in the Pub/Sub adapter's builder (src/lib/adapters/pubsub.ts:70-77) | low; not executed. The adapter test suite expects an `ack` event from the in-memory backend (src/lib/adapters/index.test.ts:116-128), so the backend the tests import may differ from this file | Findings.AckedMessageIsAlsoNacked | Findings.CorrectedIsSharedBuilder |

The rest of the model uses the corrected builder (`Orchestrator.CreateFinished`).
`Findings.AsWrittenRedelivery` follows the as-written path into the
backend. After the ack and the nack of one message, the open count is -1.
The next consume step then pops past the end of the array and dispatches
`undefined` to the handler. These runs drive the backend alone. A
handler that settles at once acks and nacks the redelivered message in
the microtasks between the two callbacks, so the open count is -1 when
`undefined` is dispatched. On Node 15 and later, the first rejection of
the wrapped handler, which `forEach` at src/lib/queue/memory.ts:22
ignores, is an unhandled rejection and may end the process before that.
