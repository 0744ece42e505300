/** The in-memory backend's finished-metadata builder as written
    (src/lib/queue/memory.ts:47-55). It declares its parameters as
    `(message, incomingMetadata)`, while the adapter contract
    (src/lib/fuquAdapter.ts:21-24) and the orchestrator's calls
    (src/lib/fuquAdapter.ts:59, 66) pass `(incomingMetadata, message)`. The
    body therefore reads the stored message under the name
    `incomingMetadata`; a stored message has no `receiveTime`, so reading
    `receiveTime.getTime()` throws. This module states the builder as
    written, follows the throw through the wrapped handler into the backend,
    and states the corrected builder, which is the one the rest of the model
    uses. */
module Findings {
  import opened Values
  import opened Metadata
  import Memory
  import opened Orchestrator
  import Scenarios

  /** The properties of an object that the builder reads. */
  datatype Fields = Fields(
    payload: Payload,
    attributes: Option<Attributes>,
    publishTime: Option<Timestamp>,
    receiveTime: Option<Timestamp>)

  /** An incoming record seen as an object. */
  function OfIncoming(i: IncomingMetadata): (f: Fields)
    ensures f.publishTime == Some(i.publishTime) && f.receiveTime == Some(i.receiveTime)
  {
    Fields(i.payload, i.attributes, Some(i.publishTime), Some(i.receiveTime))
  }

  /** A stored message seen as an object: `{ payload, attributes,
      publishTime }`, with no `receiveTime`. */
  function OfStored(m: Memory.Message): (f: Fields)
    ensures f.publishTime == Some(m.publishTime) && f.receiveTime.None?
  {
    Fields(m.payload, m.attributes, Some(m.publishTime), None)
  }

  const UndefinedGetTime: Error := "TypeError: Cannot read properties of undefined (reading 'getTime')"

  /** The builder's body over the object it calls `incomingMetadata`:
      spread it, add the finish time and the two durations; reading a
      missing time throws. */
  function BuildFinished(source: Fields, finish: Timestamp): (r: Result<FinishedMetadata, Error>)
    ensures r.Success? <==> source.publishTime.Some? && source.receiveTime.Some?
  {
    if source.publishTime.None? || source.receiveTime.None? then Failure(UndefinedGetTime)
    else
      var publish, receive := source.publishTime.value, source.receiveTime.value;
      Success(Finished(source.payload, source.attributes, publish, receive, finish, finish - publish, finish - receive))
  }

  /** The builder as written, called as the orchestrator calls it: the
      incoming record lands in the unused first parameter and the stored
      message is what the body reads. */
  function MemoryBuilderAsWritten(incoming: IncomingMetadata, message: Memory.Message, finish: Timestamp): Result<FinishedMetadata, Error> {
    BuildFinished(OfStored(message), finish)
  }

  /** The builder with its parameters in the contract's order. */
  function MemoryBuilderCorrected(incoming: IncomingMetadata, message: Memory.Message, finish: Timestamp): Result<FinishedMetadata, Error> {
    BuildFinished(OfIncoming(incoming), finish)
  }

  /** As written, the builder throws for every message and every clock. */
  lemma AsWrittenAlwaysThrows(incoming: IncomingMetadata, message: Memory.Message, finish: Timestamp)
    ensures MemoryBuilderAsWritten(incoming, message, finish) == Failure(UndefinedGetTime)
  {
  }

  /** Corrected, it is the backends' shared builder: every incoming field
      kept, and the durations measured from the publish and receive times
      of the incoming record. */
  lemma CorrectedIsSharedBuilder(incoming: IncomingMetadata, message: Memory.Message, finish: Timestamp)
    ensures MemoryBuilderCorrected(incoming, message, finish) == CreateFinished(incoming, finish)
    ensures var r := MemoryBuilderCorrected(incoming, message, finish).value;
      r.IncomingPart() == incoming && r.processDurationMillis == finish - incoming.receiveTime
  {
  }

  /** With the builder as written, a delivery whose handler succeeds and
      whose ack resolves is nonetheless acked and then nacked: the throw
      after `adapter.ack` lands in the `catch`, which calls `adapter.nack`
      and throws again when it builds the `nack` event. Only the `receive`
      event is emitted and the wrapped handler rejects. */
  lemma AckedMessageIsAlsoNacked(topicName: string, m: Memory.Message, receivedAt: Timestamp, finish: Timestamp)
    ensures var incoming := CreateIncoming(FromMemory(m), m.payload, receivedAt);
      var r := DeliveryRunWith(MemoryAdapter, topicName, FromMemory(m), m.payload, m.attributes, receivedAt,
                               Reaction(Pass, Pass, Pass), MemoryBuilderAsWritten(incoming, m, finish));
      && Calls(r.steps) == [AckCall(FromMemory(m)), NackCall(FromMemory(m))]
      && Emitted(r.steps) == [Event(topicName, "memory", Receive(incoming))]
      && r.outcome == Fail(UndefinedGetTime)
  {
    var incoming := CreateIncoming(FromMemory(m), m.payload, receivedAt);
    var r := DeliveryRunWith(MemoryAdapter, topicName, FromMemory(m), m.payload, m.attributes, receivedAt,
                             Reaction(Pass, Pass, Pass), MemoryBuilderAsWritten(incoming, m, finish));
    var rcv := Log(MemoryAdapter, topicName, Receive(incoming));
    var inv := Invoke(m.payload, m.attributes, FromMemory(m));
    assert r.steps == [rcv, inv, Call(AckCall(FromMemory(m))), Call(NackCall(FromMemory(m)))];
    AckThenNack(rcv, inv, FromMemory(m));
  }

  /** The backend's side of that: the ack and the nack each release a slot,
      so a single message leaves the open count at -1 with the message back
      in the array. The next consume step then pops twice from a
      one-element array (past the bound of 1, if one was set): the second
      pop yields `undefined`, whose dispatch throws in the handler. */
  lemma DoubleReleasePopsPastEnd(m: Memory.Message, bound: Memory.Bound)
    requires bound.Infinity? || bound == Memory.Finite(1)
    ensures Memory.PopCount(bound, 1, -1) == 2
    ensures Memory.PopMany([m], 2) == Memory.Popped([], [Some(m), None])
  {
    Memory.PopManyTakesFromEnd([m], 1);
    Memory.PopManyPastEnd([m], 2);
    var p := Memory.PopMany([m], 2);
    assert p.out[0] == Memory.PopMany([m], 1).out[0];
  }

  /** After the ack and the nack of the same message the event loop runs
      the consume step the nack scheduled, which pops past the end; the
      first dispatch delivers the message again and the second dispatches
      `undefined`, which crashes the handler. The backend runs alone here:
      the handler's own ack or nack of the redelivered message, which Node
      would run between the two callbacks, is not part of this run. */
  method Redeliver(b: Memory.MemoryBackend, m: Memory.Message) returns (crashed: bool)
    requires b.maxMessages == Memory.Infinity && b.handlers == [0]
    requires b.openedMessages == -1 && b.messages == [m] && b.tasks == [Memory.ConsumeTask]
    modifies b
    ensures b.openedMessages == 1 && b.messages == []
    ensures b.invocations == old(b.invocations) + [Memory.Invocation(0, m.payload, m.attributes, m)]
    ensures crashed
  {
    DoubleReleasePopsPastEnd(m, Memory.Infinity);
    crashed := b.RunImmediate();
    assert b.tasks == [Memory.DispatchTask(Some(m)), Memory.DispatchTask(None)];
    crashed := b.RunImmediate();
    assert b.tasks == [Memory.DispatchTask(None)];
    crashed := b.RunImmediate();
  }

  /** The whole chain on the backend object: one published message is
      consumed and dispatched, the orchestrator acks it and (after the
      builder throws) nacks it, and the event loop runs on until the
      dispatch of `undefined` crashes the handler. */
  method AsWrittenRedelivery(m: Memory.Message) returns (b: Memory.MemoryBackend, crashed: bool)
    ensures b.openedMessages == 1 && b.messages == []
    ensures crashed
  {
    b := Scenarios.PublishAndDispatch(m);
    b.Ack(m);
    b.Nack(m);
    crashed := Redeliver(b, m);
  }
}
