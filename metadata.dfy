/** The message metadata records and the lifecycle events of the library's
    public types (src/lib/fuqu.ts). Timestamps are integer milliseconds. */
module Metadata {
  import opened Values

  type Timestamp = int

  /** A message payload: a JSON value. */
  type Payload = Value

  /** `IncomingMessageMetadata`: the published data plus when it was
      published and when it was received. */
  datatype IncomingMetadata = Incoming(
    payload: Payload,
    attributes: Option<Attributes>,
    publishTime: Timestamp,
    receiveTime: Timestamp)

  /** `FinishedMessageMetadata`: the incoming record plus when handling
      finished and the two durations derived from it. */
  datatype FinishedMetadata = Finished(
    payload: Payload,
    attributes: Option<Attributes>,
    publishTime: Timestamp,
    receiveTime: Timestamp,
    finishTime: Timestamp,
    totalDurationMillis: int,
    processDurationMillis: int)
  {
    /** The incoming part of a finished record. */
    function IncomingPart(): IncomingMetadata {
      Incoming(payload, attributes, publishTime, receiveTime)
    }
  }

  /** The finished-metadata builder of the backends: every incoming field is
      kept, `finishTime` is the clock reading, and the two durations are
      measured from the publish time and from the receive time. */
  function CreateFinishedMessageMetadata(incoming: IncomingMetadata, finish: Timestamp): (r: FinishedMetadata)
    ensures r.IncomingPart() == incoming
    ensures r.finishTime == finish
    ensures r.publishTime + r.totalDurationMillis == finish
    ensures r.receiveTime + r.processDurationMillis == finish
  {
    Finished(incoming.payload, incoming.attributes, incoming.publishTime, incoming.receiveTime,
             finish, finish - incoming.publishTime, finish - incoming.receiveTime)
  }

  /** With a clock that never runs backwards, the processing time is never
      negative and never exceeds the total time, and the total splits into
      the wait before receipt plus the processing time. */
  lemma DurationsOrdered(incoming: IncomingMetadata, finish: Timestamp)
    requires incoming.publishTime <= incoming.receiveTime <= finish
    ensures var r := CreateFinishedMessageMetadata(incoming, finish);
      && 0 <= r.processDurationMillis <= r.totalDurationMillis
      && r.totalDurationMillis == (incoming.receiveTime - incoming.publishTime) + r.processDurationMillis
  {
  }

  /** The action-specific part of an event (`BareEvent`). */
  datatype BareEvent =
    | Create(options: Option<Options>)
    | Hc(ok: bool)
    | Close
    | Subscribe(handler: string)
    | Publish(payload: Payload, attributes: Option<Attributes>)
    | Receive(incoming: IncomingMetadata)
    | Ack(finished: FinishedMetadata)
    | Nack(finished: FinishedMetadata, error: Error)

  /** An event as the event logger sees it, tagged with its topic and with
      the name of the backend adapter that produced it. */
  datatype Event = Event(topicName: string, adapter: string, body: BareEvent)

  /** The `action` discriminator of an event. */
  function Action(e: Event): string {
    match e.body
    case Create(_) => "create"
    case Hc(_) => "hc"
    case Close => "close"
    case Subscribe(_) => "subscribe"
    case Publish(_, _) => "publish"
    case Receive(_) => "receive"
    case Ack(_) => "ack"
    case Nack(_, _) => "nack"
  }

  function Actions(es: seq<Event>): (r: seq<string>)
    ensures |r| == |es|
  {
    if es == [] then [] else [Action(es[0])] + Actions(es[1..])
  }

  /** The action names are those of the events, position by position. */
  lemma {:induction false} ActionsInOrder(es: seq<Event>)
    ensures forall i :: 0 <= i < |es| ==> Actions(es)[i] == Action(es[i])
  {
    if es != [] {
      ActionsInOrder(es[1..]);
    }
  }

  /** One more event in front adds its action name in front. */
  lemma ActionsCons(e: Event, es: seq<Event>)
    ensures Actions([e] + es) == [Action(e)] + Actions(es)
  {
    assert ([e] + es)[1..] == es;
  }
}
