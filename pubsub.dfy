/** The Pub/Sub adapter's own logic (src/lib/adapters/pubsub.ts): choosing
    the in-memory backend under `useMock`, rewriting `maxMessages` into the
    subscription's flow control on the caller's options object, the publish
    request it sends, and its metadata builders. Of the Pub/Sub client
    itself, only the `topic()` and `subscription()` calls are recorded. */
module PubSub {
  import opened Values
  import opened Metadata

  /** A call made on the Pub/Sub client while building the adapter. */
  datatype ClientCall =
    | TopicCall(name: string, publishOptions: Option<Value>)
    | SubscriptionCall(name: string, subscriptionOptions: Option<Value>)

  /** The backend `fuQuPubSub` builds: the in-memory one (given the
      `maxMessages` it reads) or the Pub/Sub one, with the client calls it
      starts. */
  datatype Backend =
    | MemoryChosen(maxMessages: Option<int>)
    | PubSubChosen(clientCalls: seq<ClientCall>)

  /** The adapter's result: the backend and the caller's options afterwards. */
  datatype Configured = Configured(backend: Backend, options: Option<Options>)

  /** `{...sub, flowControl: {...sub?.flowControl, maxMessages: m,
      allowExcessMessages: false}}`. */
  function WithFlowControl(sub: Option<Value>, m: Value): (r: Options)
    ensures r.Keys == Spread(sub).Keys + {"flowControl"}
    ensures forall k :: k in Spread(sub) && k != "flowControl" ==> r[k] == Spread(sub)[k]
  {
    var before := Spread(Field(Some(Spread(sub)), "flowControl"));
    Spread(sub)["flowControl" := Obj(before["maxMessages" := m]["allowExcessMessages" := Bool(false)])]
  }

  /** The flow-control object of the rewritten subscription options: the
      two keys are set, and every other key of the previous flow-control
      object is kept. */
  lemma FlowControlSet(sub: Option<Value>, m: Value)
    ensures var fc := WithFlowControl(sub, m)["flowControl"];
      var before := Spread(Field(Some(Spread(sub)), "flowControl"));
      && fc.Obj?
      && fc.fields.Keys == before.Keys + {"maxMessages", "allowExcessMessages"}
      && fc.fields["maxMessages"] == m
      && fc.fields["allowExcessMessages"] == Bool(false)
      && (forall k :: k in before && k != "maxMessages" && k != "allowExcessMessages" ==> fc.fields[k] == before[k])
  {
  }

  /** `fuQuPubSub(pubSub, topicName, options)` up to the construction of
      the orchestrator. */
  function Configure(topicName: string, options: Option<Options>): (r: Configured)
    ensures r.backend.MemoryChosen? <==> Truthy(Field(options, "useMock"))
    ensures r.options.Some? <==> options.Some?
    ensures options.Some? ==> forall k :: k in options.value && k != "subscriptionOptions" ==>
              k in r.options.value && r.options.value[k] == options.value[k]
  {
    if Truthy(Field(options, "useMock")) then
      Configured(MemoryChosen(NumberField(options, "maxMessages")), options)
    else
      var after :=
        if Truthy(Field(options, "maxMessages")) then
          Some(options.value["subscriptionOptions" :=
            Obj(WithFlowControl(Field(options, "subscriptionOptions"), options.value["maxMessages"]))])
        else options;
      Configured(PubSubChosen([TopicCall(topicName, Field(after, "publishOptions")),
                               SubscriptionCall(topicName, Field(after, "subscriptionOptions"))]),
                 after)
  }

  /** With `useMock` set the in-memory backend is built from the same
      options, which are left as they were, and the Pub/Sub client is not
      called. */
  lemma MockUsesMemory(topicName: string, options: Option<Options>)
    requires Truthy(Field(options, "useMock"))
    ensures Configure(topicName, options).backend == MemoryChosen(NumberField(options, "maxMessages"))
    ensures Configure(topicName, options).options == options
  {
  }

  /** Without `useMock`, a truthy `maxMessages` replaces only the
      `subscriptionOptions` key of the caller's options, and the new
      subscription options carry `maxMessages` and `allowExcessMessages:
      false` in their flow control. */
  lemma MaxMessagesRewritesFlowControl(topicName: string, options: Option<Options>)
    requires !Truthy(Field(options, "useMock")) && Truthy(Field(options, "maxMessages"))
    ensures var after := Configure(topicName, options).options;
      && after.Some?
      && after.value.Keys == options.value.Keys + {"subscriptionOptions"}
      && (forall k :: k in options.value && k != "subscriptionOptions" ==> after.value[k] == options.value[k])
      && after.value["subscriptionOptions"].Obj?
      && var fc := after.value["subscriptionOptions"].fields["flowControl"];
         fc.Obj? && fc.fields["maxMessages"] == options.value["maxMessages"]
         && fc.fields["allowExcessMessages"] == Bool(false)
  {
    FlowControlSet(Field(options, "subscriptionOptions"), options.value["maxMessages"]);
  }

  /** Without `useMock`, an absent or zero `maxMessages` leaves the options
      untouched. */
  lemma NoMaxMessagesNoRewrite(topicName: string, options: Option<Options>)
    requires !Truthy(Field(options, "useMock")) && !Truthy(Field(options, "maxMessages"))
    ensures Configure(topicName, options).options == options
  {
  }

  /** Without `useMock` the Pub/Sub backend is built: the topic, then its
      subscription, both named after the topic, the subscription with the
      (possibly rewritten) subscription options. */
  lemma PubSubClientCalls(topicName: string, options: Option<Options>)
    requires !Truthy(Field(options, "useMock"))
    ensures var c := Configure(topicName, options);
      c.backend == PubSubChosen([TopicCall(topicName, Field(options, "publishOptions")),
                                 SubscriptionCall(topicName, Field(c.options, "subscriptionOptions"))])
  {
  }

  /** The caller's options object, which the adapter rewrites in place. */
  class OptionsObject {
    var fields: Options
    constructor (fields: Options)
      ensures this.fields == fields
    {
      this.fields := fields;
    }
  }

  /** `fuQuPubSub`: `options.subscriptionOptions = …` assigns on the
      caller's own object, so the caller sees the rewrite afterwards. */
  method FuQuPubSub(topicName: string, options: OptionsObject?) returns (backend: Backend)
    modifies options
    ensures var c := Configure(topicName, if options == null then None else Some(old(options.fields)));
      && backend == c.backend
      && (options != null ==> c.options == Some(options.fields))
  {
    var opts := if options == null then None else Some(options.fields);
    if Truthy(Field(opts, "useMock")) {
      return MemoryChosen(NumberField(opts, "maxMessages"));
    }
    if Truthy(Field(opts, "maxMessages")) {
      options.fields := options.fields["subscriptionOptions" :=
        Obj(WithFlowControl(Field(opts, "subscriptionOptions"), options.fields["maxMessages"]))];
    }
    var after := if options == null then None else Some(options.fields);
    backend := PubSubChosen([TopicCall(topicName, Field(after, "publishOptions")),
                             SubscriptionCall(topicName, Field(after, "subscriptionOptions"))]);
  }

  /** The request `publishJson` hands to the topic. */
  datatype PublishRequest = PublishRequest(attributes: Option<Attributes>, json: Payload, orderingKey: Option<Value>)

  /** `publishMessage({ attributes, json: payload, orderingKey:
      publishOptions?.orderingKey })`. */
  function PublishJsonRequest(payload: Payload, attributes: Option<Attributes>, publishOptions: Option<Options>): (r: PublishRequest)
    ensures r.json == payload && r.attributes == attributes
    ensures r.orderingKey == Field(publishOptions, "orderingKey")
  {
    PublishRequest(attributes, payload, Field(publishOptions, "orderingKey"))
  }

  /** Of the per-call publish options only `orderingKey` reaches the request. */
  lemma OnlyOrderingKeyForwarded(payload: Payload, attributes: Option<Attributes>, o1: Option<Options>, o2: Option<Options>)
    requires Field(o1, "orderingKey") == Field(o2, "orderingKey")
    ensures PublishJsonRequest(payload, attributes, o1) == PublishJsonRequest(payload, attributes, o2)
  {
  }

  /** A received Pub/Sub message: its parsed data, attributes, publish time
      and the time the client received it. */
  datatype CloudMessage = CloudMessage(data: Payload, attributes: Attributes, publishTime: Timestamp, received: Timestamp)

  /** `createIncomingMessageMetadata`: the receive time is the client's
      `received` stamp, not the clock. */
  function CreateIncomingMessageMetadata(message: CloudMessage, payload: Payload): (r: IncomingMetadata)
    ensures r.payload == payload && r.attributes == Some(message.attributes)
    ensures r.publishTime == message.publishTime && r.receiveTime == message.received
  {
    Incoming(payload, Some(message.attributes), message.publishTime, message.received)
  }
}
