/** The factory `FuQu(createClient, options)` (src/lib/core/fuqu-factory.ts):
    publishers that log and then publish, and subscribers built from the
    factory's options merged with per-subscriber ones. The client and the
    optional logger are foreign: what they are asked to do is recorded,
    and how a called logger hook ends and how the publish call settles
    are parameters. */
module Factory {
  import opened Values
  import SubscriberEngine

  /** `Object.assign({}, defaults, additional)`: every own key of the
      defaults, then every own key of the additional options over them; an
      absent source contributes nothing. */
  function MergeOptions(defaults: Option<Options>, additional: Option<Options>): (r: Options)
    ensures r.Keys == Spread(OptionsValue(defaults)).Keys + Spread(OptionsValue(additional)).Keys
    ensures forall k :: k in Spread(OptionsValue(additional)) ==> r[k] == additional.value[k]
    ensures forall k :: k in Spread(OptionsValue(defaults)) && k !in Spread(OptionsValue(additional)) ==>
              r[k] == defaults.value[k]
  {
    defaults.GetOr(map[]) + additional.GetOr(map[])
  }

  /** An options object as a JavaScript value. */
  function OptionsValue(o: Option<Options>): (v: Option<Value>)
    ensures Spread(v) == o.GetOr(map[])
  {
    if o.Some? then Some(Obj(o.value)) else None
  }

  /** Without additional options the subscriber gets exactly the factory's
      options (an empty object when there are none). */
  lemma MergeWithoutAdditional(defaults: Option<Options>)
    ensures MergeOptions(defaults, None) == defaults.GetOr(map[])
    ensures MergeOptions(defaults, Some(map[])) == defaults.GetOr(map[])
  {
  }

  /** What `options?.logger?.<name>?.(…)` does: nothing when the logger or
      the hook is absent, `undefined` or `null`, a call when the hook is a
      function, and a `TypeError` otherwise. */
  datatype HookUse = Skipped | Called | NotCallable

  function Hook(options: Option<Options>, name: string): (h: HookUse)
    ensures Field(options, "logger").None? ==> h == Skipped
    ensures var f := Field(Some(Spread(Field(options, "logger"))), name);
      && (h == Called <==> f.Some? && f.value.Func?)
      && (h == NotCallable <==> f.Some? && !f.value.Undefined? && !f.value.Null? && !f.value.Func?)
  {
    match Field(Some(Spread(Field(options, "logger"))), name)
    case None => Skipped
    case Some(Undefined) => Skipped
    case Some(Null) => Skipped
    case Some(Func(_)) => Called
    case Some(_) => NotCallable
  }

  const NotAFunction: Error := "TypeError: logger hook is not a function"

  /** A step of a publisher, in the order it happens. */
  datatype PublisherStep =
    | CreateClient
    | Topic(topicName: string)
    | LoggerHook(hook: string, topicName: string)
    | PublishMessage(topicName: string, messageOptions: Options)

  /** The steps of `createPublisher(topicName)` and whether it threw. */
  datatype Created = Created(steps: seq<PublisherStep>, result: Outcome<Error>)

  /** Whether a hook lets its caller go on: it is skipped, or it is a
      function whose call returns (`hookOutcome` says how the foreign call
      ends). */
  predicate HookReturns(h: HookUse, hookOutcome: Outcome<Error>)
  {
    h == Skipped || (h == Called && hookOutcome.Pass?)
  }

  /** `createPublisher(topicName)`: a new client, its topic, then the
      `initializedPublisher` hook, whose throw `createPublisher` passes on. */
  function CreatePublisher(options: Option<Options>, topicName: string, hookOutcome: Outcome<Error>): (r: Created)
    ensures |r.steps| >= 2 && r.steps[..2] == [CreateClient, Topic(topicName)]
    ensures r.result.Pass? <==> HookReturns(Hook(options, "initializedPublisher"), hookOutcome)
    ensures Hook(options, "initializedPublisher") == NotCallable ==> r.result == Fail(NotAFunction)
    ensures Hook(options, "initializedPublisher") == Called ==> r.result == hookOutcome
    ensures |r.steps| == 3 <==> Hook(options, "initializedPublisher") == Called
    ensures |r.steps| <= 3 && (|r.steps| == 3 ==> r.steps[2] == LoggerHook("initializedPublisher", topicName))
  {
    match Hook(options, "initializedPublisher")
    case Skipped => Created([CreateClient, Topic(topicName)], Pass)
    case Called => Created([CreateClient, Topic(topicName), LoggerHook("initializedPublisher", topicName)], hookOutcome)
    case NotCallable => Created([CreateClient, Topic(topicName)], Fail(NotAFunction))
  }

  /** The steps of `publish(messageOptions)` and how its promise settles. */
  datatype Published = Published(steps: seq<PublisherStep>, result: Result<string, Error>)

  /** `publish(messageOptions)`: the `publishedMessage` hook first, then
      `topic.publishMessage`; its result, once resolved, converted with
      `String(result)`. A hook that throws, and a rejection of the publish,
      are passed on. */
  function Publish(options: Option<Options>, topicName: string, messageOptions: Options,
                   hookOutcome: Outcome<Error>, publishResult: Result<Value, Error>): (r: Published)
    ensures r.steps == [] <==> Hook(options, "publishedMessage") == NotCallable
    ensures PublishMessage(topicName, messageOptions) in r.steps <==>
              HookReturns(Hook(options, "publishedMessage"), hookOutcome)
  {
    var hook := Hook(options, "publishedMessage");
    if hook == NotCallable then Published([], Failure(NotAFunction))
    else
      var logged := if hook == Called then [LoggerHook("publishedMessage", topicName)] else [];
      if hook == Called && hookOutcome.Fail? then Published(logged, Failure(hookOutcome.error))
      else
        Published(logged + [PublishMessage(topicName, messageOptions)],
                  match publishResult
                  case Success(v) => Success(JsString(Some(v)))
                  case Failure(e) => Failure(e))
  }

  /** When the hook returns (or is absent), `publish` calls `publishMessage`
      exactly once, last, with the message options as given, after the
      logger hook when there is one, and resolves with the published id as
      a string, or rejects with the publish error. When the hook throws,
      `publish` rejects with that error right after the hook and never
      publishes. */
  lemma PublishLogsThenPublishes(options: Option<Options>, topicName: string, messageOptions: Options,
                                 hookOutcome: Outcome<Error>, publishResult: Result<Value, Error>)
    requires Hook(options, "publishedMessage") != NotCallable
    ensures var r := Publish(options, topicName, messageOptions, hookOutcome, publishResult);
      && (forall i :: 0 <= i < |r.steps| && r.steps[i] != PublishMessage(topicName, messageOptions) ==>
            r.steps[i] == LoggerHook("publishedMessage", topicName))
      && (Hook(options, "publishedMessage") == Called <==> LoggerHook("publishedMessage", topicName) in r.steps)
      && (HookReturns(Hook(options, "publishedMessage"), hookOutcome) ==>
            && r.steps[|r.steps| - 1] == PublishMessage(topicName, messageOptions)
            && (Hook(options, "publishedMessage") == Called <==> |r.steps| == 2)
            && (publishResult.Success? && publishResult.value.Str? ==> r.result == Success(publishResult.value.s))
            && (publishResult.Failure? ==> r.result == Failure(publishResult.error)))
      && (!HookReturns(Hook(options, "publishedMessage"), hookOutcome) ==>
            r == Published([LoggerHook("publishedMessage", topicName)], Failure(hookOutcome.error)))
  {
  }

  /** A message id that is a natural number comes back as its decimal
      text, which reads back as the same number, whenever the hook lets
      `publish` go on. */
  lemma PublishNumericId(options: Option<Options>, topicName: string, messageOptions: Options,
                         hookOutcome: Outcome<Error>, id: nat)
    requires Hook(options, "publishedMessage") != NotCallable
    ensures var r := Publish(options, topicName, messageOptions, hookOutcome, Success(Num(id)));
      && (r.result.Success? <==> HookReturns(Hook(options, "publishedMessage"), hookOutcome))
      && (r.result.Success? ==> DecimalValue(r.result.value) == id)
  {
    NatToDecimalRoundTrip(id);
  }

  /** `Object.assign` copies a key whose value is `undefined`: a subscriber
      option set to `undefined` overrides the factory's value, and
      `reconnectAfterMillis ?? 0` then gives a period of 0, so that
      subscriber never reconnects. */
  lemma UndefinedOverridesDefault(millis: int)
    ensures var merged := MergeOptions(Some(map["reconnectAfterMillis" := Num(millis)]),
                                       Some(map["reconnectAfterMillis" := Undefined]));
      && merged["reconnectAfterMillis"] == Undefined
      && SubscriberEngine.ReconnectPeriod(merged) == 0
  {
  }

  /** A logger hook that is not a function makes `publish` reject before
      anything is published. */
  lemma BrokenHookPublishesNothing(options: Option<Options>, topicName: string, messageOptions: Options,
                                   hookOutcome: Outcome<Error>, publishResult: Result<Value, Error>)
    requires Hook(options, "publishedMessage") == NotCallable
    ensures Publish(options, topicName, messageOptions, hookOutcome, publishResult) == Published([], Failure(NotAFunction))
  {
  }

  /** `createSubscriber(subscriptionName, handler, additional)`: one new
      `Subscriber`, built with the merged options. */
  method CreateSubscriber(defaults: Option<Options>, subscriptionName: string, additional: Option<Options>)
    returns (s: SubscriberEngine.Subscriber)
    ensures fresh(s)
    ensures s.subscriptionName == subscriptionName && s.options == MergeOptions(defaults, additional)
    ensures s.State() == SubscriberEngine.Initial(SubscriberEngine.ReconnectPeriod(MergeOptions(defaults, additional)))
    ensures s.Valid()
  {
    s := new SubscriberEngine.Subscriber(subscriptionName, MergeOptions(defaults, additional));
  }
}
