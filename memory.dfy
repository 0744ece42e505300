/** The in-memory backend (src/lib/queue/memory.ts).

    Its state is a message array used as a stack, the number of messages
    handed out and not yet acked or nacked (`openedMessages`), the
    registered handlers and the `opened` flag (`isOpened` here). `setImmediate` callbacks are
    an explicit FIFO queue of tasks (`tasks`) that the event loop runs one
    at a time (`RunImmediate`); each handler invocation is recorded. */
module Memory {
  import opened Values
  import opened Metadata

  /** A message as the backend stores it. */
  datatype Message = Message(payload: Payload, attributes: Option<Attributes>, publishTime: Timestamp)

  /** `maxMessages`: a number, or `Infinity` when the option is absent. */
  datatype Bound = Finite(n: int) | Infinity

  /** `options?.maxMessages ?? Infinity`. */
  function BoundOf(maxMessages: Option<int>): (b: Bound)
    ensures maxMessages.None? <==> b.Infinity?
    ensures maxMessages.Some? ==> b == Finite(maxMessages.value)
  {
    if maxMessages.Some? then Finite(maxMessages.value) else Infinity
  }

  /** `openedMessages < maxMessages`. */
  predicate Below(k: int, b: Bound) {
    b.Infinity? || k < b.n
  }

  /** `Math.min(maxMessages, messages.length)`. */
  function MinLen(b: Bound, len: nat): int {
    if b.Finite? && b.n < len then b.n else len
  }

  /** How many times consume's loop body runs: under the guard
      `openedMessages < maxMessages`, `toPop = min(maxMessages, length) -
      openedMessages` iterations (none when that is not positive). */
  function PopCount(b: Bound, len: nat, inFlight: int): (k: nat)
    ensures k == if MinLen(b, len) > inFlight then MinLen(b, len) - inFlight else 0
  {
    if Below(inFlight, b) then
      var toPop := MinLen(b, len) - inFlight;
      if toPop > 0 then toPop else 0
    else 0
  }

  /** While the count of opened messages is not negative, consume never
      pops more messages than the array holds. */
  lemma PopCountWithinLength(b: Bound, len: nat, inFlight: int)
    requires inFlight >= 0
    ensures PopCount(b, len, inFlight) <= len
  {
  }

  /** Flow control: if at most `maxMessages` messages were open before a
      consume step, at most `maxMessages` are open after it; the step tops
      the count up to `min(maxMessages, length)` when it was below. */
  lemma PopCountKeepsBound(b: Bound, len: nat, inFlight: int)
    requires b.Finite? && inFlight <= b.n
    ensures inFlight + PopCount(b, len, inFlight) <= b.n
    ensures MinLen(b, len) > inFlight ==> inFlight + PopCount(b, len, inFlight) == MinLen(b, len)
  {
  }

  /** With `maxMessages` 0 (or any bound already reached) nothing is popped. */
  lemma BoundReachedPopsNothing(b: Bound, len: nat, inFlight: int)
    requires b.Finite? && b.n <= inFlight
    ensures PopCount(b, len, inFlight) == 0
  {
  }

  /** Without a bound and with nothing open, one step pops every waiting
      message, so all of them can be in flight at once. */
  lemma UnboundedIdlePopsAll(len: nat)
    ensures PopCount(Infinity, len, 0) == len
  {
  }

  /** The step pops `min(maxMessages, length) - openedMessages`, not "whatever fits
      under the bound": once as many messages are open as are waiting, a
      waiting message stays in the array even though the bound (or no
      bound) would admit it. */
  lemma WaitingDespiteCapacity(b: Bound, len: nat, inFlight: int)
    requires 0 < len <= inFlight && Below(inFlight, b)
    ensures PopCount(b, len, inFlight) == 0
  {
  }

  /** The result of popping a number of times: what is left, and what each
      `pop()` returned in order (`None` is the `undefined` of an empty array). */
  datatype Popped = Popped(rest: seq<Message>, out: seq<Option<Message>>)

  /** `messages.pop()`. */
  function PopLast(s: seq<Message>): (p: Popped)
    ensures |p.out| == 1
    ensures s == [] ==> p.rest == [] && p.out[0].None?
    ensures s != [] ==> p.out[0].Some? && p.rest + [p.out[0].value] == s
  {
    if s == [] then Popped([], [None]) else Popped(s[..|s| - 1], [Some(s[|s| - 1])])
  }

  /** `k` successive calls of `messages.pop()`. */
  function PopMany(s: seq<Message>, k: nat): (p: Popped)
    ensures |p.out| == k
  {
    if k == 0 then Popped(s, [])
    else
      var p := PopMany(s, k - 1);
      var q := PopLast(p.rest);
      Popped(q.rest, p.out + q.out)
  }

  /** Popping `k <= |s|` times takes the last `k` messages, newest first,
      and leaves the first `|s| - k` in place. */
  lemma {:induction false} PopManyTakesFromEnd(s: seq<Message>, k: nat)
    requires k <= |s|
    ensures PopMany(s, k).rest == s[..|s| - k]
    ensures forall i :: 0 <= i < k ==> PopMany(s, k).out[i] == Some(s[|s| - 1 - i])
  {
    if k > 0 {
      PopManyTakesFromEnd(s, k - 1);
      var p := PopMany(s, k - 1);
      assert p.rest == s[..|s| - (k - 1)];
      assert p.rest[..|p.rest| - 1] == s[..|s| - k];
    }
  }

  /** Popping more often than there are messages empties the array and
      yields `undefined` for every surplus pop. */
  lemma {:induction false} PopManyPastEnd(s: seq<Message>, k: nat)
    requires k > |s|
    ensures PopMany(s, k).rest == []
    ensures forall i :: |s| <= i < k ==> PopMany(s, k).out[i] == None
  {
    if k - 1 == |s| {
      PopManyTakesFromEnd(s, k - 1);
    } else {
      PopManyPastEnd(s, k - 1);
    }
  }

  /** One more pop after `i` pops: what is left and the values popped
      extend by `messages.pop()` on what was left. */
  lemma PopOnce(s: seq<Message>, i: nat, msg: Option<Message>)
    requires PopLast(PopMany(s, i).rest).out == [msg]
    ensures PopMany(s, i + 1).rest == PopLast(PopMany(s, i).rest).rest
    ensures Dispatches(PopMany(s, i + 1).out) == Dispatches(PopMany(s, i).out) + [DispatchTask(msg)]
  {
    var out := PopMany(s, i).out;
    assert PopMany(s, i + 1).out == out + [msg];
    assert (out + [msg])[..|out|] == out;
  }

  /** The counts behind a consume step: with a non-negative open count the
      array shrinks by exactly the number popped, and the bound is kept. */
  lemma ConsumeCounts(b: Bound, s: seq<Message>, inFlight: int)
    ensures inFlight >= 0 ==> |PopMany(s, PopCount(b, |s|, inFlight)).rest| == |s| - PopCount(b, |s|, inFlight)
    ensures b.Finite? && inFlight <= b.n ==> inFlight + PopCount(b, |s|, inFlight) <= b.n
  {
    if inFlight >= 0 {
      PopCountWithinLength(b, |s|, inFlight);
      PopManyTakesFromEnd(s, PopCount(b, |s|, inFlight));
    }
    if b.Finite? && inFlight <= b.n {
      PopCountKeepsBound(b, |s|, inFlight);
    }
  }

  /** The queued `setImmediate` callbacks of this backend. */
  datatype Task = ConsumeTask | DispatchTask(msg: Option<Message>)

  /** The dispatch callbacks scheduled for the popped values. */
  function Dispatches(out: seq<Option<Message>>): (r: seq<Task>)
    ensures |r| == |out|
  {
    if out == [] then [] else Dispatches(out[..|out| - 1]) + [DispatchTask(out[|out| - 1])]
  }

  /** One dispatch per popped value, in pop order. */
  lemma {:induction false} DispatchesInOrder(out: seq<Option<Message>>)
    ensures forall i :: 0 <= i < |out| ==> Dispatches(out)[i] == DispatchTask(out[i])
  {
    if out != [] {
      DispatchesInOrder(out[..|out| - 1]);
    }
  }

  type HandlerId = nat

  /** `h(msg.payload, msg.attributes, msg)`. */
  datatype Invocation = Invocation(handler: HandlerId, payload: Payload, attributes: Option<Attributes>, message: Message)

  /** `handlers.forEach(h => h(msg.payload, msg.attributes, msg))`. */
  function Fanout(handlers: seq<HandlerId>, m: Message): (r: seq<Invocation>)
    ensures |r| == |handlers|
    ensures forall i :: 0 <= i < |handlers| ==> r[i] == Invocation(handlers[i], m.payload, m.attributes, m)
  {
    if handlers == [] then [] else Fanout(handlers[..|handlers| - 1], m) + [Invocation(handlers[|handlers| - 1], m.payload, m.attributes, m)]
  }

  /** The health probe: `sleep(500).then(() => opened)`. */
  const ProbeDelayMillis: nat := 500

  /** `createIncomingMessageMetadata`: the given payload, the stored
      attributes and publish time, and the clock reading as receive time. */
  function CreateIncomingMessageMetadata(message: Message, payload: Payload, now: Timestamp): (r: IncomingMetadata)
    ensures r.payload == payload && r.attributes == message.attributes
    ensures r.publishTime == message.publishTime && r.receiveTime == now
  {
    Incoming(payload, message.attributes, message.publishTime, now)
  }

  class MemoryBackend {
    const maxMessages: Bound
    var isOpened: bool
    var messages: seq<Message>
    var openedMessages: int
    var handlers: seq<HandlerId>
    /** Pending `setImmediate` callbacks, oldest first. */
    var tasks: seq<Task>
    /** Every handler invocation so far, in order. */
    var invocations: seq<Invocation>
    /** Health probes whose 500 ms sleep has not ended yet. */
    var sleeping: nat
    ghost var published: nat
    ghost var acked: nat

    /** Conservation: every published message is waiting, open, or acked. */
    ghost predicate Conserved()
      reads this
    {
      |messages| + openedMessages == published - acked
    }

    constructor (maxMessages: Option<int>)
      ensures this.maxMessages == BoundOf(maxMessages)
      ensures isOpened && messages == [] && openedMessages == 0 && handlers == []
      ensures tasks == [] && invocations == [] && published == 0 && acked == 0 && sleeping == 0
      ensures Conserved()
    {
      this.maxMessages := BoundOf(maxMessages);
      isOpened := true;
      messages := [];
      openedMessages := 0;
      handlers := [];
      tasks := [];
      invocations := [];
      sleeping := 0;
      published := 0;
      acked := 0;
    }

    /** `publishJson`: push one message stamped with the clock, schedule a
        consume step. */
    method PublishJson(payload: Payload, attributes: Option<Attributes>, now: Timestamp)
      modifies this
      ensures messages == old(messages) + [Message(payload, attributes, now)]
      ensures tasks == old(tasks) + [ConsumeTask]
      ensures published == old(published) + 1
      ensures openedMessages == old(openedMessages) && isOpened == old(isOpened)
      ensures handlers == old(handlers) && invocations == old(invocations) && acked == old(acked)
      ensures sleeping == old(sleeping)
      ensures old(Conserved()) ==> Conserved()
    {
      messages := messages + [Message(payload, attributes, now)];
      tasks := tasks + [ConsumeTask];
      published := published + 1;
    }

    method RegisterHandler(h: HandlerId)
      modifies this`handlers
      ensures handlers == old(handlers) + [h]
    {
      handlers := handlers + [h];
    }

    /** `ack`: releases one slot; the message itself is not looked at. */
    method Ack(msg: Message)
      modifies this
      ensures openedMessages == old(openedMessages) - 1 && acked == old(acked) + 1
      ensures messages == old(messages) && tasks == old(tasks) && isOpened == old(isOpened)
      ensures handlers == old(handlers) && invocations == old(invocations) && published == old(published)
      ensures sleeping == old(sleeping)
      ensures old(Conserved()) ==> Conserved()
    {
      openedMessages := openedMessages - 1;
      acked := acked + 1;
    }

    /** `nack`: releases one slot and pushes the same message back, so a
        later consume step redelivers it. */
    method Nack(msg: Message)
      modifies this
      ensures openedMessages == old(openedMessages) - 1
      ensures messages == old(messages) + [msg]
      ensures tasks == old(tasks) + [ConsumeTask]
      ensures isOpened == old(isOpened) && handlers == old(handlers) && invocations == old(invocations)
      ensures published == old(published) && acked == old(acked) && sleeping == old(sleeping)
      ensures old(Conserved()) ==> Conserved()
    {
      openedMessages := openedMessages - 1;
      messages := messages + [msg];
      tasks := tasks + [ConsumeTask];
    }

    /** `close` only clears the flag the health probe reports; delivery goes on. */
    method Close()
      modifies this`isOpened
      ensures !isOpened
    {
      isOpened := false;
    }

    /** `isAlive()`: starts a 500 ms sleep; the flag is not read yet. */
    method IsAlive()
      modifies this`sleeping
      ensures sleeping == old(sleeping) + 1
    {
      sleeping := sleeping + 1;
    }

    /** The end of one such sleep: the probe resolves, 500 ms after it was
        started, with the `opened` flag as it is now, so a `close` during
        the sleep makes it resolve with false. */
    method ProbeSettles() returns (p: Settling<bool>)
      requires sleeping > 0
      modifies this`sleeping
      ensures sleeping == old(sleeping) - 1
      ensures p == ResolvesAfter(isOpened, ProbeDelayMillis)
    {
      sleeping := sleeping - 1;
      p := ResolvesAfter(isOpened, ProbeDelayMillis);
    }

    /** One consume step: pop `PopCount` messages from the end, open them,
        schedule one dispatch per popped value, and schedule another step if
        messages are still waiting. */
    method Consume()
      modifies this
      ensures var k := PopCount(maxMessages, |old(messages)|, old(openedMessages));
        var p := PopMany(old(messages), k);
        && messages == p.rest
        && openedMessages == old(openedMessages) + k
        && tasks == old(tasks) + Dispatches(p.out) + (if p.rest != [] then [ConsumeTask] else [])
      ensures isOpened == old(isOpened) && handlers == old(handlers) && invocations == old(invocations)
      ensures published == old(published) && acked == old(acked) && sleeping == old(sleeping)
      ensures maxMessages.Finite? && old(openedMessages) <= maxMessages.n ==> openedMessages <= maxMessages.n
      ensures old(Conserved()) && old(openedMessages) >= 0 ==> Conserved()
    {
      ConsumeCounts(maxMessages, messages, openedMessages);
      PopStep();
      if |messages| != 0 {
        tasks := tasks + [ConsumeTask];
      }
    }

    /** `if (openedMessages < maxMessages) { … }`: the pops of one step. */
    method PopStep()
      modifies this`openedMessages, this`messages, this`tasks
      ensures var k := PopCount(maxMessages, |old(messages)|, old(openedMessages));
        && messages == PopMany(old(messages), k).rest
        && openedMessages == old(openedMessages) + k
        && tasks == old(tasks) + Dispatches(PopMany(old(messages), k).out)
    {
      if Below(openedMessages, maxMessages) {
        var toPop := MinLen(maxMessages, |messages|) - openedMessages;
        PopLoop(toPop);
      }
    }

    /** `for (let i = 0; i < toPop; ++i)`: open one message, pop it, and
        schedule its dispatch. */
    method PopLoop(toPop: int)
      modifies this`openedMessages, this`messages, this`tasks
      ensures var k: nat := if toPop > 0 then toPop else 0;
        && messages == PopMany(old(messages), k).rest
        && openedMessages == old(openedMessages) + k
        && tasks == old(tasks) + Dispatches(PopMany(old(messages), k).out)
    {
      ghost var s0, t0, o0 := messages, tasks, openedMessages;
      var n: nat := if toPop > 0 then toPop else 0;
      var i: nat := 0;
      while i < n
        invariant i <= n
        invariant openedMessages == o0 + i
        invariant messages == PopMany(s0, i).rest
        invariant tasks == t0 + Dispatches(PopMany(s0, i).out)
      {
        openedMessages := openedMessages + 1;
        var msg := Pop();
        PopOnce(s0, i, msg);
        tasks := tasks + [DispatchTask(msg)];
        i := i + 1;
      }
    }

    /** `messages.pop()`: the last message, or `undefined` when there is none. */
    method Pop() returns (msg: Option<Message>)
      modifies this`messages
      ensures PopLast(old(messages)) == Popped(messages, [msg])
    {
      if |messages| > 0 {
        msg := Some(messages[|messages| - 1]);
        messages := messages[..|messages| - 1];
      } else {
        msg := None;
      }
    }

    /** The event loop runs the oldest pending `setImmediate` callback. A
        dispatch of `undefined` (a pop from an empty array) throws as soon
        as a handler would read its payload. */
    method RunImmediate() returns (crashed: bool)
      requires tasks != []
      modifies this
      ensures old(tasks[0]).ConsumeTask? ==>
                var k := PopCount(maxMessages, |old(messages)|, old(openedMessages));
                var p := PopMany(old(messages), k);
                && !crashed && invocations == old(invocations)
                && messages == p.rest && openedMessages == old(openedMessages) + k
                && tasks == old(tasks[1..]) + Dispatches(p.out) + (if p.rest != [] then [ConsumeTask] else [])
      ensures old(tasks[0]).DispatchTask? && old(tasks[0]).msg.Some? ==>
                !crashed && tasks == old(tasks[1..]) && messages == old(messages) &&
                openedMessages == old(openedMessages) &&
                invocations == old(invocations) + Fanout(handlers, old(tasks[0]).msg.value)
      ensures old(tasks[0]).DispatchTask? && old(tasks[0]).msg.None? ==>
                crashed == (handlers != []) && tasks == old(tasks[1..]) && invocations == old(invocations) &&
                messages == old(messages) && openedMessages == old(openedMessages)
      ensures handlers == old(handlers) && isOpened == old(isOpened) && sleeping == old(sleeping)
      ensures published == old(published) && acked == old(acked)
      ensures old(Conserved()) && old(openedMessages) >= 0 ==> Conserved()
    {
      var task := tasks[0];
      tasks := tasks[1..];
      crashed := false;
      match task
      case ConsumeTask =>
        Consume();
      case DispatchTask(msg) =>
        if msg.Some? {
          invocations := invocations + Fanout(handlers, msg.value);
        } else {
          crashed := handlers != [];
        }
    }
  }
}
