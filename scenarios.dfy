/** Runs of the in-memory backend through its event loop, one published
    message at a time, as the library's adapter tests drive it
    (src/lib/adapters/index.test.ts). */
module Scenarios {
  import opened Values
  import opened Metadata
  import Memory
  import Orchestrator

  /** A fresh backend with one handler gets one message published; the
      event loop consumes it (one message open) and dispatches it. */
  method PublishAndDispatch(m: Memory.Message) returns (b: Memory.MemoryBackend)
    ensures fresh(b)
    ensures b.maxMessages == Memory.Infinity && b.handlers == [0]
    ensures b.openedMessages == 1 && b.messages == [] && b.tasks == []
    ensures b.invocations == [Memory.Invocation(0, m.payload, m.attributes, m)]
  {
    b := new Memory.MemoryBackend(None);
    b.RegisterHandler(0);
    b.PublishJson(m.payload, m.attributes, m.publishTime);
    assert b.messages == [m] && b.tasks == [Memory.ConsumeTask];
    ConsumeAndDispatch(b, m);
  }

  /** One stored message, nothing open, one handler: the two event-loop
      turns open it and hand it to the handler. */
  method ConsumeAndDispatch(b: Memory.MemoryBackend, m: Memory.Message)
    requires b.maxMessages == Memory.Infinity && b.handlers == [0]
    requires b.openedMessages == 0 && b.messages == [m] && b.tasks == [Memory.ConsumeTask]
    modifies b
    ensures b.handlers == [0]
    ensures b.openedMessages == 1 && b.messages == [] && b.tasks == []
    ensures b.invocations == old(b.invocations) + [Memory.Invocation(0, m.payload, m.attributes, m)]
  {
    OneMessageRound(m);
    var crashed := b.RunImmediate();
    crashed := b.RunImmediate();
  }

  /** The pure side of one round for one message. */
  lemma OneMessageRound(m: Memory.Message)
    ensures Memory.PopCount(Memory.Infinity, 1, 0) == 1
    ensures Memory.PopMany([m], 1) == Memory.Popped([], [Some(m)])
    ensures Memory.Dispatches([Some(m)]) == [Memory.DispatchTask(Some(m))]
    ensures Memory.Fanout([0], m) == [Memory.Invocation(0, m.payload, m.attributes, m)]
  {
    Memory.PopManyTakesFromEnd([m], 1);
  }

  /** A nacked message comes back: the nack puts it back in the array and
      schedules a consume step, which opens it again, and its dispatch calls
      the handler a second time with the same message. */
  method NackedMessageComesBack(m: Memory.Message) returns (b: Memory.MemoryBackend)
    ensures b.invocations == [Memory.Invocation(0, m.payload, m.attributes, m), Memory.Invocation(0, m.payload, m.attributes, m)]
    ensures b.openedMessages == 1 && b.messages == [] && b.tasks == []
  {
    b := PublishAndDispatch(m);
    b.Nack(m);
    assert b.openedMessages == 0 && b.messages == [m] && b.tasks == [Memory.ConsumeTask];
    ConsumeAndDispatch(b, m);
  }

  /** `isAlive()` on an open backend with the default timeout: the probe
      reads the flag when its sleep ends and reports true. */
  method HealthCheckWhileOpen(timerFirst: bool) returns (ok: bool)
    ensures ok
  {
    var b := new Memory.MemoryBackend(None);
    b.IsAlive();
    var p := b.ProbeSettles();
    ok := Orchestrator.RaceResult(p, None, timerFirst);
  }

  /** `isAlive()` followed by `close()` before the 500 ms sleep ends: the
      probe reads the flag after the close and the health check is false. */
  method CloseDuringHealthCheck(timerFirst: bool) returns (ok: bool)
    ensures !ok
  {
    var b := new Memory.MemoryBackend(None);
    b.IsAlive();
    b.Close();
    var p := b.ProbeSettles();
    ok := Orchestrator.RaceResult(p, None, timerFirst);
  }
}
