/** The shared JetStream worker loop (`shared-py/src/nats_consumer.py`).

    The transport is an append-only log of the calls the loop issues
    (`Event`); the queue server, the handler and the signal handler are the
    environment, described per fetch cycle by `Cycle`. The specification
    functions `Message`, `BatchStep`, `CycleStep` and `Loop` say which events
    one message, one batch, one cycle and the whole loop produce; the class
    `Worker` runs the loop step by step and is proved to append exactly
    what they say. */
module Consumer {
  import opened Base
  import opened Json

  const HANDLER_TIMEOUT := 300     // seconds given to `asyncio.wait_for`
  const NAK_DELAY := 30            // seconds passed to `msg.nak(delay=...)`
  const FETCH_TIMEOUT := 5         // seconds passed to `sub.fetch(timeout=...)`
  const DEFAULT_CONCURRENCY := 1   // `run_consumer(..., concurrency=1)`
  const HEALTH_PORT := 8080

  const DEFAULT_NATS_URL := "nats://localhost:4222"
  const DEFAULT_STREAM := "keda-jobs-events"

  type MsgId = nat

  /** The `NATS_*` environment variables; `None` when unset. */
  datatype NatsEnv = NatsEnv(
    url: Option<string>,
    stream: Option<string>,
    consumer: Option<string>,
    subjectFilter: Option<string>)

  datatype Config = Config(url: string, stream: string, durable: string, subjectFilter: string)

  /** How a handler invocation ends: it returns, `wait_for` gives up on it
      after `HANDLER_TIMEOUT` seconds, it raises an `Exception`, or it raises
      a `BaseException` that is not an `Exception` (`asyncio.CancelledError`,
      `KeyboardInterrupt`, `SystemExit`), which no `except` clause catches. */
  datatype HandlerResult = Returned | TimedOut | Raised | Cancelled

  /** A `publish(subject, data)` call of the handler, as it reaches the
      transport. */
  type Publication = e: Event | e.Publish? witness Publish("", Null)

  /** What the handler does once invoked: the `publish` calls it makes, in
      order, and how it ends. */
  datatype HandlerRun = HandlerRun(publishes: seq<Publication>, result: HandlerResult)

  /** One fetched message together with how each step of its processing goes:
      whether `msg.in_progress()` raises, whether its payload decodes as
      UTF-8 JSON, what the handler does, and whether `msg.ack()` and
      `msg.nak()` raise. */
  datatype Delivery = Delivery(
    id: MsgId,
    inProgressRaises: bool,
    decodes: bool,
    run: HandlerRun,
    ackRaises: bool,
    nakRaises: bool)

  /** What `sub.fetch` does: return a batch, raise `nats.errors.TimeoutError`
      (nothing arrived within `FETCH_TIMEOUT`), or raise anything else. */
  datatype FetchResult = Batch(msgs: seq<Delivery>) | FetchTimeout | FetchError

  /** One pass of the `while` loop as the environment decides it: what the
      fetch yields, and whether SIGTERM/SIGINT arrives during the pass. */
  datatype Cycle = Cycle(fetch: FetchResult, signalled: bool)

  /** The calls the loop issues, in the order it issues them. */
  datatype Event =
    | StartHealth(port: int)
    | Connect(url: string)
    | Subscribe(subject: string, durable: string, stream: string)
    | Fetch(batch: int, timeout: int)
    | InProgress(id: MsgId)
    | Handle(id: MsgId, timeout: int)
    | Publish(subject: string, data: Json)
    | Ack(id: MsgId)
    | Nak(id: MsgId, delay: int)
    | Unsubscribe
    | Drain
    | Cleanup

  /** The events of a piece of work and whether an exception escaped it. */
  datatype Step = Step(events: seq<Event>, crashed: bool)

  /** Where a run ends: still waiting for the environment, stopped after a
      signal and teardown, or left by an uncaught exception. */
  datatype Status = Waiting | Stopped | Crashed

  datatype RunResult = RunResult(events: seq<Event>, status: Status, shutdown: bool)

  predicate IsDisposition(e: Event) { e.Ack? || e.Nak? }
  predicate IsFetch(e: Event) { e.Fetch? }
  predicate IsMark(e: Event) { e.InProgress? }
  predicate IsPublish(e: Event) { e.Publish? }
  predicate IsTeardown(e: Event) { e.Unsubscribe? || e.Drain? || e.Cleanup? }

  /** The subsequence of `evs` whose events satisfy `keep`. */
  function Select(evs: seq<Event>, keep: Event -> bool): (r: seq<Event>)
    decreases |evs|
  {
    if evs == [] then []
    else (if keep(evs[0]) then [evs[0]] else []) + Select(evs[1..], keep)
  }

  lemma {:induction false} SelectConcat(a: seq<Event>, b: seq<Event>, keep: Event -> bool)
    ensures Select(a + b, keep) == Select(a, keep) + Select(b, keep)
    decreases |a|
  {
    if a == [] {
      assert a + b == b;
    } else {
      var first := if keep(a[0]) then [a[0]] else [];
      assert (a + b)[0] == a[0];
      assert (a + b)[1..] == a[1..] + b;
      SelectConcat(a[1..], b, keep);
      assert Select(a + b, keep) == first + (Select(a[1..], keep) + Select(b, keep));
      assert first + (Select(a[1..], keep) + Select(b, keep)) == (first + Select(a[1..], keep)) + Select(b, keep);
    }
  }

  lemma {:induction false} SelectNone(evs: seq<Event>, keep: Event -> bool)
    requires forall i :: 0 <= i < |evs| ==> !keep(evs[i])
    ensures Select(evs, keep) == []
    decreases |evs|
  {
    if evs != [] {
      SelectNone(evs[1..], keep);
    }
  }

  /** The environment variable defaults of `_run`. */
  function ResolveConfig(jobName: string, env: NatsEnv): (c: Config)
    ensures c.url == (if env.url.Some? then env.url.value else DEFAULT_NATS_URL)
    ensures c.stream == (if env.stream.Some? then env.stream.value else DEFAULT_STREAM)
    ensures c.durable == (if env.consumer.Some? then env.consumer.value else jobName + "-consumer")
    ensures c.subjectFilter == (if env.subjectFilter.Some? then env.subjectFilter.value else jobName)
  {
    Config(
      env.url.GetOr(DEFAULT_NATS_URL),
      env.stream.GetOr(DEFAULT_STREAM),
      env.consumer.GetOr(jobName + "-consumer"),
      env.subjectFilter.GetOr(jobName))
  }

  /** Start the health server, connect, pull-subscribe the durable consumer. */
  function Setup(c: Config): (r: seq<Event>)
    ensures |r| == 3 && r[0] == StartHealth(HEALTH_PORT)
    ensures Connect(c.url) in r && Subscribe(c.subjectFilter, c.durable, c.stream) in r
    ensures forall i :: 0 <= i < |r| ==> !IsFetch(r[i]) && !IsTeardown(r[i]) && !IsDisposition(r[i])
  {
    [StartHealth(HEALTH_PORT), Connect(c.url), Subscribe(c.subjectFilter, c.durable, c.stream)]
  }

  /** Unsubscribe, drain the connection, stop the health server. */
  function Teardown(): (r: seq<Event>)
    ensures |r| == 3 && forall i :: 0 <= i < |r| ==> IsTeardown(r[i])
    ensures r[0].Unsubscribe? && r[1].Drain? && r[2].Cleanup?
  {
    [Unsubscribe, Drain, Cleanup]
  }

  /** The handler is reached: `in_progress` returned and the payload decoded. */
  predicate Invoked(d: Delivery)
  {
    !d.inProgressRaises && d.decodes
  }

  /** The handler ends in an exception that neither `except` clause
      catches: it leaves the `for` and `while` loops without a `nak`. */
  predicate Escapes(d: Delivery)
  {
    Invoked(d) && d.run.result == Cancelled
  }

  /** Every step of the `try` block succeeds, so no `except` clause runs. */
  predicate Succeeds(d: Delivery)
  {
    Invoked(d) && d.run.result == Returned && !d.ackRaises
  }

  /** What follows a handler invocation: `ack` when it returned, and the
      `nak` of an `except` clause when it timed out, raised an `Exception`,
      or `ack` raised; nothing when the handler's exception is not caught. */
  function Disposal(d: Delivery): (r: seq<Event>)
    ensures forall i :: 0 <= i < |r| ==> IsDisposition(r[i]) && r[i].id == d.id
    ensures Ack(d.id) in r <==> d.run.result == Returned
    ensures Nak(d.id, NAK_DELAY) in r <==>
      d.run.result == TimedOut || d.run.result == Raised || (d.run.result == Returned && d.ackRaises)
    ensures r == [] <==> d.run.result == Cancelled
    ensures Ack(d.id) in r && Nak(d.id, NAK_DELAY) in r ==> r == [Ack(d.id), Nak(d.id, NAK_DELAY)]
  {
    match d.run.result
    case Cancelled => []
    case TimedOut => [Nak(d.id, NAK_DELAY)]
    case Raised => [Nak(d.id, NAK_DELAY)]
    case Returned => if d.ackRaises then [Ack(d.id), Nak(d.id, NAK_DELAY)] else [Ack(d.id)]
  }

  /** The body of `for msg in msgs`: the `try` block and its two `except`
      clauses. Both clauses nak with the same delay; an exception raised by
      `nak` itself, or one neither clause catches, escapes the loop
      (`crashed`). */
  function Message(d: Delivery): (r: Step)
    ensures |r.events| >= 2 && r.events[0] == InProgress(d.id)
    ensures r.crashed <==> Escapes(d) || (d.nakRaises && !Succeeds(d))
  {
    if !Invoked(d) then
      Step([InProgress(d.id), Nak(d.id, NAK_DELAY)], d.nakRaises)
    else
      Step([InProgress(d.id), Handle(d.id, HANDLER_TIMEOUT)] + d.run.publishes + Disposal(d),
           Escapes(d) || (d.nakRaises && !Succeeds(d)))
  }

  /** The messages of one batch, one at a time in fetch order, until an
      exception escapes. */
  function BatchStep(ds: seq<Delivery>): (r: Step)
    ensures r.events == [] <==> ds == []
    ensures ds != [] ==> r.events[0] == InProgress(ds[0].id)
    ensures r.crashed ==> ds != []
    decreases |ds|
  {
    if ds == [] then Step([], false)
    else if Message(ds[0]).crashed then Message(ds[0])
    else Step(Message(ds[0]).events + BatchStep(ds[1..]).events, BatchStep(ds[1..]).crashed)
  }

  lemma BatchStepUnfold(ds: seq<Delivery>)
    requires ds != []
    ensures Message(ds[0]).crashed ==> BatchStep(ds) == Message(ds[0])
    ensures !Message(ds[0]).crashed ==>
      BatchStep(ds) == Step(Message(ds[0]).events + BatchStep(ds[1..]).events, BatchStep(ds[1..]).crashed)
  {
  }

  /** The `try: fetch ... except TimeoutError: continue` part of one pass and
      the batch that follows; any other fetch exception escapes. */
  function CycleStep(f: FetchResult): (r: Step)
    ensures r.crashed ==> !f.FetchTimeout?
    ensures f.FetchError? ==> r.crashed && r.events == []
    ensures r.events != [] <==> f.Batch? && f.msgs != []
  {
    match f
    case FetchTimeout => Step([], false)
    case FetchError => Step([], true)
    case Batch(ds) => BatchStep(ds)
  }

  /** `while not shutdown.is_set(): ...` followed by the teardown, from a flag
      value `shutdown` and the remaining cycles. The flag is consulted only
      before each fetch; a signal during a pass is seen at the next check. */
  function Loop(shutdown: bool, cycles: seq<Cycle>, batch: int): (r: RunResult)
    ensures shutdown ==> r == RunResult(Teardown(), Stopped, true)
    ensures !shutdown && cycles != [] ==> r.events != [] && r.events[0] == Fetch(batch, FETCH_TIMEOUT)
    decreases |cycles|
  {
    if shutdown then RunResult(Teardown(), Stopped, true)
    else if cycles == [] then RunResult([], Waiting, false)
    else
      var s := CycleStep(cycles[0].fetch);
      var head := [Fetch(batch, FETCH_TIMEOUT)] + s.events;
      if s.crashed then RunResult(head, Crashed, cycles[0].signalled)
      else
        var rest := Loop(cycles[0].signalled, cycles[1..], batch);
        RunResult(head + rest.events, rest.status, rest.shutdown)
  }

  lemma LoopUnfold(cycles: seq<Cycle>, batch: int)
    requires cycles != []
    ensures var s := CycleStep(cycles[0].fetch);
      var head := [Fetch(batch, FETCH_TIMEOUT)] + s.events;
      var rest := Loop(cycles[0].signalled, cycles[1..], batch);
      Loop(false, cycles, batch) ==
        if s.crashed then RunResult(head, Crashed, cycles[0].signalled)
        else RunResult(head + rest.events, rest.status, rest.shutdown)
  {
  }

  /** A run result with `prefix` already logged before it. */
  function After(prefix: seq<Event>, r: RunResult): RunResult
  {
    RunResult(prefix + r.events, r.status, r.shutdown)
  }

  /** One pass of the loop seen after a logged `prefix`: either the run
      ends there with a crash, or it goes on from the pass's flag value. */
  lemma {:induction false} LoopAfterPass(prefix: seq<Event>, cycles: seq<Cycle>, batch: int)
    requires cycles != []
    ensures CycleStep(cycles[0].fetch).crashed ==>
      After(prefix, Loop(false, cycles, batch)) ==
      RunResult(prefix + ([Fetch(batch, FETCH_TIMEOUT)] + CycleStep(cycles[0].fetch).events), Crashed, cycles[0].signalled)
    ensures !CycleStep(cycles[0].fetch).crashed ==>
      After(prefix, Loop(false, cycles, batch)) ==
      After(prefix + ([Fetch(batch, FETCH_TIMEOUT)] + CycleStep(cycles[0].fetch).events), Loop(cycles[0].signalled, cycles[1..], batch))
  {
    LoopUnfold(cycles, batch);
    if !CycleStep(cycles[0].fetch).crashed {
      var head := [Fetch(batch, FETCH_TIMEOUT)] + CycleStep(cycles[0].fetch).events;
      var rest := Loop(cycles[0].signalled, cycles[1..], batch);
      assert prefix + (head + rest.events) == (prefix + head) + rest.events;
    }
  }

  /** The passes `cs` each followed by the next check, as the loop logs them
      when none of them crashes. */
  function Passes(cs: seq<Cycle>, batch: int): seq<Event>
    decreases |cs|
  {
    if cs == [] then []
    else [Fetch(batch, FETCH_TIMEOUT)] + CycleStep(cs[0].fetch).events + Passes(cs[1..], batch)
  }

  // ---------------------------------------------------------------------
  // One message: exactly which dispositions each outcome gets.
  // ---------------------------------------------------------------------

  /** Around the handler's publications nothing is a disposition before
      them and only dispositions come after them. */
  lemma {:induction false} InvokedShape(d: Delivery, keep: Event -> bool)
    requires Invoked(d)
    ensures Select(Message(d).events, keep) ==
      Select([InProgress(d.id), Handle(d.id, HANDLER_TIMEOUT)], keep)
      + Select(d.run.publishes, keep) + Select(Disposal(d), keep)
  {
    var head := [InProgress(d.id), Handle(d.id, HANDLER_TIMEOUT)];
    var pubs := d.run.publishes;
    SelectConcat(head + pubs, Disposal(d), keep);
    SelectConcat(head, pubs, keep);
  }

  /** The dispositions of one message, whatever happens to it. */
  lemma MessageDispositions(d: Delivery)
    ensures Select(Message(d).events, IsDisposition) ==
      if Succeeds(d) then [Ack(d.id)]
      else if Invoked(d) && d.run.result == Returned then [Ack(d.id), Nak(d.id, NAK_DELAY)]
      else if Escapes(d) then []
      else [Nak(d.id, NAK_DELAY)]
  {
    if Invoked(d) {
      InvokedShape(d, IsDisposition);
      SelectNone(d.run.publishes, IsDisposition);
      SelectAll(Disposal(d), IsDisposition);
      SelectNone([InProgress(d.id), Handle(d.id, HANDLER_TIMEOUT)], IsDisposition);
    } else {
      assert Message(d).events == [InProgress(d.id)] + [Nak(d.id, NAK_DELAY)];
      SelectConcat([InProgress(d.id)], [Nak(d.id, NAK_DELAY)], IsDisposition);
      SelectNone([InProgress(d.id)], IsDisposition);
      SelectAll([Nak(d.id, NAK_DELAY)], IsDisposition);
    }
  }

  /** Lines 81-85: when decode, handler and ack all succeed, exactly one Ack
      and no Nak. */
  lemma SuccessIsAckedOnce(d: Delivery)
    requires Succeeds(d)
    ensures Select(Message(d).events, IsDisposition) == [Ack(d.id)]
    ensures !Message(d).crashed
  {
    MessageDispositions(d);
  }

  /** Lines 83, 86-88: a handler that outlives the timeout is nak'd with delay
      30 and never acked. */
  lemma TimeoutIsNakked(d: Delivery)
    requires Invoked(d) && d.run.result == TimedOut
    ensures Select(Message(d).events, IsDisposition) == [Nak(d.id, NAK_DELAY)]
  {
    MessageDispositions(d);
  }

  /** Lines 79-81, 89-91: an `in_progress` failure, a decode failure or a
      handler exception is nak'd with delay 30 and never acked. */
  lemma FailureIsNakked(d: Delivery)
    requires d.inProgressRaises || !d.decodes || d.run.result == Raised
    ensures Select(Message(d).events, IsDisposition) == [Nak(d.id, NAK_DELAY)]
  {
    MessageDispositions(d);
  }

  /** Lines 84, 89-91: when `ack()` itself raises, the `except Exception`
      clause naks the already-acked message: Ack followed by Nak. */
  lemma AckFailureIsAlsoNakked(d: Delivery)
    requires Invoked(d) && d.run.result == Returned && d.ackRaises
    ensures Select(Message(d).events, IsDisposition) == [Ack(d.id), Nak(d.id, NAK_DELAY)]
  {
    MessageDispositions(d);
  }

  /** Lines 86-91: a handler exception that is not an `Exception` is caught
      by neither clause: the message gets no disposition at all and the
      exception leaves the loop. */
  lemma UncaughtIsNotDisposed(d: Delivery)
    requires Escapes(d)
    ensures Select(Message(d).events, IsDisposition) == []
    ensures Message(d).crashed
  {
    MessageDispositions(d);
  }

  /** Lines 78-83: a message is marked in progress first, and the handler
      is invoked (the second event) exactly when marking and decoding
      succeeded. */
  lemma MarkedBeforeHandled(d: Delivery)
    ensures Message(d).events[0] == InProgress(d.id)
    ensures Invoked(d) <==> Handle(d.id, HANDLER_TIMEOUT) in Message(d).events
    ensures Invoked(d) ==> Message(d).events[1] == Handle(d.id, HANDLER_TIMEOUT)
  {
    if !Invoked(d) {
      assert Message(d).events == [InProgress(d.id), Nak(d.id, NAK_DELAY)];
    }
  }

  /** Lines 65-68, 83: what reaches the transport through `publish` is
      exactly what the invoked handler published, in order, and nothing
      when the handler is not reached. */
  lemma {:induction false} PublishesPassThrough(d: Delivery)
    ensures Invoked(d) ==> Select(Message(d).events, IsPublish) == d.run.publishes
    ensures !Invoked(d) ==> Select(Message(d).events, IsPublish) == []
  {
    if Invoked(d) {
      var head := [InProgress(d.id), Handle(d.id, HANDLER_TIMEOUT)];
      var pubs: seq<Event> := d.run.publishes;
      var tail := Disposal(d);
      InvokedShape(d, IsPublish);
      assert forall i :: 0 <= i < |pubs| ==> IsPublish(pubs[i]);
      SelectAll(pubs, IsPublish);
      assert forall i :: 0 <= i < |tail| ==> IsDisposition(tail[i]);
      SelectNone(tail, IsPublish);
      assert !IsPublish(head[0]) && !IsPublish(head[1]);
      SelectNone(head, IsPublish);
      assert Select(head, IsPublish) + pubs + Select(tail, IsPublish) == pubs;
    } else {
      SelectNone(Message(d).events, IsPublish);
    }
  }

  /** Lines 83-91: the handler's publishes all go out before the message's
      Ack or Nak. */
  lemma PublishesBeforeDisposition(d: Delivery)
    ensures var evs := Message(d).events;
      forall i, j :: 0 <= i < j < |evs| && IsDisposition(evs[i]) ==> !IsPublish(evs[j])
  {
    var evs := Message(d).events;
    if Invoked(d) {
      var n := 2 + |d.run.publishes|;
      assert forall i :: 0 <= i < n ==> !IsDisposition(evs[i]);
      assert forall j :: n <= j < |evs| ==> IsDisposition(evs[j]);
    }
  }

  lemma {:induction false} SelectAll(evs: seq<Event>, keep: Event -> bool)
    requires forall i :: 0 <= i < |evs| ==> keep(evs[i])
    ensures Select(evs, keep) == evs
    decreases |evs|
  {
    if evs != [] {
      SelectAll(evs[1..], keep);
    }
  }

  // ---------------------------------------------------------------------
  // One batch: one message at a time, in fetch order.
  // ---------------------------------------------------------------------

  function Marks(ds: seq<Delivery>): (r: seq<Event>)
    ensures |r| == |ds| && forall i :: 0 <= i < |ds| ==> r[i] == InProgress(ds[i].id)
  {
    seq(|ds|, i requires 0 <= i < |ds| => InProgress(ds[i].id))
  }

  lemma MessageMarkedOnce(d: Delivery)
    ensures Select(Message(d).events, IsMark) == [InProgress(d.id)]
  {
    var evs := Message(d).events;
    assert evs == [evs[0]] + evs[1..];
    SelectConcat([evs[0]], evs[1..], IsMark);
    SelectNone(evs[1..], IsMark);
  }

  /** How many messages of the batch are processed: all of them, or those
      up to and including the first whose `nak` raises. */
  function Processed(ds: seq<Delivery>): (n: nat)
    ensures n <= |ds|
    decreases |ds|
  {
    if ds == [] then 0
    else if Message(ds[0]).crashed then 1
    else 1 + Processed(ds[1..])
  }

  lemma MarksCons(ds: seq<Delivery>, k: nat)
    requires k < |ds|
    ensures Marks(ds[..k + 1]) == [InProgress(ds[0].id)] + Marks(ds[1..][..k])
  {
    assert ds[..k + 1] == [ds[0]] + ds[1..][..k];
  }

  /** A message that does not crash contributes its one mark, and the batch
      goes on with the next message. */
  lemma BatchMarksStep(ds: seq<Delivery>)
    requires ds != []
    ensures !Message(ds[0]).crashed ==>
      Select(BatchStep(ds).events, IsMark) == [InProgress(ds[0].id)] + Select(BatchStep(ds[1..]).events, IsMark)
    ensures !Message(ds[0]).crashed ==> Processed(ds) == 1 + Processed(ds[1..])
  {
    BatchStepUnfold(ds);
    MessageMarkedOnce(ds[0]);
    SelectConcat(Message(ds[0]).events, BatchStep(ds[1..]).events, IsMark);
  }

  /** Lines 78-84: the messages of a batch are marked in progress one after
      the other in fetch order, each exactly once, up to the last one
      processed. */
  lemma {:induction false} BatchMarksInOrder(ds: seq<Delivery>)
    ensures Select(BatchStep(ds).events, IsMark) == Marks(ds[..Processed(ds)])
    decreases |ds|
  {
    if ds != [] {
      if Message(ds[0]).crashed {
        BatchStepUnfold(ds);
        MessageMarkedOnce(ds[0]);
        MarksCons(ds, 0);
      } else {
        BatchMarksStep(ds);
        BatchMarksInOrder(ds[1..]);
        MarksCons(ds, Processed(ds[1..]));
      }
    }
  }

  /** Lines 78-91: a batch ends without an escaping exception exactly when
      every message is processed and none of them crashes. */
  lemma {:induction false} BatchCompletes(ds: seq<Delivery>)
    ensures !BatchStep(ds).crashed <==> Processed(ds) == |ds| && forall i :: 0 <= i < |ds| ==> !Message(ds[i]).crashed
    decreases |ds|
  {
    if ds != [] {
      BatchStepUnfold(ds);
      if !Message(ds[0]).crashed {
        var tail := ds[1..];
        BatchCompletes(tail);
        assert forall i :: 0 < i < |ds| ==> ds[i] == tail[i - 1];
      }
    }
  }

  /** Lines 78-91: when an exception escapes a batch, it is the last message
      processed that crashed, and none before it did. */
  lemma {:induction false} BatchStopsAtFirstCrash(ds: seq<Delivery>)
    requires BatchStep(ds).crashed
    ensures 1 <= Processed(ds) && Message(ds[Processed(ds) - 1]).crashed
    ensures forall i :: 0 <= i < Processed(ds) - 1 ==> !Message(ds[i]).crashed
    decreases |ds|
  {
    BatchStepUnfold(ds);
    if !Message(ds[0]).crashed {
      var tail := ds[1..];
      BatchStopsAtFirstCrash(tail);
      assert forall i :: 0 < i < |ds| ==> ds[i] == tail[i - 1];
    }
  }

  /** Lines 78-91, the three facts together: marks in fetch order, a full
      batch unless some message crashes, and the first crash ends it. */
  lemma BatchInFetchOrder(ds: seq<Delivery>)
    ensures Select(BatchStep(ds).events, IsMark) == Marks(ds[..Processed(ds)])
    ensures !BatchStep(ds).crashed <==> Processed(ds) == |ds| && forall i :: 0 <= i < |ds| ==> !Message(ds[i]).crashed
    ensures BatchStep(ds).crashed ==> 1 <= Processed(ds) && Message(ds[Processed(ds) - 1]).crashed
    ensures forall i :: 0 <= i < Processed(ds) - 1 ==> !Message(ds[i]).crashed
  {
    BatchMarksInOrder(ds);
    BatchCompletes(ds);
    if BatchStep(ds).crashed {
      BatchStopsAtFirstCrash(ds);
    }
  }

  // ---------------------------------------------------------------------
  // The whole loop: fetch size, shutdown, teardown.
  // ---------------------------------------------------------------------

  lemma MessageHasNoLoopEvents(d: Delivery)
    ensures forall i :: 0 <= i < |Message(d).events| ==>
      !IsFetch(Message(d).events[i]) && !IsTeardown(Message(d).events[i])
  {
  }

  lemma {:induction false} CycleHasNoLoopEvents(f: FetchResult)
    ensures forall i :: 0 <= i < |CycleStep(f).events| ==>
      !IsFetch(CycleStep(f).events[i]) && !IsTeardown(CycleStep(f).events[i])
  {
    if f.Batch? {
      BatchHasNoLoopEvents(f.msgs);
    }
  }

  lemma {:induction false} BatchHasNoLoopEvents(ds: seq<Delivery>)
    ensures forall i :: 0 <= i < |BatchStep(ds).events| ==>
      !IsFetch(BatchStep(ds).events[i]) && !IsTeardown(BatchStep(ds).events[i])
    decreases |ds|
  {
    if ds != [] {
      MessageHasNoLoopEvents(ds[0]);
      if !Message(ds[0]).crashed {
        BatchHasNoLoopEvents(ds[1..]);
      }
    }
  }

  /** Lines 72-78, 100: every fetch asks for `batch` messages (the
      `concurrency` argument) with the 5-second wait, and an already-set flag
      means no fetch at all, only the teardown. */
  lemma {:induction false} FetchesAskForBatch(shutdown: bool, cycles: seq<Cycle>, batch: int)
    ensures shutdown ==> Loop(shutdown, cycles, batch).events == Teardown()
    ensures forall e :: e in Loop(shutdown, cycles, batch).events && IsFetch(e) ==>
      e == Fetch(batch, FETCH_TIMEOUT)
    decreases |cycles|
  {
    if !shutdown && cycles != [] {
      var s := CycleStep(cycles[0].fetch);
      CycleHasNoLoopEvents(cycles[0].fetch);
      if !s.crashed {
        FetchesAskForBatch(cycles[0].signalled, cycles[1..], batch);
      }
    }
  }

  /** One pass issues exactly one fetch and no teardown call. */
  lemma PassSelections(f: FetchResult, batch: int)
    ensures Select([Fetch(batch, FETCH_TIMEOUT)] + CycleStep(f).events, IsFetch) == [Fetch(batch, FETCH_TIMEOUT)]
    ensures Select([Fetch(batch, FETCH_TIMEOUT)] + CycleStep(f).events, IsTeardown) == []
  {
    var evs := CycleStep(f).events;
    CycleHasNoLoopEvents(f);
    SelectConcat([Fetch(batch, FETCH_TIMEOUT)], evs, IsFetch);
    SelectConcat([Fetch(batch, FETCH_TIMEOUT)], evs, IsTeardown);
    SelectNone(evs, IsFetch);
    SelectNone(evs, IsTeardown);
  }

  function FetchCount(evs: seq<Event>): nat
  {
    |Select(evs, IsFetch)|
  }

  /** Lines 72-76: a pass that only times out in `fetch` issues no call
      besides the fetch, and control goes straight back to the flag check. */
  lemma {:induction false} FetchTimeoutOnlyLoops(cycles: seq<Cycle>, batch: int)
    requires cycles != [] && cycles[0].fetch == FetchTimeout
    ensures Loop(false, cycles, batch).events ==
      [Fetch(batch, FETCH_TIMEOUT)] + Loop(cycles[0].signalled, cycles[1..], batch).events
    ensures Loop(false, cycles, batch).status == Loop(cycles[0].signalled, cycles[1..], batch).status
  {
    LoopUnfold(cycles, batch);
    assert CycleStep(cycles[0].fetch) == Step([], false);
  }

  /** Lines 55-59, 72-78: once the signal has arrived during pass `k`, no
      further fetch happens: at most `k + 1` fetches in all. */
  lemma {:induction false} NoFetchAfterSignal(cycles: seq<Cycle>, batch: int, k: nat)
    requires k < |cycles| && cycles[k].signalled
    ensures FetchCount(Loop(false, cycles, batch).events) <= k + 1
    decreases k
  {
    LoopUnfold(cycles, batch);
    PassSelections(cycles[0].fetch, batch);
    var s := CycleStep(cycles[0].fetch);
    if !s.crashed {
      var head := [Fetch(batch, FETCH_TIMEOUT)] + s.events;
      var rest := Loop(cycles[0].signalled, cycles[1..], batch);
      SelectConcat(head, rest.events, IsFetch);
      if cycles[0].signalled {
        SelectNone(Teardown(), IsFetch);
      } else {
        NoFetchAfterSignal(cycles[1..], batch, k - 1);
      }
    }
  }

  /** A pass that neither crashes nor sees a signal is followed by the
      rest of the loop. */
  lemma {:induction false} LoopGoesOn(cycles: seq<Cycle>, batch: int)
    requires cycles != [] && !cycles[0].signalled && !CycleStep(cycles[0].fetch).crashed
    ensures Loop(false, cycles, batch) ==
      After([Fetch(batch, FETCH_TIMEOUT)] + CycleStep(cycles[0].fetch).events, Loop(false, cycles[1..], batch))
  {
    LoopUnfold(cycles, batch);
  }

  /** Lines 72-96: when the first signal arrives during pass `k` and no
      exception escapes before, the run consists of exactly the passes up
      to and including `k`, each batch processed in full, followed by the
      teardown in the order unsubscribe, drain, stop health server. */
  lemma {:induction false} ShutdownFinishesBatch(cycles: seq<Cycle>, batch: int, k: nat)
    requires k < |cycles| && cycles[k].signalled
    requires forall i :: 0 <= i < k ==> !cycles[i].signalled
    requires forall i :: 0 <= i <= k ==> !CycleStep(cycles[i].fetch).crashed
    ensures Loop(false, cycles, batch) == RunResult(Passes(cycles[..k + 1], batch) + Teardown(), Stopped, true)
    decreases k
  {
    var head := [Fetch(batch, FETCH_TIMEOUT)] + CycleStep(cycles[0].fetch).events;
    var firstK := cycles[..k + 1];
    assert firstK[0] == cycles[0];
    if k == 0 {
      LoopUnfold(cycles, batch);
      assert firstK[1..] == [];
      assert Passes(firstK, batch) == head;
    } else {
      var tail := cycles[1..];
      forall i | 0 <= i <= k - 1 ensures !CycleStep(tail[i].fetch).crashed {
        assert tail[i] == cycles[i + 1];
      }
      forall i | 0 <= i < k - 1 ensures !tail[i].signalled {
        assert tail[i] == cycles[i + 1];
      }
      ShutdownFinishesBatch(tail, batch, k - 1);
      LoopGoesOn(cycles, batch);
      assert firstK[1..] == tail[..k];
      var p := Passes(tail[..k], batch);
      assert Passes(firstK, batch) == head + Passes(firstK[1..], batch);
      assert head + (p + Teardown()) == (head + p) + Teardown();
    }
  }

  predicate EndsWith(evs: seq<Event>, suffix: seq<Event>)
  {
    |suffix| <= |evs| && evs[|evs| - |suffix|..] == suffix
  }

  lemma EndsWithConcat(prefix: seq<Event>, evs: seq<Event>, suffix: seq<Event>)
    requires EndsWith(evs, suffix)
    ensures EndsWith(prefix + evs, suffix)
  {
    assert (prefix + evs)[|prefix + evs| - |suffix|..] == evs[|evs| - |suffix|..];
  }

  /** Lines 72-96: teardown happens at the end of a stopped run and nowhere
      else: a stopped run ends with it and issues no other teardown call, and
      a run that still waits or crashed issues none. Only a stopped run has
      the flag set, and one still waiting does not. */
  lemma {:induction false} TeardownOnlyWhenStopped(shutdown: bool, cycles: seq<Cycle>, batch: int)
    ensures var r := Loop(shutdown, cycles, batch);
      && (r.status == Stopped ==> r.shutdown)
      && (r.status == Waiting ==> !r.shutdown)
      && (r.status == Stopped ==> EndsWith(r.events, Teardown()))
      && Select(r.events, IsTeardown) == (if r.status == Stopped then Teardown() else [])
    decreases |cycles|
  {
    if shutdown {
      SelectAll(Teardown(), IsTeardown);
    } else if cycles != [] {
      LoopUnfold(cycles, batch);
      PassSelections(cycles[0].fetch, batch);
      var s := CycleStep(cycles[0].fetch);
      if !s.crashed {
        var head := [Fetch(batch, FETCH_TIMEOUT)] + s.events;
        var rest := Loop(cycles[0].signalled, cycles[1..], batch);
        TeardownOnlyWhenStopped(cycles[0].signalled, cycles[1..], batch);
        SelectConcat(head, rest.events, IsTeardown);
        if rest.status == Stopped {
          EndsWithConcat(head, rest.events, Teardown());
        }
      }
    }
  }

  /** Lines 78-96: when the first message of a pass ends in a handler
      exception that neither `except` clause catches, the run ends there:
      no Ack or Nak for it, no further message, no teardown. */
  lemma {:induction false} UncaughtEndsRun(cycles: seq<Cycle>, batch: int)
    requires cycles != [] && cycles[0].fetch.Batch? && cycles[0].fetch.msgs != []
    requires Escapes(cycles[0].fetch.msgs[0])
    ensures Loop(false, cycles, batch).status == Crashed
    ensures Loop(false, cycles, batch).events == [Fetch(batch, FETCH_TIMEOUT)] + Message(cycles[0].fetch.msgs[0]).events
    ensures Select(Loop(false, cycles, batch).events, IsDisposition) == []
    ensures Select(Loop(false, cycles, batch).events, IsTeardown) == []
  {
    var d := cycles[0].fetch.msgs[0];
    LoopUnfold(cycles, batch);
    BatchStepUnfold(cycles[0].fetch.msgs);
    UncaughtIsNotDisposed(d);
    PassSelections(cycles[0].fetch, batch);
    SelectConcat([Fetch(batch, FETCH_TIMEOUT)], Message(d).events, IsDisposition);
  }

  // ---------------------------------------------------------------------
  // The worker: the loop run step by step against the log.
  // ---------------------------------------------------------------------

  /** One message of a batch seen after a logged `prefix`: either the batch
      ends with it, or it goes on with the next message. */
  lemma BatchAfterMessage(prefix: seq<Event>, ds: seq<Delivery>)
    requires ds != []
    ensures Message(ds[0]).crashed ==>
      Step(prefix + BatchStep(ds).events, BatchStep(ds).crashed) == Step(prefix + Message(ds[0]).events, true)
    ensures !Message(ds[0]).crashed ==>
      Step(prefix + BatchStep(ds).events, BatchStep(ds).crashed) ==
      Step((prefix + Message(ds[0]).events) + BatchStep(ds[1..]).events, BatchStep(ds[1..]).crashed)
  {
    BatchStepUnfold(ds);
    if !Message(ds[0]).crashed {
      var m := Message(ds[0]);
      var later := BatchStep(ds[1..]).events;
      assert prefix + (m.events + later) == (prefix + m.events) + later;
    }
  }

  /** The events of one message, written the way the worker appends them
      to its log. */
  lemma MessageLogged(log: seq<Event>, d: Delivery)
    ensures var p := [InProgress(d.id)];
      var h := [Handle(d.id, HANDLER_TIMEOUT)] + d.run.publishes;
      var nak := [Nak(d.id, NAK_DELAY)];
      && (!Invoked(d) ==> log + Message(d).events == log + p + nak)
      && (Escapes(d) ==> log + Message(d).events == log + p + h)
      && (Invoked(d) && (d.run.result == TimedOut || d.run.result == Raised) ==>
            log + Message(d).events == log + p + h + nak)
      && (Invoked(d) && d.run.result == Returned && d.ackRaises ==>
            log + Message(d).events == log + p + h + [Ack(d.id)] + nak)
      && (Succeeds(d) ==> log + Message(d).events == log + p + h + [Ack(d.id)])
  {
    var p := [InProgress(d.id)];
    var h := [Handle(d.id, HANDLER_TIMEOUT)] + d.run.publishes;
    assert [InProgress(d.id), Handle(d.id, HANDLER_TIMEOUT)] + d.run.publishes == p + h;
    assert p + h + [] == p + h;
  }

  class Worker {
    /** `shutdown`, the asyncio.Event the signal handler sets. */
    var shutdown: bool
    /** Every call issued to the health server and the JetStream transport. */
    var log: seq<Event>
    const config: Config
    const concurrency: int

    constructor (jobName: string, env: NatsEnv, concurrency: int)
      ensures config == ResolveConfig(jobName, env) && this.concurrency == concurrency
      ensures !shutdown && log == []
    {
      config := ResolveConfig(jobName, env);
      this.concurrency := concurrency;
      shutdown := false;
      log := [];
    }

    /** `_signal_handler`: sets the flag, issues nothing. */
    method Signal()
      modifies this`shutdown
      ensures shutdown
    {
      shutdown := true;
    }

    /** The body of `for msg in msgs`; returns whether an exception escapes. */
    method ProcessMessage(d: Delivery) returns (crashed: bool)
      modifies this`log
      ensures log == old(log) + Message(d).events
      ensures crashed == Message(d).crashed
    {
      var caught := false;              // an `except` clause is entered
      var escaped := false;             // an exception no clause catches
      log := log + [InProgress(d.id)];
      if d.inProgressRaises || !d.decodes {
        caught := true;
      } else {
        log := log + [Handle(d.id, HANDLER_TIMEOUT)] + d.run.publishes;
        if d.run.result == Cancelled {
          escaped := true;
        } else if d.run.result != Returned {
          caught := true;
        } else {
          log := log + [Ack(d.id)];
          caught := d.ackRaises;
        }
      }
      if caught {
        log := log + [Nak(d.id, NAK_DELAY)];
        crashed := d.nakRaises;
      } else {
        crashed := escaped;
      }
      MessageLogged(old(log), d);
    }

    /** `for msg in msgs`: the messages in fetch order, one at a time; an
        exception escaping one of them ends the batch. */
    method ProcessBatch(msgs: seq<Delivery>) returns (crashed: bool)
      modifies this`log
      ensures log == old(log) + BatchStep(msgs).events
      ensures crashed == BatchStep(msgs).crashed
    {
      ghost var total := Step(log + BatchStep(msgs).events, BatchStep(msgs).crashed);
      var j := 0;
      while j < |msgs|
        invariant 0 <= j <= |msgs|
        invariant Step(log + BatchStep(msgs[j..]).events, BatchStep(msgs[j..]).crashed) == total
      {
        ghost var rest := msgs[j..];
        ghost var before := log;
        assert rest[0] == msgs[j] && rest[1..] == msgs[j + 1..];
        BatchAfterMessage(before, rest);
        crashed := ProcessMessage(msgs[j]);
        assert log == before + Message(rest[0]).events && crashed == Message(rest[0]).crashed;
        if crashed {
          assert Step(log, crashed) == total;
          return;
        }
        j := j + 1;
        assert Step(log + BatchStep(msgs[j..]).events, BatchStep(msgs[j..]).crashed) == total;
      }
      assert msgs[j..] == [];
      crashed := false;
    }

    /** One pass of the `while` body after the flag check: a fetch, the
        signal handler if the signal arrives meanwhile, and the batch. */
    method Pass(c: Cycle) returns (crashed: bool)
      requires !shutdown
      modifies this`log, this`shutdown
      ensures log == old(log) + ([Fetch(concurrency, FETCH_TIMEOUT)] + CycleStep(c.fetch).events)
      ensures crashed == CycleStep(c.fetch).crashed
      ensures shutdown == c.signalled
    {
      ghost var before := log;
      log := log + [Fetch(concurrency, FETCH_TIMEOUT)];
      if c.signalled {
        Signal();   // the signal handler runs while the fetch is awaited
      }
      match c.fetch {
        case FetchTimeout =>
          crashed := false;
        case FetchError =>
          crashed := true;
        case Batch(msgs) =>
          crashed := ProcessBatch(msgs);
          ghost var evs := BatchStep(msgs).events;
          assert (before + [Fetch(concurrency, FETCH_TIMEOUT)]) + evs == before + ([Fetch(concurrency, FETCH_TIMEOUT)] + evs);
      }
    }

    /** `while not shutdown.is_set(): ...` until the flag is seen set, the
        cycles run out or an exception escapes a pass; `i` passes ran. */
    method Drive(cycles: seq<Cycle>) returns (crashed: bool, i: nat)
      requires !shutdown
      modifies this`log, this`shutdown
      ensures i <= |cycles|
      ensures crashed ==> RunResult(log, Crashed, shutdown) == After(old(log), Loop(false, cycles, concurrency))
      ensures !crashed ==> shutdown || i == |cycles|
      ensures !crashed ==> After(log, Loop(shutdown, cycles[i..], concurrency)) == After(old(log), Loop(false, cycles, concurrency))
    {
      ghost var total := After(log, Loop(false, cycles, concurrency));
      i := 0;
      crashed := false;
      while !shutdown && i < |cycles|
        invariant 0 <= i <= |cycles|
        invariant After(log, Loop(shutdown, cycles[i..], concurrency)) == total
        decreases |cycles| - i
      {
        ghost var rest := cycles[i..];
        assert rest[0] == cycles[i] && rest[1..] == cycles[i + 1..];
        LoopAfterPass(log, rest, concurrency);
        crashed := Pass(cycles[i]);
        if crashed {
          return;
        }
        i := i + 1;
      }
    }

    /** The loop and the teardown after it. */
    method Serve(cycles: seq<Cycle>) returns (status: Status)
      requires !shutdown
      modifies this`log, this`shutdown
      ensures RunResult(log, status, shutdown) == After(old(log), Loop(false, cycles, concurrency))
    {
      var crashed, i := Drive(cycles);
      if crashed {
        status := Crashed;
      } else if shutdown {
        log := log + Teardown();
        status := Stopped;
      } else {
        assert cycles[i..] == [];
        status := Waiting;
      }
    }

    /** `_run` from the health server start to the teardown, against the
        environment's `cycles`. */
    method Run(cycles: seq<Cycle>) returns (status: Status)
      modifies this
      ensures var r := Loop(false, cycles, concurrency);
        && log == old(log) + Setup(config) + r.events
        && status == r.status
        && shutdown == r.shutdown
    {
      log := log + Setup(config);
      shutdown := false;    // `shutdown = asyncio.Event()`
      status := Serve(cycles);
    }
  }

  /** `run_consumer(handler, job_name, concurrency=1)` on a fresh process. */
  method RunConsumer(jobName: string, env: NatsEnv, cycles: seq<Cycle>, concurrency: int := DEFAULT_CONCURRENCY)
    returns (status: Status, log: seq<Event>)
    ensures var r := Loop(false, cycles, concurrency);
      && log == Setup(ResolveConfig(jobName, env)) + r.events
      && status == r.status
  {
    var w := new Worker(jobName, env, concurrency);
    status := w.Run(cycles);
    log := w.log;
  }
}
