/** The life of every request as one step machine: worker steps and caller steps interleave in any order.
    (src/llm_runtime/workers/manager.py, src/llm_runtime/core/response.py, src/llm_runtime/core/request.py,
    src/llm_runtime/api/routes.py, src/llm_runtime/api/streaming.py, src/llm_runtime/metrics/collector.py) */
module Lifecycle {
  import opened Common

  /** What a backend raises, by the `except` clause that catches it once it arrives through a future. */
  datatype Exception = TimeoutError(message: string) | OtherError(message: string)

  /** Readings of perf_counter; a reading of 0 would be taken for a missing timestamp by `or`. */
  type Instant = t: real | t > 0.0 witness 1.0

  datatype Future = Pending | Result(tokens: seq<string>) | Raised(error: Exception) | Cancelled

  datatype StreamEvent = TokenEvent(token: string) | CompletedEvent | ErrorEvent(message: string)

  /** One Server-Sent Event. */
  datatype Frame = Chunk(token: string) | Done | Error(message: string)

  /** A scheduled request: the timestamps of its RuntimeRequest and the state of its response handle. */
  datatype Item = Item(
    streaming: bool,
    createdAt: Instant, enqueuedAt: Option<Instant>, startedAt: Option<Instant>,
    firstTokenAt: Option<Instant>, completedAt: Option<Instant>, failedAt: Option<Instant>,
    cancelled: bool, completed: bool, future: Future, queue: seq<StreamEvent>)

  datatype Metrics = Metrics(
    requestCount: int, completedCount: int, failedCount: int, activeRequests: int, generatedTokensTotal: int,
    queueWaitTimes: seq<real>, ttftTimes: seq<real>, totalLatencies: seq<real>)

  const NO_METRICS := Metrics(0, 0, 0, 0, 0, [], [], [])

  // ---------------------------------------------------------------------
  // MetricsCollector.

  function Clamp(n: int): int { if n > 0 then n else 0 }

  function EndTime(it: Item): Option<Instant> {
    if it.completedAt.Some? then it.completedAt else it.failedAt
  }

  function RecordTiming(m: Metrics, it: Item): Metrics {
    m.(queueWaitTimes :=
         m.queueWaitTimes + (if it.enqueuedAt.Some? && it.startedAt.Some? then
                               [it.startedAt.value - it.enqueuedAt.value]
                             else []),
       ttftTimes :=
         m.ttftTimes + (if it.firstTokenAt.Some? then [it.firstTokenAt.value - it.createdAt] else []),
       totalLatencies :=
         m.totalLatencies + (if EndTime(it).Some? then [EndTime(it).value - it.createdAt] else []))
  }

  function RecordRequest(m: Metrics): Metrics {
    m.(requestCount := m.requestCount + 1, activeRequests := m.activeRequests + 1)
  }

  function RecordSuccess(m: Metrics, it: Item, generated: nat): Metrics {
    RecordTiming(m.(completedCount := m.completedCount + 1, activeRequests := Clamp(m.activeRequests - 1),
                    generatedTokensTotal := m.generatedTokensTotal + generated), it)
  }

  /** Expects `it` with its failure timestamp already set. */
  function RecordFailure(m: Metrics, it: Item): Metrics {
    RecordTiming(m.(failedCount := m.failedCount + 1, activeRequests := Clamp(m.activeRequests - 1)), it)
  }

  // ---------------------------------------------------------------------
  // Per-request transitions.

  /** What the worker decided, once it has. */
  datatype Verdict = Open | Succeeded(tokens: seq<string>) | Failed(error: Exception)

  datatype Phase = Queued | Formed | Running | Released

  /** What a non-streaming caller answers: 200, 500 or 504, or nothing because its client is gone. */
  datatype Reply = NoReply | Ok(tokens: seq<string>) | ServerError(message: string) | GatewayTimeout | ClientLost

  /** A request with the history needed to speak about it: the tokens collected for it, everything ever put
      on its stream, the worker's verdict, the frames its client has seen, and its non-streaming reply.
      `waiting` says that its caller's coroutine (or stream generator) is still open. */
  datatype Entry = Entry(
    item: Item, phase: Phase, tokens: seq<string>, put: seq<StreamEvent>, verdict: Verdict,
    waiting: bool, frames: seq<Frame>, reply: Reply)

  /** One atomic stretch between suspension points, seen from one request. */
  datatype Event =
    | Accept(streaming: bool, created: Instant, now: Instant)
    | Dequeue(id: nat, now: Instant)                // leaves the scheduler with its batch, started
    | Begin(id: nat)                                // _execute_batch looks at it for the first time
    | Token(id: nat, token: string, now: Instant)   // BatchToken for a pending request
    | Finish(id: nat, now: Instant)                 // BatchCompleted, or the stream ended
    | Fail(id: nat, error: Exception, now: Instant) // the stream raised
    | GiveUp(id: nat, gone: bool, now: Instant)     // a non-streaming caller's client is gone, or its wait timed out
    | Receive(id: nat, now: Instant)                // a non-streaming caller resumes with its future done
    | Consume(id: nat)                              // the stream generator takes one event
    | Close(id: nat, now: Instant)                  // the stream generator is closed
    | Idle

  datatype Effect = NoEffect | CountSuccess(it: Item, generated: nat) | CountFailure(it: Item)

  function NewEntry(streaming: bool, created: Instant, now: Instant): Entry {
    Entry(Item(streaming, created, Some(now), None, None, None, None, false, false, Pending, []),
          Queued, [], [], Open, true, [], NoReply)
  }

  function Put(e: Entry, ev: StreamEvent): Entry {
    e.(item := e.item.(queue := e.item.queue + [ev]), put := e.put + [ev])
  }

  function DeliverToken(e: Entry, token: string, now: Instant): Entry {
    var it := if e.item.firstTokenAt.None? then e.item.(firstTokenAt := Some(now)) else e.item;
    var e' := e.(item := it, tokens := e.tokens + [token]);
    if it.streaming then Put(e', TokenEvent(token)) else e'
  }

  /** How a handle is told its outcome: by the final event of its stream, or through its future unless that is
      cancelled. */
  function Tell(it: Item, last: StreamEvent, outcome: Future): Item {
    if it.streaming then it.(queue := it.queue + [last]) else it.(future := Resolve(it.future, outcome))
  }

  function Resolve(f: Future, outcome: Future): Future { if f.Cancelled? then f else outcome }

  /** No counter and no sample depends on what the handle was told. */
  lemma TimingIgnoresHandle(m: Metrics, it: Item, last: StreamEvent, outcome: Future)
    ensures RecordFailure(m, Tell(it, last, outcome)) == RecordFailure(m, it)
  {
  }

  function CompleteItem(e: Entry, now: Instant): (Entry, Effect) {
    var e' := e.(item := e.item.(completedAt := Some(now)), phase := Released, verdict := Succeeded(e.tokens));
    var r := e'.(item := Tell(e'.item, CompletedEvent, Result(e.tokens)),
                 put := if e.item.streaming then e.put + [CompletedEvent] else e.put);
    (r, CountSuccess(r.item, |e.tokens|))
  }

  function FailItem(e: Entry, error: Exception, now: Instant): (Entry, Effect) {
    var e' := e.(item := e.item.(failedAt := Some(now)), phase := Released, verdict := Failed(error));
    var r := e'.(item := Tell(e'.item, ErrorEvent(error.message), Raised(error)),
                 put := if e.item.streaming then e.put + [ErrorEvent(error.message)] else e.put);
    (r, CountFailure(r.item))
  }

  /** CompletionHandle.cancel. */
  function CancelCompletion(it: Item): Item {
    if it.cancelled then it
    else it.(cancelled := true, future := if it.future.Pending? then Cancelled else it.future)
  }

  /** StreamingHandle.cancel returns true. */
  predicate StreamCancels(it: Item) { !it.cancelled && !it.completed }

  function FrameOf(ev: StreamEvent): Frame {
    match ev
    case TokenEvent(t) => Chunk(t)
    case CompletedEvent => Done
    case ErrorEvent(m) => Error(m)
  }

  function ReplyOf(f: Future): Reply {
    match f
    case Result(ts) => Ok(ts)
    case Raised(x) => ServerError(x.message)
    case _ => NoReply
  }

  /** The handler's `except TimeoutError` clause catches what the backend raised, too. */
  predicate CaughtAsTimeout(f: Future) { f.Raised? && f.error.TimeoutError? }

  /** The two clauses of the handler that cancel the request and count a failure. */
  function Abandon(e: Entry, reply: Reply, now: Instant): (Entry, Effect) {
    var it := CancelCompletion(e.item).(failedAt := Some(now));
    (e.(item := it, waiting := false, reply := reply), CountFailure(it))
  }

  function Act(e: Entry, ev: Event): (Entry, Effect) {
    match ev
    case Dequeue(_, now) =>
      if e.phase != Queued then (e, NoEffect)
      else (e.(phase := Formed, item := e.item.(startedAt := Some(now))), NoEffect)
    case Begin(_) =>
      if e.phase != Formed then (e, NoEffect)
      else (e.(phase := if e.item.cancelled then Released else Running), NoEffect)
    case Token(_, token, now) =>
      if e.phase != Running then (e, NoEffect)
      else if e.item.cancelled then (e.(phase := Released), NoEffect)
      else (DeliverToken(e, token, now), NoEffect)
    case Finish(_, now) =>
      if e.phase != Running then (e, NoEffect)
      else if e.item.cancelled then (e.(phase := Released), NoEffect)
      else CompleteItem(e, now)
    case Fail(_, error, now) =>
      if e.phase != Running then (e, NoEffect)
      else if e.item.cancelled then (e.(phase := Released), NoEffect)
      else FailItem(e, error, now)
    case GiveUp(_, gone, now) =>
      if e.item.streaming || !e.waiting then (e, NoEffect)
      else Abandon(e, if gone then ClientLost else GatewayTimeout, now)
    case Receive(_, now) =>
      if e.item.streaming || !e.waiting || !(e.item.future.Result? || e.item.future.Raised?) then (e, NoEffect)
      else if CaughtAsTimeout(e.item.future) then Abandon(e, GatewayTimeout, now)
      else (e.(waiting := false, reply := ReplyOf(e.item.future)), NoEffect)
    case Consume(_) =>
      if !e.item.streaming || !e.waiting || e.item.queue == [] then (e, NoEffect)
      else
        var ev := e.item.queue[0];
        (e.(item := e.item.(queue := e.item.queue[1..], completed := !ev.TokenEvent?),
            waiting := ev.TokenEvent?, frames := e.frames + [FrameOf(ev)]), NoEffect)
    case Close(_, now) =>
      if !e.item.streaming || !e.waiting then (e, NoEffect)
      else if StreamCancels(e.item) then
        var it := e.item.(cancelled := true, failedAt := Some(now));
        (e.(item := it, waiting := false), CountFailure(it))
      else (e.(waiting := false), NoEffect)
    case _ => (e, NoEffect)
  }

  function Apply(m: Metrics, effect: Effect): Metrics {
    match effect
    case NoEffect => m
    case CountSuccess(it, n) => RecordSuccess(m, it, n)
    case CountFailure(it) => RecordFailure(m, it)
  }

  // ---------------------------------------------------------------------
  // The machine. Request ids are positions in `entries`.

  datatype State = State(entries: seq<Entry>, metrics: Metrics)

  const START := State([], NO_METRICS)

  predicate Concerns(ev: Event, i: nat) {
    match ev
    case Accept(_, _, _) => false
    case Idle => false
    case _ => ev.id == i
  }

  function Step(s: State, ev: Event): State {
    match ev
    case Accept(streaming, created, now) =>
      State(s.entries + [NewEntry(streaming, created, now)], RecordRequest(s.metrics))
    case Idle => s
    case _ =>
      if ev.id >= |s.entries| then s
      else
        var (e, effect) := Act(s.entries[ev.id], ev);
        State(s.entries[ev.id := e], Apply(s.metrics, effect))
  }

  function Run(s: State, evs: seq<Event>): State
    decreases |evs|
  {
    if evs == [] then s else Step(Run(s, evs[..|evs| - 1]), evs[|evs| - 1])
  }

  lemma {:induction false} RunConcat(s: State, p: seq<Event>, q: seq<Event>)
    ensures Run(s, p + q) == Run(Run(s, p), q)
  {
    if q == [] {
      assert p + q == p;
    } else {
      assert (p + q)[..|p + q| - 1] == p + q[..|q| - 1];
      RunConcat(s, p, q[..|q| - 1]);
    }
  }

  // ---------------------------------------------------------------------
  // What holds of every request in every reachable state.

  function Tokens(ts: seq<string>): (evs: seq<StreamEvent>)
    ensures |evs| == |ts| && forall k :: 0 <= k < |ts| ==> evs[k] == TokenEvent(ts[k])
  {
    if ts == [] then [] else Tokens(ts[..|ts| - 1]) + [TokenEvent(ts[|ts| - 1])]
  }

  function Terminal(v: Verdict): seq<StreamEvent> {
    match v
    case Open => []
    case Succeeded(_) => [CompletedEvent]
    case Failed(x) => [ErrorEvent(x.message)]
  }

  function FutureFor(v: Verdict, cancelled: bool): Future {
    match v
    case Open => if cancelled then Cancelled else Pending
    case Succeeded(ts) => Result(ts)
    case Failed(x) => Raised(x)
  }

  /** A non-streaming request: its future mirrors the verdict, and its caller got that verdict or gave up. */
  ghost predicate CompletionCoherent(e: Entry) {
    && e.item.future == FutureFor(e.verdict, e.item.cancelled)
    && (e.waiting ==> e.reply == NoReply)
    && (!e.waiting && e.item.cancelled ==> e.reply == GatewayTimeout || e.reply == ClientLost)
    && (!e.waiting && !e.item.cancelled ==>
          !e.verdict.Open? && !CaughtAsTimeout(e.item.future) && e.reply == ReplyOf(e.item.future))
  }

  /** A streaming request: what was put is the collected tokens in order, then one terminal event if and only
      if the worker decided; its client has seen the frames of a prefix of that, and the queue holds the rest. */
  ghost predicate StreamCoherent(e: Entry) {
    && e.put == Tokens(e.tokens) + Terminal(e.verdict)
    && |e.frames| <= |e.put|
    && e.item.queue == e.put[|e.frames|..]
    && (forall k :: 0 <= k < |e.frames| ==> e.frames[k] == FrameOf(e.put[k]))
    && (e.item.completed <==> !e.verdict.Open? && e.item.queue == [])
    && (e.waiting <==> !e.item.cancelled && !e.item.completed)
  }

  ghost predicate Coherent(e: Entry) {
    && (!e.verdict.Open? ==> e.phase == Released)
    && (e.phase == Queued || e.phase == Formed ==> e.tokens == [])
    && (e.verdict.Succeeded? ==> e.verdict.tokens == e.tokens)
    && (e.item.cancelled ==> !e.waiting)
    && (if e.item.streaming then StreamCoherent(e) else CompletionCoherent(e))
  }

  lemma TokenKeepsCoherent(e: Entry, token: string, now: Instant)
    requires Coherent(e) && e.phase == Running && !e.item.cancelled
    ensures Coherent(DeliverToken(e, token, now))
  {
    assert (e.tokens + [token])[..|e.tokens|] == e.tokens;
  }

  lemma CompleteKeepsCoherent(e: Entry, now: Instant)
    requires Coherent(e) && e.phase == Running && !e.item.cancelled
    ensures Coherent(CompleteItem(e, now).0)
  {
  }

  lemma FailKeepsCoherent(e: Entry, error: Exception, now: Instant)
    requires Coherent(e) && e.phase == Running && !e.item.cancelled
    ensures Coherent(FailItem(e, error, now).0)
  {
  }

  /** The client is shown the terminal event exactly when it has seen every token and the worker has decided. */
  lemma NextEventIsTerminalIff(e: Entry)
    requires StreamCoherent(e) && e.item.queue != []
    ensures !e.item.queue[0].TokenEvent? <==> !e.verdict.Open? && |e.item.queue| == 1
  {
    var k := |e.frames|;
    assert e.item.queue[0] == e.put[k];
    if k < |e.tokens| { assert e.put[k] == Tokens(e.tokens)[k]; }
  }

  lemma ConsumeKeepsCoherent(e: Entry, id: nat)
    requires Coherent(e) && e.item.streaming && e.waiting && e.item.queue != []
    ensures Coherent(Act(e, Consume(id)).0)
  {
    NextEventIsTerminalIff(e);
    assert e.put[|e.frames|..][1..] == e.put[|e.frames| + 1..];
  }

  lemma ActKeepsCoherent(e: Entry, ev: Event)
    requires Coherent(e)
    ensures Coherent(Act(e, ev).0)
  {
    if e.phase == Running && !e.item.cancelled && (ev.Token? || ev.Finish? || ev.Fail?) {
      match ev {
        case Token(_, token, now) => TokenKeepsCoherent(e, token, now);
        case Finish(_, now) => CompleteKeepsCoherent(e, now);
        case Fail(_, error, now) => FailKeepsCoherent(e, error, now);
      }
    } else if ev.Consume? && e.item.streaming && e.waiting && e.item.queue != [] {
      ConsumeKeepsCoherent(e, ev.id);
    }
  }

  lemma {:induction false} RunIsCoherent(evs: seq<Event>)
    ensures forall i :: 0 <= i < |Run(START, evs).entries| ==> Coherent(Run(START, evs).entries[i])
  {
    if evs != [] {
      var n := |evs| - 1;
      RunIsCoherent(evs[..n]);
      var s, ev := Run(START, evs[..n]), evs[n];
      if !ev.Accept? && !ev.Idle? && ev.id < |s.entries| {
        ActKeepsCoherent(s.entries[ev.id], ev);
      }
    }
  }

  lemma EntryIsCoherent(evs: seq<Event>, i: nat)
    requires i < |Run(START, evs).entries|
    ensures Coherent(Run(START, evs).entries[i])
  {
    RunIsCoherent(evs);
  }
}
