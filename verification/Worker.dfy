/** The mutable objects of the runtime and the worker's batch execution, proved to move the machine of
    module Lifecycle (src/llm_runtime/workers/manager.py, src/llm_runtime/core/response.py,
    src/llm_runtime/core/request.py, src/llm_runtime/metrics/collector.py, src/llm_runtime/api/). */
module Worker {
  import opened Common
  import opened Lifecycle
  import opened Routing

  /** A runtime request together with its response handle. */
  class ScheduledRequest {
    const id: nat
    const streaming: bool
    const createdAt: Instant
    var enqueuedAt: Option<Instant>
    var startedAt: Option<Instant>
    var firstTokenAt: Option<Instant>
    var completedAt: Option<Instant>
    var failedAt: Option<Instant>
    var cancelled: bool
    var completed: bool
    var future: Future
    var queue: seq<StreamEvent>

    function View(): Item
      reads this
    {
      Item(streaming, createdAt, enqueuedAt, startedAt, firstTokenAt, completedAt, failedAt, cancelled, completed,
           future, queue)
    }

    constructor (id: nat, streaming: bool, created: Instant, now: Instant)
      ensures View() == NewEntry(streaming, created, now).item && this.id == id
    {
      this.id := id;
      this.streaming, createdAt := streaming, created;
      enqueuedAt, startedAt, firstTokenAt, completedAt, failedAt := Some(now), None, None, None, None;
      cancelled, completed, future, queue := false, false, Pending, [];
    }

    method MarkStarted(now: Instant)
      modifies this
      ensures View() == old(View()).(startedAt := Some(now))
    {
      startedAt := Some(now);
    }

    method MarkFirstToken(now: Instant)
      modifies this
      ensures View() == if old(firstTokenAt).None? then old(View()).(firstTokenAt := Some(now)) else old(View())
    {
      if firstTokenAt.None? {
        firstTokenAt := Some(now);
      }
    }

    method MarkCompleted(now: Instant)
      modifies this
      ensures View() == old(View()).(completedAt := Some(now))
    {
      completedAt := Some(now);
    }

    method MarkFailed(now: Instant)
      modifies this
      ensures View() == old(View()).(failedAt := Some(now))
    {
      failedAt := Some(now);
    }

    /** CompletionHandle.cancel. */
    method CancelCompletion() returns (changed: bool)
      modifies this
      ensures View() == Lifecycle.CancelCompletion(old(View())) && changed == !old(cancelled)
    {
      if cancelled {
        return false;
      }
      cancelled := true;
      if future.Pending? {
        future := Future.Cancelled;
      }
      return true;
    }

    /** StreamingHandle.cancel. */
    method CancelStream() returns (changed: bool)
      modifies this
      ensures changed == StreamCancels(old(View()))
      ensures View() == if changed then old(View()).(cancelled := true) else old(View())
    {
      if cancelled || completed {
        return false;
      }
      cancelled := true;
      return true;
    }

    method MarkStreamCompleted()
      modifies this
      ensures View() == old(View()).(completed := true)
    {
      completed := true;
    }

    /** Raises InvalidStateError on a future that is already done, hence the precondition. */
    method SetResult(tokens: seq<string>)
      requires future.Pending?
      modifies this
      ensures View() == old(View()).(future := Result(tokens))
    {
      future := Result(tokens);
    }

    method SetException(error: Exception)
      requires future.Pending?
      modifies this
      ensures View() == old(View()).(future := Raised(error))
    {
      future := Raised(error);
    }

    /** Hands over the result: through the future unless it is cancelled, or as the last event of the stream. */
    method TellResult(tokens: seq<string>)
      requires streaming || future.Pending? || future.Cancelled?
      modifies this
      ensures View() == Tell(old(View()), CompletedEvent, Result(tokens))
    {
      if streaming {
        Put(CompletedEvent);
      } else if !future.Cancelled? {
        SetResult(tokens);
      }
    }

    method TellError(error: Exception)
      requires streaming || future.Pending? || future.Cancelled?
      modifies this
      ensures View() == Tell(old(View()), ErrorEvent(error.message), Raised(error))
    {
      if streaming {
        Put(ErrorEvent(error.message));
      } else if !future.Cancelled? {
        SetException(error);
      }
    }

    method Put(ev: StreamEvent)
      modifies this
      ensures View() == old(View()).(queue := old(queue) + [ev])
    {
      queue := queue + [ev];
    }

    method Get() returns (ev: StreamEvent)
      requires queue != []
      modifies this
      ensures ev == old(queue)[0] && View() == old(View()).(queue := old(queue)[1..])
    {
      ev := queue[0];
      queue := queue[1..];
    }
  }

  class MetricsCollector {
    var requestCount: int
    var completedCount: int
    var failedCount: int
    var activeRequests: int
    var generatedTokensTotal: int
    var queueWaitTimes: seq<real>
    var ttftTimes: seq<real>
    var totalLatencies: seq<real>
    var rejectedCount: int
    var rejections: multiset<(string, nat)> // counters by (reason, priority)

    function View(): Metrics
      reads this
    {
      Metrics(requestCount, completedCount, failedCount, activeRequests, generatedTokensTotal,
              queueWaitTimes, ttftTimes, totalLatencies)
    }

    constructor ()
      ensures View() == NO_METRICS && rejectedCount == 0 && rejections == multiset{}
    {
      rejectedCount, rejections := 0, multiset{};
      requestCount, completedCount, failedCount, activeRequests, generatedTokensTotal := 0, 0, 0, 0, 0;
      queueWaitTimes, ttftTimes, totalLatencies := [], [], [];
    }

    method RecordRequest()
      modifies this
      ensures View() == Lifecycle.RecordRequest(old(View()))
    {
      requestCount := requestCount + 1;
      activeRequests := activeRequests + 1;
    }

    method RecordSuccess(item: ScheduledRequest, generated: nat)
      modifies this
      ensures View() == Lifecycle.RecordSuccess(old(View()), item.View(), generated)
    {
      completedCount := completedCount + 1;
      activeRequests := Clamp(activeRequests - 1);
      generatedTokensTotal := generatedTokensTotal + generated;
      RecordTiming(item);
    }

    method RecordFailure(item: ScheduledRequest, now: Instant)
      modifies this, item
      ensures item.View() == old(item.View()).(failedAt := Some(now))
      ensures View() == Lifecycle.RecordFailure(old(View()), item.View())
    {
      item.MarkFailed(now);
      failedCount := failedCount + 1;
      activeRequests := Clamp(activeRequests - 1);
      RecordTiming(item);
    }

    method RecordRejection(priority: nat, reason: string)
      modifies this
      ensures View() == old(View()) && rejectedCount == old(rejectedCount) + 1
      ensures rejections == old(rejections) + multiset{(if reason == "" then "unknown" else reason, priority)}
    {
      rejectedCount := rejectedCount + 1;
      rejections := rejections + multiset{(if reason == "" then "unknown" else reason, priority)};
    }

    method RecordTiming(item: ScheduledRequest)
      modifies this
      ensures View() == Lifecycle.RecordTiming(old(View()), item.View())
    {
      if item.enqueuedAt.Some? && item.startedAt.Some? {
        queueWaitTimes := queueWaitTimes + [item.startedAt.value - item.enqueuedAt.value];
      }
      if item.firstTokenAt.Some? {
        ttftTimes := ttftTimes + [item.firstTokenAt.value - item.createdAt];
      }
      var end := if item.completedAt.Some? then item.completedAt else item.failedAt;
      if end.Some? {
        totalLatencies := totalLatencies + [end.value - item.createdAt];
      }
    }
  }

  /** What the local variables of the worker's loop hold: the requests of the batch it is still working on,
      and the tokens collected for each of them. */
  ghost predicate Tracks(s: State, batch: seq<nat>, pending: set<nat>, tokens: map<nat, seq<string>>) {
    && (forall id :: id in batch ==> id < |s.entries|)
    && (forall id :: id in batch ==> s.entries[id].phase == Running || s.entries[id].phase == Released)
    && (forall id :: id in pending <==> id in batch && s.entries[id].phase == Running)
    && (forall id :: id in pending ==> id in tokens && tokens[id] == s.entries[id].tokens)
  }

  lemma ElsewhereTracks(s: State, batch: seq<nat>, pending: set<nat>, tokens: map<nat, seq<string>>, w: Work)
    requires Tracks(s, batch, pending, tokens) && OthersCan(s, batch, w)
    ensures Tracks(Step(s, w.ev), batch, pending, tokens)
  {
    forall id | id in batch
      ensures id < |Step(s, w.ev).entries| && Step(s, w.ev).entries[id].phase == s.entries[id].phase
      ensures Step(s, w.ev).entries[id].tokens == s.entries[id].tokens
    {
      OthersKeepWork(s, batch, w, id);
    }
  }

  lemma SkippingTracks(s: State, batch: seq<nat>, pending: set<nat>, tokens: map<nat, seq<string>>, e: BackendEvent,
                       now: Instant)
    requires Tracks(s, batch, pending, tokens)
    requires e.id in pending && s.entries[e.id].item.cancelled
    ensures Tracks(Step(s, Routed(batch, Backend(e, now))), batch, pending - {e.id}, tokens)
  {
  }

  lemma IgnoringTracks(s: State, batch: seq<nat>, pending: set<nat>, tokens: map<nat, seq<string>>, e: BackendEvent,
                       now: Instant)
    requires Tracks(s, batch, pending, tokens) && e.id !in pending
    ensures Step(s, Routed(batch, Backend(e, now))) == s
    ensures Tracks(Step(s, Routed(batch, Backend(e, now))), batch, pending, tokens)
  {
    if e.id in batch {
      assert s.entries[e.id := s.entries[e.id]] == s.entries;
    }
  }

  /** `order` lists, once each, the pending requests that are not still to do. */
  ghost predicate Visited(order: seq<nat>, pending: set<nat>, todo: set<nat>) {
    && todo <= pending
    && (forall id :: id in order <==> id in pending && id !in todo)
    && (forall i, j :: 0 <= i < j < |order| ==> order[i] != order[j])
  }

  lemma VisitOneMore(order: seq<nat>, pending: set<nat>, todo: set<nat>, id: nat)
    requires Visited(order, pending, todo) && id in todo
    ensures Visited(order + [id], pending, todo - {id})
  {
  }

  lemma EndOneTracks(s: State, batch: seq<nat>, todo: set<nat>, tokens: map<nat, seq<string>>, id: nat, ending: Ending)
    requires Tracks(s, batch, todo, tokens) && id in todo
    ensures Tracks(Step(s, EndOne(id, ending)), batch, todo - {id}, tokens)
  {
  }

  /** All requests accepted so far (a request's id is its position) and the shared metrics. */
  class Runtime {
    const metrics: MetricsCollector
    var requests: seq<ScheduledRequest>
    ghost var model: State // the state of the machine that the objects show
    ghost var history: seq<Event> // the steps that led to it

    ghost predicate Valid()
      reads this, requests, metrics
    {
      && |requests| == |model.entries|
      && (forall i :: 0 <= i < |requests| ==> requests[i].id == i && requests[i].View() == model.entries[i].item)
      && metrics.View() == model.metrics
      && model == Run(START, history)
    }

    /** Requests are only ever added. */
    twostate predicate Extends()
      reads this
    {
      && |old(requests)| <= |requests|
      && (forall i :: 0 <= i < |requests| ==>
                        if i < |old(requests)| then requests[i] == old(requests)[i] else fresh(requests[i]))
    }

    constructor ()
      ensures Valid() && model == START && fresh(metrics) && requests == []
    {
      metrics := new MetricsCollector();
      requests, model, history := [], START, [];
    }

    ghost method Remember(ev: Event)
      requires model == Run(START, history)
      modifies this`model, this`history
      ensures model == Run(START, history) && model == Step(old(model), ev)
    {
      model := Step(model, ev);
      history := history + [ev];
      assert history[..|history| - 1] == old(history);
    }

    /** Bookkeeping after the objects of one request, and the metrics, have been moved as `Act` says. */
    ghost method Moved(ev: Event)
      requires !ev.Accept? && !ev.Idle? && ev.id < |requests| == |model.entries|
      requires forall i :: 0 <= i < |requests| ==> requests[i].id == i
      requires forall i :: 0 <= i < |requests| && i != ev.id ==> requests[i].View() == model.entries[i].item
      requires model == Run(START, history)
      requires requests[ev.id].View() == Act(model.entries[ev.id], ev).0.item
      requires metrics.View() == Apply(model.metrics, Act(model.entries[ev.id], ev).1)
      modifies this`model, this`history
      ensures Valid() && model == Step(old(model), ev)
    {
      Remember(ev);
    }

    method AcceptRequest(streaming: bool, created: Instant, now: Instant)
      requires Valid()
      modifies this, metrics
      ensures Valid() && model == Step(old(model), Accept(streaming, created, now))
      ensures Extends() && |requests| == |old(requests)| + 1
    {
      metrics.RecordRequest();
      var item := new ScheduledRequest(|requests|, streaming, created, now);
      requests := requests + [item];
      Remember(Accept(streaming, created, now));
    }

    method CompleteItem(id: nat, tokens: seq<string>, now: Instant)
      requires Valid() && id < |requests|
      requires model.entries[id].phase == Running && model.entries[id].tokens == tokens
      modifies requests[id], metrics, this`model, this`history
      ensures Valid() && model == Step(old(model), Finish(id, now))
    {
      var item := requests[id];
      if item.cancelled {
        Silent(Finish(id, now));
        return;
      }
      EntryIsCoherent(history, id);
      item.MarkCompleted(now);
      item.TellResult(tokens);
      metrics.RecordSuccess(item, |tokens|);
      Moved(Finish(id, now));
    }

    method FailItem(id: nat, error: Exception, now: Instant)
      requires Valid() && id < |requests|
      requires model.entries[id].phase == Running
      modifies requests[id], metrics, this`model, this`history
      ensures Valid() && model == Step(old(model), Fail(id, error, now))
    {
      var item := requests[id];
      if item.cancelled {
        Silent(Fail(id, error, now));
        return;
      }
      EntryIsCoherent(history, id);
      metrics.RecordFailure(item, now);
      TimingIgnoresHandle(old(metrics.View()), item.View(), ErrorEvent(error.message), Raised(error));
      item.TellError(error);
      Moved(Fail(id, error, now));
    }

    method DeliverToken(id: nat, token: string, now: Instant)
      requires Valid() && id < |requests|
      requires model.entries[id].phase == Running && !requests[id].cancelled
      modifies requests[id], this`model, this`history
      ensures Valid() && model == Step(old(model), Token(id, token, now))
    {
      var item := requests[id];
      item.MarkFirstToken(now);
      if item.streaming {
        item.Put(TokenEvent(token));
      }
      Moved(Token(id, token, now));
    }

    // -------------------------------------------------------------------
    // Steps of the scheduler and of callers.

    /** The scheduler marks an item started as it leaves with a batch. */
    method MarkStarted(id: nat, now: Instant)
      requires Valid() && id < |requests|
      requires model.entries[id].phase == Queued
      modifies requests[id], this`model, this`history
      ensures Valid() && model == Step(old(model), Dequeue(id, now))
    {
      requests[id].MarkStarted(now);
      Moved(Dequeue(id, now));
    }

    /** A non-streaming caller times out, or its client is gone (api/routes.py). */
    method GiveUp(id: nat, gone: bool, now: Instant)
      requires Valid() && id < |requests|
      requires !requests[id].streaming && model.entries[id].waiting
      modifies requests[id], metrics, this`model, this`history
      ensures Valid() && model == Step(old(model), Event.GiveUp(id, gone, now))
    {
      var _ := requests[id].CancelCompletion();
      metrics.RecordFailure(requests[id], now);
      Moved(Event.GiveUp(id, gone, now));
    }

    /** A non-streaming caller resumes because its future is done; a TimeoutError in it is caught like a timeout
        of its own (api/routes.py). */
    method Receive(id: nat, now: Instant) returns (reply: Reply)
      requires Valid() && id < |requests|
      requires !requests[id].streaming && model.entries[id].waiting
      requires requests[id].future.Result? || requests[id].future.Raised?
      modifies requests[id], metrics, this`model, this`history
      ensures Valid() && model == Step(old(model), Event.Receive(id, now))
      ensures reply == model.entries[id].reply
    {
      var f := requests[id].future;
      if CaughtAsTimeout(f) {
        var _ := requests[id].CancelCompletion();
        metrics.RecordFailure(requests[id], now);
        Moved(Event.Receive(id, now));
        reply := GatewayTimeout;
      } else {
        Silent(Event.Receive(id, now));
        reply := ReplyOf(f);
      }
    }

    /** The stream generator takes one event off the queue and yields its frame (api/streaming.py). */
    method Consume(id: nat) returns (frame: Frame)
      requires Valid() && id < |requests|
      requires requests[id].streaming && model.entries[id].waiting && requests[id].queue != []
      modifies requests[id], this`model, this`history
      ensures Valid() && model == Step(old(model), Event.Consume(id))
      ensures model.entries[id].frames == old(model.entries[id].frames) + [frame]
      ensures model.entries[id].waiting <==> frame.Chunk?
    {
      RunIsCoherent(history);
      var ev := requests[id].Get();
      if !ev.TokenEvent? {
        requests[id].MarkStreamCompleted();
      }
      frame := FrameOf(ev);
      Moved(Event.Consume(id));
    }

    /** The stream generator is closed before its final event: its `finally` cancels the handle (api/streaming.py). */
    method Close(id: nat, now: Instant)
      requires Valid() && id < |requests|
      requires requests[id].streaming && model.entries[id].waiting
      modifies requests[id], metrics, this`model, this`history
      ensures Valid() && model == Step(old(model), Event.Close(id, now))
    {
      var cancelled := requests[id].CancelStream();
      if cancelled {
        metrics.RecordFailure(requests[id], now);
      }
      Moved(Event.Close(id, now));
    }

    /** Steps that change nothing but the model's own history. */
    ghost method Silent(ev: Event)
      requires Valid() && !ev.Accept?
      requires !ev.Idle? && ev.id < |requests| ==>
                 && Act(model.entries[ev.id], ev).0.item == model.entries[ev.id].item
                 && Act(model.entries[ev.id], ev).1.NoEffect?
      modifies this`model, this`history
      ensures Valid() && model == Step(old(model), ev)
    {
      Remember(ev);
    }

    /** Performs a step that some other task is ready to take. */
    method Perform(ev: Event)
      requires Valid() && Ready(model, ev)
      modifies this, requests, metrics
      ensures Valid() && Extends() && model == Step(old(model), ev)
    {
      match ev {
        case Accept(streaming, created, now) => AcceptRequest(streaming, created, now);
        case Dequeue(id, now) => MarkStarted(id, now);
        case GiveUp(id, gone, now) => GiveUp(id, gone, now);
        case Consume(id) => var _ := Consume(id);
        case Close(id, now) => Close(id, now);
        case Begin(_) => Silent(ev);
        case Receive(id, now) => var _ := Receive(id, now);
        case Idle => Silent(ev);
        case _ => assert false;
      }
    }

    /** Performs a step of any task, a worker's included; `buffer` is the token list the worker holds. */
    method PerformAny(ev: Event, buffer: seq<string>)
      requires Valid() && (Ready(model, ev) || WorkerReady(model, ev, buffer))
      modifies this, requests, metrics
      ensures Valid() && Extends() && model == Step(old(model), ev)
    {
      if !(ev.Token? || ev.Finish? || ev.Fail?) {
        Perform(ev);
      } else {
        match ev {
          case Finish(id, now) => CompleteItem(id, buffer, now);
          case Fail(id, error, now) => FailItem(id, error, now);
          case Token(id, token, now) =>
            if requests[id].cancelled { Silent(ev); } else { DeliverToken(id, token, now); }
        }
      }
    }

    // -------------------------------------------------------------------
    // The worker.

    /** One event of the backend's stream, as routed by the loop body. */
    method Route(batch: seq<nat>, e: BackendEvent, now: Instant, pending: set<nat>, tokens: map<nat, seq<string>>)
      returns (pending': set<nat>, tokens': map<nat, seq<string>>)
      requires Valid() && Tracks(model, batch, pending, tokens)
      modifies this`model, this`history, requests, metrics
      ensures Valid() && Tracks(model, batch, pending', tokens')
      ensures model == Step(old(model), Routed(batch, Backend(e, now)))
    {
      pending', tokens' := pending, tokens;
      if e.id !in pending {
        IgnoringTracks(model, batch, pending, tokens, e, now);
        Silent(Routed(batch, Backend(e, now)));
      } else if requests[e.id].cancelled {
        SkippingTracks(model, batch, pending, tokens, e, now);
        pending' := pending - {e.id};
        Silent(Routed(batch, Backend(e, now)));
      } else if e.BatchToken? {
        tokens' := RouteToken(batch, e.id, e.token, now, pending, tokens);
      } else {
        pending' := RouteCompleted(batch, e.id, now, pending, tokens);
      }
    }

    method RouteCompleted(batch: seq<nat>, id: nat, now: Instant, pending: set<nat>, tokens: map<nat, seq<string>>)
      returns (pending': set<nat>)
      requires Valid() && Tracks(model, batch, pending, tokens) && id in pending && !requests[id].cancelled
      modifies this`model, this`history, requests, metrics
      ensures Valid() && Tracks(model, batch, pending', tokens)
      ensures model == Step(old(model), Finish(id, now))
    {
      CompleteItem(id, tokens[id], now);
      pending' := pending - {id};
    }

    method RouteToken(batch: seq<nat>, id: nat, token: string, now: Instant, pending: set<nat>,
                      tokens: map<nat, seq<string>>)
      returns (tokens': map<nat, seq<string>>)
      requires Valid() && Tracks(model, batch, pending, tokens) && id in pending && !requests[id].cancelled
      modifies this`model, this`history, requests, metrics
      ensures Valid() && Tracks(model, batch, pending, tokens')
      ensures model == Step(old(model), Token(id, token, now))
    {
      DeliverToken(id, token, now);
      tokens' := tokens[id := tokens[id] + [token]];
    }

    /** Keeps the items that are not cancelled, with an empty token list each. */
    method SelectActive(batch: seq<nat>) returns (pending: set<nat>, tokens: map<nat, seq<string>>)
      requires Valid() && forall id :: id in batch ==> id < |requests| && model.entries[id].phase == Formed
      modifies this`model, this`history
      ensures Valid() && Tracks(model, batch, pending, tokens) && model == BeginAll(old(model), batch)
      ensures pending == {} <==> forall id :: id in batch ==> requests[id].cancelled
    {
      pending := set id | id in batch && !requests[id].cancelled;
      tokens := map id | id in pending :: [];
      assert pending == {} <==> forall id :: id in batch ==> id !in pending;
      RunIsCoherent(history);
      BeginAllEffect(model, batch);
      BeginBatch(batch);
    }

    ghost method BeginBatch(batch: seq<nat>)
      requires Valid()
      modifies this`model, this`history
      ensures Valid() && model == BeginAll(old(model), batch)
    {
      for k := 0 to |batch|
        invariant Valid() && model == BeginAll(old(model), batch[..k])
      {
        Silent(Begin(batch[k]));
        assert batch[..k + 1][..k] == batch[..k];
      }
      assert batch[..|batch|] == batch;
    }

    /** Steps of other tasks, other workers included, leave the worker's local variables accurate. */
    method PerformElsewhere(w: Work, ghost batch: seq<nat>, ghost pending: set<nat>,
                            ghost tokens: map<nat, seq<string>>)
      requires Valid() && OthersCan(model, batch, w) && Tracks(model, batch, pending, tokens)
      modifies this, requests, metrics
      ensures Valid() && Extends() && model == Step(old(model), w.ev) && Tracks(model, batch, pending, tokens)
    {
      ElsewhereTracks(model, batch, pending, tokens, w);
      PerformAny(w.ev, w.buffer);
    }

    /** The closing loop visits every request still pending once, in some order: it completes it if the stream
        ended and fails it if the stream raised. */
    method CloseOut(batch: seq<nat>, pending: set<nat>, tokens: map<nat, seq<string>>, ending: Ending)
      returns (ghost order: seq<nat>)
      requires Valid() && Tracks(model, batch, pending, tokens)
      modifies this`model, this`history, requests, metrics
      ensures Valid() && model == EndAll(old(model), order, ending)
      ensures Visited(order, pending, {})
    {
      var todo := pending;
      order := [];
      while todo != {}
        invariant Valid() && Tracks(model, batch, todo, tokens) && model == EndAll(old(model), order, ending)
        invariant Visited(order, pending, todo)
      {
        var id :| id in todo;
        CloseOutOne(batch, id, todo, tokens, ending);
        VisitOneMore(order, pending, todo, id);
        EndOneMore(old(model), order, id, ending);
        todo := todo - {id};
        order := order + [id];
      }
    }

    method CloseOutOne(batch: seq<nat>, id: nat, todo: set<nat>, tokens: map<nat, seq<string>>, ending: Ending)
      requires Valid() && Tracks(model, batch, todo, tokens) && id in todo
      modifies this`model, this`history, requests, metrics
      ensures Valid() && Tracks(model, batch, todo - {id}, tokens) && model == Step(old(model), EndOne(id, ending))
    {
      EndOneTracks(model, batch, todo, tokens, id, ending);
      if ending.Exhausted? {
        CompleteItem(id, tokens[id], ending.now);
      } else {
        FailItem(id, ending.error, ending.now);
      }
    }

    /** The event loop: every event of the backend is routed; between events other tasks run. */
    method EventLoop(batch: seq<nat>, script: seq<Happening>, pending: set<nat>, tokens: map<nat, seq<string>>)
      returns (pending': set<nat>, tokens': map<nat, seq<string>>)
      requires Valid() && Tracks(model, batch, pending, tokens) && Schedulable(model, batch, script)
      modifies this, requests, metrics
      ensures Valid() && Extends() && Tracks(model, batch, pending', tokens')
      ensures model == RunScript(old(model), batch, script)
    {
      pending', tokens' := pending, tokens;
      for k := 0 to |script|
        invariant Valid() && Extends() && Tracks(model, batch, pending', tokens')
        invariant model == RunScript(old(model), batch, script[..k])
      {
        SchedulablePrefix(old(model), batch, script, k);
        assert script[..k + 1][..k] == script[..k];
        match script[k] {
          case Elsewhere(w) => PerformElsewhere(w, batch, pending', tokens');
          case Backend(e, now) => pending', tokens' := Route(batch, e, now, pending', tokens');
        }
      }
      assert script[..|script|] == script;
    }

    /** The `try` block and what follows it. */
    method DriveBackend(batch: seq<nat>, script: seq<Happening>, ending: Ending, pending: set<nat>,
                        tokens: map<nat, seq<string>>)
      returns (ghost order: seq<nat>, ghost s: State)
      requires Valid() && Tracks(model, batch, pending, tokens) && Schedulable(model, batch, script)
      modifies this, requests, metrics
      ensures Valid() && Extends()
      ensures s == RunScript(old(model), batch, script) && model == EndAll(s, order, ending)
      ensures WithinBatch(order, batch)
      ensures forall id :: id in batch ==> id in order || (id < |s.entries| && s.entries[id].phase == Released)
    {
      var left, collected := EventLoop(batch, script, pending, tokens);
      s := model;
      order := CloseOut(batch, left, collected, ending);
    }

    /** Runs one batch against a backend whose event stream, its end, and everything that other tasks do between
        its events are given by `script` and `ending`. When every item was cancelled already the backend is not
        called. */
    method ExecuteBatch(batch: seq<nat>, script: seq<Happening>, ending: Ending)
      returns (ghost ran: bool, ghost order: seq<nat>)
      requires Valid() && forall id :: id in batch ==> id < |requests| && model.entries[id].phase == Formed
      requires Schedulable(BeginAll(model, batch), batch, script)
      modifies this, requests, metrics
      ensures Valid() && Extends()
      ensures !ran <==> forall id :: id in batch ==> old(requests[id].cancelled)
      ensures model == if ran then Execute(old(model), batch, script, order, ending) else BeginAll(old(model), batch)
      ensures WithinBatch(order, batch)
      ensures ran ==>
                forall id :: id in batch ==>
                               id < |model.entries| && WorkerIsDone(model.entries[id], Stream(script), ending, id)
    {
      ghost var past := history;
      order := [];
      var pending, tokens := SelectActive(batch);
      ran := pending != {};
      if pending == {} {
        return;
      }
      ghost var s;
      order, s := DriveBackend(batch, script, ending, pending, tokens);
      EveryRequestIsDone(past, old(model), batch, script, order, ending, s);
    }
  }
}
