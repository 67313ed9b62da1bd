/** The HTTP handler and the stream generator as tasks that suspend while other tasks run
    (src/llm_runtime/api/routes.py, src/llm_runtime/api/streaming.py). */
module Api {
  import opened Common
  import opened Lifecycle
  import opened Accounting
  import opened Routing
  import opened Worker
  import Admission

  /** Only a request's own coroutine consumes its stream, receives its result, or gives it up. */
  predicate ServesOther(ev: Event, id: nat) {
    !((ev.GiveUp? || ev.Receive? || ev.Consume? || ev.Close?) && ev.id == id)
  }

  function RunWork(s: State, works: seq<Work>): State
    decreases |works|
  {
    if works == [] then s else Step(RunWork(s, works[..|works| - 1]), works[|works| - 1].ev)
  }

  /** Every step is taken by some other task that is ready for it. */
  ghost predicate Possible(s: State, works: seq<Work>, id: nat)
    decreases |works|
  {
    works == [] ||
    (var past, w := works[..|works| - 1], works[|works| - 1];
     Possible(s, past, id) && ServesOther(w.ev, id)
     && (Ready(RunWork(s, past), w.ev) || WorkerReady(RunWork(s, past), w.ev, w.buffer)))
  }

  lemma {:induction false} PossiblePrefix(s: State, works: seq<Work>, id: nat, k: nat)
    requires Possible(s, works, id) && k < |works|
    ensures Possible(s, works[..k], id) && ServesOther(works[k].ev, id)
    ensures Ready(RunWork(s, works[..k]), works[k].ev) || WorkerReady(RunWork(s, works[..k]), works[k].ev,
                                                                      works[k].buffer)
    decreases |works|
  {
    if k < |works| - 1 {
      assert works[..|works| - 1][..k] == works[..k];
      PossiblePrefix(s, works[..|works| - 1], id, k);
    }
  }

  /** What the serving task can rely on while it is suspended. */
  ghost predicate SameCaller(e: Entry, e': Entry) {
    && e'.waiting == e.waiting && e'.frames == e.frames
    && e'.item.streaming == e.item.streaming && e'.item.cancelled == e.item.cancelled
  }

  lemma ActKeepsCaller(e: Entry, ev: Event)
    requires !ev.GiveUp? && !ev.Receive? && !ev.Consume? && !ev.Close?
    ensures SameCaller(e, Act(e, ev).0)
  {
  }

  lemma {:induction false} WorkKeepsCaller(s: State, works: seq<Work>, id: nat)
    requires Possible(s, works, id) && id < |s.entries|
    ensures id < |RunWork(s, works).entries| && SameCaller(s.entries[id], RunWork(s, works).entries[id])
    decreases |works|
  {
    if works != [] {
      var ev, t := works[|works| - 1].ev, RunWork(s, works[..|works| - 1]);
      WorkKeepsCaller(s, works[..|works| - 1], id);
      if !ev.Accept? && !ev.Idle? && ev.id == id {
        ActKeepsCaller(t.entries[id], ev);
      }
    }
  }

  /** Suspension of the coroutine serving request `id`: the given steps of other tasks are performed. */
  method Suspend(rt: Runtime, works: seq<Work>, ghost id: nat)
    requires rt.Valid() && Possible(rt.model, works, id)
    modifies rt, rt.requests, rt.metrics
    ensures rt.Valid() && rt.Extends() && rt.model == RunWork(old(rt.model), works)
  {
    for k := 0 to |works|
      invariant rt.Valid() && rt.Extends() && rt.model == RunWork(old(rt.model), works[..k])
    {
      PossiblePrefix(old(rt.model), works, id, k);
      assert works[..k + 1][..k] == works[..k];
      rt.PerformAny(works[k].ev, works[k].buffer);
    }
    assert works[..|works|] == works;
  }

  // ---------------------------------------------------------------------
  // The stream generator.

  /** One turn of the generator: it is suspended while other tasks run, then its client has gone away, or it resumes. */
  datatype Turn = Turn(works: seq<Work>, closing: Option<Instant>)

  function AfterTurn(s: State, t: Turn, id: nat): State {
    Step(RunWork(s, t.works), if t.closing.Some? then Close(id, t.closing.value) else Consume(id))
  }

  function AfterTurns(s: State, turns: seq<Turn>, id: nat): State
    decreases |turns|
  {
    if turns == [] then s else AfterTurn(AfterTurns(s, turns[..|turns| - 1], id), turns[|turns| - 1], id)
  }

  ghost predicate PossibleTurns(s: State, turns: seq<Turn>, id: nat) {
    forall k :: 0 <= k < |turns| ==> Possible(AfterTurns(s, turns[..k], id), turns[k].works, id)
  }

  lemma NextTurn(s: State, turns: seq<Turn>, id: nat, k: nat)
    requires PossibleTurns(s, turns, id) && k < |turns|
    ensures Possible(AfterTurns(s, turns[..k], id), turns[k].works, id)
    ensures AfterTurns(s, turns[..k + 1], id) == AfterTurn(AfterTurns(s, turns[..k], id), turns[k], id)
  {
    assert turns[..k + 1][..k] == turns[..k];
  }

  /** chat_completion_stream: yields one frame per event until the final one; cancels if it is closed before that. */
  method ChatCompletionStream(rt: Runtime, id: nat, turns: seq<Turn>) returns (frames: seq<Frame>, open: bool,
                                                                               used: nat)
    requires rt.Valid() && id < |rt.requests| && rt.requests[id].streaming
    requires rt.model.entries[id].waiting && rt.model.entries[id].frames == []
    requires PossibleTurns(rt.model, turns, id)
    modifies rt, rt.requests, rt.metrics
    ensures rt.Valid() && rt.Extends() && used <= |turns| && (open ==> used == |turns|)
    ensures rt.model == AfterTurns(old(rt.model), turns[..used], id)
    ensures Serving(rt.model, id, frames, open) && Streamed(rt.model.entries[id], open)
  {
    frames, open, used := [], true, 0;
    while open && used < |turns|
      invariant rt.Valid() && rt.Extends() && used <= |turns|
      invariant rt.model == AfterTurns(old(rt.model), turns[..used], id)
      invariant Serving(rt.model, id, frames, open)
    {
      NextTurn(old(rt.model), turns, id, used);
      var more;
      more, open := TakeTurn(rt, id, turns[used], frames);
      frames := frames + more;
      used := used + 1;
    }
    ServedIsStreamed(rt.history, id);
  }

  /** The generator is open as the request says, and has yielded exactly the frames consumed from its queue. */
  ghost predicate Serving(s: State, id: nat, frames: seq<Frame>, open: bool) {
    && id < |s.entries| && s.entries[id].item.streaming
    && s.entries[id].frames == frames && s.entries[id].waiting == open
  }

  lemma ServedIsStreamed(history: seq<Event>, id: nat)
    requires id < |Run(START, history).entries| && Run(START, history).entries[id].item.streaming
    ensures var e := Run(START, history).entries[id]; Streamed(e, e.waiting)
  {
    RunIsCoherent(history);
    ClientSeesTheVerdict(history, id);
  }

  method TakeTurn(rt: Runtime, id: nat, t: Turn, ghost seen: seq<Frame>) returns (more: seq<Frame>, open: bool)
    requires rt.Valid() && Serving(rt.model, id, seen, true) && Possible(rt.model, t.works, id)
    modifies rt, rt.requests, rt.metrics
    ensures rt.Valid() && rt.Extends()
    ensures rt.model == AfterTurn(old(rt.model), t, id) && Serving(rt.model, id, seen + more, open)
  {
    WorkKeepsCaller(rt.model, t.works, id);
    Suspend(rt, t.works, id);
    more, open := ResumeStream(rt, id, t.closing);
  }

  method ResumeStream(rt: Runtime, id: nat, closing: Option<Instant>) returns (frames: seq<Frame>, open: bool)
    requires rt.Valid() && id < |rt.requests| && rt.requests[id].streaming && rt.model.entries[id].waiting
    modifies rt, rt.requests, rt.metrics
    ensures rt.Valid() && rt.requests == old(rt.requests)
    ensures rt.model == Step(old(rt.model), if closing.Some? then Close(id, closing.value) else Consume(id))
    ensures rt.model.entries[id].frames == old(rt.model.entries[id].frames) + frames
    ensures rt.model.entries[id].waiting == open && rt.model.entries[id].item.streaming
  {
    frames, open := [], true;
    if closing.Some? {
      rt.Close(id, closing.value);
      open := false;
    } else if rt.requests[id].queue != [] {
      var frame := rt.Consume(id);
      frames, open := [frame], frame.Chunk?;
    } else {
      rt.Silent(Consume(id));
    }
  }

  /** What a stream client has received: chunks of the tokens collected for its request, in order, and
      the final frame if and only if the generator ended by itself; a generator closed early has cancelled. */
  ghost predicate Streamed(e: Entry, open: bool) {
    && e.frames <= Chunks(e.tokens) + FinalFrame(e.verdict)
    && (!open ==> e.item.cancelled || (!e.verdict.Open? && e.frames == Chunks(e.tokens) + FinalFrame(e.verdict)))
  }

  // ---------------------------------------------------------------------
  // The handler of a non-streaming request.

  /** How the wait for the future ends: it is done, `request_timeout_s` is over, or the client is gone. */
  datatype Wake = Resumed(now: Instant) | TimedOut(now: Instant) | ClientGone(now: Instant)

  datatype Response =
    | Rejected(statusCode: int, detail: string)
    | Completion(tokens: seq<string>)
    | Http500(detail: string)
    | Http504
    | Disconnected

  /** create_chat_completion for a request with stream = false, from admission to its response. */
  method CreateChatCompletion(rt: Runtime, admission: Admission.AdmissionController, queueSize: int, priority: nat,
                              created: Instant, now: Instant, works: seq<Work>, wake: Wake) returns (r: Response)
    requires rt.Valid()
    requires Possible(Step(rt.model, Accept(false, created, now)), works, |rt.requests|)
    requires wake.Resumed? ==> ResolvedAfter(Step(rt.model, Accept(false, created, now)), works, |rt.requests|)
    modifies admission, rt, rt.requests, rt.metrics
    ensures rt.Valid() && rt.Extends()
    ensures var d := Admission.Decide(admission.limits, old(admission.State()),
                                      Admission.Call(admission.timeFn(old(admission.ticks)), queueSize));
            if d.accepted then
              Served(old(rt.model), created, now, works, wake, r, rt.model)
            else
              && rt.model == old(rt.model)
              && rt.metrics.rejectedCount == old(rt.metrics.rejectedCount) + 1
              && (if admission.limits.maxQueueSize > 0 && queueSize >= admission.limits.maxQueueSize then
                    && r == Rejected(503, "scheduler queue is full")
                    && rt.metrics.rejections == old(rt.metrics.rejections) + multiset{("queue_full", priority)}
                  else
                    && r == Rejected(429, "request rate limit exceeded")
                    && rt.metrics.rejections == old(rt.metrics.rejections) + multiset{("rate_limited", priority)})
  {
    var d := admission.Admit(queueSize);
    if !d.accepted {
      rt.metrics.RecordRejection(priority, d.reason);
      return Rejected(d.statusCode, d.detail);
    }
    r := Serve(rt, created, now, works, wake);
  }

  /** From accepting a request in state s to answering it in state t. */
  ghost predicate Served(s: State, created: Instant, now: Instant, works: seq<Work>, wake: Wake, r: Response,
                         t: State) {
    var id, before := |s.entries|, RunWork(Step(s, Accept(false, created, now)), works);
    && id < |before.entries| && id < |t.entries|
    && t == Step(before, WakeEvent(wake, id))
    && Answers(r, wake, before.entries[id], t.entries[id])
  }

  method Serve(rt: Runtime, created: Instant, now: Instant, works: seq<Work>, wake: Wake) returns (r: Response)
    requires rt.Valid()
    requires Possible(Step(rt.model, Accept(false, created, now)), works, |rt.requests|)
    requires wake.Resumed? ==> ResolvedAfter(Step(rt.model, Accept(false, created, now)), works, |rt.requests|)
    modifies rt, rt.requests, rt.metrics
    ensures rt.Valid() && rt.Extends() && Served(old(rt.model), created, now, works, wake, r, rt.model)
  {
    var id := |rt.requests|;
    rt.AcceptRequest(false, created, now);
    WorkKeepsCaller(rt.model, works, id);
    Suspend(rt, works, id);
    r := Respond(rt, id, wake);
  }

  ghost predicate ResolvedAfter(s: State, works: seq<Work>, id: nat) {
    id < |RunWork(s, works).entries| && !RunWork(s, works).entries[id].verdict.Open?
  }

  function WakeEvent(wake: Wake, id: nat): Event {
    match wake
    case Resumed(now) => Receive(id, now)
    case TimedOut(now) => GiveUp(id, false, now)
    case ClientGone(now) => GiveUp(id, true, now)
  }

  /** The answer is determined by how the wait ended and by the request as it was then (e) and is afterwards (e'): a
      wait that is over answers 504, a lost client nothing; a caller that resumes answers the worker's verdict,
      except that a TimeoutError of the backend is taken for a timeout of the wait. */
  ghost predicate Answers(r: Response, wake: Wake, e: Entry, e': Entry) {
    && (wake.TimedOut? ==> r == Http504)
    && (wake.ClientGone? ==> r == Disconnected)
    && (wake.Resumed? ==>
          match e.verdict
          case Open => false
          case Succeeded(ts) => r == Completion(ts) && ts == e.tokens
          case Failed(TimeoutError(_)) => r == Http504
          case Failed(OtherError(m)) => r == Http500(m))
    && (e'.item.cancelled <==> r == Http504 || r == Disconnected)
    && e'.verdict == e.verdict
  }

  lemma WakingAnswers(e: Entry, wake: Wake, id: nat)
    requires Coherent(e) && !e.item.streaming && e.waiting && (wake.Resumed? ==> !e.verdict.Open?)
    ensures wake.Resumed? ==> e.item.future.Result? || e.item.future.Raised?
    ensures var e' := Act(e, WakeEvent(wake, id)).0; Answers(ResponseTo(e'.reply), wake, e, e')
  {
  }

  method Respond(rt: Runtime, id: nat, wake: Wake) returns (r: Response)
    requires rt.Valid() && id < |rt.requests| && !rt.requests[id].streaming && rt.model.entries[id].waiting
    requires wake.Resumed? ==> !rt.model.entries[id].verdict.Open?
    modifies rt, rt.requests, rt.metrics
    ensures rt.Valid() && rt.requests == old(rt.requests) && id < |rt.model.entries|
    ensures rt.model == Step(old(rt.model), WakeEvent(wake, id))
    ensures Answers(r, wake, old(rt.model.entries[id]), rt.model.entries[id])
  {
    EntryIsCoherent(rt.history, id);
    WakingAnswers(rt.model.entries[id], wake, id);
    match wake {
      case TimedOut(now) =>
        rt.GiveUp(id, false, now);
        r := Http504;
      case ClientGone(now) =>
        rt.GiveUp(id, true, now);
        r := Disconnected;
      case Resumed(now) =>
        var reply := rt.Receive(id, now);
        r := ResponseTo(reply);
    }
  }

  function ResponseTo(reply: Reply): Response {
    match reply
    case Ok(ts) => Completion(ts)
    case ServerError(m) => Http500(m)
    case GatewayTimeout => Http504
    case _ => Disconnected
  }
}
