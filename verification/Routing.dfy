/** Routing of an arbitrary backend event stream to the requests of one batch
    (src/llm_runtime/workers/manager.py, src/llm_runtime/backends/base.py). */
module Routing {
  import opened Lifecycle

  datatype BackendEvent = BatchToken(id: nat, token: string) | BatchCompleted(id: nat)

  /** A step of another task: a caller, the scheduler, or another worker, which holds `buffer` as the tokens
      collected for the request of its step. */
  datatype Work = Work(ev: Event, buffer: seq<string>)

  /** What happens next while a batch executes: its backend yields an event, or some other task runs. */
  datatype Happening = Backend(e: BackendEvent, now: Instant) | Elsewhere(work: Work)

  /** How the backend's event stream stops. */
  datatype Ending = Exhausted(now: Instant) | Raises(error: Exception, now: Instant)

  // ---------------------------------------------------------------------
  // The meaning of a stream for one request, independent of the worker.

  predicate Completes(stream: seq<BackendEvent>, id: nat) { BatchCompleted(id) in stream }

  /** The tokens addressed to `id` before its first completion. */
  function TokensUpTo(stream: seq<BackendEvent>, id: nat): seq<string> {
    if stream == [] then []
    else
      var before, e := stream[..|stream| - 1], stream[|stream| - 1];
      TokensUpTo(before, id) + if e.BatchToken? && e.id == id && !Completes(before, id) then [e.token] else []
  }

  function Outcome(stream: seq<BackendEvent>, ending: Ending, id: nat): Verdict {
    if Completes(stream, id) || ending.Exhausted? then Succeeded(TokensUpTo(stream, id)) else Failed(ending.error)
  }

  // ---------------------------------------------------------------------
  // One execution of a batch as a run of the machine.

  function Stream(script: seq<Happening>): seq<BackendEvent> {
    if script == [] then []
    else
      var h := script[|script| - 1];
      if h.Backend? then Stream(script[..|script| - 1]) + [h.e] else Stream(script[..|script| - 1])
  }

  function Routed(batch: seq<nat>, h: Happening): Event {
    match h
    case Elsewhere(w) => w.ev
    case Backend(e, now) =>
      if e.id !in batch then Idle
      else if e.BatchToken? then Token(e.id, e.token, now)
      else Finish(e.id, now)
  }

  function RunScript(s: State, batch: seq<nat>, script: seq<Happening>): State
    decreases |script|
  {
    if script == [] then s
    else Step(RunScript(s, batch, script[..|script| - 1]), Routed(batch, script[|script| - 1]))
  }

  /** The first look at every item of the batch: items already cancelled are dropped. */
  function BeginAll(s: State, batch: seq<nat>): State
    decreases |batch|
  {
    if batch == [] then s else Step(BeginAll(s, batch[..|batch| - 1]), Begin(batch[|batch| - 1]))
  }

  function EndOne(id: nat, ending: Ending): Event {
    if ending.Exhausted? then Finish(id, ending.now) else Fail(id, ending.error, ending.now)
  }

  /** The loop over what is still pending, in some order. */
  function EndAll(s: State, order: seq<nat>, ending: Ending): State
    decreases |order|
  {
    if order == [] then s else Step(EndAll(s, order[..|order| - 1], ending), EndOne(order[|order| - 1], ending))
  }

  lemma EndOneMore(s: State, order: seq<nat>, id: nat, ending: Ending)
    ensures EndAll(s, order + [id], ending) == Step(EndAll(s, order, ending), EndOne(id, ending))
  {
    assert (order + [id])[..|order|] == order;
  }

  /** The closing loop visits requests of the batch only, each at most once. */
  ghost predicate WithinBatch(order: seq<nat>, batch: seq<nat>) {
    && (forall id :: id in order ==> id in batch)
    && (forall i, j :: 0 <= i < j < |order| ==> order[i] != order[j])
  }

  /** Other tasks never act as the worker of this batch. */
  ghost predicate ByOthers(batch: seq<nat>, ev: Event) {
    !((ev.Token? || ev.Finish? || ev.Fail?) && ev.id in batch)
  }

  ghost predicate OthersStayAway(batch: seq<nat>, script: seq<Happening>) {
    forall k :: 0 <= k < |script| && script[k].Elsewhere? ==> ByOthers(batch, script[k].work.ev)
  }

  function Execute(s: State, batch: seq<nat>, script: seq<Happening>, order: seq<nat>, ending: Ending): State {
    EndAll(RunScript(BeginAll(s, batch), batch, script), order, ending)
  }

  /** Some task other than a worker is at the point where it can take this step. */
  ghost predicate Ready(s: State, ev: Event) {
    match ev
    case Accept(_, _, _) => true
    case Idle => true
    case Token(_, _, _) => false
    case Finish(_, _) => false
    case Fail(_, _, _) => false
    case _ =>
      ev.id < |s.entries| &&
      var e := s.entries[ev.id];
      match ev
      case Dequeue(_, _) => e.phase == Queued
      case Begin(_) => e.phase == Formed
      case GiveUp(_, _, _) => !e.item.streaming && e.waiting
      case Receive(_, _) => !e.item.streaming && e.waiting && (e.item.future.Result? || e.item.future.Raised?)
      case Consume(_) => e.item.streaming && e.waiting && e.item.queue != []
      case _ => e.item.streaming && e.waiting
  }

  /** A worker is at the point where it can take this step, holding these tokens for the request. */
  ghost predicate WorkerReady(s: State, ev: Event, buffer: seq<string>) {
    && (ev.Token? || ev.Finish? || ev.Fail?)
    && ev.id < |s.entries| && s.entries[ev.id].phase == Running && s.entries[ev.id].tokens == buffer
  }

  /** Some task other than the worker of this batch can take this step: anybody else's, another worker's included. */
  ghost predicate OthersCan(s: State, batch: seq<nat>, w: Work) {
    Ready(s, w.ev) || (WorkerReady(s, w.ev, w.buffer) && w.ev.id !in batch)
  }

  /** A possible schedule: every step of another task is taken when that task is ready for it. */
  ghost predicate Schedulable(s: State, batch: seq<nat>, script: seq<Happening>)
    decreases |script|
  {
    script == [] ||
    (var past, h := script[..|script| - 1], script[|script| - 1];
     Schedulable(s, batch, past) && (h.Elsewhere? ==> OthersCan(RunScript(s, batch, past), batch, h.work)))
  }

  lemma {:induction false} SchedulablePrefix(s: State, batch: seq<nat>, script: seq<Happening>, k: nat)
    requires Schedulable(s, batch, script) && k < |script|
    ensures script[k].Elsewhere? ==> OthersCan(RunScript(s, batch, script[..k]), batch, script[k].work)
    decreases |script|
  {
    if k < |script| - 1 {
      assert script[..|script| - 1][..k] == script[..k];
      SchedulablePrefix(s, batch, script[..|script| - 1], k);
    }
  }

  lemma {:induction false} SchedulableOthersStayAway(s: State, batch: seq<nat>, script: seq<Happening>)
    requires Schedulable(s, batch, script)
    ensures OthersStayAway(batch, script)
  {
    forall k | 0 <= k < |script| && script[k].Elsewhere? ensures ByOthers(batch, script[k].work.ev) {
      SchedulablePrefix(s, batch, script, k);
    }
  }

  /** A step of another task does not touch what the worker is doing with a request. */
  lemma OthersKeepWork(s: State, batch: seq<nat>, w: Work, id: nat)
    requires OthersCan(s, batch, w) && id in batch && id < |s.entries|
    requires s.entries[id].phase == Running || s.entries[id].phase == Released
    ensures id < |Step(s, w.ev).entries|
    ensures Step(s, w.ev).entries[id].phase == s.entries[id].phase
    ensures Step(s, w.ev).entries[id].tokens == s.entries[id].tokens
  {
  }

  /** The first look keeps exactly the items that are not cancelled. */
  lemma {:induction false} BeginAllEffect(s: State, batch: seq<nat>)
    requires AllCoherent(s) && forall id :: id in batch ==> id < |s.entries| && s.entries[id].phase == Formed
    ensures |BeginAll(s, batch).entries| == |s.entries|
    ensures forall id: nat :: id < |s.entries| && id !in batch ==> BeginAll(s, batch).entries[id] == s.entries[id]
    ensures forall id :: id in batch ==>
              var e := s.entries[id];
              && BeginAll(s, batch).entries[id] == e.(phase := if e.item.cancelled then Released else Running)
              && e.tokens == []
    decreases |batch|
  {
    if batch != [] {
      var n := |batch| - 1;
      assert batch == batch[..n] + [batch[n]];
      assert forall id :: id in batch[..n] ==> id in batch;
      assert batch[n] in batch;
      BeginAllEffect(s, batch[..n]);
    }
  }

  /** Handed to a forming batch, nothing produced for it yet. */
  predicate Fresh(e: Entry) { e.phase == Formed && e.verdict.Open? && e.tokens == [] }

  ghost predicate AllCoherent(s: State) {
    forall i :: 0 <= i < |s.entries| ==> Coherent(s.entries[i])
  }

  predicate CancelledFirst(e: Entry) { e.verdict.Open? && e.item.cancelled }

  /** Where a request of the batch stands after the worker has seen `stream`. */
  ghost predicate Following(e: Entry, stream: seq<BackendEvent>, id: nat) {
    if CancelledFirst(e) then e.tokens <= TokensUpTo(stream, id) && (e.phase == Running || e.phase == Released)
    else if Completes(stream, id) then e.verdict == Succeeded(TokensUpTo(stream, id)) && e.phase == Released
    else e.phase == Running && e.verdict.Open? && e.tokens == TokensUpTo(stream, id)
  }

  lemma StepKeepsCoherent(s: State, ev: Event)
    requires AllCoherent(s)
    ensures AllCoherent(Step(s, ev))
  {
    if !ev.Accept? && !ev.Idle? && ev.id < |s.entries| {
      ActKeepsCoherent(s.entries[ev.id], ev);
    }
  }

  lemma OthersKeepStanding(e: Entry, ev: Event)
    requires Coherent(e) && (e.phase == Running || e.phase == Released) && !(ev.Token? || ev.Finish? || ev.Fail?)
    ensures var e' := Act(e, ev).0;
            && e'.phase == e.phase && e'.tokens == e.tokens && e'.verdict == e.verdict
            && (e.item.cancelled ==> e'.item.cancelled)
  {
  }

  /** Steps of other tasks leave a request of the batch where it stands, unless its caller cancels it. */
  lemma OthersKeepFollowing(e: Entry, ev: Event, stream: seq<BackendEvent>, id: nat)
    requires Coherent(e) && Following(e, stream, id)
    requires !(ev.Token? || ev.Finish? || ev.Fail?)
    ensures Following(Act(e, ev).0, stream, id)
  {
    OthersKeepStanding(e, ev);
  }

  lemma BackendEventKeepsFollowing(e: Entry, be: BackendEvent, now: Instant, stream: seq<BackendEvent>, id: nat)
    requires Coherent(e) && Following(e, stream, id) && be.id == id
    ensures Following(Act(e, if be.BatchToken? then Token(id, be.token, now) else Finish(id, now)).0, stream + [be], id)
  {
    assert (stream + [be])[..|stream|] == stream;
  }

  lemma ForeignEventKeepsFollowing(e: Entry, be: BackendEvent, stream: seq<BackendEvent>, id: nat)
    requires Following(e, stream, id) && be.id != id
    ensures Following(e, stream + [be], id)
  {
    assert (stream + [be])[..|stream|] == stream;
  }

  lemma HappeningKeepsFollowing(s: State, batch: seq<nat>, h: Happening, stream: seq<BackendEvent>, id: nat)
    requires AllCoherent(s) && id < |s.entries| && id in batch && Following(s.entries[id], stream, id)
    requires h.Elsewhere? ==> ByOthers(batch, h.work.ev)
    ensures id < |Step(s, Routed(batch, h)).entries|
    ensures Following(Step(s, Routed(batch, h)).entries[id], if h.Backend? then stream + [h.e] else stream, id)
  {
    var ev := Routed(batch, h);
    match h {
      case Elsewhere(_) =>
        if !ev.Accept? && !ev.Idle? && ev.id == id {
          OthersKeepFollowing(s.entries[id], ev, stream, id);
        }
      case Backend(be, now) =>
        if be.id == id {
          BackendEventKeepsFollowing(s.entries[id], be, now, stream, id);
        } else {
          ForeignEventKeepsFollowing(s.entries[id], be, stream, id);
        }
    }
  }

  lemma {:induction false} ScriptKeepsFollowing(s: State, batch: seq<nat>, script: seq<Happening>, id: nat)
    requires AllCoherent(s) && id < |s.entries| && id in batch && Following(s.entries[id], [], id)
    requires OthersStayAway(batch, script)
    ensures AllCoherent(RunScript(s, batch, script)) && id < |RunScript(s, batch, script).entries|
    ensures Following(RunScript(s, batch, script).entries[id], Stream(script), id)
  {
    if script != [] {
      var n := |script| - 1;
      ScriptKeepsFollowing(s, batch, script[..n], id);
      HappeningKeepsFollowing(RunScript(s, batch, script[..n]), batch, script[n], Stream(script[..n]), id);
      StepKeepsCoherent(RunScript(s, batch, script[..n]), Routed(batch, script[n]));
    }
  }

  lemma {:induction false} BeginStartsFollowing(s: State, batch: seq<nat>, id: nat)
    requires AllCoherent(s) && id < |s.entries| && Fresh(s.entries[id])
    ensures AllCoherent(BeginAll(s, batch)) && id < |BeginAll(s, batch).entries|
    ensures id !in batch ==> BeginAll(s, batch).entries[id] == s.entries[id]
    ensures id in batch ==> Following(BeginAll(s, batch).entries[id], [], id)
  {
    if batch != [] {
      var n := |batch| - 1;
      BeginStartsFollowing(s, batch[..n], id);
      StepKeepsCoherent(BeginAll(s, batch[..n]), Begin(batch[n]));
      assert batch == batch[..n] + [batch[n]];
    }
  }

  /** Where a request stands once the worker has left it. */
  ghost predicate Decided(e: Entry, stream: seq<BackendEvent>, ending: Ending, id: nat) {
    if CancelledFirst(e) then e.tokens <= TokensUpTo(stream, id)
    else e.verdict == Outcome(stream, ending, id) && e.tokens == TokensUpTo(stream, id)
  }

  lemma EndOneReleases(e: Entry, id: nat, ending: Ending)
    requires e.phase == Running || e.phase == Released
    ensures var e' := Act(e, EndOne(id, ending)).0;
            if e.phase == Released then e' == e
            else
              && e'.phase == Released && e'.tokens == e.tokens && e'.item.cancelled == e.item.cancelled
              && e'.verdict == if e.item.cancelled then e.verdict
                               else if ending.Exhausted? then Succeeded(e.tokens) else Failed(ending.error)
  {
  }

  lemma EndOneDecides(e: Entry, stream: seq<BackendEvent>, ending: Ending, id: nat)
    requires Coherent(e) && Following(e, stream, id)
    ensures Act(e, EndOne(id, ending)).0.phase == Released
    ensures Decided(Act(e, EndOne(id, ending)).0, stream, ending, id)
    ensures e.phase == Released ==> Act(e, EndOne(id, ending)).0 == e
  {
    EndOneReleases(e, id, ending);
  }

  lemma ReleasedIsDecided(e: Entry, stream: seq<BackendEvent>, ending: Ending, id: nat)
    requires Coherent(e) && Following(e, stream, id) && e.phase == Released
    ensures Decided(e, stream, ending, id)
  {
  }

  lemma {:induction false} EndDecides(s: State, order: seq<nat>, stream: seq<BackendEvent>, ending: Ending, id: nat)
    requires AllCoherent(s) && id < |s.entries| && Following(s.entries[id], stream, id)
    requires id in order || s.entries[id].phase == Released
    ensures AllCoherent(EndAll(s, order, ending)) && id < |EndAll(s, order, ending).entries|
    ensures Decided(EndAll(s, order, ending).entries[id], stream, ending, id)
    ensures EndAll(s, order, ending).entries[id].phase == Released
    decreases |order|
  {
    if order == [] {
      ReleasedIsDecided(s.entries[id], stream, ending, id);
    } else {
      var n := |order| - 1;
      EndElsewhere(s, order, ending, id);
      if id in order[..n] || s.entries[id].phase == Released {
        EndDecides(s, order[..n], stream, ending, id);
        StaysDecided(EndAll(s, order[..n], ending), EndOne(order[n], ending), id);
      } else {
        EndElsewhere(s, order[..n], ending, id);
        EndOneDecides(s.entries[id], stream, ending, id);
      }
    }
  }

  lemma {:induction false} EndElsewhere(s: State, order: seq<nat>, ending: Ending, id: nat)
    requires AllCoherent(s) && id < |s.entries|
    ensures AllCoherent(EndAll(s, order, ending)) && id < |EndAll(s, order, ending).entries|
    ensures id !in order ==> EndAll(s, order, ending).entries[id] == s.entries[id]
    decreases |order|
  {
    if order != [] {
      var n := |order| - 1;
      EndElsewhere(s, order[..n], ending, id);
      StepKeepsCoherent(EndAll(s, order[..n], ending), EndOne(order[n], ending));
    }
  }

  lemma StaysDecided(s: State, ev: Event, id: nat)
    requires id < |s.entries| && s.entries[id].phase == Released && (ev.Finish? || ev.Fail?)
    ensures id < |Step(s, ev).entries| && Step(s, ev).entries[id] == s.entries[id]
  {
  }

  /** No step of another task in the script is about request id. */
  ghost predicate LeavesAlone(id: nat, script: seq<Happening>) {
    forall k :: 0 <= k < |script| && script[k].Elsewhere? ==> !Concerns(script[k].work.ev, id)
  }

  /** A request outside the batch is touched by the steps of other tasks only: if none of them is about it,
      executing the batch leaves it exactly as it was. */
  lemma OutsidersAreLeftAlone(s: State, batch: seq<nat>, script: seq<Happening>, order: seq<nat>, ending: Ending,
                              id: nat)
    requires AllCoherent(s) && id < |s.entries| && id !in batch && WithinBatch(order, batch)
    ensures var t, u := Execute(s, batch, script, order, ending), RunScript(BeginAll(s, batch), batch, script);
            && id < |t.entries| && id < |u.entries| && t.entries[id] == u.entries[id]
            && (LeavesAlone(id, script) ==> t.entries[id] == s.entries[id])
  {
    BeginElsewhere(s, batch, id);
    ScriptElsewhere(BeginAll(s, batch), batch, script, id);
    EndElsewhere(RunScript(BeginAll(s, batch), batch, script), order, ending, id);
  }

  lemma {:induction false} BeginElsewhere(s: State, batch: seq<nat>, id: nat)
    requires AllCoherent(s) && id < |s.entries|
    ensures AllCoherent(BeginAll(s, batch)) && id < |BeginAll(s, batch).entries|
    ensures id !in batch ==> BeginAll(s, batch).entries[id] == s.entries[id]
  {
    if batch != [] {
      var n := |batch| - 1;
      BeginElsewhere(s, batch[..n], id);
      StepKeepsCoherent(BeginAll(s, batch[..n]), Begin(batch[n]));
      assert batch == batch[..n] + [batch[n]];
    }
  }

  lemma {:induction false} ScriptElsewhere(s: State, batch: seq<nat>, script: seq<Happening>, id: nat)
    requires AllCoherent(s) && id < |s.entries|
    ensures AllCoherent(RunScript(s, batch, script)) && id < |RunScript(s, batch, script).entries|
    ensures id !in batch && LeavesAlone(id, script) ==> RunScript(s, batch, script).entries[id] == s.entries[id]
  {
    if script != [] {
      var n := |script| - 1;
      ScriptElsewhere(s, batch, script[..n], id);
      StepKeepsCoherent(RunScript(s, batch, script[..n]), Routed(batch, script[n]));
      if id !in batch && LeavesAlone(id, script) {
        assert LeavesAlone(id, script[..n]);
        StepElsewhere(RunScript(s, batch, script[..n]), Routed(batch, script[n]), id);
      }
    }
  }

  lemma StepElsewhere(s: State, ev: Event, id: nat)
    requires id < |s.entries| && !Concerns(ev, id)
    ensures id < |Step(s, ev).entries| && Step(s, ev).entries[id] == s.entries[id]
  {
  }

  /** Fit to be executed: in the batch, fresh, and looked at by the closing loop unless already released. */
  ghost predicate Executable(s: State, batch: seq<nat>, script: seq<Happening>, order: seq<nat>, id: nat) {
    var t := RunScript(BeginAll(s, batch), batch, script);
    && AllCoherent(s) && OthersStayAway(batch, script)
    && id < |s.entries| && id in batch && Fresh(s.entries[id])
    && (id in order || (id < |t.entries| && t.entries[id].phase == Released))
  }

  /** Routing. Whatever the event stream (any interleaving, unknown ids, duplicate completions, tokens after a
      completion), however it stops, and whatever other tasks do meanwhile: a request of the batch whose caller
      does not cancel before it is resolved ends with exactly the tokens addressed to it up to its first completion
      and exactly one outcome; one cancelled earlier has received a prefix of those tokens and has no outcome. */
  lemma RequestGetsItsProjection(s: State, batch: seq<nat>, script: seq<Happening>, order: seq<nat>, ending: Ending,
                                 id: nat)
    requires Executable(s, batch, script, order, id)
    ensures var t := Execute(s, batch, script, order, ending);
            && AllCoherent(t) && id < |t.entries|
            && t.entries[id].phase == Released && Decided(t.entries[id], Stream(script), ending, id)
  {
    BeginStartsFollowing(s, batch, id);
    ScriptKeepsFollowing(BeginAll(s, batch), batch, script, id);
    EndDecides(RunScript(BeginAll(s, batch), batch, script), order, Stream(script), ending, id);
  }

  ghost predicate WorkerIsDone(e: Entry, stream: seq<BackendEvent>, ending: Ending, id: nat) {
    e.phase == Released && Decided(e, stream, ending, id)
  }

  lemma EveryRequestIsDone(past: seq<Event>, s: State, batch: seq<nat>, script: seq<Happening>, order: seq<nat>,
                           ending: Ending, t: State)
    requires s == Run(START, past) && forall id :: id in batch ==> id < |s.entries| && s.entries[id].phase == Formed
    requires t == RunScript(BeginAll(s, batch), batch, script) && Schedulable(BeginAll(s, batch), batch, script)
    requires forall id :: id in batch ==> id in order || (id < |t.entries| && t.entries[id].phase == Released)
    ensures var u := Execute(s, batch, script, order, ending);
            forall id :: id in batch ==> id < |u.entries| && WorkerIsDone(u.entries[id], Stream(script), ending, id)
  {
    RunIsCoherent(past);
    SchedulableOthersStayAway(BeginAll(s, batch), batch, script);
    forall id | id in batch
      ensures id < |Execute(s, batch, script, order, ending).entries|
      ensures WorkerIsDone(Execute(s, batch, script, order, ending).entries[id], Stream(script), ending, id)
    {
      assert Coherent(s.entries[id]);
      RequestGetsItsProjection(s, batch, script, order, ending, id);
    }
  }

  /** What was put on a stream by the time the worker has left the request. */
  lemma StreamHoldsItsProjection(e: Entry, stream: seq<BackendEvent>, ending: Ending, id: nat)
    requires Coherent(e) && e.item.streaming && Decided(e, stream, ending, id)
    ensures CancelledFirst(e) ==> e.put <= Tokens(TokensUpTo(stream, id))
    ensures !CancelledFirst(e) ==> e.put == Tokens(TokensUpTo(stream, id)) + Terminal(Outcome(stream, ending, id))
  {
    if CancelledFirst(e) {
      TokensOfPrefix(e.tokens, TokensUpTo(stream, id));
    }
  }

  lemma TokensOfPrefix(p: seq<string>, ts: seq<string>)
    requires p <= ts
    ensures Tokens(p) <= Tokens(ts)
  {
    assert Tokens(p) == Tokens(ts)[..|p|];
  }

  /** Cancellation non-interference: two executions that see the same backend stream, but in which other tasks do
      entirely different things (in particular, cancel other requests at different moments, or none at all),
      give a request that is not itself cancelled early the same tokens, the same stream and the same outcome. */
  lemma OthersDoNotInterfere(s1: State, script1: seq<Happening>, order1: seq<nat>,
                             s2: State, script2: seq<Happening>, order2: seq<nat>,
                             batch: seq<nat>, ending1: Ending, ending2: Ending, id: nat)
    requires Executable(s1, batch, script1, order1, id) && Executable(s2, batch, script2, order2, id)
    requires Stream(script1) == Stream(script2)
    requires match (ending1, ending2)
             case (Exhausted(_), Exhausted(_)) => true
             case (Raises(x1, _), Raises(x2, _)) => x1 == x2
             case _ => false
    ensures var t1, t2 := Execute(s1, batch, script1, order1, ending1), Execute(s2, batch, script2, order2, ending2);
            id < |t1.entries| && id < |t2.entries| &&
            (var e1, e2 := t1.entries[id], t2.entries[id];
             !CancelledFirst(e1) && !CancelledFirst(e2) ==>
               && e1.verdict == e2.verdict && e1.tokens == e2.tokens
               && (e1.item.streaming && e2.item.streaming ==> e1.put == e2.put))
  {
    RequestGetsItsProjection(s1, batch, script1, order1, ending1, id);
    RequestGetsItsProjection(s2, batch, script2, order2, ending2, id);
  }

  /** An execution is a run of the machine, so every theorem about runs applies to it. */
  lemma ExecuteIsARun(s: State, batch: seq<nat>, script: seq<Happening>, order: seq<nat>, ending: Ending)
    returns (evs: seq<Event>)
    ensures Execute(s, batch, script, order, ending) == Run(s, evs)
  {
    var p := BeginIsARun(s, batch);
    var q := ScriptIsARun(BeginAll(s, batch), batch, script);
    var r := EndIsARun(RunScript(BeginAll(s, batch), batch, script), order, ending);
    RunConcat(s, p, q);
    RunConcat(s, p + q, r);
    evs := p + q + r;
  }

  lemma {:induction false} BeginIsARun(s: State, batch: seq<nat>) returns (evs: seq<Event>)
    ensures BeginAll(s, batch) == Run(s, evs)
  {
    if batch == [] {
      evs := [];
    } else {
      evs := BeginIsARun(s, batch[..|batch| - 1]);
      evs := Snoc(s, evs, Begin(batch[|batch| - 1]));
    }
  }

  lemma {:induction false} ScriptIsARun(s: State, batch: seq<nat>, script: seq<Happening>) returns (evs: seq<Event>)
    ensures RunScript(s, batch, script) == Run(s, evs)
  {
    if script == [] {
      evs := [];
    } else {
      evs := ScriptIsARun(s, batch, script[..|script| - 1]);
      evs := Snoc(s, evs, Routed(batch, script[|script| - 1]));
    }
  }

  lemma {:induction false} EndIsARun(s: State, order: seq<nat>, ending: Ending) returns (evs: seq<Event>)
    ensures EndAll(s, order, ending) == Run(s, evs)
  {
    if order == [] {
      evs := [];
    } else {
      evs := EndIsARun(s, order[..|order| - 1], ending);
      evs := Snoc(s, evs, EndOne(order[|order| - 1], ending));
    }
  }

  lemma Snoc(s: State, evs: seq<Event>, ev: Event) returns (r: seq<Event>)
    ensures Run(s, r) == Step(Run(s, evs), ev)
  {
    r := evs + [ev];
    assert r[..|evs|] == evs;
  }
}
