/** Admission, scheduler and request lifecycle in one machine. The handler does not suspend between `admit` and the
    append in `submit`, so an arrival is one step (src/llm_runtime/api/routes.py, src/llm_runtime/core/admission.py,
    src/llm_runtime/scheduler/priority.py, src/llm_runtime/workers/manager.py). */
module Service {
  import Admission
  import A = Aging
  import L = Lifecycle

  datatype State = State(bucket: Admission.Bucket, sched: A.Sched, life: L.State)

  datatype Event =
    | Arrive(streaming: bool, priority: nat, created: L.Instant, clock: real, queuedAt: real, now: L.Instant)
    | Take(at: real, now: L.Instant) // a worker dequeues the best item
    | Happen(ev: L.Event)            // any other step of a worker or a caller

  /** What the admission controller says to an arrival. */
  function DecisionOn(l: Admission.Limits, s: State, clock: real): Admission.AdmissionDecision {
    Admission.Decide(l, s.bucket, Admission.Call(clock, |s.sched.items|))
  }

  /** The request that the scheduler hands out next. */
  function Next(interval: real, s: State, at: real): nat
    requires s.sched.items != []
  {
    s.sched.items[A.BestIndex(interval, s.sched.items, at)].item
  }

  function Step(l: Admission.Limits, interval: real, s: State, ev: Event): State {
    match ev
    case Arrive(streaming, priority, created, clock, queuedAt, now) =>
      var bucket := Admission.After(l, s.bucket, Admission.Call(clock, |s.sched.items|));
      if !DecisionOn(l, s, clock).accepted then s.(bucket := bucket)
      else State(bucket, A.Step(interval, s.sched, A.Submit(priority, |s.life.entries|, queuedAt)),
                 L.Step(s.life, L.Accept(streaming, created, now)))
    case Take(at, now) =>
      if s.sched.items == [] then s
      else s.(sched := A.Step(interval, s.sched, A.Pop(at)), life := L.Step(s.life, L.Dequeue(Next(interval, s, at),
                                                                                              now)))
    case Happen(e) => if e.Accept? || e.Dequeue? then s else s.(life := L.Step(s.life, e))
  }

  function Start(l: Admission.Limits, clock: real): State {
    State(Admission.Bucket(l.capacity as real, clock), A.EMPTY, L.START)
  }

  function Run(l: Admission.Limits, interval: real, s: State, evs: seq<Event>): State
    decreases |evs|
  {
    if evs == [] then s else Step(l, interval, Run(l, interval, s, evs[..|evs| - 1]), evs[|evs| - 1])
  }

  /** With a queue cap the queue never exceeds it, in any run. */
  lemma {:induction false} QueueStaysWithinCap(l: Admission.Limits, interval: real, clock: real, evs: seq<Event>)
    requires l.maxQueueSize > 0
    ensures |Run(l, interval, Start(l, clock), evs).sched.items| <= l.maxQueueSize
  {
    if evs != [] {
      QueueStaysWithinCap(l, interval, clock, evs[..|evs| - 1]);
    }
  }

  // ---------------------------------------------------------------------
  // Which arrivals enter, by the queue and the arrivals before them alone.

  /** The arrivals of a run in order, as the admission controller is called for them: when, and with what queue. The
      first entry stands for the construction of the controller. */
  ghost function Calls(l: Admission.Limits, interval: real, clock: real, evs: seq<Event>): (cs: seq<Admission.Call>)
    ensures |cs| > 0 && cs[0] == Admission.Call(clock, 0)
  {
    if evs == [] then [Admission.Call(clock, 0)]
    else
      var p, ev := evs[..|evs| - 1], evs[|evs| - 1];
      var s := Run(l, interval, Start(l, clock), p);
      Calls(l, interval, clock, p) + if ev.Arrive? then [Admission.Call(ev.clock, |s.sched.items|)] else []
  }

  /** When they came. */
  ghost function Times(clock: real, evs: seq<Event>): (ts: seq<real>)
    ensures |ts| > 0
  {
    if evs == [] then [clock]
    else
      var ev := evs[|evs| - 1];
      Times(clock, evs[..|evs| - 1]) + if ev.Arrive? then [ev.clock] else []
  }

  /** Which of them lengthened the queue. */
  ghost function Entered(l: Admission.Limits, interval: real, clock: real, evs: seq<Event>): (taken: seq<bool>)
    ensures |taken| == |Times(clock, evs)|
  {
    if evs == [] then [false]
    else
      var p, ev := evs[..|evs| - 1], evs[|evs| - 1];
      var s := Run(l, interval, Start(l, clock), p);
      Entered(l, interval, clock, p)
      + if ev.Arrive? then [|Step(l, interval, s, ev).sched.items| > |s.sched.items|] else []
  }

  /** Arrivals never go back in time, from `clock` to `end`. */
  ghost predicate OnTime(clock: real, evs: seq<Event>, end: real) {
    if evs == [] then clock <= end
    else
      var p, ev := evs[..|evs| - 1], evs[|evs| - 1];
      if ev.Arrive? then OnTime(clock, p, ev.clock) && ev.clock <= end else OnTime(clock, p, end)
  }

  /** The controller of a run has the history of its arrivals. */
  ghost predicate Remembers(l: Admission.Limits, interval: real, clock: real, evs: seq<Event>, h: Admission.History) {
    && Admission.IsHistory(l, h) && h.calls == Calls(l, interval, clock, evs)
    && h.ts == Times(clock, evs) && h.taken == Entered(l, interval, clock, evs)
    && h.buckets[|h.buckets| - 1] == Run(l, interval, Start(l, clock), evs).bucket
  }

  lemma ArrivalEntersIfAccepted(l: Admission.Limits, interval: real, s: State, ev: Event)
    requires ev.Arrive?
    ensures var t := Step(l, interval, s, ev);
            if DecisionOn(l, s, ev.clock).accepted then |t.sched.items| == |s.sched.items| + 1
            else t.sched == s.sched && t.life == s.life
  {
  }

  lemma {:induction false} RunRemembers(l: Admission.Limits, interval: real, clock: real, evs: seq<Event>, end: real)
    returns (h: Admission.History)
    requires OnTime(clock, evs, end)
    ensures Remembers(l, interval, clock, evs, h) && h.ts[|h.ts| - 1] <= end
  {
    if evs == [] {
      h := Admission.History([Admission.Call(clock, 0)], [clock], [false],
                             [Admission.Bucket(l.capacity as real, clock)]);
    } else {
      var p, ev := evs[..|evs| - 1], evs[|evs| - 1];
      h := RunRemembers(l, interval, clock, p, if ev.Arrive? then ev.clock else end);
      if ev.Arrive? {
        var s := Run(l, interval, Start(l, clock), p);
        var c := Admission.Call(ev.clock, |s.sched.items|);
        ArrivalEntersIfAccepted(l, interval, s, ev);
        Admission.ExtendIsHistory(l, h, c);
        h := Admission.Extend(l, h, c);
      }
    }
  }

  /** Exactly which arrivals enter the queue, after every run of arrivals, dequeues and lifecycle steps: those that find
      the queue below the cap, if there is one, and for which, if there is a rate limit, no window of arrivals
      ending now would have let in more than capacity + rate * length. So a queue can be filled to its cap, and
      nobody is turned away before. An arrival that does not enter changes neither queue nor requests. */
  lemma ArrivalEntersIff(l: Admission.Limits, burst: int, interval: real, clock: real, evs: seq<Event>, ev: Event)
    requires l.capacity == Admission.BucketCapacity(l.rate, burst)
    requires ev.Arrive? && OnTime(clock, evs, ev.clock)
    ensures var s := Run(l, interval, Start(l, clock), evs);
            var t := Step(l, interval, s, ev);
            var ts, taken := Times(clock, evs + [ev]), Entered(l, interval, clock, evs + [ev]);
            && (|t.sched.items| == |s.sched.items| + 1 <==>
                  && (l.maxQueueSize <= 0 || |s.sched.items| < l.maxQueueSize)
                  && (l.rate > 0.0 ==> !Admission.SomeWindowOverflows(l, ts, taken, |ts| - 1)))
            && (|t.sched.items| != |s.sched.items| + 1 ==> t.sched == s.sched && t.life == s.life)
  {
    var s, all := Run(l, interval, Start(l, clock), evs), evs + [ev];
    assert all[..|evs|] == evs;
    var h := RunRemembers(l, interval, clock, all, ev.clock);
    var k := |h.calls| - 1;
    assert h.calls[k] == Admission.Call(ev.clock, |s.sched.items|);
    assert h.taken[k] <==> |Step(l, interval, s, ev).sched.items| > |s.sched.items|;
    ArrivalEntersIfAccepted(l, interval, s, ev);
    Admission.RateLimitedIffSomeWindowWouldOverflow(l, burst, h, k);
  }

  /** A queue that takes what arrives up to `cap`, and gives one item to each dequeue. */
  function Depth(cap: nat, evs: seq<Event>): nat {
    if evs == [] then 0
    else
      var d, ev := Depth(cap, evs[..|evs| - 1]), evs[|evs| - 1];
      if ev.Arrive? && d < cap then d + 1
      else if ev.Take? && d > 0 then d - 1
      else d
  }

  /** Without a rate limit the queue is exactly that bounded queue, after every run. */
  lemma {:induction false} QueueIsBoundedBuffer(l: Admission.Limits, interval: real, clock: real, evs: seq<Event>)
    requires l.rate <= 0.0 && l.maxQueueSize > 0
    ensures |Run(l, interval, Start(l, clock), evs).sched.items| == Depth(l.maxQueueSize, evs)
  {
    if evs != [] {
      QueueIsBoundedBuffer(l, interval, clock, evs[..|evs| - 1]);
    }
  }

  // ---------------------------------------------------------------------
  // Where a request is.

  function InQueue(s: State, id: nat): nat { multiset(A.Items(s.sched.items))[id] }

  function InOut(s: State, id: nat): nat { multiset(A.Items(s.sched.out))[id] }

  predicate IsQueued(s: State, id: nat) { id < |s.life.entries| && s.life.entries[id].phase == L.Queued }

  /** Where a request is: an accepted one is once in the queue, as long as its lifecycle says so, and
      afterwards once among the dequeued; nothing else is in either. */
  ghost predicate PlacedAt(s: State, id: nat) {
    && InQueue(s, id) == (if IsQueued(s, id) then 1 else 0)
    && InOut(s, id) == (if id < |s.life.entries| && !IsQueued(s, id) then 1 else 0)
  }

  ghost predicate Placed(s: State) { forall id: nat :: PlacedAt(s, id) }

  lemma ArriveKeepsPlacedAt(l: Admission.Limits, interval: real, s: State, ev: Event, id: nat)
    requires PlacedAt(s, id) && ev.Arrive?
    ensures PlacedAt(Step(l, interval, s, ev), id)
  {
    if DecisionOn(l, s, ev.clock).accepted {
      var t, q := Step(l, interval, s, ev), A.Queued(ev.priority, s.sched.counter + 1, ev.queuedAt, |s.life.entries|);
      A.ItemsAppend(s.sched.items, q);
      assert A.Items(t.sched.items) == A.Items(s.sched.items) + [q.item] && t.sched.out == s.sched.out;
      assert t.life.entries == s.life.entries + [L.NewEntry(ev.streaming, ev.created, ev.now)];
    }
  }

  /** What steps other than a dequeue do to the phase of a request. */
  lemma ActMovesPhase(e: L.Entry, ev: L.Event)
    requires !ev.Dequeue?
    ensures var e' := L.Act(e, ev).0;
            && (e'.phase == L.Queued <==> e.phase == L.Queued)
            && (e'.phase == L.Formed <==> e.phase == L.Formed && !ev.Begin?)
  {
  }

  lemma HappenMovesPhase(life: L.State, e: L.Event, id: nat)
    requires !e.Accept? && !e.Dequeue?
    ensures |L.Step(life, e).entries| == |life.entries|
    ensures id < |life.entries| ==>
              var phase, phase' := life.entries[id].phase, L.Step(life, e).entries[id].phase;
              && (phase' == L.Queued <==> phase == L.Queued)
              && (phase' == L.Formed <==> phase == L.Formed && e != L.Begin(id))
  {
    if !e.Idle? && e.id < |life.entries| {
      ActMovesPhase(life.entries[e.id], e);
    }
  }

  lemma HappenKeepsPlacedAt(l: Admission.Limits, interval: real, s: State, ev: Event, id: nat)
    requires PlacedAt(s, id) && ev.Happen?
    ensures PlacedAt(Step(l, interval, s, ev), id)
  {
    if !ev.ev.Accept? && !ev.ev.Dequeue? {
      HappenMovesPhase(s.life, ev.ev, id);
    }
  }

  /** A dequeue moves one item, and nothing else, from the queue to the dequeued. */
  lemma TakeMoves(interval: real, s: State, at: real, id: nat)
    requires s.sched.items != []
    ensures var t, moved := A.Step(interval, s.sched, A.Pop(at)), if id == Next(interval, s, at) then 1 else 0;
            && multiset(A.Items(t.items))[id] + moved == InQueue(s, id)
            && multiset(A.Items(t.out))[id] == InOut(s, id) + moved
  {
    var items := s.sched.items;
    var k := A.BestIndex(interval, items, at);
    A.ItemsAppend(s.sched.out, items[k]);
    A.ItemsMiddle(items[..k], items[k], items[k + 1..]);
    A.SplitAround(items, k);
  }

  lemma DequeueMovesPhase(life: L.State, id: nat, now: L.Instant, other: nat)
    requires id < |life.entries| && life.entries[id].phase == L.Queued
    ensures var after := L.Step(life, L.Dequeue(id, now));
            && |after.entries| == |life.entries|
            && after.entries[id].phase == L.Formed
            && (other != id && other < |life.entries| ==> after.entries[other] == life.entries[other])
  {
  }

  lemma TakeKeepsPlacedAt(l: Admission.Limits, interval: real, s: State, ev: Event, id: nat)
    requires Placed(s) && ev.Take?
    ensures PlacedAt(Step(l, interval, s, ev), id)
  {
    assert PlacedAt(s, id);
    if s.sched.items != [] {
      var next := NextIsQueued(interval, s, ev.at);
      TakeMoves(interval, s, ev.at, id);
      DequeueMovesPhase(s.life, next, ev.now, id);
    }
  }

  lemma NextIsQueued(interval: real, s: State, at: real) returns (next: nat)
    requires Placed(s) && s.sched.items != []
    ensures next == Next(interval, s, at) && IsQueued(s, next)
  {
    next := Next(interval, s, at);
    TakeMoves(interval, s, at, next);
    assert PlacedAt(s, next);
  }

  /** In every run: each accepted request is queued once or has been dequeued once, never both, and nothing else is. */
  lemma {:induction false} RunIsPlaced(l: Admission.Limits, interval: real, clock: real, evs: seq<Event>)
    ensures Placed(Run(l, interval, Start(l, clock), evs))
  {
    if evs != [] {
      RunIsPlaced(l, interval, clock, evs[..|evs| - 1]);
      var s, ev := Run(l, interval, Start(l, clock), evs[..|evs| - 1]), evs[|evs| - 1];
      forall id: nat ensures PlacedAt(Step(l, interval, s, ev), id) {
        assert PlacedAt(s, id);
        match ev {
          case Arrive(_, _, _, _, _, _) => ArriveKeepsPlacedAt(l, interval, s, ev, id);
          case Take(_, _) => TakeKeepsPlacedAt(l, interval, s, ev, id);
          case Happen(_) => HappenKeepsPlacedAt(l, interval, s, ev, id);
        }
      }
    }
  }

  /** 1 for a step that dequeues request id, and for one that begins to execute it. */
  function Takes(interval: real, s: State, ev: Event, id: nat): nat {
    if ev.Take? && s.sched.items != [] && Next(interval, s, ev.at) == id then 1 else 0
  }

  function Begins(s: State, ev: Event, id: nat): nat {
    if ev == Happen(L.Begin(id)) && id < |s.life.entries| && s.life.entries[id].phase == L.Formed then 1 else 0
  }

  /** How many steps of the run dequeued request id, and how many began to execute it. */
  function TimesTaken(l: Admission.Limits, interval: real, start: State, evs: seq<Event>, id: nat): nat {
    if evs == [] then 0
    else
      var p := evs[..|evs| - 1];
      TimesTaken(l, interval, start, p, id) + Takes(interval, Run(l, interval, start, p), evs[|evs| - 1], id)
  }

  function TimesBegun(l: Admission.Limits, interval: real, start: State, evs: seq<Event>, id: nat): nat {
    if evs == [] then 0
    else
      var p := evs[..|evs| - 1];
      TimesBegun(l, interval, start, p, id) + Begins(Run(l, interval, start, p), evs[|evs| - 1], id)
  }

  /** 1 for a request that has left the queue, and for one that a worker has begun to execute. */
  function Left(s: State, id: nat): nat {
    if id < |s.life.entries| && s.life.entries[id].phase != L.Queued then 1 else 0
  }

  function Begun(s: State, id: nat): nat {
    if id < |s.life.entries| && s.life.entries[id].phase != L.Queued && s.life.entries[id].phase != L.Formed then 1
    else 0
  }

  lemma StepMoves(l: Admission.Limits, interval: real, s: State, ev: Event, id: nat)
    requires Placed(s)
    ensures Left(Step(l, interval, s, ev), id) == Left(s, id) + Takes(interval, s, ev, id)
    ensures Begun(Step(l, interval, s, ev), id) == Begun(s, id) + Begins(s, ev, id)
  {
    match ev {
      case Arrive(_, _, _, _, _, _) =>
      case Take(at, now) =>
        if s.sched.items != [] {
          var next := NextIsQueued(interval, s, at);
          DequeueMovesPhase(s.life, next, now, id);
        }
      case Happen(e) =>
        if !e.Accept? && !e.Dequeue? {
          HappenMovesPhase(s.life, e, id);
        }
    }
  }

  /** In every run each accepted request is dequeued at most once and executed at most once, and it is executed only
      after it was dequeued: exactly once each when its lifecycle has got that far. */
  lemma {:induction false} ExecutedAtMostOnce(l: Admission.Limits, interval: real, clock: real, evs: seq<Event>,
                                              id: nat)
    ensures var s := Run(l, interval, Start(l, clock), evs);
            && TimesTaken(l, interval, Start(l, clock), evs, id) == Left(s, id)
            && TimesBegun(l, interval, Start(l, clock), evs, id) == Begun(s, id)
            && TimesBegun(l, interval, Start(l, clock), evs, id) <= TimesTaken(l, interval, Start(l, clock), evs,
                                                                               id) <= 1
  {
    if evs != [] {
      var p := evs[..|evs| - 1];
      ExecutedAtMostOnce(l, interval, clock, p, id);
      RunIsPlaced(l, interval, clock, p);
      StepMoves(l, interval, Run(l, interval, Start(l, clock), p), evs[|evs| - 1], id);
    }
  }
}
