/** The latency samples of every run, read off its events (src/llm_runtime/metrics/collector.py,
    src/llm_runtime/core/request.py). */
module Timing {
  import opened Common
  import opened Lifecycle
  import opened Accounting
  import Worker

  /** When a request was created, and when it entered the queue. */
  datatype Arrival = Arrival(created: Instant, enqueued: Instant)

  /** The accepted requests in order; request i is the i-th of them. */
  function Arrivals(evs: seq<Event>): seq<Arrival> {
    if evs == [] then []
    else
      var ev := evs[|evs| - 1];
      Arrivals(evs[..|evs| - 1]) + if ev.Accept? then [Arrival(ev.created, ev.now)] else []
  }

  /** The time of the first dequeue of request i after its arrival. */
  function DequeuedAt(evs: seq<Event>, i: nat): Option<Instant> {
    if evs == [] then None
    else
      var p, ev := evs[..|evs| - 1], evs[|evs| - 1];
      if DequeuedAt(p, i).Some? then DequeuedAt(p, i)
      else if ev.Dequeue? && ev.id == i && i < |Arrivals(p)| then Some(ev.now)
      else None
  }

  /** The number of tokens delivered to request i. */
  function Delivered(evs: seq<Event>, i: nat): nat {
    var s := Run(START, evs);
    if i < |s.entries| then |s.entries[i].tokens| else 0
  }

  /** The time of the token event that delivered the first one. */
  function FirstTokenAt(evs: seq<Event>, i: nat): Option<Instant> {
    if evs == [] then None
    else
      var p, ev := evs[..|evs| - 1], evs[|evs| - 1];
      if FirstTokenAt(p, i).Some? then FirstTokenAt(p, i)
      else if ev.Token? && Delivered(evs, i) > Delivered(p, i) then Some(ev.now)
      else None
  }

  /** How many requests have been counted, as completed or as failed. */
  function Counted(evs: seq<Event>): int {
    var m := Run(START, evs).metrics;
    m.completedCount + m.failedCount
  }

  /** The time of the finishing step that counted request i as completed. */
  function CompletedAt(evs: seq<Event>, i: nat): Option<Instant> {
    if evs == [] then None
    else
      var p, ev := evs[..|evs| - 1], evs[|evs| - 1];
      if CompletedAt(p, i).Some? then CompletedAt(p, i)
      else if ev.Finish? && ev.id == i && Counted(evs) > Counted(p) then Some(ev.now)
      else None
  }

  /** The time of a step that counts a request. */
  function Now(ev: Event): Instant {
    match ev
    case Finish(_, now) => now
    case Fail(_, _, now) => now
    case GiveUp(_, _, now) => now
    case Receive(_, now) => now
    case Close(_, now) => now
    case _ => 1.0
  }

  /** From `since` to `until`, if there is such a moment. */
  function Span(since: Instant, until: Option<Instant>): seq<real> {
    if until.Some? then [until.value - since] else []
  }

  /** The samples that a run should have left: one of each kind for every step that counts a request. */
  datatype Samples = Samples(queueWaits: seq<real>, firstTokens: seq<real>, totals: seq<real>)

  /** How long request i had queued; how long after its creation it got its first token; and how long after its creation
      it was completed or, if it never was, is counted as failed now. */
  function SamplesOf(evs: seq<Event>, i: nat, now: Instant): Samples
    requires i < |Arrivals(evs)|
  {
    var a := Arrivals(evs)[i];
    var end := if CompletedAt(evs, i).Some? then CompletedAt(evs, i).value else now;
    Samples(Span(a.enqueued, DequeuedAt(evs, i)), Span(a.created, FirstTokenAt(evs, i)), [end - a.created])
  }

  function AllSamples(evs: seq<Event>): Samples {
    if evs == [] then Samples([], [], [])
    else
      var p, ev := evs[..|evs| - 1], evs[|evs| - 1];
      var before := AllSamples(p);
      if Counted(evs) == Counted(p) || ev.Accept? || ev.Idle? || ev.id >= |Arrivals(evs)| then before
      else
        var more := SamplesOf(evs, ev.id, Now(ev));
        Samples(before.queueWaits + more.queueWaits, before.firstTokens + more.firstTokens,
                before.totals + more.totals)
  }

  // ---------------------------------------------------------------------
  // The timestamps of a request are those moments.

  /** What a request's timestamps say about where it stands. */
  predicate Staged(e: Entry) {
    && (e.phase == Queued <==> e.item.startedAt.None?)
    && (e.tokens == [] <==> e.item.firstTokenAt.None?)
    && (e.verdict.Succeeded? <==> e.item.completedAt.Some?)
    && (!e.verdict.Open? ==> e.phase == Released)
  }

  lemma ActKeepsStaged(e: Entry, ev: Event)
    requires Staged(e)
    ensures Staged(Act(e, ev).0)
  {
  }

  lemma {:induction false} RunIsStaged(evs: seq<Event>, i: nat)
    requires i < |Run(START, evs).entries|
    ensures Staged(Run(START, evs).entries[i])
  {
    var s, ev := Run(START, evs[..|evs| - 1]), evs[|evs| - 1];
    if i < |s.entries| {
      RunIsStaged(evs[..|evs| - 1], i);
      if Concerns(ev, i) {
        ActKeepsStaged(s.entries[i], ev);
      }
    }
  }

  /** What one step does to the timestamps, and with which item it counts. */
  lemma ActStamps(e: Entry, ev: Event)
    requires Staged(e)
    ensures var (e', effect) := Act(e, ev);
            && e'.item.createdAt == e.item.createdAt && e'.item.enqueuedAt == e.item.enqueuedAt
            && e'.item.startedAt ==
                 (if e.item.startedAt.Some? then e.item.startedAt else if ev.Dequeue? then Some(ev.now) else None)
            && e'.item.firstTokenAt ==
                 (if e.item.firstTokenAt.Some? then e.item.firstTokenAt
                  else if ev.Token? && |e'.tokens| > |e.tokens| then Some(ev.now)
                  else None)
            && e'.item.completedAt ==
                 (if e.item.completedAt.Some? then e.item.completedAt
                  else if ev.Finish? && !effect.NoEffect? then Some(ev.now)
                  else None)
  {
  }

  lemma ActCountsItself(e: Entry, ev: Event)
    requires Staged(e)
    ensures var (e', effect) := Act(e, ev);
            !effect.NoEffect? ==>
              && effect.it == e'.item
              && (e'.item.completedAt.Some? || e'.item.failedAt == Some(Now(ev)))
              && (ev.Finish? || ev.Fail? || ev.GiveUp? || ev.Receive? || ev.Close?)
  {
  }

  lemma {:induction false} ArrivalsAreEntries(evs: seq<Event>)
    ensures |Arrivals(evs)| == |Run(START, evs).entries|
  {
    if evs != [] {
      ArrivalsAreEntries(evs[..|evs| - 1]);
    }
  }

  /** Request i carries the moments read off the events. */
  ghost predicate Stamped(evs: seq<Event>, i: nat)
    requires i < |Run(START, evs).entries| && |Arrivals(evs)| == |Run(START, evs).entries|
  {
    var it := Run(START, evs).entries[i].item;
    && it.createdAt == Arrivals(evs)[i].created && it.enqueuedAt == Some(Arrivals(evs)[i].enqueued)
    && it.startedAt == DequeuedAt(evs, i)
    && it.firstTokenAt == FirstTokenAt(evs, i)
    && it.completedAt == CompletedAt(evs, i)
  }

  /** One step counts one request, or none. */
  lemma StepCounts(evs: seq<Event>, p: seq<Event>, ev: Event)
    requires evs == p + [ev] && !ev.Accept? && !ev.Idle?
    ensures var s := Run(START, p);
            if ev.id < |s.entries| then
              Counted(evs) == Counted(p) + if Act(s.entries[ev.id], ev).1.NoEffect? then 0 else 1
            else Counted(evs) == Counted(p)
  {
    var s := Run(START, p);
    RunThen(p, ev);
    if ev.id < |s.entries| {
      RunIsStaged(p, ev.id);
      ActCountsItself(s.entries[ev.id], ev);
      ApplyCounts(s.metrics, Act(s.entries[ev.id], ev).1);
    }
  }

  lemma {:induction false} NothingBeforeArrival(evs: seq<Event>, i: nat)
    requires i >= |Run(START, evs).entries|
    ensures DequeuedAt(evs, i).None? && FirstTokenAt(evs, i).None? && CompletedAt(evs, i).None?
  {
    if evs != [] {
      var p, ev := evs[..|evs| - 1], evs[|evs| - 1];
      NothingBeforeArrival(p, i);
      ArrivalsAreEntries(p);
      if ev.Finish? {
        assert evs == p + [ev];
        StepCounts(evs, p, ev);
      }
    }
  }

  lemma OwnStepStamps(evs: seq<Event>, p: seq<Event>, ev: Event, i: nat)
    requires evs == p + [ev] && Concerns(ev, i) && i < |Run(START, p).entries|
    requires |Arrivals(p)| == |Run(START, p).entries| && Stamped(p, i)
    ensures i < |Run(START, evs).entries| && |Arrivals(evs)| == |Run(START, evs).entries| && Stamped(evs, i)
  {
    var e := Run(START, p).entries[i];
    assert evs[..|evs| - 1] == p && evs[|evs| - 1] == ev;
    RunIsStaged(p, i);
    ActStamps(e, ev);
    StepCounts(evs, p, ev);
  }

  lemma OtherStepStamps(evs: seq<Event>, p: seq<Event>, ev: Event, i: nat)
    requires evs == p + [ev] && !Concerns(ev, i) && i < |Run(START, p).entries|
    requires |Arrivals(p)| == |Run(START, p).entries| && Stamped(p, i)
    ensures i < |Run(START, evs).entries| && |Arrivals(evs)| == |Run(START, evs).entries| && Stamped(evs, i)
  {
    assert evs[..|evs| - 1] == p && evs[|evs| - 1] == ev;
    assert Run(START, evs).entries[i] == Run(START, p).entries[i];
  }

  lemma ArrivalStamps(evs: seq<Event>, p: seq<Event>, ev: Event, i: nat)
    requires evs == p + [ev] && ev.Accept? && i == |Run(START, p).entries| == |Arrivals(p)|
    ensures i < |Run(START, evs).entries| && |Arrivals(evs)| == |Run(START, evs).entries| && Stamped(evs, i)
  {
    assert evs[..|evs| - 1] == p && evs[|evs| - 1] == ev;
    NothingBeforeArrival(p, i);
  }

  /** In every run the timestamps of every request are the moments its events say. */
  lemma {:induction false} RunIsStamped(evs: seq<Event>, i: nat)
    requires i < |Run(START, evs).entries|
    ensures |Arrivals(evs)| == |Run(START, evs).entries| && Stamped(evs, i)
  {
    var p, ev := evs[..|evs| - 1], evs[|evs| - 1];
    assert evs == p + [ev];
    ArrivalsAreEntries(p);
    if i >= |Run(START, p).entries| {
      ArrivalStamps(evs, p, ev, i);
    } else {
      RunIsStamped(p, i);
      if Concerns(ev, i) {
        OwnStepStamps(evs, p, ev, i);
      } else {
        OtherStepStamps(evs, p, ev, i);
      }
    }
  }

  // ---------------------------------------------------------------------
  // The samples.

  ghost predicate Shows(m: Metrics, samples: Samples) {
    && m.queueWaitTimes == samples.queueWaits && m.ttftTimes == samples.firstTokens
    && m.totalLatencies == samples.totals
  }

  /** What recording an item adds, when its timestamps are these moments. */
  lemma TimingAdds(m: Metrics, it: Item, evs: seq<Event>, i: nat, now: Instant, effect: Effect)
    requires i < |Arrivals(evs)| && (effect.CountSuccess? || effect.CountFailure?) && effect.it == it
    requires it.createdAt == Arrivals(evs)[i].created && it.enqueuedAt == Some(Arrivals(evs)[i].enqueued)
    requires it.startedAt == DequeuedAt(evs, i) && it.firstTokenAt == FirstTokenAt(evs, i)
    requires it.completedAt == CompletedAt(evs, i) && (it.completedAt.Some? || it.failedAt == Some(now))
    ensures var more, m' := SamplesOf(evs, i, now), Apply(m, effect);
            && m'.queueWaitTimes == m.queueWaitTimes + more.queueWaits
            && m'.ttftTimes == m.ttftTimes + more.firstTokens
            && m'.totalLatencies == m.totalLatencies + more.totals
  {
  }

  lemma StepShowsSamples(evs: seq<Event>, p: seq<Event>, ev: Event)
    requires evs == p + [ev] && !ev.Accept? && !ev.Idle? && ev.id < |Run(START, p).entries|
    requires Shows(Run(START, p).metrics, AllSamples(p))
    ensures Shows(Run(START, evs).metrics, AllSamples(evs))
  {
    var s, i := Run(START, p), ev.id;
    var effect := Act(s.entries[i], ev).1;
    assert evs[..|evs| - 1] == p && evs[|evs| - 1] == ev;
    RunThen(p, ev);
    StepCounts(evs, p, ev);
    RunIsStaged(p, i);
    ActCountsItself(s.entries[i], ev);
    RunIsStamped(evs, i);
    if !effect.NoEffect? {
      TimingAdds(s.metrics, Run(START, evs).entries[i].item, evs, i, Now(ev), effect);
    }
  }

  /** After every run, the sample lists hold exactly this, in order. For each step that counts a request: the time from
      its entering the queue to its dequeue, if it was dequeued; the time from its creation to the event that delivered
      its first token, if any did; and the time from its creation to its completion or, if it has none, to this step. */
  lemma {:induction false} SamplesAreReadOffEvents(evs: seq<Event>)
    ensures Shows(Run(START, evs).metrics, AllSamples(evs))
  {
    if evs != [] {
      var p, ev := evs[..|evs| - 1], evs[|evs| - 1];
      assert evs == p + [ev];
      SamplesAreReadOffEvents(p);
      ArrivalsAreEntries(p);
      ArrivalsAreEntries(evs);
      if !ev.Accept? && !ev.Idle? && ev.id < |Run(START, p).entries| {
        StepShowsSamples(evs, p, ev);
      }
    }
  }

  /** So do those of the collector object that a runtime shares. */
  lemma CollectorShowsSamples(rt: Worker.Runtime)
    requires rt.Valid()
    ensures rt.metrics.queueWaitTimes == AllSamples(rt.history).queueWaits
    ensures rt.metrics.ttftTimes == AllSamples(rt.history).firstTokens
    ensures rt.metrics.totalLatencies == AllSamples(rt.history).totals
  {
    SamplesAreReadOffEvents(rt.history);
  }
}
