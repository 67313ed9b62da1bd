/** The wait/notify protocol between submitters and workers of the priority scheduler, and the worker
    and batch configurations that can reach it (src/llm_runtime/scheduler/priority.py,
                                                src/llm_runtime/core/lifecycle.py). */
module Dispatch {
  import Snapshots

  // ---------------------------------------------------------------------
  // Configuration.

  datatype Settings = Settings(enableBatching: bool, maxBatchSize: int, batchTimeoutMs: int, nativeConcurrency: int)

  function DispatchBatchParams(s: Settings, nativeBatching: bool): (int, int) {
    if !s.enableBatching || nativeBatching then (1, 0) else (s.maxBatchSize, s.batchTimeoutMs)
  }

  function DispatchWorkerCount(s: Settings, nativeBatching: bool): int {
    if nativeBatching then s.nativeConcurrency else 1
  }

  /** Several workers are only ever configured with batch size 1 and no timeout; so a worker that shares the scheduler
      with others never waits with a deadline. The configured size and timeout are used, by a single worker, if and
      only if batching is enabled and the backend does not batch itself. */
  lemma SeveralWorkersNeverBatch(s: Settings, nativeBatching: bool)
    ensures DispatchWorkerCount(s, nativeBatching) > 1 ==> DispatchBatchParams(s, nativeBatching) == (1, 0)
    ensures DispatchWorkerCount(s, nativeBatching) > 1 <==> nativeBatching && s.nativeConcurrency > 1
    ensures s.enableBatching && !nativeBatching ==>
              && DispatchBatchParams(s, nativeBatching) == (s.maxBatchSize, s.batchTimeoutMs)
              && DispatchWorkerCount(s, nativeBatching) == 1
    ensures DispatchBatchParams(s, nativeBatching) != (1, 0) ==> s.enableBatching && !nativeBatching
  {
  }

  // ---------------------------------------------------------------------
  // The protocol.

  /** A worker executes a batch, or waits on the condition holding the items it has collected so far. */
  datatype Worker = Busy | Waiting(held: nat, notified: bool)

  /** `waiters` is the condition's queue: sleeping workers in the order in which they went to sleep, a notified
      one stays in it until it resumes. */
  datatype Pool = Pool(queued: nat, workers: seq<Worker>, waiters: seq<nat>)

  datatype Config = Config(maxBatchSize: nat, timeout: bool)

  datatype Event =
    | Submit
    | Poll(w: nat, expired: bool)    // a busy worker comes back for its next batch
    | Resume(w: nat, expired: bool)  // a notified worker runs again
    | Deadline(w: nat)               // a filling worker that nobody notified runs out of time

  function Min(a: nat, b: nat): nat { if a < b then a else b }

  function Capacity(c: Config): nat { if c.maxBatchSize > 1 then c.maxBatchSize else 1 }

  /** The position in the condition's queue of the first worker not yet notified, or its length. */
  function FirstAsleep(p: Pool, k: nat): (r: nat)
    requires k <= |p.waiters|
    ensures k <= r <= |p.waiters|
    ensures r < |p.waiters| ==> Asleep(p, p.waiters[r])
    ensures forall j :: k <= j < r ==> !Asleep(p, p.waiters[j])
    decreases |p.waiters| - k
  {
    if k == |p.waiters| || Asleep(p, p.waiters[k]) then k else FirstAsleep(p, k + 1)
  }

  predicate Asleep(p: Pool, w: nat) {
    w < |p.workers| && p.workers[w].Waiting? && !p.workers[w].notified
  }

  function Notify(p: Pool): Pool {
    var k := FirstAsleep(p, 0);
    if k == |p.waiters| then p
    else p.(workers := p.workers[p.waiters[k] := p.workers[p.waiters[k]].(notified := true)])
  }

  /** From holding h items: take what fits, then leave with the batch or go (back) to sleep. */
  function Collect(c: Config, p: Pool, w: nat, h: nat, expired: bool): Pool
    requires w < |p.workers|
  {
    var got := h + Taken(c, p.queued, h);
    var rest := p.queued - Taken(c, p.queued, h);
    if Leaves(c, got, expired) then
      p.(queued := rest, workers := p.workers[w := Busy])
    else
      Pool(rest, p.workers[w := Waiting(got, false)], p.waiters + [w])
  }

  function Taken(c: Config, queued: nat, h: nat): nat {
    Min(if Capacity(c) > h then Capacity(c) - h else 0, queued)
  }

  predicate Leaves(c: Config, got: nat, expired: bool) {
    got > 0 && (got >= c.maxBatchSize || !c.timeout || expired)
  }

  function Without(waiters: seq<nat>, w: nat): seq<nat> {
    if waiters == [] then []
    else Without(waiters[..|waiters| - 1], w) + if waiters[|waiters| - 1] == w then [] else [waiters[|waiters| - 1]]
  }

  function Step(c: Config, p: Pool, ev: Event): Pool {
    match ev
    case Submit => Notify(p.(queued := p.queued + 1))
    case Poll(w, expired) =>
      if w < |p.workers| && p.workers[w].Busy? then Collect(c, p, w, 0, expired) else p
    case Resume(w, expired) =>
      if w < |p.workers| && p.workers[w].Waiting? && p.workers[w].notified then
        Collect(c, p.(waiters := Without(p.waiters, w)), w, p.workers[w].held, expired)
      else p
    case Deadline(w) =>
      if Asleep(p, w) && p.workers[w].held > 0 then
        p.(workers := p.workers[w := Busy], waiters := Without(p.waiters, w))
      else p
  }

  function AllBusy(n: nat): (ws: seq<Worker>)
    ensures |ws| == n && forall k :: 0 <= k < n ==> ws[k].Busy?
  {
    if n == 0 then [] else AllBusy(n - 1) + [Busy]
  }

  function Run(c: Config, n: nat, evs: seq<Event>): Pool {
    if evs == [] then Pool(0, AllBusy(n), [])
    else Step(c, Run(c, n, evs[..|evs| - 1]), evs[|evs| - 1])
  }

  function NotifiedCount(ws: seq<Worker>): nat {
    if ws == [] then 0
    else NotifiedCount(ws[..|ws| - 1]) + if ws[|ws| - 1].Waiting? && ws[|ws| - 1].notified then 1 else 0
  }

  function Weight(w: Worker): nat { if w.Waiting? && w.notified then 1 else 0 }

  lemma {:induction false} NotifiedCountUpdate(ws: seq<Worker>, i: nat, w: Worker)
    requires i < |ws|
    ensures NotifiedCount(ws[i := w]) == NotifiedCount(ws) - Weight(ws[i]) + Weight(w)
  {
    var n := |ws| - 1;
    if i < n {
      NotifiedCountUpdate(ws[..n], i, w);
      assert ws[i := w][..n] == ws[..n][i := w];
    } else {
      assert ws[i := w][..n] == ws[..n];
    }
  }

  lemma {:induction false} WithoutKeepsOthers(waiters: seq<nat>, w: nat)
    ensures forall v :: v in Without(waiters, w) <==> v in waiters && v != w
  {
    if waiters != [] {
      var n := |waiters| - 1;
      WithoutKeepsOthers(waiters[..n], w);
      assert waiters == waiters[..n] + [waiters[n]];
    }
  }

  /** No sleeping worker is missing from the condition's queue, and while one sleeps un-notified,
      every queued item has a notified worker on its way. */
  ghost predicate WorkConserving(p: Pool) {
    && (forall w: nat :: w < |p.workers| && p.workers[w].Waiting? ==> w in p.waiters)
    && (forall w: nat :: Asleep(p, w) ==> p.queued <= NotifiedCount(p.workers))
  }

  lemma NotifyConserves(p: Pool)
    requires WorkConserving(p)
    ensures WorkConserving(Notify(p.(queued := p.queued + 1)))
  {
    var q := p.(queued := p.queued + 1);
    var k := FirstAsleep(q, 0);
    if k < |q.waiters| {
      var w := q.waiters[k];
      NotifiedCountUpdate(q.workers, w, q.workers[w].(notified := true));
      assert Asleep(p, w);
    } else {
      assert forall w: nat :: Asleep(q, w) ==> w in q.waiters;
    }
  }

  lemma CollectConserves(c: Config, p: Pool, w: nat, h: nat, expired: bool)
    requires w < |p.workers|
    requires forall v: nat :: v < |p.workers| && v != w && p.workers[v].Waiting? ==> v in p.waiters
    requires forall v: nat :: v != w && Asleep(p, v) ==> p.queued <= NotifiedCount(p.workers)
    requires Weight(p.workers[w]) == 1 ==> h < Capacity(c)
    requires h >= Capacity(c) ==> h == 0
    ensures WorkConserving(Collect(c, p, w, h, expired))
  {
    var q := Collect(c, p, w, h, expired);
    NotifiedCountUpdate(p.workers, w, q.workers[w]);
    forall v: nat | Asleep(q, v) ensures q.queued <= NotifiedCount(q.workers) {
      if v != w { assert Asleep(p, v); }
    }
  }

  /** A submission wakes one worker, the one that has slept longest, or nobody if nobody sleeps un-notified. */
  lemma SubmitWakesOldest(c: Config, p: Pool, k: nat)
    requires k <= |p.waiters| && forall j :: 0 <= j < k ==> !Asleep(p, p.waiters[j])
    requires k < |p.waiters| ==> Asleep(p, p.waiters[k])
    ensures var q := Step(c, p, Submit);
            && q.queued == p.queued + 1 && q.waiters == p.waiters
            && (k == |p.waiters| ==> q.workers == p.workers)
            && (k < |p.waiters| ==>
                  var w := p.waiters[k];
                  q.workers == p.workers[w := Waiting(p.workers[w].held, true)])
  {
    var q := p.(queued := p.queued + 1);
    var r := FirstAsleep(q, 0);
    assert forall j :: 0 <= j < |p.waiters| ==> (Asleep(q, p.waiters[j]) <==> Asleep(p, p.waiters[j]));
    assert r == k;
  }

  /** What a sleeping worker holds is less than a full batch. */
  ghost predicate Unfilled(c: Config, p: Pool) {
    forall w: nat :: w < |p.workers| && p.workers[w].Waiting? ==> p.workers[w].held < Capacity(c)
  }

  lemma ResumeConserves(c: Config, p: Pool, w: nat, expired: bool)
    requires WorkConserving(p) && Unfilled(c, p)
    requires w < |p.workers| && p.workers[w].Waiting? && p.workers[w].notified
    ensures WorkConserving(Step(c, p, Resume(w, expired))) && Unfilled(c, Step(c, p, Resume(w, expired)))
  {
    WithoutKeepsOthers(p.waiters, w);
    var q := p.(waiters := Without(p.waiters, w));
    assert forall v: nat :: Asleep(q, v) ==> Asleep(p, v);
    CollectConserves(c, q, w, p.workers[w].held, expired);
  }

  lemma DeadlineConserves(c: Config, p: Pool, w: nat)
    requires WorkConserving(p) && Unfilled(c, p) && Asleep(p, w) && p.workers[w].held > 0
    ensures WorkConserving(Step(c, p, Deadline(w))) && Unfilled(c, Step(c, p, Deadline(w)))
  {
    WithoutKeepsOthers(p.waiters, w);
    NotifiedCountUpdate(p.workers, w, Busy);
    assert forall v: nat :: Asleep(Step(c, p, Deadline(w)), v) ==> Asleep(p, v);
  }

  lemma StepConserves(c: Config, p: Pool, ev: Event)
    requires WorkConserving(p) && Unfilled(c, p)
    ensures WorkConserving(Step(c, p, ev)) && Unfilled(c, Step(c, p, ev))
  {
    match ev {
      case Submit => NotifyConserves(p);
      case Poll(w, expired) =>
        if w < |p.workers| && p.workers[w].Busy? { CollectConserves(c, p, w, 0, expired); }
      case Resume(w, expired) =>
        if w < |p.workers| && p.workers[w].Waiting? && p.workers[w].notified { ResumeConserves(c, p, w, expired); }
      case Deadline(w) =>
        if Asleep(p, w) && p.workers[w].held > 0 { DeadlineConserves(c, p, w); }
    }
  }

  lemma {:induction false} RunConserves(c: Config, n: nat, evs: seq<Event>)
    ensures WorkConserving(Run(c, n, evs)) && Unfilled(c, Run(c, n, evs))
  {
    if evs != [] {
      RunConserves(c, n, evs[..|evs| - 1]);
      StepConserves(c, Run(c, n, evs[..|evs| - 1]), evs[|evs| - 1]);
    }
  }

  /** No lost wakeup, for any number of workers, any batch size, with or without a timeout: in every reachable
      state, if some worker sleeps un-notified then the queued items are at most the notified workers; and
      whenever an item is queued, some worker is busy or on its way. */
  lemma NoLostWakeup(c: Config, n: nat, evs: seq<Event>, w: nat)
    requires n >= 1
    ensures var p := Run(c, n, evs);
            && (Asleep(p, w) ==> p.queued <= NotifiedCount(p.workers))
            && (p.queued > 0 ==> exists v: nat :: v < |p.workers| && !Asleep(p, v))
  {
    RunConserves(c, n, evs);
    WorkersStay(c, n, evs);
    var p := Run(c, n, evs);
    if p.queued > 0 && Asleep(p, 0) {
      var v := SomeNotified(p.workers);
      assert v < |p.workers| && !Asleep(p, v);
    }
  }

  lemma {:induction false} WorkersStay(c: Config, n: nat, evs: seq<Event>)
    ensures |Run(c, n, evs).workers| == n
  {
    if evs != [] {
      WorkersStay(c, n, evs[..|evs| - 1]);
    }
  }

  lemma {:induction false} SomeNotified(ws: seq<Worker>) returns (v: nat)
    requires NotifiedCount(ws) > 0
    ensures v < |ws| && ws[v].Waiting? && ws[v].notified
  {
    var n := |ws| - 1;
    if ws[n].Waiting? && ws[n].notified {
      v := n;
    } else {
      v := SomeNotified(ws[..n]);
    }
  }

  /** When a batch ends. In every reachable state, a worker that comes back for its next batch, or resumes with `held`
      items, takes what is queued as far as it fits; it leaves with its batch if and only if that is something, and
      the batch is full, or there is no timeout, or the time is over; otherwise it goes to sleep last in line. */
  lemma BatchEndsIff(c: Config, n: nat, evs: seq<Event>, ev: Event, held: nat)
    requires ev.Poll? || ev.Resume?
    requires var p := Run(c, n, evs);
             && ev.w < |p.workers|
             && (ev.Poll? ==> p.workers[ev.w].Busy? && held == 0)
             && (ev.Resume? ==> p.workers[ev.w] == Waiting(held, true))
    ensures var p, q := Run(c, n, evs), Step(c, Run(c, n, evs), ev);
            var room := (if c.maxBatchSize > 1 then c.maxBatchSize else 1) - held;
            && q.queued == (if p.queued > room then p.queued - room else 0)
            && |q.workers| == |p.workers|
            && (q.workers[ev.w] == Busy <==>
                  held + p.queued > 0 && (held + p.queued >= c.maxBatchSize || !c.timeout || ev.expired))
            && (q.workers[ev.w] != Busy ==>
                  && q.workers[ev.w] == Waiting(held + p.queued, false)
                  && q.waiters != [] && q.waiters[|q.waiters| - 1] == ev.w)
  {
    RunConserves(c, n, evs);
  }

  // ---------------------------------------------------------------------
  // Batch sizes.

  /** The size that the worker loop records when the step ends a batch's formation. */
  function Recorded(c: Config, p: Pool, ev: Event): seq<nat> {
    match ev
    case Submit => []
    case Poll(w, expired) =>
      if w < |p.workers| && p.workers[w].Busy? then Formed(c, p.queued, 0, expired) else []
    case Resume(w, expired) =>
      if w < |p.workers| && p.workers[w].Waiting? && p.workers[w].notified then
        Formed(c, p.queued, p.workers[w].held, expired)
      else []
    case Deadline(w) =>
      if Asleep(p, w) && p.workers[w].held > 0 then [p.workers[w].held] else []
  }

  function Formed(c: Config, queued: nat, h: nat, expired: bool): seq<nat> {
    var got := h + Taken(c, queued, h);
    if Leaves(c, got, expired) then [got] else []
  }

  function BatchSizes(c: Config, n: nat, evs: seq<Event>): seq<nat> {
    if evs == [] then []
    else BatchSizes(c, n, evs[..|evs| - 1]) + Recorded(c, Run(c, n, evs[..|evs| - 1]), evs[|evs| - 1])
  }

  function Submissions(evs: seq<Event>): nat {
    if evs == [] then 0 else Submissions(evs[..|evs| - 1]) + if evs[|evs| - 1].Submit? then 1 else 0
  }

  /** The items in batches still being formed. */
  function Forming(ws: seq<Worker>): nat {
    if ws == [] then 0 else Forming(ws[..|ws| - 1]) + Held(ws[|ws| - 1])
  }

  function Held(w: Worker): nat { if w.Waiting? then w.held else 0 }

  lemma {:induction false} FormingUpdate(ws: seq<Worker>, i: nat, w: Worker)
    requires i < |ws|
    ensures Forming(ws[i := w]) == Forming(ws) - Held(ws[i]) + Held(w)
  {
    var n := |ws| - 1;
    if i < n {
      FormingUpdate(ws[..n], i, w);
      assert ws[i := w][..n] == ws[..n][i := w];
    } else {
      assert ws[i := w][..n] == ws[..n];
    }
  }

  lemma {:induction false} NothingForming(n: nat)
    ensures Forming(AllBusy(n)) == 0
  {
    if n > 0 {
      NothingForming(n - 1);
      assert AllBusy(n)[..n - 1] == AllBusy(n - 1);
    }
  }

  lemma StepAccounts(c: Config, p: Pool, ev: Event)
    requires Unfilled(c, p)
    ensures var q := Step(c, p, ev);
            Snapshots.Sum(Recorded(c, p, ev)) + Forming(q.workers) + q.queued ==
            Forming(p.workers) + p.queued + if ev.Submit? then 1 else 0
    ensures forall size :: size in Recorded(c, p, ev) ==> 1 <= size <= Capacity(c)
  {
    var q, sizes := Step(c, p, ev), Recorded(c, p, ev);
    assert sizes != [] ==> sizes[..|sizes| - 1] == [];
    match ev {
      case Submit =>
        var k := FirstAsleep(p.(queued := p.queued + 1), 0);
        if k < |p.waiters| { FormingUpdate(p.workers, p.waiters[k], q.workers[p.waiters[k]]); }
      case Poll(w, _) => if w < |p.workers| { FormingUpdate(p.workers, w, q.workers[w]); }
      case Resume(w, _) => if w < |p.workers| { FormingUpdate(p.workers, w, q.workers[w]); }
      case Deadline(w) => if w < |p.workers| { FormingUpdate(p.workers, w, q.workers[w]); }
    }
  }

  /** Over every run of any number of workers: each submitted item is counted in exactly one of the recorded
      batch sizes, the batches being formed and the queue; and every recorded size is between 1 and the maximum. */
  lemma {:induction false} BatchSizesAccountForSubmissions(c: Config, n: nat, evs: seq<Event>)
    ensures Snapshots.Sum(BatchSizes(c, n, evs)) + Forming(Run(c, n, evs).workers) + Run(c, n, evs).queued ==
            Submissions(evs)
    ensures forall size :: size in BatchSizes(c, n, evs) ==> 1 <= size <= Capacity(c)
  {
    if evs == [] {
      NothingForming(n);
    } else {
      var past := evs[..|evs| - 1];
      BatchSizesAccountForSubmissions(c, n, past);
      RunConserves(c, n, past);
      StepAccounts(c, Run(c, n, past), evs[|evs| - 1]);
      Snapshots.SumConcat(BatchSizes(c, n, past), Recorded(c, Run(c, n, past), evs[|evs| - 1]));
    }
  }
}
