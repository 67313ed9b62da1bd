/** Both scheduler objects side by side (src/llm_runtime/scheduler/priority.py, src/llm_runtime/scheduler/fifo.py). */
module SchedulerEquivalence {
  import opened Aging
  import opened Moves
  import opened Ordering
  import P = PriorityScheduler
  import F = FifoScheduler

  lemma {:induction false} ItemsLength(qs: seq<Queued>)
    ensures |Items(qs)| == |qs|
  {
    if qs != [] {
      ItemsLength(qs[..|qs| - 1]);
    }
  }

  /** The FIFO line that a play looks like when sequence numbers, priorities and times are forgotten. */
  function LineView(p: P.Play): F.Line {
    F.Line(Items(p.s.items), Items(p.s.out), Items(p.batch), Items(p.taken))
  }

  ghost predicate SubmitsOnly(priority: nat, actions: seq<Action>) {
    forall k :: 0 <= k < |actions| && actions[k].Submission? ==> actions[k].priority == priority
  }

  ghost predicate MovesSubmitOnly(priority: nat, moves: seq<Move>) {
    forall k :: 0 <= k < |moves| && moves[k].Other? && moves[k].action.Submission? ==>
                  moves[k].action.priority == priority
  }

  lemma PopAlike(interval: real, priority: nat, p: P.Play, m: Move, now: real, q: Queued)
    requires Valid(p.s, now) && AllOfPriority(priority, p.s.items) && p.s.items != [] && q == p.s.items[0]
    requires m == Mine || m == Other(Take)
    ensures LineView(P.AfterMove(interval, p, m, now)) == F.AfterMove(LineView(p), m)
    ensures AllOfPriority(priority, P.AfterMove(interval, p, m, now).s.items)
  {
    var t := Step(interval, p.s, Pop(now));
    EqualPriorityPop(interval, priority, p.s, now);
    assert t.out[|t.out| - 1] == q && Items(p.s.items)[0] == q.item by { ItemsTail(p.s.items); }
    ItemsAppend(p.batch, q);
    ItemsAppend(p.taken, q);
  }

  lemma SubmitAlike(interval: real, priority: nat, p: P.Play, item: nat, now: real)
    requires AllOfPriority(priority, p.s.items)
    ensures LineView(P.AfterMove(interval, p, Other(Submission(priority, item)), now)) ==
            F.AfterMove(LineView(p), Other(Submission(priority, item)))
    ensures AllOfPriority(priority, P.AfterMove(interval, p, Other(Submission(priority, item)), now).s.items)
  {
    ItemsAppend(p.s.items, Queued(priority, p.s.counter + 1, now, item));
  }

  lemma NothingAlike(interval: real, p: P.Play, m: Move, now: real)
    requires p.s.items == [] && (m == Mine || m == Other(Take))
    ensures P.AfterMove(interval, p, m, now) == p && F.AfterMove(LineView(p), m) == LineView(p)
  {
    assert Items(p.s.items) == [];
  }

  lemma MoveAlike(interval: real, priority: nat, p: P.Play, m: Move, now: real)
    requires Valid(p.s, now) && AllOfPriority(priority, p.s.items)
    requires m.Other? && m.action.Submission? ==> m.action.priority == priority
    ensures LineView(P.AfterMove(interval, p, m, now)) == F.AfterMove(LineView(p), m)
    ensures AllOfPriority(priority, P.AfterMove(interval, p, m, now).s.items)
  {
    if m.Other? && m.action.Submission? {
      SubmitAlike(interval, priority, p, m.action.item, now);
      assert m == Other(Submission(priority, m.action.item));
    } else {
      assert m == Mine || m == Other(Take);
      if p.s.items == [] {
        NothingAlike(interval, p, m, now);
      } else {
        PopAlike(interval, priority, p, m, now, p.s.items[0]);
      }
    }
  }

  /** With equal priorities, any interval and any interleaving of one worker's dequeues with everything that other tasks
      do, the two schedulers queue, deliver and hand out the same. */
  lemma {:induction false} MovesAlike(interval: real, priority: nat, p: P.Play, moves: seq<Move>, times: seq<real>,
                                      r: P.Play, start: real, end: real)
    requires Valid(p.s, start) && AllOfPriority(priority, p.s.items) && MovesSubmitOnly(priority, moves)
    requires P.Plays(interval, p, moves, times, r, start, end)
    ensures LineView(r) == F.AfterMoves(LineView(p), moves)
    ensures Valid(r.s, end) && AllOfPriority(priority, r.s.items)
    decreases |moves|
  {
    var ops := P.OpsOf(moves, times);
    RunKeepsValid(interval, p.s, start, ops, end);
    P.PlayIsARun(interval, p, moves, times);
    if moves != [] {
      var n := |moves| - 1;
      var q := P.AfterMoves(interval, p, moves[..n], times[..n]);
      assert ops[..n] == P.OpsOf(moves[..n], times[..n]);
      MovesAlike(interval, priority, p, moves[..n], times[..n], q, start, times[n]);
      MoveAlike(interval, priority, q, moves[n], times[n]);
    }
  }

  /** What was delivered before does not matter to what happens next. */
  lemma {:induction false} PastDoesNotMatter(l: F.Line, l': F.Line, moves: seq<Move>)
    requires l.queue == l'.queue && l.batch == l'.batch
    ensures F.AfterMoves(l, moves).queue == F.AfterMoves(l', moves).queue
    ensures F.AfterMoves(l, moves).batch == F.AfterMoves(l', moves).batch
  {
    if moves != [] {
      PastDoesNotMatter(l, l', moves[..|moves| - 1]);
    }
  }

  lemma {:induction false} TimelyPrefix(start: real, ops: seq<Op>, end: real, n: nat) returns (mid: real)
    requires Timely(start, ops, end) && n <= |ops|
    ensures Timely(start, ops[..n], mid)
  {
    if n == |ops| {
      mid := end;
      assert ops[..n] == ops;
    } else {
      var k := |ops| - 1;
      mid := TimelyPrefix(start, ops[..k], ops[k].now, n);
      assert ops[..k][..n] == ops[..n];
    }
  }

  lemma PlaysPrefix(interval: real, p: P.Play, moves: seq<Move>, times: seq<real>, r: P.Play,
                    start: real, end: real, n: nat)
    returns (q: P.Play, mid: real)
    requires P.Plays(interval, p, moves, times, r, start, end) && n <= |moves|
    ensures P.Plays(interval, p, moves[..n], times[..n], q, start, mid)
  {
    mid := TimelyPrefix(start, P.OpsOf(moves, times), end, n);
    q := P.AfterMoves(interval, p, moves[..n], times[..n]);
    assert P.OpsOf(moves, times)[..n] == P.OpsOf(moves[..n], times[..n]);
  }

  lemma {:induction false} PrefixOfGroups(before: seq<seq<Action>>, j: nat, k: nat)
    requires j <= k <= |before|
    ensures ActionsOfAll(before[..j]) <= ActionsOfAll(before[..k])
    decreases k
  {
    if j < k {
      PrefixOfGroups(before, j, k - 1);
      NextGroup(before, k - 1);
    }
  }

  lemma {:induction false} GroupsSubmitOnly(priority: nat, before: seq<seq<Action>>, k: nat)
    requires k <= |before| && forall j :: 0 <= j < |before| ==> SubmitsOnly(priority, before[j])
    ensures SubmitsOnly(priority, ActionsOfAll(before[..k]))
  {
    if k > 0 {
      GroupsSubmitOnly(priority, before, k - 1);
      NextGroup(before, k - 1);
    } else {
      assert before[..0] == [];
    }
  }

  /** The first suspensions of a wait are a play of their own. */
  lemma AwaitedIsPlayed(interval: real, p: P.Play, before: seq<seq<Action>>, times: seq<real>, k: nat, r: P.Play,
                        start: real, end: real, j: nat)
    returns (part: seq<Move>, readings: seq<real>, mid: real)
    requires P.Waiting(interval, p, before, times, k, r, start, end) && j <= k
    ensures part == OtherMoves(ActionsOfAll(before[..j]))
    ensures P.Plays(interval, p, part, readings, P.Awaited(interval, p, before, times, j), start, mid)
  {
    var moves := OtherMoves(ActionsOfAll(before[..k]));
    part := OtherMoves(ActionsOfAll(before[..j]));
    PrefixOfGroups(before, j, k);
    assert moves[..|part|] == part;
    readings := times[..|part|];
    var q;
    q, mid := PlaysPrefix(interval, p, moves, times, r, start, end, |part|);
  }

  lemma OtherMovesSubmitOnly(priority: nat, actions: seq<Action>)
    requires SubmitsOnly(priority, actions)
    ensures MovesSubmitOnly(priority, OtherMoves(actions))
  {
  }

  /** Waiting for the first item, both find the same after the same suspensions. */
  lemma AwaitedAlike(interval: real, priority: nat, p: P.Play, l: F.Line, before: seq<seq<Action>>, times: seq<real>,
                     k: nat, r: P.Play, start: real, end: real, j: nat)
    requires Valid(p.s, start) && AllOfPriority(priority, p.s.items)
    requires forall j :: 0 <= j < |before| ==> SubmitsOnly(priority, before[j])
    requires P.Waiting(interval, p, before, times, k, r, start, end) && j <= k
    requires Items(p.s.items) == l.queue && Items(p.batch) == l.batch
    ensures Items(P.Awaited(interval, p, before, times, j).s.items) == F.Awaited(l, before, j).queue
    ensures AllOfPriority(priority, P.Awaited(interval, p, before, times, j).s.items)
    ensures P.Awaited(interval, p, before, times, j).s.items == [] <==> F.Awaited(l, before, j).queue == []
  {
    var q := P.Awaited(interval, p, before, times, j);
    var part, readings, mid := AwaitedIsPlayed(interval, p, before, times, k, r, start, end, j);
    GroupsSubmitOnly(priority, before, j);
    OtherMovesSubmitOnly(priority, ActionsOfAll(before[..j]));
    MovesAlike(interval, priority, p, part, readings, q, start, mid);
    PastDoesNotMatter(LineView(p), l, part);
    ItemsLength(q.s.items);
  }

  /** Both wait through the same suspensions. */
  lemma SameSuspensions(interval: real, priority: nat, p: P.Play, l: F.Line, before: seq<seq<Action>>, times: seq<real>,
                        k: nat, r: P.Play, start: real, end: real, used: nat)
    requires Valid(p.s, start) && AllOfPriority(priority, p.s.items)
    requires forall j :: 0 <= j < |before| ==> SubmitsOnly(priority, before[j])
    requires P.Waiting(interval, p, before, times, k, r, start, end) && (r.s.items == [] ==> k == |before|)
    requires F.WaitsWhileEmpty(l, before, used)
    requires Items(p.s.items) == l.queue && Items(p.batch) == l.batch
    ensures k == used && Items(r.s.items) == F.Awaited(l, before, used).queue && AllOfPriority(priority, r.s.items)
  {
    assert times[..|times|] == times;
    assert P.Awaited(interval, p, before, times, k) == r;
    AwaitedAlike(interval, priority, p, l, before, times, k, r, start, end, k);
    if used < k {
      AwaitedAlike(interval, priority, p, l, before, times, k, r, start, end, used);
    }
  }

  lemma PrefixIsBuildBatch(batch: seq<nat>, rest: seq<nat>, q: seq<nat>, n: nat)
    requires batch + rest == q && |batch| <= n && (|batch| < n ==> rest == [])
    ensures batch == BuildBatch(q, n) && rest == q[|batch|..]
  {
    assert batch == q[..|batch|];
  }

  /** A worker left alone takes from a queue of equal priorities exactly what `build_batch` cuts. */
  lemma FillingIsBuildBatch(interval: real, priority: nat, p: P.Play, moves: seq<Move>, times: seq<real>, r: P.Play,
                            start: real, end: real, n: nat)
    requires Valid(p.s, start) && AllOfPriority(priority, p.s.items) && p.batch == [] && AllMine(moves)
    requires P.Plays(interval, p, moves, times, r, start, end)
    requires |r.batch| <= n && (|r.batch| < n ==> r.s.items == [])
    ensures Items(r.batch) == BuildBatch(Items(p.s.items), n)
    ensures Items(r.s.items) == Items(p.s.items)[|Items(r.batch)|..]
  {
    MovesAlike(interval, priority, p, moves, times, r, start, end);
    F.MineTakesPrefix(LineView(p), moves);
    ItemsLength(r.batch);
    assert [] + Items(p.s.items) == Items(p.s.items);
    PrefixIsBuildBatch(Items(r.batch), Items(r.s.items), Items(p.s.items), n);
  }

  /** One `next_batch` call without a timeout on each of the two schedulers, holding the same queue of equal priorities
      and seeing the same submissions and takes of other tasks while they wait for a first item: they return
      the same batch and leave the same queue, whatever the aging interval and the clocks. */
  method NextBatches(ps: P.Scheduler, fs: F.Scheduler, priority: nat, maxBatchSize: int, before: seq<seq<Action>>)
    returns (batch: seq<Queued>, fifoBatch: seq<nat>)
    requires P.ClockMovesForward(ps.timeFn) && fs.Conserves() && Valid(ps.State(), ps.timeFn(ps.ticks))
    requires AllOfPriority(priority, ps.items) && Items(ps.items) == fs.queue
    requires forall j :: 0 <= j < |before| ==> SubmitsOnly(priority, before[j])
    modifies ps, fs
    ensures Items(batch) == fifoBatch && Items(ps.items) == fs.queue
  {
    ghost var p, start := P.Play(ps.State(), [], []), ps.timeFn(ps.ticks);
    ghost var l := F.Line(fs.queue, fs.delivered, [], []);
    ghost var tr, fifoTr, used, filled, fifoUsed, fifoFilled;
    batch, tr, used, filled := ps.NextBatch(maxBatchSize, 0, before, []);
    ghost var r, mid, end := tr.fill.play, ps.timeFn(tr.tick), ps.timeFn(ps.ticks);
    fifoBatch, fifoTr, fifoUsed, fifoFilled := fs.NextBatch(maxBatchSize, 0, before, []);
    BatchesAlike(ps.interval, priority, p, l, before, tr, used, r, start, mid, end, maxBatchSize,
                 fifoUsed, fifoTr.found, fifoBatch, fs.queue);
  }

  lemma BatchesAlike(interval: real, priority: nat, p: P.Play, l: F.Line, before: seq<seq<Action>>, tr: P.Trace,
                     used: nat, r: P.Play, start: real, mid: real, end: real, maxBatchSize: int,
                     fifoUsed: nat, fifoFound: F.Line, fifoBatch: seq<nat>, fifoRest: seq<nat>)
    requires Valid(p.s, start) && AllOfPriority(priority, p.s.items)
    requires p.batch == [] && l.batch == [] && Items(p.s.items) == l.queue
    requires forall j :: 0 <= j < |before| ==> SubmitsOnly(priority, before[j])
    requires P.Waiting(interval, p, before, tr.waited, used, tr.found, start, mid)
    requires tr.found.s.items == [] ==> used == |before|
    requires P.Plays(interval, tr.found, tr.fill.moves, tr.fill.times, r, mid, end) && AllMine(tr.fill.moves)
    requires |r.batch| <= AtLeastOne(maxBatchSize) && (|r.batch| < AtLeastOne(maxBatchSize) ==> r.s.items == [])
    requires F.WaitsWhileEmpty(l, before, fifoUsed) && fifoFound == F.Awaited(l, before, fifoUsed)
    requires fifoBatch + fifoRest == fifoFound.queue && fifoBatch == BuildBatch(fifoFound.queue,
                                                                                AtLeastOne(maxBatchSize))
    ensures Items(r.batch) == fifoBatch && Items(r.s.items) == fifoRest
  {
    SameSuspensions(interval, priority, p, l, before, tr.waited, used, tr.found, start, mid, fifoUsed);
    FoundIsValid(interval, p, before, tr.waited, used, tr.found, start, mid);
    FillingIsBuildBatch(interval, priority, tr.found, tr.fill.moves, tr.fill.times, r, mid, end,
                        AtLeastOne(maxBatchSize));
    assert fifoRest == (fifoBatch + fifoRest)[|fifoBatch|..];
  }

  lemma FoundIsValid(interval: real, p: P.Play, before: seq<seq<Action>>, times: seq<real>, k: nat, r: P.Play,
                     start: real, end: real)
    requires Valid(p.s, start) && p.batch == [] && P.Waiting(interval, p, before, times, k, r, start, end)
    ensures Valid(r.s, end) && r.batch == []
  {
    var actions := ActionsOfAll(before[..k]);
    P.PlayIsARun(interval, p, OtherMoves(actions), times);
    RunKeepsValid(interval, p.s, start, P.OpsOf(OtherMoves(actions), times), end);
    P.OtherMovesKeepBatch(interval, p, actions, times);
  }
}
