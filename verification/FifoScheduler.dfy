/** The FIFO scheduler object (src/llm_runtime/scheduler/fifo.py). */
module FifoScheduler {
  import opened Moves
  import opened Ordering

  /** The queue and everything delivered from it, and since some point on: what this worker has dequeued into
      its batch, and what other workers have taken. */
  datatype Line = Line(queue: seq<nat>, delivered: seq<nat>, batch: seq<nat>, taken: seq<nat>)

  function AfterMove(l: Line, m: Move): Line {
    match m
    case Other(Submission(_, item)) => l.(queue := l.queue + [item])
    case Mine =>
      if l.queue == [] then l
      else Line(l.queue[1..], l.delivered + [l.queue[0]], l.batch + [l.queue[0]], l.taken)
    case Other(Take) =>
      if l.queue == [] then l
      else Line(l.queue[1..], l.delivered + [l.queue[0]], l.batch, l.taken + [l.queue[0]])
  }

  function AfterMoves(l: Line, moves: seq<Move>): Line
    decreases |moves|
  {
    if moves == [] then l else AfterMove(AfterMoves(l, moves[..|moves| - 1]), moves[|moves| - 1])
  }

  lemma {:induction false} AfterMovesConcat(l: Line, p: seq<Move>, q: seq<Move>)
    ensures AfterMoves(l, p + q) == AfterMoves(AfterMoves(l, p), q)
  {
    if q == [] {
      assert p + q == p;
    } else {
      assert (p + q)[..|p + q| - 1] == p + q[..|q| - 1];
      AfterMovesConcat(l, p, q[..|q| - 1]);
    }
  }

  lemma AfterOneMore(l: Line, p: seq<Move>, m: Move)
    ensures AfterMoves(l, p + [m]) == AfterMove(AfterMoves(l, p), m)
  {
    assert (p + [m])[..|p|] == p;
  }

  /** What a move submits. */
  function Entering(m: Move): seq<nat> { if m.Other? && m.action.Submission? then [m.action.item] else [] }

  lemma MoveConserves(l: Line, m: Move)
    ensures var r := AfterMove(l, m);
            r.delivered + r.queue == l.delivered + l.queue + Entering(m)
  {
    if l.queue != [] {
      assert l.queue == [l.queue[0]] + l.queue[1..];
    }
  }

  /** Whoever moves: what is delivered and then queued grows by what is submitted, in order. */
  lemma {:induction false} MovesConserve(l: Line, moves: seq<Move>)
    ensures var r := AfterMoves(l, moves);
            r.delivered + r.queue == l.delivered + l.queue + ItemsOf(ActionsIn(moves))
  {
    if moves != [] {
      var p, m := moves[..|moves| - 1], moves[|moves| - 1];
      var q := AfterMoves(l, p);
      MovesConserve(l, p);
      MoveConserves(q, m);
      Regroup(l.delivered + l.queue, ItemsOf(ActionsIn(p)), Entering(m));
      assert ItemsOf(ActionsIn(moves)) == ItemsOf(ActionsIn(p)) + Entering(m) by {
        ItemsOfOneMore(p, m);
        assert moves == p + [m];
      }
    }
  }

  /** Since `before` was delivered, this worker and the others have shared out everything delivered, each in order. */
  ghost predicate SharedOut(before: seq<nat>, l: Line) {
    before <= l.delivered && Interleaves(l.delivered[|before|..], l.taken, l.batch)
  }

  lemma MoveSharesOut(before: seq<nat>, l: Line, m: Move)
    requires SharedOut(before, l)
    ensures SharedOut(before, AfterMove(l, m))
  {
    if l.queue != [] {
      InterleavesOne(l.delivered[|before|..], l.taken, l.batch, l.queue[0]);
      assert (l.delivered + [l.queue[0]])[|before|..] == l.delivered[|before|..] + [l.queue[0]];
    }
  }

  lemma {:induction false} MovesShareOut(l: Line, moves: seq<Move>)
    requires l.batch == l.taken == []
    ensures SharedOut(l.delivered, AfterMoves(l, moves))
  {
    if moves != [] {
      MovesShareOut(l, moves[..|moves| - 1]);
      MoveSharesOut(l.delivered, AfterMoves(l, moves[..|moves| - 1]), moves[|moves| - 1]);
    }
  }

  lemma {:induction false} OtherMovesKeepBatch(l: Line, actions: seq<Action>)
    ensures AfterMoves(l, OtherMoves(actions)).batch == l.batch
  {
    if actions != [] {
      var p := actions[..|actions| - 1];
      OtherMovesKeepBatch(l, p);
      assert OtherMoves(actions)[..|actions| - 1] == OtherMoves(p);
    }
  }

  /** Left alone, a worker takes a prefix of the queue. */
  lemma {:induction false} MineTakesPrefix(l: Line, moves: seq<Move>)
    requires AllMine(moves)
    ensures AfterMoves(l, moves).batch + AfterMoves(l, moves).queue == l.batch + l.queue
  {
    if moves != [] {
      var p := moves[..|moves| - 1];
      var q := AfterMoves(l, p);
      MineTakesPrefix(l, p);
      if q.queue != [] {
        assert q.queue == [q.queue[0]] + q.queue[1..];
      }
    }
  }

  /** Where the line stands after the first j suspensions of a call that waits for its first item. */
  function Awaited(l: Line, before: seq<seq<Action>>, j: nat): Line
    requires j <= |before|
  {
    AfterMoves(l, OtherMoves(ActionsOfAll(before[..j])))
  }

  lemma AwaitedNext(l: Line, before: seq<seq<Action>>, j: nat)
    requires j < |before|
    ensures Awaited(l, before, j + 1) == AfterMoves(Awaited(l, before, j), OtherMoves(before[j]))
  {
    NextGroup(before, j);
    OtherMovesConcat(ActionsOfAll(before[..j]), before[j]);
    AfterMovesConcat(l, OtherMoves(ActionsOfAll(before[..j])), OtherMoves(before[j]));
  }

  /** A call is suspended exactly as long as it finds nothing queued. */
  ghost predicate WaitsWhileEmpty(l: Line, before: seq<seq<Action>>, used: nat) {
    && used <= |before|
    && (forall j :: 0 <= j < used ==> Awaited(l, before, j).queue == [])
    && (Awaited(l, before, used).queue == [] ==> used == |before|)
  }

  /** A batch being filled: the line r since l, with the first k waits behind it. */
  ghost predicate Filling(l: Line, moves: seq<Move>, r: Line, batch: seq<nat>, during: seq<Wait>, k: nat) {
    && r == AfterMoves(l, moves) && r.batch == batch
    && k <= |during| && ActionsIn(moves) == ActionsOfWaits(during[..k])
  }

  lemma FillingMine(l: Line, moves: seq<Move>, r: Line, batch: seq<nat>, during: seq<Wait>, k: nat)
    requires Filling(l, moves, r, batch, during, k) && r.queue != []
    ensures Filling(l, moves + [Mine], AfterMove(r, Mine), batch + [r.queue[0]], during, k)
    ensures AllMine(moves) ==> AllMine(moves + [Mine])
  {
    AfterOneMore(l, moves, Mine);
    MovesAfterMine(moves);
  }

  lemma FillingWait(l: Line, moves: seq<Move>, r: Line, batch: seq<nat>, during: seq<Wait>, k: nat,
                    k': nat, actions: seq<Action>)
    requires Filling(l, moves, r, batch, during, k)
    requires if k' == k then actions == [] else k' == k + 1 <= |during| && during[k] == Woken(actions)
    ensures Filling(l, moves + OtherMoves(actions), AfterMoves(r, OtherMoves(actions)), batch, during, k')
  {
    AfterMovesConcat(l, moves, OtherMoves(actions));
    MovesAfterWait(moves, actions);
    OtherMovesKeepBatch(r, actions);
    if k' > k {
      NextWait(during, k);
    }
  }

  /** How one batch came about: the line when something was found queued, the moves from then on, how many items were
      taken before the first check of the deadline, and the checks that passed. */
  datatype Trace = Trace(found: Line, moves: seq<Move>, first: nat, attempts: seq<Attempt>)

  /** The checks took the clock readings from `tick` on, one each, and each let this worker take one item at most. */
  ghost predicate OneEach(attempts: seq<Attempt>, tick: nat) {
    forall k :: 0 <= k < |attempts| ==> attempts[k].tick == tick + k && attempts[k].taken <= 1
  }

  /** The checks so far, `now` being the number of the next clock reading: without a timeout there are none. */
  ghost predicate Numbered(timeoutMs: nat, first: nat, attempts: seq<Attempt>, start: nat, now: nat) {
    && (timeoutMs == 0 ==> attempts == [])
    && (timeoutMs > 0 ==> first == 1 && OneEach(attempts, start + 1) && now == start + 1 + |attempts|)
  }

  lemma NumberedNext(timeoutMs: nat, waits: seq<Wait>, first: nat, attempts: seq<Attempt>, start: nat, now: nat)
    requires timeoutMs > 0 && Numbered(timeoutMs, first, attempts, start, now)
    ensures Numbered(timeoutMs, first, attempts + [Attempt(now, waits, 0)], start, now + 1)
  {
  }

  /** One more item taken: the first one after a check, unless there is no timeout. */
  lemma NumberedMine(timeoutMs: nat, first: nat, attempts: seq<Attempt>, start: nat, now: nat)
    requires Numbered(timeoutMs, first, attempts, start, now)
    requires timeoutMs > 0 ==> attempts != [] && attempts[|attempts| - 1].taken == 0
    ensures Numbered(timeoutMs, FirstAfter(first, attempts), AttemptsAfter(attempts), start, now)
  {
  }

  /** A batch being filled: the line, the moves so far, and the checks of the deadline among them. */
  datatype Fill = Fill(line: Line, moves: seq<Move>, first: nat, attempts: seq<Attempt>)

  ghost predicate Stage(timeFn: nat -> real, deadline: real, timeoutMs: nat, l: Line, f: Fill, batch: seq<nat>,
                        during: seq<Wait>, k: nat, start: nat, now: nat) {
    && Filling(l, f.moves, f.line, batch, during, k)
    && (timeoutMs == 0 ==> AllMine(f.moves))
    && Attempted(timeFn, deadline, f.moves, during[..k], f.first, f.attempts)
    && Numbered(timeoutMs, f.first, f.attempts, start, now)
  }

  /** Nothing has been taken since the last check. */
  predicate JustChecked(f: Fill) { f.attempts != [] && f.attempts[|f.attempts| - 1].taken == 0 }

  function Waited(f: Fill, tick: nat, waits: seq<Wait>, actions: seq<Action>): Fill {
    Fill(AfterMoves(f.line, OtherMoves(actions)), f.moves + OtherMoves(actions), f.first,
         f.attempts + [Attempt(tick, waits, 0)])
  }

  function TookOne(f: Fill): Fill {
    Fill(AfterMove(f.line, Mine), f.moves + [Mine], FirstAfter(f.first, f.attempts), AttemptsAfter(f.attempts))
  }

  lemma StageOfFirst(timeFn: nat -> real, deadline: real, timeoutMs: nat, l: Line, during: seq<Wait>, start: nat)
    requires l.batch == [] && l.queue != []
    ensures Stage(timeFn, deadline, timeoutMs, l, Fill(AfterMove(l, Mine), [Mine], 1, []), [l.queue[0]], during, 0,
                  start, start + 1)
  {
    assert during[..0] == [];
    FillingMine(l, [], l, [], during, 0);
    assert [] + [Mine] == [Mine] && [] + [l.queue[0]] == [l.queue[0]];
    assert Mines(1) == Mines(0) + [Mine] && Mines(1) + MovesOf([]) == [Mine];
  }

  lemma StageOfWait(timeFn: nat -> real, deadline: real, timeoutMs: nat, l: Line, f: Fill, batch: seq<nat>,
                    during: seq<Wait>, k: nat, k': nat, actions: seq<Action>, start: nat, now: nat)
    requires Stage(timeFn, deadline, timeoutMs, l, f, batch, during, k, start, now)
    requires timeoutMs > 0 && timeFn(now) < deadline
    requires if k' == k then actions == [] else k' == k + 1 <= |during| && during[k] == Woken(actions)
    ensures Stage(timeFn, deadline, timeoutMs, l, Waited(f, now, during[k..k'], actions), batch, during, k', start,
                  now + 1)
  {
    FillingWait(l, f.moves, f.line, batch, during, k, k', actions);
    WaitPassed(during, k, k', actions);
    AttemptedNext(timeFn, deadline, f.moves, during[..k], f.first, f.attempts, Attempt(now, during[k..k'], 0));
    NumberedNext(timeoutMs, during[k..k'], f.first, f.attempts, start, now);
  }

  lemma StageOfTake(timeFn: nat -> real, deadline: real, timeoutMs: nat, l: Line, f: Fill, batch: seq<nat>,
                    during: seq<Wait>, k: nat, start: nat, now: nat)
    requires Stage(timeFn, deadline, timeoutMs, l, f, batch, during, k, start, now)
    requires f.line.queue != [] && (timeoutMs > 0 ==> JustChecked(f))
    ensures Stage(timeFn, deadline, timeoutMs, l, TookOne(f), batch + [f.line.queue[0]], during, k, start, now)
  {
    FillingMine(l, f.moves, f.line, batch, during, k);
    AttemptedMine(timeFn, deadline, f.moves, during[..k], f.first, f.attempts);
    NumberedMine(timeoutMs, f.first, f.attempts, start, now);
  }

  class Scheduler {
    const timeFn: nat -> real // the k-th reading of perf_counter
    var ticks: nat
    var queue: seq<nat>
    ghost var submitted: seq<nat>
    ghost var delivered: seq<nat>

    /** Nothing is lost, duplicated or reordered. */
    ghost predicate Conserves()
      reads this
    {
      delivered + queue == submitted
    }

    /** The line describes this scheduler. */
    ghost predicate Shows(l: Line)
      reads this
    {
      l.queue == queue && l.delivered == delivered
    }

    constructor (timeFn: nat -> real)
      ensures Conserves() && queue == submitted == delivered == []
    {
      this.timeFn := timeFn;
      ticks := 0;
      queue, submitted, delivered := [], [], [];
    }

    method Submit(item: nat)
      requires Conserves()
      modifies this
      ensures Conserves() && queue == old(queue) + [item]
      ensures submitted == old(submitted) + [item] && delivered == old(delivered) && ticks == old(ticks)
    {
      queue := queue + [item];
      submitted := submitted + [item];
    }

    method GetNowait() returns (item: nat)
      requires Conserves() && queue != []
      modifies this
      ensures Conserves() && item == old(queue)[0] && queue == old(queue)[1..]
      ensures submitted == old(submitted) && delivered == old(delivered) + [item] && ticks == old(ticks)
    {
      item := queue[0];
      queue := queue[1..];
      delivered := delivered + [item];
    }

    /** One action of another task. */
    method PerformAction(a: Action, ghost l: Line) returns (ghost r: Line)
      requires Conserves() && Shows(l)
      modifies this
      ensures Conserves() && Shows(r) && r == AfterMove(l, Other(a)) && ticks == old(ticks)
    {
      match a {
        case Submission(_, item) => Submit(item);
        case Take => if queue != [] { var _ := GetNowait(); }
      }
      r := AfterMove(l, Other(a));
    }

    /** What other tasks do during one suspension. */
    method OtherTasks(actions: seq<Action>, ghost l: Line) returns (ghost r: Line)
      requires Conserves() && Shows(l)
      modifies this
      ensures Conserves() && Shows(r) && r == AfterMoves(l, OtherMoves(actions)) && ticks == old(ticks)
    {
      r := l;
      for k := 0 to |actions|
        invariant Conserves() && Shows(r) && r == AfterMoves(l, OtherMoves(actions[..k])) && ticks == old(ticks)
      {
        assert actions[..k + 1][..k] == actions[..k];
        AfterOneMore(l, OtherMoves(actions[..k]), Other(actions[k]));
        r := PerformAction(actions[k], r);
      }
      assert actions[..|actions|] == actions;
    }

    /** Waits until something is queued, or for ever when nothing ever is. */
    method AwaitItem(before: seq<seq<Action>>, ghost l: Line) returns (ghost r: Line, ghost used: nat)
      requires Conserves() && Shows(l)
      modifies this
      ensures Conserves() && Shows(r) && WaitsWhileEmpty(l, before, used) && r == Awaited(l, before, used)
      ensures ticks == old(ticks)
    {
      r := l;
      var k := 0;
      while queue == [] && k < |before|
        invariant k <= |before| && Conserves() && Shows(r) && r == Awaited(l, before, k)
        invariant forall j :: 0 <= j < k ==> Awaited(l, before, j).queue == []
        invariant ticks == old(ticks)
      {
        AwaitedNext(l, before, k);
        r := OtherTasks(before[k], r);
        k := k + 1;
      }
      used := k;
    }

    /** Forms one batch. `before` says what other tasks do at each suspension on an empty queue, `during` how each later
        wait ends. An empty batch means that the call is still suspended waiting for its first item. */
    method NextBatch(maxBatchSize: int, timeoutMs: nat, before: seq<seq<Action>>, during: seq<Wait>)
      returns (batch: seq<nat>, ghost tr: Trace, ghost used: nat, ghost filled: nat)
      requires Conserves()
      modifies this
      // the new state and the batch: exactly the moves of this worker and of the suspensions it went through
      ensures WaitsWhileEmpty(Line(old(queue), old(delivered), [], []), before, used)
      ensures tr.found == Awaited(Line(old(queue), old(delivered), [], []), before, used)
      ensures Shows(AfterMoves(tr.found, tr.moves)) && AfterMoves(tr.found, tr.moves).batch == batch
      ensures filled <= |during| && ActionsIn(tr.moves) == ActionsOfWaits(during[..filled])
      ensures Conserves()
      ensures submitted == old(submitted) + ItemsOf(ActionsOfAll(before[..used])) + ItemsOf(ActionsIn(tr.moves))
      // its size, and why it is short
      ensures batch == [] <==> tr.found.queue == []
      ensures |batch| <= 1 || |batch| <= maxBatchSize
      ensures timeoutMs == 0 ==> AllMine(tr.moves) && batch + queue == tr.found.queue
      ensures timeoutMs == 0 ==> batch == BuildBatch(tr.found.queue, AtLeastOne(maxBatchSize))
      ensures timeoutMs > 0 && 0 < |batch| < maxBatchSize ==>
                EndedAt(timeFn(old(ticks)) + timeoutMs as real / 1000.0, during, filled)
      // nothing is waited for or taken after the deadline: every wait, and every item but the first, has a clock
      // reading of its own before it that is below the first reading plus the timeout
      ensures Attempted(timeFn, timeFn(old(ticks)) + timeoutMs as real / 1000.0, tr.moves, during[..filled], tr.first,
                        tr.attempts)
      ensures timeoutMs > 0 ==> tr.first <= 1 && OneEach(tr.attempts, old(ticks) + 1)
    {
      ghost var l := Line(queue, delivered, [], []);
      batch, filled := [], 0;
      ghost var found, start := l, ticks;
      found, used := AwaitItem(before, l);
      OtherMovesKeepBatch(l, ActionsOfAll(before[..used]));
      tr := Trace(found, [], 0, []);
      assert during[..0] == [];
      if queue == [] {
        MovesConserve(l, OtherMoves(ActionsOfAll(before[..used])));
        ActionsInOtherMoves(ActionsOfAll(before[..used]));
        return;
      }
      ghost var f;
      batch, f, filled := FillBatch(maxBatchSize, timeoutMs, during, found);
      tr := Trace(found, f.moves, f.first, f.attempts);
      MovesConserve(l, OtherMoves(ActionsOfAll(before[..used])));
      ActionsInOtherMoves(ActionsOfAll(before[..used]));
      MovesConserve(found, tr.moves);
      if timeoutMs == 0 {
        MineTakesPrefix(found, tr.moves);
      }
    }

    /** The deadline had passed at the last clock reading, or nothing came in time for the wait at `filled`. */
    ghost predicate EndedAt(deadline: real, during: seq<Wait>, filled: nat)
      reads this
    {
      ticks > 0 && (deadline <= timeFn(ticks - 1) || (queue == [] && (filled >= |during| || during[filled].TimedOut?)))
    }

    /** Takes the first item, then fills the batch. */
    method FillBatch(maxBatchSize: int, timeoutMs: nat, during: seq<Wait>, ghost l: Line)
      returns (batch: seq<nat>, ghost f: Fill, ghost filled: nat)
      requires Conserves() && Shows(l) && l.batch == [] && queue != []
      modifies this
      ensures Conserves() && Shows(AfterMoves(l, f.moves)) && AfterMoves(l, f.moves).batch == batch
      ensures filled <= |during| && ActionsIn(f.moves) == ActionsOfWaits(during[..filled])
      ensures 0 < |batch| && (|batch| == 1 || |batch| <= maxBatchSize)
      ensures timeoutMs == 0 ==> AllMine(f.moves) && (|batch| < maxBatchSize ==> queue == [])
      ensures timeoutMs > 0 && |batch| < maxBatchSize ==>
                EndedAt(timeFn(old(ticks)) + timeoutMs as real / 1000.0, during, filled)
      ensures Attempted(timeFn, timeFn(old(ticks)) + timeoutMs as real / 1000.0, f.moves, during[..filled], f.first,
                        f.attempts)
      ensures timeoutMs > 0 ==> f.first == 1 && OneEach(f.attempts, old(ticks) + 1)
    {
      ghost var start := ticks;
      var first := GetNowait();
      batch, f := [first], Fill(AfterMove(l, Mine), [Mine], 1, []);
      var deadline := timeFn(ticks) + timeoutMs as real / 1000.0;
      ticks := ticks + 1;
      StageOfFirst(timeFn, deadline, timeoutMs, l, during, start);
      var k := 0;
      while |batch| < maxBatchSize
        invariant Conserves() && Shows(f.line) && ticks > 0
        invariant Stage(timeFn, deadline, timeoutMs, l, f, batch, during, k, start, ticks)
        invariant 0 < |batch| && (|batch| == 1 || |batch| <= maxBatchSize)
        decreases |during| - k, maxBatchSize - |batch|
      {
        if timeoutMs == 0 {
          if queue == [] {
            break;
          }
        } else {
          var awaited;
          awaited, k, f := CheckDeadline(deadline, timeoutMs, during, k, batch, l, f, start);
          if !awaited {
            break;
          }
        }
        if queue != [] {
          batch, f := TakeNext(deadline, timeoutMs, during, k, batch, l, f, start);
        }
      }
      filled := k;
    }

    /** One check of the deadline, with the wait that follows it. */
    method CheckDeadline(deadline: real, timeoutMs: nat, during: seq<Wait>, k: nat, ghost batch: seq<nat>,
                         ghost l: Line, ghost f: Fill, ghost start: nat)
      returns (awaited: bool, k': nat, ghost f': Fill)
      requires Conserves() && Shows(f.line) && timeoutMs > 0
      requires Stage(timeFn, deadline, timeoutMs, l, f, batch, during, k, start, ticks)
      modifies this
      ensures Conserves() && Shows(f'.line) && ticks == old(ticks) + 1
      ensures awaited ==> Stage(timeFn, deadline, timeoutMs, l, f', batch, during, k', start, ticks) && JustChecked(f')
      ensures !awaited ==> f' == f && k' == k && EndedAt(deadline, during, k)
      ensures if awaited && old(queue) == [] then k' == k + 1 <= |during| else k' == k && queue == old(queue)
    {
      ghost var actions;
      awaited, k', actions := AwaitNext(deadline, during, k, f.line);
      f' := f;
      if awaited {
        f' := Waited(f, ticks - 1, during[k..k'], actions);
        StageOfWait(timeFn, deadline, timeoutMs, l, f, batch, during, k, k', actions, start, ticks - 1);
      }
    }

    /** One more item for the batch. */
    method TakeNext(ghost deadline: real, ghost timeoutMs: nat, ghost during: seq<Wait>, ghost k: nat,
                    batch: seq<nat>, ghost l: Line, ghost f: Fill, ghost start: nat)
      returns (batch': seq<nat>, ghost f': Fill)
      requires Conserves() && Shows(f.line) && queue != [] && (timeoutMs > 0 ==> JustChecked(f))
      requires Stage(timeFn, deadline, timeoutMs, l, f, batch, during, k, start, ticks)
      modifies this
      ensures Conserves() && Shows(f'.line) && ticks == old(ticks) && batch' == batch + [old(queue)[0]]
      ensures Stage(timeFn, deadline, timeoutMs, l, f', batch', during, k, start, ticks)
    {
      StageOfTake(timeFn, deadline, timeoutMs, l, f, batch, during, k, start, ticks);
      var next := GetNowait();
      batch', f' := batch + [next], TookOne(f);
    }

    /** One wait of the filling loop. It fails when the deadline has passed, even if something is queued; otherwise it
        succeeds at once when something is queued, and is else woken by what other tasks do, or by the deadline. */
    method AwaitNext(deadline: real, during: seq<Wait>, k: nat, ghost l: Line)
      returns (awaited: bool, k': nat, ghost actions: seq<Action>)
      requires Conserves() && Shows(l) && k <= |during|
      modifies this
      ensures Conserves() && Shows(AfterMoves(l, OtherMoves(actions))) && ticks == old(ticks) + 1
      ensures awaited <==> timeFn(old(ticks)) < deadline && (old(queue) != [] || (k < |during| && during[k].Woken?))
      ensures if awaited && old(queue) == [] then k' == k + 1 && during[k] == Woken(actions)
              else k' == k && actions == [] && queue == old(queue)
    {
      var remaining := deadline - timeFn(ticks);
      ticks := ticks + 1;
      awaited, k', actions := remaining > 0.0, k, [];
      if awaited && queue == [] {
        awaited := k < |during| && during[k].Woken?;
        if awaited {
          actions := during[k].actions;
          ghost var _ := OtherTasks(during[k].actions, l);
          k' := k + 1;
        }
      }
    }

    method Size() returns (n: nat)
      requires Conserves()
      ensures n == |submitted| - |delivered|
    {
      n := |queue|;
    }
  }
}
