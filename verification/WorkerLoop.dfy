/** The worker loop over the FIFO scheduler: it forms a batch and records its size
    (src/llm_runtime/workers/manager.py, src/llm_runtime/scheduler/fifo.py). */
module WorkerLoop {
  import opened Moves
  import opened Ordering
  import F = FifoScheduler
  import Snapshots

  /** A queue, what each worker holds in a batch still being formed, and the sizes recorded so far. */
  datatype Pool = Pool(queue: seq<nat>, forming: seq<seq<nat>>, sizes: seq<nat>)

  /** A submission; worker w takes the oldest item; worker w has its batch and records its size. Whatever decides
      when a worker stops filling (size, deadline or empty queue), its steps are these. */
  datatype Event = Submit(item: nat) | Grab(w: nat) | Record(w: nat)

  function Step(p: Pool, ev: Event): Pool {
    match ev
    case Submit(item) => p.(queue := p.queue + [item])
    case Grab(w) =>
      if w >= |p.forming| || p.queue == [] then p
      else p.(queue := p.queue[1..], forming := p.forming[w := p.forming[w] + [p.queue[0]]])
    case Record(w) =>
      if w >= |p.forming| || p.forming[w] == [] then p
      else p.(forming := p.forming[w := []], sizes := p.sizes + [|p.forming[w]|])
  }

  function Run(p: Pool, evs: seq<Event>): Pool
    decreases |evs|
  {
    if evs == [] then p else Step(Run(p, evs[..|evs| - 1]), evs[|evs| - 1])
  }

  function NoneForming(workers: nat): (forming: seq<seq<nat>>)
    ensures |forming| == workers && forall k :: 0 <= k < workers ==> forming[k] == []
  {
    if workers == 0 then [] else NoneForming(workers - 1) + [[]]
  }

  function Start(workers: nat): Pool { Pool([], NoneForming(workers), []) }

  function Submitted(evs: seq<Event>): seq<nat> {
    if evs == [] then []
    else
      var ev := evs[|evs| - 1];
      Submitted(evs[..|evs| - 1]) + if ev.Submit? then [ev.item] else []
  }

  function Held(forming: seq<seq<nat>>): nat {
    if forming == [] then 0 else Held(forming[..|forming| - 1]) + |forming[|forming| - 1]|
  }

  lemma {:induction false} HeldUpdate(forming: seq<seq<nat>>, w: nat, batch: seq<nat>)
    requires w < |forming|
    ensures Held(forming[w := batch]) == Held(forming) - |forming[w]| + |batch|
  {
    var n := |forming| - 1;
    if w < n {
      HeldUpdate(forming[..n], w, batch);
      assert forming[w := batch][..n] == forming[..n][w := batch];
    } else {
      assert forming[w := batch][..n] == forming[..n];
    }
  }

  lemma {:induction false} NoneHeld(workers: nat)
    ensures Held(NoneForming(workers)) == 0
  {
    if workers > 0 {
      NoneHeld(workers - 1);
      assert NoneForming(workers)[..workers - 1] == NoneForming(workers - 1);
    }
  }

  lemma StepBalances(p: Pool, ev: Event)
    ensures var q := Step(p, ev);
            Snapshots.Sum(q.sizes) + Held(q.forming) + |q.queue| ==
            Snapshots.Sum(p.sizes) + Held(p.forming) + |p.queue| + if ev.Submit? then 1 else 0
  {
    match ev {
      case Submit(_) =>
      case Grab(w) =>
        if w < |p.forming| && p.queue != [] { HeldUpdate(p.forming, w, p.forming[w] + [p.queue[0]]); }
      case Record(w) =>
        if w < |p.forming| && p.forming[w] != [] {
          HeldUpdate(p.forming, w, []);
          assert (p.sizes + [|p.forming[w]|])[..|p.sizes|] == p.sizes;
        }
    }
  }

  /** After every run of any number of workers: recorded sizes, items in batches being formed, and the queue
      add up to the submissions. */
  lemma {:induction false} SizesAccountForSubmissions(workers: nat, evs: seq<Event>)
    ensures var p := Run(Start(workers), evs);
            Snapshots.Sum(p.sizes) + Held(p.forming) + |p.queue| == |Submitted(evs)|
  {
    if evs == [] {
      NoneHeld(workers);
    } else {
      SizesAccountForSubmissions(workers, evs[..|evs| - 1]);
      StepBalances(Run(Start(workers), evs[..|evs| - 1]), evs[|evs| - 1]);
    }
  }

  lemma {:induction false} RunConcat(p: Pool, x: seq<Event>, y: seq<Event>)
    ensures Run(p, x + y) == Run(Run(p, x), y)
  {
    if y == [] {
      assert x + y == x;
    } else {
      assert (x + y)[..|x + y| - 1] == x + y[..|y| - 1];
      RunConcat(p, x, y[..|y| - 1]);
    }
  }

  lemma {:induction false} SubmittedConcat(x: seq<Event>, y: seq<Event>)
    ensures Submitted(x + y) == Submitted(x) + Submitted(y)
  {
    if y == [] {
      assert x + y == x;
    } else {
      assert (x + y)[..|x + y| - 1] == x + y[..|y| - 1];
      SubmittedConcat(x, y[..|y| - 1]);
    }
  }

  // ---------------------------------------------------------------------
  // One worker's loop: worker 0, with all other workers as worker 1.

  function EventOf(m: Move): Event {
    match m
    case Mine => Grab(0)
    case Other(Take) => Grab(1)
    case Other(Submission(_, item)) => Submit(item)
  }

  function EventsOf(moves: seq<Move>): (evs: seq<Event>)
    ensures |evs| == |moves| && forall k :: 0 <= k < |moves| ==> evs[k] == EventOf(moves[k])
  {
    if moves == [] then [] else EventsOf(moves[..|moves| - 1]) + [EventOf(moves[|moves| - 1])]
  }

  /** The pool as this worker's line, when the others had taken `taken` before. */
  ghost predicate Views(p: Pool, l: F.Line, taken: seq<nat>) {
    |p.forming| == 2 && p.queue == l.queue && p.forming[0] == l.batch && p.forming[1] == taken + l.taken
  }

  lemma MoveInPool(p: Pool, l: F.Line, taken: seq<nat>, m: Move)
    requires Views(p, l, taken)
    ensures Views(Step(p, EventOf(m)), F.AfterMove(l, m), taken) && Step(p, EventOf(m)).sizes == p.sizes
  {
    if p.queue != [] {
      assert taken + l.taken + [p.queue[0]] == taken + (l.taken + [p.queue[0]]);
    }
  }

  lemma {:induction false} MovesInPool(p: Pool, l: F.Line, taken: seq<nat>, moves: seq<Move>)
    requires Views(p, l, taken)
    ensures Views(Run(p, EventsOf(moves)), F.AfterMoves(l, moves), taken)
    ensures Run(p, EventsOf(moves)).sizes == p.sizes
  {
    if moves != [] {
      var n := |moves| - 1;
      MovesInPool(p, l, taken, moves[..n]);
      MoveInPool(Run(p, EventsOf(moves[..n])), F.AfterMoves(l, moves[..n]), taken, moves[n]);
      assert EventsOf(moves)[..n] == EventsOf(moves[..n]);
    }
  }

  lemma {:induction false} SubmittedByMoves(moves: seq<Move>)
    ensures Submitted(EventsOf(moves)) == ItemsOf(ActionsIn(moves))
  {
    if moves != [] {
      var n := |moves| - 1;
      SubmittedByMoves(moves[..n]);
      assert EventsOf(moves)[..n] == EventsOf(moves[..n]);
      ItemsOfOneMore(moves[..n], moves[n]);
      assert moves == moves[..n] + [moves[n]];
    }
  }

  /** The state between two turns of the loop: this worker holds nothing, and everything else agrees. */
  ghost predicate Between(p: Pool, queue: seq<nat>, sizes: seq<nat>) {
    |p.forming| == 2 && p.forming[0] == [] && p.queue == queue && p.sizes == sizes
  }

  lemma HeldOfTwo(forming: seq<seq<nat>>)
    requires |forming| == 2
    ensures Held(forming) == |forming[0]| + |forming[1]|
  {
    assert forming[..1][..0] == [];
    assert Held(forming[..1]) == Held(forming[..1][..0]) + |forming[0]|;
  }

  lemma ActionsOfTurn(waited: seq<Action>, moves: seq<Move>)
    ensures ItemsOf(ActionsIn(OtherMoves(waited) + moves)) == ItemsOf(waited) + ItemsOf(ActionsIn(moves))
  {
    ActionsInConcat(OtherMoves(waited), moves);
    ActionsInOtherMoves(waited);
    ItemsOfConcat(waited, ActionsIn(moves));
  }

  /** The run `evs` has led to this queue, these submissions and this log. */
  ghost predicate InStep(evs: seq<Event>, queue: seq<nat>, submitted: seq<nat>, sizes: seq<nat>) {
    && Between(Run(Start(2), evs), queue, sizes) && Submitted(evs) == submitted
    && Held(Run(Start(2), evs).forming) == |Run(Start(2), evs).forming[1]|
  }

  /** What other workers have taken. */
  ghost function TakenInStep(evs: seq<Event>): seq<nat> {
    var p := Run(Start(2), evs);
    if |p.forming| == 2 then p.forming[1] else []
  }

  lemma NoneInStep()
    ensures InStep([], [], [], []) && TakenInStep([]) == []
  {
    HeldOfTwo(Start(2).forming);
  }

  lemma RecordInPool(q: Pool, batch: seq<nat>)
    requires |q.forming| == 2 && q.forming[0] == batch
    ensures var p := Run(q, [Record(0)]);
            && Between(p, q.queue, if batch == [] then q.sizes else q.sizes + [|batch|])
            && p.forming[1] == q.forming[1] && Held(p.forming) == |p.forming[1]|
  {
    assert [Record(0)][..0] == [];
    HeldOfTwo(Run(q, [Record(0)]).forming);
  }

  lemma SubmittedInTurn(moves: seq<Move>)
    ensures Submitted(EventsOf(moves) + [Record(0)]) == ItemsOf(ActionsIn(moves))
  {
    SubmittedByMoves(moves);
    assert (EventsOf(moves) + [Record(0)])[..|moves|] == EventsOf(moves);
  }

  lemma TurnInPool(evs: seq<Event>, queue: seq<nat>, delivered: seq<nat>, submitted: seq<nat>, sizes: seq<nat>,
                   moves: seq<Move>, r: F.Line, submitted': seq<nat>)
    returns (evs': seq<Event>)
    requires InStep(evs, queue, submitted, sizes)
    requires r == F.AfterMoves(F.Line(queue, delivered, [], []), moves)
    requires submitted' == submitted + ItemsOf(ActionsIn(moves))
    ensures InStep(evs', r.queue, submitted', if r.batch == [] then sizes else sizes + [|r.batch|])
    ensures TakenInStep(evs') == TakenInStep(evs) + r.taken
  {
    var p := Run(Start(2), evs);
    var more := EventsOf(moves) + [Record(0)];
    MovesInPool(p, F.Line(queue, delivered, [], []), p.forming[1], moves);
    RecordInPool(Run(p, EventsOf(moves)), r.batch);
    evs' := evs + more;
    RunConcat(Start(2), evs, more);
    RunConcat(p, EventsOf(moves), [Record(0)]);
    SubmittedConcat(evs, more);
    SubmittedInTurn(moves);
  }

  lemma MovesOfTurn(queue: seq<nat>, delivered: seq<nat>, submitted: seq<nat>, before: seq<seq<Action>>, used: nat,
                    tr: F.Trace, r: F.Line, submitted': seq<nat>)
    returns (moves: seq<Move>)
    requires used <= |before| && tr.found == F.Awaited(F.Line(queue, delivered, [], []), before, used)
    requires r == F.AfterMoves(tr.found, tr.moves)
    requires submitted' == submitted + ItemsOf(ActionsOfAll(before[..used])) + ItemsOf(ActionsIn(tr.moves))
    ensures r == F.AfterMoves(F.Line(queue, delivered, [], []), moves)
    ensures submitted' == submitted + ItemsOf(ActionsIn(moves))
  {
    var actions := ActionsOfAll(before[..used]);
    moves := OtherMoves(actions) + tr.moves;
    assert submitted' == submitted + ItemsOf(ActionsIn(moves)) by {
      ActionsOfTurn(actions, tr.moves);
      Regroup(submitted, ItemsOf(actions), ItemsOf(ActionsIn(tr.moves)));
    }
    assert r == F.AfterMoves(F.Line(queue, delivered, [], []), moves) by {
      F.AfterMovesConcat(F.Line(queue, delivered, [], []), OtherMoves(actions), tr.moves);
    }
  }

  lemma TurnKeepsInStep(evs: seq<Event>, queue: seq<nat>, delivered: seq<nat>, submitted: seq<nat>, sizes: seq<nat>,
                        before: seq<seq<Action>>, used: nat, tr: F.Trace, r: F.Line, submitted': seq<nat>)
    returns (evs': seq<Event>)
    requires InStep(evs, queue, submitted, sizes) && used <= |before|
    requires tr.found == F.Awaited(F.Line(queue, delivered, [], []), before, used)
    requires r == F.AfterMoves(tr.found, tr.moves)
    requires submitted' == submitted + ItemsOf(ActionsOfAll(before[..used])) + ItemsOf(ActionsIn(tr.moves))
    ensures InStep(evs', r.queue, submitted', if r.batch == [] then sizes else sizes + [|r.batch|])
    ensures TakenInStep(evs') == TakenInStep(evs) + r.taken
  {
    var moves := MovesOfTurn(queue, delivered, submitted, before, used, tr, r, submitted');
    evs' := TurnInPool(evs, queue, delivered, submitted, sizes, moves, r, submitted');
  }

  /** What other tasks do during one `next_batch` call. */
  datatype Turn = Turn(before: seq<seq<Action>>, during: seq<Wait>)

  ghost predicate OnlySubmissions(actions: seq<Action>) { forall a :: a in actions ==> a.Submission? }

  /** No other worker takes anything meanwhile. */
  ghost predicate Alone(t: Turn) {
    && (forall j :: 0 <= j < |t.before| ==> OnlySubmissions(t.before[j]))
    && (forall j :: 0 <= j < |t.during| && t.during[j].Woken? ==> OnlySubmissions(t.during[j].actions))
  }

  lemma {:induction false} AloneActions(t: Turn, j: nat, k: nat)
    requires Alone(t) && j <= |t.before| && k <= |t.during|
    ensures OnlySubmissions(ActionsOfAll(t.before[..j])) && OnlySubmissions(ActionsOfWaits(t.during[..k]))
    decreases j + k
  {
    if j > 0 {
      AloneActions(t, j - 1, k);
      NextGroup(t.before, j - 1);
    } else if k > 0 {
      AloneActions(t, j, k - 1);
      assert t.before[..0] == [];
      assert t.during[..k][..k - 1] == t.during[..k - 1];
    } else {
      assert t.before[..0] == [] && t.during[..0] == [];
    }
  }

  lemma {:induction false} NobodyTakes(l: F.Line, moves: seq<Move>)
    requires OnlySubmissions(ActionsIn(moves))
    ensures F.AfterMoves(l, moves).taken == l.taken
  {
    if moves != [] {
      var p, m := moves[..|moves| - 1], moves[|moves| - 1];
      assert OnlySubmissions(ActionsIn(p)) && (m.Other? ==> m.action in ActionsIn(moves));
      NobodyTakes(l, p);
    }
  }

  lemma NobodyTakesInTurn(t: Turn, l: F.Line, used: nat, tr: F.Trace, filled: nat)
    requires Alone(t) && l.taken == [] && used <= |t.before| && filled <= |t.during|
    requires tr.found == F.Awaited(l, t.before, used) && ActionsIn(tr.moves) == ActionsOfWaits(t.during[..filled])
    ensures F.AfterMoves(tr.found, tr.moves).taken == []
  {
    AloneActions(t, used, filled);
    ActionsInOtherMoves(ActionsOfAll(t.before[..used]));
    NobodyTakes(l, OtherMoves(ActionsOfAll(t.before[..used])));
    NobodyTakes(tr.found, tr.moves);
  }

  /** One batch: the run is extended by this worker's moves, those of other tasks, and the record of its size. */
  method TakeBatch(fs: F.Scheduler, maxBatchSize: int, timeoutMs: nat, turn: Turn, ghost evs: seq<Event>,
                   ghost sizes: seq<nat>)
    returns (batch: seq<nat>, ghost evs': seq<Event>)
    requires fs.Conserves() && InStep(evs, fs.queue, fs.submitted, sizes)
    modifies fs
    ensures fs.Conserves()
    ensures InStep(evs', fs.queue, fs.submitted, if batch == [] then sizes else sizes + [|batch|])
    ensures |batch| <= AtLeastOne(maxBatchSize)
    ensures Alone(turn) ==> TakenInStep(evs') == TakenInStep(evs)
  {
    ghost var queue, delivered, submitted := fs.queue, fs.delivered, fs.submitted;
    ghost var tr, used, filled;
    batch, tr, used, filled := fs.NextBatch(maxBatchSize, timeoutMs, turn.before, turn.during);
    evs' := TurnKeepsInStep(evs, queue, delivered, submitted, sizes, turn.before, used, tr,
                            F.AfterMoves(tr.found, tr.moves), fs.submitted);
    if Alone(turn) {
      NobodyTakesInTurn(turn, F.Line(queue, delivered, [], []), used, tr, filled);
    }
  }

  /** The loop, started on a fresh scheduler and a fresh log, for as many turns as are given or until a call stays
      suspended for ever. Executing the batches is left out: it uses neither the scheduler nor the log. */
  method Loop(fs: F.Scheduler, log: Snapshots.BatchLog, maxBatchSize: int, timeoutMs: nat, turns: seq<Turn>)
    returns (ghost evs: seq<Event>)
    requires fs.Conserves() && fs.submitted == [] && log.Valid() && log.batchSizes == []
    modifies fs, log
    ensures fs.Conserves() && log.Valid() && InStep(evs, fs.queue, fs.submitted, log.batchSizes)
    ensures Snapshots.Sum(log.batchSizes) + |TakenInStep(evs)| + |fs.queue| == |fs.submitted|
    ensures (forall j :: 0 <= j < |turns| ==> Alone(turns[j])) ==>
              Snapshots.Sum(log.batchSizes) + |fs.queue| == |fs.submitted|
    ensures forall size :: size in log.batchSizes ==> 1 <= size <= AtLeastOne(maxBatchSize)
  {
    evs := [];
    NoneInStep();
    var k := 0;
    while k < |turns|
      invariant fs.Conserves() && log.Valid() && InStep(evs, fs.queue, fs.submitted, log.batchSizes)
      invariant forall size :: size in log.batchSizes ==> 1 <= size <= AtLeastOne(maxBatchSize)
      invariant (forall j :: 0 <= j < |turns| ==> Alone(turns[j])) ==> TakenInStep(evs) == []
    {
      var batch;
      batch, evs := TakeBatch(fs, maxBatchSize, timeoutMs, turns[k], evs, log.batchSizes);
      if batch == [] {
        break;
      }
      log.RecordBatch(|batch|);
      k := k + 1;
    }
    SizesAccountForSubmissions(2, evs);
  }
}
