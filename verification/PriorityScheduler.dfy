/** The priority scheduler object (src/llm_runtime/scheduler/priority.py). Every method is proved
    to perform a timely run of the machine in module Aging. */
module PriorityScheduler {
  import opened Aging
  import opened Moves
  import opened Ordering

  ghost predicate ClockMovesForward(timeFn: nat -> real) {
    forall i: nat, j: nat :: i <= j ==> timeFn(i) <= timeFn(j)
  }

  /** The machine, and since some point on: what this worker has dequeued into its batch, and what other workers
      have taken. */
  datatype Play = Play(s: Sched, batch: seq<Queued>, taken: seq<Queued>)

  function OpOf(m: Move, now: real): Op {
    match m
    case Other(Submission(priority, item)) => Op.Submit(priority, item, now)
    case _ => Pop(now)
  }

  function AfterMove(interval: real, p: Play, m: Move, now: real): Play {
    var t := Step(interval, p.s, OpOf(m, now));
    match m
    case Other(Submission(_, _)) => p.(s := t)
    case Mine => if p.s.items == [] then p else p.(s := t, batch := p.batch + [t.out[|t.out| - 1]])
    case Other(Take) => if p.s.items == [] then p else p.(s := t, taken := p.taken + [t.out[|t.out| - 1]])
  }

  function AfterMoves(interval: real, p: Play, moves: seq<Move>, times: seq<real>): Play
    requires |moves| == |times|
    decreases |moves|
  {
    if moves == [] then p
    else
      var n := |moves| - 1;
      AfterMove(interval, AfterMoves(interval, p, moves[..n], times[..n]), moves[n], times[n])
  }

  /** The run of the machine that the moves make up. */
  function OpsOf(moves: seq<Move>, times: seq<real>): (ops: seq<Op>)
    requires |moves| == |times|
    ensures |ops| == |moves| && forall k :: 0 <= k < |ops| ==> ops[k] == OpOf(moves[k], times[k])
  {
    if moves == [] then []
    else
      var n := |moves| - 1;
      OpsOf(moves[..n], times[..n]) + [OpOf(moves[n], times[n])]
  }

  /** From p to r by these moves, made at these clock readings, which lie between start and end and never go back. */
  ghost predicate Plays(interval: real, p: Play, moves: seq<Move>, times: seq<real>, r: Play, start: real, end: real) {
    && |moves| == |times| && r == AfterMoves(interval, p, moves, times)
    && Timely(start, OpsOf(moves, times), end)
  }

  lemma PlaysNothing(interval: real, p: Play, start: real, end: real)
    requires start <= end
    ensures Plays(interval, p, [], [], p, start, end)
  {
  }

  lemma PlaysOne(interval: real, p: Play, m: Move, now: real, end: real)
    requires now <= end
    ensures Plays(interval, p, [m], [now], AfterMove(interval, p, m, now), now, end)
  {
    assert [m][..0] == [] && [now][..0] == [];
    assert OpsOf([m], [now])[..0] == [];
    assert AfterMoves(interval, p, [m][..0], [now][..0]) == p;
  }

  lemma AfterOneMore(interval: real, p: Play, moves: seq<Move>, times: seq<real>, m: Move, now: real)
    requires |moves| == |times|
    ensures AfterMoves(interval, p, moves + [m], times + [now]) ==
            AfterMove(interval, AfterMoves(interval, p, moves, times), m, now)
  {
    assert (moves + [m])[..|moves|] == moves && (times + [now])[..|moves|] == times;
  }

  lemma {:induction false} AfterMovesConcat(interval: real, p: Play, m1: seq<Move>, t1: seq<real>, m2: seq<Move>,
                                            t2: seq<real>)
    requires |m1| == |t1| && |m2| == |t2|
    ensures AfterMoves(interval, p, m1 + m2, t1 + t2) == AfterMoves(interval, AfterMoves(interval, p, m1, t1), m2, t2)
    decreases |m2|
  {
    if m2 == [] {
      assert m1 + m2 == m1 && t1 + t2 == t1;
    } else {
      var n := |m2| - 1;
      var m, t, m', t' := m2[..n], t2[..n], m2[n], t2[n];
      assert m2 == m + [m'] && t2 == t + [t'];
      AfterMovesConcat(interval, p, m1, t1, m, t);
      AfterOneMore(interval, p, m1 + m, t1 + t, m', t');
      AfterOneMore(interval, AfterMoves(interval, p, m1, t1), m, t, m', t');
      assert m1 + m2 == m1 + m + [m'] && t1 + t2 == t1 + t + [t'];
    }
  }

  lemma {:induction false} TimelyConcat(start: real, p: seq<Op>, mid: real, mid': real, q: seq<Op>, end: real)
    requires Timely(start, p, mid) && mid <= mid' && Timely(mid', q, end)
    ensures Timely(start, p + q, end)
  {
    if q == [] {
      assert p + q == p;
    } else {
      TimelyConcat(start, p, mid, mid', q[..|q| - 1], q[|q| - 1].now);
      assert (p + q)[..|p + q| - 1] == p + q[..|q| - 1];
    }
  }

  lemma PlaysThen(interval: real, p: Play, m1: seq<Move>, t1: seq<real>, q: Play, start: real, mid: real,
                  m2: seq<Move>, t2: seq<real>, r: Play, mid': real, end: real)
    requires Plays(interval, p, m1, t1, q, start, mid) && mid <= mid' && Plays(interval, q, m2, t2, r, mid', end)
    ensures Plays(interval, p, m1 + m2, t1 + t2, r, start, end)
  {
    AfterMovesConcat(interval, p, m1, t1, m2, t2);
    TimelyConcat(start, OpsOf(m1, t1), mid, mid', OpsOf(m2, t2), end);
    assert OpsOf(m1 + m2, t1 + t2) == OpsOf(m1, t1) + OpsOf(m2, t2);
  }

  // ---------------------------------------------------------------------
  // What follows from a play, whoever moves.

  /** The machine makes exactly this run, so every theorem of module Aging applies. */
  lemma {:induction false} PlayIsARun(interval: real, p: Play, moves: seq<Move>, times: seq<real>)
    requires |moves| == |times|
    ensures AfterMoves(interval, p, moves, times).s == Run(interval, p.s, OpsOf(moves, times))
  {
    if moves != [] {
      var n := |moves| - 1;
      PlayIsARun(interval, p, moves[..n], times[..n]);
      assert OpsOf(moves, times)[..n] == OpsOf(moves[..n], times[..n]);
    }
  }

  /** Its submissions are those of the other tasks. */
  lemma {:induction false} SubmittedInPlay(moves: seq<Move>, times: seq<real>)
    requires |moves| == |times|
    ensures SubmittedItems(OpsOf(moves, times)) == ItemsOf(ActionsIn(moves))
  {
    if moves != [] {
      var n := |moves| - 1;
      SubmittedInPlay(moves[..n], times[..n]);
      assert OpsOf(moves, times)[..n] == OpsOf(moves[..n], times[..n]);
      assert moves == moves[..n] + [moves[n]];
      ItemsOfOneMore(moves[..n], moves[n]);
    }
  }

  /** Since `before` was dequeued, this worker and the others have shared out everything dequeued, each in order. */
  ghost predicate SharedOut(before: seq<Queued>, p: Play) {
    before <= p.s.out && Interleaves(p.s.out[|before|..], p.taken, p.batch)
  }

  lemma MoveSharesOut(interval: real, before: seq<Queued>, p: Play, m: Move, now: real)
    requires SharedOut(before, p)
    ensures SharedOut(before, AfterMove(interval, p, m, now))
  {
    var t := Step(interval, p.s, Pop(now));
    if p.s.items != [] && !(m.Other? && m.action.Submission?) {
      var x := t.out[|t.out| - 1];
      InterleavesOne(p.s.out[|before|..], p.taken, p.batch, x);
      assert t.out[|before|..] == p.s.out[|before|..] + [x];
    }
  }

  lemma {:induction false} MovesShareOut(interval: real, p: Play, moves: seq<Move>, times: seq<real>)
    requires |moves| == |times| && p.batch == p.taken == []
    ensures SharedOut(p.s.out, AfterMoves(interval, p, moves, times))
  {
    if moves != [] {
      var n := |moves| - 1;
      MovesShareOut(interval, p, moves[..n], times[..n]);
      MoveSharesOut(interval, p.s.out, AfterMoves(interval, p, moves[..n], times[..n]), moves[n], times[n]);
    }
  }

  lemma {:induction false} OtherMovesKeepBatch(interval: real, p: Play, actions: seq<Action>, times: seq<real>)
    requires |actions| == |times|
    ensures AfterMoves(interval, p, OtherMoves(actions), times).batch == p.batch
  {
    if actions != [] {
      var n := |actions| - 1;
      OtherMovesKeepBatch(interval, p, actions[..n], times[..n]);
      assert OtherMoves(actions)[..n] == OtherMoves(actions[..n]);
    }
  }

  // ---------------------------------------------------------------------
  // One batch.

  /** The state after the first j suspensions of a call that waits for its first item. */
  ghost function Awaited(interval: real, p: Play, before: seq<seq<Action>>, times: seq<real>, j: nat): Play
    requires j <= |before|
  {
    var moves := OtherMoves(ActionsOfAll(before[..j]));
    if |moves| <= |times| then AfterMoves(interval, p, moves, times[..|moves|]) else p
  }

  lemma {:induction false} GroupsGrow(before: seq<seq<Action>>, j: nat, k: nat)
    requires j <= k <= |before|
    ensures |ActionsOfAll(before[..j])| <= |ActionsOfAll(before[..k])|
    decreases k
  {
    if j < k {
      GroupsGrow(before, j, k - 1);
      NextGroup(before, k - 1);
    }
  }

  lemma AwaitedSoFar(interval: real, p: Play, before: seq<seq<Action>>, times: seq<real>, more: seq<real>, j: nat,
                     k: nat)
    requires j <= k <= |before| && |times| == |ActionsOfAll(before[..k])|
    ensures Awaited(interval, p, before, times + more, j) == Awaited(interval, p, before, times, j)
  {
    GroupsGrow(before, j, k);
    var n := |ActionsOfAll(before[..j])|;
    assert (times + more)[..n] == times[..n];
  }

  /** After k suspensions, on an empty queue each, the play has come from p to r. */
  ghost predicate Waiting(interval: real, p: Play, before: seq<seq<Action>>, times: seq<real>, k: nat, r: Play,
                          start: real, end: real) {
    && k <= |before|
    && Plays(interval, p, OtherMoves(ActionsOfAll(before[..k])), times, r, start, end)
    && forall j :: 0 <= j < k ==> Awaited(interval, p, before, times, j).s.items == []
  }

  lemma WaitingMore(interval: real, p: Play, before: seq<seq<Action>>, times: seq<real>, k: nat, r: Play, start: real,
                    now: real, more: seq<real>, r': Play, end: real)
    requires Waiting(interval, p, before, times, k, r, start, now) && k < |before| && r.s.items == []
    requires Plays(interval, r, OtherMoves(before[k]), more, r', now, end)
    ensures Waiting(interval, p, before, times + more, k + 1, r', start, end)
  {
    var moves := OtherMoves(ActionsOfAll(before[..k]));
    NextGroup(before, k);
    OtherMovesConcat(ActionsOfAll(before[..k]), before[k]);
    PlaysThen(interval, p, moves, times, r, start, now, OtherMoves(before[k]), more, r', now, end);
    EmptySoFar(interval, p, before, times, k, r, start, now, more);
  }

  lemma EmptySoFar(interval: real, p: Play, before: seq<seq<Action>>, times: seq<real>, k: nat, r: Play, start: real,
                   now: real, more: seq<real>)
    requires Waiting(interval, p, before, times, k, r, start, now) && r.s.items == []
    ensures forall j :: 0 <= j < k + 1 ==> Awaited(interval, p, before, times + more, j).s.items == []
  {
    forall j | 0 <= j < k + 1 ensures Awaited(interval, p, before, times + more, j).s.items == [] {
      AwaitedSoFar(interval, p, before, times, more, j, k);
      if j == k {
        assert times[..|times|] == times;
      }
    }
  }

  lemma WaitingNot(interval: real, p: Play, before: seq<seq<Action>>, start: real)
    ensures Waiting(interval, p, before, [], 0, p, start, start)
  {
    PlaysNothing(interval, p, start, start);
    assert before[..0] == [];
  }

  /** A batch being filled: the play r since p, with the first k waits behind it. */
  ghost predicate Filling(interval: real, p: Play, moves: seq<Move>, times: seq<real>, r: Play, batch: seq<Queued>,
                          during: seq<Wait>, k: nat, start: real, end: real) {
    && Plays(interval, p, moves, times, r, start, end) && r.batch == batch
    && k <= |during| && ActionsIn(moves) == ActionsOfWaits(during[..k])
  }

  lemma FillingMine(interval: real, p: Play, moves: seq<Move>, times: seq<real>, r: Play, batch: seq<Queued>,
                    during: seq<Wait>, k: nat, start: real, now: real, q: Queued, end: real)
    requires Filling(interval, p, moves, times, r, batch, during, k, start, now) && now <= end
    requires r.s.items != [] && Step(interval, r.s, Pop(now)).out == r.s.out + [q]
    ensures Filling(interval, p, moves + [Mine], times + [now], AfterMove(interval, r, Mine, now), batch + [q],
                    during, k, start, end)
    ensures AllMine(moves) ==> AllMine(moves + [Mine])
  {
    PlaysOne(interval, r, Mine, now, end);
    PlaysThen(interval, p, moves, times, r, start, now, [Mine], [now], AfterMove(interval, r, Mine, now), now, end);
    MovesAfterMine(moves);
  }

  lemma FillingWait(interval: real, p: Play, moves: seq<Move>, times: seq<real>, r: Play, batch: seq<Queued>,
                    during: seq<Wait>, k: nat, start: real, now: real, actions: seq<Action>, readings: seq<real>,
                    r': Play, end: real)
    requires Filling(interval, p, moves, times, r, batch, during, k, start, now)
    requires k < |during| && during[k] == Woken(actions)
    requires Plays(interval, r, OtherMoves(actions), readings, r', now, end)
    ensures Filling(interval, p, moves + OtherMoves(actions), times + readings, r', batch, during, k + 1, start, end)
  {
    PlaysThen(interval, p, moves, times, r, start, now, OtherMoves(actions), readings, r', now, end);
    MovesAfterWait(moves, actions);
    OtherMovesKeepBatch(interval, r, actions, readings);
    NextWait(during, k);
  }

  lemma FillingLater(interval: real, p: Play, moves: seq<Move>, times: seq<real>, r: Play, batch: seq<Queued>,
                     during: seq<Wait>, k: nat, start: real, now: real, end: real)
    requires Filling(interval, p, moves, times, r, batch, during, k, start, now) && now <= end
    ensures Filling(interval, p, moves, times, r, batch, during, k, start, end)
  {
  }

  // ---------------------------------------------------------------------
  // Checks of the deadline while a batch is being filled.

  /** The reading x comes after the first n times and before the others. */
  ghost predicate Separates(times: seq<real>, n: nat, x: real) {
    && n <= |times|
    && (forall i :: 0 <= i < n ==> times[i] <= x)
    && forall i :: n <= i < |times| ==> x <= times[i]
  }

  /** Check k came with one wait, after the check before it. It took a clock reading numbered between `after` and `now`,
      between the moves before its wait and those after. */
  ghost predicate CheckedAt(timeFn: nat -> real, times: seq<real>, first: nat, attempts: seq<Attempt>, after: nat,
                            now: nat, k: nat)
    requires k < |attempts|
  {
    && |attempts[k].waits| == 1
    && (if k == 0 then after else attempts[k - 1].tick) < attempts[k].tick < now
    && Separates(times, first + |MovesOf(attempts[..k])|, timeFn(attempts[k].tick))
  }

  /** The checks so far, each with a clock reading of its own that was below the deadline. */
  ghost predicate Checking(timeFn: nat -> real, deadline: real, moves: seq<Move>, times: seq<real>, waits: seq<Wait>,
                           first: nat, attempts: seq<Attempt>, after: nat, now: nat) {
    && Attempted(timeFn, deadline, moves, waits, first, attempts)
    && forall k :: 0 <= k < |attempts| ==> CheckedAt(timeFn, times, first, attempts, after, now, k)
  }

  lemma SeparatesLater(times: seq<real>, more: seq<real>, n: nat, x: real)
    requires Separates(times, n, x) && forall i :: 0 <= i < |more| ==> x <= more[i]
    ensures Separates(times + more, n, x)
  {
  }

  lemma CheckedMine(timeFn: nat -> real, times: seq<real>, first: nat, attempts: seq<Attempt>, after: nat, now: nat,
                    k: nat)
    requires ClockMovesForward(timeFn) && k < |attempts|
    requires CheckedAt(timeFn, times, first, attempts, after, now, k)
    ensures CheckedAt(timeFn, times + [timeFn(now)], FirstAfter(first, attempts), AttemptsAfter(attempts), after,
                      now + 1, k)
  {
    var all := AttemptsAfter(attempts);
    assert all[..k] == attempts[..k] && all[k].tick == attempts[k].tick && all[k].waits == attempts[k].waits;
    SeparatesLater(times, [timeFn(now)], first + |MovesOf(attempts[..k])|, timeFn(attempts[k].tick));
  }

  lemma CheckingMine(timeFn: nat -> real, deadline: real, moves: seq<Move>, times: seq<real>, waits: seq<Wait>,
                     first: nat, attempts: seq<Attempt>, after: nat, now: nat)
    requires ClockMovesForward(timeFn)
    requires Checking(timeFn, deadline, moves, times, waits, first, attempts, after, now)
    ensures Checking(timeFn, deadline, moves + [Mine], times + [timeFn(now)], waits, FirstAfter(first, attempts),
                     AttemptsAfter(attempts), after, now + 1)
  {
    AttemptedMine(timeFn, deadline, moves, waits, first, attempts);
    var all, first', times' := AttemptsAfter(attempts), FirstAfter(first, attempts), times + [timeFn(now)];
    var later := now + 1;
    forall k | 0 <= k < |all| ensures CheckedAt(timeFn, times', first', all, after, later, k) {
      CheckedMine(timeFn, times, first, attempts, after, now, k);
    }
  }

  lemma CheckedBefore(timeFn: nat -> real, times: seq<real>, more: seq<real>, first: nat, attempts: seq<Attempt>,
                      a: Attempt, after: nat, now: nat, later: nat, k: nat)
    requires ClockMovesForward(timeFn) && k < |attempts| && now <= later
    requires CheckedAt(timeFn, times, first, attempts, after, now, k)
    requires forall i :: 0 <= i < |more| ==> timeFn(now) <= more[i]
    ensures CheckedAt(timeFn, times + more, first, attempts + [a], after, later, k)
  {
    assert (attempts + [a])[..k] == attempts[..k];
    assert timeFn(attempts[k].tick) <= timeFn(now);
    SeparatesLater(times, more, first + |MovesOf(attempts[..k])|, timeFn(attempts[k].tick));
  }

  lemma CheckedLast(timeFn: nat -> real, times: seq<real>, more: seq<real>, first: nat, attempts: seq<Attempt>,
                    a: Attempt, after: nat, now: nat, later: nat)
    requires after < now == a.tick < later && |a.waits| == 1 && |times| == first + |MovesOf(attempts)|
    requires attempts != [] ==> attempts[|attempts| - 1].tick < now
    requires forall i :: 0 <= i < |times| ==> times[i] <= timeFn(now)
    requires forall i :: 0 <= i < |more| ==> timeFn(now) <= more[i]
    ensures CheckedAt(timeFn, times + more, first, attempts + [a], after, later, |attempts|)
  {
    assert (attempts + [a])[..|attempts|] == attempts;
  }

  lemma CheckingNext(timeFn: nat -> real, deadline: real, moves: seq<Move>, times: seq<real>, past: seq<Wait>,
                     a: Attempt, more: seq<real>, first: nat, attempts: seq<Attempt>, after: nat, now: nat, later: nat)
    requires ClockMovesForward(timeFn) && after < now == a.tick < later && |times| == |moves|
    requires |a.waits| == 1 && a.taken == 0 && timeFn(now) < deadline
    requires forall i :: 0 <= i < |times| ==> times[i] <= timeFn(now)
    requires forall i :: 0 <= i < |more| ==> timeFn(now) <= more[i]
    requires Checking(timeFn, deadline, moves, times, past, first, attempts, after, now)
    ensures Checking(timeFn, deadline, moves + OtherMoves(ActionsOfWaits(a.waits)), times + more, past + a.waits, first,
                     attempts + [a], after, later)
  {
    AttemptedNext(timeFn, deadline, moves, past, first, attempts, a);
    if attempts != [] {
      assert CheckedAt(timeFn, times, first, attempts, after, now, |attempts| - 1);
    }
    CheckedLast(timeFn, times, more, first, attempts, a, after, now, later);
    forall k | 0 <= k < |attempts| + 1 ensures CheckedAt(timeFn, times + more, first, attempts + [a], after, later, k) {
      if k < |attempts| {
        CheckedBefore(timeFn, times, more, first, attempts, a, after, now, later, k);
      }
    }
  }

  lemma {:induction false} TimesWithin(start: real, moves: seq<Move>, times: seq<real>, end: real)
    requires |moves| == |times| && Timely(start, OpsOf(moves, times), end)
    ensures start <= end && forall i :: 0 <= i < |times| ==> start <= times[i] <= end
    decreases |moves|
  {
    if moves != [] {
      var n := |moves| - 1;
      assert OpsOf(moves, times)[..n] == OpsOf(moves[..n], times[..n]);
      TimesWithin(start, moves[..n], times[..n], times[n]);
      assert forall i :: 0 <= i < n ==> times[..n][i] == times[i];
    }
  }

  /** What a call goes by while it fills a batch: it found `found` at the reading numbered `start`. */
  datatype Plan = Plan(interval: real, timeFn: nat -> real, deadline: real, timeoutMs: nat, found: Play,
                       during: seq<Wait>, start: nat)

  /** A batch being filled: the play, the moves so far with their readings, and the checks among them. */
  datatype Fill = Fill(play: Play, moves: seq<Move>, times: seq<real>, first: nat, attempts: seq<Attempt>)

  /** How one batch came about: the readings of the moves until something was found queued; what was found, and when;
      and how the batch was filled from then on. */
  datatype Trace = Trace(waited: seq<real>, found: Play, tick: nat, fill: Fill)

  /** The batch, with the first k waits behind it and the clock at reading `now`. It is stated as one fact below
      (`== true`), so that the verifier does not take it apart at every step. */
  ghost predicate Stage(c: Plan, f: Fill, batch: seq<Queued>, k: nat, now: nat) {
    && Filling(c.interval, c.found, f.moves, f.times, f.play, batch, c.during, k, c.timeFn(c.start), c.timeFn(now))
    && (c.timeoutMs == 0 ==> AllMine(f.moves))
    && Checking(c.timeFn, c.deadline, f.moves, f.times, c.during[..k], f.first, f.attempts, c.start + 1, now)
  }

  function TookOne(interval: real, f: Fill, now: real): Fill {
    Fill(AfterMove(interval, f.play, Mine, now), f.moves + [Mine], f.times + [now], FirstAfter(f.first, f.attempts),
         AttemptsAfter(f.attempts))
  }

  function Waited(f: Fill, tick: nat, w: Wait, more: seq<real>, r: Play): Fill {
    Fill(r, f.moves + OtherMoves(ActionsOfWaits([w])), f.times + more, f.first, f.attempts + [Attempt(tick, [w], 0)])
  }

  lemma StageOfTake(c: Plan, f: Fill, batch: seq<Queued>, q: Queued, k: nat, now: nat)
    requires ClockMovesForward(c.timeFn) && Stage(c, f, batch, k, now) == true
    requires f.play.s.items != [] && Step(c.interval, f.play.s, Pop(c.timeFn(now))).out == f.play.s.out + [q]
    ensures Stage(c, TookOne(c.interval, f, c.timeFn(now)), batch + [q], k, now + 1)
  {
    FillingMine(c.interval, c.found, f.moves, f.times, f.play, batch, c.during, k, c.timeFn(c.start), c.timeFn(now), q,
                c.timeFn(now + 1));
    CheckingMine(c.timeFn, c.deadline, f.moves, f.times, c.during[..k], f.first, f.attempts, c.start + 1, now);
  }

  lemma StageOfWait(c: Plan, f: Fill, batch: seq<Queued>, k: nat, more: seq<real>, r: Play, now: nat, later: nat)
    requires ClockMovesForward(c.timeFn) && Stage(c, f, batch, k, now) == true
    requires k < |c.during| && c.during[k].Woken? && c.start + 1 < now < later
    requires c.timeoutMs > 0 && c.timeFn(now) < c.deadline
    requires Plays(c.interval, f.play, OtherMoves(c.during[k].actions), more, r, c.timeFn(now), c.timeFn(later))
    ensures Stage(c, Waited(f, now, c.during[k], more, r), batch, k + 1, later)
  {
    var w := c.during[k];
    WaitPassed(c.during, k, k + 1, w.actions);
    assert c.during[k..k + 1] == [w];
    FillingWait(c.interval, c.found, f.moves, f.times, f.play, batch, c.during, k, c.timeFn(c.start), c.timeFn(now),
                w.actions, more, r, c.timeFn(later));
    TimesWithin(c.timeFn(c.start), f.moves, f.times, c.timeFn(now));
    TimesWithin(c.timeFn(now), OtherMoves(w.actions), more, c.timeFn(later));
    CheckingNext(c.timeFn, c.deadline, f.moves, f.times, c.during[..k], Attempt(now, [w], 0), more, f.first, f.attempts,
                 c.start + 1, now, later);
  }

  lemma CheckingLater(timeFn: nat -> real, deadline: real, moves: seq<Move>, times: seq<real>, waits: seq<Wait>,
                      first: nat, attempts: seq<Attempt>, after: nat, now: nat, later: nat)
    requires Checking(timeFn, deadline, moves, times, waits, first, attempts, after, now) && now <= later
    ensures Checking(timeFn, deadline, moves, times, waits, first, attempts, after, later)
  {
    forall k | 0 <= k < |attempts| ensures CheckedAt(timeFn, times, first, attempts, after, later, k) {
      assert CheckedAt(timeFn, times, first, attempts, after, now, k);
    }
  }

  lemma StageLater(c: Plan, f: Fill, batch: seq<Queued>, k: nat, now: nat, later: nat)
    requires ClockMovesForward(c.timeFn) && now <= later && Stage(c, f, batch, k, now) == true
    ensures Stage(c, f, batch, k, later)
  {
    FillingLater(c.interval, c.found, f.moves, f.times, f.play, batch, c.during, k, c.timeFn(c.start), c.timeFn(now),
                 c.timeFn(later));
    CheckingLater(c.timeFn, c.deadline, f.moves, f.times, c.during[..k], f.first, f.attempts, c.start + 1, now, later);
  }

  lemma StageOfNothing(c: Plan)
    requires c.found.batch == []
    ensures Stage(c, Fill(c.found, [], [], 0, []), [], 0, c.start)
  {
    assert c.during[..0] == [];
    PlaysNothing(c.interval, c.found, c.timeFn(c.start), c.timeFn(c.start));
  }

  class Scheduler {
    const interval: real
    const timeFn: nat -> real // the k-th reading of the injected clock
    var ticks: nat
    var items: seq<Queued>
    var counter: nat
    ghost var out: seq<Queued> // everything dequeued so far, in order

    ghost function State(): Sched
      reads this
    {
      Sched(items, counter, out)
    }

    constructor (interval: real, timeFn: nat -> real)
      ensures State() == EMPTY && ticks == 0
      ensures this.interval == interval && this.timeFn == timeFn
    {
      this.interval := interval;
      this.timeFn := timeFn;
      items, counter, ticks := [], 0, 0;
      out := [];
    }

    method ReadClock() returns (now: real)
      modifies `ticks
      ensures now == timeFn(old(ticks)) && ticks == old(ticks) + 1
    {
      now := timeFn(ticks);
      ticks := ticks + 1;
    }

    method Submit(priority: nat, item: nat)
      modifies this
      ensures State() == Step(interval, old(State()), Op.Submit(priority, item, timeFn(old(ticks))))
      ensures ticks == old(ticks) + 1
    {
      counter := counter + 1;
      var now := ReadClock();
      items := items + [Queued(priority, counter, now, item)];
    }

    /** Removes and returns the item with the least (effective priority, sequence). */
    method PopNextLocked() returns (q: Queued)
      requires items != []
      modifies this
      ensures State() == Step(interval, old(State()), Pop(timeFn(old(ticks))))
      ensures ticks == old(ticks) + 1 && out == old(out) + [q]
    {
      var now := ReadClock();
      var best := BestIndex(interval, items, now);
      q := items[best];
      items := RemoveAt(items, best);
      out := out + [q];
    }

    /** One action of another task; a worker that finds nothing queued reads no clock. */
    method PerformAction(a: Action, ghost p: Play) returns (ghost r: Play)
      requires ClockMovesForward(timeFn) && p.s == State()
      modifies this
      ensures r == AfterMove(interval, p, Other(a), timeFn(old(ticks))) && r.s == State()
      ensures ticks >= old(ticks)
    {
      ghost var now := timeFn(ticks);
      match a {
        case Submission(priority, item) => Submit(priority, item);
        case Take => if items != [] { var _ := PopNextLocked(); }
      }
      r := AfterMove(interval, p, Other(a), now);
    }

    /** What other tasks do during one suspension. */
    method OtherTasks(actions: seq<Action>, ghost p: Play) returns (ghost times: seq<real>, ghost r: Play)
      requires ClockMovesForward(timeFn) && p.s == State()
      modifies this
      ensures Plays(interval, p, OtherMoves(actions), times, r, timeFn(old(ticks)), timeFn(ticks)) && r.s == State()
      ensures ticks >= old(ticks)
    {
      ghost var start := timeFn(ticks);
      times, r := [], p;
      PlaysNothing(interval, p, start, start);
      for k := 0 to |actions|
        invariant Plays(interval, p, OtherMoves(actions[..k]), times, r, start, timeFn(ticks)) && r.s == State()
        invariant ticks >= old(ticks)
      {
        ghost var q, now := r, timeFn(ticks);
        r := PerformAction(actions[k], q);
        PlaysOne(interval, q, Other(actions[k]), now, timeFn(ticks));
        PlaysThen(interval, p, OtherMoves(actions[..k]), times, q, start, now, [Other(actions[k])], [now], r, now,
                  timeFn(ticks));
        times := times + [now];
        assert OtherMoves(actions[..k + 1]) == OtherMoves(actions[..k]) + [Other(actions[k])];
      }
      assert actions[..|actions|] == actions;
    }

    /** Waits until something is queued. `before` says what other tasks do at each suspension; the call is
        suspended exactly as long as it finds nothing queued, and for ever if that is after all of them. */
    method AwaitItem(before: seq<seq<Action>>, ghost p: Play) returns (ghost times: seq<real>, ghost r: Play,
                                                                       ghost used: nat)
      requires ClockMovesForward(timeFn) && p.s == State()
      modifies this
      ensures Waiting(interval, p, before, times, used, r, timeFn(old(ticks)), timeFn(ticks)) && r.s == State()
      ensures r.s.items == [] ==> used == |before|
      ensures ticks >= old(ticks)
    {
      ghost var start := timeFn(ticks);
      times, r := [], p;
      WaitingNot(interval, p, before, start);
      var k := 0;
      while items == [] && k < |before|
        invariant Waiting(interval, p, before, times, k, r, start, timeFn(ticks)) && r.s == State()
        invariant ticks >= old(ticks)
      {
        ghost var q, now := r, timeFn(ticks);
        ghost var more;
        more, r := OtherTasks(before[k], q);
        WaitingMore(interval, p, before, times, k, q, start, now, more, r, timeFn(ticks));
        times := times + more;
        k := k + 1;
      }
      used := k;
    }

    /** The deadline of a batch whose first item is taken at the reading numbered `start`: the reading after it plus the
        timeout. */
    ghost function PlanOf(timeoutMs: nat, found: Play, during: seq<Wait>, start: nat): Plan {
      Plan(interval, timeFn, timeFn(start + 1) + timeoutMs as real / 1000.0, timeoutMs, found, during, start)
    }

    /** Forms one batch. `before` says what other tasks do at each suspension on an empty queue, `during` what ends each
        wait of the filling loop. An empty batch means that the call is still suspended waiting for its first item. */
    method NextBatch(maxBatchSize: int, timeoutMs: nat, before: seq<seq<Action>>, during: seq<Wait>)
      returns (batch: seq<Queued>, ghost tr: Trace, ghost used: nat, ghost filled: nat)
      requires ClockMovesForward(timeFn)
      modifies this
      // the new state and the batch: exactly the moves of this worker and of the suspensions it went through; each wait
      // had a check of the deadline before it
      ensures old(ticks) <= tr.tick <= ticks
      ensures Waiting(interval, Play(old(State()), [], []), before, tr.waited, used, tr.found, timeFn(old(ticks)),
                      timeFn(tr.tick))
      ensures tr.found.s.items == [] ==> used == |before|
      ensures Stage(PlanOf(timeoutMs, tr.found, during, tr.tick), tr.fill, batch, filled, ticks) == true
      ensures tr.fill.play.s == State()
      // its size, and why it is short
      ensures batch == [] <==> tr.found.s.items == []
      ensures |batch| <= 1 || |batch| <= maxBatchSize
      ensures 0 < |batch| < maxBatchSize ==> items == []
      ensures timeoutMs > 0 && 0 < |batch| < maxBatchSize ==>
                ticks > 0 && Ended(timeFn(tr.tick + 1) + timeoutMs as real / 1000.0, timeFn(ticks - 1), during, filled)
    {
      ghost var p := Play(State(), [], []);
      ghost var waited, found;
      waited, found, used := AwaitItem(before, p);
      OtherMovesKeepBatch(interval, p, ActionsOfAll(before[..used]), waited);
      tr := Trace(waited, found, ticks, Fill(found, [], [], 0, []));
      if items == [] {
        StageOfNothing(PlanOf(timeoutMs, found, during, ticks));
        batch, filled := [], 0;
        return;
      }
      ghost var f;
      batch, f, filled := FillBatch(maxBatchSize, timeoutMs, during, found);
      tr := Trace(waited, found, tr.tick, f);
    }

    /** Takes the first item, then fills the batch until it is full, the queue is empty (timeout 0), or a wait fails. */
    method FillBatch(maxBatchSize: int, timeoutMs: nat, during: seq<Wait>, ghost p: Play)
      returns (batch: seq<Queued>, ghost f: Fill, ghost filled: nat)
      requires ClockMovesForward(timeFn) && p.s == State() && p.batch == [] && items != []
      modifies this
      ensures ticks > old(ticks) + 1 && f.play.s == State()
      ensures Stage(PlanOf(timeoutMs, p, during, old(ticks)), f, batch, filled, ticks) == true
      ensures 0 < |batch| && (|batch| == 1 || |batch| <= maxBatchSize)
      ensures |batch| < maxBatchSize ==> items == []
      ensures timeoutMs > 0 && |batch| < maxBatchSize ==>
                Ended(timeFn(old(ticks) + 1) + timeoutMs as real / 1000.0, timeFn(ticks - 1), during, filled)
    {
      ghost var c := PlanOf(timeoutMs, p, during, ticks);
      StageOfNothing(c);
      batch, f := TakeNext([], c, Fill(p, [], [], 0, []), 0);
      var now := ReadClock();
      var deadline := now + timeoutMs as real / 1000.0;
      StageLater(c, f, batch, 0, ticks - 1, ticks);
      batch, f, filled := FillUp(deadline, maxBatchSize, timeoutMs, during, batch, c, f);
    }

    /** The filling loop. */
    method FillUp(deadline: real, maxBatchSize: int, timeoutMs: nat, during: seq<Wait>, initial: seq<Queued>,
                  ghost c: Plan, ghost g: Fill)
      returns (batch: seq<Queued>, ghost f: Fill, ghost filled: nat)
      requires ClockMovesForward(timeFn) && Follows(c, deadline, timeoutMs, during)
      requires g.play.s == State() && ticks > c.start + 1 && |initial| == 1
      requires Stage(c, g, initial, 0, ticks) == true
      modifies this
      ensures ticks > c.start + 1 && f.play.s == State()
      ensures Stage(c, f, batch, filled, ticks) == true
      ensures 0 < |batch| && (|batch| == 1 || |batch| <= maxBatchSize)
      ensures |batch| < maxBatchSize ==> items == []
      ensures timeoutMs > 0 && |batch| < maxBatchSize ==> Ended(deadline, timeFn(ticks - 1), during, filled)
    {
      batch, f := initial, g;
      var k := 0;
      while |batch| < maxBatchSize
        invariant f.play.s == State() && ticks > c.start + 1
        invariant Stage(c, f, batch, k, ticks) == true && k <= |during|
        invariant 0 < |batch| && (|batch| == 1 || |batch| <= maxBatchSize)
        decreases |during| - k, maxBatchSize - |batch|
      {
        if items != [] {
          batch, f := TakeNext(batch, c, f, k);
          continue;
        }
        if timeoutMs == 0 {
          break;
        }
        var woken;
        woken, f := CheckDeadline(deadline, during, k, batch, c, f);
        if !woken {
          break;
        }
        k := k + 1;
      }
      filled := k;
    }

    /** The plan is this scheduler's, with this deadline, timeout and waits. */
    ghost predicate Follows(c: Plan, deadline: real, timeoutMs: nat, during: seq<Wait>) {
      && c.interval == interval && c.timeFn == timeFn
      && c.deadline == deadline && c.timeoutMs == timeoutMs && c.during == during
    }

    /** One more item for the batch. */
    method TakeNext(batch: seq<Queued>, ghost c: Plan, ghost f: Fill, ghost k: nat)
      returns (batch': seq<Queued>, ghost f': Fill)
      requires ClockMovesForward(timeFn) && c.interval == interval && c.timeFn == timeFn
      requires f.play.s == State() && items != [] && Stage(c, f, batch, k, ticks) == true
      modifies this
      ensures f'.play.s == State() && ticks == old(ticks) + 1 && |batch'| == |batch| + 1
      ensures Stage(c, f', batch', k, ticks) == true
    {
      ghost var now := ticks;
      var q;
      q, f' := PopInto(f);
      batch' := batch + [q];
      assert Stage(c, f', batch', k, ticks) == true by {
        StageOfTake(c, f, batch, q, k, now);
      }
    }

    method PopInto(ghost f: Fill) returns (q: Queued, ghost f': Fill)
      requires f.play.s == State() && items != []
      modifies this
      ensures f' == TookOne(interval, f, timeFn(old(ticks))) && f'.play.s == State() && ticks == old(ticks) + 1
      ensures Step(interval, f.play.s, Pop(timeFn(old(ticks)))).out == f.play.s.out + [q]
    {
      f' := TookOne(interval, f, timeFn(ticks));
      q := PopNextLocked();
    }

    /** One check of the deadline, with the wait that follows it. */
    method CheckDeadline(deadline: real, during: seq<Wait>, k: nat, ghost batch: seq<Queued>, ghost c: Plan,
                         ghost f: Fill)
      returns (woken: bool, ghost f': Fill)
      requires ClockMovesForward(timeFn) && Follows(c, deadline, c.timeoutMs, during) && c.timeoutMs > 0
      requires f.play.s == State() && c.start + 1 < ticks && Stage(c, f, batch, k, ticks) == true
      modifies this
      ensures f'.play.s == State() && ticks > old(ticks)
      ensures woken ==> k < |during| && Stage(c, f', batch, k + 1, ticks) == true
      ensures !woken ==> Stage(c, f', batch, k, ticks) == true
      ensures !woken ==> f' == f && items == old(items) && Ended(deadline, timeFn(ticks - 1), during, k)
    {
      ghost var now, more, r := ticks, [], f.play;
      woken, more, r := WaitForMore(deadline, during, k, f.play);
      f' := f;
      if woken {
        f' := Waited(f, now, during[k], more, r);
        StageOfWait(c, f, batch, k, more, r, now, ticks);
      } else {
        StageLater(c, f, batch, k, now, ticks);
      }
    }

    /** One wait of the filling loop: it fails when the deadline has passed or ends it, and is otherwise
        woken by what other tasks do. */
    method WaitForMore(deadline: real, during: seq<Wait>, k: nat, ghost p: Play)
      returns (woken: bool, ghost times: seq<real>, ghost r: Play)
      requires ClockMovesForward(timeFn) && p.s == State()
      modifies this
      ensures woken <==> timeFn(old(ticks)) < deadline && k < |during| && during[k].Woken?
      ensures ticks > old(ticks) && r.s == State()
      ensures woken ==> Plays(interval, p, OtherMoves(during[k].actions), times, r, timeFn(old(ticks)), timeFn(ticks))
      ensures !woken ==> r == p && ticks == old(ticks) + 1
    {
      ghost var start := timeFn(ticks);
      var now := ReadClock();
      woken := deadline - now > 0.0 && k < |during| && during[k].Woken?;
      times, r := [], p;
      if woken {
        ghost var mid := timeFn(ticks);
        times, r := OtherTasks(during[k].actions, p);
        PlaysEarlier(interval, p, OtherMoves(during[k].actions), times, r, start, mid, timeFn(ticks));
      }
    }
  }

  lemma {:induction false} PlaysEarlier(interval: real, p: Play, moves: seq<Move>, times: seq<real>, r: Play,
                                        earlier: real, start: real, end: real)
    requires Plays(interval, p, moves, times, r, start, end) && earlier <= start
    ensures Plays(interval, p, moves, times, r, earlier, end)
  {
    PlaysNothing(interval, p, earlier, start);
    PlaysThen(interval, p, [], [], p, earlier, start, moves, times, r, start, end);
    assert [] + moves == moves && [] + times == times;
  }
}
