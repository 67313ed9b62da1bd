/** What happens to a scheduler while one worker forms a batch: its own dequeues, and what other tasks do
    whenever it is suspended. */
module Moves {

  /** Another task submits something, or dequeues for another worker if anything is queued. */
  datatype Action = Submission(priority: nat, item: nat) | Take

  /** How one wait of a batch being filled ends: after some actions, or at the deadline. */
  datatype Wait = Woken(actions: seq<Action>) | TimedOut

  /** This worker dequeues, or another task acts. */
  datatype Move = Mine | Other(action: Action)

  function ItemsOf(actions: seq<Action>): seq<nat> {
    if actions == [] then []
    else
      var a := actions[|actions| - 1];
      ItemsOf(actions[..|actions| - 1]) + if a.Submission? then [a.item] else []
  }

  function ActionsOfAll(groups: seq<seq<Action>>): seq<Action> {
    if groups == [] then [] else ActionsOfAll(groups[..|groups| - 1]) + groups[|groups| - 1]
  }

  function ActionsOfWaits(waits: seq<Wait>): seq<Action> {
    if waits == [] then []
    else
      var w := waits[|waits| - 1];
      ActionsOfWaits(waits[..|waits| - 1]) + if w.Woken? then w.actions else []
  }

  function OtherMoves(actions: seq<Action>): (moves: seq<Move>)
    ensures |moves| == |actions| && forall k :: 0 <= k < |actions| ==> moves[k] == Other(actions[k])
  {
    if actions == [] then [] else OtherMoves(actions[..|actions| - 1]) + [Other(actions[|actions| - 1])]
  }

  function ActionsIn(moves: seq<Move>): seq<Action> {
    if moves == [] then []
    else
      var m := moves[|moves| - 1];
      ActionsIn(moves[..|moves| - 1]) + if m.Other? then [m.action] else []
  }

  ghost predicate AllMine(moves: seq<Move>) { forall k :: 0 <= k < |moves| ==> moves[k].Mine? }

  lemma {:induction false} ItemsOfConcat(p: seq<Action>, q: seq<Action>)
    ensures ItemsOf(p + q) == ItemsOf(p) + ItemsOf(q)
  {
    if q == [] {
      assert p + q == p;
    } else {
      assert (p + q)[..|p + q| - 1] == p + q[..|q| - 1];
      ItemsOfConcat(p, q[..|q| - 1]);
    }
  }

  lemma ItemsOfOneMore(p: seq<Move>, m: Move)
    ensures ItemsOf(ActionsIn(p + [m])) ==
            ItemsOf(ActionsIn(p)) + if m.Other? && m.action.Submission? then [m.action.item] else []
  {
    assert (p + [m])[..|p|] == p;
    if m.Other? {
      assert (ActionsIn(p) + [m.action])[..|ActionsIn(p)|] == ActionsIn(p);
    } else {
      assert ActionsIn(p) + [] == ActionsIn(p);
    }
  }

  lemma {:induction false} ActionsInConcat(p: seq<Move>, q: seq<Move>)
    ensures ActionsIn(p + q) == ActionsIn(p) + ActionsIn(q)
  {
    if q == [] {
      assert p + q == p;
    } else {
      assert (p + q)[..|p + q| - 1] == p + q[..|q| - 1];
      ActionsInConcat(p, q[..|q| - 1]);
    }
  }

  lemma {:induction false} ActionsInOtherMoves(actions: seq<Action>)
    ensures ActionsIn(OtherMoves(actions)) == actions
  {
    if actions != [] {
      var p := actions[..|actions| - 1];
      ActionsInOtherMoves(p);
      assert OtherMoves(actions)[..|actions| - 1] == OtherMoves(p);
    }
  }

  lemma OtherMovesConcat(p: seq<Action>, q: seq<Action>)
    ensures OtherMoves(p + q) == OtherMoves(p) + OtherMoves(q)
  {
  }

  lemma NextGroup(groups: seq<seq<Action>>, k: nat)
    requires k < |groups|
    ensures ActionsOfAll(groups[..k + 1]) == ActionsOfAll(groups[..k]) + groups[k]
  {
    assert groups[..k + 1][..k] == groups[..k];
  }

  lemma NextWait(waits: seq<Wait>, k: nat)
    requires k < |waits| && waits[k].Woken?
    ensures ActionsOfWaits(waits[..k + 1]) == ActionsOfWaits(waits[..k]) + waits[k].actions
  {
    assert waits[..k + 1][..k] == waits[..k];
  }

  /** A wait follows the filling so far. */
  lemma MovesAfterWait(moves: seq<Move>, actions: seq<Action>)
    ensures ActionsIn(moves + OtherMoves(actions)) == ActionsIn(moves) + actions
  {
    ActionsInConcat(moves, OtherMoves(actions));
    ActionsInOtherMoves(actions);
  }

  lemma MovesAfterMine(moves: seq<Move>)
    ensures ActionsIn(moves + [Mine]) == ActionsIn(moves)
    ensures AllMine(moves) ==> AllMine(moves + [Mine])
  {
    assert (moves + [Mine])[..|moves|] == moves;
  }

  /** A short batch has stopped for a reason: the deadline had passed at the last clock reading, or what it
      waited for at `filled` did not come in time. */
  predicate Ended(deadline: real, last: real, waits: seq<Wait>, filled: nat) {
    deadline <= last || filled >= |waits| || waits[filled].TimedOut?
  }

  // ---------------------------------------------------------------------
  // Deadline checks.

  /** One check of the deadline that passed while a batch was filling: the number of the clock reading it took, the wait
      that followed, if any, and how many items this worker took before the next check. */
  datatype Attempt = Attempt(tick: nat, waits: seq<Wait>, taken: nat)

  function Mines(n: nat): (moves: seq<Move>)
    ensures |moves| == n && AllMine(moves)
  {
    if n == 0 then [] else Mines(n - 1) + [Mine]
  }

  function MovesOf(attempts: seq<Attempt>): seq<Move> {
    if attempts == [] then []
    else
      var a := attempts[|attempts| - 1];
      MovesOf(attempts[..|attempts| - 1]) + OtherMoves(ActionsOfWaits(a.waits)) + Mines(a.taken)
  }

  function WaitsOf(attempts: seq<Attempt>): seq<Wait> {
    if attempts == [] then [] else WaitsOf(attempts[..|attempts| - 1]) + attempts[|attempts| - 1].waits
  }

  /** The moves and waits of a batch being filled, in order: this worker took `first` items without a check; then came
      the attempts, each with a clock reading that was below the deadline. */
  ghost predicate Attempted(timeFn: nat -> real, deadline: real, moves: seq<Move>, waits: seq<Wait>, first: nat,
                            attempts: seq<Attempt>) {
    && moves == Mines(first) + MovesOf(attempts) && waits == WaitsOf(attempts)
    && forall k :: 0 <= k < |attempts| ==> InTime(timeFn, deadline, attempts[k])
  }

  predicate InTime(timeFn: nat -> real, deadline: real, a: Attempt) {
    |a.waits| <= 1 && timeFn(a.tick) < deadline
  }

  /** One more item taken: at once, or after the last check. */
  function FirstAfter(first: nat, attempts: seq<Attempt>): nat { if attempts == [] then first + 1 else first }

  function AttemptsAfter(attempts: seq<Attempt>): seq<Attempt> {
    if attempts == [] then []
    else
      var n := |attempts| - 1;
      attempts[..n] + [attempts[n].(taken := attempts[n].taken + 1)]
  }

  lemma MovesOfOneMoreTaken(attempts: seq<Attempt>)
    requires attempts != []
    ensures MovesOf(AttemptsAfter(attempts)) == MovesOf(attempts) + [Mine]
    ensures WaitsOf(AttemptsAfter(attempts)) == WaitsOf(attempts)
  {
    var n := |attempts| - 1;
    assert AttemptsAfter(attempts)[..n] == attempts[..n];
    Regroup(MovesOf(attempts[..n]) + OtherMoves(ActionsOfWaits(attempts[n].waits)), Mines(attempts[n].taken), [Mine]);
  }

  lemma MovesOfNextAttempt(attempts: seq<Attempt>, a: Attempt)
    requires a.taken == 0
    ensures MovesOf(attempts + [a]) == MovesOf(attempts) + OtherMoves(ActionsOfWaits(a.waits))
    ensures WaitsOf(attempts + [a]) == WaitsOf(attempts) + a.waits
  {
    assert (attempts + [a])[..|attempts|] == attempts;
  }

  lemma AttemptedMine(timeFn: nat -> real, deadline: real, moves: seq<Move>, waits: seq<Wait>, first: nat,
                      attempts: seq<Attempt>)
    requires Attempted(timeFn, deadline, moves, waits, first, attempts)
    ensures Attempted(timeFn, deadline, moves + [Mine], waits, FirstAfter(first, attempts), AttemptsAfter(attempts))
  {
    if attempts == [] {
      assert Mines(first) + [] + [Mine] == Mines(first + 1) + [];
    } else {
      MovesOfOneMoreTaken(attempts);
      Regroup(Mines(first), MovesOf(attempts), [Mine]);
      var all := AttemptsAfter(attempts);
      forall k | 0 <= k < |all| ensures InTime(timeFn, deadline, all[k]) {
        assert InTime(timeFn, deadline, attempts[k]);
      }
    }
  }

  lemma AttemptedNext(timeFn: nat -> real, deadline: real, moves: seq<Move>, waits: seq<Wait>, first: nat,
                      attempts: seq<Attempt>, a: Attempt)
    requires Attempted(timeFn, deadline, moves, waits, first, attempts) == true && a.taken == 0
    requires InTime(timeFn, deadline, a)
    ensures Attempted(timeFn, deadline, moves + OtherMoves(ActionsOfWaits(a.waits)), waits + a.waits, first,
                      attempts + [a])
  {
    MovesOfNextAttempt(attempts, a);
    Regroup(Mines(first), MovesOf(attempts), OtherMoves(ActionsOfWaits(a.waits)));
  }

  lemma Regroup<T>(p: seq<T>, q: seq<T>, r: seq<T>)
    ensures p + q + r == p + (q + r)
  {
  }

  /** From wait k to k', which is k itself or the next one. */
  lemma WaitPassed(during: seq<Wait>, k: nat, k': nat, actions: seq<Action>)
    requires k <= |during|
    requires if k' == k then actions == [] else k' == k + 1 <= |during| && during[k] == Woken(actions)
    ensures during[..k'] == during[..k] + during[k..k'] && |during[k..k']| <= 1
    ensures ActionsOfWaits(during[k..k']) == actions
  {
    if k' > k {
      assert during[k..k'] == [Woken(actions)];
      assert [Woken(actions)][..0] == [];
    }
  }

  // ---------------------------------------------------------------------
  // Sharing.

  /** `mixed` holds the elements of a and b, each in its own order. */
  ghost predicate Interleaves<T(!new)>(mixed: seq<T>, a: seq<T>, b: seq<T>)
    decreases |mixed|
  {
    if mixed == [] then a == [] && b == []
    else
      var p, last := mixed[..|mixed| - 1], mixed[|mixed| - 1];
      || (a != [] && a[|a| - 1] == last && Interleaves(p, a[..|a| - 1], b))
      || (b != [] && b[|b| - 1] == last && Interleaves(p, a, b[..|b| - 1]))
  }

  lemma InterleavesOne<T(!new)>(mixed: seq<T>, a: seq<T>, b: seq<T>, x: T)
    requires Interleaves(mixed, a, b)
    ensures Interleaves(mixed + [x], a + [x], b) && Interleaves(mixed + [x], a, b + [x])
  {
    assert (mixed + [x])[..|mixed|] == mixed && (a + [x])[..|a|] == a && (b + [x])[..|b|] == b;
  }
}
