/** The metrics ledger over every interleaving of worker and caller steps
    (src/llm_runtime/metrics/collector.py, src/llm_runtime/workers/manager.py, src/llm_runtime/api/). */
module Accounting {
  import opened Lifecycle

  function Sum(es: seq<Entry>, f: Entry -> int): int {
    if es == [] then 0 else Sum(es[..|es| - 1], f) + f(es[|es| - 1])
  }

  lemma {:induction false} SumUpdate(es: seq<Entry>, i: nat, e: Entry, f: Entry -> int)
    requires i < |es|
    ensures Sum(es[i := e], f) == Sum(es, f) - f(es[i]) + f(e)
  {
    var n := |es| - 1;
    if i < n {
      SumUpdate(es[..n], i, e, f);
      assert es[i := e][..n] == es[..n][i := e];
    } else {
      assert es[i := e][..n] == es[..n];
    }
  }

  lemma SumAppend(es: seq<Entry>, e: Entry, f: Entry -> int)
    ensures Sum(es + [e], f) == Sum(es, f) + f(e)
  {
    assert (es + [e])[..|es|] == es;
  }

  lemma {:induction false} SumNonnegative(es: seq<Entry>, f: Entry -> int)
    requires forall e: Entry :: f(e) >= 0
    ensures Sum(es, f) >= 0
  {
    if es != [] {
      SumNonnegative(es[..|es| - 1], f);
    }
  }

  function IsUnresolved(e: Entry): int { if e.verdict.Open? && !e.item.cancelled then 1 else 0 }

  /** Cancelled by its caller although the worker had already resolved and counted it. */
  function IsLateCancel(e: Entry): int { if !e.verdict.Open? && e.item.cancelled then 1 else 0 }

  function IsSuccess(e: Entry): int { if e.verdict.Succeeded? then 1 else 0 }

  function FailureCount(e: Entry): int {
    (if e.verdict.Failed? then 1 else 0) + (if e.item.cancelled then 1 else 0)
  }

  function GeneratedBy(e: Entry): int { if e.verdict.Succeeded? then |e.verdict.tokens| else 0 }

  function Unresolved(s: State): int { Sum(s.entries, IsUnresolved) }

  function LateCancels(s: State): int { Sum(s.entries, IsLateCancel) }

  /** The effect on the metrics is what happened to the request. */
  ghost predicate Matches(e: Entry, e': Entry, effect: Effect) {
    && IsSuccess(e') - IsSuccess(e) == (if effect.CountSuccess? then 1 else 0)
    && FailureCount(e') - FailureCount(e) == (if effect.CountFailure? then 1 else 0)
    && GeneratedBy(e') - GeneratedBy(e) == (if effect.CountSuccess? then effect.generated else 0)
    && IsUnresolved(e') - IsLateCancel(e') == IsUnresolved(e) - IsLateCancel(e) - (if effect.NoEffect? then 0 else 1)
    && IsUnresolved(e') <= IsUnresolved(e) && IsLateCancel(e') >= IsLateCancel(e)
    && (effect.CountSuccess? || effect.CountFailure? ==> EndTime(effect.it).Some?)
  }

  /** The part of coherence that counting depends on. */
  predicate Countable(e: Entry) {
    && (!e.verdict.Open? ==> e.phase == Released)
    && (e.waiting ==> !e.item.cancelled && (e.item.streaming ==> !e.item.completed))
    && (!e.item.streaming && e.item.future.Raised? ==> !e.verdict.Open?)
  }

  lemma CoherentIsCountable(e: Entry)
    requires Coherent(e)
    ensures Countable(e)
  {
  }

  lemma EntryIsCountable(evs: seq<Event>, i: nat)
    requires i < |Run(START, evs).entries|
    ensures Countable(Run(START, evs).entries[i])
  {
    EntryIsCoherent(evs, i);
    CoherentIsCountable(Run(START, evs).entries[i]);
  }

  lemma WorkerEffectMatches(e: Entry, ev: Event)
    requires Countable(e) && (ev.Token? || ev.Finish? || ev.Fail?)
    ensures Matches(e, Act(e, ev).0, Act(e, ev).1)
  {
  }

  lemma CallerEffectMatches(e: Entry, ev: Event)
    requires Countable(e) && (ev.GiveUp? || ev.Receive? || ev.Close?)
    ensures Matches(e, Act(e, ev).0, Act(e, ev).1)
  {
  }

  lemma NeutralEffectMatches(e: Entry, ev: Event)
    requires ev.Dequeue? || ev.Begin? || ev.Consume? || ev.Accept? || ev.Idle?
    ensures Matches(e, Act(e, ev).0, Act(e, ev).1)
  {
  }

  lemma EffectMatchesChange(e: Entry, ev: Event)
    requires Coherent(e)
    ensures Matches(e, Act(e, ev).0, Act(e, ev).1)
  {
    CoherentIsCountable(e);
    CountableEffectMatches(e, ev);
  }

  lemma CountableEffectMatches(e: Entry, ev: Event)
    requires Countable(e)
    ensures Matches(e, Act(e, ev).0, Act(e, ev).1)
  {
    if ev.Token? || ev.Finish? || ev.Fail? {
      WorkerEffectMatches(e, ev);
    } else if ev.GiveUp? || ev.Receive? || ev.Close? {
      CallerEffectMatches(e, ev);
    } else {
      NeutralEffectMatches(e, ev);
    }
  }

  ghost predicate Ledger(s: State) {
    && s.metrics.requestCount == |s.entries|
    && s.metrics.completedCount == Sum(s.entries, IsSuccess)
    && s.metrics.failedCount == Sum(s.entries, FailureCount)
    && s.metrics.generatedTokensTotal == Sum(s.entries, GeneratedBy)
    && |s.metrics.totalLatencies| == s.metrics.completedCount + s.metrics.failedCount
    && s.metrics.completedCount + s.metrics.failedCount == s.metrics.requestCount - Unresolved(s) + LateCancels(s)
    && 0 <= s.metrics.activeRequests
    && Unresolved(s) - LateCancels(s) <= s.metrics.activeRequests <= Unresolved(s)
  }

  lemma ApplyCounts(m: Metrics, effect: Effect)
    requires effect.CountSuccess? || effect.CountFailure? ==> EndTime(effect.it).Some?
    ensures var m' := Apply(m, effect);
            && m'.requestCount == m.requestCount
            && m'.completedCount == m.completedCount + (if effect.CountSuccess? then 1 else 0)
            && m'.failedCount == m.failedCount + (if effect.CountFailure? then 1 else 0)
            && m'.generatedTokensTotal ==
                 m.generatedTokensTotal + (if effect.CountSuccess? then effect.generated else 0)
            && |m'.totalLatencies| == |m.totalLatencies| + (if effect.NoEffect? then 0 else 1)
            && m'.activeRequests == (if effect.NoEffect? then m.activeRequests else Clamp(m.activeRequests - 1))
  {
  }

  lemma MatchingEffectKeepsLedger(s: State, i: nat, e: Entry, effect: Effect)
    requires Ledger(s) && i < |s.entries| && Matches(s.entries[i], e, effect)
    ensures Ledger(State(s.entries[i := e], Apply(s.metrics, effect)))
  {
    ApplyCounts(s.metrics, effect);
    SumUpdate(s.entries, i, e, IsSuccess);
    SumUpdate(s.entries, i, e, FailureCount);
    SumUpdate(s.entries, i, e, GeneratedBy);
    SumUpdate(s.entries, i, e, IsUnresolved);
    SumUpdate(s.entries, i, e, IsLateCancel);
    SumNonnegative(s.entries[i := e], IsUnresolved);
  }

  /** The ledger balances after every run: completed + failed exceeds the resolved requests by exactly the late
      cancels; every success contributes its tokens once; every count contributes one total-latency sample;
      and the active gauge lies between unresolved - late cancels and unresolved. */
  lemma {:induction false} LedgerBalances(evs: seq<Event>)
    ensures Ledger(Run(START, evs))
  {
    if evs != [] {
      var n := |evs| - 1;
      var s, ev := Run(START, evs[..n]), evs[n];
      LedgerBalances(evs[..n]);
      if !ev.Accept? && !ev.Idle? && ev.id < |s.entries| {
        EntryIsCountable(evs[..n], ev.id);
        CountableEffectMatches(s.entries[ev.id], ev);
        MatchingEffectKeepsLedger(s, ev.id, Act(s.entries[ev.id], ev).0, Act(s.entries[ev.id], ev).1);
      }
    }
  }

  // ---------------------------------------------------------------------
  // Late cancels.

  /** The worker has resolved the request but its caller has not resumed, or not consumed the final event, yet. */
  predicate InLateWindow(e: Entry) { e.waiting && !e.verdict.Open? }

  /** A caller step that, taken in that window, counts the request a second time: its client goes away, its wait
      times out, its stream is closed, or it resumes with a TimeoutError of the backend. */
  predicate LeavesLate(e: Entry, ev: Event) {
    InLateWindow(e) &&
    match ev
    case GiveUp(_, _, _) => !e.item.streaming
    case Receive(_, _) => !e.item.streaming && CaughtAsTimeout(e.item.future)
    case Close(_, _) => e.item.streaming
    case _ => false
  }

  predicate LateStep(s: State, ev: Event) {
    !ev.Accept? && !ev.Idle? && ev.id < |s.entries| && LeavesLate(s.entries[ev.id], ev)
  }

  lemma LateCancelIff(e: Entry, ev: Event)
    requires Countable(e)
    ensures IsLateCancel(Act(e, ev).0) == IsLateCancel(e) + if LeavesLate(e, ev) then 1 else 0
    ensures LeavesLate(e, ev) ==> Act(e, ev).1.CountFailure? && IsUnresolved(e) == IsUnresolved(Act(e, ev).0) == 0
  {
  }

  /** In every reachable state, a step makes a late cancel if and only if its guard says so; such a step counts one
      more failure although nothing was unresolved. */
  lemma LateCancelIffLateStep(past: seq<Event>, s: State, ev: Event)
    requires s == Run(START, past)
    ensures LateCancels(Step(s, ev)) == LateCancels(s) + if LateStep(s, ev) then 1 else 0
    ensures LateStep(s, ev) ==>
              && Unresolved(Step(s, ev)) == Unresolved(s)
              && Step(s, ev).metrics.failedCount == s.metrics.failedCount + 1
              && Step(s, ev).metrics.completedCount == s.metrics.completedCount
  {
    if ev.Accept? {
      SumAppend(s.entries, NewEntry(ev.streaming, ev.created, ev.now), IsLateCancel);
    } else if !ev.Idle? && ev.id < |s.entries| {
      EntryIsCountable(past, ev.id);
      ActMakesLateCancelIff(s, ev, s.entries[ev.id]);
    }
  }

  lemma ActMakesLateCancelIff(s: State, ev: Event, e: Entry)
    requires !ev.Accept? && !ev.Idle? && ev.id < |s.entries| && e == s.entries[ev.id] && Countable(e)
    ensures LateCancels(Step(s, ev)) == LateCancels(s) + if LeavesLate(e, ev) then 1 else 0
    ensures LeavesLate(e, ev) ==>
              && Unresolved(Step(s, ev)) == Unresolved(s)
              && Step(s, ev).metrics.failedCount == s.metrics.failedCount + 1
              && Step(s, ev).metrics.completedCount == s.metrics.completedCount
  {
    LateCancelIff(e, ev);
    SumUpdate(s.entries, ev.id, Act(e, ev).0, IsLateCancel);
    SumUpdate(s.entries, ev.id, Act(e, ev).0, IsUnresolved);
  }

  /** How many steps of the run left a request late. */
  function LateSteps(evs: seq<Event>): nat {
    if evs == [] then 0
    else LateSteps(evs[..|evs| - 1]) + if LateStep(Run(START, evs[..|evs| - 1]), evs[|evs| - 1]) then 1 else 0
  }

  lemma {:induction false} LateCancelsAreLateSteps(evs: seq<Event>)
    ensures LateCancels(Run(START, evs)) == LateSteps(evs)
  {
    if evs != [] {
      LateCancelsAreLateSteps(evs[..|evs| - 1]);
      LateCancelIffLateStep(evs[..|evs| - 1], Run(START, evs[..|evs| - 1]), evs[|evs| - 1]);
    }
  }

  /** No step of the run left a request late. */
  predicate NobodyLeftLate(evs: seq<Event>) {
    evs == [] ||
    (NobodyLeftLate(evs[..|evs| - 1]) && !LateStep(Run(START, evs[..|evs| - 1]), evs[|evs| - 1]))
  }

  lemma {:induction false} NoLateStepsIff(evs: seq<Event>)
    ensures LateSteps(evs) == 0 <==> NobodyLeftLate(evs)
  {
    if evs != [] {
      NoLateStepsIff(evs[..|evs| - 1]);
    }
  }

  /** Every resolved or cancelled request is counted once, plus once more for each step that left one late. So
      requests are counted exactly once if and only if no step of the run did; then the gauge is exact. */
  lemma CountedOnceIffNobodyLeftLate(evs: seq<Event>)
    ensures var s := Run(START, evs);
            && s.metrics.completedCount + s.metrics.failedCount == |s.entries| - Unresolved(s) + LateSteps(evs)
            && (s.metrics.completedCount + s.metrics.failedCount == |s.entries| - Unresolved(s) <==>
                  NobodyLeftLate(evs))
            && (NobodyLeftLate(evs) ==>
                  s.metrics.activeRequests == Unresolved(s)
                  == s.metrics.requestCount - s.metrics.completedCount - s.metrics.failedCount)
  {
    LedgerBalances(evs);
    LateCancelsAreLateSteps(evs);
    NoLateStepsIff(evs);
  }

  lemma RunThen(p: seq<Event>, ev: Event)
    ensures Run(START, p + [ev]) == Step(Run(START, p), ev)
  {
    assert (p + [ev])[..|p|] == p;
  }

  lemma OneRequest(p: seq<Event>, e: Entry, ev: Event)
    requires Run(START, p).entries == [e] && !ev.Accept? && !ev.Idle? && ev.id == 0
    ensures Run(START, p + [ev]).entries == [Act(e, ev).0]
  {
    RunThen(p, ev);
  }

  /** The late window is reachable. */
  lemma LateWindowIsReachable(streaming: bool) returns (evs: seq<Event>)
    ensures |Run(START, evs).entries| == 1 && InLateWindow(Run(START, evs).entries[0])
    ensures Run(START, evs).entries[0].item.streaming == streaming
  {
    evs := OneRunning(streaming);
    OneRequest(evs, Run(START, evs).entries[0], Finish(0, 3.0));
    evs := evs + [Finish(0, 3.0)];
  }

  /** One request, handed to the backend and not yet resolved. */
  lemma OneRunning(streaming: bool) returns (evs: seq<Event>)
    ensures var s := Run(START, evs);
            && |s.entries| == 1 && s.entries[0].item.streaming == streaming
            && s.entries[0].phase == Running && s.entries[0].waiting && Coherent(s.entries[0])
            && !s.entries[0].item.cancelled
    ensures forall k :: 0 <= k < |evs| ==> !evs[k].GiveUp?
  {
    var e0 := NewEntry(streaming, 1.0, 1.0);
    evs := [] + [Accept(streaming, 1.0, 1.0)];
    RunThen([], Accept(streaming, 1.0, 1.0));
    OneRequest(evs, e0, Dequeue(0, 2.0));
    evs := evs + [Dequeue(0, 2.0)];
    OneRequest(evs, Act(e0, Dequeue(0, 2.0)).0, Begin(0));
    evs := evs + [Begin(0)];
    RunIsCoherent(evs);
  }

  // ---------------------------------------------------------------------
  // A backend that raises TimeoutError.

  /** How many steps of the run counted request i as completed or failed. */
  function TimesCounted(evs: seq<Event>, i: nat): nat {
    if evs == [] then 0
    else
      var s, ev := Run(START, evs[..|evs| - 1]), evs[|evs| - 1];
      TimesCounted(evs[..|evs| - 1], i)
      + if Concerns(ev, i) && i < |s.entries| && !Act(s.entries[i], ev).1.NoEffect? then 1 else 0
  }

  lemma {:induction false} TimesCountedIs(evs: seq<Event>, i: nat)
    ensures TimesCounted(evs, i) ==
            if i < |Run(START, evs).entries| then
              IsSuccess(Run(START, evs).entries[i]) + FailureCount(Run(START, evs).entries[i])
            else 0
  {
    if evs != [] {
      var s, ev := Run(START, evs[..|evs| - 1]), evs[|evs| - 1];
      TimesCountedIs(evs[..|evs| - 1], i);
      if Concerns(ev, i) && i < |s.entries| {
        EntryIsCountable(evs[..|evs| - 1], i);
        CountableEffectMatches(s.entries[i], ev);
      }
    }
  }

  /** The caller of request i neither timed out nor lost its client. */
  ghost predicate NeverGaveUp(evs: seq<Event>, i: nat) {
    forall k :: 0 <= k < |evs| ==> !(evs[k].GiveUp? && evs[k].id == i)
  }

  predicate CancelledOnlyByBackend(e: Entry) {
    !e.item.streaming && e.item.cancelled ==>
      e.reply == GatewayTimeout && e.verdict.Failed? && e.verdict.error.TimeoutError?
  }

  lemma ActKeepsCancelledOnlyByBackend(e: Entry, ev: Event)
    requires Countable(e) && (e.item.streaming || e.item.future == FutureFor(e.verdict, e.item.cancelled))
    requires CancelledOnlyByBackend(e) && !ev.GiveUp?
    ensures CancelledOnlyByBackend(Act(e, ev).0)
  {
  }

  lemma {:induction false} WithoutGivingUp(evs: seq<Event>, i: nat)
    requires NeverGaveUp(evs, i) && i < |Run(START, evs).entries|
    ensures CancelledOnlyByBackend(Run(START, evs).entries[i])
  {
    var p, ev := evs[..|evs| - 1], evs[|evs| - 1];
    var s := Run(START, p);
    assert NeverGaveUp(p, i) by {
      assert forall k :: 0 <= k < |p| ==> p[k] == evs[k];
    }
    if i < |s.entries| {
      WithoutGivingUp(p, i);
      EntryIsCoherent(p, i);
      CoherentIsCountable(s.entries[i]);
      if Concerns(ev, i) {
        ActKeepsCancelledOnlyByBackend(s.entries[i], ev);
      }
    }
  }

  /** A non-streaming request that the worker failed, and whose caller neither timed out nor lost its client, is
      answered 504 and counted twice if and only if the backend raised a TimeoutError; otherwise it is
      answered 500 and counted once. */
  lemma BackendTimeoutIsCountedTwiceIff(evs: seq<Event>, i: nat)
    requires NeverGaveUp(evs, i) && i < |Run(START, evs).entries|
    requires var e := Run(START, evs).entries[i]; !e.item.streaming && !e.waiting && e.verdict.Failed?
    ensures var e := Run(START, evs).entries[i];
            && (e.reply == GatewayTimeout <==> e.verdict.error.TimeoutError?)
            && (TimesCounted(evs, i) == 2 <==> e.verdict.error.TimeoutError?)
            && (e.verdict.error.OtherError? ==>
                  e.reply == ServerError(e.verdict.error.message) && TimesCounted(evs, i) == 1)
  {
    RunIsCoherent(evs);
    TimesCountedIs(evs, i);
    WithoutGivingUp(evs, i);
  }

  /** Such a run: one request, one backend that raises TimeoutError, one caller that just waits. */
  lemma BackendTimeoutIsReachable(message: string) returns (evs: seq<Event>)
    ensures NeverGaveUp(evs, 0) && |Run(START, evs).entries| == 1
    ensures Run(START, evs).entries[0].reply == GatewayTimeout && TimesCounted(evs, 0) == 2
    ensures Run(START, evs).metrics.requestCount == 1 && Run(START, evs).metrics.failedCount == 2
  {
    evs := OneRunning(false);
    var e := Run(START, evs).entries[0];
    OneRequest(evs, e, Fail(0, TimeoutError(message), 3.0));
    evs := evs + [Fail(0, TimeoutError(message), 3.0)];
    OneRequest(evs, Act(e, Fail(0, TimeoutError(message), 3.0)).0, Receive(0, 4.0));
    evs := evs + [Receive(0, 4.0)];
    TimesCountedIs(evs, 0);
    CountersOfOne(evs);
  }

  lemma CountersOfOne(evs: seq<Event>)
    requires |Run(START, evs).entries| == 1
    ensures Run(START, evs).metrics.requestCount == 1
    ensures Run(START, evs).metrics.failedCount == FailureCount(Run(START, evs).entries[0])
  {
    LedgerBalances(evs);
    var es := Run(START, evs).entries;
    SumAppend([], es[0], FailureCount);
    assert es == [] + [es[0]];
  }

  // ---------------------------------------------------------------------
  // The clamped gauge, exactly.

  function Balance(s: State): int {
    s.metrics.requestCount - s.metrics.completedCount - s.metrics.failedCount
  }

  /** The lowest balance reached so far, starting from 0. */
  function Low(evs: seq<Event>): int {
    if evs == [] then 0
    else
      var before := Low(evs[..|evs| - 1]);
      if Balance(Run(START, evs)) < before then Balance(Run(START, evs)) else before
  }

  lemma StepMovesGauge(s: State, ev: Event)
    ensures var (m, m') := (s.metrics, Step(s, ev).metrics);
            || (Balance(Step(s, ev)) == Balance(s) && m'.activeRequests == m.activeRequests)
            || (Balance(Step(s, ev)) == Balance(s) + 1 && m'.activeRequests == m.activeRequests + 1)
            || (Balance(Step(s, ev)) == Balance(s) - 1 && m'.activeRequests == Clamp(m.activeRequests - 1))
  {
  }

  /** Clamping at 0 turns the gauge into the balance measured from its running minimum. So it equals
      requests - completed - failed if and only if that difference has never been negative. */
  lemma {:induction false} GaugeIsReflectedBalance(evs: seq<Event>)
    ensures Run(START, evs).metrics.activeRequests == Balance(Run(START, evs)) - Low(evs)
    ensures Run(START, evs).metrics.activeRequests == Balance(Run(START, evs)) <==> Low(evs) == 0
    ensures Low(evs) <= Balance(Run(START, evs)) && Low(evs) <= 0
  {
    if evs != [] {
      var n := |evs| - 1;
      GaugeIsReflectedBalance(evs[..n]);
      StepMovesGauge(Run(START, evs[..n]), evs[n]);
    }
  }

  // ---------------------------------------------------------------------
  // The gauge against the requests it is meant to count.

  /** How far the gauge is below the number of unresolved requests. */
  function GaugeGap(s: State): int { Unresolved(s) - s.metrics.activeRequests }

  lemma GapOfUpdate(s: State, i: nat, e: Entry, effect: Effect)
    requires i < |s.entries| && Matches(s.entries[i], e, effect) && 0 <= s.metrics.activeRequests
    ensures var t := State(s.entries[i := e], Apply(s.metrics, effect));
            var late := IsLateCancel(e) > IsLateCancel(s.entries[i]);
            && Unresolved(t) == Unresolved(s) - (if effect.NoEffect? || late then 0 else 1)
            && GaugeGap(t) == GaugeGap(s)
                 + (if late && s.metrics.activeRequests > 0 then 1 else 0)
                 - (if Unresolved(t) < Unresolved(s) && s.metrics.activeRequests == 0 then 1 else 0)
  {
    SumUpdate(s.entries, i, e, IsUnresolved);
    ApplyCounts(s.metrics, effect);
  }

  /** What a step does to the gap: it grows, by one, exactly when a request is left late while the gauge is above 0;
      it shrinks, by one, exactly when an unresolved request is resolved or cancelled while the gauge is at 0. */
  lemma GapGrowsIffLateStepAboveZero(past: seq<Event>, s: State, ev: Event)
    requires s == Run(START, past)
    ensures GaugeGap(Step(s, ev)) == GaugeGap(s)
              + (if LateStep(s, ev) && s.metrics.activeRequests > 0 then 1 else 0)
              - (if Unresolved(Step(s, ev)) < Unresolved(s) && s.metrics.activeRequests == 0 then 1 else 0)
  {
    LedgerBalances(past);
    if ev.Accept? {
      SumAppend(s.entries, NewEntry(ev.streaming, ev.created, ev.now), IsUnresolved);
    } else if !ev.Idle? && ev.id < |s.entries| {
      var e := s.entries[ev.id];
      EntryIsCountable(past, ev.id);
      CountableEffectMatches(e, ev);
      LateCancelIff(e, ev);
      GapOfUpdate(s, ev.id, Act(e, ev).0, Act(e, ev).1);
    }
  }

  /** The gauge shows the unresolved requests if and only if the clamp has absorbed as many decrements as
      there are late cancels. */
  lemma GaugeIsExactIff(evs: seq<Event>)
    ensures var s := Run(START, evs);
            s.metrics.activeRequests == Unresolved(s) <==> LateCancels(s) == -Low(evs)
  {
    LedgerBalances(evs);
    GaugeIsReflectedBalance(evs);
  }

  /** The gauge shows the unresolved requests after every prefix of the run. */
  predicate ExactThroughout(evs: seq<Event>) {
    GaugeGap(Run(START, evs)) == 0 && (evs == [] || ExactThroughout(evs[..|evs| - 1]))
  }

  predicate LateStepAboveZero(s: State, ev: Event) { LateStep(s, ev) && s.metrics.activeRequests > 0 }

  predicate NobodyLeftLateAboveZero(evs: seq<Event>) {
    evs == [] ||
    (NobodyLeftLateAboveZero(evs[..|evs| - 1]) && !LateStepAboveZero(Run(START, evs[..|evs| - 1]), evs[|evs| - 1]))
  }

  /** The gauge is exact all along a run if and only if nobody leaves late while it is above 0. */
  lemma {:induction false} GaugeIsAlwaysExactIff(evs: seq<Event>)
    ensures ExactThroughout(evs) <==> NobodyLeftLateAboveZero(evs)
  {
    if evs != [] {
      var p, ev := evs[..|evs| - 1], evs[|evs| - 1];
      GaugeIsAlwaysExactIff(p);
      if ExactThroughout(p) {
        GapFromZero(p, Run(START, p), ev);
      }
    }
  }

  lemma GapFromZero(past: seq<Event>, s: State, ev: Event)
    requires s == Run(START, past) && GaugeGap(s) == 0
    ensures GaugeGap(Step(s, ev)) == 0 <==> !LateStepAboveZero(s, ev)
  {
    GapGrowsIffLateStepAboveZero(past, s, ev);
    LedgerBalances(past);
    RunThen(past, ev);
    LedgerBalances(past + [ev]);
  }

  /** A run after which the gauge shows 0 although one request is unresolved. */
  lemma GaugeCanBeTooLow() returns (evs: seq<Event>)
    ensures Run(START, evs).metrics.activeRequests == 0 && Unresolved(Run(START, evs)) == 1
  {
    var p := OneRunning(false);
    var e := Run(START, p).entries[0];
    RunThen(p, Accept(false, 1.0, 1.0));
    p := p + [Accept(false, 1.0, 1.0)];
    FirstOfTwo(p, e, NewEntry(false, 1.0, 1.0), Finish(0, 3.0));
    p := p + [Finish(0, 3.0)];
    e := Act(e, Finish(0, 3.0)).0;
    var s, last := Run(START, p), GiveUp(0, false, 4.0);
    assert s.metrics.activeRequests == Unresolved(s) == 1 by {
      SumOfTwo(s.entries, IsUnresolved);
      SumOfTwo(s.entries, IsLateCancel);
      LedgerBalances(p);
    }
    assert LateStep(s, last);
    LateCancelIffLateStep(p, s, last);
    GapGrowsIffLateStepAboveZero(p, s, last);
    RunThen(p, last);
    evs := p + [last];
  }

  lemma FirstOfTwo(p: seq<Event>, e: Entry, other: Entry, ev: Event)
    requires Run(START, p).entries == [e, other] && !ev.Accept? && !ev.Idle? && ev.id == 0
    ensures Run(START, p + [ev]).entries == [Act(e, ev).0, other]
  {
    RunThen(p, ev);
  }

  lemma SumOfTwo(es: seq<Entry>, f: Entry -> int)
    requires |es| == 2
    ensures Sum(es, f) == f(es[0]) + f(es[1])
  {
    assert es[..1][..0] == [];
    assert Sum(es[..1], f) == Sum(es[..1][..0], f) + f(es[0]);
  }

  // ---------------------------------------------------------------------
  // Finality.

  /** The worker has decided, or the caller cancelled before it could. */
  predicate Settled(e: Entry) { !e.verdict.Open? || e.item.cancelled }

  lemma ActKeepsSettled(e: Entry, ev: Event)
    requires Coherent(e) && Settled(e)
    ensures var (e', effect) := Act(e, ev);
            && Settled(e') && e'.verdict == e.verdict && e'.tokens == e.tokens && e'.put == e.put
            && (e.item.cancelled ==> e'.item.cancelled && effect.NoEffect?)
  {
  }

  /** Same verdict, tokens and stream contents; and a cancellation stays. */
  ghost predicate SameOutcome(e: Entry, e': Entry) {
    && e'.verdict == e.verdict && e'.tokens == e.tokens && e'.put == e.put
    && (e.item.cancelled ==> e'.item.cancelled)
  }

  lemma StepKeepsSettled(s: State, ev: Event, i: nat)
    requires i < |s.entries| && Coherent(s.entries[i]) && Settled(s.entries[i])
    ensures i < |Step(s, ev).entries| && Settled(Step(s, ev).entries[i])
    ensures SameOutcome(s.entries[i], Step(s, ev).entries[i])
  {
    if !ev.Accept? && !ev.Idle? && ev.id == i {
      ActKeepsSettled(s.entries[i], ev);
    }
  }

  /** Once settled, always settled the same way: no later step changes the verdict, adds a token, or puts anything on
      the stream. In particular a request cancelled before the worker resolved it is never counted by the worker,
      and a request never gets a second outcome. */
  lemma {:induction false} SettledIsFinal(past: seq<Event>, evs: seq<Event>, i: nat)
    requires i < |Run(START, past).entries| && Settled(Run(START, past).entries[i])
    ensures i < |Run(START, past + evs).entries| && Settled(Run(START, past + evs).entries[i])
    ensures SameOutcome(Run(START, past).entries[i], Run(START, past + evs).entries[i])
  {
    if evs == [] {
      assert past + evs == past;
    } else {
      var p, ev := evs[..|evs| - 1], evs[|evs| - 1];
      var t := Run(START, past + p);
      SettledIsFinal(past, p, i);
      RunIsCoherent(past + p);
      StepKeepsSettled(t, ev, i);
      RunThen(past + p, ev);
      assert past + evs == past + p + [ev];
    }
  }

  // ---------------------------------------------------------------------
  // What the client sees.

  function Chunks(ts: seq<string>): (fs: seq<Frame>)
    ensures |fs| == |ts| && forall k :: 0 <= k < |ts| ==> fs[k] == Chunk(ts[k])
  {
    if ts == [] then [] else Chunks(ts[..|ts| - 1]) + [Chunk(ts[|ts| - 1])]
  }

  function FinalFrame(v: Verdict): seq<Frame> {
    match v
    case Open => []
    case Succeeded(_) => [Done]
    case Failed(x) => [Error(x.message)]
  }

  /** In every reachable state a streaming client has seen a prefix of one chunk per token in order followed by one
      final [DONE] or error frame; it has seen all of it exactly when its stream completed. A non-streaming
      client that did not give up got exactly the worker's verdict. */
  lemma ClientSeesTheVerdict(evs: seq<Event>, i: nat)
    requires i < |Run(START, evs).entries|
    ensures var e := Run(START, evs).entries[i];
            && (e.item.streaming ==>
                  && e.frames <= Chunks(e.tokens) + FinalFrame(e.verdict)
                  && (e.item.completed <==> !e.verdict.Open? && e.frames == Chunks(e.tokens) + FinalFrame(e.verdict)))
            && (!e.item.streaming && !e.waiting ==>
                  match e.reply
                  case NoReply => false
                  case GatewayTimeout => e.item.cancelled
                  case ClientLost => e.item.cancelled
                  case Ok(ts) => e.verdict == Succeeded(ts) && ts == e.tokens
                  case ServerError(m) => e.verdict == Failed(OtherError(m)))
  {
    RunIsCoherent(evs);
    var e := Run(START, evs).entries[i];
    if e.item.streaming {
      FramesOfPut(e);
    }
  }

  lemma FramesOfPut(e: Entry)
    requires StreamCoherent(e)
    ensures e.frames <= Chunks(e.tokens) + FinalFrame(e.verdict)
    ensures e.frames == Chunks(e.tokens) + FinalFrame(e.verdict) <==> e.item.queue == []
  {
    var all := Chunks(e.tokens) + FinalFrame(e.verdict);
    FramesOfAll(e.tokens, e.verdict);
    assert e.frames == all[..|e.frames|];
  }

  lemma FramesOfAll(ts: seq<string>, v: Verdict)
    ensures var put, all := Tokens(ts) + Terminal(v), Chunks(ts) + FinalFrame(v);
            |all| == |put| && forall k :: 0 <= k < |put| ==> all[k] == FrameOf(put[k])
  {
    var put, all := Tokens(ts) + Terminal(v), Chunks(ts) + FinalFrame(v);
    forall k | 0 <= k < |put| ensures all[k] == FrameOf(put[k]) {
      if k < |ts| {
        assert put[k] == Tokens(ts)[k] && all[k] == Chunks(ts)[k];
      } else {
        assert put[k] == Terminal(v)[k - |ts|] && all[k] == FinalFrame(v)[k - |ts|];
      }
    }
  }
}
