/** Batched and sequential decoding of the mock backend
    (src/llm_runtime/backends/mock_backend.py, src/llm_runtime/backends/base.py). */
module Backends {
  import opened Lifecycle
  import opened Routing

  /** The part of a runtime request that the mock backend looks at. */
  datatype Job = Job(id: nat, maxTokens: nat)

  /** An event with the simulated time at which it is yielded. */
  datatype Timed = Timed(e: BackendEvent, at: real)

  ghost predicate DistinctIds(jobs: seq<Job>) {
    forall i, j :: 0 <= i < j < |jobs| ==> jobs[i].id != jobs[j].id
  }

  function Digits(n: nat): string {
    if n < 10 then [('0' as int + n) as char] else Digits(n / 10) + [('0' as int + n % 10) as char]
  }

  function Tok(index: nat): string { "tok" + Digits(index) + " " }

  /** What a string of decimal digits stands for. */
  function ValueOf(s: string): int {
    if s == "" then 0 else 10 * ValueOf(s[..|s| - 1]) + (s[|s| - 1] as int - '0' as int)
  }

  /** Decimal notation: reading the digits back gives the number, and there is no leading zero. */
  lemma {:induction false} DigitsReadBack(n: nat)
    ensures ValueOf(Digits(n)) == n && Digits(n) != "" && forall c :: c in Digits(n) ==> '0' <= c <= '9'
    ensures n > 0 ==> Digits(n)[0] != '0'
  {
    if n < 10 {
      assert Digits(n)[..0] == "";
    } else {
      DigitsReadBack(n / 10);
      assert Digits(n)[..|Digits(n)| - 1] == Digits(n / 10);
    }
  }

  /** A token names its index. */
  lemma TokReadsBack(n: nat)
    ensures |Tok(n)| > 4 && Tok(n)[..3] == "tok" && Tok(n)[|Tok(n)| - 1] == ' '
    ensures ValueOf(Tok(n)[3..|Tok(n)| - 1]) == n
  {
    DigitsReadBack(n);
    assert Tok(n)[3..|Tok(n)| - 1] == Digits(n);
  }

  lemma TokIsInjective(m: nat, n: nat)
    ensures Tok(m) == Tok(n) <==> m == n
  {
    TokReadsBack(m);
    TokReadsBack(n);
  }

  /** The text one request is meant to receive. */
  function MockTokens(n: nat): (ts: seq<string>)
    ensures |ts| == n
  {
    if n == 0 then [] else MockTokens(n - 1) + [Tok(n - 1)]
  }

  function Untimed(ts: seq<Timed>): seq<BackendEvent> {
    if ts == [] then [] else Untimed(ts[..|ts| - 1]) + [ts[|ts| - 1].e]
  }

  // ---------------------------------------------------------------------
  // What the two loops yield, for a given clock.

  /** One request's share of one decode step. */
  function Share(job: Job, index: nat, at: real): seq<Timed> {
    if index >= job.maxTokens then []
    else if index + 1 == job.maxTokens then
      [Timed(BatchToken(job.id, Tok(index)), at), Timed(BatchCompleted(job.id), at)]
    else [Timed(BatchToken(job.id, Tok(index)), at)]
  }

  /** One decode step of the whole batch. */
  function Round(jobs: seq<Job>, index: nat, at: real): seq<Timed> {
    if jobs == [] then [] else Round(jobs[..|jobs| - 1], index, at) + Share(jobs[|jobs| - 1], index, at)
  }

  /** The first n decode steps; the clock tells when each of them ends. */
  function Rounds(clock: nat -> real, jobs: seq<Job>, n: nat): seq<Timed> {
    if n == 0 then [] else Rounds(clock, jobs, n - 1) + Round(jobs, n - 1, clock(n))
  }

  function MaxTokens(jobs: seq<Job>): (m: nat)
    ensures forall k :: 0 <= k < |jobs| ==> jobs[k].maxTokens <= m
  {
    if jobs == [] then 0
    else
      var m := MaxTokens(jobs[..|jobs| - 1]);
      if jobs[|jobs| - 1].maxTokens > m then jobs[|jobs| - 1].maxTokens else m
  }

  /** The first n tokens of request number k alone; its n-th decode step ends at clock(k, n). */
  function Solo(clock: (nat, nat) -> real, k: nat, job: Job, n: nat): seq<Timed> {
    if n == 0 then [] else Solo(clock, k, job, n - 1) + [Timed(BatchToken(job.id, Tok(n - 1)), clock(k, n))]
  }

  /** All requests in turn. */
  function OneAfterAnother(clock: (nat, nat) -> real, jobs: seq<Job>): seq<Timed> {
    if jobs == [] then []
    else
      var k := |jobs| - 1;
      OneAfterAnother(clock, jobs[..k]) + Solo(clock, k, jobs[k], jobs[k].maxTokens)
      + [Timed(BatchCompleted(jobs[k].id), clock(k, jobs[k].maxTokens))]
  }

  // The simulated clock of the mock backend.

  /** When the n-th decode step of a batch ends. */
  function DecodeClock(prefill: real, decode: real): nat -> real {
    (n: nat) => prefill + n as real * decode
  }

  lemma {:induction false} DecodeClockTicks(prefill: real, decode: real)
    ensures DecodeClock(prefill, decode)(0) == prefill
    ensures forall i: nat :: DecodeClock(prefill, decode)(i + 1) == DecodeClock(prefill, decode)(i) + decode
  {
    forall i: nat ensures DecodeClock(prefill, decode)(i + 1) == DecodeClock(prefill, decode)(i) + decode {
      assert (i + 1) as real * decode == i as real * decode + decode;
    }
  }

  function Duration(prefill: real, decode: real, job: Job): real { prefill + job.maxTokens as real * decode }

  function TotalDuration(prefill: real, decode: real, jobs: seq<Job>): real {
    if jobs == [] then 0.0
    else TotalDuration(prefill, decode, jobs[..|jobs| - 1]) + Duration(prefill, decode, jobs[|jobs| - 1])
  }

  /** When the n-th decode step of request k ends if the requests run one after another. */
  function SequentialClock(prefill: real, decode: real, jobs: seq<Job>): (nat, nat) -> real {
    (k: nat, n: nat) =>
      TotalDuration(prefill, decode, if k <= |jobs| then jobs[..k] else jobs) + prefill + n as real * decode
  }

  class MockBackend {
    const prefill: real
    const decode: real

    constructor (prefillMs: nat, decodeMs: nat)
      ensures prefill == prefillMs as real / 1000.0 && decode == decodeMs as real / 1000.0
    {
      prefill, decode := prefillMs as real / 1000.0, decodeMs as real / 1000.0;
    }

    /** Simulated batching: one decode step advances every unfinished request. */
    method GenerateBatch(jobs: seq<Job>) returns (events: seq<Timed>)
      ensures events == Rounds(DecodeClock(prefill, decode), jobs, MaxTokens(jobs))
    {
      events := [];
      if jobs == [] {
        return;
      }
      DecodeClockTicks(prefill, decode);
      events := DecodeSteps(jobs, MaxTokens(jobs), DecodeClock(prefill, decode));
    }

    /** The outer loop, after the prefill. */
    method DecodeSteps(jobs: seq<Job>, n: nat, ghost clock: nat -> real) returns (events: seq<Timed>)
      requires clock(0) == prefill && forall i: nat :: clock(i + 1) == clock(i) + decode
      ensures events == Rounds(clock, jobs, n)
    {
      events := [];
      var now := prefill;
      for index := 0 to n
        invariant now == clock(index) && events == Rounds(clock, jobs, index)
      {
        now := now + decode;
        var step := DecodeStep(jobs, index, now);
        events := events + step;
      }
    }

    /** The inner loop: one decode step of the batch. */
    method DecodeStep(jobs: seq<Job>, index: nat, now: real) returns (events: seq<Timed>)
      ensures events == Round(jobs, index, now)
    {
      events := [];
      for k := 0 to |jobs|
        invariant events == Round(jobs[..k], index, now)
      {
        assert jobs[..k + 1][..k] == jobs[..k];
        ghost var before := events;
        if index >= jobs[k].maxTokens {
          continue;
        }
        events := events + [Timed(BatchToken(jobs[k].id, Tok(index)), now)];
        if index + 1 == jobs[k].maxTokens {
          events := events + [Timed(BatchCompleted(jobs[k].id), now)];
        }
        assert events == before + Share(jobs[k], index, now);
      }
      assert jobs[..|jobs|] == jobs;
    }

    /** Single-request compatibility mode: `Backend.generate_batch` over `MockBackend.generate`. */
    method GenerateSequentially(jobs: seq<Job>) returns (events: seq<Timed>)
      ensures events == OneAfterAnother(SequentialClock(prefill, decode, jobs), jobs)
    {
      events := [];
      ghost var clock := SequentialClock(prefill, decode, jobs);
      var now := 0.0;
      for k := 0 to |jobs|
        invariant now == TotalDuration(prefill, decode, jobs[..k])
        invariant events == OneAfterAnother(clock, jobs[..k])
      {
        assert jobs[..k + 1][..k] == jobs[..k];
        ClockReadings(prefill, decode, jobs, k);
        var tokens;
        tokens, now := Generate(jobs[k], now, clock, k);
        events := events + tokens + [Timed(BatchCompleted(jobs[k].id), now)];
      }
      assert jobs[..|jobs|] == jobs;
    }

    method Generate(job: Job, start: real, ghost clock: (nat, nat) -> real, ghost k: nat)
      returns (events: seq<Timed>, end: real)
      requires clock(k, 0) == start + prefill && forall n: nat :: clock(k, n + 1) == clock(k, n) + decode
      ensures events == Solo(clock, k, job, job.maxTokens) && end == clock(k, job.maxTokens)
    {
      events, end := [], start + prefill;
      for index := 0 to job.maxTokens
        invariant end == clock(k, index) && events == Solo(clock, k, job, index)
      {
        end := end + decode;
        events := events + [Timed(BatchToken(job.id, Tok(index)), end)];
      }
    }
  }

  // ---------------------------------------------------------------------
  // Both mean the same for every request.

  /** What a stream means for one request: its tokens up to its completion, and whether it completes. */
  datatype Meaning = Meaning(tokens: seq<string>, complete: bool)

  function Then(m: Meaning, next: Meaning): Meaning {
    if m.complete then m else Meaning(m.tokens + next.tokens, next.complete)
  }

  function MeaningOfEvent(e: BackendEvent, id: nat): Meaning {
    if e.id != id then Meaning([], false)
    else if e.BatchToken? then Meaning([e.token], false)
    else Meaning([], true)
  }

  /** The meaning of the first n events. */
  function MeaningUpTo(ts: seq<Timed>, n: nat, id: nat): Meaning
    requires n <= |ts|
  {
    if n == 0 then Meaning([], false) else Then(MeaningUpTo(ts, n - 1, id), MeaningOfEvent(ts[n - 1].e, id))
  }

  function MeaningOf(ts: seq<Timed>, id: nat): Meaning { MeaningUpTo(ts, |ts|, id) }

  lemma {:induction false} MeaningOfPrefix(p: seq<Timed>, q: seq<Timed>, n: nat, id: nat)
    requires n <= |p|
    ensures MeaningUpTo(p + q, n, id) == MeaningUpTo(p, n, id)
  {
    if n > 0 {
      MeaningOfPrefix(p, q, n - 1, id);
    }
  }

  lemma {:induction false} MeaningOfSuffix(p: seq<Timed>, q: seq<Timed>, n: nat, id: nat)
    requires n <= |q|
    ensures MeaningUpTo(p + q, |p| + n, id) == Then(MeaningOf(p, id), MeaningUpTo(q, n, id))
  {
    if n == 0 {
      MeaningOfPrefix(p, q, |p|, id);
    } else {
      MeaningOfSuffix(p, q, n - 1, id);
      assert (p + q)[|p| + n - 1] == q[n - 1];
    }
  }

  lemma {:induction false} MeaningConcat(p: seq<Timed>, q: seq<Timed>, id: nat)
    ensures MeaningOf(p + q, id) == Then(MeaningOf(p, id), MeaningOf(q, id))
  {
    MeaningOfSuffix(p, q, |q|, id);
  }

  /** It is what the worker routes to the request. */
  lemma {:induction false} MeaningIsProjection(ts: seq<Timed>, id: nat)
    ensures MeaningOf(ts, id).tokens == TokensUpTo(Untimed(ts), id)
    ensures MeaningOf(ts, id).complete <==> Completes(Untimed(ts), id)
  {
    if ts != [] {
      var p, last := ts[..|ts| - 1], ts[|ts| - 1];
      MeaningIsProjection(p, id);
      assert ts == p + [last];
      MeaningConcat(p, [last], id);
      MeaningOfOne(last, id);
      NextOnProjection(Untimed(p), last.e, id);
    }
  }

  lemma {:induction false} MeaningOfOne(t: Timed, id: nat)
    ensures MeaningOf([t], id) == MeaningOfEvent(t.e, id)
  {
    assert MeaningUpTo([t], 0, id) == Meaning([], false);
    assert [] + MeaningOfEvent(t.e, id).tokens == MeaningOfEvent(t.e, id).tokens;
  }

  lemma {:induction false} NextOnProjection(stream: seq<BackendEvent>, e: BackendEvent, id: nat)
    ensures Completes(stream + [e], id) <==> Completes(stream, id) || MeaningOfEvent(e, id).complete
    ensures TokensUpTo(stream + [e], id) ==
            TokensUpTo(stream, id) + if Completes(stream, id) then [] else MeaningOfEvent(e, id).tokens
  {
    assert (stream + [e])[..|stream|] == stream;
  }

  ghost predicate Means(ts: seq<Timed>, id: nat, tokens: seq<string>, completes: bool) {
    MeaningOf(ts, id) == Meaning(tokens, completes)
  }

  lemma {:induction false} MeansConcat(p: seq<Timed>, q: seq<Timed>, id: nat, x: seq<string>, y: seq<string>, cq: bool)
    requires Means(p, id, x, false) && Means(q, id, y, cq)
    ensures Means(p + q, id, x + y, cq)
  {
    MeaningConcat(p, q, id);
  }

  lemma {:induction false} MeansAfterCompletion(p: seq<Timed>, q: seq<Timed>, id: nat, x: seq<string>)
    requires Means(p, id, x, true)
    ensures Means(p + q, id, x, true)
  {
    MeaningConcat(p, q, id);
  }

  lemma {:induction false} MeansThenNothing(p: seq<Timed>, q: seq<Timed>, id: nat, x: seq<string>, c: bool)
    requires Means(p, id, x, c) && Means(q, id, [], false)
    ensures Means(p + q, id, x, c)
  {
    if c {
      MeansAfterCompletion(p, q, id, x);
    } else {
      MeansConcat(p, q, id, x, [], false);
      assert x + [] == x;
    }
  }

  lemma {:induction false} MeansOne(e: BackendEvent, at: real, id: nat)
    ensures Means([Timed(e, at)], id, if e.BatchToken? && e.id == id then [e.token] else [], e == BatchCompleted(id))
  {
    MeaningOfOne(Timed(e, at), id);
  }

  /** What one decode step yields for a request that wants m tokens. */
  function StepTokens(index: nat, m: nat): seq<string> { if index < m then [Tok(index)] else [] }

  lemma {:induction false} ShareMeans(job: Job, index: nat, at: real)
    ensures Means(Share(job, index, at), job.id, StepTokens(index, job.maxTokens), index + 1 == job.maxTokens)
  {
    var token, done := Timed(BatchToken(job.id, Tok(index)), at), Timed(BatchCompleted(job.id), at);
    MeansOne(token.e, at, job.id);
    if index + 1 == job.maxTokens {
      MeansOne(done.e, at, job.id);
      MeansConcat([token], [done], job.id, [Tok(index)], [], true);
      assert [token] + [done] == Share(job, index, at) && [Tok(index)] + [] == [Tok(index)];
    }
  }

  lemma {:induction false} ShareOfOther(job: Job, index: nat, at: real, id: nat)
    requires job.id != id
    ensures Means(Share(job, index, at), id, [], false)
  {
    var token, done := Timed(BatchToken(job.id, Tok(index)), at), Timed(BatchCompleted(job.id), at);
    MeansOne(token.e, at, id);
    if index + 1 == job.maxTokens {
      MeansOne(done.e, at, id);
      MeansThenNothing([token], [done], id, [], false);
      assert [token] + [done] == Share(job, index, at);
    }
  }

  lemma {:induction false} RoundOfOthers(jobs: seq<Job>, index: nat, at: real, id: nat)
    requires forall k :: 0 <= k < |jobs| ==> jobs[k].id != id
    ensures Means(Round(jobs, index, at), id, [], false)
  {
    if jobs != [] {
      var n := |jobs| - 1;
      RoundOfOthers(jobs[..n], index, at, id);
      ShareOfOther(jobs[n], index, at, id);
      MeansThenNothing(Round(jobs[..n], index, at), Share(jobs[n], index, at), id, [], false);
    }
  }

  lemma {:induction false} DistinctPrefix(jobs: seq<Job>, n: nat)
    requires DistinctIds(jobs) && |jobs| == n + 1
    ensures DistinctIds(jobs[..n])
    ensures forall j :: 0 <= j < |jobs[..n]| ==> jobs[..n][j].id != jobs[n].id
  {
  }

  /** The last request's share of a decode step, after the shares p of the others. */
  lemma {:induction false} OwnShare(p: seq<Timed>, job: Job, index: nat, at: real, r: seq<Timed>)
    requires Means(p, job.id, [], false) && r == p + Share(job, index, at)
    ensures Means(r, job.id, StepTokens(index, job.maxTokens), index + 1 == job.maxTokens)
  {
    var y := StepTokens(index, job.maxTokens);
    ShareMeans(job, index, at);
    MeansConcat(p, Share(job, index, at), job.id, [], y, index + 1 == job.maxTokens);
    assert [] + y == y;
  }

  /** The last request's share of a decode step means nothing to another request. */
  lemma {:induction false} ForeignShare(p: seq<Timed>, job: Job, index: nat, at: real, r: seq<Timed>,
                                        id: nat, x: seq<string>, c: bool)
    requires Means(p, id, x, c) && job.id != id && r == p + Share(job, index, at)
    ensures Means(r, id, x, c)
  {
    ShareOfOther(job, index, at, id);
    MeansThenNothing(p, Share(job, index, at), id, x, c);
  }

  lemma {:induction false} NextShare(jobs: seq<Job>, index: nat, at: real)
    requires jobs != []
    ensures Round(jobs, index, at) == Round(jobs[..|jobs| - 1], index, at) + Share(jobs[|jobs| - 1], index, at)
  {
  }

  /** In each decode step a request gets its next token, if it still wants one, and completes with its last. */
  lemma {:induction false} RoundMeans(jobs: seq<Job>, index: nat, at: real, k: nat)
    requires DistinctIds(jobs) && k < |jobs|
    ensures Means(Round(jobs, index, at), jobs[k].id, StepTokens(index, jobs[k].maxTokens),
                  index + 1 == jobs[k].maxTokens)
  {
    var n := |jobs| - 1;
    var p, r := Round(jobs[..n], index, at), Round(jobs, index, at);
    NextShare(jobs, index, at);
    DistinctPrefix(jobs, n);
    if k < n {
      RoundMeans(jobs[..n], index, at, k);
      ForeignShare(p, jobs[n], index, at, r, jobs[k].id, StepTokens(index, jobs[k].maxTokens),
                   index + 1 == jobs[k].maxTokens);
    } else {
      RoundOfOthers(jobs[..n], index, at, jobs[n].id);
      OwnShare(p, jobs[n], index, at, r);
    }
  }

  function Min(n: nat, m: nat): nat { if n < m then n else m }

  lemma {:induction false} MeansAppend(p: seq<Timed>, q: seq<Timed>, id: nat, x: seq<string>, y: seq<string>, c: bool,
                                       d: bool)
    requires Means(p, id, x, c) && Means(q, id, y, d) && (c ==> y == [] && !d)
    ensures Means(p + q, id, x + y, c || d)
  {
    if c {
      MeansThenNothing(p, q, id, x, c);
      assert x + y == x;
    } else {
      MeansConcat(p, q, id, x, y, d);
    }
  }

  lemma {:induction false} NextMockTokens(n: nat, m: nat)
    ensures MockTokens(Min(n, m)) + StepTokens(n, m) == MockTokens(Min(n + 1, m))
  {
  }

  lemma {:induction false} NextRoundMeans(p: seq<Timed>, q: seq<Timed>, r: seq<Timed>, id: nat, n: nat, m: nat)
    requires Means(p, id, MockTokens(Min(n, m)), 1 <= m <= n)
    requires Means(q, id, StepTokens(n, m), n + 1 == m)
    requires r == p + q
    ensures Means(r, id, MockTokens(Min(n + 1, m)), 1 <= m <= n + 1)
  {
    NextMockTokens(n, m);
    MeansAppend(p, q, id, MockTokens(Min(n, m)), StepTokens(n, m), 1 <= m <= n, n + 1 == m);
  }

  /** What a request has after n decode steps: its first min(n, max_tokens) tokens, and
      it is complete once n has reached a positive max_tokens. */
  ghost predicate Decoded(ts: seq<Timed>, job: Job, n: nat) {
    Means(ts, job.id, MockTokens(Min(n, job.maxTokens)), 1 <= job.maxTokens <= n)
  }

  lemma {:induction false} NothingDecoded(job: Job)
    ensures Decoded([], job, 0)
  {
  }

  lemma {:induction false} DecodedOneMore(p: seq<Timed>, q: seq<Timed>, job: Job, n: nat)
    requires n > 0 && Decoded(p, job, n - 1) && Means(q, job.id, StepTokens(n - 1, job.maxTokens), n == job.maxTokens)
    ensures Decoded(p + q, job, n)
  {
    NextRoundMeans(p, q, p + q, job.id, n - 1, job.maxTokens);
  }

  lemma {:induction false} NextRound(clock: nat -> real, jobs: seq<Job>, n: nat)
    requires n > 0
    ensures Rounds(clock, jobs, n) == Rounds(clock, jobs, n - 1) + Round(jobs, n - 1, clock(n))
  {
  }

  lemma {:induction false} RoundsMean(clock: nat -> real, jobs: seq<Job>, n: nat, k: nat)
    requires DistinctIds(jobs) && k < |jobs|
    ensures Decoded(Rounds(clock, jobs, n), jobs[k], n)
  {
    if n == 0 {
      NothingDecoded(jobs[k]);
    } else {
      NextRound(clock, jobs, n);
      RoundsMean(clock, jobs, n - 1, k);
      RoundMeans(jobs, n - 1, clock(n), k);
      DecodedOneMore(Rounds(clock, jobs, n - 1), Round(jobs, n - 1, clock(n)), jobs[k], n);
    }
  }

  lemma {:induction false} SoloMeans(clock: (nat, nat) -> real, k: nat, job: Job, n: nat)
    ensures Means(Solo(clock, k, job, n), job.id, MockTokens(n), false)
  {
    if n > 0 {
      SoloMeans(clock, k, job, n - 1);
      MeansOne(BatchToken(job.id, Tok(n - 1)), clock(k, n), job.id);
      MeansConcat(Solo(clock, k, job, n - 1), [Timed(BatchToken(job.id, Tok(n - 1)), clock(k, n))], job.id,
                  MockTokens(n - 1), [Tok(n - 1)], false);
    }
  }

  lemma {:induction false} SoloOfOther(clock: (nat, nat) -> real, k: nat, job: Job, n: nat, id: nat)
    requires job.id != id
    ensures Means(Solo(clock, k, job, n), id, [], false)
  {
    if n > 0 {
      SoloOfOther(clock, k, job, n - 1, id);
      MeansOne(BatchToken(job.id, Tok(n - 1)), clock(k, n), id);
      MeansThenNothing(Solo(clock, k, job, n - 1), [Timed(BatchToken(job.id, Tok(n - 1)), clock(k, n))], id, [], false);
    }
  }

  lemma {:induction false} OthersInTurn(clock: (nat, nat) -> real, jobs: seq<Job>, id: nat)
    requires forall k :: 0 <= k < |jobs| ==> jobs[k].id != id
    ensures Means(OneAfterAnother(clock, jobs), id, [], false)
  {
    if jobs != [] {
      var n := |jobs| - 1;
      OthersInTurn(clock, jobs[..n], id);
      TurnOfOther(clock, jobs, id, [], false);
    }
  }

  /** The last request's turn means nothing to another request. */
  lemma {:induction false} TurnOfOther(clock: (nat, nat) -> real, jobs: seq<Job>, id: nat, x: seq<string>, c: bool)
    requires jobs != [] && jobs[|jobs| - 1].id != id
    requires Means(OneAfterAnother(clock, jobs[..|jobs| - 1]), id, x, c)
    ensures Means(OneAfterAnother(clock, jobs), id, x, c)
  {
    var n := |jobs| - 1;
    var p, q := OneAfterAnother(clock, jobs[..n]), Solo(clock, n, jobs[n], jobs[n].maxTokens);
    var at := clock(n, jobs[n].maxTokens);
    SoloOfOther(clock, n, jobs[n], jobs[n].maxTokens, id);
    MeansThenNothing(p, q, id, x, c);
    MeansOne(BatchCompleted(jobs[n].id), at, id);
    MeansThenNothing(p + q, [Timed(BatchCompleted(jobs[n].id), at)], id, x, c);
  }

  lemma {:induction false} OneAfterAnotherMeans(clock: (nat, nat) -> real, jobs: seq<Job>, k: nat)
    requires DistinctIds(jobs) && k < |jobs|
    ensures Means(OneAfterAnother(clock, jobs), jobs[k].id, MockTokens(jobs[k].maxTokens), true)
  {
    var n := |jobs| - 1;
    if k < n {
      OneAfterAnotherMeans(clock, jobs[..n], k);
      TurnOfOther(clock, jobs, jobs[k].id, MockTokens(jobs[k].maxTokens), true);
    } else {
      OthersInTurn(clock, jobs[..n], jobs[n].id);
      OwnTurn(clock, jobs);
    }
  }

  /** The last request's turn, after turns that meant nothing to it. */
  lemma {:induction false} OwnTurn(clock: (nat, nat) -> real, jobs: seq<Job>)
    requires jobs != [] && Means(OneAfterAnother(clock, jobs[..|jobs| - 1]), jobs[|jobs| - 1].id, [], false)
    ensures Means(OneAfterAnother(clock, jobs), jobs[|jobs| - 1].id, MockTokens(jobs[|jobs| - 1].maxTokens), true)
  {
    var n := |jobs| - 1;
    var job, id, ts := jobs[n], jobs[n].id, MockTokens(jobs[n].maxTokens);
    var p, q := OneAfterAnother(clock, jobs[..n]), Solo(clock, n, job, job.maxTokens);
    var last := [Timed(BatchCompleted(id), clock(n, job.maxTokens))];
    SoloMeans(clock, n, job, job.maxTokens);
    MeansConcat(p, q, id, [], ts, false);
    assert [] + ts == ts;
    MeansOne(BatchCompleted(id), clock(n, job.maxTokens), id);
    MeansConcat(p + q, last, id, ts, [], true);
    assert ts + [] == ts;
  }

  /** Same outcome for every request of every request list, whichever way the batch is decoded. */
  lemma {:induction false} BatchedMeansSequential(clock: nat -> real, clocks: (nat, nat) -> real, jobs: seq<Job>,
                                                  k: nat, ending: Ending)
    requires DistinctIds(jobs) && k < |jobs| && ending.Exhausted?
    ensures Outcome(Untimed(Rounds(clock, jobs, MaxTokens(jobs))), ending, jobs[k].id)
         == Outcome(Untimed(OneAfterAnother(clocks, jobs)), ending, jobs[k].id)
         == Succeeded(MockTokens(jobs[k].maxTokens))
  {
    RoundsMean(clock, jobs, MaxTokens(jobs), k);
    OneAfterAnotherMeans(clocks, jobs, k);
    MeaningIsProjection(Rounds(clock, jobs, MaxTokens(jobs)), jobs[k].id);
    MeaningIsProjection(OneAfterAnother(clocks, jobs), jobs[k].id);
  }

  /** End to end, through the worker: executing the batched stream and executing the sequential stream, each under
      arbitrary activity of other tasks, give every request not cancelled early the same result, which is its mock
      text. */
  lemma {:induction false} BatchingPreservesResults(clock: nat -> real, clocks: (nat, nat) -> real, jobs: seq<Job>,
                                                    k: nat, batch: seq<nat>,
                                 s1: State, script1: seq<Happening>, order1: seq<nat>, ending1: Ending,
                                 s2: State, script2: seq<Happening>, order2: seq<nat>, ending2: Ending)
    requires DistinctIds(jobs) && k < |jobs| && ending1.Exhausted? && ending2.Exhausted?
    requires Stream(script1) == Untimed(Rounds(clock, jobs, MaxTokens(jobs)))
    requires Stream(script2) == Untimed(OneAfterAnother(clocks, jobs))
    requires Executable(s1, batch, script1, order1, jobs[k].id) && Executable(s2, batch, script2, order2, jobs[k].id)
    ensures var t1, t2 := Execute(s1, batch, script1, order1, ending1), Execute(s2, batch, script2, order2, ending2);
            jobs[k].id < |t1.entries| && jobs[k].id < |t2.entries| &&
            (var e1, e2 := t1.entries[jobs[k].id], t2.entries[jobs[k].id];
             !CancelledFirst(e1) && !CancelledFirst(e2) ==>
               && e1.verdict == e2.verdict == Succeeded(MockTokens(jobs[k].maxTokens))
               && (e1.item.streaming && e2.item.streaming ==> e1.put == e2.put))
  {
    RequestGetsItsProjection(s1, batch, script1, order1, ending1, jobs[k].id);
    RequestGetsItsProjection(s2, batch, script2, order2, ending2, jobs[k].id);
    BatchedMeansSequential(clock, clocks, jobs, k, ending1);
  }

  // ---------------------------------------------------------------------
  // Simulated time.

  /** Every event of this timed stream that completes `id` is yielded at time `at`. */
  ghost predicate CompletesOnlyAt(ts: seq<Timed>, id: nat, at: real) {
    forall i :: 0 <= i < |ts| && ts[i].e == BatchCompleted(id) ==> ts[i].at == at
  }

  lemma {:induction false} RoundCompletesAt(jobs: seq<Job>, index: nat, now: real, k: nat, at: real)
    requires k < |jobs| && DistinctIds(jobs) && (index + 1 == jobs[k].maxTokens ==> now == at)
    ensures CompletesOnlyAt(Round(jobs, index, now), jobs[k].id, at)
  {
    var n := |jobs| - 1;
    if k < n {
      RoundCompletesAt(jobs[..n], index, now, k, at);
    } else {
      OthersNeverComplete(jobs[..n], index, now, jobs[k].id, at);
    }
  }

  lemma {:induction false} OthersNeverComplete(jobs: seq<Job>, index: nat, now: real, id: nat, at: real)
    requires forall k :: 0 <= k < |jobs| ==> jobs[k].id != id
    ensures CompletesOnlyAt(Round(jobs, index, now), id, at)
  {
    if jobs != [] {
      OthersNeverComplete(jobs[..|jobs| - 1], index, now, id, at);
    }
  }

  /** In a batch, request k completes when its own last token is decoded. */
  lemma {:induction false} BatchedCompletionTime(clock: nat -> real, jobs: seq<Job>, n: nat, k: nat)
    requires DistinctIds(jobs) && k < |jobs|
    ensures CompletesOnlyAt(Rounds(clock, jobs, n), jobs[k].id, clock(jobs[k].maxTokens))
  {
    if n > 0 {
      BatchedCompletionTime(clock, jobs, n - 1, k);
      RoundCompletesAt(jobs, n - 1, clock(n), k, clock(jobs[k].maxTokens));
    }
  }

  lemma {:induction false} SoloNeverCompletes(clock: (nat, nat) -> real, k: nat, job: Job, n: nat, id: nat, at: real)
    ensures CompletesOnlyAt(Solo(clock, k, job, n), id, at)
  {
    if n > 0 {
      SoloNeverCompletes(clock, k, job, n - 1, id, at);
    }
  }

  lemma {:induction false} OthersInTurnNeverComplete(clock: (nat, nat) -> real, jobs: seq<Job>, id: nat, at: real)
    requires forall k :: 0 <= k < |jobs| ==> jobs[k].id != id
    ensures CompletesOnlyAt(OneAfterAnother(clock, jobs), id, at)
  {
    if jobs != [] {
      var n := |jobs| - 1;
      OthersInTurnNeverComplete(clock, jobs[..n], id, at);
      SoloNeverCompletes(clock, n, jobs[n], jobs[n].maxTokens, id, at);
    }
  }

  lemma {:induction false} SequentialCompletionTime(clock: (nat, nat) -> real, jobs: seq<Job>, k: nat)
    requires DistinctIds(jobs) && k < |jobs|
    ensures CompletesOnlyAt(OneAfterAnother(clock, jobs), jobs[k].id, clock(k, jobs[k].maxTokens))
  {
    var n, at := |jobs| - 1, clock(k, jobs[k].maxTokens);
    SoloNeverCompletes(clock, n, jobs[n], jobs[n].maxTokens, jobs[k].id, at);
    if k < n {
      SequentialCompletionTime(clock, jobs[..n], k);
    } else {
      OthersInTurnNeverComplete(clock, jobs[..n], jobs[k].id, at);
    }
  }

  /** Every event of this timed stream that hands `id` its token number i is yielded at time `at`. */
  ghost predicate TokenOnlyAt(ts: seq<Timed>, id: nat, i: nat, at: real) {
    forall j :: 0 <= j < |ts| && ts[j].e == BatchToken(id, Tok(i)) ==> ts[j].at == at
  }

  lemma {:induction false} RoundTokenTime(jobs: seq<Job>, index: nat, now: real, id: nat, i: nat, at: real)
    requires index == i ==> now == at
    ensures TokenOnlyAt(Round(jobs, index, now), id, i, at)
  {
    if jobs != [] {
      RoundTokenTime(jobs[..|jobs| - 1], index, now, id, i, at);
      TokIsInjective(index, i);
    }
  }

  /** In a batch, every request gets its i-th token at the end of the i-th decode step. */
  lemma {:induction false} BatchedTokenTime(clock: nat -> real, jobs: seq<Job>, n: nat, id: nat, i: nat)
    ensures TokenOnlyAt(Rounds(clock, jobs, n), id, i, clock(i + 1))
  {
    if n > 0 {
      BatchedTokenTime(clock, jobs, n - 1, id, i);
      RoundTokenTime(jobs, n - 1, clock(n), id, i, clock(i + 1));
    }
  }

  lemma {:induction false} SoloTokenTime(clock: (nat, nat) -> real, k: nat, job: Job, n: nat, id: nat, i: nat, at: real)
    requires job.id == id ==> at == clock(k, i + 1)
    ensures TokenOnlyAt(Solo(clock, k, job, n), id, i, at)
  {
    if n > 0 {
      SoloTokenTime(clock, k, job, n - 1, id, i, at);
      TokIsInjective(n - 1, i);
    }
  }

  lemma {:induction false} TurnTokenTime(p: seq<Timed>, q: seq<Timed>, last: Timed, id: nat, i: nat, at: real)
    requires TokenOnlyAt(p, id, i, at) && TokenOnlyAt(q, id, i, at) && last.e.BatchCompleted?
    ensures TokenOnlyAt(p + q + [last], id, i, at)
  {
  }

  lemma {:induction false} OthersInTurnTokenTime(clock: (nat, nat) -> real, jobs: seq<Job>, id: nat, i: nat, at: real)
    requires forall k :: 0 <= k < |jobs| ==> jobs[k].id != id
    ensures TokenOnlyAt(OneAfterAnother(clock, jobs), id, i, at)
  {
    if jobs != [] {
      var n := |jobs| - 1;
      OthersInTurnTokenTime(clock, jobs[..n], id, i, at);
      SoloTokenTime(clock, n, jobs[n], jobs[n].maxTokens, id, i, at);
      TurnTokenTime(OneAfterAnother(clock, jobs[..n]), Solo(clock, n, jobs[n], jobs[n].maxTokens),
                    Timed(BatchCompleted(jobs[n].id), clock(n, jobs[n].maxTokens)), id, i, at);
    }
  }

  /** In sequence it gets them in its own turn. */
  lemma {:induction false} SequentialTokenTime(clock: (nat, nat) -> real, jobs: seq<Job>, k: nat, i: nat)
    requires DistinctIds(jobs) && k < |jobs|
    ensures TokenOnlyAt(OneAfterAnother(clock, jobs), jobs[k].id, i, clock(k, i + 1))
  {
    var n, id, at := |jobs| - 1, jobs[k].id, clock(k, i + 1);
    SoloTokenTime(clock, n, jobs[n], jobs[n].maxTokens, id, i, at);
    if k < n {
      SequentialTokenTime(clock, jobs[..n], k, i);
    } else {
      OthersInTurnTokenTime(clock, jobs[..n], id, i, at);
    }
    TurnTokenTime(OneAfterAnother(clock, jobs[..n]), Solo(clock, n, jobs[n], jobs[n].maxTokens),
                  Timed(BatchCompleted(jobs[n].id), clock(n, jobs[n].maxTokens)), id, i, at);
  }

  function TotalTokens(jobs: seq<Job>): nat {
    if jobs == [] then 0 else TotalTokens(jobs[..|jobs| - 1]) + jobs[|jobs| - 1].maxTokens
  }

  /** One prefill for each request and one decode step for each token. */
  lemma {:induction false} TotalDurationIs(prefill: real, decode: real, jobs: seq<Job>)
    ensures TotalDuration(prefill, decode, jobs) == |jobs| as real * prefill + TotalTokens(jobs) as real * decode
  {
    if jobs != [] {
      var n := |jobs| - 1;
      TotalDurationIs(prefill, decode, jobs[..n]);
      Distribute(n as real, 1.0, prefill);
      Distribute(TotalTokens(jobs[..n]) as real, jobs[n].maxTokens as real, decode);
    }
  }

  lemma Distribute(x: real, y: real, z: real)
    ensures (x + y) * z == x * z + y * z
  {
  }

  /** `own` is one prefill and n decode steps; `before` is what the k requests before request k need. */
  ghost predicate Costs(prefill: real, decode: real, jobs: seq<Job>, k: nat, n: nat, own: real, before: real)
    requires k <= |jobs|
  {
    && own == prefill + n as real * decode
    && before == k as real * prefill + TotalTokens(jobs[..k]) as real * decode
  }

  lemma {:induction false} ClocksShowCosts(prefill: real, decode: real, jobs: seq<Job>, k: nat, n: nat, own: real,
                                           before: real)
    requires k < |jobs| && Costs(prefill, decode, jobs, k, n, own, before)
    ensures DecodeClock(prefill, decode)(n) == own
    ensures SequentialClock(prefill, decode, jobs)(k, n) == before + own
  {
    TotalDurationIs(prefill, decode, jobs[..k]);
  }

  /** The simulated time of every token: in a batch, request k gets token number i after one prefill and i + 1 decode
      steps; in sequence, after that and all that the k requests before it need. */
  lemma {:induction false} TokenTimes(prefill: real, decode: real, jobs: seq<Job>, k: nat, i: nat, own: real,
                                      before: real)
    requires DistinctIds(jobs) && k < |jobs| && Costs(prefill, decode, jobs, k, i + 1, own, before)
    ensures TokenOnlyAt(Rounds(DecodeClock(prefill, decode), jobs, MaxTokens(jobs)), jobs[k].id, i, own)
    ensures TokenOnlyAt(OneAfterAnother(SequentialClock(prefill, decode, jobs), jobs), jobs[k].id, i, before + own)
  {
    ClocksShowCosts(prefill, decode, jobs, k, i + 1, own, before);
    BatchedTokenTime(DecodeClock(prefill, decode), jobs, MaxTokens(jobs), jobs[k].id, i);
    SequentialTokenTime(SequentialClock(prefill, decode, jobs), jobs, k, i);
  }

  lemma {:induction false} TotalDurationNonnegative(prefill: real, decode: real, jobs: seq<Job>)
    requires prefill >= 0.0 && decode >= 0.0
    ensures TotalDuration(prefill, decode, jobs) >= 0.0
  {
    if jobs != [] {
      TotalDurationNonnegative(prefill, decode, jobs[..|jobs| - 1]);
      assert jobs[|jobs| - 1].maxTokens as real * decode >= 0.0;
    }
  }

  lemma {:induction false} ClockReadings(prefill: real, decode: real, jobs: seq<Job>, k: nat)
    requires k < |jobs|
    ensures DecodeClock(prefill, decode)(jobs[k].maxTokens) == Duration(prefill, decode, jobs[k])
    ensures SequentialClock(prefill, decode, jobs)(k, jobs[k].maxTokens)
         == TotalDuration(prefill, decode, jobs[..k]) + Duration(prefill, decode, jobs[k])
    ensures var clock := SequentialClock(prefill, decode, jobs);
            clock(k, 0) == TotalDuration(prefill, decode, jobs[..k]) + prefill
            && forall n: nat :: clock(k, n + 1) == clock(k, n) + decode
  {
    forall n: nat
      ensures SequentialClock(prefill, decode, jobs)(k, n + 1) == SequentialClock(prefill, decode, jobs)(k, n) + decode
    {
      assert (n + 1) as real * decode == n as real * decode + decode;
    }
  }

  lemma {:induction false} CostsAreNonnegative(prefill: real, decode: real, jobs: seq<Job>, k: nat, n: nat, own: real,
                                               before: real)
    requires prefill >= 0.0 && decode >= 0.0 && k <= |jobs| && Costs(prefill, decode, jobs, k, n, own, before)
    ensures before >= 0.0
  {
    TotalDurationIs(prefill, decode, jobs[..k]);
    TotalDurationNonnegative(prefill, decode, jobs[..k]);
  }

  /** In simulated sleep time a request of a batch completes after its own prefill and decode steps, one in a sequence
      after those of all requests up to it; so batching never delays any request, and it saves exactly the time of the
      requests before it. Both forms do complete it (the batched one if it asks for any token). */
  lemma {:induction false} BatchingNeverDelays(prefill: real, decode: real, jobs: seq<Job>, k: nat, own: real,
                                               before: real)
    requires prefill >= 0.0 && decode >= 0.0 && DistinctIds(jobs) && k < |jobs|
    requires Costs(prefill, decode, jobs, k, jobs[k].maxTokens, own, before)
    ensures CompletesOnlyAt(Rounds(DecodeClock(prefill, decode), jobs, MaxTokens(jobs)), jobs[k].id, own)
    ensures CompletesOnlyAt(OneAfterAnother(SequentialClock(prefill, decode, jobs), jobs), jobs[k].id, before + own)
    ensures Completes(Untimed(OneAfterAnother(SequentialClock(prefill, decode, jobs), jobs)), jobs[k].id)
    ensures jobs[k].maxTokens >= 1 ==>
              Completes(Untimed(Rounds(DecodeClock(prefill, decode), jobs, MaxTokens(jobs))), jobs[k].id)
    ensures own <= before + own
  {
    var clock, clocks := DecodeClock(prefill, decode), SequentialClock(prefill, decode, jobs);
    ClocksShowCosts(prefill, decode, jobs, k, jobs[k].maxTokens, own, before);
    CostsAreNonnegative(prefill, decode, jobs, k, jobs[k].maxTokens, own, before);
    BatchedCompletionTime(clock, jobs, MaxTokens(jobs), k);
    SequentialCompletionTime(clocks, jobs, k);
    BothComplete(clock, clocks, jobs, k);
  }

  lemma {:induction false} BothComplete(clock: nat -> real, clocks: (nat, nat) -> real, jobs: seq<Job>, k: nat)
    requires DistinctIds(jobs) && k < |jobs|
    ensures Completes(Untimed(OneAfterAnother(clocks, jobs)), jobs[k].id)
    ensures jobs[k].maxTokens >= 1 ==> Completes(Untimed(Rounds(clock, jobs, MaxTokens(jobs))), jobs[k].id)
  {
    RoundsMean(clock, jobs, MaxTokens(jobs), k);
    OneAfterAnotherMeans(clocks, jobs, k);
    MeaningIsProjection(Rounds(clock, jobs, MaxTokens(jobs)), jobs[k].id);
    MeaningIsProjection(OneAfterAnother(clocks, jobs), jobs[k].id);
  }
}
