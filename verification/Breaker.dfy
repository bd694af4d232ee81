/** The circuit breaker and the adapter that fails over between candidates, against the trace of calls. */
module Breaker {
  import opened Wrappers

  // --- the breaker ---------------------------------------------------------------------------------

  datatype CircuitEntry = CircuitEntry(failures: nat, openedUntil: real)

  type Entries = map<string, CircuitEntry>

  datatype BreakerConfig = BreakerConfig(threshold: int, openSeconds: real)

  datatype Event = Success(provider: string) | Failure(provider: string, at: real)

  function Record(c: BreakerConfig, entries: Entries, e: Event): Entries {
    match e
    case Success(p) => entries - {p}
    case Failure(p, at) =>
      var failures := if p in entries then entries[p].failures + 1 else 1;
      var until := if p in entries then entries[p].openedUntil else 0.0;
      entries[p := CircuitEntry(failures, if failures >= c.threshold then at + c.openSeconds else until)]
  }

  function RecordAll(c: BreakerConfig, entries: Entries, events: seq<Event>): Entries {
    if events == [] then entries else Record(c, RecordAll(c, entries, events[..|events| - 1]), events[|events| - 1])
  }

  function After(c: BreakerConfig, trace: seq<Event>): Entries { RecordAll(c, map[], trace) }

  lemma {:induction false} RecordsJoin(c: BreakerConfig, trace: seq<Event>, events: seq<Event>)
    ensures RecordAll(c, After(c, trace), events) == After(c, trace + events)
    decreases |events|
  {
    if events == [] {
      assert trace + events == trace;
    } else {
      RecordsJoin(c, trace, events[..|events| - 1]);
      assert (trace + events)[..|trace + events| - 1] == trace + events[..|events| - 1];
    }
  }

  predicate IsOpen(entries: Entries, provider: string, now: real) {
    provider in entries && entries[provider].openedUntil > now
  }

  /** The failures of a provider since its last success. */
  function FailuresSince(trace: seq<Event>, provider: string): seq<real> {
    if trace == [] then []
    else
      var init, e := FailuresSince(trace[..|trace| - 1], provider), trace[|trace| - 1];
      if e.provider != provider then init else if e.Success? then [] else init + [e.at]
  }

  /** What "open" means, without the entries: enough failures since the last success, the latest of them recent. */
  predicate TraceOpen(c: BreakerConfig, trace: seq<Event>, provider: string, now: real) {
    var failures := FailuresSince(trace, provider);
    failures != [] && |failures| >= c.threshold && now < failures[|failures| - 1] + c.openSeconds
  }

  lemma {:induction false} EntryCountsFailures(c: BreakerConfig, trace: seq<Event>, provider: string)
    ensures var entries, failures := After(c, trace), FailuresSince(trace, provider);
      && (provider in entries <==> failures != [])
      && (failures != [] ==>
            && entries[provider].failures == |failures|
            && entries[provider].openedUntil
                 == if |failures| >= c.threshold then failures[|failures| - 1] + c.openSeconds else 0.0)
  {
    if trace != [] { EntryCountsFailures(c, trace[..|trace| - 1], provider); }
  }

  lemma OpenIffTraceOpen(c: BreakerConfig, trace: seq<Event>, provider: string, now: real)
    requires now >= 0.0
    ensures IsOpen(After(c, trace), provider, now) <==> TraceOpen(c, trace, provider, now)
  {
    EntryCountsFailures(c, trace, provider);
  }

  /** One breaker serves all requests; its ghost trace is everything they recorded on it, in order. */
  class CircuitBreaker {
    const config: BreakerConfig
    var entries: Entries
    ghost var trace: seq<Event>

    ghost predicate Valid() reads this { entries == After(config, trace) }

    constructor (config: BreakerConfig)
      ensures Valid() && this.config == config && trace == []
    {
      this.config := config;
      entries, trace := map[], [];
    }

    method CircuitOpen(provider: string, now: real) returns (open: bool)
      requires Valid() && now >= 0.0
      ensures open <==> IsOpen(entries, provider, now)
      ensures open <==> TraceOpen(config, trace, provider, now)
    {
      OpenIffTraceOpen(config, trace, provider, now);
      open := provider in entries && entries[provider].openedUntil > now;
    }

    method RecordSuccess(provider: string)
      requires Valid()
      modifies this
      ensures Valid() && trace == old(trace) + [Success(provider)]
    {
      assert provider !in entries ==> entries - {provider} == entries;
      if provider in entries { entries := entries - {provider}; }
      trace := trace + [Success(provider)];
      assert trace[..|trace| - 1] == old(trace);
    }

    method RecordFailure(provider: string, now: real)
      requires Valid()
      modifies this
      ensures Valid() && trace == old(trace) + [Failure(provider, now)]
    {
      if provider !in entries { entries := entries[provider := CircuitEntry(0, 0.0)]; }
      var entry := entries[provider];
      entry := entry.(failures := entry.failures + 1);
      if entry.failures >= config.threshold { entry := entry.(openedUntil := now + config.openSeconds); }
      entries := entries[provider := entry];
      trace := trace + [Failure(provider, now)];
      assert trace[..|trace| - 1] == old(trace);
    }

    /** What other requests over the same breaker record while this one is suspended. */
    method RecordOthers(events: seq<Event>)
      requires Valid()
      modifies this
      ensures Valid() && trace == old(trace) + events
      ensures entries == RecordAll(config, old(entries), events)
    {
      for i := 0 to |events|
        invariant Valid() && trace == old(trace) + events[..i]
      {
        assert events[..i + 1] == events[..i] + [events[i]];
        match events[i] {
          case Success(provider) => RecordSuccess(provider);
          case Failure(provider, at) => RecordFailure(provider, at);
        }
      }
      assert events[..|events|] == events;
      RecordsJoin(config, old(trace), events);
    }
  }

  // --- one request over the candidates -------------------------------------------------------------

  datatype Candidate = Candidate(providerId: string, model: string)

  datatype AdapterConfig = AdapterConfig(fallbackCodes: set<string>, deadlineSeconds: real, breaker: BreakerConfig)

  /** `complete` runs against a deadline and yields nothing on the way; `stream` has none and yields chunks. */
  datatype Request = CompleteRequest(started: real) | StreamRequest

  datatype CallResult = Response(text: string) | LlmError(code: string) | TimeoutRaised | Crash(detail: string) | Abandoned

  /** What the environment does at one candidate: time passes before it is considered, a call would take `duration` (and
      `lag` to unwind when it is cut), streaming `chunks` (if it streams) before its result, an empty Response for a
      stream that ends normally. The caller may leave during the call, closing the stream or being cancelled, when it has
      taken the given number of chunks. Meanwhile other requests record `before` and `during` on the shared breaker. */
  datatype Attempt = Attempt(
    wait: real, before: seq<Event>, duration: real, lag: real, during: seq<Event>, chunks: seq<string>, leaves: Option<nat>,
    result: CallResult)

  /** `result` is None when the candidate was skipped because its circuit was open. */
  datatype Visit = Visit(provider: string, from: real, to: real, result: Option<CallResult>)

  datatype End =
    | Completed(candidate: Candidate, text: string)
    | Raised(code: string)
    | Crashed(detail: string)
    | Left
    | Exhausted

  /** `entries` is what the breaker holds when the request has ended. */
  datatype Walk = Walk(yielded: seq<string>, end: End, visits: seq<Visit>, endedAt: real, entries: Entries)

  predicate CanFallBack(c: AdapterConfig, r: CallResult) {
    r.TimeoutRaised? || (r.LlmError? && r.code in c.fallbackCodes)
  }

  /** A result the next candidate cannot make good; a stream that has yielded cannot be taken over either. */
  predicate Stops(c: AdapterConfig, emitted: bool, r: CallResult) { !CanFallBack(c, r) || (emitted && r.LlmError?) }

  /** What an answered or fatal call returns or raises. */
  function EndOf(candidate: Candidate, r: CallResult): End {
    match r
    case Response(text) => Completed(candidate, text)
    case Crash(detail) => Crashed(detail)
    case LlmError(code) => Raised(code)
    case TimeoutRaised => Exhausted
    case Abandoned => Left
  }

  /** What a call records on the breaker. */
  function OwnEvents(c: AdapterConfig, id: string, r: CallResult, at: real): seq<Event> {
    if r.Response? then [Success(id)] else if CanFallBack(c, r) then [Failure(id, at)] else []
  }

  function Remaining(c: AdapterConfig, r: Request, t: real): real
    requires r.CompleteRequest?
  {
    c.deadlineSeconds - (t - r.started)
  }

  /** How the call ends if nothing cuts it: nothing in either loop catches what is raised when the caller leaves. */
  function ResultOf(a: Attempt): CallResult { if a.leaves.Some? then Abandoned else a.result }

  /** How long the call takes and how it comes out. A completing call still running at the deadline is cut by
      `asyncio.timeout`; nothing catches a timeout around a stream, so one raised inside it is a crash. */
  function Outcome(c: AdapterConfig, r: Request, t: real, a: Attempt): (real, CallResult) {
    match r
    case CompleteRequest(_) =>
      if a.duration < Remaining(c, r, t) then (a.duration, ResultOf(a)) else (Remaining(c, r, t) + a.lag, TimeoutRaised)
    case StreamRequest => (a.duration, if ResultOf(a).TimeoutRaised? then Crash("timeout") else ResultOf(a))
  }

  /** The chunks the caller takes: all, unless it leaves before. */
  function Taken(chunks: seq<string>, leaves: Option<nat>): seq<string> {
    if leaves.Some? && leaves.value < |chunks| then chunks[..leaves.value] else chunks
  }

  function Emitted(r: Request, a: Attempt): seq<string> { if r.StreamRequest? then Taken(a.chunks, a.leaves) else [] }

  function OutOfTime(c: AdapterConfig, r: Request, t: real): bool { r.CompleteRequest? && Remaining(c, r, t) <= 0.0 }

  /** One candidate at time `t`: the visit, what was yielded, whether the request ends with it, the entries then. */
  datatype Tried = Tried(visit: Visit, chunks: seq<string>, stops: bool, entries: Entries)

  function TryCandidate(c: AdapterConfig, r: Request, t: real, candidate: Candidate, a: Attempt, entries: Entries)
    : (tried: Tried)
    ensures tried.stops ==> tried.visit.result.Some?
  {
    var id := candidate.providerId;
    if IsOpen(entries, id, t) then Tried(Visit(id, t, t, None), [], false, entries)
    else
      var (took, result) := Outcome(c, r, t, a);
      var chunks := Emitted(r, a);
      Tried(Visit(id, t, t + took, Some(result)), chunks, Stops(c, chunks != [], result),
            RecordAll(c.breaker, RecordAll(c.breaker, entries, a.during), OwnEvents(c, id, result, t + took)))
  }

  predicate GivesUp(c: AdapterConfig, r: Request, t: real, candidate: Candidate, entries: Entries) {
    OutOfTime(c, r, t) && !IsOpen(entries, candidate.providerId, t)
  }

  /** The request from candidate `i` on. */
  function Serve(c: AdapterConfig, r: Request, now: real, cs: seq<Candidate>, env: seq<Attempt>, i: nat, entries: Entries)
    : Walk
    requires i <= |cs| == |env|
    decreases |cs| - i
  {
    if i == |cs| then Walk([], Exhausted, [], now, entries)
    else
      var t, seen := now + env[i].wait, RecordAll(c.breaker, entries, env[i].before);
      if GivesUp(c, r, t, cs[i], seen) then Walk([], Exhausted, [], t, seen)
      else
        var tried := TryCandidate(c, r, t, cs[i], env[i], seen);
        if tried.stops then
          Walk(tried.chunks, EndOf(cs[i], tried.visit.result.value), [tried.visit], tried.visit.to, tried.entries)
        else Then(tried.chunks, [tried.visit], Serve(c, r, tried.visit.to, cs, env, i + 1, tried.entries))
  }

  function Then(chunks: seq<string>, vs: seq<Visit>, w: Walk): Walk {
    w.(yielded := chunks + w.yielded, visits := vs + w.visits)
  }

  lemma ThenThen(chunks: seq<string>, vs: seq<Visit>, more: seq<string>, us: seq<Visit>, w: Walk)
    ensures Then(chunks, vs, Then(more, us, w)) == Then(chunks + more, vs + us, w)
  {
    assert vs + (us + w.visits) == (vs + us) + w.visits;
    assert chunks + (more + w.yielded) == (chunks + more) + w.yielded;
  }

  class ResilientAdapter {
    const config: AdapterConfig
    const candidates: seq<Candidate>
    const breaker: CircuitBreaker

    constructor (config: AdapterConfig, primary: Candidate, fallbacks: seq<Candidate>)
      ensures this.config == config && candidates == [primary] + fallbacks
      ensures fresh(breaker) && breaker.Valid() && breaker.config == config.breaker && breaker.trace == []
    {
      this.config := config;
      candidates := [primary] + fallbacks;
      breaker := new CircuitBreaker(config.breaker);
    }

    /** The except clauses around one call. */
    method HandleResult(candidate: Candidate, emitted: bool, result: CallResult, now: real) returns (stop: Option<End>)
      requires breaker.Valid() && breaker.config == config.breaker
      modifies breaker
      ensures breaker.Valid()
      ensures stop == if Stops(config, emitted, result) then Some(EndOf(candidate, result)) else None
      ensures breaker.entries
           == RecordAll(config.breaker, old(breaker.entries), OwnEvents(config, candidate.providerId, result, now))
    {
      RecordsJoin(config.breaker, breaker.trace, OwnEvents(config, candidate.providerId, result, now));
      match result {
        case Response(text) =>
          breaker.RecordSuccess(candidate.providerId);
          stop := Some(Completed(candidate, text));
        case TimeoutRaised =>
          breaker.RecordFailure(candidate.providerId, now);
          stop := None;
        case LlmError(code) =>
          var canFallBack := code in config.fallbackCodes;
          if canFallBack { breaker.RecordFailure(candidate.providerId, now); }
          stop := if emitted || !canFallBack then Some(Raised(code)) else None;
        case Crash(detail) =>
          stop := Some(Crashed(detail));
        case Abandoned =>
          stop := Some(Left);
      }
    }

    /** One candidate of a request, skipped if its circuit is open; `YieldAll` is the stream's loop over its chunks. */
    method Try(request: Request, open: bool, now: real, candidate: Candidate, a: Attempt)
      returns (chunks: seq<string>, stop: Option<End>, to: real, ghost visit: Visit)
      requires breaker.Valid() && breaker.config == config.breaker
      requires open <==> IsOpen(breaker.entries, candidate.providerId, now)
      modifies breaker
      ensures breaker.Valid() && to == visit.to
      ensures Tried(visit, chunks, stop.Some?, breaker.entries)
           == TryCandidate(config, request, now, candidate, a, old(breaker.entries))
      ensures stop.Some? ==> stop.value == EndOf(candidate, visit.result.value)
    {
      if open { return [], None, now, Visit(candidate.providerId, now, now, None); }
      var emitted := false;
      chunks := [];
      if request.StreamRequest? { chunks, emitted := YieldAll(a.chunks, a.leaves); }
      breaker.RecordOthers(a.during);
      var (took, result) := Outcome(config, request, now, a);
      to := now + took;
      visit := Visit(candidate.providerId, now, to, Some(result));
      stop := HandleResult(candidate, emitted, result, to);
    }

    method YieldAll(chunks: seq<string>, leaves: Option<nat>) returns (yielded: seq<string>, emitted: bool)
      ensures yielded == Taken(chunks, leaves) && (emitted <==> yielded != [])
    {
      yielded, emitted := [], false;
      for j := 0 to |chunks|
        invariant yielded == chunks[..j] && (emitted <==> j > 0) && (leaves.Some? ==> j <= leaves.value)
      {
        if leaves == Some(j) { return; }
        emitted := true;
        yielded := yielded + [chunks[j]];
      }
      assert chunks[..|chunks|] == chunks;
    }

    /** One pass of either loop: `stop` says how the request ends if it ends here, out of time included. */
    method Pass(request: Request, now: real, i: nat, env: seq<Attempt>)
      returns (chunks: seq<string>, stop: Option<End>, to: real, ghost visits: seq<Visit>)
      requires breaker.Valid() && breaker.config == config.breaker
      requires i < |candidates| == |env| && now >= 0.0 && Forward(env)
      modifies breaker
      ensures breaker.Valid() && to >= 0.0
      ensures Serve(config, request, now, candidates, env, i, old(breaker.entries)) ==
        if stop.Some? then Walk(chunks, stop.value, visits, to, breaker.entries)
        else Then(chunks, visits, Serve(config, request, to, candidates, env, i + 1, breaker.entries))
    {
      var t := now + env[i].wait;
      breaker.RecordOthers(env[i].before);
      ghost var seen := breaker.entries;
      var open := breaker.CircuitOpen(candidates[i].providerId, t);
      if !open && OutOfTime(config, request, t) { return [], Some(Exhausted), t, []; }
      ghost var visit;
      chunks, stop, to, visit := Try(request, open, t, candidates[i], env[i]);
      TriedGoesForward(config, request, t, candidates[i], env[i], seen);
      visits := [visit];
    }

    /** The loop over the candidates that both kinds of request run. */
    method Run(request: Request, started: real, env: seq<Attempt>)
      returns (yielded: seq<string>, end: End, endedAt: real, ghost visits: seq<Visit>)
      requires breaker.Valid() && breaker.config == config.breaker
      requires |env| == |candidates| && started >= 0.0 && Forward(env)
      modifies breaker
      ensures breaker.Valid()
      ensures Walk(yielded, end, visits, endedAt, breaker.entries)
           == Serve(config, request, started, candidates, env, 0, old(breaker.entries))
    {
      yielded, endedAt, visits := [], started, [];
      ghost var whole := Serve(config, request, started, candidates, env, 0, breaker.entries);
      NothingBefore(whole);
      for i := 0 to |candidates|
        invariant breaker.Valid() && endedAt >= 0.0
        invariant Then(yielded, visits, Serve(config, request, endedAt, candidates, env, i, breaker.entries)) == whole
      {
        var chunks, stop, to;
        ghost var more;
        chunks, stop, to, more := Pass(request, endedAt, i, env);
        if stop.Some? { return yielded + chunks, stop.value, to, visits + more; }
        ThenThen(yielded, visits, chunks, more, Serve(config, request, to, candidates, env, i + 1, breaker.entries));
        yielded, visits, endedAt := yielded + chunks, visits + more, to;
      }
      NothingAfter(yielded, visits, endedAt, breaker.entries);
      end := Exhausted;
    }

    method Complete(started: real, env: seq<Attempt>) returns (end: End, endedAt: real, ghost visits: seq<Visit>)
      requires breaker.Valid() && breaker.config == config.breaker
      requires |env| == |candidates| && started >= 0.0 && Forward(env)
      modifies breaker
      ensures breaker.Valid()
      ensures var w := Serve(config, CompleteRequest(started), started, candidates, env, 0, old(breaker.entries));
        end == w.end && endedAt == w.endedAt && visits == w.visits && breaker.entries == w.entries
    {
      var yielded;
      yielded, end, endedAt, visits := Run(CompleteRequest(started), started, env);
    }

    method Stream(started: real, env: seq<Attempt>)
      returns (yielded: seq<string>, end: End, endedAt: real, ghost visits: seq<Visit>)
      requires breaker.Valid() && breaker.config == config.breaker
      requires |env| == |candidates| && started >= 0.0 && Forward(env)
      modifies breaker
      ensures breaker.Valid()
      ensures Walk(yielded, end, visits, endedAt, breaker.entries)
           == Serve(config, StreamRequest, started, candidates, env, 0, old(breaker.entries))
    {
      yielded, end, endedAt, visits := Run(StreamRequest, started, env);
    }
  }

  lemma NothingBefore(w: Walk)
    ensures Then([], [], w) == w
  {
  }

  lemma NothingAfter(chunks: seq<string>, vs: seq<Visit>, now: real, entries: Entries)
    ensures Then(chunks, vs, Walk([], Exhausted, [], now, entries)) == Walk(chunks, Exhausted, vs, now, entries)
  {
    assert chunks + [] == chunks && vs + [] == vs;
  }

  predicate Forward(env: seq<Attempt>) {
    forall k | 0 <= k < |env| :: env[k].wait >= 0.0 && env[k].duration >= 0.0 && env[k].lag >= 0.0
  }

  lemma TriedGoesForward(c: AdapterConfig, r: Request, t: real, candidate: Candidate, a: Attempt, entries: Entries)
    requires a.duration >= 0.0 && a.lag >= 0.0 && !GivesUp(c, r, t, candidate, entries)
    ensures var v := TryCandidate(c, r, t, candidate, a, entries).visit; v.from == t <= v.to
  {
  }

  // --- requests against the trace ------------------------------------------------------------------

  /** What a call leaves of the failures the trace `mid` holds: an answer clears its provider's, a timeout or an error
      that allows a fallback adds one at the end of the call, and anything else, and any other provider, is untouched. */
  ghost predicate Recorded(c: AdapterConfig, mid: seq<Event>, after: seq<Event>, v: Visit)
    requires v.result.Some?
  {
    && mid <= after
    && (forall p | p != v.provider :: FailuresSince(after, p) == FailuresSince(mid, p))
    && FailuresSince(after, v.provider) ==
       match v.result.value
       case Response(_) => []
       case TimeoutRaised => FailuresSince(mid, v.provider) + [v.to]
       case LlmError(code) =>
         if code in c.fallbackCodes then FailuresSince(mid, v.provider) + [v.to] else FailuresSince(mid, v.provider)
       case _ => FailuresSince(mid, v.provider)
  }

  lemma OwnEventsAreRecorded(c: AdapterConfig, mid: seq<Event>, v: Visit)
    requires v.result.Some?
    ensures Recorded(c, mid, mid + OwnEvents(c, v.provider, v.result.value, v.to), v)
  {
    var own := OwnEvents(c, v.provider, v.result.value, v.to);
    if own == [] {
      assert mid + own == mid;
    } else {
      assert (mid + own)[..|mid|] == mid;
    }
  }

  /** From the trace `traces[0]` on: each visit was a skip exactly when the trace of everything recorded up to it, by others
      and by the visits before, says its circuit is open; each call records what its result says, after what others
      recorded meanwhile; and the entries at the end are those of the whole trace. */
  ghost predicate GatedByTrace(c: AdapterConfig, env: seq<Attempt>, traces: seq<seq<Event>>, visits: seq<Visit>, last: Entries)
    requires |traces| == |visits| + 1
    decreases |visits|
  {
    if visits == [] then
      last == After(c.breaker, traces[0]) || (env != [] && last == After(c.breaker, traces[0] + env[0].before))
    else
      && env != []
      && var v, seen := visits[0], traces[0] + env[0].before;
         && (v.result.None? <==> TraceOpen(c.breaker, seen, v.provider, v.from))
         && (if v.result.None? then traces[1] == seen else Recorded(c, seen + env[0].during, traces[1], v))
         && GatedByTrace(c, env[1..], traces[1..], visits[1..], last)
  }

  lemma GatedStep(c: AdapterConfig, env: seq<Attempt>, trace: seq<Event>, v: Visit, traces: seq<seq<Event>>, rest: seq<Visit>,
                  last: Entries)
    requires env != [] && |traces| == |rest| + 1
    requires v.result.None? <==> TraceOpen(c.breaker, trace + env[0].before, v.provider, v.from)
    requires if v.result.None? then traces[0] == trace + env[0].before
             else Recorded(c, trace + env[0].before + env[0].during, traces[0], v)
    requires GatedByTrace(c, env[1..], traces, rest, last)
    ensures GatedByTrace(c, env, [trace] + traces, [v] + rest, last)
  {
    assert ([v] + rest)[1..] == rest && ([trace] + traces)[1..] == traces;
  }

  /** The entries decide one candidate as the trace they come from does, and stay those of a trace in which the call is
      recorded. */
  lemma TriedIsGated(c: AdapterConfig, r: Request, t: real, candidate: Candidate, a: Attempt, seen: seq<Event>)
    returns (after: seq<Event>)
    requires t >= 0.0
    ensures var tried := TryCandidate(c, r, t, candidate, a, After(c.breaker, seen));
      && tried.visit.from == t && tried.entries == After(c.breaker, after)
      && (tried.visit.result.None? <==> TraceOpen(c.breaker, seen, tried.visit.provider, tried.visit.from))
      && if tried.visit.result.None? then after == seen else Recorded(c, seen + a.during, after, tried.visit)
  {
    OpenIffTraceOpen(c.breaker, seen, candidate.providerId, t);
    var visit := TryCandidate(c, r, t, candidate, a, After(c.breaker, seen)).visit;
    after := seen;
    if visit.result.Some? {
      var own := OwnEvents(c, candidate.providerId, visit.result.value, visit.to);
      RecordsJoin(c.breaker, seen, a.during);
      RecordsJoin(c.breaker, seen + a.during, own);
      after := seen + a.during + own;
      OwnEventsAreRecorded(c, seen + a.during, visit);
    }
  }

  /** However other requests interleave, neither kind of request calls a candidate whose circuit is open by the trace of
      all of them, every call records exactly what its result says, and the breaker ends with the entries of that trace. */
  lemma {:induction false} NoOpenCandidateIsCalled(
    c: AdapterConfig, r: Request, now: real, cs: seq<Candidate>, env: seq<Attempt>, i: nat, trace: seq<Event>)
    returns (traces: seq<seq<Event>>)
    requires i <= |cs| == |env| && now >= 0.0 && Forward(env)
    ensures var w := Serve(c, r, now, cs, env, i, After(c.breaker, trace));
      |traces| == |w.visits| + 1 && traces[0] == trace && GatedByTrace(c, env[i..], traces, w.visits, w.entries)
    decreases |cs| - i
  {
    var w := Serve(c, r, now, cs, env, i, After(c.breaker, trace));
    traces := [trace];
    if i == |cs| { return; }
    var t, seen := now + env[i].wait, trace + env[i].before;
    RecordsJoin(c.breaker, trace, env[i].before);
    if GivesUp(c, r, t, cs[i], After(c.breaker, seen)) {
      assert w.visits == [] && w.entries == After(c.breaker, seen);
      return;
    }
    var tried := TryCandidate(c, r, t, cs[i], env[i], After(c.breaker, seen));
    var after := TriedIsGated(c, r, t, cs[i], env[i], seen);
    TriedGoesForward(c, r, t, cs[i], env[i], After(c.breaker, seen));
    assert env[i..][1..] == env[i + 1..];
    if tried.stops {
      GatedStep(c, env[i..], trace, tried.visit, [after], [], w.entries);
      traces := [trace] + [after];
      assert w.visits == [tried.visit] + [];
    } else {
      var rest := Serve(c, r, tried.visit.to, cs, env, i + 1, tried.entries);
      assert w == Then(tried.chunks, [tried.visit], rest);
      var more := NoOpenCandidateIsCalled(c, r, tried.visit.to, cs, env, i + 1, after);
      GatedStep(c, env[i..], trace, tried.visit, more, rest.visits, rest.entries);
      traces := [trace] + more;
    }
  }

  /** The same on the entries: what one call changes of what the breaker holds when it returns. */
  lemma CallRecords(c: AdapterConfig, r: Request, t: real, candidate: Candidate, a: Attempt, seen: seq<Event>)
    requires t >= 0.0 && !TraceOpen(c.breaker, seen, candidate.providerId, t)
    ensures var id, tried := candidate.providerId, TryCandidate(c, r, t, candidate, a, After(c.breaker, seen));
      var before, after, result := After(c.breaker, seen + a.during), tried.entries, tried.visit.result;
      && result.Some?
      && (result.value.Response? ==> id !in after)
      && (result.value.TimeoutRaised? || (result.value.LlmError? && result.value.code in c.fallbackCodes) ==>
            id in after && after[id].failures == 1 + if id in before then before[id].failures else 0)
      && (result.value.Crash? || result.value.Abandoned?
          || (result.value.LlmError? && result.value.code !in c.fallbackCodes) ==>
            (id in after <==> id in before) && (id in after ==> after[id] == before[id]))
  {
    var id, visit := candidate.providerId, TryCandidate(c, r, t, candidate, a, After(c.breaker, seen)).visit;
    var after := TriedIsGated(c, r, t, candidate, a, seen);
    EntryCountsFailures(c.breaker, seen + a.during, id);
    EntryCountsFailures(c.breaker, after, id);
  }

  // --- the deadline --------------------------------------------------------------------------------

  /** Time the environment takes outside the calls: between candidates, and to unwind a call that is cut. */
  function Overrun(env: seq<Attempt>, i: nat): real
    requires i <= |env|
    decreases |env| - i
  {
    if i == |env| then 0.0 else env[i].wait + env[i].lag + Overrun(env, i + 1)
  }

  lemma {:induction false} OverrunIsTime(env: seq<Attempt>, i: nat)
    requires i <= |env| && Forward(env)
    ensures Overrun(env, i) >= 0.0
    decreases |env| - i
  {
    if i < |env| { OverrunIsTime(env, i + 1); }
  }

  function Later(a: real, b: real): real { if a < b then b else a }

  /** The calls among the visits start before the deadline; all but the last are also over before it, and the last is
      over by it but for the time to unwind. */
  ghost predicate CallsInTime(visits: seq<Visit>, env: seq<Attempt>, deadline: real) {
    && |visits| <= |env|
    && (forall k | 0 <= k < |visits| && visits[k].result.Some? ::
          visits[k].from < deadline && visits[k].to <= deadline + env[k].lag)
    && (forall j, k | 0 <= j < k < |visits| && visits[j].result.Some? && visits[k].result.Some? :: visits[j].to < deadline)
  }

  lemma CallsInTimeStep(v: Visit, rest: seq<Visit>, env: seq<Attempt>, deadline: real)
    requires env != [] && CallsInTime(rest, env[1..], deadline)
    requires v.result.Some? ==> v.from < deadline && v.to <= deadline + env[0].lag
    requires forall k | 0 <= k < |rest| :: v.to <= rest[k].from
    ensures CallsInTime([v] + rest, env, deadline)
  {
    var visits := [v] + rest;
    assert forall k | 0 < k < |visits| :: visits[k] == rest[k - 1] && env[k] == env[1..][k - 1];
  }

  lemma TriedInTime(c: AdapterConfig, started: real, t: real, candidate: Candidate, a: Attempt, entries: Entries)
    requires a.duration >= 0.0 && a.lag >= 0.0 && !GivesUp(c, CompleteRequest(started), t, candidate, entries)
    ensures var v, deadline := TryCandidate(c, CompleteRequest(started), t, candidate, a, entries).visit, started + c.deadlineSeconds;
      && v.from == t && t <= v.to <= Later(t, deadline) + a.lag
      && (v.result.Some? ==> v.from < deadline && v.to <= deadline + a.lag)
  {
  }

  lemma {:induction false} VisitsGoForward(c: AdapterConfig, r: Request, now: real, cs: seq<Candidate>, env: seq<Attempt>, i: nat, entries: Entries)
    requires i <= |cs| == |env| && Forward(env)
    ensures forall v | v in Serve(c, r, now, cs, env, i, entries).visits :: now <= v.from
    decreases |cs| - i
  {
    var w := Serve(c, r, now, cs, env, i, entries);
    if i == |cs| { return; }
    var t, seen := now + env[i].wait, RecordAll(c.breaker, entries, env[i].before);
    if GivesUp(c, r, t, cs[i], seen) {
      assert w.visits == [];
    } else {
      var tried := TryCandidate(c, r, t, cs[i], env[i], seen);
      TriedGoesForward(c, r, t, cs[i], env[i], seen);
      if tried.stops {
        assert w.visits == [tried.visit];
      } else {
        var rest := Serve(c, r, tried.visit.to, cs, env, i + 1, tried.entries);
        VisitsGoForward(c, r, tried.visit.to, cs, env, i + 1, tried.entries);
        assert w == Then(tried.chunks, [tried.visit], rest);
      }
    }
  }

  /** A completion starts no call after the deadline and cuts at most its last call there. */
  lemma {:induction false} CompleteMeetsDeadline(
    c: AdapterConfig, started: real, now: real, cs: seq<Candidate>, env: seq<Attempt>, i: nat, entries: Entries)
    requires i <= |cs| == |env| && Forward(env)
    ensures CallsInTime(Serve(c, CompleteRequest(started), now, cs, env, i, entries).visits, env[i..], started + c.deadlineSeconds)
    decreases |cs| - i
  {
    var r := CompleteRequest(started);
    var w := Serve(c, r, now, cs, env, i, entries);
    if i == |cs| { return; }
    var t, seen := now + env[i].wait, RecordAll(c.breaker, entries, env[i].before);
    if GivesUp(c, r, t, cs[i], seen) {
      assert w.visits == [];
    } else {
      var tried := TryCandidate(c, r, t, cs[i], env[i], seen);
      assert !tried.stops ==>
        w == Then(tried.chunks, [tried.visit], Serve(c, r, tried.visit.to, cs, env, i + 1, tried.entries));
      TriedInTime(c, started, t, cs[i], env[i], seen);
      assert env[i..][1..] == env[i + 1..];
      if tried.stops {
        CallsInTimeStep(tried.visit, [], env[i..], started + c.deadlineSeconds);
        assert w.visits == [tried.visit] + [];
      } else {
        var rest := Serve(c, r, tried.visit.to, cs, env, i + 1, tried.entries);
        CompleteMeetsDeadline(c, started, tried.visit.to, cs, env, i + 1, tried.entries);
        VisitsGoForward(c, r, tried.visit.to, cs, env, i + 1, tried.entries);
        CallsInTimeStep(tried.visit, rest.visits, env[i..], started + c.deadlineSeconds);
      }
    }
  }

  /** The whole request is over by the deadline but for the time between candidates and for cut calls to unwind. */
  lemma {:induction false} CompleteEndsInTime(
    c: AdapterConfig, started: real, now: real, cs: seq<Candidate>, env: seq<Attempt>, i: nat, entries: Entries)
    requires i <= |cs| == |env| && Forward(env)
    ensures Serve(c, CompleteRequest(started), now, cs, env, i, entries).endedAt
         <= Later(now, started + c.deadlineSeconds) + Overrun(env, i)
    decreases |cs| - i
  {
    if i == |cs| { return; }
    var r, t, seen := CompleteRequest(started), now + env[i].wait, RecordAll(c.breaker, entries, env[i].before);
    OverrunIsTime(env, i + 1);
    if GivesUp(c, r, t, cs[i], seen) { return; }
    var tried := TryCandidate(c, r, t, cs[i], env[i], seen);
    TriedInTime(c, started, t, cs[i], env[i], seen);
    CompleteEndsInTime(c, started, tried.visit.to, cs, env, i + 1, tried.entries);
  }

  // --- what a request does -------------------------------------------------------------------------

  /** A visit that leads on to the next candidate: skipped, or failed in a way that allows a fallback, streaming nothing. */
  predicate PassesOn(c: AdapterConfig, r: Request, v: Visit, a: Attempt) {
    v.result.None? ||
    match v.result.value
    case TimeoutRaised => r.CompleteRequest?
    case LlmError(code) => code in c.fallbackCodes && (r.StreamRequest? ==> a.chunks == [])
    case _ => false
  }

  /** What a call comes to: a completion that would last to the deadline or longer times out there; any other call lasts as
      long as it lasts, and ends as it does unless the caller leaves first. */
  predicate CallIs(c: AdapterConfig, r: Request, v: Visit, a: Attempt) {
    v.result.Some? ==>
      if r.CompleteRequest? && v.from + a.duration >= r.started + c.deadlineSeconds
      then v.result == Some(TimeoutRaised) && v.to == r.started + c.deadlineSeconds + a.lag
      else
        && v.to == v.from + a.duration
        && v.result.value ==
           if a.leaves.Some? then Abandoned
           else if r.StreamRequest? && a.result.TimeoutRaised? then Crash("timeout") else a.result
  }

  /** The call whose result ends the request. */
  predicate Decides(v: Visit, candidate: Candidate, end: End) {
    match end
    case Completed(source, text) => source == candidate && v.result == Some(Response(text))
    case Raised(code) => v.result == Some(LlmError(code))
    case Crashed(detail) => v.result == Some(Crash(detail))
    case Left => v.result == Some(Abandoned)
    case Exhausted => false
  }

  /** What the caller gets of one candidate's stream: all of it, or what it took before it left. */
  predicate YieldsPrefix(r: Request, a: Attempt, yielded: seq<string>, end: End) {
    if r.CompleteRequest? then yielded == []
    else
      && yielded <= a.chunks && (!end.Left? ==> yielded == a.chunks)
      && |yielded| == if a.leaves.Some? && a.leaves.value < |a.chunks| then a.leaves.value else |a.chunks|
  }

  /** Candidates are visited in order, and the request goes on to the next exactly after a visit that passes on. It ends
      with the last visit's call, having yielded what that one streamed, or with nothing when all candidates passed on or
      a completion ran out of time. */
  ghost predicate OneAnswers(c: AdapterConfig, r: Request, cs: seq<Candidate>, env: seq<Attempt>, w: Walk)
    requires |cs| == |env|
  {
    var n := |w.visits|;
    && n <= |cs|
    && (forall k | 0 <= k < n :: w.visits[k].provider == cs[k].providerId && CallIs(c, r, w.visits[k], env[k]))
    && (forall k | 0 <= k < n - 1 :: PassesOn(c, r, w.visits[k], env[k]))
    && if w.end.Exhausted? then
         && w.yielded == [] && (n > 0 ==> PassesOn(c, r, w.visits[n - 1], env[n - 1]))
         && (n == |cs| || (r.CompleteRequest? && w.endedAt >= r.started + c.deadlineSeconds))
       else
         && n > 0 && !PassesOn(c, r, w.visits[n - 1], env[n - 1])
         && YieldsPrefix(r, env[n - 1], w.yielded, w.end) && Decides(w.visits[n - 1], cs[n - 1], w.end)
  }

  lemma OneAnswersStep(c: AdapterConfig, r: Request, cs: seq<Candidate>, env: seq<Attempt>, v: Visit, w: Walk)
    requires |cs| == |env| && cs != [] && v.provider == cs[0].providerId && PassesOn(c, r, v, env[0]) && CallIs(c, r, v, env[0])
    requires OneAnswers(c, r, cs[1..], env[1..], w)
    ensures OneAnswers(c, r, cs, env, Then([], [v], w))
  {
    var visits := [v] + w.visits;
    assert forall k | 0 < k < |visits| :: visits[k] == w.visits[k - 1] && cs[k] == cs[1..][k - 1] && env[k] == env[1..][k - 1];
  }

  lemma TriedDecides(c: AdapterConfig, r: Request, t: real, candidate: Candidate, a: Attempt, entries: Entries)
    ensures var tried := TryCandidate(c, r, t, candidate, a, entries);
      && tried.visit.provider == candidate.providerId && CallIs(c, r, tried.visit, a)
      && (tried.stops <==> !PassesOn(c, r, tried.visit, a))
      && if tried.stops then
           var end := EndOf(candidate, tried.visit.result.value);
           YieldsPrefix(r, a, tried.chunks, end) && Decides(tried.visit, candidate, end)
         else tried.chunks == []
  {
  }

  lemma DecidedAnswers(c: AdapterConfig, r: Request, cs: seq<Candidate>, env: seq<Attempt>, v: Visit, w: Walk)
    requires |cs| == |env| && cs != [] && v.provider == cs[0].providerId && w.visits == [v]
    requires CallIs(c, r, v, env[0]) && !PassesOn(c, r, v, env[0])
    requires YieldsPrefix(r, env[0], w.yielded, w.end) && Decides(v, cs[0], w.end)
    ensures OneAnswers(c, r, cs, env, w)
  {
  }

  lemma NobodyAnswers(c: AdapterConfig, r: Request, cs: seq<Candidate>, env: seq<Attempt>, w: Walk)
    requires |cs| == |env| && w.visits == [] && w.yielded == [] && w.end == Exhausted
    requires cs == [] || (r.CompleteRequest? && w.endedAt >= r.started + c.deadlineSeconds)
    ensures OneAnswers(c, r, cs, env, w)
  {
  }

  /** At most one candidate answers, whatever the breaker, the environment and other requests do. */
  lemma {:induction false} AtMostOneAnswers(
    c: AdapterConfig, r: Request, now: real, cs: seq<Candidate>, env: seq<Attempt>, i: nat, entries: Entries)
    requires i <= |cs| == |env|
    ensures OneAnswers(c, r, cs[i..], env[i..], Serve(c, r, now, cs, env, i, entries))
    decreases |cs| - i
  {
    var w := Serve(c, r, now, cs, env, i, entries);
    if i == |cs| {
      NobodyAnswers(c, r, cs[i..], env[i..], w);
    } else {
      var t, seen := now + env[i].wait, RecordAll(c.breaker, entries, env[i].before);
      if GivesUp(c, r, t, cs[i], seen) {
        NobodyAnswers(c, r, cs[i..], env[i..], w);
      } else {
        var tried := TryCandidate(c, r, t, cs[i], env[i], seen);
        TriedDecides(c, r, t, cs[i], env[i], seen);
        if tried.stops {
          DecidedAnswers(c, r, cs[i..], env[i..], tried.visit, w);
        } else {
          var rest := Serve(c, r, tried.visit.to, cs, env, i + 1, tried.entries);
          AtMostOneAnswers(c, r, tried.visit.to, cs, env, i + 1, tried.entries);
          assert cs[i..][1..] == cs[i + 1..] && env[i..][1..] == env[i + 1..];
          OneAnswersStep(c, r, cs[i..], env[i..], tried.visit, rest);
          assert w == Then([], [tried.visit], rest);
        }
      }
    }
  }
}
