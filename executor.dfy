/**
 * The retrying executor of client.go (`Client.do`): build the signed request,
 * send it, and on failure wait and retry, at most `maxRetries + 1` times.
 *
 * The transport, the clock and `json.Unmarshal` are inputs: `Env` gives the
 * outcome of attempt `i` and the clock reading taken during it. Sleeping is
 * recorded in a trace instead of performed. The backoff policy is the object
 * the client holds: a fixed sequence of delays followed by `Stop` forever.
 */
module Executor {
  import opened Wrappers
  import opened GoInt
  import opened GoTime
  import opened Errors
  import opened Requests
  import opened RateLimit

  /** `backoff.Stop`: the policy's "no more retries" value. */
  const Stop: Duration := -1

  const StatusOK: int := 200

  /** The delay a policy with the given delays hands out on its call number `calls`. */
  function NextDelay(delays: seq<Duration>, calls: nat): (d: Duration)
    ensures calls >= |delays| ==> d == Stop
    ensures calls < |delays| ==> d == delays[calls]
  {
    if calls < |delays| then delays[calls] else Stop
  }

  /** `backoff.BackOff` as the client uses it: only `NextBackOff` is ever
      called, and nothing resets it. */
  class BackOff {
    const delays: seq<Duration>
    var calls: nat

    constructor (delays: seq<Duration>)
      ensures this.delays == delays && calls == 0
    {
      this.delays := delays;
      calls := 0;
    }

    method NextBackOff() returns (d: Duration)
      modifies this
      ensures d == NextDelay(delays, old(calls))
      ensures calls == old(calls) + 1
    {
      d := NextDelay(delays, calls);
      calls := calls + 1;
    }
  }

  /** The parts of an `*http.Response` the executor reads. */
  datatype Response = Response(statusCode: int, body: string)

  /** What `json.Unmarshal` finds in a structured error body. */
  datatype DecodedFault = DecodedFault(fault: Fault, message: string)

  /** The outcome of one `client.Do`: a transport error, or a response
      together with the verdict of `json.Unmarshal` on its body (read only
      when the status is not 200). `decoded` is the error body when it
      decodes; `partial` is what a failed decode has filled in by the time it
      stops, which `do` keeps apart from the fault string it overwrites. */
  datatype Outcome =
    | NetError(cause: Error)
    | Reply(resp: Response, decoded: Option<DecodedFault>, partial: DecodedFault)

  /** The world the loop runs in: attempt `i`'s outcome and the clock during it. */
  datatype Env = Env(outcome: nat -> Outcome, now: nat -> Time)

  datatype TraceEvent = Attempted(attempt: nat) | Slept(d: Duration)

  /** The loop variables `resp`, `err` and `sleep`, the policy's call count
      and the trace so far. */
  datatype LoopState = LoopState(resp: Option<Response>, err: Option<Error>, sleep: Duration,
                                 calls: nat, trace: seq<TraceEvent>)

  /** After one attempt the loop either returns or goes on. */
  datatype Step = Finish(st: LoopState) | Next(st: LoopState)

  /** The error made from a non-200 response whose body does not decode: the
      partly filled error with the raw body as its fault string. */
  function OpaqueError(o: Outcome): Error
    requires o.Reply?
  {
    Tradier(TradierError(Fault(o.resp.body, o.partial.fault.errorCode), o.resp.statusCode, o.partial.message))
  }

  /** The sleep at the end of attempt `i`, if the loop goes on and the policy
      has not said `Stop`. */
  function MaybeSleep(i: nat, maxRetries: int, st: LoopState): LoopState {
    if i + 1 <= maxRetries && st.sleep != Stop then st.(trace := st.trace + [Slept(st.sleep)]) else st
  }

  /** An outcome after which `do` tries again (if attempts remain): a
      transport error, or a non-200 response whose body is not JSON. */
  predicate Retriable(o: Outcome) {
    o.NetError? || (o.resp.statusCode != StatusOK && o.decoded.None?)
  }

  /** What `do` returns when it stops at an outcome that is not retriable:
      a 200 with no error, or the response with its structured error. */
  function FinalResult(o: Outcome): (Option<Response>, Option<Error>)
    requires !Retriable(o)
  {
    if o.resp.statusCode == StatusOK then (Some(o.resp), None)
    else (Some(o.resp), Some(Tradier(TradierError(o.decoded.value.fault, o.resp.statusCode, o.decoded.value.message))))
  }

  /** What an attempt leaves behind when the loop goes on: no response and
      the transport error, or the response and its opaque error. */
  function RetryResult(o: Outcome): (Option<Response>, Option<Error>)
    requires Retriable(o)
  {
    if o.NetError? then (None, Some(o.cause)) else (Some(o.resp), Some(OpaqueError(o)))
  }

  /** The wait chosen after a retriable outcome, and the policy's new call count. */
  datatype Wait = Wait(sleep: Duration, calls: nat)

  /** A transport error asks the policy. An opaque error body waits for a
      quota expiry that lies after `now + prev` (one second past it), and
      asks the policy otherwise. */
  function NextWait(o: Outcome, now: Time, prev: Duration, delays: seq<Duration>, calls: nat): Wait
    requires Retriable(o)
  {
    if o.NetError? then Wait(NextDelay(delays, calls), calls + 1)
    else
      var expiry := ParseQuotaViolationExpiration(o.resp.body);
      if After(expiry, Add(now, prev)) then Wait(Wrap64(Sub(expiry, now) + Second), calls)
      else Wait(NextDelay(delays, calls), calls + 1)
  }

  /** One pass of the loop body, after the request has been built. */
  function Attempt(i: nat, maxRetries: int, st: LoopState, delays: seq<Duration>, env: Env): Step {
    var o := env.outcome(i);
    var trace := st.trace + [Attempted(i)];
    if !Retriable(o) then
      Finish(LoopState(FinalResult(o).0, FinalResult(o).1, st.sleep, st.calls, trace))
    else
      var w := NextWait(o, env.now(i), st.sleep, delays, st.calls);
      Next(MaybeSleep(i, maxRetries, LoopState(RetryResult(o).0, RetryResult(o).1, w.sleep, w.calls, trace)))
  }

  /** The loop from attempt `i` on. */
  function RunFrom(i: nat, maxRetries: int, st: LoopState, delays: seq<Duration>, env: Env): LoopState
    decreases maxRetries + 1 - i
  {
    if i > maxRetries then st
    else
      match Attempt(i, maxRetries, st, delays, env)
      case Finish(s) => s
      case Next(s) => RunFrom(i + 1, maxRetries, s, delays, env)
  }

  function InitialState(calls: nat): LoopState {
    LoopState(None, None, 0, calls, [])
  }

  /** The whole of `do`: a request that cannot be built is returned as the
      error before anything is sent; the request is the same on every
      attempt, so it is checked once. */
  function DoSpec(verb: string, url: string, body: Option<Values>, authHeader: string,
                  encode: Encoder, parseUrl: UrlCheck, maxRetries: int,
                  delays: seq<Duration>, calls: nat, env: Env): LoopState
  {
    if maxRetries < 0 then InitialState(calls)
    else
      match MakeSignedRequest(verb, url, body, authHeader, encode, parseUrl)
      case Failure(e) => LoopState(None, Some(e), 0, calls, [])
      case Success(_) => RunFrom(0, maxRetries, InitialState(calls), delays, env)
  }

  /** The client: its credentials and its backoff policy. */
  class Client {
    const authHeader: string
    const backoff: BackOff
    const retryLimit: int

    /** `NewClient`: the token becomes a bearer authorization header. */
    constructor (authToken: string, backoff: BackOff, retryLimit: int)
      ensures authHeader == "Bearer " + authToken
      ensures this.backoff == backoff && this.retryLimit == retryLimit
    {
      authHeader := "Bearer " + authToken;
      this.backoff := backoff;
      this.retryLimit := retryLimit;
    }

    /** `do`: the retry loop, reassigning `resp`, `err` and `sleep` and
        advancing the backoff policy. */
    method Do(verb: string, url: string, body: Option<Values>, maxRetries: int,
              encode: Encoder, parseUrl: UrlCheck, env: Env)
      returns (resp: Option<Response>, err: Option<Error>, trace: seq<TraceEvent>)
      modifies backoff
      ensures var r := DoSpec(verb, url, body, authHeader, encode, parseUrl, maxRetries,
                              backoff.delays, old(backoff.calls), env);
              resp == r.resp && err == r.err && trace == r.trace && backoff.calls == r.calls
    {
      ghost var goal := DoSpec(verb, url, body, authHeader, encode, parseUrl, maxRetries,
                               backoff.delays, backoff.calls, env);
      ghost var calls0 := backoff.calls;
      ghost var built := MakeSignedRequest(verb, url, body, authHeader, encode, parseUrl);
      var sleep: Duration := 0;
      resp, err, trace := None, None, [];
      var i: nat := 0;
      while i <= maxRetries
        invariant i > 0 ==> built.Success?
        invariant i == 0 ==> LoopState(resp, err, sleep, backoff.calls, trace) == InitialState(calls0)
        invariant maxRetries >= 0 ==>
                    RunFrom(i, maxRetries, LoopState(resp, err, sleep, backoff.calls, trace), backoff.delays, env)
                    == RunFrom(0, maxRetries, InitialState(calls0), backoff.delays, env)
        invariant maxRetries < 0 ==> LoopState(resp, err, sleep, backoff.calls, trace) == goal
        decreases maxRetries + 1 - i
      {
        var req := MakeSignedRequest(verb, url, body, authHeader, encode, parseUrl);
        if req.Failure? {
          return None, Some(req.error), trace;
        }
        var done;
        done, resp, err, sleep, trace := AttemptOnce(i, maxRetries, resp, err, sleep, trace, env);
        if done {
          return;
        }
        i := i + 1;
      }
    }

    /** The loop body after the request is built: send, then either finish
        (success, or a structured error) or pick the next sleep. */
    method AttemptOnce(i: nat, maxRetries: int, resp0: Option<Response>, err0: Option<Error>, sleep0: Duration,
                       trace0: seq<TraceEvent>, env: Env)
      returns (done: bool, resp: Option<Response>, err: Option<Error>, sleep: Duration, trace: seq<TraceEvent>)
      modifies backoff
      ensures var s := Attempt(i, maxRetries, LoopState(resp0, err0, sleep0, old(backoff.calls), trace0), backoff.delays, env);
              done == s.Finish? && LoopState(resp, err, sleep, backoff.calls, trace) == s.st
    {
      resp, err, sleep := resp0, err0, sleep0;
      trace := trace0 + [Attempted(i)];
      var outcome := env.outcome(i);
      if outcome.Reply? && outcome.resp.statusCode == StatusOK {
        return true, Some(outcome.resp), None, sleep, trace;
      }
      if outcome.NetError? {
        resp, err := None, Some(outcome.cause);
        sleep := backoff.NextBackOff();
      } else {
        var r := outcome.resp;
        resp := Some(r);
        if outcome.decoded.Some? {
          var decoded := outcome.decoded.value;
          return true, resp, Some(Tradier(TradierError(decoded.fault, r.statusCode, decoded.message))), sleep, trace;
        }
        err, sleep := OpaqueRetry(outcome, env.now(i), sleep);
      }
      if i + 1 <= maxRetries && sleep != Stop {
        trace := trace + [Slept(sleep)];
      }
      done := false;
    }

    /** A non-200 body that does not decode: keep the partly decoded error
        with the body as its fault string, and wait for the quota expiry when
        it lies past the previous sleep, else ask the policy. */
    method OpaqueRetry(outcome: Outcome, now: Time, sleep0: Duration) returns (err: Option<Error>, sleep: Duration)
      requires outcome.Reply? && Retriable(outcome)
      modifies backoff
      ensures err == Some(OpaqueError(outcome))
      ensures var w := NextWait(outcome, now, sleep0, backoff.delays, old(backoff.calls));
              sleep == w.sleep && backoff.calls == w.calls
    {
      var r := outcome.resp;
      var partial := outcome.partial;
      var tradierErr := TradierError(Fault(r.body, partial.fault.errorCode), r.statusCode, partial.message);
      err := Some(Tradier(tradierErr));
      var rateLimitExpiry := ParseQuotaViolationExpiration(tradierErr.fault.faultString);
      if After(rateLimitExpiry, Add(now, sleep0)) {
        sleep := Wrap64(Sub(rateLimitExpiry, now) + Second);
      } else {
        sleep := backoff.NextBackOff();
      }
    }
  }

  // ---------------------------------------------------------------------------
  // Traces

  /** The attempt numbers in a trace, in order. */
  function Attempts(trace: seq<TraceEvent>): seq<nat>
    decreases |trace|
  {
    if trace == [] then []
    else
      var e := trace[|trace| - 1];
      Attempts(trace[..|trace| - 1]) + (if e.Attempted? then [e.attempt] else [])
  }

  /** The sleeps in a trace, in order. */
  function Sleeps(trace: seq<TraceEvent>): seq<Duration>
    decreases |trace|
  {
    if trace == [] then []
    else
      var e := trace[|trace| - 1];
      Sleeps(trace[..|trace| - 1]) + (if e.Slept? then [e.d] else [])
  }

  lemma {:induction false} ProjectionsConcat(a: seq<TraceEvent>, b: seq<TraceEvent>)
    ensures Attempts(a + b) == Attempts(a) + Attempts(b)
    ensures Sleeps(a + b) == Sleeps(a) + Sleeps(b)
    decreases |b|
  {
    if b == [] {
      assert a + b == a;
    } else {
      var b' := b[..|b| - 1];
      var e := b[|b| - 1];
      assert (a + b)[..|a + b| - 1] == a + b';
      assert (a + b)[|a + b| - 1] == e;
      ProjectionsConcat(a, b');
      assert Attempts(a + b) == Attempts(a + b') + (if e.Attempted? then [e.attempt] else []);
      assert Sleeps(a + b) == Sleeps(a + b') + (if e.Slept? then [e.d] else []);
      assert Attempts(b) == Attempts(b') + (if e.Attempted? then [e.attempt] else []);
      assert Sleeps(b) == Sleeps(b') + (if e.Slept? then [e.d] else []);
    }
  }

  /** One attempt appends its own number, then at most one sleep, and that
      only when another attempt follows; the policy advances at most once. */
  lemma AttemptShape(i: nat, maxRetries: int, st: LoopState, delays: seq<Duration>, env: Env)
    ensures var step := Attempt(i, maxRetries, st, delays, env);
            var s := step.st;
            s.trace == st.trace + [Attempted(i)]
            || (step.Next? && i + 1 <= maxRetries && s.sleep != Stop && s.trace == st.trace + [Attempted(i), Slept(s.sleep)])
    ensures var s := Attempt(i, maxRetries, st, delays, env).st;
            st.calls <= s.calls <= st.calls + 1
    ensures Attempt(i, maxRetries, st, delays, env).Finish? ==> Attempt(i, maxRetries, st, delays, env).st.calls == st.calls
  {
  }

  lemma AttemptProjections(i: nat, maxRetries: int, st: LoopState, delays: seq<Duration>, env: Env)
    ensures var step := Attempt(i, maxRetries, st, delays, env);
            Attempts(step.st.trace) == Attempts(st.trace) + [i]
            && |Sleeps(step.st.trace)| <= |Sleeps(st.trace)| + (if step.Next? && i + 1 <= maxRetries then 1 else 0)
  {
    var step := Attempt(i, maxRetries, st, delays, env);
    AttemptShape(i, maxRetries, st, delays, env);
    if step.st.trace == st.trace + [Attempted(i)] {
      ProjectionsConcat(st.trace, [Attempted(i)]);
      assert Attempts([Attempted(i)]) == [i] by {
        assert [Attempted(i)][..0] == [];
      }
      assert Sleeps([Attempted(i)]) == [] by {
        assert [Attempted(i)][..0] == [];
      }
    } else {
      var d := step.st.sleep;
      ProjectionsConcat(st.trace, [Attempted(i), Slept(d)]);
      assert [Attempted(i), Slept(d)][..1] == [Attempted(i)];
      assert [Attempted(i)][..0] == [];
      assert Attempts([Attempted(i), Slept(d)]) == [i];
      assert Sleeps([Attempted(i), Slept(d)]) == [d];
    }
  }

  /** What holds of the loop from attempt `i` on, given its state there. */
  lemma {:induction false} RunFromCounts(i: nat, maxRetries: int, st: LoopState, delays: seq<Duration>, env: Env, c0: nat)
    requires 0 <= maxRetries && i <= maxRetries + 1
    requires |Attempts(st.trace)| == i && forall k :: 0 <= k < i ==> Attempts(st.trace)[k] == k
    requires |Sleeps(st.trace)| <= i && (i > maxRetries ==> |Sleeps(st.trace)| < i)
    requires st.calls <= c0 + i
    ensures var r := RunFrom(i, maxRetries, st, delays, env);
            var n := |Attempts(r.trace)|;
            i <= n <= maxRetries + 1 && 1 <= n
            && (forall k :: 0 <= k < n ==> Attempts(r.trace)[k] == k)
            && |Sleeps(r.trace)| < n
            && r.calls <= c0 + n
    decreases maxRetries + 1 - i
  {
    if i <= maxRetries {
      var step := Attempt(i, maxRetries, st, delays, env);
      AttemptKeepsCounts(i, maxRetries, st, delays, env, c0);
      if step.Next? {
        RunFromCounts(i + 1, maxRetries, step.st, delays, env, c0);
      }
    }
  }

  /** One attempt extends the numbering by `i` and keeps the sleep and call
      counts within the bounds `RunFromCounts` carries. */
  lemma AttemptKeepsCounts(i: nat, maxRetries: int, st: LoopState, delays: seq<Duration>, env: Env, c0: nat)
    requires 0 <= maxRetries && i <= maxRetries
    requires |Attempts(st.trace)| == i && forall k :: 0 <= k < i ==> Attempts(st.trace)[k] == k
    requires |Sleeps(st.trace)| <= i
    requires st.calls <= c0 + i
    ensures var step := Attempt(i, maxRetries, st, delays, env);
            var s := step.st;
            |Attempts(s.trace)| == i + 1 && (forall k :: 0 <= k < i + 1 ==> Attempts(s.trace)[k] == k)
            && |Sleeps(s.trace)| <= i + 1
            && ((step.Finish? || i + 1 > maxRetries) ==> |Sleeps(s.trace)| < i + 1)
            && s.calls <= c0 + i + 1
  {
    var step := Attempt(i, maxRetries, st, delays, env);
    AttemptShape(i, maxRetries, st, delays, env);
    AttemptProjections(i, maxRetries, st, delays, env);
    assert Attempts(step.st.trace) == Attempts(st.trace) + [i];
  }

  /** `do` makes at most `maxRetries + 1` attempts, numbered from 0 in order;
      it sleeps only between attempts, so strictly fewer times than it
      attempts; the policy advances at most once per attempt. A request that
      cannot be built, or a negative `maxRetries`, sends nothing. */
  lemma DoBounds(verb: string, url: string, body: Option<Values>, authHeader: string,
                 encode: Encoder, parseUrl: UrlCheck, maxRetries: int,
                 delays: seq<Duration>, calls: nat, env: Env)
    ensures var r := DoSpec(verb, url, body, authHeader, encode, parseUrl, maxRetries, delays, calls, env);
            var n := |Attempts(r.trace)|;
            n <= (if maxRetries < 0 then 0 else maxRetries + 1)
            && (forall k :: 0 <= k < n ==> Attempts(r.trace)[k] == k)
            && (n == 0 ==> r.trace == [])
            && (n > 0 ==> |Sleeps(r.trace)| < n)
            && calls <= r.calls <= calls + n
    ensures var r := DoSpec(verb, url, body, authHeader, encode, parseUrl, maxRetries, delays, calls, env);
            (maxRetries >= 0 && MakeSignedRequest(verb, url, body, authHeader, encode, parseUrl).Success?)
            <==> |Attempts(r.trace)| > 0
    ensures maxRetries < 0 ==>
              DoSpec(verb, url, body, authHeader, encode, parseUrl, maxRetries, delays, calls, env) == InitialState(calls)
    ensures maxRetries >= 0 && MakeSignedRequest(verb, url, body, authHeader, encode, parseUrl).Failure? ==>
              DoSpec(verb, url, body, authHeader, encode, parseUrl, maxRetries, delays, calls, env)
              == LoopState(None, Some(MakeSignedRequest(verb, url, body, authHeader, encode, parseUrl).error), 0, calls, [])
  {
    if maxRetries >= 0 && MakeSignedRequest(verb, url, body, authHeader, encode, parseUrl).Success? {
      RunFromCalls(0, maxRetries, InitialState(calls), delays, env);
      RunFromCounts(0, maxRetries, InitialState(calls), delays, env, calls);
    }
  }

  /** The policy's call count never goes down. */
  lemma {:induction false} RunFromCalls(i: nat, maxRetries: int, st: LoopState, delays: seq<Duration>, env: Env)
    ensures RunFrom(i, maxRetries, st, delays, env).calls >= st.calls
    decreases maxRetries + 1 - i
  {
    if i <= maxRetries {
      var step := Attempt(i, maxRetries, st, delays, env);
      AttemptShape(i, maxRetries, st, delays, env);
      if step.Next? {
        RunFromCalls(i + 1, maxRetries, step.st, delays, env);
      }
    }
  }

  /** With `maxRetries = 0` exactly one attempt is made and nothing is slept. */
  lemma SingleAttempt(verb: string, url: string, body: Option<Values>, authHeader: string,
                      encode: Encoder, parseUrl: UrlCheck, delays: seq<Duration>, calls: nat, env: Env)
    requires MakeSignedRequest(verb, url, body, authHeader, encode, parseUrl).Success?
    ensures var r := DoSpec(verb, url, body, authHeader, encode, parseUrl, 0, delays, calls, env);
            Attempts(r.trace) == [0] && Sleeps(r.trace) == []
  {
    DoBounds(verb, url, body, authHeader, encode, parseUrl, 0, delays, calls, env);
  }

  // ---------------------------------------------------------------------------
  // How the loop ends

  lemma {:induction false} RunFromFirstFinal(i: nat, n: nat, maxRetries: int, st: LoopState, delays: seq<Duration>, env: Env)
    requires i <= n <= maxRetries
    requires forall k :: i <= k < n ==> Retriable(env.outcome(k))
    requires !Retriable(env.outcome(n))
    ensures var r := RunFrom(i, maxRetries, st, delays, env);
            (r.resp, r.err) == FinalResult(env.outcome(n))
            && |Attempts(r.trace)| == |Attempts(st.trace)| + (n + 1 - i)
    decreases n - i
  {
    var step := Attempt(i, maxRetries, st, delays, env);
    AttemptProjections(i, maxRetries, st, delays, env);
    if i < n {
      RunFromFirstFinal(i + 1, n, maxRetries, step.st, delays, env);
    }
  }

  /** A 200 ends the loop at once with that response and no error, and a
      non-200 whose body decodes as JSON is returned at once with its
      structured error carrying the status: when the first such outcome is
      attempt `n`, exactly `n + 1` attempts are made and it decides the
      result. */
  lemma StopsAtFirstFinal(verb: string, url: string, body: Option<Values>, authHeader: string,
                          encode: Encoder, parseUrl: UrlCheck, maxRetries: int,
                          delays: seq<Duration>, calls: nat, env: Env, n: nat)
    requires MakeSignedRequest(verb, url, body, authHeader, encode, parseUrl).Success?
    requires n <= maxRetries
    requires forall k :: 0 <= k < n ==> Retriable(env.outcome(k))
    requires !Retriable(env.outcome(n))
    ensures var r := DoSpec(verb, url, body, authHeader, encode, parseUrl, maxRetries, delays, calls, env);
            (r.resp, r.err) == FinalResult(env.outcome(n)) && |Attempts(r.trace)| == n + 1
    ensures env.outcome(n).resp.statusCode == StatusOK ==>
              DoSpec(verb, url, body, authHeader, encode, parseUrl, maxRetries, delays, calls, env).err.None?
    ensures env.outcome(n).resp.statusCode != StatusOK ==>
              var e := DoSpec(verb, url, body, authHeader, encode, parseUrl, maxRetries, delays, calls, env).err;
              e.Some? && e.value.Tradier? && e.value.te.httpStatusCode == env.outcome(n).resp.statusCode
  {
    RunFromFirstFinal(0, n, maxRetries, InitialState(calls), delays, env);
  }

  lemma {:induction false} RunFromExhausted(i: nat, maxRetries: int, st: LoopState, delays: seq<Duration>, env: Env)
    requires i <= maxRetries
    requires forall k :: i <= k <= maxRetries ==> Retriable(env.outcome(k))
    ensures var r := RunFrom(i, maxRetries, st, delays, env);
            (r.resp, r.err) == RetryResult(env.outcome(maxRetries))
            && |Attempts(r.trace)| == |Attempts(st.trace)| + (maxRetries + 1 - i)
    decreases maxRetries - i
  {
    var step := Attempt(i, maxRetries, st, delays, env);
    AttemptProjections(i, maxRetries, st, delays, env);
    if i < maxRetries {
      RunFromExhausted(i + 1, maxRetries, step.st, delays, env);
    }
  }

  /** When every attempt is retried, all `maxRetries + 1` attempts are made
      and the last one's response and error are returned: for an opaque
      body, the partly decoded `TradierError` whose fault string is that
      body. It reports a too-large result exactly when the partial decode
      found that error code, so a caller can still split the request. */
  lemma ExhaustedReturnsLast(verb: string, url: string, body: Option<Values>, authHeader: string,
                             encode: Encoder, parseUrl: UrlCheck, maxRetries: int,
                             delays: seq<Duration>, calls: nat, env: Env)
    requires MakeSignedRequest(verb, url, body, authHeader, encode, parseUrl).Success?
    requires 0 <= maxRetries
    requires forall k :: 0 <= k <= maxRetries ==> Retriable(env.outcome(k))
    ensures var r := DoSpec(verb, url, body, authHeader, encode, parseUrl, maxRetries, delays, calls, env);
            (r.resp, r.err) == RetryResult(env.outcome(maxRetries)) && |Attempts(r.trace)| == maxRetries + 1
    ensures env.outcome(maxRetries).Reply? ==>
              var r := DoSpec(verb, url, body, authHeader, encode, parseUrl, maxRetries, delays, calls, env);
              var o := env.outcome(maxRetries);
              r.err == Some(Tradier(TradierError(Fault(o.resp.body, o.partial.fault.errorCode),
                                                 o.resp.statusCode, o.partial.message)))
              && (IsBodyTooBig(r.err.value) <==> o.partial.fault.errorCode == ErrBodyBufferOverflow)
  {
    RunFromExhausted(0, maxRetries, InitialState(calls), delays, env);
  }

  lemma {:induction false} RunFromStopped(i: nat, maxRetries: int, st: LoopState, delays: seq<Duration>, env: Env)
    requires st.calls >= |delays|
    requires forall k :: i <= k <= maxRetries ==> env.outcome(k).NetError?
    ensures Sleeps(RunFrom(i, maxRetries, st, delays, env).trace) == Sleeps(st.trace)
    decreases maxRetries + 1 - i
  {
    if i <= maxRetries {
      var step := Attempt(i, maxRetries, st, delays, env);
      assert step.st.trace == st.trace + [Attempted(i)];
      ProjectionsConcat(st.trace, [Attempted(i)]);
      assert [Attempted(i)][..0] == [];
      RunFromStopped(i + 1, maxRetries, step.st, delays, env);
    }
  }

  /** `Stop` skips the sleep but does not end the loop: with a policy that
      has nothing left to give and a transport that always fails, every one
      of the `maxRetries + 1` attempts is made, back to back. */
  lemma StopDoesNotEndLoop(verb: string, url: string, body: Option<Values>, authHeader: string,
                           encode: Encoder, parseUrl: UrlCheck, maxRetries: int,
                           delays: seq<Duration>, calls: nat, env: Env)
    requires MakeSignedRequest(verb, url, body, authHeader, encode, parseUrl).Success?
    requires 0 <= maxRetries && calls >= |delays|
    requires forall k :: 0 <= k <= maxRetries ==> env.outcome(k).NetError?
    ensures var r := DoSpec(verb, url, body, authHeader, encode, parseUrl, maxRetries, delays, calls, env);
            |Attempts(r.trace)| == maxRetries + 1 && Sleeps(r.trace) == []
            && r.resp.None? && r.err == Some(env.outcome(maxRetries).cause)
  {
    RunFromExhausted(0, maxRetries, InitialState(calls), delays, env);
    RunFromStopped(0, maxRetries, InitialState(calls), delays, env);
  }

  // ---------------------------------------------------------------------------
  // Choosing the wait

  /** On an opaque non-200 body: when the quota expiry lies after now plus the
      previous sleep, the wait is the time until the expiry plus one second
      (in int64 arithmetic) and the policy is not consulted; otherwise the
      policy is asked once. A sleep is recorded only when an attempt follows
      and the wait is not `Stop`. */
  lemma OpaqueWaitSelection(i: nat, maxRetries: int, st: LoopState, delays: seq<Duration>, env: Env)
    requires env.outcome(i).Reply? && env.outcome(i).resp.statusCode != StatusOK && env.outcome(i).decoded.None?
    ensures var resp := env.outcome(i).resp;
            var expiry := ParseQuotaViolationExpiration(resp.body);
            var step := Attempt(i, maxRetries, st, delays, env);
            step.Next? && step.st.resp == Some(resp) && step.st.err == Some(OpaqueError(env.outcome(i)))
            && (After(expiry, env.now(i) + st.sleep) ==>
                  step.st.sleep == Wrap64(Sub(expiry, env.now(i)) + Second) && step.st.calls == st.calls)
            && (!After(expiry, env.now(i) + st.sleep) ==>
                  step.st.sleep == NextDelay(delays, st.calls) && step.st.calls == st.calls + 1)
            && (step.st.trace == st.trace + [Attempted(i), Slept(step.st.sleep)]
                <==> i + 1 <= maxRetries && step.st.sleep != Stop)
            && (step.st.trace == st.trace + [Attempted(i)] <==> !(i + 1 <= maxRetries && step.st.sleep != Stop))
  {
  }

  /** A transport error always asks the policy once and leaves no response. */
  lemma NetErrorAdvancesPolicy(i: nat, maxRetries: int, st: LoopState, delays: seq<Duration>, env: Env)
    requires env.outcome(i).NetError?
    ensures var step := Attempt(i, maxRetries, st, delays, env);
            step.Next? && step.st.resp.None? && step.st.err == Some(env.outcome(i).cause)
            && step.st.sleep == NextDelay(delays, st.calls) && step.st.calls == st.calls + 1
  {
  }

  /** A quota expiry more than int64 nanoseconds away makes the "+1s" wrap
      around: the chosen wait is negative, not `Stop`, so it is recorded and
      the next attempt follows without delay. */
  lemma FarQuotaExpiryWraps(i: nat, maxRetries: int, st: LoopState, delays: seq<Duration>, env: Env)
    requires env.outcome(i).Reply? && env.outcome(i).resp.statusCode != StatusOK && env.outcome(i).decoded.None?
    requires i + 1 <= maxRetries && 0 <= st.sleep <= MaxInt64
    requires ParseQuotaViolationExpiration(env.outcome(i).resp.body) - env.now(i) > MaxInt64
    ensures var step := Attempt(i, maxRetries, st, delays, env);
            step.st.sleep < 0 && step.st.sleep != Stop && step.st.trace == st.trace + [Attempted(i), Slept(step.st.sleep)]
  {
    var expiry := ParseQuotaViolationExpiration(env.outcome(i).resp.body);
    assert Sub(expiry, env.now(i)) == MaxInt64;
    assert Wrap64(MaxInt64 + Second) == MaxInt64 + Second - Modulus64;
  }
}
