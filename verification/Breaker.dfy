/** The circuit breaker when requests come one at a time. */
module Breaker {
  datatype Mode = Closed | Open | HalfOpen

  datatype Config = Config(maxFailures: int, timeout: int)

  datatype State = State(mode: Mode, failures: int, lastTripped: int)

  /** What the upstream answered. */
  datatype Upstream = TransportError | Response(status: int) {
    predicate Fails() { TransportError? || status >= 500 }
  }

  datatype Reply = Rejected | Forwarded(upstream: Upstream)

  /** One request: its arrival, what the upstream would answer, and when. */
  datatype Request = Request(arrive: int, upstream: Upstream, finish: int)

  const FRESH := State(Closed, 0, 0)

  predicate Admits(cfg: Config, st: State, now: int) {
    st.mode == Open ==> now - st.lastTripped > cfg.timeout
  }

  function AfterFailure(cfg: Config, st: State, now: int): State {
    var n := st.failures + 1;
    if n >= cfg.maxFailures then State(Open, n, now) else st.(failures := n)
  }

  function AfterSuccess(st: State): State {
    st.(mode := Closed, failures := 0)
  }

  function Serve(cfg: Config, st: State, r: Request): State {
    if !Admits(cfg, st, r.arrive) then st
    else
      var admitted := if st.mode == Open then st.(mode := HalfOpen) else st;
      if r.upstream.Fails() then AfterFailure(cfg, admitted, r.finish) else AfterSuccess(admitted)
  }

  function Run(cfg: Config, rs: seq<Request>): State {
    if rs == [] then FRESH else Serve(cfg, Run(cfg, rs[..|rs| - 1]), rs[|rs| - 1])
  }

  /** The requests that reached the upstream. */
  function Attempts(cfg: Config, rs: seq<Request>): seq<Request> {
    if rs == [] then []
    else
      var init, r := rs[..|rs| - 1], rs[|rs| - 1];
      Attempts(cfg, init) + (if Admits(cfg, Run(cfg, init), r.arrive) then [r] else [])
  }

  /** How many of the last attempts failed in a row. */
  function TrailingFailures(attempts: seq<Request>): nat {
    if attempts == [] || !attempts[|attempts| - 1].upstream.Fails() then 0
    else 1 + TrailingFailures(attempts[..|attempts| - 1])
  }

  predicate Tripped(cfg: Config, attempts: seq<Request>) {
    TrailingFailures(attempts) > 0 && TrailingFailures(attempts) >= cfg.maxFailures
  }

  /** What is visible between requests: the counter is the trailing run of failed attempts,
      the breaker is open iff that run has reached the limit and closed otherwise (never
      half-open), and an open breaker was stamped when its last attempt failed. */
  lemma {:induction false} SerialState(cfg: Config, rs: seq<Request>)
    ensures var st, att := Run(cfg, rs), Attempts(cfg, rs);
            && st.failures == TrailingFailures(att)
            && st.mode == (if Tripped(cfg, att) then Open else Closed)
            && (st.mode == Open ==> att != [] && st.lastTripped == att[|att| - 1].finish)
  {
    if rs != [] {
      var init, r := rs[..|rs| - 1], rs[|rs| - 1];
      SerialState(cfg, init);
      if Admits(cfg, Run(cfg, init), r.arrive) {
        var att := Attempts(cfg, rs);
        assert att == Attempts(cfg, init) + [r];
        assert att[..|att| - 1] == Attempts(cfg, init);
      } else {
        assert Attempts(cfg, rs) == Attempts(cfg, init);
      }
    }
  }

  /** The upstream could not be reached or answered with a server error. */
  predicate Broken(u: Upstream) {
    match u
    case TransportError => true
    case Response(status) => status >= 500
  }

  /** The counter by the answers themselves: exactly the last attempts that got a transport
      error or a status of at least 500 are counted, back to the last one that got another
      status; the breaker is open iff these are some, and at least the limit. */
  lemma {:induction false} CounterMeaning(cfg: Config, rs: seq<Request>)
    ensures var st, att := Run(cfg, rs), Attempts(cfg, rs);
            && 0 <= st.failures <= |att|
            && (forall i :: |att| - st.failures <= i < |att| ==> Broken(att[i].upstream))
            && (st.failures < |att| ==> !Broken(att[|att| - st.failures - 1].upstream))
            && (st.mode == Open <==> st.failures > 0 && st.failures >= cfg.maxFailures)
            && (st.mode != Open ==> st.mode == Closed)
  {
    SerialState(cfg, rs);
    TrailingMeaning(Attempts(cfg, rs));
  }

  lemma {:induction false} TrailingMeaning(att: seq<Request>)
    ensures var n := TrailingFailures(att);
            && n <= |att|
            && (forall i :: |att| - n <= i < |att| ==> Broken(att[i].upstream))
            && (n < |att| ==> !Broken(att[|att| - n - 1].upstream))
  {
    if att != [] {
      TrailingMeaning(att[..|att| - 1]);
    }
  }

  /** An upstream that never fails, client errors included, is never cut off. */
  lemma {:induction false} HealthyRun(cfg: Config, rs: seq<Request>)
    requires forall i :: 0 <= i < |rs| ==> rs[i].upstream.Response? && rs[i].upstream.status < 500
    ensures Run(cfg, rs).mode == Closed && Run(cfg, rs).failures == 0 && Attempts(cfg, rs) == rs
  {
    if rs != [] {
      HealthyRun(cfg, rs[..|rs| - 1]);
    }
  }

  /** A request reaches the upstream iff the breaker has not tripped since the last success,
      or more than the timeout has passed since the last attempt ended. */
  lemma AttemptedIff(cfg: Config, rs: seq<Request>, r: Request)
    ensures var att, n := Attempts(cfg, rs), Run(cfg, rs).failures;
            Attempts(cfg, rs + [r])
            == if att != [] && n > 0 && n >= cfg.maxFailures && r.arrive <= att[|att| - 1].finish + cfg.timeout
               then att else att + [r]
  {
    SerialState(cfg, rs);
    TrailingMeaning(Attempts(cfg, rs));
    assert (rs + [r])[..|rs|] == rs;
  }

  /** After an attempt that leaves the breaker tripped, the next attempt arrives only once
      more than the timeout has passed. */
  lemma {:induction false} NextAttemptWaits(cfg: Config, rs: seq<Request>, m: nat)
    requires m + 1 < |Attempts(cfg, rs)| && Tripped(cfg, Attempts(cfg, rs)[..m + 1])
    ensures Attempts(cfg, rs)[m + 1].arrive > Attempts(cfg, rs)[m].finish + cfg.timeout
  {
    var init, r := rs[..|rs| - 1], rs[|rs| - 1];
    var before := Attempts(cfg, init);
    if m + 1 < |before| {
      assert before[..m + 1] == Attempts(cfg, rs)[..m + 1];
      NextAttemptWaits(cfg, init, m);
    } else {
      assert before[..m + 1] == before == Attempts(cfg, rs)[..m + 1];
      SerialState(cfg, init);
    }
  }

  lemma {:induction false} TrailingGrows(attempts: seq<Request>, i: nat, k: nat)
    requires i + k <= |attempts|
    requires forall j :: i <= j < i + k ==> attempts[j].upstream.Fails()
    ensures TrailingFailures(attempts[..i + k]) == TrailingFailures(attempts[..i]) + k
  {
    if k > 0 {
      TrailingGrows(attempts, i, k - 1);
      var a := attempts[..i + k];
      assert a[..|a| - 1] == attempts[..i + k - 1];
    }
  }

  lemma ScaleSucc(k: nat, t: int)
    ensures (k + 1) * t == k * t + t
  {
  }

  /** If the breaker trips at attempt `i` and every later attempt fails, the k-th attempt
      after the trip arrives strictly later than k timeouts after it. */
  lemma {:induction false} ProbeSpacing(cfg: Config, rs: seq<Request>, i: nat, k: nat)
    requires forall j :: 0 <= j < |rs| ==> rs[j].arrive <= rs[j].finish
    requires 1 <= k && i + k < |Attempts(cfg, rs)|
    requires Tripped(cfg, Attempts(cfg, rs)[..i + 1])
    requires forall j :: i < j < i + k ==> Attempts(cfg, rs)[j].upstream.Fails()
    ensures Attempts(cfg, rs)[i + k].arrive > Attempts(cfg, rs)[i].finish + k * cfg.timeout
    decreases k
  {
    var att := Attempts(cfg, rs);
    TrailingGrows(att, i + 1, k - 1);
    NextAttemptWaits(cfg, rs, i + k - 1);
    if k > 1 {
      ProbeSpacing(cfg, rs, i, k - 1);
      AttemptsAreRequests(cfg, rs, i + k - 1);
      ScaleSucc(k - 1, cfg.timeout);
    }
  }

  lemma {:induction false} AttemptsAreRequests(cfg: Config, rs: seq<Request>, m: nat)
    requires m < |Attempts(cfg, rs)|
    ensures Attempts(cfg, rs)[m] in rs
  {
    var init := rs[..|rs| - 1];
    if m < |Attempts(cfg, init)| {
      AttemptsAreRequests(cfg, init, m);
      assert forall r :: r in init ==> r in rs;
    }
  }

  class BreakerTransport {
    const cfg: Config
    var mode: Mode
    var failures: int
    var lastTripped: int

    ghost function Abs(): State
      reads this
    {
      State(mode, failures, lastTripped)
    }

    constructor (cfg: Config)
      ensures this.cfg == cfg && Abs() == FRESH
    {
      this.cfg := cfg;
      mode, failures, lastTripped := Closed, 0, 0;
    }

    method RoundTrip(r: Request) returns (reply: Reply)
      modifies this
      ensures Abs() == Serve(cfg, old(Abs()), r)
      ensures reply == if Admits(cfg, old(Abs()), r.arrive) then Forwarded(r.upstream) else Rejected
    {
      var ok := Allow(r.arrive);
      if !ok {
        return Rejected;
      }
      if r.upstream.TransportError? || r.upstream.status >= 500 {
        RecordFailure(r.finish);
      } else {
        RecordSuccess();
      }
      reply := Forwarded(r.upstream);
    }

    method Allow(now: int) returns (ok: bool)
      modifies this`mode
      ensures ok == Admits(cfg, old(Abs()), now)
      ensures Abs() == old(Abs()).(mode := if ok && old(mode) == Open then HalfOpen else old(mode))
    {
      if mode != Open {
        return true;
      }
      var elapsed := now - lastTripped;
      if elapsed > cfg.timeout {
        mode := HalfOpen;
        return true;
      }
      ok := false;
    }

    method RecordFailure(now: int)
      modifies this
      ensures Abs() == AfterFailure(cfg, old(Abs()), now)
    {
      failures := failures + 1;
      if failures >= cfg.maxFailures {
        mode := Open;
        lastTripped := now;
      }
    }

    method RecordSuccess()
      modifies this
      ensures Abs() == AfterSuccess(old(Abs()))
    {
      failures := 0;
      mode := Closed;
    }
  }
}
