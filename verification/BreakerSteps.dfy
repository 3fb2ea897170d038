/** The circuit breaker under concurrency: every load, store, add, compare-and-swap and
    critical section is one atomic step, and requests interleave freely. */
module BreakerSteps {
  import opened Common
  import opened Breaker

  type Tid = nat

  /** Where a request is. `loaded` is how many stores of Open had happened when it loaded
      Open; `used` is how many trips had completed when it measured the elapsed time. */
  datatype Pc =
    | Start
    | SawOpen(loaded: nat)
    | Measured(loaded: nat, used: nat, stamp: Option<int>, at: int)
    | Refused
    | Calling
    | Failing
    | Counted(count: int)
    | Locked
    | Opened
    | Succeeding
    | Cleared
    | Done

  /** A request let through by the Open branch. */
  datatype Admission = Admission(loaded: nat, used: nat, stamp: Option<int>, at: int, swapped: bool)

  /** The shared variables, the requests, and the history: `trips` are the times at which
      trips completed and `opens` counts the stores of Open. */
  datatype World = World(
    mode: Mode, failures: int, lastTripped: Option<int>, holder: Option<Tid>,
    threads: map<Tid, Pc>, clock: int,
    trips: seq<int>, opens: nat, admissions: seq<Admission>)

  const INIT := World(Closed, 0, None, None, map[], 0, [], 0, [])

  /** Thread `tid` takes its next step at time `now`; `ok` is the upstream's answer where
      the step is the call. */
  datatype Event = Event(tid: Tid, now: int, ok: bool)

  function PcOf(w: World, tid: Tid): Pc {
    if tid in w.threads then w.threads[tid] else Start
  }

  function Goto(w: World, tid: Tid, pc: Pc): World {
    w.(threads := w.threads[tid := pc])
  }

  /** Time since the stamp exceeds the timeout; no stamp counts as forever ago. */
  predicate Elapsed(cfg: Config, stamp: Option<int>, now: int) {
    stamp.None? || now - stamp.value > cfg.timeout
  }

  predicate Enabled(cfg: Config, w: World, e: Event) {
    && e.now >= w.clock
    && var pc := PcOf(w, e.tid);
       && !pc.Refused? && !pc.Done?
       && (pc.SawOpen? || (pc.Counted? && pc.count >= cfg.maxFailures) ==> w.holder.None?)
  }

  /** The effect of the next step of `e.tid`. */
  function Step(cfg: Config, w0: World, e: Event): World
    requires Enabled(cfg, w0, e)
  {
    var w := w0.(clock := e.now);
    match PcOf(w0, e.tid)
    case Start => Goto(w, e.tid, if w.mode == Open then SawOpen(w.opens) else Calling)
    case SawOpen(loaded) =>
      Goto(w, e.tid,
           if Elapsed(cfg, w.lastTripped, e.now) then Measured(loaded, |w.trips|, w.lastTripped, e.now) else Refused)
    case Measured(loaded, used, stamp, at) =>
      var swap := w.mode == Open;
      Goto(w, e.tid, Calling).(
        mode := if swap then HalfOpen else w.mode,
        admissions := w.admissions + [Admission(loaded, used, stamp, at, swap)])
    case Calling => Goto(w, e.tid, if e.ok then Succeeding else Failing)
    case Failing => Goto(w, e.tid, Counted(w.failures + 1)).(failures := w.failures + 1)
    case Counted(count) =>
      if count >= cfg.maxFailures then Goto(w, e.tid, Locked).(holder := Some(e.tid)) else Goto(w, e.tid, Done)
    case Locked => Goto(w, e.tid, Opened).(mode := Open, opens := w.opens + 1)
    case Opened => Goto(w, e.tid, Done).(lastTripped := Some(e.now), holder := None, trips := w.trips + [e.now])
    case Succeeding => Goto(w, e.tid, Cleared).(failures := 0)
    case Cleared => Goto(w, e.tid, Done).(mode := Closed)
    case Refused => w
    case Done => w
  }

  /** All events are enabled in turn from `w`. */
  predicate IsRun(cfg: Config, w: World, es: seq<Event>)
    decreases |es|
  {
    es == [] || (Enabled(cfg, w, es[0]) && IsRun(cfg, Step(cfg, w, es[0]), es[1..]))
  }

  function After(cfg: Config, w: World, es: seq<Event>): World
    requires IsRun(cfg, w, es)
    decreases |es|
  {
    if es == [] then w else After(cfg, Step(cfg, w, es[0]), es[1..])
  }

  /** The time was measured against trip number `used`, which had completed, which is not
      older than the Open that was loaded, and after which no trip completed before the
      measurement; and more than the timeout had passed. */
  predicate SoundMeasure(cfg: Config, w: World, loaded: nat, used: nat, stamp: Option<int>, at: int) {
    && 1 <= loaded <= used <= |w.trips|
    && stamp == Some(w.trips[used - 1])
    && at - w.trips[used - 1] > cfg.timeout
    && at <= w.clock
    && forall k :: used <= k < |w.trips| ==> w.trips[k] >= at
  }

  predicate InCritical(pc: Pc) {
    pc.Locked? || pc.Opened?
  }

  predicate TripHistory(w: World) {
    && w.lastTripped == (if w.trips == [] then None else Some(w.trips[|w.trips| - 1]))
    && w.opens == |w.trips| + (if w.holder.Some? && PcOf(w, w.holder.value).Opened? then 1 else 0)
    && (w.mode != Closed ==> w.opens >= 1)
  }

  predicate LockOwned(w: World) {
    && (w.holder.Some? ==> InCritical(PcOf(w, w.holder.value)))
    && forall t :: t in w.threads && InCritical(w.threads[t]) ==> w.holder == Some(t)
  }

  predicate ThreadsSound(cfg: Config, w: World) {
    && (forall t :: t in w.threads && w.threads[t].SawOpen? ==> 1 <= w.threads[t].loaded <= w.opens)
    && (forall t :: t in w.threads && w.threads[t].Measured? ==>
          SoundMeasure(cfg, w, w.threads[t].loaded, w.threads[t].used, w.threads[t].stamp, w.threads[t].at))
  }

  predicate AdmissionsSound(cfg: Config, w: World) {
    forall i :: 0 <= i < |w.admissions| ==>
      var a := w.admissions[i];
      SoundMeasure(cfg, w, a.loaded, a.used, a.stamp, a.at)
  }

  predicate Inv(cfg: Config, w: World) {
    TripHistory(w) && LockOwned(w) && ThreadsSound(cfg, w) && AdmissionsSound(cfg, w)
  }

  /** Later steps only add trips at later times, so a sound measurement stays sound. */
  lemma SoundMeasureStable(cfg: Config, w: World, e: Event, loaded: nat, used: nat, stamp: Option<int>, at: int)
    requires Enabled(cfg, w, e) && SoundMeasure(cfg, w, loaded, used, stamp, at)
    ensures SoundMeasure(cfg, Step(cfg, w, e), loaded, used, stamp, at)
  {
  }

  lemma TripHistoryKept(cfg: Config, w: World, e: Event)
    requires Inv(cfg, w) && Enabled(cfg, w, e)
    ensures TripHistory(Step(cfg, w, e))
  {
    hide ThreadsSound, AdmissionsSound;
    assert InCritical(PcOf(w, e.tid)) ==> w.holder == Some(e.tid);
  }

  lemma LockOwnedKept(cfg: Config, w: World, e: Event)
    requires LockOwned(w) && Enabled(cfg, w, e)
    ensures LockOwned(Step(cfg, w, e))
  {
  }

  lemma ThreadsSoundKept(cfg: Config, w: World, e: Event)
    requires Inv(cfg, w) && Enabled(cfg, w, e)
    ensures ThreadsSound(cfg, Step(cfg, w, e))
  {
    var w' := Step(cfg, w, e);
    assert w'.opens >= w.opens;
    hide AdmissionsSound;
    forall t | t in w'.threads && w'.threads[t].Measured?
      ensures SoundMeasure(cfg, w', w'.threads[t].loaded, w'.threads[t].used, w'.threads[t].stamp, w'.threads[t].at)
    {
      var m := w'.threads[t];
      if t != e.tid {
        hide SoundMeasure;
        SoundMeasureStable(cfg, w, e, m.loaded, m.used, m.stamp, m.at);
      }
    }
  }

  lemma {:induction false} AdmissionsSoundKept(cfg: Config, w: World, e: Event)
    requires Inv(cfg, w) && Enabled(cfg, w, e)
    ensures AdmissionsSound(cfg, Step(cfg, w, e))
  {
    var w' := Step(cfg, w, e);
    forall i | 0 <= i < |w'.admissions|
      ensures var a := w'.admissions[i]; SoundMeasure(cfg, w', a.loaded, a.used, a.stamp, a.at)
    {
      var a := w'.admissions[i];
      SoundMeasureStable(cfg, w, e, a.loaded, a.used, a.stamp, a.at);
    }
  }

  lemma {:induction false} InvKept(cfg: Config, w: World, es: seq<Event>)
    requires Inv(cfg, w) && IsRun(cfg, w, es)
    ensures Inv(cfg, After(cfg, w, es))
    decreases |es|
  {
    if es != [] {
      TripHistoryKept(cfg, w, es[0]);
      LockOwnedKept(cfg, w, es[0]);
      ThreadsSoundKept(cfg, w, es[0]);
      AdmissionsSoundKept(cfg, w, es[0]);
      InvKept(cfg, Step(cfg, w, es[0]), es[1..]);
    }
  }

  /** Over every interleaving, a request let through by the Open branch measured its time
      against the latest completed trip, one at least as recent as the Open it loaded, and
      more than the timeout had passed since. */
  lemma OpenBranchSound(cfg: Config, es: seq<Event>)
    requires IsRun(cfg, INIT, es)
    ensures AdmissionsSound(cfg, After(cfg, INIT, es))
  {
    InvKept(cfg, INIT, es);
  }

  /** Half-open is entered only by a swap from Open, by a request with a sound
      measurement. If no trip completed since that measurement, the timeout of the Open
      being left has passed; and for a swap within one timeout of its measurement it has
      passed exactly then. */
  lemma HalfOpenEntry(cfg: Config, es: seq<Event>, e: Event)
    requires IsRun(cfg, INIT, es) && Enabled(cfg, After(cfg, INIT, es), e)
    requires After(cfg, INIT, es).mode != HalfOpen
    requires Step(cfg, After(cfg, INIT, es), e).mode == HalfOpen
    ensures var w := After(cfg, INIT, es);
            && w.mode == Open
            && PcOf(w, e.tid).Measured?
            && w.trips != []
            && var m, elapsed := PcOf(w, e.tid), e.now - w.trips[|w.trips| - 1];
               && (m.used == |w.trips| ==> elapsed > cfg.timeout)
               && (e.now - m.at <= cfg.timeout ==> (elapsed > cfg.timeout <==> m.used == |w.trips|))
  {
    InvKept(cfg, INIT, es);
  }

  // ----- What the interleavings do not keep

  lemma {:induction false} RunSnoc(cfg: Config, w: World, es: seq<Event>, e: Event)
    requires IsRun(cfg, w, es) && Enabled(cfg, After(cfg, w, es), e)
    ensures IsRun(cfg, w, es + [e]) && After(cfg, w, es + [e]) == Step(cfg, After(cfg, w, es), e)
    decreases |es|
  {
    if es == [] {
      assert [e][1..] == [];
      assert es + [e] == [e];
    } else {
      RunSnoc(cfg, Step(cfg, w, es[0]), es[1..], e);
      assert (es + [e])[1..] == es[1..] + [e];
    }
  }

  /** `w` is reachable. */
  ghost predicate Reachable(cfg: Config, w: World) {
    exists es :: IsRun(cfg, INIT, es) && After(cfg, INIT, es) == w
  }

  lemma ReachStep(cfg: Config, w: World, e: Event) returns (w': World)
    requires Reachable(cfg, w) && Enabled(cfg, w, e)
    ensures w' == Step(cfg, w, e) && Reachable(cfg, w')
  {
    var es :| IsRun(cfg, INIT, es) && After(cfg, INIT, es) == w;
    RunSnoc(cfg, INIT, es, e);
    w' := Step(cfg, w, e);
  }

  lemma ReachInit(cfg: Config)
    ensures Reachable(cfg, INIT)
  {
    assert IsRun(cfg, INIT, []) && After(cfg, INIT, []) == INIT;
  }

  /** A request at the upstream can fail without interruption, short of the limit. */
  lemma ReachFailure(cfg: Config, w: World, t: Tid, now: int) returns (w': World)
    requires Reachable(cfg, w) && PcOf(w, t) == Calling && w.holder.None? && now >= w.clock
    requires w.failures + 1 < cfg.maxFailures
    ensures Reachable(cfg, w')
    ensures w' == w.(failures := w.failures + 1, clock := now, threads := w.threads[t := Done])
  {
    hide Reachable;
    w' := ReachCounted(cfg, w, t, now);
    w' := ReachStep(cfg, w', Event(t, now, false));
    assert w'.threads == w.threads[t := Done];
  }

  lemma ReachCounted(cfg: Config, w: World, t: Tid, now: int) returns (w': World)
    requires Reachable(cfg, w) && PcOf(w, t) == Calling && w.holder.None? && now >= w.clock
    ensures Reachable(cfg, w')
    ensures w' == w.(failures := w.failures + 1, clock := now, threads := w.threads[t := Counted(w.failures + 1)])
  {
    hide Reachable;
    w' := ReachStep(cfg, w, Event(t, now, false));
    w' := ReachStep(cfg, w', Event(t, now, false));
    assert w'.threads == w.threads[t := Counted(w.failures + 1)];
  }

  /** At the limit it trips the breaker. */
  lemma ReachTrip(cfg: Config, w: World, t: Tid, now: int) returns (w': World)
    requires Reachable(cfg, w) && PcOf(w, t) == Calling && w.holder.None? && now >= w.clock
    requires w.failures + 1 >= cfg.maxFailures
    ensures Reachable(cfg, w')
    ensures w' == w.(mode := Open, failures := w.failures + 1, lastTripped := Some(now), clock := now,
                     threads := w.threads[t := Done], trips := w.trips + [now], opens := w.opens + 1)
  {
    hide Reachable;
    w' := ReachCounted(cfg, w, t, now);
    w' := ReachStep(cfg, w', Event(t, now, false));
    w' := ReachStep(cfg, w', Event(t, now, false));
    w' := ReachStep(cfg, w', Event(t, now, false));
    assert w'.threads == w.threads[t := Done];
  }

  /** After `n` failed requests, all at time zero, and before the first trip. */
  predicate AfterFailures(w: World, n: nat) {
    w == INIT.(failures := n, threads := w.threads) && forall t :: t in w.threads ==> t < n
  }

  lemma {:induction false} ReachFailures(cfg: Config, n: nat) returns (w: World)
    requires n == 0 || n < cfg.maxFailures
    ensures Reachable(cfg, w) && AfterFailures(w, n)
  {
    hide Reachable;
    ReachInit(cfg);
    w := INIT;
    if n > 0 {
      w := ReachFailures(cfg, n - 1);
      w := ReachStep(cfg, w, Event(n - 1, 0, false));
      w := ReachFailure(cfg, w, n - 1, 0);
    }
  }

  /** Every breaker can trip at time zero, with all requests from `next` on yet to come. */
  lemma ReachFirstTrip(cfg: Config) returns (w: World, next: Tid)
    ensures Reachable(cfg, w) && w.mode == Open && w.failures >= cfg.maxFailures && w.holder.None? && w.clock == 0
    ensures w.trips == [0] && w.lastTripped == Some(0) && forall t :: t in w.threads ==> t < next
  {
    hide Reachable;
    var n: nat := if cfg.maxFailures > 0 then cfg.maxFailures - 1 else 0;
    w := ReachFailures(cfg, n);
    next := n + 1;
    w := ReachStep(cfg, w, Event(n, 0, false));
    w := ReachTrip(cfg, w, n, 0);
  }

  /** A request that comes after the timeout takes the breaker to half-open. */
  lemma ReachProbe(cfg: Config, w: World, t: Tid, now: int) returns (w': World)
    requires Reachable(cfg, w) && w.mode == Open && w.holder.None? && now >= w.clock
    requires PcOf(w, t) == Start && Elapsed(cfg, w.lastTripped, now)
    ensures Reachable(cfg, w')
    ensures w' == w.(mode := HalfOpen, clock := now, threads := w.threads[t := Calling], admissions := w'.admissions)
  {
    hide Reachable;
    w' := ReachStep(cfg, w, Event(t, now, false));
    w' := ReachStep(cfg, w', Event(t, now, false));
    w' := ReachStep(cfg, w', Event(t, now, false));
    assert w'.threads == w.threads[t := Calling];
  }

  /** Two different requests are at the upstream in half-open, and nothing tripped since. */
  ghost predicate TwoProbes(w: World) {
    w.mode == HalfOpen && |w.trips| == 1 && exists t, u :: t != u && PcOf(w, t) == PcOf(w, u) == Calling
  }

  /** Whatever the settings, half-open lets every request through, not one: two probes can
      be at the upstream at the same time although no attempt has succeeded since the trip. */
  lemma TwoProbesAtOnce(cfg: Config)
    ensures exists w :: Reachable(cfg, w) && TwoProbes(w)
  {
    hide Reachable;
    var later := if cfg.timeout >= 0 then cfg.timeout + 1 else 0;
    var w, t := ReachFirstTrip(cfg);
    w := ReachProbe(cfg, w, t, later);
    w := ReachStep(cfg, w, Event(t + 1, later, false));
    assert PcOf(w, t) == PcOf(w, t + 1) == Calling;
  }

  /** The swap can hit a newer Open than the one that was measured: half-open is then
      entered although no time at all has passed since the latest trip. */
  lemma SwapHitsNewerOpen(cfg: Config)
    ensures exists w, e :: Reachable(cfg, w) && Enabled(cfg, w, e) && w.mode == Open
              && Step(cfg, w, e).mode == HalfOpen && |w.trips| == 2 && e.now == w.trips[1]
  {
    hide Reachable;
    var later := if cfg.timeout >= 0 then cfg.timeout + 1 else 0;
    var w, t := ReachFirstTrip(cfg);
    w := ReachStep(cfg, w, Event(t, later, false));
    w := ReachStep(cfg, w, Event(t, later, false));
    var m := PcOf(w, t);
    w := ReachSecondTrip(cfg, w, t + 1, later);
    assert PcOf(w, t) == m && m.Measured?;
    var e := Event(t, later, false);
    assert Enabled(cfg, w, e) && Step(cfg, w, e).mode == HalfOpen;
  }

  /** A request takes the breaker to half-open, fails and trips it again. */
  lemma ReachSecondTrip(cfg: Config, w: World, t: Tid, now: int) returns (w': World)
    requires Reachable(cfg, w) && w.mode == Open && w.failures >= cfg.maxFailures && w.holder.None? && now >= w.clock
    requires PcOf(w, t) == Start && Elapsed(cfg, w.lastTripped, now)
    ensures Reachable(cfg, w') && w'.mode == Open && w'.holder.None? && w'.clock == now && w'.trips == w.trips + [now]
    ensures forall u :: u != t ==> PcOf(w', u) == PcOf(w, u)
  {
    hide Reachable;
    w' := ReachProbe(cfg, w, t, now);
    w' := ReachTrip(cfg, w', t, now);
  }

  // ----- A request that runs alone

  /** The shared variables as the serial model sees them. */
  function Shared(w: World): State {
    State(w.mode, w.failures, if w.lastTripped.Some? then w.lastTripped.value else 0)
  }

  /** From `w` thread `t` alone reaches `w'`. */
  ghost predicate Alone(cfg: Config, w: World, t: Tid, w': World) {
    exists es: seq<Event> :: IsRun(cfg, w, es) && After(cfg, w, es) == w'
      && forall i :: 0 <= i < |es| ==> es[i].tid == t
  }

  lemma AloneStep(cfg: Config, w: World, t: Tid, w1: World, now: int, ok: bool) returns (w2: World)
    requires Alone(cfg, w, t, w1) && Enabled(cfg, w1, Event(t, now, ok))
    ensures w2 == Step(cfg, w1, Event(t, now, ok)) && Alone(cfg, w, t, w2)
  {
    var es: seq<Event> :| IsRun(cfg, w, es) && After(cfg, w, es) == w1 && forall i :: 0 <= i < |es| ==> es[i].tid == t;
    RunSnoc(cfg, w, es, Event(t, now, ok));
    w2 := Step(cfg, w1, Event(t, now, ok));
    assert forall i :: 0 <= i < |es + [Event(t, now, ok)]| ==> (es + [Event(t, now, ok)])[i].tid == t;
  }

  lemma AloneStart(cfg: Config, w: World, t: Tid)
    ensures Alone(cfg, w, t, w)
  {
  }

  /** The steps of `allow` alone admit as the serial model does. */
  lemma AllowAlone(cfg: Config, w: World, t: Tid, now: int) returns (w': World)
    requires Inv(cfg, w) && w.holder.None? && PcOf(w, t) == Start && now >= w.clock
    ensures Alone(cfg, w, t, w') && w'.holder.None? && w'.clock == now
    ensures PcOf(w', t) == if Admits(cfg, Shared(w), now) then Calling else Refused
    ensures Shared(w') == Shared(w).(mode := if w.mode == Open && Admits(cfg, Shared(w), now) then HalfOpen else w.mode)
  {
    hide Alone;
    AloneStart(cfg, w, t);
    w' := AloneStep(cfg, w, t, w, now, false);
    if w.mode == Open {
      w' := AloneStep(cfg, w, t, w', now, false);
      if PcOf(w', t).Measured? {
        w' := AloneStep(cfg, w, t, w', now, false);
      }
    }
  }

  /** The steps after the upstream's answer alone record it as the serial model does. */
  lemma SuccessAlone(cfg: Config, w: World, t: Tid, w1: World, now: int) returns (w': World)
    requires Alone(cfg, w, t, w1) && PcOf(w1, t) == Calling && w1.holder.None? && now >= w1.clock
    ensures Alone(cfg, w, t, w') && PcOf(w', t) == Done && w'.holder.None?
    ensures Shared(w') == AfterSuccess(Shared(w1))
  {
    hide Alone;
    w' := AloneStep(cfg, w, t, w1, now, true);
    w' := AloneStep(cfg, w, t, w', now, true);
    w' := AloneStep(cfg, w, t, w', now, true);
  }

  lemma FailureAlone(cfg: Config, w: World, t: Tid, w1: World, now: int) returns (w': World)
    requires Alone(cfg, w, t, w1) && PcOf(w1, t) == Calling && w1.holder.None? && now >= w1.clock
    ensures Alone(cfg, w, t, w') && PcOf(w', t) == Done && w'.holder.None?
    ensures Shared(w') == AfterFailure(cfg, Shared(w1), now)
  {
    hide Alone;
    w' := AloneStep(cfg, w, t, w1, now, false);
    w' := AloneStep(cfg, w, t, w', now, false);
    w' := CountedAlone(cfg, w, t, w', now);
  }

  lemma CountedAlone(cfg: Config, w: World, t: Tid, w1: World, now: int) returns (w': World)
    requires Alone(cfg, w, t, w1) && PcOf(w1, t) == Counted(w1.failures) && w1.holder.None? && now >= w1.clock
    ensures Alone(cfg, w, t, w') && PcOf(w', t) == Done && w'.holder.None?
    ensures Shared(w') == if w1.failures >= cfg.maxFailures then Shared(w1).(mode := Open, lastTripped := now)
            else Shared(w1)
  {
    hide Alone;
    w' := AloneStep(cfg, w, t, w1, now, false);
    if w1.failures >= cfg.maxFailures {
      w' := AloneStep(cfg, w, t, w', now, false);
      w' := AloneStep(cfg, w, t, w', now, false);
    }
  }

  /** A request whose steps are not interleaved with others does what the serial breaker
      does: the serial model is the step model without concurrency. */
  lemma SerialRefinement(cfg: Config, w: World, t: Tid, r: Request) returns (w': World)
    requires Inv(cfg, w) && w.holder.None? && PcOf(w, t) == Start && w.clock <= r.arrive <= r.finish
    ensures Alone(cfg, w, t, w') && w'.holder.None?
    ensures PcOf(w', t) == if Admits(cfg, Shared(w), r.arrive) then Done else Refused
    ensures Shared(w') == Serve(cfg, Shared(w), r)
  {
    hide Alone;
    w' := AllowAlone(cfg, w, t, r.arrive);
    if PcOf(w', t) == Calling {
      if r.upstream.Fails() {
        w' := FailureAlone(cfg, w, t, w', r.finish);
      } else {
        w' := SuccessAlone(cfg, w, t, w', r.finish);
      }
    }
  }
}
