/** How many requests of one key the limiter can admit in an interval. */
module RateBounds {
  import opened Common
  import opened RateLimiter

  // ----- Counting in sorted times

  predicate Sorted(times: seq<int>) {
    forall i, j :: 0 <= i < j < |times| ==> times[i] <= times[j]
  }

  /** How many of the times lie in the closed interval from `lo` to `hi`. */
  function CountIn(times: seq<int>, lo: int, hi: int): nat {
    if times == [] then 0
    else
      var t := times[|times| - 1];
      CountIn(times[..|times| - 1], lo, hi) + (if lo <= t <= hi then 1 else 0)
  }

  /** Any `k + 1` consecutive times span more than `d`. */
  predicate Spread(times: seq<int>, k: nat, d: int) {
    forall i :: 0 <= i && i + k < |times| ==> times[i + k] - times[i] > d
  }

  lemma {:induction false} CountedAreLast(times: seq<int>, lo: int, hi: int)
    requires Sorted(times) && times != [] && times[|times| - 1] <= hi
    ensures CountIn(times, lo, hi) <= |times|
    ensures forall i :: |times| - CountIn(times, lo, hi) <= i < |times| ==> times[i] >= lo
  {
    var init := times[..|times| - 1];
    if init != [] {
      CountedAreLast(init, lo, hi);
    }
    if times[|times| - 1] < lo {
      CountZero(times, lo, hi);
    }
  }

  lemma {:induction false} CountZero(times: seq<int>, lo: int, hi: int)
    requires forall i :: 0 <= i < |times| ==> times[i] < lo
    ensures CountIn(times, lo, hi) == 0
  {
    if times != [] {
      CountZero(times[..|times| - 1], lo, hi);
    }
  }

  lemma {:induction false} SpreadBoundsCount(times: seq<int>, k: nat, lo: int, d: int)
    requires Sorted(times) && Spread(times, k, d)
    ensures CountIn(times, lo, lo + d) <= k
  {
    if times != [] {
      var n := |times|;
      if times[n - 1] > lo + d {
        SpreadBoundsCount(times[..n - 1], k, lo, d);
      } else {
        CountedAreLast(times, lo, lo + d);
        if n > k {
          var i := n - 1 - k;
          assert times[i + k] - times[i] > d;
        }
      }
    }
  }

  // ----- The log of one window

  /** An admission and the start of the window it was counted in. */
  datatype Entry = Entry(time: int, start: int)

  function Times(log: seq<Entry>): seq<int> {
    seq(|log|, i requires 0 <= i < |log| => log[i].time)
  }

  predicate EntriesSound(log: seq<Entry>, duration: int, clock: int) {
    && (forall i :: 0 <= i < |log| ==> log[i].start <= log[i].time <= log[i].start + duration && log[i].time <= clock)
    && (forall i, j :: 0 <= i < j < |log| ==> log[i].time <= log[j].time)
  }

  /** `limit` admissions later, a new window has been opened after the old one ended. */
  predicate WindowsSpread(log: seq<Entry>, limit: nat, duration: int) {
    forall i, j :: 0 <= i && i + limit <= j < |log| ==> log[j].start > log[i].start + duration
  }

  /** The stored window counts exactly the last admissions, and all earlier ones belong to
      windows that ended before it started; without a stored window all have ended. */
  predicate CountsLast(log: seq<Entry>, w: Option<Window>, limit: nat, duration: int, clock: int) {
    match w
    case Some(win) =>
      && 0 <= win.count <= limit && win.count <= |log| && win.end - duration <= clock
      && (forall k :: |log| - win.count <= k < |log| ==> log[k].start == win.end - duration)
      && (forall k :: 0 <= k < |log| - win.count ==> log[k].start + duration < win.end - duration)
    case None => forall k :: 0 <= k < |log| ==> log[k].start + duration < clock
  }

  predicate LogInv(log: seq<Entry>, w: Option<Window>, limit: nat, duration: int, clock: int) {
    && EntriesSound(log, duration, clock)
    && WindowsSpread(log, limit, duration)
    && CountsLast(log, w, limit, duration, clock)
  }

  predicate OpensWindow(log: seq<Entry>, k: nat)
    requires k < |log|
  {
    k == 0 || log[k - 1].start != log[k].start
  }

  /** Windows are opened by admitted requests only: the first admission of each window is
      at its start, and no stored window is empty. */
  predicate Anchored(log: seq<Entry>, w: Option<Window>) {
    && (w.Some? ==> w.value.count >= 1)
    && (forall k :: 0 <= k < |log| && OpensWindow(log, k) ==> log[k].time == log[k].start)
  }

  lemma LogLater(log: seq<Entry>, w: Option<Window>, limit: nat, duration: int, clock: int, now: int)
    requires LogInv(log, w, limit, duration, clock) && clock <= now
    ensures LogInv(log, w, limit, duration, now)
  {
  }

  lemma LogSwept(log: seq<Entry>, w: Option<Window>, limit: nat, duration: int, now: int)
    requires LogInv(log, w, limit, duration, now) && w.Some? && now > w.value.end && duration >= 0
    ensures LogInv(log, None, limit, duration, now)
  {
  }

  lemma LogTouched(log: seq<Entry>, w: Option<Window>, limit: nat, duration: int, now: int)
    requires LogInv(log, w, limit, duration, now) && duration >= 0
    ensures LogInv(log, Some(Touch(w, now, duration)), limit, duration, now)
  {
  }

  lemma LogAdmitted(log: seq<Entry>, win: Window, limit: nat, duration: int, now: int)
    requires LogInv(log, Some(win), limit, duration, now) && win.count < limit
    requires win.end - duration <= now <= win.end
    ensures LogInv(log + [Entry(now, win.end - duration)], Some(win.(count := win.count + 1)), limit, duration, now)
  {
  }

  lemma AnchoredAdmitted(log: seq<Entry>, w: Option<Window>, limit: nat, duration: int, now: int)
    requires LogInv(log, w, limit, duration, now) && Anchored(log, w) && duration >= 0
    ensures var win := Touch(w, now, duration);
            Anchored(log + [Entry(now, win.end - duration)], Some(win.(count := win.count + 1)))
  {
  }

  lemma TwoWindowsSpread(log: seq<Entry>, w: Option<Window>, limit: nat, duration: int, clock: int)
    requires LogInv(log, w, limit, duration, clock) && limit >= 1
    ensures Spread(Times(log), 2 * limit, duration)
  {
    forall i | 0 <= i && i + 2 * limit < |log|
      ensures log[i + 2 * limit].time - log[i].time > duration
    {
      assert log[i + limit].start > log[i].start + duration;
      assert log[i + limit + limit].start > log[i + limit].start + duration;
    }
  }

  /** With anchored windows one admission less fits: the first admission of a window is a
      full window length before the next window opens. */
  lemma {:induction false} AnchoredSpread(log: seq<Entry>, w: Option<Window>, limit: nat, duration: int, clock: int)
    requires LogInv(log, w, limit, duration, clock) && Anchored(log, w) && limit >= 1
    ensures Spread(Times(log), 2 * limit - 1, duration)
  {
    forall i | 0 <= i && i + (2 * limit - 1) < |log|
      ensures log[i + (2 * limit - 1)].time - log[i].time > duration
    {
      var j := i + (2 * limit - 1);
      if OpensWindow(log, i) {
        assert log[j].start > log[i].start + duration;
      } else {
        assert log[i - 1 + limit].start > log[i - 1].start + duration;
        assert log[j].start > log[i - 1 + limit].start + duration;
      }
    }
  }

  // ----- The log of a run

  function Pick(st: State, hourly: bool): Counters {
    if hourly then st.hour else st.minute
  }

  function Limit(rule: Rule, hourly: bool): int {
    if hourly then rule.perHour else rule.perMinute
  }

  function Length(hourly: bool): int {
    if hourly then HOUR else MINUTE
  }

  /** The event is an admitted request of the key. */
  predicate Admitted(cfg: Config, st: State, e: Event, key: string) {
    e.Request? && e.hash == key && VerdictOf(cfg, st, e).allowed
  }

  /** Times at which requests of the key were admitted. */
  function Admissions(cfg: Config, es: seq<Event>, key: string): seq<int> {
    if es == [] then []
    else
      var init, e := es[..|es| - 1], es[|es| - 1];
      Admissions(cfg, init, key) + (if Admitted(cfg, Run(cfg, init), e, key) then [e.now] else [])
  }

  /** The same admissions with the start of the window that counted them. */
  function WindowLog(cfg: Config, es: seq<Event>, key: string, hourly: bool): seq<Entry> {
    if es == [] then []
    else
      var init, e := es[..|es| - 1], es[|es| - 1];
      var before := WindowLog(cfg, init, key, hourly);
      if Admitted(cfg, Run(cfg, init), e, key) then
        var win := Touch(Get(Pick(Run(cfg, init), hourly), key), e.now, Length(hourly));
        before + [Entry(e.now, win.end - Length(hourly))]
      else before
  }

  lemma {:induction false} LogTimes(cfg: Config, es: seq<Event>, key: string, hourly: bool)
    ensures Times(WindowLog(cfg, es, key, hourly)) == Admissions(cfg, es, key)
  {
    if es != [] {
      LogTimes(cfg, es[..|es| - 1], key, hourly);
    }
  }

  /** Every request of `key` is judged by `rule`. */
  ghost predicate OneRule(cfg: Config, es: seq<Event>, key: string, rule: Rule) {
    forall i :: 0 <= i < |es| && es[i].Request? && es[i].hash == key ==> MatchRule(cfg, es[i].rawKey) == rule
  }

  /** What one event does to the stored window of the key, and to its log. */
  lemma StepOnWindow(cfg: Config, st: State, e: Event, key: string, rule: Rule, hourly: bool)
    requires Limit(rule, hourly) > 0
    requires e.Request? && e.hash == key ==> MatchRule(cfg, e.rawKey) == rule
    ensures var w, w' := Get(Pick(st, hourly), key), Get(Pick(Step(cfg, st, e), hourly), key);
            var win := Touch(w, e.now, Length(hourly));
            if Admitted(cfg, st, e, key) then
              win.count < Limit(rule, hourly) && w' == Some(win.(count := win.count + 1))
            else if e.Request? && e.hash == key then w' == w || (w' == Some(win) && (!hourly && rule.perHour > 0))
            else w' == w || (e.Sweep? && w.Some? && e.now > w.value.end && w' == None)
  {
  }

  lemma {:induction false} LogStep(
      cfg: Config, st: State, e: Event, key: string, rule: Rule, hourly: bool, log: seq<Entry>, clock: int)
    requires Limit(rule, hourly) > 0 && clock <= e.now
    requires e.Request? && e.hash == key ==> MatchRule(cfg, e.rawKey) == rule
    requires LogInv(log, Get(Pick(st, hourly), key), Limit(rule, hourly), Length(hourly), clock)
    ensures var win := Touch(Get(Pick(st, hourly), key), e.now, Length(hourly));
            var log' := if Admitted(cfg, st, e, key) then log + [Entry(e.now, win.end - Length(hourly))] else log;
            LogInv(log', Get(Pick(Step(cfg, st, e), hourly), key), Limit(rule, hourly), Length(hourly), e.now)
  {
    hide *;
    var w := Get(Pick(st, hourly), key);
    var limit, d := Limit(rule, hourly), Length(hourly);
    LengthPositive(hourly);
    LogLater(log, w, limit, d, clock, e.now);
    StepOnWindow(cfg, st, e, key, rule, hourly);
    LogTouched(log, w, limit, d, e.now);
    var win := Touch(w, e.now, d);
    if Admitted(cfg, st, e, key) {
      TouchCovers(log, w, limit, d, e.now);
      LogAdmitted(log, win, limit, d, e.now);
    } else if e.Sweep? && w.Some? && e.now > w.value.end {
      LogSwept(log, w, limit, d, e.now);
    }
  }

  lemma LengthPositive(hourly: bool)
    ensures Length(hourly) > 0
  {
  }

  lemma TouchCovers(log: seq<Entry>, w: Option<Window>, limit: nat, duration: int, now: int)
    requires LogInv(log, w, limit, duration, now) && duration >= 0
    ensures Touch(w, now, duration).end - duration <= now <= Touch(w, now, duration).end
  {
  }

  lemma WindowLogSnoc(cfg: Config, es: seq<Event>, key: string, hourly: bool)
    requires es != []
    ensures var init, e := es[..|es| - 1], es[|es| - 1];
            var win := Touch(Get(Pick(Run(cfg, init), hourly), key), e.now, Length(hourly));
            var before := WindowLog(cfg, init, key, hourly);
            && Run(cfg, es) == Step(cfg, Run(cfg, init), e)
            && WindowLog(cfg, es, key, hourly)
               == if Admitted(cfg, Run(cfg, init), e, key) then before + [Entry(e.now, win.end - Length(hourly))]
                 else before
  {
  }

  lemma OrderedInit(cfg: Config, es: seq<Event>, key: string, rule: Rule)
    requires es != [] && Ordered(es) && OneRule(cfg, es, key, rule)
    ensures var init, e := es[..|es| - 1], es[|es| - 1];
            && Ordered(init) && OneRule(cfg, init, key, rule) && Clock(es) == e.now
            && (init != [] ==> Clock(init) <= e.now)
            && (e.Request? && e.hash == key ==> MatchRule(cfg, e.rawKey) == rule)
  {
  }

  lemma EmptyLogInv(cfg: Config, key: string, limit: nat, hourly: bool, clock: int)
    ensures LogInv(WindowLog(cfg, [], key, hourly), Get(Pick(Run(cfg, []), hourly), key), limit, Length(hourly), clock)
  {
  }

  lemma {:induction false} RunLogInv(cfg: Config, es: seq<Event>, key: string, rule: Rule, hourly: bool)
    requires Ordered(es) && OneRule(cfg, es, key, rule) && Limit(rule, hourly) > 0
    ensures LogInv(WindowLog(cfg, es, key, hourly), Get(Pick(Run(cfg, es), hourly), key),
                   Limit(rule, hourly), Length(hourly), Clock(es))
  {
    hide *;
    if es == [] {
      EmptyLogInv(cfg, key, Limit(rule, hourly), hourly, Clock([]));
    } else {
      var init, e := es[..|es| - 1], es[|es| - 1];
      OrderedInit(cfg, es, key, rule);
      WindowLogSnoc(cfg, es, key, hourly);
      if init == [] {
        EmptyLogInv(cfg, key, Limit(rule, hourly), hourly, e.now);
        LogStep(cfg, Run(cfg, init), e, key, rule, hourly, WindowLog(cfg, init, key, hourly), e.now);
      } else {
        RunLogInv(cfg, init, key, rule, hourly);
        LogStep(cfg, Run(cfg, init), e, key, rule, hourly, WindowLog(cfg, init, key, hourly), Clock(init));
      }
    }
  }

  /** Hour windows, and minute windows of a rule without an hourly limit, are anchored. */
  lemma {:induction false} RunAnchored(cfg: Config, es: seq<Event>, key: string, rule: Rule, hourly: bool)
    requires Ordered(es) && OneRule(cfg, es, key, rule) && Limit(rule, hourly) > 0
    requires hourly || rule.perHour <= 0
    ensures Anchored(WindowLog(cfg, es, key, hourly), Get(Pick(Run(cfg, es), hourly), key))
  {
    if es != [] {
      var init, e := es[..|es| - 1], es[|es| - 1];
      RunAnchored(cfg, init, key, rule, hourly);
      RunLogInv(cfg, init, key, rule, hourly);
      var log, w := WindowLog(cfg, init, key, hourly), Get(Pick(Run(cfg, init), hourly), key);
      StepOnWindow(cfg, Run(cfg, init), e, key, rule, hourly);
      if Admitted(cfg, Run(cfg, init), e, key) {
        if init != [] {
          LogLater(log, w, Limit(rule, hourly), Length(hourly), Clock(init), e.now);
        }
        AnchoredAdmitted(log, w, Limit(rule, hourly), Length(hourly), e.now);
      }
    }
  }

  lemma {:induction false} AdmissionsSorted(cfg: Config, es: seq<Event>, key: string)
    requires Ordered(es)
    ensures Sorted(Admissions(cfg, es, key))
    ensures forall i :: 0 <= i < |Admissions(cfg, es, key)| ==> Admissions(cfg, es, key)[i] <= Clock(es)
  {
    if es != [] {
      AdmissionsSorted(cfg, es[..|es| - 1], key);
    }
  }

  lemma WindowBound(cfg: Config, es: seq<Event>, key: string, rule: Rule, hourly: bool, t: int)
    requires Ordered(es) && OneRule(cfg, es, key, rule) && Limit(rule, hourly) > 0
    ensures CountIn(Admissions(cfg, es, key), t, t + Length(hourly)) <= 2 * Limit(rule, hourly)
    ensures hourly || rule.perHour <= 0 ==>
              CountIn(Admissions(cfg, es, key), t, t + Length(hourly)) <= 2 * Limit(rule, hourly) - 1
  {
    hide *;
    var log, w := WindowLog(cfg, es, key, hourly), Get(Pick(Run(cfg, es), hourly), key);
    RunLogInv(cfg, es, key, rule, hourly);
    LogTimes(cfg, es, key, hourly);
    AdmissionsSorted(cfg, es, key);
    if hourly || rule.perHour <= 0 {
      RunAnchored(cfg, es, key, rule, hourly);
      AnchoredSpread(log, w, Limit(rule, hourly), Length(hourly), Clock(es));
      SpreadBoundsCount(Times(log), 2 * Limit(rule, hourly) - 1, t, Length(hourly));
    } else {
      TwoWindowsSpread(log, w, Limit(rule, hourly), Length(hourly), Clock(es));
      SpreadBoundsCount(Times(log), 2 * Limit(rule, hourly), t, Length(hourly));
    }
  }

  /** Any closed minute holds at most 2N admissions of the key, and at most 2N - 1 when its
      rule has no hourly limit. */
  lemma MinuteBound(cfg: Config, es: seq<Event>, key: string, rule: Rule, t: int)
    requires Ordered(es) && OneRule(cfg, es, key, rule) && rule.perMinute > 0
    ensures CountIn(Admissions(cfg, es, key), t, t + MINUTE) <= 2 * rule.perMinute
    ensures rule.perHour <= 0 ==> CountIn(Admissions(cfg, es, key), t, t + MINUTE) <= 2 * rule.perMinute - 1
  {
    WindowBound(cfg, es, key, rule, false, t);
  }

  /** Any closed hour holds at most 2H - 1 admissions of the key. */
  lemma HourBound(cfg: Config, es: seq<Event>, key: string, rule: Rule, t: int)
    requires Ordered(es) && OneRule(cfg, es, key, rule) && rule.perHour > 0
    ensures CountIn(Admissions(cfg, es, key), t, t + HOUR) <= 2 * rule.perHour - 1
  {
    WindowBound(cfg, es, key, rule, true, t);
  }
}
