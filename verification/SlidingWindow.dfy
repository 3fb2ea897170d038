/** When the limiter keeps the sliding-window promise: never more than the limit in any
    interval of the window's length. The answer is exact for every rule. */
module SlidingWindow {
  import opened Common
  import opened RateLimiter
  import opened RateBounds

  /** A key, the raw key it comes from, and the rule that applies to it. */
  datatype Scene = Scene(cfg: Config, rawKey: string, key: string, rule: Rule)

  predicate Proper(sc: Scene) {
    MatchRule(sc.cfg, sc.rawKey) == sc.rule
  }

  /** The admissions of the key in the interval of the window's length from `t` on. */
  function Held(sc: Scene, es: seq<Event>, t: int, hourly: bool): nat {
    CountIn(Admissions(sc.cfg, es, sc.key), t, t + Length(hourly))
  }

  /** In every run, any closed interval of the window's length holds at most as many
      admissions of the key as the limit says. */
  ghost predicate Sliding(sc: Scene, hourly: bool) {
    forall es, t :: Ordered(es) && OneRule(sc.cfg, es, sc.key, sc.rule) ==>
                      Held(sc, es, t, hourly) <= Limit(sc.rule, hourly)
  }

  /** With one limit: it is 1. With both, for the minute: the hour's limit is 1, or is so
      small that no minute can exceed its own, or the minute's limit is 1 and the hour can
      never fill up; for the hour: its limit is 1, or no hour of full minutes reaches more. */
  predicate Slides(rule: Rule, hourly: bool) {
    var n, h := rule.perMinute, rule.perHour;
    if hourly then h == 1 || (n > 0 && h >= 61 * n - 1)
    else if h <= 0 then n == 1
    else if n == 1 then h == 1 || h >= 60
    else 2 * h <= n + 2
  }

  // ----- Counting

  lemma {:induction false} CountConcat(a: seq<int>, b: seq<int>, lo: int, hi: int)
    ensures CountIn(a + b, lo, hi) == CountIn(a, lo, hi) + CountIn(b, lo, hi)
  {
    if b == [] {
      assert a + b == a;
    } else {
      CountConcat(a, b[..|b| - 1], lo, hi);
      assert (a + b)[..|a + b| - 1] == a + b[..|b| - 1];
    }
  }

  predicate AllIn(a: seq<int>, lo: int, hi: int) {
    forall i :: 0 <= i < |a| ==> lo <= a[i] <= hi
  }

  lemma {:induction false} CountAll(a: seq<int>, lo: int, hi: int)
    requires AllIn(a, lo, hi)
    ensures CountIn(a, lo, hi) == |a|
  {
    if a != [] {
      CountAll(a[..|a| - 1], lo, hi);
    }
  }

  lemma CountAtLeast(a: seq<int>, b: seq<int>, lo: int, hi: int)
    requires AllIn(b, lo, hi)
    ensures CountIn(a + b, lo, hi) >= |b|
  {
    CountConcat(a, b, lo, hi);
    CountAll(b, lo, hi);
  }

  lemma {:induction false} CountWider(a: seq<int>, lo: int, hi: int, more: int)
    requires hi <= more
    ensures CountIn(a, lo, hi) <= CountIn(a, lo, more)
  {
    if a != [] {
      CountWider(a[..|a| - 1], lo, hi, more);
    }
  }

  // ----- Building runs

  /** A run of requests of the key up to time `last`, its admissions, and both windows. */
  datatype Trail = Trail(es: seq<Event>, adm: seq<int>, m: Option<Window>, h: Option<Window>, last: int)

  const START := Trail([], [], None, None, 0)

  ghost predicate Mine(sc: Scene, es: seq<Event>, last: int) {
    forall i :: 0 <= i < |es| ==> es[i] == Request(sc.rawKey, sc.key, es[i].now) && es[i].now <= last
  }

  ghost predicate Reached(sc: Scene, x: Trail) {
    && Ordered(x.es) && Mine(sc, x.es, x.last) && Admissions(sc.cfg, x.es, sc.key) == x.adm
    && Get(Run(sc.cfg, x.es).minute, sc.key) == x.m && Get(Run(sc.cfg, x.es).hour, sc.key) == x.h
  }

  /** `n` more requests at `t` fit the limit (no limit, if not positive). */
  predicate Room(limit: int, w: Option<Window>, t: int, d: int, n: nat) {
    limit <= 0 || Touch(w, t, d).count + n <= limit
  }

  function Used(limit: int, w: Option<Window>, t: int, d: int, n: nat): Option<Window> {
    if limit <= 0 then w else Some(Window(Touch(w, t, d).count + n, Touch(w, t, d).end))
  }

  function Same(t: int, n: nat): seq<int> {
    seq(n, _ => t)
  }

  predicate Fits(sc: Scene, x: Trail, t: int, n: nat) {
    Room(sc.rule.perMinute, x.m, t, MINUTE, n) && Room(sc.rule.perHour, x.h, t, HOUR, n)
  }

  function Next(sc: Scene, x: Trail, es: seq<Event>, t: int, n: nat): Trail {
    Trail(es, x.adm + Same(t, n), Used(sc.rule.perMinute, x.m, t, MINUTE, n), Used(sc.rule.perHour, x.h, t, HOUR, n), t)
  }

  lemma StartReached(sc: Scene)
    ensures Reached(sc, START)
  {
  }

  lemma RunSnoc(cfg: Config, es: seq<Event>, e: Event, key: string)
    ensures Run(cfg, es + [e]) == Step(cfg, Run(cfg, es), e)
    ensures Admissions(cfg, es + [e], key)
            == Admissions(cfg, es, key) + if Admitted(cfg, Run(cfg, es), e, key) then [e.now] else []
  {
    assert (es + [e])[..|es|] == es;
    hide Step, Admitted;
  }

  lemma OneMore(sc: Scene, es: seq<Event>, last: int, t: int)
    requires Ordered(es) && Mine(sc, es, last) && last <= t
    ensures Ordered(es + [Request(sc.rawKey, sc.key, t)]) && Mine(sc, es + [Request(sc.rawKey, sc.key, t)], t)
  {
  }

  /** What one request does to both windows of its key. */
  lemma RequestStep(sc: Scene, st: State, t: int)
    requires Proper(sc)
    ensures var e := Request(sc.rawKey, sc.key, t);
            var st' := Step(sc.cfg, st, e);
            var m, h := Get(st.minute, sc.key), Get(st.hour, sc.key);
            && (Room(sc.rule.perMinute, m, t, MINUTE, 1) && Room(sc.rule.perHour, h, t, HOUR, 1) ==>
                  && Admitted(sc.cfg, st, e, sc.key)
                  && Get(st'.minute, sc.key) == Used(sc.rule.perMinute, m, t, MINUTE, 1)
                  && Get(st'.hour, sc.key) == Used(sc.rule.perHour, h, t, HOUR, 1))
            && (Room(sc.rule.perMinute, m, t, MINUTE, 1) && !Room(sc.rule.perHour, h, t, HOUR, 1) ==>
                  && !Admitted(sc.cfg, st, e, sc.key)
                  && Get(st'.minute, sc.key) == Used(sc.rule.perMinute, m, t, MINUTE, 0)
                  && Get(st'.hour, sc.key) == Used(sc.rule.perHour, h, t, HOUR, 0))
  {
    hide MatchRule;
  }

  lemma One(sc: Scene, x: Trail, t: int) returns (x': Trail)
    requires Proper(sc) && Reached(sc, x) && x.last <= t && Fits(sc, x, t, 1)
    ensures Reached(sc, x') && x' == Next(sc, x, x'.es, t, 1)
  {
    var e := Request(sc.rawKey, sc.key, t);
    RunSnoc(sc.cfg, x.es, e, sc.key);
    OneMore(sc, x.es, x.last, t);
    RequestStep(sc, Run(sc.cfg, x.es), t);
    hide Run, Admissions, Step, Admitted, Ordered, Mine, Proper, Used, Room;
    x' := Next(sc, x, x.es + [e], t, 1);
    assert Same(t, 1) == [t];
  }

  /** A request that only the hour refuses. */
  lemma HourRefuses(sc: Scene, x: Trail, t: int) returns (x': Trail)
    requires Proper(sc) && Reached(sc, x) && x.last <= t && sc.rule.perMinute > 0
    requires Room(sc.rule.perMinute, x.m, t, MINUTE, 1) && !Room(sc.rule.perHour, x.h, t, HOUR, 1)
    ensures Reached(sc, x') && x' == Next(sc, x, x'.es, t, 0)
  {
    var e := Request(sc.rawKey, sc.key, t);
    RunSnoc(sc.cfg, x.es, e, sc.key);
    OneMore(sc, x.es, x.last, t);
    RequestStep(sc, Run(sc.cfg, x.es), t);
    hide Run, Admissions, Step, Admitted, Ordered, Mine, Proper, Used, Room;
    x' := Next(sc, x, x.es + [e], t, 0);
    assert Same(t, 0) == [] && x.adm + [] == x.adm;
  }

  lemma UsedTwice(limit: int, w: Option<Window>, t: int, d: int, n: nat)
    requires d >= 0
    ensures Used(limit, Used(limit, w, t, d, n), t, d, 1) == Used(limit, w, t, d, n + 1)
    ensures Room(limit, w, t, d, n + 1) ==> Room(limit, w, t, d, n)
    ensures Room(limit, w, t, d, n + 1) ==> Room(limit, Used(limit, w, t, d, n), t, d, 1)
  {
  }

  /** `n` requests at the same moment. */
  lemma {:induction false} Burst(sc: Scene, x: Trail, t: int, n: nat) returns (x': Trail)
    requires Proper(sc) && Reached(sc, x) && x.last <= t && n >= 1 && Fits(sc, x, t, n)
    ensures Reached(sc, x') && x' == Next(sc, x, x'.es, t, n)
    decreases n
  {
    hide *;
    if n == 1 {
      x' := One(sc, x, t);
    } else {
      FitsLess(sc, x, t, n - 1);
      var y := Burst(sc, x, t, n - 1);
      OneMoreFits(sc, x, y, t, n - 1);
      x' := One(sc, y, t);
      OneMoreNext(sc, x, y, x', t, n - 1);
    }
  }

  lemma FitsLess(sc: Scene, x: Trail, t: int, n: nat)
    requires Fits(sc, x, t, n + 1)
    ensures Fits(sc, x, t, n)
  {
  }

  lemma OneMoreFits(sc: Scene, x: Trail, y: Trail, t: int, n: nat)
    requires Fits(sc, x, t, n + 1) && y == Next(sc, x, y.es, t, n)
    ensures Fits(sc, y, t, 1) && y.last == t
  {
    UsedTwice(sc.rule.perMinute, x.m, t, MINUTE, n);
    UsedTwice(sc.rule.perHour, x.h, t, HOUR, n);
    hide Used, Room;
  }

  lemma OneMoreNext(sc: Scene, x: Trail, y: Trail, z: Trail, t: int, n: nat)
    requires y == Next(sc, x, y.es, t, n) && z == Next(sc, y, z.es, t, 1)
    ensures z == Next(sc, x, z.es, t, n + 1)
  {
    UsedTwice(sc.rule.perMinute, x.m, t, MINUTE, n);
    UsedTwice(sc.rule.perHour, x.h, t, HOUR, n);
    SameSnoc(x.adm, t, n);
    hide Used, Same;
  }

  lemma SameSnoc(a: seq<int>, t: int, n: nat)
    ensures a + Same(t, n) + Same(t, 1) == a + Same(t, n + 1)
  {
  }

  /** No window of this length counts at `t`. */
  predicate Over(w: Option<Window>, t: int) {
    w.None? || t > w.value.end
  }

  function Product(k: nat, n: nat): nat {
    if k == 0 then 0 else Product(k - 1, n) + n
  }

  lemma {:induction false} ProductIs(k: nat, n: nat)
    ensures Product(k, n) == k * n
  {
    if k > 0 {
      ProductIs(k - 1, n);
    }
  }

  /** From `t` on, `k` full minutes of requests and `n` more, all within one hour window. */
  lemma {:induction false} Train(sc: Scene, x: Trail, t: int, k: nat, n: nat) returns (x': Trail, more: seq<int>)
    requires Proper(sc) && Reached(sc, x) && x.last <= t && Over(x.m, t) && Over(x.h, t)
    requires 1 <= n <= sc.rule.perMinute && k <= 59 && Product(k, sc.rule.perMinute) + n <= sc.rule.perHour
    ensures Reached(sc, x') && x'.adm == x.adm + more && |more| == Product(k, sc.rule.perMinute) + n
    ensures x'.last == t + k * (MINUTE + 1) && AllIn(more, t, x'.last)
    ensures x'.m == Some(Window(n, x'.last + MINUTE))
    ensures x'.h == Some(Window(Product(k, sc.rule.perMinute) + n, t + HOUR))
    decreases k
  {
    hide Reached, Proper;
    if k == 0 {
      x' := Burst(sc, x, t, n);
      more := Same(t, n);
    } else {
      var y, before := Train(sc, x, t, k - 1, sc.rule.perMinute);
      x' := Burst(sc, y, t + k * (MINUTE + 1), n);
      more := before + Same(t + k * (MINUTE + 1), n);
      assert x.adm + before + Same(t + k * (MINUTE + 1), n) == x.adm + more;
    }
  }

  lemma {:induction false} Decompose(total: nat, n: nat) returns (k: nat, r: nat)
    requires total >= 1 && n >= 1
    ensures 1 <= r <= n && total == Product(k, n) + r
    decreases total
  {
    if total <= n {
      k, r := 0, total;
    } else {
      k, r := Decompose(total - n, n);
      k := k + 1;
    }
  }

  lemma {:induction false} ProductMonotone(j: nat, k: nat, n: nat)
    requires j <= k
    ensures Product(j, n) <= Product(k, n)
  {
    if j < k {
      ProductMonotone(j, k - 1, n);
    }
  }

  /** The same with the number of requests given. */
  lemma Fill(sc: Scene, x: Trail, t: int, total: nat, minutes: nat) returns (x': Trail, more: seq<int>)
    requires Proper(sc) && Reached(sc, x) && x.last <= t && Over(x.m, t) && Over(x.h, t)
    requires sc.rule.perMinute >= 1 && 1 <= total <= sc.rule.perHour && total <= minutes * sc.rule.perMinute
             && minutes <= 60
    ensures Reached(sc, x') && x'.adm == x.adm + more && |more| == total && x'.last <= t + (minutes - 1) * (MINUTE + 1)
    ensures AllIn(more, t, x'.last) && x'.m.Some? && x'.m.value.end == x'.last + MINUTE
    ensures x'.h == Some(Window(total, t + HOUR))
  {
    hide Reached, Proper;
    var k, r := Decompose(total, sc.rule.perMinute);
    ProductIs(minutes, sc.rule.perMinute);
    if k >= minutes {
      ProductMonotone(minutes, k, sc.rule.perMinute);
      assert false;
    }
    x', more := Train(sc, x, t, k, r);
  }

  // ----- Rules that let too many through

  /** Some run exceeds the limit in some interval. */
  ghost predicate Exceeds(sc: Scene, hourly: bool, count: nat) {
    exists es, t :: Ordered(es) && OneRule(sc.cfg, es, sc.key, sc.rule) && Held(sc, es, t, hourly) >= count
  }

  lemma ReachedExceeds(sc: Scene, x: Trail, a: seq<int>, b: seq<int>, t: int, hourly: bool)
    requires Proper(sc) && Reached(sc, x) && x.adm == a + b && AllIn(b, t, t + Length(hourly))
    ensures Exceeds(sc, hourly, |b|)
  {
    CountAtLeast(a, b, t, t + Length(hourly));
    assert Held(sc, x.es, t, hourly) >= |b|;
    hide CountIn, Length;
  }

  lemma ExceedsNotSliding(sc: Scene, hourly: bool, count: nat)
    requires Exceeds(sc, hourly, count) && count > Limit(sc.rule, hourly)
    ensures !Sliding(sc, hourly)
  {
    var es, t :| Ordered(es) && OneRule(sc.cfg, es, sc.key, sc.rule) && Held(sc, es, t, hourly) >= count;
    hide Held;
  }

  /** With one limit L of at least 2: one request, the rest of its window at the last
      moment, then a full new window; 2L - 1 requests meet in one interval. */
  lemma StraddleReachesBound(sc: Scene, hourly: bool)
    requires Proper(sc) && Limit(sc.rule, hourly) >= 2 && Limit(sc.rule, !hourly) <= 0
    ensures Exceeds(sc, hourly, 2 * Limit(sc.rule, hourly) - 1)
  {
    var n, d := Limit(sc.rule, hourly), Length(hourly);
    StartReached(sc);
    hide Reached, Proper, Exceeds;
    var x := Burst(sc, START, 0, 1);
    x := Burst(sc, x, d, n - 1);
    x := Burst(sc, x, d + 1, n);
    var a, b, c := Same(0, 1), Same(d, n - 1), Same(d + 1, n);
    assert x.adm == a + (b + c);
    ReachedExceeds(sc, x, a, b + c, d, hourly);
  }

  /** Both limits, the minute's N at least 2 and 2H at least N + 3: the end of one hour and
      the start of the next meet in a minute. */
  lemma MinuteExceeded(sc: Scene)
    requires Proper(sc) && sc.rule.perMinute >= 2 && 2 * sc.rule.perHour >= sc.rule.perMinute + 3
    ensures Exceeds(sc, false, sc.rule.perMinute + 1)
  {
    var n, h := sc.rule.perMinute, sc.rule.perHour;
    var tail, head := if h - 2 <= n - 1 then h - 2 else n - 1, if h <= n then h else n;
    StartReached(sc);
    hide Reached, Proper, Exceeds;
    var x := Burst(sc, START, 0, 1);
    x := Burst(sc, x, HOUR - MINUTE + 1, 1);
    x := Burst(sc, x, HOUR, tail);
    x := Burst(sc, x, HOUR + 2, head);
    var a, b, c := Same(0, 1) + Same(HOUR - MINUTE + 1, 1), Same(HOUR, tail), Same(HOUR + 2, head);
    assert x.adm == a + (b + c);
    ReachedExceeds(sc, x, a, b + c, HOUR, false);
    ExceedsLess(sc, false, tail + head, n + 1);
  }

  lemma ExceedsLess(sc: Scene, hourly: bool, count: nat, less: nat)
    requires Exceeds(sc, hourly, count) && less <= count
    ensures Exceeds(sc, hourly, less)
  {
    var es, t :| Ordered(es) && OneRule(sc.cfg, es, sc.key, sc.rule) && Held(sc, es, t, hourly) >= count;
    hide Held;
  }

  /** Both limits, 2N <= H <= 59N: when the hour is full, a refused request opens a minute
      window without using it, and 2N requests meet in one minute. */
  lemma MinuteBoundReached(sc: Scene)
    requires Proper(sc) && sc.rule.perMinute >= 1 && 2 * sc.rule.perMinute <= sc.rule.perHour <= 59 * sc.rule.perMinute
    ensures Exceeds(sc, false, 2 * sc.rule.perMinute)
  {
    var n := sc.rule.perMinute;
    StartReached(sc);
    hide Reached, Proper, Exceeds;
    var x, a := Fill(sc, START, 0, sc.rule.perHour, 59);
    x := HourRefuses(sc, x, HOUR);
    x := Burst(sc, x, HOUR + MINUTE, n);
    x := Burst(sc, x, HOUR + MINUTE + 1, n);
    var b, c := Same(HOUR + MINUTE, n), Same(HOUR + MINUTE + 1, n);
    assert x.adm == a + (b + c);
    ReachedExceeds(sc, x, a, b + c, HOUR + MINUTE, false);
  }

  /** Both limits, 2 <= H <= N. */
  lemma HourExceededSmall(sc: Scene)
    requires Proper(sc) && 2 <= sc.rule.perHour <= sc.rule.perMinute
    ensures Exceeds(sc, true, sc.rule.perHour + 1)
  {
    var h, late := sc.rule.perHour, HOUR + MINUTE + 1;
    StartReached(sc);
    hide Reached, Proper, Exceeds;
    var x := Burst(sc, START, 0, 1);
    x := Burst(sc, x, HOUR, h - 1);
    x := Burst(sc, x, late, 2);
    var a, b, c := Same(0, 1), Same(HOUR, h - 1), Same(late, 2);
    assert x.adm == a + (b + c);
    ReachedExceeds(sc, x, a, b + c, HOUR, true);
  }

  /** Both limits, N = 1 and 2 <= H <= 59. */
  lemma HourExceededOne(sc: Scene)
    requires Proper(sc) && sc.rule.perMinute == 1 && 2 <= sc.rule.perHour <= 59
    ensures Exceeds(sc, true, sc.rule.perHour + 1)
  {
    var h := sc.rule.perHour;
    StartReached(sc);
    hide Reached, Proper, Exceeds;
    var x := Burst(sc, START, 0, 1);
    x := Burst(sc, x, HOUR, 1);
    var y, c := Fill(sc, x, HOUR + MINUTE + 1, h, 59);
    var a, b := Same(0, 1), Same(HOUR, 1);
    assert y.adm == a + (b + c);
    ReachedExceeds(sc, y, a, b + c, HOUR, true);
  }

  /** Both limits, N >= 2 and N < H <= 61N - 2. */
  lemma HourExceededLarge(sc: Scene)
    requires Proper(sc) && sc.rule.perMinute >= 2 && sc.rule.perMinute < sc.rule.perHour <= 61 * sc.rule.perMinute - 2
    ensures Exceeds(sc, true, sc.rule.perHour + 1)
  {
    var n, h := sc.rule.perMinute, sc.rule.perHour;
    StartReached(sc);
    hide Reached, Proper, Exceeds;
    var x := Burst(sc, START, 0, 1);
    x := Burst(sc, x, HOUR - MINUTE, 1);
    x := Burst(sc, x, HOUR, n - 1);
    var y, c := Fill(sc, x, HOUR + 1, h + 2 - n, 60);
    var a, b := Same(0, 1) + Same(HOUR - MINUTE, 1), Same(HOUR, n - 1);
    assert y.adm == a + (b + c);
    ReachedExceeds(sc, y, a, b + c, HOUR, true);
  }

  // ----- Both windows together

  /** The two logs of a run, entry by entry the same admissions, and the two windows. */
  datatype Logs = Logs(m: seq<Entry>, h: seq<Entry>, wm: Option<Window>, wh: Option<Window>)

  function LogsOf(sc: Scene, es: seq<Event>): Logs {
    Logs(WindowLog(sc.cfg, es, sc.key, false), WindowLog(sc.cfg, es, sc.key, true),
         Get(Run(sc.cfg, es).minute, sc.key), Get(Run(sc.cfg, es).hour, sc.key))
  }

  predicate BothLimits(rule: Rule) {
    rule.perMinute > 0 && rule.perHour > 0
  }

  /** What is known of each log by itself. */
  ghost predicate LogsOk(rule: Rule, l: Logs, clock: int) {
    && rule.perMinute > 0 && rule.perHour > 0 && |l.m| == |l.h|
       && (forall i :: 0 <= i < |l.m| ==> l.m[i].time == l.h[i].time)
    && LogInv(l.m, l.wm, rule.perMinute, MINUTE, clock) && LogInv(l.h, l.wh, rule.perHour, HOUR, clock)
    && Anchored(l.h, l.wh)
  }

  /** A minute window that was opened by a refused request is unused until the hour window
      is a new one: so the first admission of a minute window is at its start, or is the
      first admission of an hour window. */
  ghost predicate Paired(rule: Rule, l: Logs) {
    && |l.m| == |l.h|
    && (forall k :: 0 <= k < |l.m| && OpensWindow(l.m, k) ==> l.m[k].time == l.m[k].start || OpensWindow(l.h, k))
    && (l.wm.Some? && l.wm.value.count == 0 ==> l.wh.None? || l.wh.value.count >= rule.perHour)
  }

  lemma RunLogsOk(sc: Scene, es: seq<Event>)
    requires BothLimits(sc.rule) && Ordered(es) && OneRule(sc.cfg, es, sc.key, sc.rule)
    ensures LogsOk(sc.rule, LogsOf(sc, es), Clock(es))
  {
    RunLogInv(sc.cfg, es, sc.key, sc.rule, false);
    RunLogInv(sc.cfg, es, sc.key, sc.rule, true);
    RunAnchored(sc.cfg, es, sc.key, sc.rule, true);
    LogTimes(sc.cfg, es, sc.key, false);
    LogTimes(sc.cfg, es, sc.key, true);
    hide LogInv, Anchored, Ordered, OneRule, Run, WindowLog, Admissions;
    var l := LogsOf(sc, es);
    assert |Times(l.m)| == |l.m| && |Times(l.h)| == |l.h|;
    forall i | 0 <= i < |l.m|
      ensures l.m[i].time == l.h[i].time
    {
      assert Times(l.m)[i] == Times(l.h)[i];
    }
  }

  /** What an event does to both windows of the key. */
  datatype Effect = NoEffect | Swept | Admits | ByMinute | ByHour

  function EffectOn(sc: Scene, st: State, e: Event): Effect {
    if e.Sweep? then Swept
    else if e.hash != sc.key then NoEffect
    else if Touch(Get(st.minute, sc.key), e.now, MINUTE).count >= sc.rule.perMinute then ByMinute
    else if Touch(Get(st.hour, sc.key), e.now, HOUR).count >= sc.rule.perHour then ByHour
    else Admits
  }

  ghost predicate EffectOk(sc: Scene, l: Logs, l': Logs, e: Event, x: Effect) {
    var tm, th := Touch(l.wm, e.now, MINUTE), Touch(l.wh, e.now, HOUR);
    match x
    case NoEffect => l' == l
    case Swept => l'.m == l.m && l'.h == l.h && (l'.wm == l.wm || l'.wm.None?) && (l'.wh == l.wh || l'.wh.None?)
    case ByMinute => tm.count >= sc.rule.perMinute && l' == l.(wm := Some(tm))
    case ByHour =>
      tm.count < sc.rule.perMinute && th.count >= sc.rule.perHour && l' == l.(wm := Some(tm), wh := Some(th))
    case Admits =>
      && tm.count < sc.rule.perMinute && th.count < sc.rule.perHour
      && l' == Logs(l.m + [Entry(e.now, tm.end - MINUTE)], l.h + [Entry(e.now, th.end - HOUR)],
                    Some(tm.(count := tm.count + 1)), Some(th.(count := th.count + 1)))
  }

  lemma StateEffect(sc: Scene, st: State, e: Event)
    requires BothLimits(sc.rule) && (e.Request? && e.hash == sc.key ==> MatchRule(sc.cfg, e.rawKey) == sc.rule)
    ensures var m, h := Get(st.minute, sc.key), Get(st.hour, sc.key);
            var st', x := Step(sc.cfg, st, e), EffectOn(sc, st, e);
            var m', h' := Get(st'.minute, sc.key), Get(st'.hour, sc.key);
            var tm, th := Touch(m, e.now, MINUTE), Touch(h, e.now, HOUR);
            && (Admitted(sc.cfg, st, e, sc.key) <==> x.Admits?)
            && (x.NoEffect? ==> m' == m && h' == h)
            && (x.Swept? ==> (m' == m || m'.None?) && (h' == h || h'.None?))
            && (x.ByMinute? ==> tm.count >= sc.rule.perMinute && m' == Some(tm) && h' == h)
            && (x.ByHour? ==> tm.count < sc.rule.perMinute && th.count >= sc.rule.perHour)
            && (x.ByHour? ==> m' == Some(tm) && h' == Some(th))
            && (x.Admits? ==> tm.count < sc.rule.perMinute && th.count < sc.rule.perHour)
            && (x.Admits? ==> m' == Some(tm.(count := tm.count + 1)) && h' == Some(th.(count := th.count + 1)))
  {
    hide MatchRule;
  }

  lemma LogsStep(sc: Scene, es: seq<Event>) returns (x: Effect)
    requires BothLimits(sc.rule) && es != [] && OneRule(sc.cfg, es, sc.key, sc.rule)
    ensures EffectOk(sc, LogsOf(sc, es[..|es| - 1]), LogsOf(sc, es), es[|es| - 1], x)
  {
    var init, e := es[..|es| - 1], es[|es| - 1];
    WindowLogSnoc(sc.cfg, es, sc.key, false);
    WindowLogSnoc(sc.cfg, es, sc.key, true);
    x := EffectOn(sc, Run(sc.cfg, init), e);
    hide Run, WindowLog, Step, Admitted, Touch, EffectOn, MatchRule, OneRule;
    StateEffect(sc, Run(sc.cfg, init), e);
  }

  lemma AdmitsKeepsPaired(sc: Scene, l: Logs, l': Logs, e: Event, clock: int)
    requires LogsOk(sc.rule, l, clock) && Paired(sc.rule, l) && clock <= e.now && EffectOk(sc, l, l', e, Admits)
    ensures Paired(sc.rule, l')
  {
    var k := |l.m|;
    forall i | 0 <= i < k && OpensWindow(l'.m, i)
      ensures l'.m[i].time == l'.m[i].start || OpensWindow(l'.h, i)
    {
      assert OpensWindow(l.m, i);
    }
    NewEntry(sc, l, l', e, clock);
    hide LogsOk;
  }

  lemma NewEntry(sc: Scene, l: Logs, l': Logs, e: Event, clock: int)
    requires LogsOk(sc.rule, l, clock) && Paired(sc.rule, l) && clock <= e.now && EffectOk(sc, l, l', e, Admits)
    ensures OpensWindow(l'.m, |l.m|) ==> l'.m[|l.m|].time == l'.m[|l.m|].start || OpensWindow(l'.h, |l.m|)
  {
    var k := |l.m|;
    if l.wm.Some? && e.now <= l.wm.value.end && k > 0 {
      if l.wm.value.count > 0 {
        assert l.m[k - 1].start == l.wm.value.end - MINUTE;
      } else {
        assert l.wh.Some? ==> l.h[k - 1].start <= l.wh.value.end - HOUR;
      }
    }
  }

  lemma {:induction false} RunPaired(sc: Scene, es: seq<Event>)
    requires BothLimits(sc.rule) && Ordered(es) && OneRule(sc.cfg, es, sc.key, sc.rule)
    ensures Paired(sc.rule, LogsOf(sc, es))
    decreases |es|
  {
    if es != [] {
      var init, e := es[..|es| - 1], es[|es| - 1];
      OrderedInit(sc.cfg, es, sc.key, sc.rule);
      RunPaired(sc, init);
      RunLogsOk(sc, init);
      var x := LogsStep(sc, es);
      var l, l' := LogsOf(sc, init), LogsOf(sc, es);
      if x.Admits? {
        hide LogsOk, Ordered, OneRule, LogsOf, EffectOk, Paired;
        if init == [] {
          EmptyLogsOk(sc, e.now);
          AdmitsKeepsPaired(sc, l, l', e, e.now);
        } else {
          AdmitsKeepsPaired(sc, l, l', e, Clock(init));
        }
      } else {
        hide LogsOk, Ordered, OneRule, LogsOf;
      }
    }
  }

  lemma EmptyLogsOk(sc: Scene, clock: int)
    requires BothLimits(sc.rule)
    ensures LogsOk(sc.rule, LogsOf(sc, []), clock)
  {
  }

  // ----- Rules that keep the promise

  lemma SpreadHolds(sc: Scene, es: seq<Event>, t: int, hourly: bool)
    requires Ordered(es) && Limit(sc.rule, hourly) > 0
    requires Spread(Times(WindowLog(sc.cfg, es, sc.key, hourly)), Limit(sc.rule, hourly), Length(hourly))
    ensures Held(sc, es, t, hourly) <= Limit(sc.rule, hourly)
  {
    LogTimes(sc.cfg, es, sc.key, hourly);
    AdmissionsSorted(sc.cfg, es, sc.key);
    hide Spread, Sorted, Ordered, WindowLog, Admissions;
    SpreadBoundsCount(Admissions(sc.cfg, es, sc.key), Limit(sc.rule, hourly), t, Length(hourly));
  }

  // Single facts of the logs

  lemma Lengths()
    ensures MINUTE > 0 && HOUR == 60 * MINUTE
  {
  }

  lemma Parts(rule: Rule, l: Logs, clock: int)
    requires LogsOk(rule, l, clock)
    ensures |l.m| == |l.h| && rule.perMinute > 0 && rule.perHour > 0 && Anchored(l.h, l.wh)
    ensures EntriesSound(l.m, MINUTE, clock) && EntriesSound(l.h, HOUR, clock)
    ensures WindowsSpread(l.m, rule.perMinute, MINUTE) && WindowsSpread(l.h, rule.perHour, HOUR)
  {
  }

  lemma TimeAt(rule: Rule, l: Logs, clock: int, i: nat)
    requires LogsOk(rule, l, clock) && i < |l.m|
    ensures i < |l.h| && l.m[i].time == l.h[i].time
    ensures l.m[i].start <= l.m[i].time <= l.m[i].start + MINUTE && l.h[i].start <= l.h[i].time <= l.h[i].start + HOUR
  {
    hide WindowsSpread, CountsLast, Anchored;
  }

  lemma SpreadAt(log: seq<Entry>, limit: nat, d: int, i: nat, j: nat)
    requires WindowsSpread(log, limit, d) && i + limit <= j < |log|
    ensures log[j].start > log[i].start + d
  {
  }

  lemma AnchorAt(log: seq<Entry>, w: Option<Window>, k: nat)
    requires Anchored(log, w) && k < |log| && OpensWindow(log, k)
    ensures log[k].time == log[k].start
  {
  }

  lemma SameWindow(log: seq<Entry>, k: nat)
    requires k < |log| && !OpensWindow(log, k)
    ensures k >= 1 && log[k - 1].start == log[k].start
  {
  }

  /** The first admission of an hour window: H admissions later more than an hour has gone. */
  lemma AfterHourOpener(rule: Rule, l: Logs, clock: int, i: nat)
    requires LogsOk(rule, l, clock) && 0 < rule.perHour && i + rule.perHour < |l.h| == |l.m| && OpensWindow(l.h, i)
    ensures l.m[i + rule.perHour].time > l.m[i].time + HOUR
  {
    hide *;
    Parts(rule, l, clock);
    TimeAt(rule, l, clock, i);
    TimeAt(rule, l, clock, i + rule.perHour);
    AnchorAt(l.h, l.wh, i);
    SpreadAt(l.h, rule.perHour, HOUR, i, i + rule.perHour);
  }

  /** The second admission of an hour window, in the same minute window as the first. */
  lemma AfterSecond(rule: Rule, l: Logs, clock: int, i: nat)
    requires LogsOk(rule, l, clock) && 0 < rule.perHour && 1 <= i < |l.m| && i - 1 + rule.perHour < |l.h| == |l.m|
    requires OpensWindow(l.h, i - 1) && !OpensWindow(l.m, i)
    ensures l.m[i - 1 + rule.perHour].time > l.m[i].time + MINUTE
  {
    hide *;
    Lengths();
    AfterHourOpener(rule, l, clock, i - 1);
    TimeAt(rule, l, clock, i - 1);
    TimeAt(rule, l, clock, i);
    SameWindow(l.m, i);
  }

  /** The third or a later admission of an hour window: 2H - 2 admissions later. */
  lemma AfterThird(rule: Rule, l: Logs, clock: int, i: nat)
    requires LogsOk(rule, l, clock) && 0 < rule.perHour && 2 <= i < |l.m| && i - 2 + 2 * rule.perHour < |l.h| == |l.m|
    requires !OpensWindow(l.h, i) && !OpensWindow(l.h, i - 1)
    ensures l.m[i - 2 + 2 * rule.perHour].time > l.m[i].time + HOUR
  {
    hide *;
    var j := i - 2 + rule.perHour;
    Parts(rule, l, clock);
    SameWindow(l.h, i);
    SameWindow(l.h, i - 1);
    SpreadAt(l.h, rule.perHour, HOUR, i - 2, j);
    SpreadAt(l.h, rule.perHour, HOUR, j, j + rule.perHour);
    TimeAt(rule, l, clock, i);
    TimeAt(rule, l, clock, j + rule.perHour);
  }

  lemma TimesSorted(rule: Rule, l: Logs, clock: int, i: nat, j: nat)
    requires LogsOk(rule, l, clock) && i <= j < |l.m|
    ensures l.m[i].time <= l.m[j].time
  {
    Parts(rule, l, clock);
    hide LogsOk, WindowsSpread, Anchored;
  }

  /** With N >= 2 and 2H <= N + 2, any N + 1 admissions span more than a minute. */
  lemma {:induction false} MinuteSpread(rule: Rule, l: Logs, clock: int)
    requires LogsOk(rule, l, clock) && Paired(rule, l) && rule.perMinute >= 2 && 2 * rule.perHour <= rule.perMinute + 2
    ensures Spread(Times(l.m), rule.perMinute, MINUTE)
  {
    hide LogsOk, Paired;
    var n := rule.perMinute;
    forall i: nat | i + n < |l.m|
      ensures l.m[i + n].time - l.m[i].time > MINUTE
    {
      MinuteSpreadAt(rule, l, clock, i);
    }
    SpreadOf(l.m, n, MINUTE);
  }

  lemma SpreadOf(log: seq<Entry>, k: nat, d: int)
    requires forall i: nat :: i + k < |log| ==> log[i + k].time - log[i].time > d
    ensures Spread(Times(log), k, d)
  {
  }

  lemma {:induction false} MinuteSpreadAt(rule: Rule, l: Logs, clock: int, i: nat)
    requires LogsOk(rule, l, clock) && Paired(rule, l) && rule.perMinute >= 2 && 2 * rule.perHour <= rule.perMinute + 2
    requires i + rule.perMinute < |l.m|
    ensures l.m[i + rule.perMinute].time - l.m[i].time > MINUTE
  {
    hide *;
    Lengths();
    var n, h := rule.perMinute, rule.perHour;
    Parts(rule, l, clock);
    if OpensWindow(l.h, i) {
      AfterHourOpener(rule, l, clock, i);
      TimesSorted(rule, l, clock, i + h, i + n);
    } else if OpensWindow(l.m, i) {
      PairedAt(rule, l, i);
      SpreadAt(l.m, n, MINUTE, i, i + n);
      TimeAt(rule, l, clock, i + n);
    } else {
      SameWindow(l.m, i);
      if OpensWindow(l.h, i - 1) {
        AfterSecond(rule, l, clock, i);
        TimesSorted(rule, l, clock, i - 1 + h, i + n);
      } else {
        SameWindow(l.h, i - 1);
        AfterThird(rule, l, clock, i);
        TimesSorted(rule, l, clock, i - 2 + 2 * h, i + n);
      }
    }
  }

  lemma PairedAt(rule: Rule, l: Logs, k: nat)
    requires Paired(rule, l) && k < |l.m| && OpensWindow(l.m, k) && k < |l.h| && !OpensWindow(l.h, k)
    ensures l.m[k].time == l.m[k].start
  {
  }

  /** Every N admissions a new minute window starts more than a minute later. */
  lemma {:induction false} ChainByProduct(log: seq<Entry>, n: nat, i: nat, k: nat)
    requires WindowsSpread(log, n, MINUTE) && i + Product(k, n) < |log|
    ensures log[i + Product(k, n)].start >= log[i].start + k * (MINUTE + 1)
  {
    if k > 0 {
      ChainByProduct(log, n, i, k - 1);
      assert log[i + Product(k - 1, n) + n].start > log[i + Product(k - 1, n)].start + MINUTE;
    }
  }

  lemma MinuteChain(log: seq<Entry>, n: nat, i: nat, k: nat)
    requires WindowsSpread(log, n, MINUTE) && i + k * n < |log|
    ensures log[i + k * n].start >= log[i].start + k * (MINUTE + 1)
  {
    ProductIs(k, n);
    ChainByProduct(log, n, i, k);
  }

  /** With H >= 61N - 1, any H + 1 admissions span more than an hour. */
  lemma {:induction false} HourSpread(rule: Rule, l: Logs, clock: int)
    requires LogsOk(rule, l, clock) && Paired(rule, l) && rule.perHour >= 61 * rule.perMinute - 1
    ensures Spread(Times(l.h), rule.perHour, HOUR)
  {
    assert rule.perHour > 0;
    hide LogsOk, Paired;
    forall i: nat | i + rule.perHour < |l.h|
      ensures l.h[i + rule.perHour].time - l.h[i].time > HOUR
    {
      HourSpreadAt(rule, l, clock, i);
    }
    SpreadOf(l.h, rule.perHour, HOUR);
  }

  lemma {:induction false} HourSpreadAt(rule: Rule, l: Logs, clock: int, i: nat)
    requires LogsOk(rule, l, clock) && Paired(rule, l) && rule.perHour >= 61 * rule.perMinute - 1
    requires i + rule.perHour < |l.h|
    ensures l.h[i + rule.perHour].time - l.h[i].time > HOUR
  {
    hide *;
    var n, h := rule.perMinute, rule.perHour;
    Parts(rule, l, clock);
    TimeAt(rule, l, clock, i);
    TimeAt(rule, l, clock, i + h);
    if OpensWindow(l.h, i) {
      AfterHourOpener(rule, l, clock, i);
    } else if OpensWindow(l.m, i) {
      PairedAt(rule, l, i);
      AfterMinuteOpener(rule, l, clock, i);
      TimesSorted(rule, l, clock, i + 60 * n, i + h);
    } else {
      SameWindow(l.m, i);
      AfterMinuteOther(rule, l, clock, i);
      TimesSorted(rule, l, clock, i - 1 + 61 * n, i + h);
    }
  }

  lemma AfterMinuteOpener(rule: Rule, l: Logs, clock: int, i: nat)
    requires LogsOk(rule, l, clock) && 0 < rule.perMinute && i + 60 * rule.perMinute < |l.m|
             && l.m[i].time == l.m[i].start
    ensures l.m[i + 60 * rule.perMinute].time > l.m[i].time + HOUR
  {
    hide *;
    Lengths();
    Parts(rule, l, clock);
    MinuteChain(l.m, rule.perMinute, i, 60);
    TimeAt(rule, l, clock, i + 60 * rule.perMinute);
  }

  lemma AfterMinuteOther(rule: Rule, l: Logs, clock: int, i: nat)
    requires LogsOk(rule, l, clock) && 0 < rule.perMinute && 1 <= i < |l.m| && i - 1 + 61 * rule.perMinute < |l.m|
    requires !OpensWindow(l.m, i)
    ensures l.m[i - 1 + 61 * rule.perMinute].time > l.m[i].time + HOUR
  {
    hide *;
    Lengths();
    Parts(rule, l, clock);
    MinuteChain(l.m, rule.perMinute, i - 1, 61);
    SameWindow(l.m, i);
    TimeAt(rule, l, clock, i);
    TimeAt(rule, l, clock, i - 1 + 61 * rule.perMinute);
  }

  /** With N = 1 and H >= 60 the hour never refuses: by the time 60 minutes have each had
      their admission, the hour is over. */
  lemma HourNeverFull(sc: Scene, l: Logs, now: int, clock: int)
    requires LogsOk(sc.rule, l, clock) && Anchored(l.m, l.wm) && clock <= now
    requires sc.rule.perMinute == 1 && sc.rule.perHour >= 60 && Touch(l.wm, now, MINUTE).count < 1
    ensures Touch(l.wh, now, HOUR).count < sc.rule.perHour
  {
    if l.wh.Some? && l.wh.value.count >= 60 {
      var b := |l.h| - l.wh.value.count;
      assert OpensWindow(l.h, b) && l.h[b].start == l.wh.value.end - HOUR;
      MinuteOver(l, now, clock);
      SixtyMinutes(sc.rule, l, clock, b);
    }
  }

  lemma MinuteOver(l: Logs, now: int, clock: int)
    requires LogInv(l.m, l.wm, 1, MINUTE, clock) && Anchored(l.m, l.wm) && clock <= now && l.m != []
    requires Touch(l.wm, now, MINUTE).count < 1
    ensures l.m[|l.m| - 1].start + MINUTE < now
  {
  }

  lemma SixtyMinutes(rule: Rule, l: Logs, clock: int, b: nat)
    requires LogsOk(rule, l, clock) && Anchored(l.m, l.wm) && rule.perMinute == 1 && b + 60 <= |l.m| == |l.h|
             && OpensWindow(l.h, b)
    ensures l.m[|l.m| - 1].start >= l.h[b].start + 59 * (MINUTE + 1)
  {
    hide *;
    Parts(rule, l, clock);
    TimeAt(rule, l, clock, b);
    AnchorAt(l.h, l.wh, b);
    SinglesOpen(l.m, b);
    AnchorAt(l.m, l.wm, b);
    MinuteChain(l.m, 1, b, 59);
    SinglesSorted(l.m, b + 59, |l.m| - 1);
  }

  lemma SinglesOpen(log: seq<Entry>, k: nat)
    requires WindowsSpread(log, 1, MINUTE) && k < |log|
    ensures OpensWindow(log, k)
  {
  }

  lemma SinglesSorted(log: seq<Entry>, i: nat, j: nat)
    requires WindowsSpread(log, 1, MINUTE) && i <= j < |log|
    ensures log[i].start <= log[j].start
  {
  }

  lemma {:induction false} RunMinuteAnchored(sc: Scene, es: seq<Event>)
    requires Ordered(es) && OneRule(sc.cfg, es, sc.key, sc.rule) && sc.rule.perMinute == 1 && sc.rule.perHour >= 60
    ensures Anchored(LogsOf(sc, es).m, LogsOf(sc, es).wm)
    decreases |es|
  {
    if es != [] {
      var init, e := es[..|es| - 1], es[|es| - 1];
      OrderedInit(sc.cfg, es, sc.key, sc.rule);
      RunMinuteAnchored(sc, init);
      var x := LogsStep(sc, es);
      var clock := if init == [] then e.now else Clock(init);
      if init == [] {
        EmptyLogsOk(sc, e.now);
      } else {
        RunLogsOk(sc, init);
      }
      hide Ordered, OneRule, LogsOf;
      AnchoredStep(sc, LogsOf(sc, init), LogsOf(sc, es), e, x, clock);
    }
  }

  lemma AnchoredStep(sc: Scene, l: Logs, l': Logs, e: Event, x: Effect, clock: int)
    requires LogsOk(sc.rule, l, clock) && Anchored(l.m, l.wm) && clock <= e.now && EffectOk(sc, l, l', e, x)
    requires sc.rule.perMinute == 1 && sc.rule.perHour >= 60
    ensures Anchored(l'.m, l'.wm)
  {
    if x.Admits? {
      LogLater(l.m, l.wm, 1, MINUTE, clock, e.now);
      AnchoredAdmitted(l.m, l.wm, 1, MINUTE, e.now);
    } else if x.ByHour? {
      HourNeverFull(sc, l, e.now, clock);
    }
    hide LogsOk;
  }

  /** With anchored windows of one admission each, two admissions span more than a minute. */
  lemma SinglesSpread(rule: Rule, l: Logs, clock: int)
    requires LogsOk(rule, l, clock) && Anchored(l.m, l.wm) && rule.perMinute == 1
    ensures Spread(Times(l.m), 1, MINUTE)
  {
    AnchoredSpread(l.m, l.wm, 1, MINUTE, clock);
  }

  lemma OneWindowHolds(sc: Scene, es: seq<Event>, t: int, hourly: bool)
    requires Ordered(es) && OneRule(sc.cfg, es, sc.key, sc.rule) && Limit(sc.rule, hourly) == 1
    requires hourly || sc.rule.perHour <= 0
    ensures Held(sc, es, t, hourly) <= 1
  {
    WindowBound(sc.cfg, es, sc.key, sc.rule, hourly, t);
  }

  lemma KeepsPromise(sc: Scene, es: seq<Event>, t: int, hourly: bool)
    requires Ordered(es) && OneRule(sc.cfg, es, sc.key, sc.rule) && Limit(sc.rule, hourly) > 0
             && Slides(sc.rule, hourly)
    ensures Held(sc, es, t, hourly) <= Limit(sc.rule, hourly)
  {
    var n, h := sc.rule.perMinute, sc.rule.perHour;
    hide Ordered, OneRule, LogsOk, Paired, Spread, Times, WindowLog, CountIn, Admissions, Anchored;
    if (hourly && h == 1) || (!hourly && h <= 0) {
      OneWindowHolds(sc, es, t, hourly);
    } else if !hourly && h == 1 {
      OneWindowHolds(sc, es, t, true);
      CountWider(Admissions(sc.cfg, es, sc.key), t, t + MINUTE, t + HOUR);
    } else {
      RunLogsOk(sc, es);
      if !hourly && n == 1 {
        RunMinuteAnchored(sc, es);
        SinglesSpread(sc.rule, LogsOf(sc, es), Clock(es));
      } else {
        RunPaired(sc, es);
        if hourly {
          HourSpread(sc.rule, LogsOf(sc, es), Clock(es));
        } else {
          MinuteSpread(sc.rule, LogsOf(sc, es), Clock(es));
        }
      }
      SpreadHolds(sc, es, t, hourly);
    }
  }

  lemma BreaksPromise(sc: Scene, hourly: bool)
    requires Proper(sc) && Limit(sc.rule, hourly) > 0 && !Slides(sc.rule, hourly)
    ensures exists count: nat :: Exceeds(sc, hourly, count) && count > Limit(sc.rule, hourly)
  {
    var n, h := sc.rule.perMinute, sc.rule.perHour;
    hide Exceeds, Proper;
    if Limit(sc.rule, !hourly) <= 0 {
      StraddleReachesBound(sc, hourly);
    } else if !hourly && n == 1 {
      MinuteBoundReached(sc);
    } else if !hourly {
      MinuteExceeded(sc);
    } else if h <= n {
      HourExceededSmall(sc);
    } else if n == 1 {
      HourExceededOne(sc);
    } else {
      HourExceededLarge(sc);
    }
  }

  /** For every rule, with one limit or both, and for its minute and its hour: the limiter
      keeps the sliding-window promise over all runs exactly when the numbers are so. */
  lemma SlidingWindowIff(sc: Scene, hourly: bool)
    requires Proper(sc) && Limit(sc.rule, hourly) > 0
    ensures Sliding(sc, hourly) <==> Slides(sc.rule, hourly)
  {
    hide Slides, Exceeds, Proper, Limit;
    if Slides(sc.rule, hourly) {
      forall es, t | Ordered(es) && OneRule(sc.cfg, es, sc.key, sc.rule)
        ensures Held(sc, es, t, hourly) <= Limit(sc.rule, hourly)
      {
        KeepsPromise(sc, es, t, hourly);
      }
    } else {
      BreaksPromise(sc, hourly);
      var count: nat :| Exceeds(sc, hourly, count) && count > Limit(sc.rule, hourly);
      ExceedsNotSliding(sc, hourly, count);
    }
  }
}
