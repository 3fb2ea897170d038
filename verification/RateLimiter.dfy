/** The rate limiter: request-anchored fixed windows per API-key hash, one of a minute and
    one of an hour, and the background sweep of expired windows. Times are nanoseconds. */
module RateLimiter {
  import opened Common

  const MINUTE: int := 60_000_000_000
  const HOUR: int := 3_600_000_000_000

  datatype Rule = Rule(pattern: string, perMinute: int, perHour: int)

  /** `matches` is the glob matcher of the file-path library (false on a bad pattern). */
  datatype Config = Config(default: Rule, rules: seq<Rule>, matches: (string, string) -> bool)

  datatype Window = Window(count: int, end: int)

  type Counters = map<string, Window>

  datatype State = State(minute: Counters, hour: Counters)

  datatype Verdict = Verdict(allowed: bool, retryAfter: int)

  const EMPTY := State(map[], map[])

  function MergeWithDefault(cfg: Config, r: Rule): Rule {
    Rule(r.pattern,
         if r.perMinute <= 0 then cfg.default.perMinute else r.perMinute,
         if r.perHour <= 0 then cfg.default.perHour else r.perHour)
  }

  /** The merged first rule from index `i` on that matches the key, or the default. */
  function MatchFrom(cfg: Config, rawKey: string, i: nat): Rule
    requires i <= |cfg.rules|
    decreases |cfg.rules| - i
  {
    if i == |cfg.rules| then cfg.default
    else if cfg.matches(cfg.rules[i].pattern, rawKey) then MergeWithDefault(cfg, cfg.rules[i])
    else MatchFrom(cfg, rawKey, i + 1)
  }

  function MatchRule(cfg: Config, rawKey: string): Rule {
    MatchFrom(cfg, rawKey, 0)
  }

  /** A key is held to the positive limits of the first rule that matches it, and to the
      default's where that rule sets none; to the default's if no rule matches. */
  lemma {:induction false} EffectiveLimits(cfg: Config, rawKey: string, i: nat)
    requires i <= |cfg.rules| && forall j :: 0 <= j < i ==> !cfg.matches(cfg.rules[j].pattern, rawKey)
    ensures i < |cfg.rules| && cfg.matches(cfg.rules[i].pattern, rawKey) ==>
              var own, rule := cfg.rules[i], MatchRule(cfg, rawKey);
              && (own.perMinute > 0 ==> rule.perMinute == own.perMinute)
              && (own.perMinute <= 0 ==> rule.perMinute == cfg.default.perMinute)
              && (own.perHour > 0 ==> rule.perHour == own.perHour)
              && (own.perHour <= 0 ==> rule.perHour == cfg.default.perHour)
    ensures i == |cfg.rules| ==> MatchRule(cfg, rawKey) == cfg.default
    ensures MatchRule(cfg, rawKey) == MatchFrom(cfg, rawKey, i)
  {
    if i > 0 {
      EffectiveLimits(cfg, rawKey, i - 1);
    }
  }

  /** The window that a request at `now` is counted in. */
  function Touch(w: Option<Window>, now: int, duration: int): Window {
    if w.Some? && now <= w.value.end then w.value else Window(0, now + duration)
  }

  function Get(c: Counters, key: string): Option<Window> {
    if key in c then Some(c[key]) else None
  }

  function GetOrCreate(c: Counters, key: string, now: int, duration: int): Counters {
    c[key := Touch(Get(c, key), now, duration)]
  }

  function Bump(c: Counters, key: string): Counters
    requires key in c
  {
    c[key := c[key].(count := c[key].count + 1)]
  }

  function Judge(rule: Rule, st: State, key: string, now: int): Verdict {
    var m, h := Touch(Get(st.minute, key), now, MINUTE), Touch(Get(st.hour, key), now, HOUR);
    if rule.perMinute > 0 && m.count >= rule.perMinute then Verdict(false, m.end - now)
    else if rule.perHour > 0 && h.count >= rule.perHour then Verdict(false, h.end - now)
    else Verdict(true, 0)
  }

  /** The counters after a request. A request refused by the minute window does not touch
      the hour window; one refused by the hour window has touched both. */
  function Admit(rule: Rule, st: State, key: string, now: int): State {
    var v := Judge(rule, st, key, now);
    var byMinute := rule.perMinute > 0 && Touch(Get(st.minute, key), now, MINUTE).count >= rule.perMinute;
    var m := if rule.perMinute > 0 then GetOrCreate(st.minute, key, now, MINUTE) else st.minute;
    var h := if rule.perHour > 0 && !byMinute then GetOrCreate(st.hour, key, now, HOUR) else st.hour;
    State(if v.allowed && rule.perMinute > 0 then Bump(m, key) else m,
          if v.allowed && rule.perHour > 0 then Bump(h, key) else h)
  }

  function Unexpired(c: Counters, now: int): Counters {
    map k | k in c && !(now > c[k].end) :: c[k]
  }

  datatype Event = Request(rawKey: string, hash: string, now: int) | Sweep(now: int)

  function Step(cfg: Config, st: State, e: Event): State {
    match e
    case Request(rawKey, hash, now) => Admit(MatchRule(cfg, rawKey), st, hash, now)
    case Sweep(now) => State(Unexpired(st.minute, now), Unexpired(st.hour, now))
  }

  function Run(cfg: Config, es: seq<Event>): State {
    if es == [] then EMPTY else Step(cfg, Run(cfg, es[..|es| - 1]), es[|es| - 1])
  }

  /** The verdict that the last event of a run would get. */
  function VerdictOf(cfg: Config, st: State, e: Event): Verdict {
    if e.Request? then Judge(MatchRule(cfg, e.rawKey), st, e.hash, e.now) else Verdict(true, 0)
  }

  /** The verdicts of all requests, in order. */
  function Verdicts(cfg: Config, es: seq<Event>): seq<Verdict> {
    if es == [] then []
    else
      var init, e := es[..|es| - 1], es[|es| - 1];
      Verdicts(cfg, init) + (if e.Request? then [VerdictOf(cfg, Run(cfg, init), e)] else [])
  }

  /** The clock never goes back. */
  predicate Ordered(es: seq<Event>) {
    forall i, j :: 0 <= i < j < |es| ==> es[i].now <= es[j].now
  }

  function Clock(es: seq<Event>): int {
    if es == [] then 0 else es[|es| - 1].now
  }

  // ----- Sweeping is invisible

  /** The window of `key` if it still counts at time `t`. */
  function Live(c: Counters, key: string, t: int): Option<Window> {
    if key in c && t <= c[key].end then Some(c[key]) else None
  }

  ghost predicate SameLive(a: State, b: State, t: int) {
    forall k :: Live(a.minute, k, t) == Live(b.minute, k, t) && Live(a.hour, k, t) == Live(b.hour, k, t)
  }

  function WithoutSweeps(es: seq<Event>): seq<Event> {
    if es == [] then []
    else WithoutSweeps(es[..|es| - 1]) + (if es[|es| - 1].Request? then [es[|es| - 1]] else [])
  }

  lemma SameLiveLater(a: State, b: State, t: int, t': int)
    requires SameLive(a, b, t) && t <= t'
    ensures SameLive(a, b, t')
  {
    forall k
      ensures Live(a.minute, k, t') == Live(b.minute, k, t') && Live(a.hour, k, t') == Live(b.hour, k, t')
    {
      assert Live(a.minute, k, t) == Live(b.minute, k, t) && Live(a.hour, k, t) == Live(b.hour, k, t);
    }
  }

  lemma SameLiveTouch(a: State, b: State, key: string, t: int)
    requires SameLive(a, b, t)
    ensures Touch(Get(a.minute, key), t, MINUTE) == Touch(Get(b.minute, key), t, MINUTE)
    ensures Touch(Get(a.hour, key), t, HOUR) == Touch(Get(b.hour, key), t, HOUR)
  {
    assert Live(a.minute, key, t) == Live(b.minute, key, t) && Live(a.hour, key, t) == Live(b.hour, key, t);
  }

  /** Agreement on live windows is all a request needs, and it is kept. */
  lemma SameLiveRequest(rule: Rule, a: State, b: State, key: string, t: int)
    requires SameLive(a, b, t)
    ensures Judge(rule, a, key, t) == Judge(rule, b, key, t)
    ensures SameLive(Admit(rule, a, key, t), Admit(rule, b, key, t), t)
  {
    SameLiveTouch(a, b, key, t);
    var a', b' := Admit(rule, a, key, t), Admit(rule, b, key, t);
    forall k
      ensures Live(a'.minute, k, t) == Live(b'.minute, k, t) && Live(a'.hour, k, t) == Live(b'.hour, k, t)
    {
      assert Live(a.minute, k, t) == Live(b.minute, k, t) && Live(a.hour, k, t) == Live(b.hour, k, t);
      hide Live;
      if k == key {
        AdmitThis(rule, a, b, key, t);
      }
    }
  }

  lemma AdmitThis(rule: Rule, a: State, b: State, key: string, t: int)
    requires Touch(Get(a.minute, key), t, MINUTE) == Touch(Get(b.minute, key), t, MINUTE)
    requires Touch(Get(a.hour, key), t, HOUR) == Touch(Get(b.hour, key), t, HOUR)
    requires Live(a.minute, key, t) == Live(b.minute, key, t) && Live(a.hour, key, t) == Live(b.hour, key, t)
    ensures Live(Admit(rule, a, key, t).minute, key, t) == Live(Admit(rule, b, key, t).minute, key, t)
    ensures Live(Admit(rule, a, key, t).hour, key, t) == Live(Admit(rule, b, key, t).hour, key, t)
  {
    hide Touch;
  }

  lemma {:induction false} SweepSimulation(cfg: Config, es: seq<Event>)
    requires Ordered(es)
    ensures SameLive(Run(cfg, es), Run(cfg, WithoutSweeps(es)), Clock(es))
    ensures Verdicts(cfg, es) == Verdicts(cfg, WithoutSweeps(es))
  {
    if es != [] {
      var init, e := es[..|es| - 1], es[|es| - 1];
      SweepSimulation(cfg, init);
      var a, b := Run(cfg, init), Run(cfg, WithoutSweeps(init));
      if init != [] {
        SameLiveLater(a, b, Clock(init), e.now);
      }
      if e.Request? {
        SameLiveRequest(MatchRule(cfg, e.rawKey), a, b, e.hash, e.now);
        var kept := WithoutSweeps(es);
        assert kept == WithoutSweeps(init) + [e] && kept[..|kept| - 1] == WithoutSweeps(init);
      } else {
        SweepStep(a, b, e.now);
        assert WithoutSweeps(es) == WithoutSweeps(init);
      }
    }
  }

  lemma SweepStep(a: State, b: State, t: int)
    requires SameLive(a, b, t)
    ensures SameLive(State(Unexpired(a.minute, t), Unexpired(a.hour, t)), b, t)
  {
  }

  /** Sweeps inserted anywhere change no decision and no retry-after value. */
  lemma SweepInvisible(cfg: Config, es: seq<Event>)
    requires Ordered(es)
    ensures Verdicts(cfg, es) == Verdicts(cfg, WithoutSweeps(es))
  {
    SweepSimulation(cfg, es);
  }

  /** A sweep keeps exactly the windows that have not ended. */
  lemma SweepExact(cfg: Config, st: State, now: int)
    ensures var st' := Step(cfg, st, Sweep(now));
            && (forall k :: k in st'.minute <==> k in st.minute && now <= st.minute[k].end)
            && (forall k :: k in st'.hour <==> k in st.hour && now <= st.hour[k].end)
            && (forall k :: k in st'.minute ==> st'.minute[k] == st.minute[k])
            && (forall k :: k in st'.hour ==> st'.hour[k] == st.hour[k])
  {
  }

  // ----- Refusals

  /** Every window started at or before `t` and lasts its full duration. */
  ghost predicate Started(st: State, t: int) {
    && (forall k :: k in st.minute ==> st.minute[k].end <= t + MINUTE && st.minute[k].count >= 0)
    && (forall k :: k in st.hour ==> st.hour[k].end <= t + HOUR && st.hour[k].count >= 0)
  }

  lemma {:induction false} RunStarted(cfg: Config, es: seq<Event>)
    requires Ordered(es)
    ensures Started(Run(cfg, es), Clock(es))
  {
    if es != [] {
      RunStarted(cfg, es[..|es| - 1]);
    }
  }

  function LiveCount(c: Counters, key: string, t: int): int {
    var w := Live(c, key, t);
    if w.Some? then w.value.count else 0
  }

  predicate MinuteFull(rule: Rule, st: State, key: string, u: int) {
    rule.perMinute > 0 && key in st.minute && st.minute[key].end == u && st.minute[key].count >= rule.perMinute
  }

  predicate HourFull(rule: Rule, st: State, key: string, u: int) {
    rule.perHour > 0 && key in st.hour && st.hour[key].end == u && st.hour[key].count >= rule.perHour
  }

  /** A window of the key that ends at `u` is full. */
  predicate FullUntil(rule: Rule, st: State, key: string, u: int) {
    MinuteFull(rule, st, key, u) || HourFull(rule, st, key, u)
  }

  /** At `t` a window that was full until `u` has been replaced by an empty one. */
  predicate FreshAt(rule: Rule, st: State, key: string, u: int, t: int) {
    && (MinuteFull(rule, st, key, u) ==> Touch(Get(st.minute, key), t, MINUTE).count == 0)
    && (HourFull(rule, st, key, u) ==> Touch(Get(st.hour, key), t, HOUR).count == 0)
  }

  predicate RefusedByMinute(rule: Rule, st: State, key: string, now: int) {
    rule.perMinute > 0 && Touch(Get(st.minute, key), now, MINUTE).count >= rule.perMinute
  }

  /** A refusal changes no live count and promises a wait of at most the window's length,
      to the moment the refusing window ends; strictly after it that window counts anew. */
  lemma RefusalFacts(rule: Rule, st: State, key: string, now: int, u: int)
    requires Started(st, now) && !Judge(rule, st, key, now).allowed
    requires u == now + Judge(rule, st, key, now).retryAfter
    ensures now <= u <= now + HOUR && (RefusedByMinute(rule, st, key, now) ==> u <= now + MINUTE)
    ensures FullUntil(rule, Admit(rule, st, key, now), key, u)
    ensures forall t :: t > u ==> FreshAt(rule, Admit(rule, st, key, now), key, u, t)
    ensures forall k :: LiveCount(Admit(rule, st, key, now).minute, k, now) == LiveCount(st.minute, k, now)
    ensures forall k :: LiveCount(Admit(rule, st, key, now).hour, k, now) == LiveCount(st.hour, k, now)
  {
  }

  lemma FullStep(cfg: Config, rule: Rule, st: State, key: string, u: int, e: Event)
    requires FullUntil(rule, st, key, u) && e.now <= u
    ensures FullUntil(rule, Step(cfg, st, e), key, u)
    ensures e.Request? && e.hash == key && MatchRule(cfg, e.rawKey) == rule ==> !VerdictOf(cfg, st, e).allowed
  {
  }

  function RunFrom(cfg: Config, st: State, es: seq<Event>): State
    decreases |es|
  {
    if es == [] then st else RunFrom(cfg, Step(cfg, st, es[0]), es[1..])
  }

  /** Retry-after is exact: whatever else happens, the key stays refused up to that moment. */
  lemma {:induction false} RefusedUntilRetry(cfg: Config, rule: Rule, st: State, key: string, u: int,
      es: seq<Event>, e: Event)
    requires FullUntil(rule, st, key, u)
    requires (forall i :: 0 <= i < |es| ==> es[i].now <= u) && e.now <= u
    requires e.Request? && e.hash == key && MatchRule(cfg, e.rawKey) == rule
    ensures FullUntil(rule, RunFrom(cfg, st, es), key, u)
    ensures !VerdictOf(cfg, RunFrom(cfg, st, es), e).allowed
    decreases |es|
  {
    if es == [] {
      FullStep(cfg, rule, st, key, u, e);
    } else {
      FullStep(cfg, rule, st, key, u, es[0]);
      RefusedUntilRetry(cfg, rule, Step(cfg, st, es[0]), key, u, es[1..], e);
    }
  }

  // ----- The implementation

  class Limiter {
    const cfg: Config
    var minuteCounters: Counters
    var hourCounters: Counters

    ghost function Abs(): State
      reads this
    {
      State(minuteCounters, hourCounters)
    }

    constructor (cfg: Config)
      ensures this.cfg == cfg && Abs() == EMPTY
    {
      this.cfg := cfg;
      minuteCounters, hourCounters := map[], map[];
    }

    method Allow(rawKey: string, hash: string, now: int) returns (allowed: bool, retryAfter: int)
      modifies this
      ensures Abs() == Step(cfg, old(Abs()), Request(rawKey, hash, now))
      ensures Verdict(allowed, retryAfter) == VerdictOf(cfg, old(Abs()), Request(rawKey, hash, now))
    {
      var rule := MatchRule(cfg, rawKey);
      if rule.perMinute <= 0 && rule.perHour <= 0 {
        return true, 0;
      }
      if rule.perMinute > 0 {
        minuteCounters := GetOrCreate(minuteCounters, hash, now, MINUTE);
        var w := minuteCounters[hash];
        if w.count >= rule.perMinute {
          return false, w.end - now;
        }
      }
      if rule.perHour > 0 {
        hourCounters := GetOrCreate(hourCounters, hash, now, HOUR);
        var w := hourCounters[hash];
        if w.count >= rule.perHour {
          return false, w.end - now;
        }
      }
      if rule.perMinute > 0 {
        minuteCounters := Bump(minuteCounters, hash);
      }
      if rule.perHour > 0 {
        hourCounters := Bump(hourCounters, hash);
      }
      return true, 0;
    }

    method EvictExpired(now: int)
      modifies this
      ensures Abs() == Step(cfg, old(Abs()), Sweep(now))
    {
      minuteCounters := DropExpired(minuteCounters, now);
      hourCounters := DropExpired(hourCounters, now);
    }
  }

  /** The sweep loop over one counter map, in any iteration order. */
  method DropExpired(c: Counters, now: int) returns (kept: Counters)
    ensures kept == Unexpired(c, now)
  {
    kept := c;
    var todo := c.Keys;
    while todo != {}
      invariant todo <= c.Keys && kept.Keys <= c.Keys
      invariant forall k :: k in c ==> (k in kept <==> k in todo || !(now > c[k].end))
      invariant forall k :: k in kept ==> kept[k] == c[k]
    {
      var key :| key in todo;
      if now > c[key].end {
        kept := kept - {key};
      }
      todo := todo - {key};
    }
  }
}
