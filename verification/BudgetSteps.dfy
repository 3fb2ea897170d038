/** Budget checks under concurrency: every read of the rules, cache access, clock reading
    and ledger query of a request is one atomic step, and requests interleave freely. */
module BudgetSteps {
  import opened Common
  import opened Budget
  import opened Admission
  import Meter

  /** Spend figures and their history: how many records the ledger held when the clock was
      read for the queries, at the daily and at the monthly query; `queried` is that clock
      reading, `stamped` the one at the store. */
  datatype Figures = Figures(
    daily: real, monthly: real, queried: int, stamped: int,
    readAt: nat, dailyAt: nat, dailyOk: bool, monthlyAt: nat, monthlyOk: bool)

  const NO_FIGURES := Figures(0.0, 0.0, 0, 0, 0, 0, false, 0, false)

  /** Where a spend lookup is. */
  datatype LookupPc = Testing | Missed | AskDaily(f: Figures) | AskMonthly(f: Figures) | Storing(f: Figures)

  /** Where a request is; a lookup is for the rule that was read, and `tested` is when it
      looked into the cache. */
  datatype Stage =
    | ReadKeyRule
    | Looking(rule: Rule, s: Subject, tested: int, pc: LookupPc)
    | ReadTenantRule
    | Judging
    | InFlight(since: int)
    | Rejected
    | Recorded

  datatype Asked = Asked(rawKey: string, hash: string, tenant: string, meta: Option<RequestMeta>)

  /** A rule, the figures it is evaluated on, and when the cache was tested for them. */
  datatype Evidence = Evidence(rule: Rule, seen: Figures, tested: int)

  datatype Thread = Thread(asked: Asked, stage: Stage, key: Option<Evidence>, tenant: Option<Evidence>)

  type Tid = nat

  datatype Admitted = Admitted(tid: Tid, asked: Asked, key: Option<Evidence>, tenant: Option<Evidence>)

  /** Shared state, requests, and the history of admissions; `owners` are the requests whose
      records the ledger holds, in order. */
  datatype World = World(
    cfg: Config, table: Meter.Table, ledger: seq<Entry>, cache: map<string, Figures>, clock: int,
    threads: map<Tid, Thread>, admissions: seq<Admitted>, owners: seq<Tid>)

  /** A request arrives, takes its next step at `now` (`ok` tells whether a query succeeds),
      or completes and is recorded; an entry is evicted; the rules are replaced. */
  datatype Event =
    | Arrive(tid: Tid, asked: Asked)
    | Go(tid: Tid, now: int, ok: bool)
    | Complete(tid: Tid, start: int, now: int, cost: real)
    | Evict(key: string)
    | NewRules(rules: seq<Rule>)

  function Initial(cfg: Config, table: Meter.Table, clock: int): World {
    World(cfg, table, [], map[], clock, map[], [], [])
  }

  predicate Running(st: Stage) {
    st.ReadKeyRule? || st.Looking? || st.ReadTenantRule? || st.Judging?
  }

  /** The clock does not go back, a record is stamped when its request was forwarded or
      later, and costs are not negative. */
  predicate Enabled(w: World, e: Event) {
    match e
    case Arrive(tid, asked) => tid !in w.threads && IsFingerprint(asked.hash)
    case Go(tid, now, _) =>
      tid in w.threads && Running(w.threads[tid].stage) && w.clock <= now
    case Complete(tid, start, now, cost) =>
      && tid in w.threads && w.threads[tid].stage.InFlight? && w.threads[tid].stage.since <= start <= now
      && w.clock <= now && cost >= 0.0
    case Evict(_) => true
    case NewRules(_) => true
  }

  /** The lookup of the request ends with these figures. */
  function Found(t: Thread, f: Figures): Thread
    requires t.stage.Looking?
  {
    var ev := Some(Evidence(t.stage.rule, f, t.stage.tested));
    if t.stage.s.ByKey? then t.(key := ev, stage := ReadTenantRule) else t.(tenant := ev, stage := Judging)
  }

  function ResultOn(ev: Evidence): Result {
    EvaluateRule(ev.rule, ev.seen.daily, ev.seen.monthly)
  }

  /** The result of a request that has its evidence: the tenant's if it is stricter. */
  function ResultOf(key: Option<Evidence>, tenant: Option<Evidence>): Result {
    if key.None? then (if tenant.None? then UNLIMITED else ResultOn(tenant.value))
    else if tenant.None? then ResultOn(key.value)
    else
      var k, t := ResultOn(key.value), ResultOn(tenant.value);
      if t.decision.Severity() > k.decision.Severity() then t else k
  }

  /** One step of a spend lookup. */
  function LookStep(w: World, t: Thread, now: int, ok: bool): (Thread, map<string, Figures>)
    requires t.stage.Looking?
  {
    var st, k := t.stage, t.stage.s.CacheKey();
    match st.pc
    case Testing =>
      if k in w.cache && now - w.cache[k].stamped < w.cfg.ttl
        then (Found(t.(stage := st.(tested := now)), w.cache[k]), w.cache)
      else (t.(stage := st.(tested := now, pc := Missed)), w.cache)
    case Missed => (t.(stage := st.(pc := AskDaily(NO_FIGURES.(queried := now, readAt := |w.ledger|)))), w.cache)
    case AskDaily(f) =>
      var d := if ok then Spend(w.ledger, st.s, w.cfg.dayStart(f.queried), f.queried) else 0.0;
      (t.(stage := st.(pc := AskMonthly(f.(daily := d, dailyAt := |w.ledger|, dailyOk := ok)))), w.cache)
    case AskMonthly(f) =>
      var m := if ok then Spend(w.ledger, st.s, w.cfg.monthStart(f.queried), f.queried) else 0.0;
      (t.(stage := st.(pc := Storing(f.(monthly := m, monthlyAt := |w.ledger|, monthlyOk := ok)))), w.cache)
    case Storing(f) => (Found(t, f.(stamped := now)), w.cache[k := f.(stamped := now)])
  }

  function ThreadStep(w: World, t: Thread, now: int, ok: bool): (Thread, map<string, Figures>) {
    match t.stage
    case ReadKeyRule =>
      var r := MatchRule(w.cfg, t.asked.rawKey);
      (t.(stage := if HasLimits(r) then Looking(r, ByKey(t.asked.hash), now, Testing) else ReadTenantRule), w.cache)
    case Looking(_, _, _, _) => LookStep(w, t, now, ok)
    case ReadTenantRule =>
      var r := TenantRule(w.cfg, t.asked.tenant);
      (t.(stage := if r.Some? then Looking(r.value, ByTenant(t.asked.tenant), now, Testing) else Judging), w.cache)
    case Judging =>
      var pass := Gate(w.table, ResultOf(t.key, t.tenant), t.asked.meta) == Forwarded;
      (t.(stage := if pass then InFlight(now) else Rejected), w.cache)
    case _ => (t, w.cache)
  }

  function Step(w: World, e: Event): World {
    match e
    case Arrive(tid, asked) => w.(threads := w.threads[tid := Thread(asked, ReadKeyRule, None, None)])
    case Go(tid, now, ok) =>
      if tid !in w.threads then w
      else
        var t := w.threads[tid];
        var (t', cache) := ThreadStep(w, t, now, ok);
        w.(threads := w.threads[tid := t'], cache := cache, clock := now,
           admissions := if t.stage.Judging? && t'.stage.InFlight?
                         then w.admissions + [Admitted(tid, t.asked, t.key, t.tenant)]
                         else w.admissions)
    case Complete(tid, start, now, cost) =>
      if tid !in w.threads then w
      else
        var t := w.threads[tid];
        w.(threads := w.threads[tid := t.(stage := Recorded)], clock := now,
           ledger := w.ledger + [Entry(t.asked.hash, t.asked.tenant, start, cost)], owners := w.owners + [tid])
    case Evict(key) => w.(cache := w.cache - {key})
    case NewRules(rules) => w.(cfg := w.cfg.(rules := rules))
  }

  predicate IsRun(w: World, es: seq<Event>)
    decreases |es|
  {
    es == [] || (Enabled(w, es[0]) && IsRun(Step(w, es[0]), es[1..]))
  }

  function After(w: World, es: seq<Event>): World
    decreases |es|
  {
    if es == [] then w else After(Step(w, es[0]), es[1..])
  }

  // ----- True figures

  /** All records that were held when the clock was read are from before. */
  predicate Dated(w: World, f: Figures) {
    && f.readAt <= |w.ledger| && f.queried <= w.clock
    && forall i :: 0 <= i < f.readAt ==> w.ledger[i].time <= f.queried
  }

  predicate DailyTrue(w: World, s: Subject, f: Figures) {
    && f.readAt <= f.dailyAt <= |w.ledger|
    && f.daily == if f.dailyOk then Spend(w.ledger[..f.dailyAt], s, w.cfg.dayStart(f.queried), f.queried) else 0.0
  }

  predicate MonthlyTrue(w: World, s: Subject, f: Figures) {
    && f.readAt <= f.monthlyAt <= |w.ledger|
    && f.monthly == if f.monthlyOk then Spend(w.ledger[..f.monthlyAt], s, w.cfg.monthStart(f.queried), f.queried)
       else 0.0
  }

  /** The figures are what queries for the day and month of the clock reading returned for
      this subject. */
  predicate True(w: World, s: Subject, f: Figures) {
    Dated(w, f) && DailyTrue(w, s, f) && MonthlyTrue(w, s, f) && f.queried <= f.stamped <= w.clock
  }

  /** The figures are less than one time-to-live old when the cache is tested, or newer. */
  predicate Recent(w: World, ev: Evidence) {
    ev.seen.stamped >= ev.tested || ev.tested - ev.seen.stamped < w.cfg.ttl
  }

  predicate EvidenceOk(w: World, s: Subject, ev: Option<Evidence>) {
    ev.Some? ==> True(w, s, ev.value.seen) && Recent(w, ev.value)
  }

  predicate LookupOk(w: World, s: Subject, tested: int, pc: LookupPc) {
    match pc
    case Testing => true
    case Missed => tested <= w.clock
    case AskDaily(f) => tested <= f.queried && Dated(w, f)
    case AskMonthly(f) => tested <= f.queried && Dated(w, f) && DailyTrue(w, s, f)
    case Storing(f) => tested <= f.queried && Dated(w, f) && DailyTrue(w, s, f) && MonthlyTrue(w, s, f)
  }

  predicate ThreadOk(w: World, t: Thread) {
    && IsFingerprint(t.asked.hash)
    && EvidenceOk(w, ByKey(t.asked.hash), t.key) && EvidenceOk(w, ByTenant(t.asked.tenant), t.tenant)
    && (t.stage.Looking? ==>
          && t.stage.s == (if t.stage.s.ByKey? then ByKey(t.asked.hash) else ByTenant(t.asked.tenant))
          && LookupOk(w, t.stage.s, t.stage.tested, t.stage.pc))
    && (t.stage.InFlight? ==> t.stage.since <= w.clock)
  }

  predicate AdmittedOk(w: World, a: Admitted) {
    && EvidenceOk(w, ByKey(a.asked.hash), a.key) && EvidenceOk(w, ByTenant(a.asked.tenant), a.tenant)
    && (a.key.Some? ==> ResultOn(a.key.value).decision != Block)
    && (a.tenant.Some? ==> ResultOn(a.tenant.value).decision != Block)
  }

  ghost predicate LedgerOk(w: World) {
    forall i :: 0 <= i < |w.ledger| ==> w.ledger[i].cost >= 0.0 && w.ledger[i].time <= w.clock
  }

  ghost predicate CacheOk(w: World) {
    forall s: Subject :: Proper(s) && s.CacheKey() in w.cache ==> True(w, s, w.cache[s.CacheKey()])
  }

  ghost predicate ThreadsOk(w: World) {
    forall tid :: tid in w.threads ==> ThreadOk(w, w.threads[tid])
  }

  ghost predicate AdmissionsOk(w: World) {
    forall i :: 0 <= i < |w.admissions| ==> AdmittedOk(w, w.admissions[i])
  }

  /** The request was admitted. */
  ghost predicate WasAdmitted(w: World, tid: Tid, asked: Asked) {
    exists i :: 0 <= i < |w.admissions| && w.admissions[i].tid == tid && w.admissions[i].asked == asked
  }

  /** Each record is the one record of an admitted request. */
  ghost predicate OwnersOk(w: World) {
    && |w.owners| == |w.ledger|
    && (forall i, j :: 0 <= i < j < |w.owners| ==> w.owners[i] != w.owners[j])
    && (forall i :: 0 <= i < |w.owners| ==>
          && w.owners[i] in w.threads && w.threads[w.owners[i]].stage.Recorded?
          && w.ledger[i].key == w.threads[w.owners[i]].asked.hash
          && w.ledger[i].tenant == w.threads[w.owners[i]].asked.tenant)
    && (forall tid :: tid in w.threads && (w.threads[tid].stage.InFlight? || w.threads[tid].stage.Recorded?) ==>
          WasAdmitted(w, tid, w.threads[tid].asked))
  }

  ghost predicate Inv(w: World) {
    LedgerOk(w) && CacheOk(w) && ThreadsOk(w) && AdmissionsOk(w) && OwnersOk(w)
  }

  // ----- Truth is kept

  /** Records are only added, the clock only advances, only the rules change. */
  ghost predicate Later(w: World, w': World) {
    && |w.ledger| <= |w'.ledger| && w.ledger == w'.ledger[..|w.ledger|] && w.clock <= w'.clock
    && w'.cfg == w.cfg.(rules := w'.cfg.rules)
  }

  lemma StepLater(w: World, e: Event)
    requires Enabled(w, e)
    ensures Later(w, Step(w, e))
  {
    hide ThreadStep;
  }

  lemma PrefixPrefix<T>(a: seq<T>, b: seq<T>, n: nat)
    requires n <= |a| <= |b| && a == b[..|a|]
    ensures a[..n] == b[..n] && forall i :: 0 <= i < n ==> a[i] == b[i]
  {
  }

  lemma DatedKept(w: World, w': World, f: Figures)
    requires Later(w, w') && Dated(w, f)
    ensures Dated(w', f)
  {
    PrefixPrefix(w.ledger, w'.ledger, f.readAt);
  }

  lemma DailyKept(w: World, w': World, s: Subject, f: Figures)
    requires Later(w, w') && DailyTrue(w, s, f)
    ensures DailyTrue(w', s, f)
  {
    PrefixPrefix(w.ledger, w'.ledger, f.dailyAt);
  }

  lemma MonthlyKept(w: World, w': World, s: Subject, f: Figures)
    requires Later(w, w') && MonthlyTrue(w, s, f)
    ensures MonthlyTrue(w', s, f)
  {
    PrefixPrefix(w.ledger, w'.ledger, f.monthlyAt);
  }

  lemma TrueKept(w: World, w': World, s: Subject, f: Figures)
    requires Later(w, w') && True(w, s, f)
    ensures True(w', s, f)
  {
    DatedKept(w, w', f);
    DailyKept(w, w', s, f);
    MonthlyKept(w, w', s, f);
  }

  lemma EvidenceKept(w: World, w': World, s: Subject, ev: Option<Evidence>)
    requires Later(w, w') && EvidenceOk(w, s, ev)
    ensures EvidenceOk(w', s, ev)
  {
    hide True;
    if ev.Some? {
      TrueKept(w, w', s, ev.value.seen);
    }
  }

  lemma LookupKept(w: World, w': World, s: Subject, tested: int, pc: LookupPc)
    requires Later(w, w') && LookupOk(w, s, tested, pc)
    ensures LookupOk(w', s, tested, pc)
  {
    if pc.AskDaily? || pc.AskMonthly? || pc.Storing? {
      DatedKept(w, w', pc.f);
    }
    if pc.AskMonthly? || pc.Storing? {
      DailyKept(w, w', s, pc.f);
    }
    if pc.Storing? {
      MonthlyKept(w, w', s, pc.f);
    }
    hide Dated, DailyTrue, MonthlyTrue;
  }

  lemma ThreadKept(w: World, w': World, t: Thread)
    requires Later(w, w') && ThreadOk(w, t)
    ensures ThreadOk(w', t)
  {
    hide EvidenceOk, LookupOk;
    EvidenceKept(w, w', ByKey(t.asked.hash), t.key);
    EvidenceKept(w, w', ByTenant(t.asked.tenant), t.tenant);
    if t.stage.Looking? {
      LookupKept(w, w', t.stage.s, t.stage.tested, t.stage.pc);
    }
  }

  lemma AdmittedKept(w: World, w': World, a: Admitted)
    requires Later(w, w') && AdmittedOk(w, a)
    ensures AdmittedOk(w', a)
  {
    hide EvidenceOk;
    EvidenceKept(w, w', ByKey(a.asked.hash), a.key);
    EvidenceKept(w, w', ByTenant(a.asked.tenant), a.tenant);
  }

  // ----- One step of a request

  /** `w'` is `w` a little later, with the same ledger and rules. */
  ghost predicate Tick(w: World, w': World, now: int) {
    w'.ledger == w.ledger && w'.cfg == w.cfg && w'.clock == now && w.clock <= now
  }

  lemma TickLater(w: World, w': World, now: int)
    requires Tick(w, w', now)
    ensures Later(w, w')
  {
    assert w.ledger[..|w.ledger|] == w.ledger;
  }

  lemma ClockRead(w: World, w': World, now: int)
    requires LedgerOk(w) && Tick(w, w', now)
    ensures Dated(w', NO_FIGURES.(queried := now, readAt := |w.ledger|))
  {
  }

  lemma DailyAsked(w: World, w': World, now: int, s: Subject, f: Figures, ok: bool)
    requires Tick(w, w', now) && Dated(w, f)
    ensures var d := if ok then Spend(w.ledger, s, w.cfg.dayStart(f.queried), f.queried) else 0.0;
            var f' := f.(daily := d, dailyAt := |w.ledger|, dailyOk := ok);
            Dated(w', f') && DailyTrue(w', s, f')
  {
    hide Spend;
    assert w.ledger[..|w.ledger|] == w.ledger;
  }

  lemma MonthlyAsked(w: World, w': World, now: int, s: Subject, f: Figures, ok: bool)
    requires Tick(w, w', now) && Dated(w, f) && DailyTrue(w, s, f)
    ensures var m := if ok then Spend(w.ledger, s, w.cfg.monthStart(f.queried), f.queried) else 0.0;
            var f' := f.(monthly := m, monthlyAt := |w.ledger|, monthlyOk := ok);
            Dated(w', f') && DailyTrue(w', s, f') && MonthlyTrue(w', s, f')
  {
    hide Spend;
    assert w.ledger[..|w.ledger|] == w.ledger;
  }

  lemma Stamped(w: World, w': World, now: int, s: Subject, f: Figures)
    requires Tick(w, w', now) && Dated(w, f) && DailyTrue(w, s, f) && MonthlyTrue(w, s, f)
    ensures True(w', s, f.(stamped := now))
  {
    hide Spend;
  }

  lemma FoundOk(w': World, t: Thread, f: Figures)
    requires t.stage.Looking? && IsFingerprint(t.asked.hash)
    requires t.stage.s == if t.stage.s.ByKey? then ByKey(t.asked.hash) else ByTenant(t.asked.tenant)
    requires EvidenceOk(w', ByKey(t.asked.hash), t.key) && EvidenceOk(w', ByTenant(t.asked.tenant), t.tenant)
    requires True(w', t.stage.s, f) && Recent(w', Evidence(t.stage.rule, f, t.stage.tested))
    ensures ThreadOk(w', Found(t, f))
  {
    hide True, Recent;
  }

  /** The part of being in order that does not concern where the request is. */
  ghost predicate BaseOk(w: World, t: Thread) {
    && IsFingerprint(t.asked.hash)
    && EvidenceOk(w, ByKey(t.asked.hash), t.key) && EvidenceOk(w, ByTenant(t.asked.tenant), t.tenant)
    && (t.stage.Looking? ==> t.stage.s == (if t.stage.s.ByKey? then ByKey(t.asked.hash) else ByTenant(t.asked.tenant)))
  }

  lemma BaseKept(w: World, w': World, t: Thread)
    requires Later(w, w') && ThreadOk(w, t)
    ensures BaseOk(w', t) && BaseOk(w, t)
    ensures t.stage.Looking? ==> LookupOk(w, t.stage.s, t.stage.tested, t.stage.pc)
  {
    hide EvidenceOk, LookupOk;
    EvidenceKept(w, w', ByKey(t.asked.hash), t.key);
    EvidenceKept(w, w', ByTenant(t.asked.tenant), t.tenant);
  }

  lemma MovedOk(w: World, t: Thread, st: Stage)
    requires BaseOk(w, t) && t.stage.Looking? && st.Looking? && st.s == t.stage.s
    requires LookupOk(w, st.s, st.tested, st.pc)
    ensures ThreadOk(w, t.(stage := st))
  {
    hide EvidenceOk, LookupOk;
  }

  lemma TestingOk(w: World, w': World, t: Thread, now: int, ok: bool)
    requires CacheOk(w) && Tick(w, w', now) && ThreadOk(w, t) && t.stage.Looking? && t.stage.pc.Testing?
    ensures ThreadOk(w', LookStep(w, t, now, ok).0) && LookStep(w, t, now, ok).1 == w.cache
  {
    var st := t.stage;
    TickLater(w, w', now);
    BaseKept(w, w', t);
    if st.s.CacheKey() in w.cache && now - w.cache[st.s.CacheKey()].stamped < w.cfg.ttl {
      var f := w.cache[st.s.CacheKey()];
      assert True(w, st.s, f);
      TrueKept(w, w', st.s, f);
      hide True;
      FoundOk(w', t.(stage := st.(tested := now)), f);
    } else {
      MovedOk(w', t, st.(tested := now, pc := Missed));
    }
  }

  lemma AskingOk(w: World, w': World, t: Thread, now: int, ok: bool)
    requires LedgerOk(w) && Tick(w, w', now) && ThreadOk(w, t) && t.stage.Looking?
    requires t.stage.pc.Missed? || t.stage.pc.AskDaily? || t.stage.pc.AskMonthly?
    ensures ThreadOk(w', LookStep(w, t, now, ok).0) && LookStep(w, t, now, ok).1 == w.cache
  {
    var st := t.stage;
    TickLater(w, w', now);
    BaseKept(w, w', t);
    hide ThreadOk, BaseOk, Dated, DailyTrue, MonthlyTrue, Spend;
    if st.pc.Missed? {
      ClockRead(w, w', now);
    } else if st.pc.AskDaily? {
      DailyAsked(w, w', now, st.s, st.pc.f, ok);
    } else {
      MonthlyAsked(w, w', now, st.s, st.pc.f, ok);
    }
    MovedOk(w', t, LookStep(w, t, now, ok).0.stage);
  }

  lemma StoringOk(w: World, w': World, t: Thread, now: int, ok: bool)
    requires Tick(w, w', now) && ThreadOk(w, t) && t.stage.Looking? && t.stage.pc.Storing?
    ensures var f := t.stage.pc.f.(stamped := now);
            && True(w', t.stage.s, f) && ThreadOk(w', LookStep(w, t, now, ok).0)
            && LookStep(w, t, now, ok).1 == w.cache[t.stage.s.CacheKey() := f]
  {
    var st := t.stage;
    TickLater(w, w', now);
    BaseKept(w, w', t);
    Stamped(w, w', now, st.s, st.pc.f);
    assert st.tested <= now by { assert Dated(w, st.pc.f); }
    hide ThreadOk, True, Dated, DailyTrue, MonthlyTrue;
    FoundOk(w', t, st.pc.f.(stamped := now));
  }

  lemma CacheKept(w: World, w': World)
    requires CacheOk(w) && Later(w, w') && w'.cache.Keys <= w.cache.Keys
    requires forall k :: k in w'.cache ==> w'.cache[k] == w.cache[k]
    ensures CacheOk(w')
  {
    forall s: Subject | Proper(s) && s.CacheKey() in w'.cache
      ensures True(w', s, w'.cache[s.CacheKey()])
    {
      assert True(w, s, w.cache[s.CacheKey()]);
      TrueKept(w, w', s, w.cache[s.CacheKey()]);
    }
  }

  lemma CacheStored(w: World, w': World, s: Subject, f: Figures)
    requires CacheOk(w) && Later(w, w') && Proper(s) && w'.cache == w.cache[s.CacheKey() := f] && True(w', s, f)
    ensures CacheOk(w')
  {
    forall u: Subject | Proper(u) && u.CacheKey() in w'.cache
      ensures True(w', u, w'.cache[u.CacheKey()])
    {
      if u.CacheKey() == s.CacheKey() {
        ProperSubjectsDistinct(u, s);
      } else {
        assert True(w, u, w.cache[u.CacheKey()]);
        TrueKept(w, w', u, w.cache[u.CacheKey()]);
      }
    }
  }

  /** A step of a request keeps the request and the cache in order. */
  lemma ThreadStepOk(w: World, w': World, t: Thread, now: int, ok: bool)
    requires LedgerOk(w) && CacheOk(w) && ThreadOk(w, t) && Running(t.stage) && Tick(w, w', now)
    requires w'.cache == ThreadStep(w, t, now, ok).1
    ensures ThreadOk(w', ThreadStep(w, t, now, ok).0) && CacheOk(w')
  {
    TickLater(w, w', now);
    BaseKept(w, w', t);
    if t.stage.Looking? {
      hide ThreadOk, CacheOk, LedgerOk, LookStep, True, Tick, Later;
      if t.stage.pc.Testing? {
        TestingOk(w, w', t, now, ok);
        CacheKept(w, w');
      } else if t.stage.pc.Storing? {
        StoringOk(w, w', t, now, ok);
        CacheStored(w, w', t.stage.s, t.stage.pc.f.(stamped := now));
      } else {
        AskingOk(w, w', t, now, ok);
        CacheKept(w, w');
      }
    } else {
      hide EvidenceOk;
      CacheKept(w, w');
    }
  }

  // ----- Every step keeps the whole in order

  /** Nothing but the request `tid` changes. */
  predicate OnlyThread(w: World, w': World, tid: Tid) {
    && w'.threads.Keys == w.threads.Keys + {tid}
    && forall k :: k in w.threads && k != tid ==> w'.threads[k] == w.threads[k]
  }

  lemma ThreadsKept(w: World, w': World, tid: Tid)
    requires ThreadsOk(w) && Later(w, w') && OnlyThread(w, w', tid) && ThreadOk(w', w'.threads[tid])
    ensures ThreadsOk(w')
  {
    hide ThreadOk, Later;
    forall k | k in w'.threads
      ensures ThreadOk(w', w'.threads[k])
    {
      if k != tid {
        ThreadKept(w, w', w.threads[k]);
      }
    }
  }

  lemma AdmissionsKept(w: World, w': World)
    requires AdmissionsOk(w) && Later(w, w')
    requires |w.admissions| <= |w'.admissions| <= |w.admissions| + 1 && w'.admissions[..|w.admissions|] == w.admissions
    requires |w'.admissions| > |w.admissions| ==> AdmittedOk(w', w'.admissions[|w.admissions|])
    ensures AdmissionsOk(w')
  {
    hide AdmittedOk, Later;
    forall i | 0 <= i < |w'.admissions|
      ensures AdmittedOk(w', w'.admissions[i])
    {
      if i < |w.admissions| {
        assert w'.admissions[..|w.admissions|][i] == w.admissions[i];
        AdmittedKept(w, w', w.admissions[i]);
      }
    }
  }

  /** The combined decision is the stricter of the two, so a forwarded request was blocked
      by neither. */
  lemma ResultIsStricter(key: Option<Evidence>, tenant: Option<Evidence>)
    ensures ResultOf(key, tenant).decision
            == Stricter(if key.Some? then ResultOn(key.value).decision else Allow,
                        if tenant.Some? then ResultOn(tenant.value).decision else Allow)
  {
    hide ResultOn;
  }

  lemma NewAdmissionOk(w: World, t: Thread, tid: Tid)
    requires BaseOk(w, t) && Gate(w.table, ResultOf(t.key, t.tenant), t.asked.meta) == Forwarded
    ensures AdmittedOk(w, Admitted(tid, t.asked, t.key, t.tenant))
  {
    hide EvidenceOk, ResultOf, ResultOn, TooExpensive;
    ResultIsStricter(t.key, t.tenant);
  }

  lemma OwnersKept(w: World, w': World, tid: Tid)
    requires OwnersOk(w) && OnlyThread(w, w', tid) && w'.ledger == w.ledger && w'.owners == w.owners
    requires tid in w.threads ==> Running(w.threads[tid].stage)
    requires |w.admissions| <= |w'.admissions| && w'.admissions[..|w.admissions|] == w.admissions
    requires !w'.threads[tid].stage.Recorded?
    requires w'.threads[tid].stage.InFlight? ==> WasAdmitted(w', tid, w'.threads[tid].asked)
    ensures OwnersOk(w')
  {
    forall k | k in w'.threads && k != tid && (w'.threads[k].stage.InFlight? || w'.threads[k].stage.Recorded?)
      ensures WasAdmitted(w', k, w'.threads[k].asked)
    {
      AdmittedBefore(w, w', k, w.threads[k].asked);
    }
  }

  lemma AdmittedBefore(w: World, w': World, tid: Tid, asked: Asked)
    requires WasAdmitted(w, tid, asked)
    requires |w.admissions| <= |w'.admissions| && w'.admissions[..|w.admissions|] == w.admissions
    ensures WasAdmitted(w', tid, asked)
  {
    var i :| 0 <= i < |w.admissions| && w.admissions[i].tid == tid && w.admissions[i].asked == asked;
    assert w'.admissions[..|w.admissions|][i] == w'.admissions[i];
  }

  lemma LedgerKept(w: World, w': World)
    requires LedgerOk(w) && Later(w, w') && w'.ledger == w.ledger
    ensures LedgerOk(w')
  {
  }

  lemma GoFacts(w: World, tid: Tid, now: int, ok: bool)
    requires tid in w.threads && Running(w.threads[tid].stage) && w.clock <= now
    ensures var w', t := Step(w, Go(tid, now, ok)), w.threads[tid];
            var t' := ThreadStep(w, t, now, ok).0;
            && Tick(w, w', now) && OnlyThread(w, w', tid) && w'.threads[tid] == t' && w'.owners == w.owners
            && w'.table == w.table && w'.cache == ThreadStep(w, t, now, ok).1 && t'.asked == t.asked
            && |w.admissions| <= |w'.admissions| <= |w.admissions| + 1
            && w'.admissions[..|w.admissions|] == w.admissions
            && (|w'.admissions| > |w.admissions| ==>
                  && t.stage.Judging? && w'.admissions[|w.admissions|] == Admitted(tid, t.asked, t.key, t.tenant)
                  && Gate(w.table, ResultOf(t.key, t.tenant), t.asked.meta) == Forwarded)
            && !t'.stage.Recorded? && (t'.stage.InFlight? ==> |w'.admissions| > |w.admissions|)
  {
    ThreadFacts(w, w.threads[tid], now, ok);
    hide ThreadStep, Gate, ResultOf;
  }

  lemma ThreadFacts(w: World, t: Thread, now: int, ok: bool)
    requires Running(t.stage)
    ensures var t' := ThreadStep(w, t, now, ok).0;
            && t'.asked == t.asked && !t'.stage.Recorded?
            && (t'.stage.InFlight? ==>
                  t.stage.Judging? && Gate(w.table, ResultOf(t.key, t.tenant), t.asked.meta) == Forwarded)
  {
    hide Gate, ResultOf, MatchRule, TenantRule, Spend;
  }

  lemma GoOk(w: World, tid: Tid, now: int, ok: bool)
    requires Inv(w) && Enabled(w, Go(tid, now, ok))
    ensures Inv(Step(w, Go(tid, now, ok)))
  {
    var w', t := Step(w, Go(tid, now, ok)), w.threads[tid];
    GoFacts(w, tid, now, ok);
    TickLater(w, w', now);
    assert ThreadOk(w, t);
    hide Step, ThreadStep, ThreadOk, Later, CacheOk, LedgerOk, AdmissionsOk, OwnersOk, ThreadsOk, BaseOk, AdmittedOk;
    ThreadStepOk(w, w', t, now, ok);
    ThreadsKept(w, w', tid);
    BaseKept(w, w', t);
    if |w'.admissions| > |w.admissions| {
      NewAdmissionOk(w', t, tid);
      assert WasAdmitted(w', tid, t.asked);
    }
    AdmissionsKept(w, w');
    OwnersKept(w, w', tid);
    LedgerKept(w, w');
  }

  lemma ArriveOk(w: World, tid: Tid, asked: Asked)
    requires Inv(w) && Enabled(w, Arrive(tid, asked))
    ensures Inv(Step(w, Arrive(tid, asked)))
  {
    var w' := Step(w, Arrive(tid, asked));
    assert w.ledger[..|w.ledger|] == w.ledger && w.admissions[..|w.admissions|] == w.admissions;
    assert Later(w, w') && ThreadOk(w', w'.threads[tid]);
    hide ThreadOk, Later, CacheOk, LedgerOk, AdmissionsOk, OwnersOk, ThreadsOk, True;
    CacheKept(w, w');
    ThreadsKept(w, w', tid);
    AdmissionsKept(w, w');
    OwnersKept(w, w', tid);
    LedgerKept(w, w');
  }

  lemma RecordOwned(w: World, tid: Tid, start: int, now: int, cost: real)
    requires OwnersOk(w) && Enabled(w, Complete(tid, start, now, cost))
    ensures OwnersOk(Step(w, Complete(tid, start, now, cost)))
  {
    var w' := Step(w, Complete(tid, start, now, cost));
    forall k | k in w'.threads && (w'.threads[k].stage.InFlight? || w'.threads[k].stage.Recorded?)
      ensures WasAdmitted(w', k, w'.threads[k].asked)
    {
      assert w'.admissions[..|w.admissions|] == w.admissions;
      AdmittedBefore(w, w', k, w.threads[k].asked);
    }
  }

  lemma {:induction false} CompleteOk(w: World, tid: Tid, start: int, now: int, cost: real)
    requires Inv(w) && Enabled(w, Complete(tid, start, now, cost))
    ensures Inv(Step(w, Complete(tid, start, now, cost)))
  {
    var e := Complete(tid, start, now, cost);
    var w', t := Step(w, e), w.threads[tid];
    StepLater(w, e);
    assert LedgerOk(w') && w'.admissions[..|w.admissions|] == w.admissions;
    ThreadKept(w, w', t);
    assert ThreadOk(w', t.(stage := Recorded));
    hide ThreadOk, Later, CacheOk, LedgerOk, AdmissionsOk, OwnersOk, ThreadsOk, True;
    CacheKept(w, w');
    ThreadsKept(w, w', tid);
    AdmissionsKept(w, w');
    RecordOwned(w, tid, start, now, cost);
  }

  lemma {:induction false} OtherOk(w: World, e: Event)
    requires Inv(w) && (e.Evict? || e.NewRules?)
    ensures Inv(Step(w, e))
  {
    var w' := Step(w, e);
    assert w.ledger[..|w.ledger|] == w.ledger && w.admissions[..|w.admissions|] == w.admissions;
    assert Later(w, w') && LedgerOk(w') && OwnersOk(w') by { hide ThreadsOk, CacheOk, AdmissionsOk; }
    hide CacheOk, LedgerOk, AdmissionsOk, OwnersOk, Later, ThreadOk, True;
    CacheKept(w, w');
    AdmissionsKept(w, w');
    forall k | k in w'.threads
      ensures ThreadOk(w', w'.threads[k])
    {
      ThreadKept(w, w', w.threads[k]);
    }
  }

  /** Every run keeps every cached entry and everything a request holds a true past spend. */
  lemma {:induction false} RunInv(w: World, es: seq<Event>)
    requires Inv(w) && IsRun(w, es)
    ensures Inv(After(w, es))
    decreases |es|
  {
    if es != [] {
      hide Inv, Enabled, Step;
      match es[0]
      case Arrive(tid, asked) =>
        ArriveOk(w, tid, asked);
        RunInv(Step(w, es[0]), es[1..]);
      case Go(tid, now, ok) =>
        GoOk(w, tid, now, ok);
        RunInv(Step(w, es[0]), es[1..]);
      case Complete(tid, start, now, cost) =>
        CompleteOk(w, tid, start, now, cost);
        RunInv(Step(w, es[0]), es[1..]);
      case Evict(_) =>
        OtherOk(w, es[0]);
        RunInv(Step(w, es[0]), es[1..]);
      case NewRules(_) =>
        OtherOk(w, es[0]);
        RunInv(Step(w, es[0]), es[1..]);
    }
  }

  lemma InitialInv(cfg: Config, table: Meter.Table, clock: int)
    ensures Inv(Initial(cfg, table, clock))
  {
  }

  // ----- What it means for decisions

  /** Over every interleaving, over any number of days, what a request decides on was queried
      for its own key or tenant, for the day and month of that query, and is less than one
      time-to-live old when it looks, or fetched by itself. */
  lemma JudgedOnRecentTruth(cfg: Config, table: Meter.Table, clock: int, es: seq<Event>, tid: Tid)
    requires IsRun(Initial(cfg, table, clock), es) && tid in After(Initial(cfg, table, clock), es).threads
    ensures var w := After(Initial(cfg, table, clock), es);
            var t := w.threads[tid];
            && (t.key.Some? ==> True(w, ByKey(t.asked.hash), t.key.value.seen) && Recent(w, t.key.value))
            && (t.tenant.Some? ==> True(w, ByTenant(t.asked.tenant), t.tenant.value.seen) && Recent(w, t.tenant.value))
  {
    InitialInv(cfg, table, clock);
    RunInv(Initial(cfg, table, clock), es);
    assert ThreadOk(After(Initial(cfg, table, clock), es), After(Initial(cfg, table, clock), es).threads[tid]);
    hide Inv, IsRun, After, True, Recent;
  }

  /** What the spend of this moment calls for, by the rules that the request read. */
  function FreshDecision(w: World, s: Subject, ev: Option<Evidence>, now: int): Decision {
    if ev.None? then Allow
    else
      EvaluateRule(ev.value.rule, Spend(w.ledger, s, w.cfg.dayStart(now), now),
                   Spend(w.ledger, s, w.cfg.monthStart(now), now)).decision
  }

  /** The figures are from the day and the month of `now`. */
  predicate SameDay(cfg: Config, ev: Option<Evidence>, now: int) {
    ev.Some? ==> Within(cfg, ev.value.seen.queried, Period(cfg.dayStart(now), cfg.monthStart(now)))
  }

  lemma FiguresNotAbove(w: World, s: Subject, f: Figures, now: int)
    requires LedgerOk(w) && True(w, s, f) && w.clock <= now
    ensures f.daily <= Spend(w.ledger, s, w.cfg.dayStart(f.queried), now)
    ensures f.monthly <= Spend(w.ledger, s, w.cfg.monthStart(f.queried), now)
  {
    var day, month := w.cfg.dayStart(f.queried), w.cfg.monthStart(f.queried);
    SpendGrows(w.ledger, f.dailyAt, s, day, f.queried, now);
    SpendGrows(w.ledger, f.monthlyAt, s, month, f.queried, now);
    SpendGrows(w.ledger, 0, s, day, f.queried, now);
    SpendGrows(w.ledger, 0, s, month, f.queried, now);
    assert w.ledger[..0] == [];
  }

  lemma EvidenceNotStricter(w: World, s: Subject, ev: Option<Evidence>, now: int)
    requires LedgerOk(w) && EvidenceOk(w, s, ev) && w.clock <= now && SameDay(w.cfg, ev, now)
    ensures (if ev.Some? then ResultOn(ev.value).decision else Allow).Severity()
            <= FreshDecision(w, s, ev, now).Severity()
  {
    if ev.Some? {
      var f, day, month := ev.value.seen, w.cfg.dayStart(now), w.cfg.monthStart(now);
      FiguresNotAbove(w, s, f, now);
      DecisionMonotone(ev.value.rule, f.daily, f.monthly, Spend(w.ledger, s, day, now), Spend(w.ledger, s, month, now));
      hide EvaluateRule, True, Spend, LedgerOk;
    }
  }

  /** Over every interleaving, failed queries included, the decision of a request whose
      figures are from the present day and month is never stricter than the spend of that
      moment calls for. */
  lemma NeverStricterThanFresh(cfg: Config, table: Meter.Table, clock: int, es: seq<Event>, tid: Tid, now: int)
    requires IsRun(Initial(cfg, table, clock), es) && tid in After(Initial(cfg, table, clock), es).threads
    requires var w := After(Initial(cfg, table, clock), es);
             var t := w.threads[tid];
             w.clock <= now && SameDay(w.cfg, t.key, now) && SameDay(w.cfg, t.tenant, now)
    ensures var w := After(Initial(cfg, table, clock), es);
            var t := w.threads[tid];
            ResultOf(t.key, t.tenant).decision.Severity()
            <= Stricter(FreshDecision(w, ByKey(t.asked.hash), t.key, now),
                        FreshDecision(w, ByTenant(t.asked.tenant), t.tenant, now)).Severity()
  {
    InitialInv(cfg, table, clock);
    RunInv(Initial(cfg, table, clock), es);
    var w := After(Initial(cfg, table, clock), es);
    var t := w.threads[tid];
    assert ThreadOk(w, t);
    hide IsRun, After, EvidenceOk, ResultOf, ResultOn, FreshDecision, SameDay, LedgerOk, CacheOk, AdmissionsOk,
         OwnersOk;
    EvidenceNotStricter(w, ByKey(t.asked.hash), t.key, now);
    EvidenceNotStricter(w, ByTenant(t.asked.tenant), t.tenant, now);
    ResultIsStricter(t.key, t.tenant);
  }

  // ----- How far spend can pass a limit

  /** What the admission knew of the subject, if the subject is its key or its tenant. */
  function EvidenceFor(a: Admitted, s: Subject): Option<Evidence> {
    if s == ByKey(a.asked.hash) then a.key else if s == ByTenant(a.asked.tenant) then a.tenant else None
  }

  /** The limit of the rule for a month or a day. */
  function LimitOf(rule: Rule, monthly: bool): real {
    if monthly then rule.monthlyLimit else rule.dailyLimit
  }

  /** Where the month or day of a moment starts. */
  function StartOf(cfg: Config, t: int, monthly: bool): int {
    if monthly then cfg.monthStart(t) else cfg.dayStart(t)
  }

  function FigureOf(f: Figures, monthly: bool): real {
    if monthly then f.monthly else f.daily
  }

  /** A blocking rule with such a limit, on figures from a successful query. */
  predicate Guarded(ev: Option<Evidence>, monthly: bool) {
    && ev.Some? && LimitOf(ev.value.rule, monthly) > 0.0 && ev.value.rule.action == "block"
    && (if monthly then ev.value.seen.monthlyOk else ev.value.seen.dailyOk)
  }

  lemma UnblockedBelowLimit(ev: Evidence, monthly: bool)
    requires ResultOn(ev).decision != Block && LimitOf(ev.rule, monthly) > 0.0 && ev.rule.action == "block"
    ensures FigureOf(ev.seen, monthly) < LimitOf(ev.rule, monthly)
  {
  }

  lemma SpendBeforeFetch(w: World, s: Subject, f: Figures, monthly: bool)
    requires LedgerOk(w) && True(w, s, f) && (if monthly then f.monthlyOk else f.dailyOk)
    ensures f.readAt <= |w.ledger|
    ensures var since := StartOf(w.cfg, f.queried, monthly);
            Spend(w.ledger, s, since, w.clock) <= FigureOf(f, monthly) + Spend(w.ledger[f.readAt..], s, since, w.clock)
  {
    var since := StartOf(w.cfg, f.queried, monthly);
    var before, seen := w.ledger[..f.readAt], w.ledger[..if monthly then f.monthlyAt else f.dailyAt];
    SpendSplit(w.ledger, f.readAt, s, since, w.clock);
    SpendUntil(before, s, since, f.queried, w.clock);
    SpendGrows(seen, f.readAt, s, since, f.queried, f.queried);
    assert seen[..f.readAt] == before;
    hide Spend;
  }

  /** Over every interleaving of requests of many keys and tenants, with cached spend, over
      any number of days: for each admission under a blocking rule, spend recorded for the key
      or tenant since the start of the day (or month) of the fetch it relied on stays below
      the limit plus what was recorded after the clock was read for that fetch; each such
      record is the only one of an admitted request that was unrecorded then. */
  lemma Overshoot(cfg: Config, table: Meter.Table, clock: int, es: seq<Event>, i: nat, s: Subject, monthly: bool)
    requires IsRun(Initial(cfg, table, clock), es) && i < |After(Initial(cfg, table, clock), es).admissions|
    requires Guarded(EvidenceFor(After(Initial(cfg, table, clock), es).admissions[i], s), monthly)
    ensures var w := After(Initial(cfg, table, clock), es);
            var ev := EvidenceFor(w.admissions[i], s).value;
            var n, since := ev.seen.readAt, StartOf(w.cfg, ev.seen.queried, monthly);
            && n <= |w.ledger| == |w.owners|
            && Spend(w.ledger, s, since, w.clock) < LimitOf(ev.rule, monthly) + Spend(w.ledger[n..], s, since, w.clock)
            && forall j :: n <= j < |w.ledger| ==> w.owners[j] !in w.owners[..n] && ByAdmitted(w, j)
  {
    InitialInv(cfg, table, clock);
    RunInv(Initial(cfg, table, clock), es);
    var w := After(Initial(cfg, table, clock), es);
    hide IsRun, After;
    assert AdmittedOk(w, w.admissions[i]);
    var ev := EvidenceFor(w.admissions[i], s).value;
    SpendBeforeFetch(w, s, ev.seen, monthly);
    UnblockedBelowLimit(ev, monthly);
    RecordsOwned(w, ev.seen.readAt);
  }

  /** Record `j` belongs to an admitted request of its key and tenant. */
  ghost predicate ByAdmitted(w: World, j: nat)
    requires j < |w.ledger| && j < |w.owners|
  {
    exists a :: 0 <= a < |w.admissions| && w.admissions[a].tid == w.owners[j]
                && w.admissions[a].asked.hash == w.ledger[j].key && w.admissions[a].asked.tenant == w.ledger[j].tenant
  }

  lemma RecordsOwned(w: World, n: nat)
    requires OwnersOk(w) && n <= |w.ledger|
    ensures |w.owners| == |w.ledger|
    ensures forall j :: n <= j < |w.ledger| ==> w.owners[j] !in w.owners[..n] && ByAdmitted(w, j)
  {
    forall j | n <= j < |w.ledger|
      ensures w.owners[j] !in w.owners[..n] && ByAdmitted(w, j)
    {
      assert WasAdmitted(w, w.owners[j], w.threads[w.owners[j]].asked);
    }
  }

  lemma {:induction false} NoRecordsNoSpend(ledger: seq<Entry>, s: Subject, since: int, until: int)
    requires forall i :: 0 <= i < |ledger| ==> !s.Owns(ledger[i])
    ensures Spend(ledger, s, since, until) == 0.0
  {
    if ledger != [] {
      NoRecordsNoSpend(ledger[..|ledger| - 1], s, since, until);
    }
  }

  /** A key of which no request was admitted has no spend in any interval. */
  lemma UnadmittedUnspent(cfg: Config, table: Meter.Table, clock: int, es: seq<Event>, hash: string, since: int,
      until: int)
    requires IsRun(Initial(cfg, table, clock), es)
    requires forall a <- After(Initial(cfg, table, clock), es).admissions :: a.asked.hash != hash
    ensures Spend(After(Initial(cfg, table, clock), es).ledger, ByKey(hash), since, until) == 0.0
  {
    InitialInv(cfg, table, clock);
    RunInv(Initial(cfg, table, clock), es);
    var w := After(Initial(cfg, table, clock), es);
    hide IsRun, After, Spend, CacheOk, ThreadsOk, AdmissionsOk;
    RecordsOwned(w, 0);
    NoRecordsNoSpend(w.ledger, ByKey(hash), since, until);
  }

  // ----- A request that runs alone

  function AbsEntry(f: Figures): CacheEntry {
    CacheEntry(f.daily, f.monthly, f.stamped)
  }

  function AbsCache(cache: map<string, Figures>): Cache {
    map k | k in cache :: AbsEntry(cache[k])
  }

  /** From `w` request `tid` alone reaches `w'`. */
  ghost predicate Alone(w: World, tid: Tid, w': World) {
    exists es: seq<Event> ::
      IsRun(w, es) && After(w, es) == w' && forall i :: 0 <= i < |es| ==> es[i].Go? && es[i].tid == tid
  }

  lemma {:induction false} RunSnoc(w: World, es: seq<Event>, e: Event)
    requires IsRun(w, es) && Enabled(After(w, es), e)
    ensures IsRun(w, es + [e]) && After(w, es + [e]) == Step(After(w, es), e)
    decreases |es|
  {
    hide Enabled, Step;
    if es == [] {
      assert es + [e] == [e] && [e][1..] == [];
    } else {
      RunSnoc(Step(w, es[0]), es[1..], e);
      assert (es + [e])[1..] == es[1..] + [e];
    }
  }

  lemma AloneStart(w: World, tid: Tid)
    ensures Alone(w, tid, w)
  {
    assert IsRun(w, []) && After(w, []) == w;
  }

  lemma AloneStep(w: World, tid: Tid, w1: World, now: int, ok: bool) returns (w2: World)
    requires Alone(w, tid, w1) && Enabled(w1, Go(tid, now, ok))
    ensures w2 == Step(w1, Go(tid, now, ok)) && Alone(w, tid, w2)
  {
    hide Enabled, Step;
    var es: seq<Event> :|
      IsRun(w, es) && After(w, es) == w1 && forall i :: 0 <= i < |es| ==> es[i].Go? && es[i].tid == tid;
    var e := Go(tid, now, ok);
    RunSnoc(w, es, e);
    w2 := Step(w1, e);
    assert forall i :: 0 <= i < |es + [e]| ==> (es + [e])[i].Go? && (es + [e])[i].tid == tid;
  }

  /** The parts of the world that a check does not change. */
  ghost predicate SameRest(w: World, w': World) {
    w'.ledger == w.ledger && w'.cfg == w.cfg && w'.table == w.table && w'.admissions == w.admissions
      && w'.owners == w.owners
  }

  /** A step of a request that is not judged in it. */
  lemma AloneGo(w: World, tid: Tid, w1: World, now: int, ok: bool) returns (w2: World)
    requires Alone(w, tid, w1) && Enabled(w1, Go(tid, now, ok)) && !w1.threads[tid].stage.Judging?
    ensures Alone(w, tid, w2) && SameRest(w1, w2) && w2.clock == now && tid in w2.threads
    ensures (w2.threads[tid], w2.cache) == ThreadStep(w1, w1.threads[tid], now, ok)
  {
    hide Alone, ThreadStep;
    w2 := AloneStep(w, tid, w1, now, ok);
  }

  predicate Timely(l: Lookup, clock: int) {
    clock <= l.tested <= l.queried <= l.stamped
  }

  lemma AbsHit(cfg: Config, cache: map<string, Figures>, s: Subject, l: Lookup)
    ensures Hit(cfg, AbsCache(cache), s, l)
            <==> s.CacheKey() in cache && l.tested - cache[s.CacheKey()].stamped < cfg.ttl
  {
  }

  lemma AbsStore(cache: map<string, Figures>, k: string, f: Figures)
    ensures AbsCache(cache[k := f]) == AbsCache(cache)[k := AbsEntry(f)]
  {
  }

  /** A missed lookup that runs alone ends with what a fetch returns. */
  lemma MissAlone(w: World, tid: Tid, w1: World, l: Lookup) returns (w': World, f: Figures)
    requires Alone(w, tid, w1) && tid in w1.threads && Timely(l, w1.clock)
    requires var st := w1.threads[tid].stage; st.Looking? && st.pc.Missed?
    ensures Alone(w, tid, w') && SameRest(w1, w') && w'.clock == l.stamped && tid in w'.threads
    ensures var t := w1.threads[tid];
            && AbsEntry(f) == Fetch(w1.cfg, w1.ledger, t.stage.s, l)
            && w'.threads[tid] == Found(t, f) && w'.cache == w1.cache[t.stage.s.CacheKey() := f]
  {
    hide Alone, Spend;
    w' := AloneGo(w, tid, w1, l.queried, true);
    w' := AloneGo(w, tid, w', l.queried, l.dailyOk);
    w' := AloneGo(w, tid, w', l.queried, l.monthlyOk);
    f := w'.threads[tid].stage.pc.f.(stamped := l.stamped);
    w' := AloneGo(w, tid, w', l.stamped, true);
  }

  /** A lookup that runs alone sees what the lookup of the serial check sees. */
  lemma LookupAlone(w: World, tid: Tid, w1: World, l: Lookup) returns (w': World, f: Figures)
    requires Alone(w, tid, w1) && tid in w1.threads && Timely(l, w1.clock)
    requires var st := w1.threads[tid].stage; st.Looking? && st.pc.Testing?
    ensures Alone(w, tid, w') && SameRest(w1, w') && w'.clock <= l.stamped && tid in w'.threads
    ensures var t := w1.threads[tid];
            && AbsEntry(f) == SpendSeen(w1.cfg, w1.ledger, AbsCache(w1.cache), t.stage.s, l)
            && w'.threads[tid] == Found(t.(stage := t.stage.(tested := l.tested)), f)
            && AbsCache(w'.cache) == CacheAfter(w1.cfg, w1.ledger, AbsCache(w1.cache), t.stage.s, l)
  {
    hide Alone, Fetch;
    var t := w1.threads[tid];
    var k := t.stage.s.CacheKey();
    AbsHit(w1.cfg, w1.cache, t.stage.s, l);
    w' := AloneGo(w, tid, w1, l.tested, true);
    if k in w1.cache && l.tested - w1.cache[k].stamped < w1.cfg.ttl {
      f := w1.cache[k];
    } else {
      w', f := MissAlone(w, tid, w', l);
      AbsStore(w1.cache, k, f);
    }
  }

  /** A request whose steps are not interleaved with others decides what the serial check
      decides, and leaves the same cache. */
  lemma SerialRefinement(w: World, tid: Tid, q: Query) returns (w': World)
    requires tid in w.threads && w.threads[tid].stage.ReadKeyRule? && w.threads[tid].key.None?
             && w.threads[tid].tenant.None?
    requires var a := w.threads[tid].asked; a.rawKey == q.rawKey && a.hash == q.hash && a.tenant == q.tenant
    requires Timely(q.keyLookup, w.clock) && Timely(q.tenantLookup, q.keyLookup.stamped)
    ensures Alone(w, tid, w') && SameRest(w, w') && tid in w'.threads && w'.threads[tid].stage.Judging?
    ensures var o := Check(w.cfg, w.ledger, AbsCache(w.cache), q);
            ResultOf(w'.threads[tid].key, w'.threads[tid].tenant) == o.result && AbsCache(w'.cache) == o.cache
  {
    hide Alone, ResultOf, Check, KeyResult, TenantResult, CacheAfter;
    w' := KeyPart(w, tid, q);
    var cache1 := AbsCache(w'.cache);
    w' := TenantPart(w, tid, w', q);
    CheckParts(w.cfg, w.ledger, AbsCache(w.cache), cache1, q, w'.threads[tid].key, w'.threads[tid].tenant);
  }

  /** Evidence and cache are those of the serial lookup under the rule, if there is one. */
  ghost predicate PartDone(cfg: Config, ledger: seq<Entry>, cache: Cache, s: Subject, l: Lookup, rule: Option<Rule>,
                           ev: Option<Evidence>, cache': Cache)
  {
    if rule.None? then ev.None? && cache' == cache
    else
      && ev.Some? && ev.value.rule == rule.value
      && AbsEntry(ev.value.seen) == SpendSeen(cfg, ledger, cache, s, l)
      && cache' == CacheAfter(cfg, ledger, cache, s, l)
  }

  function KeyRule(cfg: Config, rawKey: string): Option<Rule> {
    var r := MatchRule(cfg, rawKey);
    if HasLimits(r) then Some(r) else None
  }

  lemma KeyPart(w: World, tid: Tid, q: Query) returns (w': World)
    requires tid in w.threads && w.threads[tid].stage.ReadKeyRule? && w.threads[tid].key.None?
             && w.threads[tid].tenant.None?
    requires w.threads[tid].asked.rawKey == q.rawKey && w.threads[tid].asked.hash == q.hash
    requires Timely(q.keyLookup, w.clock)
    ensures Alone(w, tid, w') && SameRest(w, w') && tid in w'.threads && w'.clock <= q.keyLookup.stamped
    ensures var t := w'.threads[tid];
            && t == w.threads[tid].(stage := ReadTenantRule, key := t.key)
            && PartDone(w.cfg, w.ledger, AbsCache(w.cache), ByKey(q.hash), q.keyLookup, KeyRule(w.cfg, q.rawKey),
                        t.key, AbsCache(w'.cache))
  {
    AloneStart(w, tid);
    hide Alone, MatchRule, SpendSeen, CacheAfter, AbsCache;
    w' := AloneGo(w, tid, w, w.clock, true);
    if HasLimits(MatchRule(w.cfg, q.rawKey)) {
      var f;
      w', f := LookupAlone(w, tid, w', q.keyLookup);
    }
  }

  lemma TenantPart(w: World, tid: Tid, w1: World, q: Query) returns (w': World)
    requires Alone(w, tid, w1) && tid in w1.threads && w1.threads[tid].stage.ReadTenantRule?
             && w1.threads[tid].tenant.None?
    requires w1.threads[tid].asked.tenant == q.tenant && w1.clock <= q.keyLookup.stamped
    requires Timely(q.tenantLookup, q.keyLookup.stamped)
    ensures Alone(w, tid, w') && SameRest(w1, w') && tid in w'.threads
    ensures var t := w'.threads[tid];
            && t == w1.threads[tid].(stage := Judging, tenant := t.tenant)
            && PartDone(w1.cfg, w1.ledger, AbsCache(w1.cache), ByTenant(q.tenant), q.tenantLookup,
                        TenantRule(w1.cfg, q.tenant), t.tenant, AbsCache(w'.cache))
  {
    hide Alone, TenantRule, SpendSeen, CacheAfter, AbsCache;
    w' := AloneGo(w, tid, w1, w1.clock, true);
    if TenantRule(w1.cfg, q.tenant).Some? {
      var f;
      w', f := LookupAlone(w, tid, w', q.tenantLookup);
    }
  }

  lemma CheckParts(cfg: Config, ledger: seq<Entry>, cache: Cache, cache1: Cache, q: Query, key: Option<Evidence>,
      tenant: Option<Evidence>)
    requires PartDone(cfg, ledger, cache, ByKey(q.hash), q.keyLookup, KeyRule(cfg, q.rawKey), key, cache1)
    ensures forall cache2: Cache ::
              PartDone(cfg, ledger, cache1, ByTenant(q.tenant), q.tenantLookup, TenantRule(cfg, q.tenant),
                       tenant, cache2) ==>
                ResultOf(key, tenant) == Check(cfg, ledger, cache, q).result
                  && cache2 == Check(cfg, ledger, cache, q).cache
  {
    hide EvaluateRule, SpendSeen, CacheAfter, MatchRule, TenantRule;
  }
}
