/** Budget enforcement: rules, the cached spend of keys and tenants, and the combined
    decision. Money is real, time is in nanoseconds. */
module Budget {
  import opened Common

  datatype Decision = Allow | Warn | Block {
    function Severity(): int {
      match this
      case Allow => 0
      case Warn => 1
      case Block => 2
    }
  }

  function Stricter(a: Decision, b: Decision): Decision {
    if b.Severity() > a.Severity() then b else a
  }

  datatype Result = Result(decision: Decision, dailySpent: real, dailyLimit: real, monthlySpent: real,
    monthlyLimit: real)

  const UNLIMITED := Result(Allow, 0.0, 0.0, 0.0, 0.0)

  datatype Rule = Rule(
    pattern: string, tenantId: string, dailyLimit: real, monthlyLimit: real, softPct: real, action: string)

  /** `matches` is the glob matcher of the file-path library (false on a bad pattern);
      `dayStart` and `monthStart` are the UTC calendar. */
  datatype Config = Config(
    default: Rule, rules: seq<Rule>, ttl: int,
    matches: (string, string) -> bool, dayStart: int -> int, monthStart: int -> int)

  // ----- Rules

  function MergeWithDefault(cfg: Config, r: Rule): Rule {
    r.(dailyLimit := if r.dailyLimit <= 0.0 then cfg.default.dailyLimit else r.dailyLimit,
       monthlyLimit := if r.monthlyLimit <= 0.0 then cfg.default.monthlyLimit else r.monthlyLimit,
       softPct := if r.softPct <= 0.0 then cfg.default.softPct else r.softPct,
       action := if r.action == "" then cfg.default.action else r.action)
  }

  function MatchFrom(cfg: Config, rawKey: string, i: nat): Rule
    requires i <= |cfg.rules|
    decreases |cfg.rules| - i
  {
    if i == |cfg.rules| then cfg.default
    else if cfg.matches(cfg.rules[i].pattern, rawKey) then MergeWithDefault(cfg, cfg.rules[i])
    else MatchFrom(cfg, rawKey, i + 1)
  }

  /** The first rule whose pattern matches the key, merged with the default. */
  function MatchRule(cfg: Config, rawKey: string): Rule {
    MatchFrom(cfg, rawKey, 0)
  }

  /** The first rule in configuration order whose pattern matches applies, whatever comes
      after it; the default applies when none matches. */
  lemma {:induction false} FirstMatchApplies(cfg: Config, rawKey: string, i: nat)
    requires i <= |cfg.rules| && forall j :: 0 <= j < i ==> !cfg.matches(cfg.rules[j].pattern, rawKey)
    ensures i == |cfg.rules| ==> MatchRule(cfg, rawKey) == cfg.default
    ensures i < |cfg.rules| && cfg.matches(cfg.rules[i].pattern, rawKey) ==>
              MatchRule(cfg, rawKey) == MergeWithDefault(cfg, cfg.rules[i])
    ensures MatchRule(cfg, rawKey) == MatchFrom(cfg, rawKey, i)
  {
    if i > 0 {
      FirstMatchApplies(cfg, rawKey, i - 1);
    }
  }

  /** A key is held to the first rule that matches it, its positive limits and share and its
      action, and to the default's where the rule sets none; to the default if none matches. */
  lemma EffectiveRule(cfg: Config, rawKey: string, i: nat)
    requires i <= |cfg.rules| && forall j :: 0 <= j < i ==> !cfg.matches(cfg.rules[j].pattern, rawKey)
    ensures i < |cfg.rules| && cfg.matches(cfg.rules[i].pattern, rawKey) ==>
              FilledIn(cfg.rules[i], cfg.default, MatchRule(cfg, rawKey))
    ensures i == |cfg.rules| ==> MatchRule(cfg, rawKey) == cfg.default
  {
    FirstMatchApplies(cfg, rawKey, i);
  }

  /** `r` is `own` with what it does not set taken from `default`. */
  predicate FilledIn(own: Rule, default: Rule, r: Rule) {
    && r.pattern == own.pattern && r.tenantId == own.tenantId
    && (own.dailyLimit > 0.0 ==> r.dailyLimit == own.dailyLimit)
    && (own.dailyLimit <= 0.0 ==> r.dailyLimit == default.dailyLimit)
    && (own.monthlyLimit > 0.0 ==> r.monthlyLimit == own.monthlyLimit)
    && (own.monthlyLimit <= 0.0 ==> r.monthlyLimit == default.monthlyLimit)
    && (own.softPct > 0.0 ==> r.softPct == own.softPct)
    && (own.softPct <= 0.0 ==> r.softPct == default.softPct)
    && (own.action != "" ==> r.action == own.action)
    && (own.action == "" ==> r.action == default.action)
  }

  // ----- First match and most specific match

  /** Every key that matches `p` matches `q`, and some key matches only `q`. */
  ghost predicate Narrower(cfg: Config, p: string, q: string) {
    && (forall key :: cfg.matches(p, key) ==> cfg.matches(q, key))
    && (exists key :: cfg.matches(q, key) && !cfg.matches(p, key))
  }

  /** No rule that matches the key is narrower than the one that applies to it. */
  ghost predicate MostSpecific(cfg: Config, rawKey: string) {
    forall j :: 0 <= j < |cfg.rules| && cfg.matches(cfg.rules[j].pattern, rawKey) ==>
                  !Narrower(cfg, cfg.rules[j].pattern, MatchRule(cfg, rawKey).pattern)
  }

  ghost predicate MatchedBefore(cfg: Config, i: nat, key: string)
    requires i <= |cfg.rules|
  {
    exists h :: 0 <= h < i && cfg.matches(cfg.rules[h].pattern, key)
  }

  /** Where a rule comes before a narrower one, rules before both match all keys of the
      narrower one. */
  ghost predicate SpecificFirst(cfg: Config) {
    forall i, j :: 0 <= i < j < |cfg.rules| && Narrower(cfg, cfg.rules[j].pattern, cfg.rules[i].pattern) ==>
                     forall key :: cfg.matches(cfg.rules[j].pattern, key) ==> MatchedBefore(cfg, i, key)
  }

  lemma {:induction false} FirstMatch(cfg: Config, rawKey: string, j: nat) returns (i: nat)
    requires j < |cfg.rules| && cfg.matches(cfg.rules[j].pattern, rawKey)
    ensures i <= j && cfg.matches(cfg.rules[i].pattern, rawKey) && !MatchedBefore(cfg, i, rawKey)
    ensures MatchRule(cfg, rawKey).pattern == cfg.rules[i].pattern
  {
    if h :| 0 <= h < j && cfg.matches(cfg.rules[h].pattern, rawKey) {
      i := FirstMatch(cfg, rawKey, h);
    } else {
      i := j;
      FirstMatchApplies(cfg, rawKey, j);
    }
  }

  /** The most specific matching rule applies to every key exactly when the rules are
      ordered so: first match is most specific match iff narrower rules come first. */
  lemma MostSpecificIff(cfg: Config)
    ensures (forall key :: MostSpecific(cfg, key)) <==> SpecificFirst(cfg)
  {
    if forall key :: MostSpecific(cfg, key) {
      forall i, j, key | 0 <= i < j < |cfg.rules| && Narrower(cfg, cfg.rules[j].pattern, cfg.rules[i].pattern)
                         && cfg.matches(cfg.rules[j].pattern, key)
        ensures MatchedBefore(cfg, i, key)
      {
        assert MostSpecific(cfg, key);
        var f := FirstMatch(cfg, key, i);
      }
    }
    if SpecificFirst(cfg) {
      forall key, j | 0 <= j < |cfg.rules| && cfg.matches(cfg.rules[j].pattern, key)
        ensures !Narrower(cfg, cfg.rules[j].pattern, MatchRule(cfg, key).pattern)
      {
        var f := FirstMatch(cfg, key, j);
      }
    }
  }

  /** Matching of patterns without special characters but for one star at the end, which
      matches anything without a slash. */
  function StarGlob(pattern: string, key: string): bool {
    if pattern != "" && pattern[|pattern| - 1] == '*' then
      var p := pattern[..|pattern| - 1];
      p <= key && '/' !in key[|p|..]
    else pattern == key
  }

  /** A general rule in front of a special one: the general one applies. */
  lemma BroadRuleShadows(cfg: Config)
    requires |cfg.rules| == 2 && cfg.rules[0].pattern == "sk-*" && cfg.rules[1].pattern == "sk-prod-*"
    requires forall p, k :: cfg.matches(p, k) == StarGlob(p, k)
    ensures MatchRule(cfg, "sk-prod-1") == MergeWithDefault(cfg, cfg.rules[0]) && !MostSpecific(cfg, "sk-prod-1")
  {
    var broad, narrow, key := "sk-*", "sk-prod-*", "sk-prod-1";
    assert broad[..3] == "sk-" && narrow[..8] == "sk-prod-";
    assert "sk-" <= key && "sk-prod-" <= key;
    assert StarGlob(broad, key) && StarGlob(narrow, key);
    forall k | StarGlob(narrow, k)
      ensures StarGlob(broad, k)
    {
      assert "sk-" == "sk-prod-"[..3] == k[..3];
      assert k == "sk-prod-" + k[8..] && '/' !in "sk-prod-";
      assert k[3..] == "prod-" + k[8..];
    }
    assert cfg.matches(broad, "sk-x") && !cfg.matches(narrow, "sk-x") by {
      assert "sk-" <= "sk-x" && !("sk-prod-" <= "sk-x");
    }
    assert Narrower(cfg, narrow, broad);
    FirstMatchApplies(cfg, key, 0);
  }

  // ----- Tenant rules

  function MatchTenantFrom(cfg: Config, tenant: string, i: nat): Option<Rule>
    requires i <= |cfg.rules|
    decreases |cfg.rules| - i
  {
    if i == |cfg.rules| then None
    else if cfg.rules[i].tenantId == tenant && cfg.rules[i].pattern == "" then Some(MergeWithDefault(cfg, cfg.rules[i]))
    else MatchTenantFrom(cfg, tenant, i + 1)
  }

  /** The first pattern-less rule of the tenant; no tenant, no rule. */
  function TenantRule(cfg: Config, tenant: string): Option<Rule> {
    if tenant == "" then None else MatchTenantFrom(cfg, tenant, 0)
  }

  /** A tenant is held to the first rule that names it and has no key pattern, filled in from
      the default; a request without a tenant to none, and so is a tenant without a rule. */
  lemma {:induction false} EffectiveTenantRule(cfg: Config, tenant: string, i: nat)
    requires i <= |cfg.rules|
    requires forall j :: 0 <= j < i ==> cfg.rules[j].tenantId != tenant || cfg.rules[j].pattern != ""
    ensures tenant == "" ==> TenantRule(cfg, tenant).None?
    ensures i == |cfg.rules| ==> TenantRule(cfg, tenant).None?
    ensures tenant != "" && i < |cfg.rules| && cfg.rules[i].tenantId == tenant && cfg.rules[i].pattern == "" ==>
              TenantRule(cfg, tenant).Some? && FilledIn(cfg.rules[i], cfg.default, TenantRule(cfg, tenant).value)
  {
    TenantMatchFrom(cfg, tenant, i);
  }

  lemma {:induction false} TenantMatchFrom(cfg: Config, tenant: string, i: nat)
    requires i <= |cfg.rules|
    requires forall j :: 0 <= j < i ==> cfg.rules[j].tenantId != tenant || cfg.rules[j].pattern != ""
    ensures MatchTenantFrom(cfg, tenant, 0) == MatchTenantFrom(cfg, tenant, i)
  {
    if i > 0 {
      TenantMatchFrom(cfg, tenant, i - 1);
    }
  }

  predicate Exceeded(r: Rule, daily: real, monthly: real) {
    (r.dailyLimit > 0.0 && daily >= r.dailyLimit) || (r.monthlyLimit > 0.0 && monthly >= r.monthlyLimit)
  }

  predicate SoftExceeded(r: Rule, daily: real, monthly: real) {
    r.softPct > 0.0 &&
    ((r.dailyLimit > 0.0 && daily >= r.dailyLimit * r.softPct)
     || (r.monthlyLimit > 0.0 && monthly >= r.monthlyLimit * r.softPct))
  }

  function EvaluateRule(r: Rule, daily: real, monthly: real): Result {
    Result(
      if Exceeded(r, daily, monthly) then (if r.action == "block" then Block else Warn)
      else if SoftExceeded(r, daily, monthly) then Warn
      else Allow,
      daily, r.dailyLimit, monthly, r.monthlyLimit)
  }

  predicate HasLimits(r: Rule) {
    r.dailyLimit > 0.0 || r.monthlyLimit > 0.0
  }

  /** The share of a limit, if there is one, is spent. */
  predicate Reaches(spent: real, limit: real, share: real) {
    limit > 0.0 && spent >= limit * share
  }

  /** The result of a rule on spend: the decision by the limits, the share and the action
      themselves, and the four figures it was made on. */
  predicate IsResult(r: Rule, daily: real, monthly: real, result: Result) {
    var limitReached := Reaches(daily, r.dailyLimit, 1.0) || Reaches(monthly, r.monthlyLimit, 1.0);
    var shareReached := r.softPct > 0.0
                        && (Reaches(daily, r.dailyLimit, r.softPct) || Reaches(monthly, r.monthlyLimit, r.softPct));
    && (result.decision == Block <==> r.action == "block" && limitReached)
    && (result.decision == Warn <==> (r.action != "block" && limitReached) || (!limitReached && shareReached))
    && (result.decision == Allow <==> !limitReached && !shareReached)
    && result.dailySpent == daily && result.dailyLimit == r.dailyLimit
    && result.monthlySpent == monthly && result.monthlyLimit == r.monthlyLimit
  }

  lemma DecisionExact(r: Rule, daily: real, monthly: real)
    ensures IsResult(r, daily, monthly, EvaluateRule(r, daily, monthly))
  {
  }

  /** More spend never gives a milder decision. */
  lemma DecisionMonotone(r: Rule, d1: real, m1: real, d2: real, m2: real)
    requires d1 <= d2 && m1 <= m2
    ensures EvaluateRule(r, d1, m1).decision.Severity() <= EvaluateRule(r, d2, m2).decision.Severity()
  {
  }

  // ----- The ledger and the spend cache

  datatype Entry = Entry(key: string, tenant: string, time: int, cost: real)

  /** Whose spend is asked for. */
  datatype Subject = ByKey(hash: string) | ByTenant(tenant: string) {
    function CacheKey(): string {
      if ByKey? then hash else "tenant:" + tenant
    }
    predicate Owns(e: Entry) {
      if ByKey? then e.key == hash else e.tenant == tenant
    }
  }

  /** Sum of the subject's costs with a timestamp in the closed interval. */
  function Spend(ledger: seq<Entry>, s: Subject, since: int, until: int): real {
    if ledger == [] then 0.0
    else
      var e := ledger[|ledger| - 1];
      Spend(ledger[..|ledger| - 1], s, since, until)
      + (if s.Owns(e) && since <= e.time <= until then e.cost else 0.0)
  }

  datatype CacheEntry = CacheEntry(daily: real, monthly: real, fetched: int)

  type Cache = map<string, CacheEntry>

  /** The clock readings of one spend lookup and whether its two queries succeed. */
  datatype Lookup = Lookup(tested: int, queried: int, stamped: int, dailyOk: bool, monthlyOk: bool)

  predicate Hit(cfg: Config, cache: Cache, s: Subject, l: Lookup) {
    s.CacheKey() in cache && l.tested - cache[s.CacheKey()].fetched < cfg.ttl
  }

  /** What a query at this moment yields; a failed one yields zero. */
  function Fetch(cfg: Config, ledger: seq<Entry>, s: Subject, l: Lookup): CacheEntry {
    CacheEntry(
      if l.dailyOk then Spend(ledger, s, cfg.dayStart(l.queried), l.queried) else 0.0,
      if l.monthlyOk then Spend(ledger, s, cfg.monthStart(l.queried), l.queried) else 0.0,
      l.stamped)
  }

  /** The spend that a lookup returns. */
  function SpendSeen(cfg: Config, ledger: seq<Entry>, cache: Cache, s: Subject, l: Lookup): CacheEntry {
    if Hit(cfg, cache, s, l) then cache[s.CacheKey()] else Fetch(cfg, ledger, s, l)
  }

  function CacheAfter(cfg: Config, ledger: seq<Entry>, cache: Cache, s: Subject, l: Lookup): Cache {
    if Hit(cfg, cache, s, l) then cache else cache[s.CacheKey() := Fetch(cfg, ledger, s, l)]
  }

  // ----- The combined check

  /** A request for a budget decision. */
  datatype Query = Query(rawKey: string, hash: string, tenant: string, keyLookup: Lookup, tenantLookup: Lookup)

  datatype Outcome = Outcome(result: Result, cache: Cache, calls: seq<Result>)

  /** The callback that a result triggers, if any (both callbacks set). */
  function Notified(r: Result): seq<Result> {
    if r.decision == Allow then [] else [r]
  }

  function KeyResult(cfg: Config, ledger: seq<Entry>, cache: Cache, q: Query): Result {
    var e := SpendSeen(cfg, ledger, cache, ByKey(q.hash), q.keyLookup);
    EvaluateRule(MatchRule(cfg, q.rawKey), e.daily, e.monthly)
  }

  function TenantResult(cfg: Config, ledger: seq<Entry>, cache: Cache, q: Query): Result
    requires TenantRule(cfg, q.tenant).Some?
  {
    var e := SpendSeen(cfg, ledger, cache, ByTenant(q.tenant), q.tenantLookup);
    EvaluateRule(TenantRule(cfg, q.tenant).value, e.daily, e.monthly)
  }

  function Check(cfg: Config, ledger: seq<Entry>, cache: Cache, q: Query): Outcome {
    var tr := TenantRule(cfg, q.tenant);
    if !HasLimits(MatchRule(cfg, q.rawKey)) then
      if tr.None? then Outcome(UNLIMITED, cache, [])
      else
        var t := TenantResult(cfg, ledger, cache, q);
        Outcome(t, CacheAfter(cfg, ledger, cache, ByTenant(q.tenant), q.tenantLookup), Notified(t))
    else
      var k := KeyResult(cfg, ledger, cache, q);
      var cache1 := CacheAfter(cfg, ledger, cache, ByKey(q.hash), q.keyLookup);
      if tr.None? then Outcome(k, cache1, Notified(k))
      else
        var t := TenantResult(cfg, ledger, cache1, q);
        var cache2 := CacheAfter(cfg, ledger, cache1, ByTenant(q.tenant), q.tenantLookup);
        if t.decision.Severity() > k.decision.Severity() then Outcome(t, cache2, Notified(k) + Notified(t))
        else Outcome(k, cache2, Notified(k))
  }

  /** API-key fingerprints are hexadecimal, so they never collide with a tenant's cache key. */
  predicate IsFingerprint(hash: string) {
    !("tenant:" <= hash)
  }

  lemma SubjectsDistinct(hash: string, tenant: string)
    requires IsFingerprint(hash)
    ensures ByKey(hash).CacheKey() != ByTenant(tenant).CacheKey()
  {
  }

  predicate Proper(s: Subject) {
    s.ByKey? ==> IsFingerprint(s.hash)
  }

  lemma ProperSubjectsDistinct(a: Subject, b: Subject)
    requires Proper(a) && Proper(b) && a.CacheKey() == b.CacheKey()
    ensures a == b
  {
    if a.ByKey? && b.ByTenant? {
      SubjectsDistinct(a.hash, b.tenant);
    } else if a.ByTenant? && b.ByKey? {
      SubjectsDistinct(b.hash, a.tenant);
    } else if a.ByTenant? {
      assert a.tenant == a.CacheKey()[7..] && b.tenant == b.CacheKey()[7..];
    }
  }

  function TenantDecision(cfg: Config, ledger: seq<Entry>, cache: Cache, q: Query): Decision {
    if TenantRule(cfg, q.tenant).Some? then TenantResult(cfg, ledger, cache, q).decision else Allow
  }

  /** The decision is the stricter of the key's and the tenant's, each on its own spend. */
  lemma CheckIsStricter(cfg: Config, ledger: seq<Entry>, cache: Cache, q: Query)
    requires IsFingerprint(q.hash)
    ensures Check(cfg, ledger, cache, q).result.decision
            == Stricter(KeyResult(cfg, ledger, cache, q).decision, TenantDecision(cfg, ledger, cache, q))
  {
  }

  /** What a lookup sees and leaves: an entry younger than the time-to-live as it is, and
      otherwise the spend of day and month so far, zero for a query that fails, which is kept. */
  lemma LookupMeaning(cfg: Config, ledger: seq<Entry>, cache: Cache, s: Subject, l: Lookup)
    ensures var k, e := s.CacheKey(), SpendSeen(cfg, ledger, cache, s, l);
            if k in cache && l.tested - cache[k].fetched < cfg.ttl then
              e == cache[k] && CacheAfter(cfg, ledger, cache, s, l) == cache
            else
              && e.daily == (if l.dailyOk then Spend(ledger, s, cfg.dayStart(l.queried), l.queried) else 0.0)
              && e.monthly == (if l.monthlyOk then Spend(ledger, s, cfg.monthStart(l.queried), l.queried) else 0.0)
              && e.fetched == l.stamped && CacheAfter(cfg, ledger, cache, s, l) == cache[k := e]
  {
  }

  /** The result of a check: what the key's rule makes of the key's spend, unless it sets no
      limit; what the tenant's rule makes of the tenant's, if there is one and the key's rule
      sets no limit or the tenant's decision is stricter; and no limit at all otherwise. */
  lemma CheckExact(cfg: Config, ledger: seq<Entry>, cache: Cache, q: Query, k: Result, t: Result)
    requires IsFingerprint(q.hash)
    requires var e := SpendSeen(cfg, ledger, cache, ByKey(q.hash), q.keyLookup);
             IsResult(MatchRule(cfg, q.rawKey), e.daily, e.monthly, k)
    requires TenantRule(cfg, q.tenant).Some? ==>
               var e := SpendSeen(cfg, ledger, cache, ByTenant(q.tenant), q.tenantLookup);
               IsResult(TenantRule(cfg, q.tenant).value, e.daily, e.monthly, t)
    ensures var limited, tr := k.dailyLimit > 0.0 || k.monthlyLimit > 0.0, TenantRule(cfg, q.tenant);
            Check(cfg, ledger, cache, q).result
            == if tr.Some? && (!limited || t.decision.Severity() > k.decision.Severity()) then t
               else if limited then k else Result(Allow, 0.0, 0.0, 0.0, 0.0)
  {
    var e, u := SpendSeen(cfg, ledger, cache, ByKey(q.hash), q.keyLookup),
                SpendSeen(cfg, ledger, cache, ByTenant(q.tenant), q.tenantLookup);
    DecisionExact(MatchRule(cfg, q.rawKey), e.daily, e.monthly);
    if TenantRule(cfg, q.tenant).Some? {
      DecisionExact(TenantRule(cfg, q.tenant).value, u.daily, u.monthly);
    }
    SubjectsDistinct(q.hash, q.tenant);
    hide Spend, EvaluateRule, MatchRule, TenantRule, Fetch;
  }

  /** Callbacks fire in strictly increasing severity, the last for the result, and none iff
      the result is Allow. */
  lemma CallbacksEscalate(cfg: Config, ledger: seq<Entry>, cache: Cache, q: Query)
    ensures var o := Check(cfg, ledger, cache, q);
            && (o.calls == [] <==> o.result.decision == Allow)
            && (o.calls != [] ==> o.calls[|o.calls| - 1] == o.result)
            && forall i, j :: 0 <= i < j < |o.calls| ==> o.calls[i].decision.Severity() < o.calls[j].decision.Severity()
  {
  }

  // ----- Spend over a growing ledger

  ghost predicate NonnegativeCosts(ledger: seq<Entry>) {
    forall i :: 0 <= i < |ledger| ==> ledger[i].cost >= 0.0
  }

  /** A day and a month of the calendar. */
  datatype Period = Period(day: int, month: int)

  predicate Within(cfg: Config, t: int, p: Period) {
    cfg.dayStart(t) == p.day && cfg.monthStart(t) == p.month
  }

  /** More records and a later end never lower the spend. */
  lemma {:induction false} SpendGrows(ledger: seq<Entry>, n: nat, s: Subject, since: int, until: int, later: int)
    requires n <= |ledger| && NonnegativeCosts(ledger) && until <= later
    ensures Spend(ledger[..n], s, since, until) <= Spend(ledger, s, since, later)
    decreases |ledger|
  {
    if n < |ledger| {
      var init := ledger[..|ledger| - 1];
      SpendGrows(init, n, s, since, until, later);
      assert init[..n] == ledger[..n];
    } else if n > 0 {
      var init := ledger[..n - 1];
      SpendGrows(init, n - 1, s, since, until, later);
      assert init[..n - 1] == init && ledger[..n] == ledger;
    }
  }

  /** The records before and from position `n` on add up. */
  lemma {:induction false} SpendSplit(ledger: seq<Entry>, n: nat, s: Subject, since: int, until: int)
    requires n <= |ledger|
    ensures Spend(ledger, s, since, until) == Spend(ledger[..n], s, since, until) + Spend(ledger[n..], s, since, until)
    decreases |ledger|
  {
    if n == |ledger| {
      assert ledger[..n] == ledger && ledger[n..] == [];
    } else {
      var init := ledger[..|ledger| - 1];
      SpendSplit(init, n, s, since, until);
      assert init[..n] == ledger[..n] && init[n..] == ledger[n..][..|ledger| - 1 - n];
    }
  }

  /** Records up to a moment are all counted up to that moment. */
  lemma {:induction false} SpendUntil(ledger: seq<Entry>, s: Subject, since: int, until: int, later: int)
    requires until <= later && forall i :: 0 <= i < |ledger| ==> ledger[i].time <= until
    ensures Spend(ledger, s, since, until) == Spend(ledger, s, since, later)
  {
    if ledger != [] {
      SpendUntil(ledger[..|ledger| - 1], s, since, until, later);
    }
  }

  /** Ten a day, figures kept for 10, and a day that ends at 100. */
  predicate TwoDays(cfg: Config) {
    && cfg.default == Rule("", "", 10.0, 0.0, 0.0, "block") && cfg.rules == [] && cfg.ttl == 10
    && cfg.dayStart(99) == 0 && cfg.dayStart(100) == 100
  }

  /** The day ends while yesterday's figures are cached: a key that spent its limit yesterday
      and nothing today is still blocked. */
  lemma StaleDayStillBlocks(cfg: Config)
    requires TwoDays(cfg)
    ensures var ledger := [Entry("k1", "", 50, 10.0)];
            var late, early := Lookup(99, 99, 99, true, true), Lookup(100, 100, 100, true, true);
            var cache := Check(cfg, ledger, map[], Query("sk-1", "k1", "", late, late)).cache;
            && Check(cfg, ledger, cache, Query("sk-1", "k1", "", early, early)).result.decision == Block
            && EvaluateRule(cfg.default, Spend(ledger, ByKey("k1"), cfg.dayStart(100), 100),
                            Spend(ledger, ByKey("k1"), cfg.monthStart(100), 100)).decision == Allow
  {
    var ledger := [Entry("k1", "", 50, 10.0)];
    assert ledger[..0] == [];
    assert Spend(ledger, ByKey("k1"), 0, 99) == 10.0 && Spend(ledger, ByKey("k1"), 100, 100) == 0.0;
    hide Spend;
    assert MatchRule(cfg, "sk-1") == cfg.default;
  }

  // ----- The implementation

  function Unstale(cfg: Config, cache: Cache, now: int): Cache {
    map k | k in cache && !(now - cache[k].fetched > cfg.ttl) :: cache[k]
  }

  /** Eviction keeps exactly the entries that are at most one time-to-live old, and no later
      lookup notices. */
  lemma EvictionExact(cfg: Config, cache: Cache, now: int)
    ensures forall k :: k in Unstale(cfg, cache, now) <==> k in cache && now - cache[k].fetched <= cfg.ttl
    ensures forall k :: k in Unstale(cfg, cache, now) ==> Unstale(cfg, cache, now)[k] == cache[k]
    ensures forall ledger, s, l: Lookup :: now <= l.tested ==>
              SpendSeen(cfg, ledger, Unstale(cfg, cache, now), s, l) == SpendSeen(cfg, ledger, cache, s, l)
  {
    hide Fetch;
  }

  class Manager {
    const initial: Config
    var rules: seq<Rule>
    var cache: Cache
    var calls: seq<Result>

    ghost function Cfg(): Config
      reads this
    {
      initial.(rules := rules)
    }

    constructor (cfg: Config)
      ensures Cfg() == cfg && cache == map[] && calls == []
    {
      initial, rules, cache, calls := cfg, cfg.rules, map[], [];
    }

    method UpdateRules(rules: seq<Rule>)
      modifies this
      ensures Cfg() == old(Cfg()).(rules := rules) && cache == map[] && calls == old(calls)
    {
      this.rules := rules;
      cache := map[];
    }

    method GetSpend(ledger: seq<Entry>, s: Subject, l: Lookup) returns (daily: real, monthly: real)
      modifies this`cache
      ensures cache == CacheAfter(Cfg(), ledger, old(cache), s, l)
      ensures var e := SpendSeen(Cfg(), ledger, old(cache), s, l); daily == e.daily && monthly == e.monthly
    {
      var k := s.CacheKey();
      if k in cache && l.tested - cache[k].fetched < initial.ttl {
        return cache[k].daily, cache[k].monthly;
      }
      daily, monthly := 0.0, 0.0;
      if l.dailyOk {
        daily := Spend(ledger, s, initial.dayStart(l.queried), l.queried);
      }
      if l.monthlyOk {
        monthly := Spend(ledger, s, initial.monthStart(l.queried), l.queried);
      }
      cache := cache[k := CacheEntry(daily, monthly, l.stamped)];
    }

    method Fire(r: Result)
      modifies this`calls
      ensures calls == old(calls) + Notified(r)
    {
      if r.decision == Block || r.decision == Warn {
        calls := calls + [r];
      }
    }

    method CheckBudget(ledger: seq<Entry>, q: Query) returns (result: Result)
      modifies this
      ensures Cfg() == old(Cfg())
      ensures var o := Check(Cfg(), ledger, old(cache), q);
              result == o.result && cache == o.cache && calls == old(calls) + o.calls
    {
      var cfg := initial.(rules := rules);
      var rule := MatchRule(cfg, q.rawKey);
      var tr := TenantRule(cfg, q.tenant);
      if rule.dailyLimit <= 0.0 && rule.monthlyLimit <= 0.0 {
        if tr.None? {
          return UNLIMITED;
        }
        var d, m := GetSpend(ledger, ByTenant(q.tenant), q.tenantLookup);
        result := EvaluateRule(tr.value, d, m);
        Fire(result);
        return;
      }
      var daily, monthly := GetSpend(ledger, ByKey(q.hash), q.keyLookup);
      result := EvaluateRule(rule, daily, monthly);
      Fire(result);
      if tr.Some? {
        var d, m := GetSpend(ledger, ByTenant(q.tenant), q.tenantLookup);
        var t := EvaluateRule(tr.value, d, m);
        if t.decision.Severity() > result.decision.Severity() {
          result := t;
          Fire(result);
        }
      }
    }

    method EvictStaleCache(now: int)
      modifies this`cache
      ensures cache == Unstale(Cfg(), old(cache), now)
    {
      var all, todo := cache, cache.Keys;
      while todo != {}
        invariant todo <= all.Keys && cache.Keys <= all.Keys
        invariant forall k :: k in all ==> (k in cache <==> k in todo || !(now - all[k].fetched > initial.ttl))
        invariant forall k :: k in cache ==> cache[k] == all[k]
      {
        var k :| k in todo;
        if now - cache[k].fetched > initial.ttl {
          cache := cache - {k};
        }
        todo := todo - {k};
      }
    }
  }
}
