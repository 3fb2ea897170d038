/** The budget gate of the proxy, and how far recorded spend can exceed a limit. */
module Admission {
  import opened Common
  import opened Budget
  import Meter

  datatype RequestMeta = RequestMeta(model: string, maxTokens: int)

  datatype Verdict = Blocked | PreflightRejected | Forwarded

  function WorstCase(table: Meter.Table, m: RequestMeta): real {
    Meter.Calculate(table, m.model, 0, m.maxTokens)
  }

  /** The worst case does not fit what one result says is left. */
  predicate TooExpensive(r: Result, worst: real) {
    (r.dailyLimit > 0.0 && worst > r.dailyLimit - r.dailySpent)
    || (r.monthlyLimit > 0.0 && worst > r.monthlyLimit - r.monthlySpent)
  }

  /** Reject a blocked request, then one whose estimated output cost does not fit. */
  function Gate(table: Meter.Table, r: Result, meta: Option<RequestMeta>): Verdict {
    if r.decision == Block then Blocked
    else if meta.Some? && meta.value.maxTokens > 0 && WorstCase(table, meta.value) > 0.0
            && TooExpensive(r, WorstCase(table, meta.value)) then PreflightRejected
    else Forwarded
  }

  /** The gate by its figures: a blocked request is rejected; else one with a maximum of
      tokens is rejected iff that many, at the output price of its model, cost something and
      more than a positive limit leaves; and every other request is forwarded. */
  lemma GateExact(table: Meter.Table, r: Result, meta: Option<RequestMeta>)
    ensures var price := if meta.Some? then Meter.Price(table, meta.value.model).outputPerMTok else 0.0;
            var worst := if meta.Some? then meta.value.maxTokens as real / 1000000.0 * price else 0.0;
            var tooMuch := (r.dailyLimit > 0.0 && r.dailySpent + worst > r.dailyLimit)
                           || (r.monthlyLimit > 0.0 && r.monthlySpent + worst > r.monthlyLimit);
            Gate(table, r, meta)
            == if r.decision == Block then Blocked
               else if meta.Some? && meta.value.maxTokens > 0 && worst > 0.0 && tooMuch then PreflightRejected
               else Forwarded
  {
  }

  // ----- Which limits the pre-flight test protects

  predicate Limited(r: Result) {
    r.dailyLimit > 0.0 || r.monthlyLimit > 0.0
  }

  /** What the tightest configured limit of a result leaves. */
  function Room(r: Result): real
    requires Limited(r)
  {
    var d, m := r.dailyLimit - r.dailySpent, r.monthlyLimit - r.monthlySpent;
    if r.monthlyLimit <= 0.0 then d
    else if r.dailyLimit <= 0.0 then m
    else if d <= m then d else m
  }

  /** No positive estimate that passes the test on `tested` breaks a daily or monthly limit
      of `guarded`. */
  ghost predicate Protects(tested: Result, guarded: Result) {
    forall worst: real :: worst > 0.0 && TooExpensive(guarded, worst) ==> TooExpensive(tested, worst)
  }

  /** The pre-flight test looks at the one result it is given. It protects the limits of
      another result exactly when that one has none, or the tested one has some and leaves
      nothing, or no more than the other's limits do. */
  lemma PreflightProtectsIff(tested: Result, guarded: Result)
    ensures Protects(tested, guarded)
            <==> !Limited(guarded)
                 || (Limited(tested) && (Room(tested) <= 0.0 || Room(tested) <= Room(guarded)))
  {
    if Limited(guarded) {
      if !Limited(tested) {
        var worst := if Room(guarded) > 0.0 then Room(guarded) + 1.0 else 1.0;
        assert TooExpensive(guarded, worst) && !TooExpensive(tested, worst);
      } else if Room(tested) > 0.0 && Room(tested) > Room(guarded) {
        assert TooExpensive(guarded, Room(tested)) && !TooExpensive(tested, Room(tested));
      }
    }
  }

  /** The gate sees the result of the check. It protects the limits of the key exactly when
      the key has none, the tenant's decision is not stricter and so does not replace the
      key's, or the tenant's limits leave nothing, or no more than the key's do. */
  lemma CheckProtectsKeyIff(cfg: Config, ledger: seq<Entry>, cache: Cache, q: Query)
    requires IsFingerprint(q.hash)
    ensures var key, result := KeyResult(cfg, ledger, cache, q), Check(cfg, ledger, cache, q).result;
            Protects(result, key)
            <==> || !Limited(key)
                 || TenantDecision(cfg, ledger, cache, q).Severity() <= key.decision.Severity()
                 || (Limited(result) && (Room(result) <= 0.0 || Room(result) <= Room(key)))
  {
    var key, result := KeyResult(cfg, ledger, cache, q), Check(cfg, ledger, cache, q).result;
    PreflightProtectsIff(result, key);
    ResultUnlessStricter(cfg, ledger, cache, q);
    hide Check, KeyResult, TenantDecision, Protects;
  }

  lemma ResultUnlessStricter(cfg: Config, ledger: seq<Entry>, cache: Cache, q: Query)
    requires IsFingerprint(q.hash)
    ensures var key := KeyResult(cfg, ledger, cache, q);
            Limited(key) && TenantDecision(cfg, ledger, cache, q).Severity() <= key.decision.Severity() ==>
              Check(cfg, ledger, cache, q).result == key
  {
    SubjectsDistinct(q.hash, q.tenant);
    hide Spend, MatchRule, TenantRule, Fetch, Exceeded, SoftExceeded;
  }

  /** A key with 9 spent of 10 a day, in a tenant with 600 spent of 1000 and a warning at
      half of it. */
  function CrowdedLedger(): seq<Entry> {
    [Entry("k1", "acme", 5, 9.0), Entry("k2", "acme", 6, 591.0)]
  }

  predicate CrowdedConfig(cfg: Config) {
    && cfg.default == Rule("", "", 10.0, 0.0, 0.0, "block")
    && cfg.rules == [Rule("", "acme", 1000.0, 0.0, 0.5, "block")]
    && !cfg.matches("", "sk-1") && cfg.dayStart(10) == 0 && cfg.monthStart(10) == 0
  }

  lemma CrowdedSpend()
    ensures Spend(CrowdedLedger(), ByKey("k1"), 0, 10) == 9.0
            && Spend(CrowdedLedger(), ByTenant("acme"), 0, 10) == 600.0
  {
    var ledger := CrowdedLedger();
    assert ledger[..1] == [Entry("k1", "acme", 5, 9.0)] && ledger[..1][..0] == [];
  }

  /** The tenant's warning replaces the key's result, so the key's limit goes untested: a
      request whose estimate is 50 is forwarded for a key that has 1 left. */
  lemma TenantWarningHidesKeyLimit(cfg: Config, table: Meter.Table, meta: RequestMeta)
    requires CrowdedConfig(cfg) && meta.maxTokens > 0 && WorstCase(table, meta) == 50.0
    ensures var l := Lookup(10, 10, 10, true, true);
            var q := Query("sk-1", "k1", "acme", l, l);
            var key, result := KeyResult(cfg, CrowdedLedger(), map[], q), Check(cfg, CrowdedLedger(), map[], q).result;
            && result.decision == Warn && key.dailyLimit == 10.0 && key.dailySpent == 9.0
            && TooExpensive(key, WorstCase(table, meta)) && Gate(table, result, Some(meta)) == Forwarded
  {
    CrowdedSpend();
    SubjectsDistinct("k1", "acme");
    hide Spend, CrowdedLedger;
    FirstMatchApplies(cfg, "sk-1", 1);
    assert TenantRule(cfg, "acme") == Some(MergeWithDefault(cfg, cfg.rules[0]));
  }

  // ----- Sums over the ledger

  function Total(ledger: seq<Entry>): real {
    if ledger == [] then 0.0 else Total(ledger[..|ledger| - 1]) + ledger[|ledger| - 1].cost
  }

  /** All records belong to the key and fall between the two moments. */
  predicate AllOf(ledger: seq<Entry>, hash: string, since: int, until: int) {
    forall i :: 0 <= i < |ledger| ==> ledger[i].key == hash && since <= ledger[i].time <= until
  }

  lemma {:induction false} SpendIsTotal(ledger: seq<Entry>, hash: string, since: int, until: int)
    requires AllOf(ledger, hash, since, until)
    ensures Spend(ledger, ByKey(hash), since, until) == Total(ledger)
  {
    if ledger != [] {
      SpendIsTotal(ledger[..|ledger| - 1], hash, since, until);
    }
  }

  lemma TotalSnoc(ledger: seq<Entry>, e: Entry)
    ensures Total(ledger + [e]) == Total(ledger) + e.cost
  {
  }

  // ----- One request at a time, spend looked up fresh

  /** The key under observation: its names, its rule's limit, and the day. */
  datatype Scene = Scene(cfg: Config, table: Meter.Table, rawKey: string, hash: string, limit: real, period: Period)

  /** The key's rule has a daily limit and blocks. */
  predicate Blocking(sc: Scene) {
    && sc.limit > 0.0 && IsFingerprint(sc.hash)
    && MatchRule(sc.cfg, sc.rawKey).dailyLimit == sc.limit && MatchRule(sc.cfg, sc.rawKey).action == "block"
  }

  function QueryOf(sc: Scene, l: Lookup): Query {
    Query(sc.rawKey, sc.hash, "", l, l)
  }

  /** A lookup of the day whose clock readings are ordered and whose queries succeed. */
  predicate Sound(cfg: Config, l: Lookup, p: Period) {
    p.day <= l.tested <= l.queried <= l.stamped && Within(cfg, l.queried, p) && l.dailyOk && l.monthlyOk
  }

  /** A request that is forwarded at `start`, and the response it would get. */
  datatype Exchange = Exchange(
    meta: RequestMeta, model: string, inputTokens: int, outputTokens: int, lookup: Lookup, start: int)

  function InputCost(table: Meter.Table, x: Exchange): real {
    Meter.Calculate(table, x.model, x.inputTokens, 0)
  }

  /** The upstream honours max_tokens, and the response's output price is no higher than
      the price of the model asked for. */
  predicate Honoured(table: Meter.Table, x: Exchange) {
    && 0 < x.meta.maxTokens && 0 <= x.outputTokens <= x.meta.maxTokens && x.inputTokens >= 0
    && Meter.Price(table, x.model).outputPerMTok <= Meter.Price(table, x.meta.model).outputPerMTok
  }

  predicate Forwards(sc: Scene, ledger: seq<Entry>, x: Exchange) {
    Gate(sc.table, Check(sc.cfg, ledger, map[], QueryOf(sc, x.lookup)).result, Some(x.meta)) == Forwarded
  }

  function Serve(sc: Scene, ledger: seq<Entry>, x: Exchange): seq<Entry> {
    if Forwards(sc, ledger, x) then
      ledger + [Entry(sc.hash, "", x.start, Meter.Calculate(sc.table, x.model, x.inputTokens, x.outputTokens))]
    else ledger
  }

  function ServeAll(sc: Scene, xs: seq<Exchange>): seq<Entry> {
    if xs == [] then [] else Serve(sc, ServeAll(sc, xs[..|xs| - 1]), xs[|xs| - 1])
  }

  /** The lookups succeed, follow one another, and fall within the day. */
  predicate InTurn(sc: Scene, xs: seq<Exchange>) {
    && (forall i :: 0 <= i < |xs| ==> Sound(sc.cfg, xs[i].lookup, sc.period) && xs[i].lookup.stamped <= xs[i].start)
    && (forall i, j :: 0 <= i < j < |xs| ==> xs[i].start <= xs[j].lookup.tested)
  }

  lemma OutputWithinWorstCase(table: Meter.Table, x: Exchange)
    requires Meter.NonnegativePrices(table) && Honoured(table, x)
    ensures 0.0 <= Meter.Calculate(table, x.model, x.inputTokens, x.outputTokens)
                <= InputCost(table, x) + WorstCase(table, x.meta)
  {
    var p, q := Meter.Price(table, x.model).outputPerMTok, Meter.Price(table, x.meta.model).outputPerMTok;
    Meter.PriceNonnegative(table, x.model);
    Meter.PriceNonnegative(table, x.meta.model);
    Meter.TokenCostSign(x.inputTokens, Meter.Price(table, x.model).inputPerMTok);
    Meter.TokenCostSign(x.outputTokens, p);
    Meter.TokenCostMonotone(x.outputTokens, x.meta.maxTokens, p, q);
  }

  lemma {:induction false} ServedWithin(sc: Scene, xs: seq<Exchange>, t: int)
    requires InTurn(sc, xs) && (xs == [] || xs[|xs| - 1].start <= t)
    ensures AllOf(ServeAll(sc, xs), sc.hash, sc.period.day, t)
  {
    if xs != [] {
      hide Forwards;
      var init := xs[..|xs| - 1];
      ServedWithin(sc, init, t);
    }
  }

  /** Serving in turn with fresh spend never passes the limit by more than the input cost of
      the request that passed it. */
  lemma {:induction false} SerialOvershoot(sc: Scene, xs: seq<Exchange>, bound: real)
    requires Blocking(sc) && Meter.NonnegativePrices(sc.table) && InTurn(sc, xs)
    requires bound >= 0.0
    requires forall i :: 0 <= i < |xs| ==> Honoured(sc.table, xs[i]) && InputCost(sc.table, xs[i]) <= bound
    ensures Total(ServeAll(sc, xs)) <= sc.limit + bound
  {
    if xs != [] {
      hide Forwards, Honoured, InputCost, AllOf, Blocking, Sound;
      var init, x := xs[..|xs| - 1], xs[|xs| - 1];
      SerialOvershoot(sc, init, bound);
      if Forwards(sc, ServeAll(sc, init), x) {
        ServedWithin(sc, init, x.lookup.queried);
        ServeStep(sc, ServeAll(sc, init), x);
      }
    }
  }

  lemma ServeStep(sc: Scene, ledger: seq<Entry>, x: Exchange)
    requires Blocking(sc) && Meter.NonnegativePrices(sc.table) && Honoured(sc.table, x)
    requires Sound(sc.cfg, x.lookup, sc.period) && AllOf(ledger, sc.hash, sc.period.day, x.lookup.queried)
    requires Forwards(sc, ledger, x)
    ensures Total(Serve(sc, ledger, x)) <= sc.limit + InputCost(sc.table, x)
  {
    var cost := Meter.Calculate(sc.table, x.model, x.inputTokens, x.outputTokens);
    SpendIsTotal(ledger, sc.hash, sc.period.day, x.lookup.queried);
    OutputWithinWorstCase(sc.table, x);
    TotalSnoc(ledger, Entry(sc.hash, "", x.start, cost));
    FreshResult(sc, ledger, x);
  }

  lemma FreshResult(sc: Scene, ledger: seq<Entry>, x: Exchange)
    requires Blocking(sc) && Sound(sc.cfg, x.lookup, sc.period) && Forwards(sc, ledger, x)
    ensures Spend(ledger, ByKey(sc.hash), sc.period.day, x.lookup.queried) < sc.limit
    ensures x.meta.maxTokens > 0 && WorstCase(sc.table, x.meta) > 0.0 ==>
              Spend(ledger, ByKey(sc.hash), sc.period.day, x.lookup.queried) + WorstCase(sc.table, x.meta) <= sc.limit
  {
  }

  /** Without max_tokens the pre-flight test does not run, and a single request can pass the
      limit by any amount. */
  lemma MissingMaxTokensUnbounded(sc: Scene, model: string, lookup: Lookup, amount: real) returns (x: Exchange)
    requires Blocking(sc) && Meter.NonnegativePrices(sc.table) && Sound(sc.cfg, lookup, sc.period)
    requires Meter.Price(sc.table, model).outputPerMTok > 0.0 && amount >= 0.0
    ensures x.meta == RequestMeta(model, 0) && x.model == model && x.inputTokens == 0
    ensures Total(ServeAll(sc, [x])) >= amount
  {
    var n := Meter.TokensWorth(Meter.Price(sc.table, model).outputPerMTok, amount);
    x := Exchange(RequestMeta(model, 0), model, 0, n, lookup, lookup.stamped);
    assert [x][..0] == [];
    assert Forwards(sc, [], x);
    TotalSnoc([], Entry(sc.hash, "", x.start, Meter.Calculate(sc.table, model, 0, n)));
  }
}
