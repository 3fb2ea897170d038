/** The alert notifier with a cooldown per alert key. */
module AlertCooldown {
  import opened Common

  datatype Alert = Alert(kind: string, details: map<string, string>)

  /** Alerts are deduplicated per type and session, or else per type and API-key hash. */
  function AlertKey(a: Alert): string {
    if "session_id" in a.details then a.kind + ":" + a.details["session_id"]
    else if "api_key_hash" in a.details then a.kind + ":" + a.details["api_key_hash"]
    else a.kind
  }

  type Seen = map<string, int>

  /** A call of `Notify`: the cooldown is tested at `tested`, a delivery is stamped at
      `stamped`, the clock is read for each old entry, and the call ends at `swept`. */
  datatype Call = Call(key: string, tested: int, stamped: int, readings: map<string, int>, swept: int) {
    function At(k: string): int {
      if k in readings then readings[k] else swept
    }
  }

  predicate Suppressed(cooldown: int, seen: Seen, c: Call) {
    c.key in seen && c.tested - seen[c.key] < cooldown
  }

  function Unexpired(cooldown: int, seen: Seen, c: Call): Seen {
    map k | k in seen && !(c.At(k) - seen[k] > cooldown * 2) :: seen[k]
  }

  function Step(cooldown: int, seen: Seen, c: Call): Seen {
    if Suppressed(cooldown, seen, c) then seen else Unexpired(cooldown, seen[c.key := c.stamped], c)
  }

  function Run(cooldown: int, cs: seq<Call>): Seen {
    if cs == [] then map[] else Step(cooldown, Run(cooldown, cs[..|cs| - 1]), cs[|cs| - 1])
  }

  /** The i-th call was delivered. */
  predicate Delivered(cooldown: int, cs: seq<Call>, i: nat)
    requires i < |cs|
  {
    !Suppressed(cooldown, Run(cooldown, cs[..i]), cs[i])
  }

  /** The clock never goes back, within a call and from call to call. */
  ghost predicate Ordered(cs: seq<Call>) {
    && (forall i :: 0 <= i < |cs| ==> cs[i].tested <= cs[i].stamped <= cs[i].swept)
    && (forall i, k :: 0 <= i < |cs| ==> cs[i].stamped <= cs[i].At(k) <= cs[i].swept)
    && (forall i, j :: 0 <= i < j < |cs| ==> cs[i].swept <= cs[j].tested)
  }

  function Clock(cs: seq<Call>): int {
    if cs == [] then 0 else cs[|cs| - 1].swept
  }

  /** Index of the last delivery of `key`, if any. */
  ghost predicate IsLastDelivery(cooldown: int, cs: seq<Call>, key: string, i: nat) {
    && i < |cs| && cs[i].key == key && Delivered(cooldown, cs, i)
    && forall j :: i < j < |cs| && cs[j].key == key ==> !Delivered(cooldown, cs, j)
  }

  /** The table holds the last delivery of a key unless that is too old to matter. */
  ghost predicate Remembers(cooldown: int, cs: seq<Call>, key: string) {
    var seen := Run(cooldown, cs);
    && (key in seen ==> exists i: nat :: IsLastDelivery(cooldown, cs, key, i) && seen[key] == cs[i].stamped)
    && (key !in seen ==> forall i: nat :: IsLastDelivery(cooldown, cs, key, i) ==>
                           Clock(cs) - cs[i].stamped > cooldown * 2)
  }

  lemma DeliveredPrefix(cooldown: int, cs: seq<Call>, n: nat, i: nat)
    requires i < n <= |cs|
    ensures Delivered(cooldown, cs[..n], i) == Delivered(cooldown, cs, i)
  {
    assert cs[..n][..i] == cs[..i];
  }

  lemma LastDeliveryKept(cooldown: int, cs: seq<Call>, key: string, i: nat)
    requires cs != [] && !(cs[|cs| - 1].key == key && Delivered(cooldown, cs, |cs| - 1))
    ensures IsLastDelivery(cooldown, cs[..|cs| - 1], key, i) <==> IsLastDelivery(cooldown, cs, key, i)
  {
    var n := |cs| - 1;
    forall j | 0 <= j < n
      ensures Delivered(cooldown, cs[..n], j) == Delivered(cooldown, cs, j)
    {
      DeliveredPrefix(cooldown, cs, n, j);
    }
  }

  lemma {:induction false} RunRemembers(cooldown: int, cs: seq<Call>, key: string)
    requires Ordered(cs)
    ensures Remembers(cooldown, cs, key)
  {
    if cs != [] {
      var n := |cs| - 1;
      var init, c := cs[..n], cs[n];
      RunRemembers(cooldown, init, key);
      if c.key == key && Delivered(cooldown, cs, n) {
        assert IsLastDelivery(cooldown, cs, key, n);
        assert forall i: nat :: IsLastDelivery(cooldown, cs, key, i) ==> i == n;
        var marked := Run(cooldown, init)[key := c.stamped];
        assert Run(cooldown, cs) == Unexpired(cooldown, marked, c);
      } else {
        forall i: nat
          ensures IsLastDelivery(cooldown, init, key, i) <==> IsLastDelivery(cooldown, cs, key, i)
        {
          LastDeliveryKept(cooldown, cs, key, i);
        }
        OldStaysOld(cooldown, cs, key);
      }
    }
  }

  lemma OldStaysOld(cooldown: int, cs: seq<Call>, key: string)
    requires cs != [] && Ordered(cs) && Remembers(cooldown, cs[..|cs| - 1], key)
    requires !(cs[|cs| - 1].key == key && Delivered(cooldown, cs, |cs| - 1))
    requires forall i: nat :: IsLastDelivery(cooldown, cs[..|cs| - 1], key, i) <==> IsLastDelivery(cooldown, cs, key, i)
    ensures Remembers(cooldown, cs, key)
  {
  }

  /** Call `i` delivered the same key less than a cooldown before call `n` was tested. */
  predicate Recent(cooldown: int, cs: seq<Call>, n: nat, i: nat)
    requires n < |cs|
  {
    i < n && cs[i].key == cs[n].key && Delivered(cooldown, cs, i) && cs[n].tested - cs[i].stamped < cooldown
  }

  /** An alert is delivered iff no alert with its key was delivered less than one cooldown
      earlier; evicting old entries never changes that. */
  lemma DeliveredIff(cooldown: int, cs: seq<Call>, n: nat)
    requires Ordered(cs) && n < |cs|
    ensures Delivered(cooldown, cs, n) <==> forall i :: 0 <= i < n ==> !Recent(cooldown, cs, n, i)
  {
    var init, c := cs[..n], cs[n];
    RunRemembers(cooldown, init, c.key);
    var seen := Run(cooldown, init);
    if c.key in seen {
      var i: nat :| IsLastDelivery(cooldown, init, c.key, i) && seen[c.key] == init[i].stamped;
      DeliveredPrefix(cooldown, cs, n, i);
      if Delivered(cooldown, cs, n) {
        EarlierDeliveriesOlder(cooldown, cs, n, i);
      } else {
        assert Recent(cooldown, cs, n, i);
      }
    } else {
      ForgottenAreOld(cooldown, cs, n);
    }
  }

  lemma EarlierDeliveriesOlder(cooldown: int, cs: seq<Call>, n: nat, last: nat)
    requires Ordered(cs) && n < |cs| && IsLastDelivery(cooldown, cs[..n], cs[n].key, last)
    requires cs[n].tested - cs[last].stamped >= cooldown
    ensures forall i :: 0 <= i < n ==> !Recent(cooldown, cs, n, i)
  {
    forall i | 0 <= i < n
      ensures !Recent(cooldown, cs, n, i)
    {
      DeliveredPrefix(cooldown, cs, n, i);
    }
  }

  lemma {:induction false} SomeLastDelivery(cooldown: int, cs: seq<Call>, key: string, i: nat) returns (last: nat)
    requires i < |cs| && cs[i].key == key && Delivered(cooldown, cs, i)
    ensures i <= last && IsLastDelivery(cooldown, cs, key, last)
    decreases |cs| - i
  {
    if j :| i < j < |cs| && cs[j].key == key && Delivered(cooldown, cs, j) {
      last := SomeLastDelivery(cooldown, cs, key, j);
    } else {
      last := i;
    }
  }

  lemma {:induction false} ForgottenAreOld(cooldown: int, cs: seq<Call>, n: nat)
    requires Ordered(cs) && n < |cs| && Remembers(cooldown, cs[..n], cs[n].key)
    requires cs[n].key !in Run(cooldown, cs[..n])
    ensures forall i :: 0 <= i < n ==> !Recent(cooldown, cs, n, i)
  {
    forall i | 0 <= i < n
      ensures !Recent(cooldown, cs, n, i)
    {
      DeliveredPrefix(cooldown, cs, n, i);
      if cs[i].key == cs[n].key && Delivered(cooldown, cs, i) {
        var last := SomeLastDelivery(cooldown, cs[..n], cs[n].key, i);
        assert Clock(cs[..n]) - cs[last].stamped > cooldown * 2;
        assert Clock(cs[..n]) <= cs[n].tested;
      }
    }
  }

  /** Two deliveries of one key are at least a cooldown apart. */
  lemma DeliveriesApart(cooldown: int, cs: seq<Call>, i: nat, n: nat)
    requires Ordered(cs) && i < n < |cs| && cs[i].key == cs[n].key
    requires Delivered(cooldown, cs, i) && Delivered(cooldown, cs, n)
    ensures cs[n].tested - cs[i].stamped >= cooldown
  {
    DeliveredIff(cooldown, cs, n);
    assert !Recent(cooldown, cs, n, i);
  }

  /** A suppressed call leaves the table alone; a delivery stamps its key, and keeps exactly
      the entries that are at most two cooldowns old when the sweep comes to them. */
  lemma TableExact(cooldown: int, seen: Seen, c: Call)
    ensures var after := Step(cooldown, seen, c);
            if c.key in seen && c.tested - seen[c.key] < cooldown then after == seen
            else
              forall k ::
                var known, stamp := k == c.key || k in seen, if k == c.key || k !in seen then c.stamped else seen[k];
                && (k in after <==> known && c.At(k) - stamp <= cooldown * 2)
                && (k in after ==> after[k] == stamp)
  {
  }

  /** The scope of an alert: its session, or else its API key. */
  predicate HasScope(a: Alert, scope: string) {
    if "session_id" in a.details then a.details["session_id"] == scope
    else "api_key_hash" in a.details && a.details["api_key_hash"] == scope
  }

  /** Alerts of one type are deduplicated together iff their scopes are equal, or neither has
      one; and a key always starts with the type. */
  lemma AlertKeyMeaning(a: Alert, b: Alert)
    requires a.kind == b.kind
    ensures a.kind <= AlertKey(a)
    ensures AlertKey(a) == AlertKey(b)
            <==> || (exists scope :: HasScope(a, scope) && HasScope(b, scope))
                 || (forall scope :: !HasScope(a, scope) && !HasScope(b, scope))
  {
    ScopeOf(a);
    ScopeOf(b);
  }

  lemma ScopeOf(a: Alert)
    ensures (forall scope :: !HasScope(a, scope)) ==> AlertKey(a) == a.kind
    ensures forall scope :: HasScope(a, scope) ==> AlertKey(a) == a.kind + ":" + scope
    ensures AlertKey(a) == a.kind || HasScope(a, AlertKey(a)[|a.kind| + 1..])
  {
    var key := AlertKey(a);
    if "session_id" in a.details {
      assert key == a.kind + ":" + a.details["session_id"] && key[|a.kind| + 1..] == a.details["session_id"];
      assert HasScope(a, a.details["session_id"]);
    } else if "api_key_hash" in a.details {
      assert key == a.kind + ":" + a.details["api_key_hash"] && key[|a.kind| + 1..] == a.details["api_key_hash"];
      assert HasScope(a, a.details["api_key_hash"]);
    }
  }

  // ----- The implementation

  class Notifier {
    const cooldown: int
    var seen: Seen
    var delivered: seq<Alert>

    constructor (cooldown: int)
      ensures this.cooldown == cooldown && seen == map[] && delivered == []
    {
      this.cooldown := cooldown;
      seen, delivered := map[], [];
    }

    /** Deliver the alert unless its key is cooling down. */
    method Notify(a: Alert, tested: int, stamped: int, readings: map<string, int>, swept: int)
      modifies this
      ensures var c := Call(AlertKey(a), tested, stamped, readings, swept);
              && seen == Step(cooldown, old(seen), c)
              && delivered == if Suppressed(cooldown, old(seen), c) then old(delivered) else old(delivered) + [a]
    {
      var key := AlertKey(a);
      var c := Call(key, tested, stamped, readings, swept);
      if key in seen && c.tested - seen[key] < cooldown {
        return;
      }
      seen := seen[key := c.stamped];
      var all, todo := seen, seen.Keys;
      while todo != {}
        invariant todo <= all.Keys && seen.Keys <= all.Keys
        invariant forall k :: k in all ==> (k in seen <==> k in todo || !(c.At(k) - all[k] > cooldown * 2))
        invariant forall k :: k in seen ==> seen[k] == all[k]
        invariant delivered == old(delivered)
      {
        var k :| k in todo;
        if c.At(k) - seen[k] > cooldown * 2 {
          seen := seen - {k};
        }
        todo := todo - {k};
      }
      delivered := delivered + [a];
    }
  }
}
