/** Loop and ghost detection over the calls of a session. */
module LoopDetector {
  import opened Common

  datatype CallRecord = CallRecord(time: int, model: string, path: string)

  datatype Config = Config(
    sessionTimeout: int, loopThreshold: int, loopWindow: int,
    ghostMaxAge: int, ghostMinCalls: int, ghostMinCost: real)

  datatype Alert = LoopAlert(sessionId: string, agentId: string, count: int)
    | GhostAlert(sessionId: string, agentId: string)

  predicate Sorted(calls: seq<CallRecord>) {
    forall i, j :: 0 <= i < j < |calls| ==> calls[i].time <= calls[j].time
  }

  /** How many calls of the path are not before the cutoff, wherever they are. */
  function CountInWindow(calls: seq<CallRecord>, path: string, cutoff: int): nat {
    if calls == [] then 0
    else
      var c := calls[|calls| - 1];
      CountInWindow(calls[..|calls| - 1], path, cutoff) + (if c.time >= cutoff && c.path == path then 1 else 0)
  }

  /** The count is the number of such calls. */
  lemma {:induction false} CountMeaning(calls: seq<CallRecord>, path: string, cutoff: int)
    ensures CountInWindow(calls, path, cutoff) == |InWindow(calls, path, cutoff)|
  {
    if calls == [] {
      assert InWindow(calls, path, cutoff) == {};
    } else {
      CountMeaning(calls[..|calls| - 1], path, cutoff);
      InWindowSnoc(calls, path, cutoff);
      hide InWindow;
    }
  }

  /** The positions of the calls of the path that are not before the cutoff. */
  function InWindow(calls: seq<CallRecord>, path: string, cutoff: int): set<nat> {
    set i: nat | i < |calls| && calls[i].time >= cutoff && calls[i].path == path
  }

  lemma InWindowSnoc(calls: seq<CallRecord>, path: string, cutoff: int)
    requires calls != []
    ensures var n := |calls| - 1;
            && n !in InWindow(calls[..n], path, cutoff)
            && InWindow(calls, path, cutoff)
               == InWindow(calls[..n], path, cutoff)
                  + if calls[n].time >= cutoff && calls[n].path == path then {n} else {}
  {
  }

  /** The count of a scan from the newest call back to the first one before the cutoff. */
  function ScanBack(calls: seq<CallRecord>, path: string, cutoff: int): nat {
    if calls == [] || calls[|calls| - 1].time < cutoff then 0
    else ScanBack(calls[..|calls| - 1], path, cutoff) + (if calls[|calls| - 1].path == path then 1 else 0)
  }

  lemma {:induction false} NoneInWindow(calls: seq<CallRecord>, path: string, cutoff: int)
    requires forall i :: 0 <= i < |calls| ==> calls[i].time < cutoff
    ensures CountInWindow(calls, path, cutoff) == 0
  {
    if calls != [] {
      NoneInWindow(calls[..|calls| - 1], path, cutoff);
    }
  }

  /** In time order, stopping early misses nothing. */
  lemma {:induction false} ScanIsCount(calls: seq<CallRecord>, path: string, cutoff: int)
    requires Sorted(calls)
    ensures ScanBack(calls, path, cutoff) == CountInWindow(calls, path, cutoff)
  {
    if calls != [] {
      if calls[|calls| - 1].time < cutoff {
        NoneInWindow(calls, path, cutoff);
      } else {
        ScanIsCount(calls[..|calls| - 1], path, cutoff);
      }
    }
  }

  lemma {:induction false} CountSplit(earlier: seq<CallRecord>, calls: seq<CallRecord>, path: string, cutoff: int)
    requires forall i :: 0 <= i < |earlier| ==> earlier[i].time < cutoff
    ensures CountInWindow(earlier + calls, path, cutoff) == CountInWindow(calls, path, cutoff)
  {
    if calls == [] {
      assert earlier + calls == earlier;
      NoneInWindow(earlier, path, cutoff);
    } else {
      CountSplit(earlier, calls[..|calls| - 1], path, cutoff);
      assert (earlier + calls)[..|earlier + calls| - 1] == earlier + calls[..|calls| - 1];
    }
  }

  /** Whether the scan raises an alert. */
  predicate LoopFound(cfg: Config, calls: seq<CallRecord>, path: string, now: int) {
    cfg.loopThreshold > 0 && cfg.loopWindow > 0 && ScanBack(calls, path, now - cfg.loopWindow) >= cfg.loopThreshold
  }

  /** The backward scan with its early exit. */
  method CheckLoop(cfg: Config, calls: seq<CallRecord>, path: string, sessionId: string, agentId: string, now: int)
      returns (alert: Option<Alert>)
    ensures alert == if LoopFound(cfg, calls, path, now)
                     then Some(LoopAlert(sessionId, agentId, ScanBack(calls, path, now - cfg.loopWindow))) else None
  {
    if cfg.loopThreshold <= 0 || cfg.loopWindow <= 0 {
      return None;
    }
    var cutoff := now - cfg.loopWindow;
    var count, i := 0, |calls|;
    assert calls[..|calls|] == calls;
    while i > 0
      invariant 0 <= i <= |calls|
      invariant ScanBack(calls, path, cutoff) == count + ScanBack(calls[..i], path, cutoff)
    {
      assert calls[..i][..i - 1] == calls[..i - 1];
      if calls[i - 1].time < cutoff {
        break;
      }
      if calls[i - 1].path == path {
        count := count + 1;
      }
      i := i - 1;
    }
    if count >= cfg.loopThreshold {
      return Some(LoopAlert(sessionId, agentId, count));
    }
    return None;
  }

  // ----- Trimming

  /** How many calls at the front are before the cutoff. */
  function TrimIndex(calls: seq<CallRecord>, cutoff: int): (k: nat)
    ensures k <= |calls|
    ensures forall i :: 0 <= i < k ==> calls[i].time < cutoff
    ensures k < |calls| ==> calls[k].time >= cutoff
  {
    if calls == [] || calls[0].time >= cutoff then 0 else 1 + TrimIndex(calls[1..], cutoff)
  }

  /** The calls kept after a call at `now`: long histories lose what is before the window. */
  function Trim(cfg: Config, calls: seq<CallRecord>, now: int): seq<CallRecord> {
    if cfg.loopWindow > 0 && |calls| > cfg.loopThreshold * 10 then calls[TrimIndex(calls, now - cfg.loopWindow)..]
      else calls
  }

  method TrimCalls(cfg: Config, calls: seq<CallRecord>, now: int) returns (kept: seq<CallRecord>)
    ensures kept == Trim(cfg, calls, now)
  {
    kept := calls;
    if cfg.loopWindow > 0 && |calls| > cfg.loopThreshold * 10 {
      var cutoff, k := now - cfg.loopWindow, 0;
      while k < |calls| && calls[k].time < cutoff
        invariant 0 <= k <= |calls|
        invariant forall i :: 0 <= i < k ==> calls[i].time < cutoff
      {
        k := k + 1;
      }
      TrimIndexUnique(calls, cutoff, k);
      if k > 0 {
        kept := calls[k..];
      }
    }
  }

  lemma TrimIndexUnique(calls: seq<CallRecord>, cutoff: int, k: nat)
    requires k <= |calls| && (forall i :: 0 <= i < k ==> calls[i].time < cutoff)
    requires k < |calls| ==> calls[k].time >= cutoff
    ensures k == TrimIndex(calls, cutoff)
  {
  }

  /** Trimming right after a call keeps that call, and with it the session's last activity,
      exactly when nothing is trimmed or the call is not itself older than the window. */
  lemma TrimKeepsNewestIff(cfg: Config, calls: seq<CallRecord>, now: int)
    requires calls != [] && Sorted(calls)
    ensures var kept := Trim(cfg, calls, now);
            kept != [] && kept[|kept| - 1] == calls[|calls| - 1]
            <==> || cfg.loopWindow <= 0 || |calls| <= cfg.loopThreshold * 10
                 || calls[|calls| - 1].time >= now - cfg.loopWindow
  {
  }

  /** A threshold of 1, a window of 10, and eleven calls at time 0: a trim at 11 drops the
      call that was just made, and all others. */
  lemma TrimDropsNewest(cfg: Config, c: CallRecord)
    requires cfg.loopThreshold == 1 && cfg.loopWindow == 10 && c.time == 0
    ensures Trim(cfg, seq(11, _ => c), 11) == []
  {
    var calls := seq(11, _ => c);
    var k := TrimIndex(calls, 1);
    assert forall i :: 0 <= i < |calls| ==> calls[i].time == 0;
  }

  // ----- Ghosts

  predicate IsGhost(cfg: Config, age: int, callCount: int, cost: real) {
    cfg.ghostMaxAge > 0 && age >= cfg.ghostMaxAge && callCount >= cfg.ghostMinCalls && cost >= cfg.ghostMinCost
  }
}
