/** The agent session tracker: sessions in memory, written back to a store. */
module Tracker {
  import opened Common
  import opened LoopDetector

  const MAX_SESSIONS: nat := 10000

  datatype Status = Active | Completed | Killed

  datatype Session = Session(
    id: string, agentId: string, userId: string, task: string, startedAt: int, endedAt: Option<int>,
    status: Status, callCount: int, cost: real, tokens: int)

  datatype Tracked = Tracked(session: Session, calls: seq<CallRecord>, dirty: bool, ghostAlerted: bool)

  type Sessions = map<string, Tracked>

  type Store = map<string, Session>

  /** A tracked request; the clock is read when a new session starts, when the call is
      stamped, when the history is trimmed and when loops are looked for. */
  datatype Call = Call(
    id: string, agentId: string, userId: string, task: string, model: string, path: string,
    startedAt: int, calledAt: int, trimmedAt: int, checkedAt: int)

  function LastActivity(t: Tracked): int {
    if t.calls != [] then t.calls[|t.calls| - 1].time else t.session.startedAt
  }

  /** No tracked session was active longer ago than `id`. */
  ghost predicate IsOldest(ss: Sessions, id: string) {
    id in ss && forall k :: k in ss ==> LastActivity(ss[id]) <= LastActivity(ss[k])
  }

  function NewSession(c: Call): Tracked {
    Tracked(Session(c.id, c.agentId, c.userId, c.task, c.startedAt, None, Active, 0, 0.0, 0), [], false, false)
  }

  function RecordOf(c: Call): CallRecord {
    CallRecord(c.calledAt, c.model, c.path)
  }

  function AddCall(cfg: Config, t: Tracked, c: Call): Tracked {
    t.(session := t.session.(callCount := t.session.callCount + 1),
       calls := Trim(cfg, t.calls + [RecordOf(c)], c.trimmedAt), dirty := true)
  }

  /** Sessions are full and the id is new, so `victim` makes room (an empty id never does). */
  predicate NeedsRoom(ss: Sessions, id: string) {
    id !in ss && |ss| >= MAX_SESSIONS
  }

  function MakeRoom(ss: Sessions, id: string, victim: string): Sessions {
    if NeedsRoom(ss, id) && victim != "" then ss - {victim} else ss
  }

  function TrackCallOn(cfg: Config, ss: Sessions, c: Call, victim: string): Sessions {
    var t := if c.id in ss then ss[c.id] else NewSession(c);
    MakeRoom(ss, c.id, victim)[c.id := AddCall(cfg, t, c)]
  }

  function AddCost(t: Tracked, cost: real, tokens: int): Tracked {
    t.(session := t.session.(cost := t.session.cost + cost, tokens := t.session.tokens + tokens), dirty := true)
  }

  function RecordCostOn(ss: Sessions, id: string, cost: real, tokens: int): Sessions {
    if id in ss then ss[id := AddCost(ss[id], cost, tokens)] else ss
  }

  function Finish(t: Tracked, now: int): Tracked {
    t.(session := t.session.(endedAt := Some(now), status := Completed), dirty := true)
  }

  function EndSessionOn(ss: Sessions, id: string, now: int): Sessions {
    if id in ss then ss[id := Finish(ss[id], now)] else ss
  }

  predicate Idle(cfg: Config, t: Tracked, now: int) {
    cfg.sessionTimeout > 0 && t.session.status == Active && now - LastActivity(t) > cfg.sessionTimeout
  }

  function ExpireOn(cfg: Config, ss: Sessions, now: int): Sessions {
    map id | id in ss :: if Idle(cfg, ss[id], now) then Finish(ss[id], now) else ss[id]
  }

  function IdleIds(cfg: Config, ss: Sessions, now: int): set<string> {
    set id | id in ss && Idle(cfg, ss[id], now)
  }

  predicate Haunts(cfg: Config, t: Tracked, now: int) {
    && t.session.status == Active && !t.ghostAlerted
    && IsGhost(cfg, now - t.session.startedAt, t.session.callCount, t.session.cost)
  }

  /** A scan of all sessions: when the clock was read for each, and when it ended. */
  datatype Scan = Scan(readings: map<string, int>, end: int) {
    function At(id: string): int {
      if id in readings then readings[id] else end
    }
  }

  function HauntingIds(cfg: Config, ss: Sessions, scan: Scan): set<string> {
    set id | id in ss && Haunts(cfg, ss[id], scan.At(id))
  }

  function GhostsOn(cfg: Config, ss: Sessions, scan: Scan): Sessions {
    map id | id in ss :: if Haunts(cfg, ss[id], scan.At(id)) then ss[id].(ghostAlerted := true) else ss[id]
  }

  /** The rows that a flush writes: every dirty session. */
  function DirtyRows(ss: Sessions): map<string, Session> {
    map id | id in ss && ss[id].dirty :: ss[id].session
  }

  /** Memory after a flush took its rows: clean, and without the sessions that have ended. */
  function AfterSnapshot(ss: Sessions): Sessions {
    map id | id in ss && ss[id].session.status == Active :: ss[id].(dirty := false)
  }

  /** Insert the row, or overwrite the fields that an existing row lets change. */
  function Upsert(store: Store, s: Session): Store {
    store[s.id :=
      if s.id in store then
        store[s.id].(endedAt := s.endedAt, status := s.status, callCount := s.callCount, cost := s.cost,
          tokens := s.tokens)
      else s]
  }

  /** The row shows the session's state and totals. */
  predicate Agrees(row: Session, s: Session) {
    row.endedAt == s.endedAt && row.status == s.status && row.callCount == s.callCount && row.cost == s.cost
      && row.tokens == s.tokens
  }

  lemma OneMoreDone(ids: set<string>, todo: set<string>, id: string)
    requires id in todo
    ensures |ids - (todo - {id})| == |ids - todo| + if id in ids then 1 else 0
    ensures forall k :: k in ids - (todo - {id}) <==> k in ids - todo || (k == id && id in ids)
  {
    assert ids - (todo - {id}) == (ids - todo) + if id in ids then {id} else {};
  }

  lemma DoneSet(ids: set<string>, todo: set<string>, id: string)
    requires id in todo
    ensures id !in ids - todo
    ensures ids - (todo - {id}) == if id in ids then (ids - todo) + {id} else ids - todo
  {
  }

  // ----- The implementation

  class SessionTracker {
    const cfg: Config
    var sessions: Sessions
    var store: Store
    var started: int
    var ended: int
    var alerts: seq<Alert>

    constructor (cfg: Config, store: Store)
      ensures this.cfg == cfg && this.store == store && sessions == map[] && started == ended == 0 && alerts == []
    {
      this.cfg, this.store, sessions, started, ended, alerts := cfg, store, map[], 0, 0, [];
    }

    /** Record a request and look for a loop. */
    method TrackCall(c: Call) returns (alert: Option<Alert>, ghost victim: string)
      modifies this`sessions, this`started, this`alerts
      ensures NeedsRoom(old(sessions), c.id) ==> IsOldest(old(sessions), victim)
      ensures sessions == TrackCallOn(cfg, old(sessions), c, victim)
      ensures started == old(started) + if c.id in old(sessions) then 0 else 1
      ensures alert == if LoopFound(cfg, sessions[c.id].calls, c.path, c.checkedAt)
                       then Some(LoopAlert(c.id, c.agentId,
                         ScanBack(sessions[c.id].calls, c.path, c.checkedAt - cfg.loopWindow)))
                       else None
      ensures alerts == old(alerts) + if alert.Some? then [alert.value] else []
    {
      hide ScanBack, LoopFound, Trim, IsOldest;
      victim := "";
      var ts: Tracked;
      if c.id !in sessions {
        if |sessions| >= MAX_SESSIONS {
          victim := EvictOldest();
        }
        ts := NewSession(c);
        started := started + 1;
      } else {
        ts := sessions[c.id];
      }
      var calls := TrimCalls(cfg, ts.calls + [RecordOf(c)], c.trimmedAt);
      ts := ts.(calls := calls, session := ts.session.(callCount := ts.session.callCount + 1), dirty := true);
      sessions := sessions[c.id := ts];
      alert := CheckLoop(cfg, calls, c.path, c.id, c.agentId, c.checkedAt);
      if alert.Some? {
        alerts := alerts + [alert.value];
      }
    }

    /** Remove the session with the oldest activity, whatever the iteration order. */
    method EvictOldest() returns (ghost victim: string)
      requires sessions != map[]
      modifies this`sessions
      ensures IsOldest(old(sessions), victim)
      ensures sessions == if victim != "" then old(sessions) - {victim} else old(sessions)
    {
      var oldest, oldestTime, first := "", 0, true;
      var todo := sessions.Keys;
      while todo != {}
        invariant todo <= sessions.Keys && (first ==> todo == sessions.Keys)
        invariant !first ==> oldest in sessions && oldestTime == LastActivity(sessions[oldest])
        invariant !first ==> forall k :: k in sessions && k !in todo ==> oldestTime <= LastActivity(sessions[k])
      {
        var id :| id in todo;
        var last := LastActivity(sessions[id]);
        if first || last < oldestTime {
          oldest, oldestTime, first := id, last, false;
        }
        todo := todo - {id};
      }
      assert sessions.Keys != {} by {
        var k :| k in sessions;
      }
      victim := oldest;
      if oldest != "" {
        sessions := sessions - {oldest};
      }
    }

    method RecordCost(id: string, cost: real, tokens: int)
      modifies this`sessions
      ensures sessions == RecordCostOn(old(sessions), id, cost, tokens)
    {
      if id !in sessions {
        return;
      }
      var ts := sessions[id];
      var s := ts.session.(cost := ts.session.cost + cost, tokens := ts.session.tokens + tokens);
      sessions := sessions[id := ts.(session := s, dirty := true)];
    }

    method EndSession(id: string, now: int)
      modifies this`sessions, this`ended
      ensures sessions == EndSessionOn(old(sessions), id, now)
      ensures ended == old(ended) + if id in old(sessions) then 1 else 0
    {
      if id !in sessions {
        return;
      }
      var ts := sessions[id];
      sessions := sessions[id := ts.(session := ts.session.(endedAt := Some(now), status := Completed), dirty := true)];
      ended := ended + 1;
    }

    /** Write every dirty session to the store and forget the ended ones. */
    method Flush()
      requires forall id :: id in sessions ==> sessions[id].session.id == id
      modifies this`sessions, this`store
      ensures sessions == AfterSnapshot(old(sessions))
      ensures Flushed(old(store), store, DirtyRows(old(sessions)), DirtyRows(old(sessions)).Keys)
    {
      var rows := TakeDirty();
      DropEnded();
      store := WriteRows(store, rows);
    }

    /** First loop of the flush: collect the dirty sessions and mark them clean. */
    method TakeDirty() returns (rows: map<string, Session>)
      modifies this`sessions
      ensures rows == DirtyRows(old(sessions))
      ensures sessions == (map id | id in old(sessions) :: old(sessions)[id].(dirty := false))
    {
      rows := map[];
      var all, todo := sessions, sessions.Keys;
      while todo != {}
        invariant Taking(all, sessions, rows, todo)
      {
        var id :| id in todo;
        if sessions[id].dirty {
          rows := rows[id := sessions[id].session];
          sessions := sessions[id := sessions[id].(dirty := false)];
        }
        todo := todo - {id};
      }
    }

    /** Second loop of the flush: forget the sessions that have ended and are clean. */
    method DropEnded()
      modifies this`sessions
      ensures sessions == (map id | id in old(sessions)
              && (old(sessions)[id].session.status == Active || old(sessions)[id].dirty) :: old(sessions)[id])
    {
      var all, todo := sessions, sessions.Keys;
      while todo != {}
        invariant todo <= all.Keys && sessions.Keys <= all.Keys
        invariant forall id :: id in all ==>
                    (id in sessions <==> id in todo || all[id].session.status == Active || all[id].dirty)
        invariant forall id :: id in sessions ==> sessions[id] == all[id]
      {
        var id :| id in todo;
        if sessions[id].session.status != Active && !sessions[id].dirty {
          sessions := sessions - {id};
        }
        todo := todo - {id};
      }
    }

    method ExpireIdleSessions(now: int)
      modifies this`sessions, this`ended
      ensures sessions == ExpireOn(cfg, old(sessions), now)
      ensures ended == old(ended) + |IdleIds(cfg, old(sessions), now)|
    {
      if cfg.sessionTimeout <= 0 {
        assert IdleIds(cfg, sessions, now) == {};
        return;
      }
      var count;
      sessions, count := ExpireLoop(cfg, sessions, now);
      ended := ended + count;
    }

    /** Alert once for every session that has become a ghost. */
    method DetectGhosts(scan: Scan)
      modifies this`sessions, this`alerts
      ensures sessions == GhostsOn(cfg, old(sessions), scan)
      ensures exists raised ::
                alerts == old(alerts) + raised
                && OneEach(raised, old(sessions), HauntingIds(cfg, old(sessions), scan))
    {
      var raised := [];
      if cfg.ghostMaxAge > 0 {
        sessions, raised := GhostLoop(cfg, sessions, scan);
      } else {
        assert HauntingIds(cfg, sessions, scan) == {};
      }
      alerts := alerts + raised;
    }
  }

  /** Both are of the same session: its id, agent, user, task and start. */
  predicate SameOrigin(a: Session, b: Session) {
    a.id == b.id && a.agentId == b.agentId && a.userId == b.userId && a.task == b.task && a.startedAt == b.startedAt
  }

  /** The done rows are in the store, a new row as it was taken and an existing one with its
      origin kept; every other row is as it was, and nothing was added. */
  ghost predicate Flushed(before: Store, after: Store, rows: map<string, Session>, done: set<string>) {
    && done <= rows.Keys && after.Keys == before.Keys + done
    && (forall id :: id in done ==> Agrees(after[id], rows[id]))
    && (forall id :: id in done ==> if id in before then SameOrigin(after[id], before[id]) else after[id] == rows[id])
    && (forall id :: id in before && id !in done ==> after[id] == before[id])
  }

  lemma FlushedMore(before: Store, after: Store, rows: map<string, Session>, done: set<string>, id: string)
    requires Flushed(before, after, rows, done) && id in rows && rows[id].id == id && id !in done
    ensures Flushed(before, Upsert(after, rows[id]), rows, done + {id})
  {
  }

  /** Last loop of the flush: upsert the rows, in any order. */
  method WriteRows(before: Store, rows: map<string, Session>) returns (store: Store)
    requires forall id :: id in rows ==> rows[id].id == id
    ensures Flushed(before, store, rows, rows.Keys)
  {
    store := before;
    var todo := rows.Keys;
    assert rows.Keys - todo == {};
    while todo != {}
      invariant todo <= rows.Keys && Flushed(before, store, rows, rows.Keys - todo)
    {
      var id :| id in todo;
      FlushedMore(before, store, rows, rows.Keys - todo, id);
      assert rows.Keys - (todo - {id}) == (rows.Keys - todo) + {id};
      store := Upsert(store, rows[id]);
      todo := todo - {id};
    }
    assert rows.Keys - todo == rows.Keys;
  }

  /** The sessions that are done are clean, and the dirty ones of them are in `rows`. */
  ghost predicate Taking(all: Sessions, ss: Sessions, rows: map<string, Session>, todo: set<string>) {
    && todo <= all.Keys && ss.Keys == all.Keys
    && (forall id :: id in all ==> ss[id] == if id in todo then all[id] else all[id].(dirty := false))
    && (forall id :: id in rows <==> id in all && id !in todo && all[id].dirty)
    && (forall id :: id in rows ==> rows[id] == all[id].session)
  }

  /** One ghost alert for each id, and no other. */
  ghost predicate OneEach(raised: seq<Alert>, ss: Sessions, ids: set<string>) {
    && |raised| == |ids|
    && (forall i :: 0 <= i < |raised| ==> raised[i].GhostAlert? && raised[i].sessionId in ids)
    && (forall i :: 0 <= i < |raised| ==>
          raised[i].sessionId in ss && raised[i].agentId == ss[raised[i].sessionId].session.agentId)
    && (forall i, j :: 0 <= i < j < |raised| ==> raised[i].sessionId != raised[j].sessionId)
  }

  /** The sessions that are done have been treated by `f`, the others not yet. */
  ghost predicate Partway(all: Sessions, ss: Sessions, todo: set<string>, f: (string, Tracked) -> Tracked) {
    && todo <= all.Keys && ss.Keys == all.Keys
    && forall id :: id in all ==> ss[id] == if id in todo then all[id] else f(id, all[id])
  }

  lemma PartwayStep(all: Sessions, ss: Sessions, todo: set<string>, f: (string, Tracked) -> Tracked, id: string)
    requires Partway(all, ss, todo, f) && id in todo
    ensures Partway(all, ss[id := f(id, ss[id])], todo - {id}, f)
  {
  }

  lemma PartwaySkip(all: Sessions, ss: Sessions, todo: set<string>, f: (string, Tracked) -> Tracked, id: string)
    requires Partway(all, ss, todo, f) && id in todo && f(id, ss[id]) == ss[id]
    ensures Partway(all, ss, todo - {id}, f)
  {
  }

  function Expire(cfg: Config, now: int): (string, Tracked) -> Tracked {
    (id: string, t: Tracked) => if Idle(cfg, t, now) then Finish(t, now) else t
  }

  function MarkGhost(cfg: Config, scan: Scan): (string, Tracked) -> Tracked {
    (id: string, t: Tracked) => if Haunts(cfg, t, scan.At(id)) then t.(ghostAlerted := true) else t
  }

  lemma ExpireDone(cfg: Config, all: Sessions, ss: Sessions, now: int)
    requires Partway(all, ss, {}, Expire(cfg, now))
    ensures ss == ExpireOn(cfg, all, now)
  {
  }

  lemma GhostsDone(cfg: Config, all: Sessions, ss: Sessions, scan: Scan)
    requires Partway(all, ss, {}, MarkGhost(cfg, scan))
    ensures ss == GhostsOn(cfg, all, scan)
  {
  }

  /** End every idle session, in any iteration order. */
  method ExpireLoop(cfg: Config, all: Sessions, now: int) returns (ss: Sessions, count: nat)
    requires cfg.sessionTimeout > 0
    ensures ss == ExpireOn(cfg, all, now) && count == |IdleIds(cfg, all, now)|
  {
    hide *;
    ss, count := all, 0;
    var todo := all.Keys;
    ghost var idle := IdleIds(cfg, all, now);
    ExpireStart(cfg, all, now);
    while todo != {}
      invariant Partway(all, ss, todo, Expire(cfg, now)) && count == |idle - todo|
    {
      var id :| id in todo;
      IdleFacts(cfg, all, ss, todo, now, id);
      var ts := ss[id];
      OneMoreDone(idle, todo, id);
      if Idle(cfg, ts, now) {
        PartwayStep(all, ss, todo, Expire(cfg, now), id);
        ss := ss[id := Finish(ts, now)];
        count := count + 1;
      } else {
        PartwaySkip(all, ss, todo, Expire(cfg, now), id);
      }
      todo := todo - {id};
    }
    assert idle - todo == idle;
    ExpireDone(cfg, all, ss, now);
  }

  lemma ExpireStart(cfg: Config, all: Sessions, now: int)
    ensures Partway(all, all, all.Keys, Expire(cfg, now)) && |IdleIds(cfg, all, now) - all.Keys| == 0
  {
    assert IdleIds(cfg, all, now) - all.Keys == {};
  }

  lemma IdleFacts(cfg: Config, all: Sessions, ss: Sessions, todo: set<string>, now: int, id: string)
    requires Partway(all, ss, todo, Expire(cfg, now)) && id in todo
    ensures id in ss && (id in IdleIds(cfg, all, now) <==> Idle(cfg, ss[id], now))
    ensures Expire(cfg, now)(id, ss[id]) == if Idle(cfg, ss[id], now) then Finish(ss[id], now) else ss[id]
  {
  }

  lemma OneEachMore(raised: seq<Alert>, ss: Sessions, ids: set<string>, a: Alert, more: set<string>)
    requires OneEach(raised, ss, ids) && a.GhostAlert? && a.sessionId !in ids && more == ids + {a.sessionId}
    requires a.sessionId in ss && a.agentId == ss[a.sessionId].session.agentId
    ensures OneEach(raised + [a], ss, more)
  {
  }

  lemma GhostFacts(cfg: Config, all: Sessions, ss: Sessions, todo: set<string>, scan: Scan, id: string)
    requires Partway(all, ss, todo, MarkGhost(cfg, scan)) && id in todo
    ensures id in ss && id in all && ss[id] == all[id]
    ensures id in HauntingIds(cfg, all, scan) <==> Haunts(cfg, ss[id], scan.At(id))
    ensures MarkGhost(cfg, scan)(id, ss[id]) == if Haunts(cfg, ss[id], scan.At(id))
            then ss[id].(ghostAlerted := true) else ss[id]
  {
  }

  lemma GhostsStart(cfg: Config, all: Sessions, scan: Scan)
    ensures Partway(all, all, all.Keys, MarkGhost(cfg, scan))
    ensures OneEach([], all, HauntingIds(cfg, all, scan) - all.Keys)
  {
  }

  /** Mark and report every new ghost, in any iteration order. */
  method GhostLoop(cfg: Config, all: Sessions, scan: Scan) returns (ss: Sessions, raised: seq<Alert>)
    requires cfg.ghostMaxAge > 0
    ensures ss == GhostsOn(cfg, all, scan) && OneEach(raised, all, HauntingIds(cfg, all, scan))
  {
    hide *;
    ss, raised := all, [];
    var todo := all.Keys;
    ghost var ghosts := HauntingIds(cfg, all, scan);
    GhostsStart(cfg, all, scan);
    while todo != {}
      invariant Partway(all, ss, todo, MarkGhost(cfg, scan)) && OneEach(raised, all, ghosts - todo)
    {
      var id :| id in todo;
      GhostFacts(cfg, all, ss, todo, scan, id);
      DoneSet(ghosts, todo, id);
      var ts := ss[id];
      if Haunts(cfg, ts, scan.At(id)) {
        PartwayStep(all, ss, todo, MarkGhost(cfg, scan), id);
        ss := ss[id := ts.(ghostAlerted := true)];
        var a := GhostAlert(id, ts.session.agentId);
        OneEachMore(raised, all, ghosts - todo, a, ghosts - (todo - {id}));
        raised := raised + [a];
      } else {
        PartwaySkip(all, ss, todo, MarkGhost(cfg, scan), id);
      }
      todo := todo - {id};
    }
    assert ghosts - todo == ghosts;
    GhostsDone(cfg, all, ss, scan);
  }
}
