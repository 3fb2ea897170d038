/** Whole runs of the session tracker: requests, costs, expiry, ghost scans, and any number
    of flushes at once, whose row writes interleave with everything else. */
module TrackerRuns {
  import opened Common
  import opened LoopDetector
  import opened Tracker

  /** The history: a session started, was called, was charged, or was reported as a ghost
      by a scan. An id that returns after it was forgotten starts again. */
  datatype Item = Started(first: Call) | Called(id: string, call: CallRecord)
                | Charged(id: string, cost: real, tokens: int) | Ghosted(ids: set<string>)

  /** Everything that happened to the current incarnation of a session. */
  datatype Incarnation = Incarnation(first: Option<Call>, calls: seq<CallRecord>, cost: real, tokens: int, ghosts: nat)

  const UNBORN := Incarnation(None, [], 0.0, 0, 0)

  function Apply(h: Incarnation, x: Item, id: string): Incarnation {
    match x
    case Started(c) => if c.id == id then UNBORN.(first := Some(c)) else h
    case Called(i, c) => if i == id then h.(calls := h.calls + [c]) else h
    case Charged(i, cost, tokens) => if i == id then h.(cost := h.cost + cost, tokens := h.tokens + tokens) else h
    case Ghosted(ids) => if id in ids then h.(ghosts := h.ghosts + 1) else h
  }

  function History(log: seq<Item>, id: string): Incarnation {
    if log == [] then UNBORN else Apply(History(log[..|log| - 1], id), log[|log| - 1], id)
  }

  datatype Counts = Counts(started: int, ended: int, repeatedEnds: int, evictedActive: int)

  /** The store, the flushes with their rows that are not yet written (in the order in which
      they took them), and of each id the row taken last and the row written last, with the
      flushes that did so. */
  datatype Rows = Rows(
    store: Store, batches: seq<map<string, Session>>,
    taken: map<string, Session>, tookBy: map<string, nat>, written: map<string, Session>, wroteBy: map<string, nat>)

  /** Memory, rows, the clock, the history and the counters. */
  datatype World = World(ss: Sessions, rows: Rows, clock: int, log: seq<Item>, n: Counts)

  datatype Event =
    | Track(call: Call, victim: string)
    | Cost(id: string, cost: real, tokens: int)
    | End(id: string, now: int)
    | ExpireAll(now: int)
    | GhostScan(scan: Scan)
    | Snapshot
    | Write(batch: nat, id: string)

  function Initial(store: Store, clock: int): World {
    World(map[], Rows(store, [], map[], map[], map[], map[]), clock, [], Counts(0, 0, 0, 0))
  }

  /** Ids are non-empty, the clock does not go back, and the evicted session is an oldest
      one. A flush can start at any time and writes its rows in any order. */
  ghost predicate Enabled(w: World, e: Event) {
    match e
    case Track(c, victim) =>
      && c.id != "" && w.clock <= c.startedAt <= c.calledAt <= c.trimmedAt <= c.checkedAt
      && (NeedsRoom(w.ss, c.id) ==> IsOldest(w.ss, victim))
    case Cost(_, _, _) => true
    case End(_, now) => w.clock <= now
    case ExpireAll(now) => w.clock <= now
    case GhostScan(scan) => w.clock <= scan.end
    case Snapshot => true
    case Write(k, id) => k < |w.rows.batches| && id in w.rows.batches[k]
  }

  function ActiveIds(ss: Sessions): set<string> {
    set id | id in ss && ss[id].session.status == Active
  }

  predicate EvictsActive(ss: Sessions, id: string, victim: string) {
    NeedsRoom(ss, id) && victim in ActiveIds(ss)
  }

  /** Every id with the same number. */
  function All(ids: set<string>, n: nat): map<string, nat> {
    map id | id in ids :: n
  }

  function Step(cfg: Config, w: World, e: Event): World {
    match e
    case Track(c, victim) =>
      var isNew := c.id !in w.ss;
      w.(ss := TrackCallOn(cfg, w.ss, c, victim), clock := c.checkedAt,
         log := (if isNew then w.log + [Started(c)] else w.log)
                + [Called(c.id, CallRecord(c.calledAt, c.model, c.path))],
         n := w.n.(started := w.n.started + (if isNew then 1 else 0),
                   evictedActive := w.n.evictedActive + (if EvictsActive(w.ss, c.id, victim) then 1 else 0)))
    case Cost(id, cost, tokens) =>
      if id in w.ss then w.(ss := RecordCostOn(w.ss, id, cost, tokens), log := w.log + [Charged(id, cost, tokens)])
        else w
    case End(id, now) =>
      var w' := w.(ss := EndSessionOn(w.ss, id, now), clock := now);
      if id !in w.ss then w'
      else if w.ss[id].session.status == Active then w'.(n := w.n.(ended := w.n.ended + 1))
      else w'.(n := w.n.(ended := w.n.ended + 1, repeatedEnds := w.n.repeatedEnds + 1))
    case ExpireAll(now) =>
      w.(ss := ExpireOn(cfg, w.ss, now), clock := now,
         n := w.n.(ended := w.n.ended + |IdleIds(cfg, w.ss, now)|))
    case GhostScan(scan) =>
      w.(ss := GhostsOn(cfg, w.ss, scan), clock := scan.end, log := w.log + [Ghosted(HauntingIds(cfg, w.ss, scan))])
    case Snapshot => w.(ss := AfterSnapshot(w.ss), rows := TakeRows(w.rows, DirtyRows(w.ss)))
    case Write(k, id) => w.(rows := WriteRow(w.rows, k, id))
  }

  /** A flush takes its rows. */
  function TakeRows(r: Rows, dirty: map<string, Session>): Rows {
    r.(batches := r.batches + [dirty], taken := r.taken + dirty, tookBy := r.tookBy + All(dirty.Keys, |r.batches|))
  }

  /** Flush number `k` writes its row of the id. */
  function WriteRow(r: Rows, k: nat, id: string): Rows {
    if k < |r.batches| && id in r.batches[k] then
      r.(store := Upsert(r.store, r.batches[k][id]), batches := r.batches[k := r.batches[k] - {id}],
         written := r.written[id := r.batches[k][id]], wroteBy := r.wroteBy[id := k])
    else r
  }

  /** What an event does to the sessions in memory. */
  function SessionsAfter(cfg: Config, ss: Sessions, e: Event): Sessions {
    match e
    case Track(c, victim) => TrackCallOn(cfg, ss, c, victim)
    case Cost(id, cost, tokens) => RecordCostOn(ss, id, cost, tokens)
    case End(id, now) => EndSessionOn(ss, id, now)
    case ExpireAll(now) => ExpireOn(cfg, ss, now)
    case GhostScan(scan) => GhostsOn(cfg, ss, scan)
    case Snapshot => AfterSnapshot(ss)
    case Write(_, _) => ss
  }

  lemma StepSessions(cfg: Config, w: World, e: Event)
    ensures Step(cfg, w, e).ss == SessionsAfter(cfg, w.ss, e)
  {
    hide TrackCallOn, EndSessionOn, ExpireOn, GhostsOn, AfterSnapshot, AddCost, DirtyRows, IdleIds, HauntingIds,
         EvictsActive, Upsert;
  }

  ghost predicate IsRun(cfg: Config, w: World, es: seq<Event>)
    decreases |es|
  {
    es == [] || (Enabled(w, es[0]) && IsRun(cfg, Step(cfg, w, es[0]), es[1..]))
  }

  function After(cfg: Config, w: World, es: seq<Event>): World
    decreases |es|
  {
    if es == [] then w else After(cfg, Step(cfg, w, es[0]), es[1..])
  }

  // ----- What holds of every tracked session

  /** Ended at some time iff completed; and an ended session still has to be written. */
  predicate Lifecycle(t: Tracked, id: string) {
    && t.session.id == id && id != ""
    && (t.session.endedAt.Some? <==> t.session.status == Completed) && t.session.status != Killed
    && (t.session.status != Active ==> t.dirty)
  }

  /** The session bears the id, agent, user, task and time of the call that started it. */
  predicate StartedBy(s: Session, c: Call) {
    && s.id == c.id && s.agentId == c.agentId && s.userId == c.userId && s.task == c.task
    && s.startedAt == c.startedAt
  }

  /** The totals are the sums over the incarnation, it was reported at most once, and it is
      that of the call that started it. */
  predicate TotalsOk(t: Tracked, h: Incarnation) {
    && t.session.callCount == |h.calls| && t.session.cost == h.cost && t.session.tokens == h.tokens
    && (h.ghosts == if t.ghostAlerted then 1 else 0)
    && h.first.Some? && StartedBy(t.session, h.first.value)
  }

  /** The kept calls are the last ones of the incarnation; the others are out of the window. */
  predicate CallsOk(cfg: Config, calls: seq<CallRecord>, all: seq<CallRecord>, clock: int) {
    && Sorted(all) && (forall i :: 0 <= i < |all| ==> all[i].time <= clock)
    && |calls| <= |all| && calls == all[|all| - |calls|..]
    && forall i :: 0 <= i < |all| - |calls| ==> all[i].time < clock - cfg.loopWindow
  }

  /** A clean session is as it was taken by the newest flush that took it. */
  predicate SavedOk(w: World, id: string, t: Tracked) {
    !t.dirty ==> id in w.rows.taken && w.rows.taken[id] == t.session
  }

  predicate SessionOk(cfg: Config, w: World, id: string)
    requires id in w.ss
  {
    var t, h := w.ss[id], History(w.log, id);
    Lifecycle(t, id) && TotalsOk(t, h) && CallsOk(cfg, t.calls, h.calls, w.clock) && SavedOk(w, id, t)
  }

  ghost predicate AllOk(cfg: Config, w: World) {
    forall id :: id in w.ss ==> SessionOk(cfg, w, id)
  }

  /** No flush still has to write the id. */
  predicate Settled(w: World, id: string) {
    forall k :: 0 <= k < |w.rows.batches| ==> id !in w.rows.batches[k]
  }

  /** Batch `k` is the newest that still has to write the id. */
  predicate NewestOf(w: World, id: string, k: nat) {
    k < |w.rows.batches| && id in w.rows.batches[k] && forall j :: k < j < |w.rows.batches| ==> id !in w.rows.batches[j]
  }

  /** A row knows its id and is of an id that was taken. */
  predicate RowOk(w: World, k: nat, id: string)
    requires k < |w.rows.batches|
  {
    id in w.rows.batches[k] ==> w.rows.batches[k][id].id == id && id in w.rows.taken
  }

  ghost predicate BatchesOk(w: World) {
    forall k: nat, id :: k < |w.rows.batches| ==> RowOk(w, k, id)
  }

  /** The newest row of an id is the last to be written, and once it is written the store
      shows it. */
  ghost predicate RowsOk(w: World) {
    && (forall k: nat, id :: NewestOf(w, id, k) ==> id in w.rows.taken && w.rows.batches[k][id] == w.rows.taken[id])
    && (forall id :: id in w.rows.taken && Settled(w, id) ==>
          id in w.rows.store && Agrees(w.rows.store[id], w.rows.taken[id]))
  }

  predicate MetricsOk(w: World) {
    && |w.ss| <= MAX_SESSIONS
    && w.n.started - w.n.ended == |ActiveIds(w.ss)| + w.n.evictedActive - w.n.repeatedEnds
  }

  ghost predicate Inv(cfg: Config, w: World) {
    AllOk(cfg, w) && BatchesOk(w)
  }

  // ----- Histories

  lemma HistorySnoc(log: seq<Item>, x: Item, id: string)
    ensures History(log + [x], id) == Apply(History(log, id), x, id)
  {
    hide Apply;
    assert (log + [x])[..|log|] == log;
  }

  lemma CallsOkLater(cfg: Config, calls: seq<CallRecord>, all: seq<CallRecord>, clock: int, later: int)
    requires CallsOk(cfg, calls, all, clock) && clock <= later
    ensures CallsOk(cfg, calls, all, later)
  {
  }

  lemma CallsOkAppend(cfg: Config, calls: seq<CallRecord>, all: seq<CallRecord>, clock: int, c: CallRecord)
    requires CallsOk(cfg, calls, all, clock) && clock <= c.time
    ensures CallsOk(cfg, calls + [c], all + [c], c.time)
  {
  }

  lemma CallsOkTrim(cfg: Config, calls: seq<CallRecord>, all: seq<CallRecord>, clock: int, now: int)
    requires CallsOk(cfg, calls, all, clock) && clock <= now
    ensures CallsOk(cfg, Trim(cfg, calls, now), all, now)
  {
  }

  // ----- Each event keeps every session in order

  lemma OtherSessionKept(cfg: Config, w: World, w': World, id: string)
    requires id in w.ss && id in w'.ss && w'.ss[id] == w.ss[id] && SessionOk(cfg, w, id)
    requires History(w'.log, id) == History(w.log, id) && w.clock <= w'.clock
    requires w'.rows.taken == w.rows.taken
    ensures SessionOk(cfg, w', id)
  {
  }

  lemma TrackHistory(cfg: Config, w: World, c: Call, victim: string, id: string)
    ensures var w' := Step(cfg, w, Track(c, victim));
            var before := if c.id in w.ss then History(w.log, c.id) else UNBORN.(first := Some(c));
            History(w'.log, id) == if id == c.id then before.(calls := before.calls + [RecordOf(c)])
              else History(w.log, id)
  {
    hide History, TrackCallOn;
    var log1 := if c.id !in w.ss then w.log + [Started(c)] else w.log;
    HistorySnoc(w.log, Started(c), id);
    HistorySnoc(log1, Called(c.id, RecordOf(c)), id);
  }

  lemma {:induction false} TrackedSessionOk(cfg: Config, w: World, c: Call, victim: string)
    requires AllOk(cfg, w) && Enabled(w, Track(c, victim))
    ensures c.id in Step(cfg, w, Track(c, victim)).ss && SessionOk(cfg, Step(cfg, w, Track(c, victim)), c.id)
  {
    hide *;
    var w' := Step(cfg, w, Track(c, victim));
    var t := if c.id in w.ss then w.ss[c.id] else NewSession(c);
    var h := if c.id in w.ss then History(w.log, c.id) else UNBORN.(first := Some(c));
    TrackHistory(cfg, w, c, victim, c.id);
    TrackFacts(cfg, w, c, victim);
    BeforeTrack(cfg, w, c, victim);
    TrackedCallsOk(cfg, t.calls, h.calls, w.clock, c);
    AddedOk(cfg, w', t, h, c);
  }

  lemma TrackFacts(cfg: Config, w: World, c: Call, victim: string)
    ensures var w' := Step(cfg, w, Track(c, victim));
            && c.id in w'.ss && w'.clock == c.checkedAt
            && w'.ss[c.id] == AddCall(cfg, if c.id in w.ss then w.ss[c.id] else NewSession(c), c)
  {
    hide AddCall, NewSession, MakeRoom, EvictsActive;
  }

  /** The session as the call finds it, or as a new one starts. */
  lemma BeforeTrack(cfg: Config, w: World, c: Call, victim: string)
    requires AllOk(cfg, w) && Enabled(w, Track(c, victim))
    ensures var t := if c.id in w.ss then w.ss[c.id] else NewSession(c);
            var h := if c.id in w.ss then History(w.log, c.id) else UNBORN.(first := Some(c));
            && Lifecycle(t.(dirty := true), c.id) && TotalsOk(t, h) && CallsOk(cfg, t.calls, h.calls, w.clock)
            && w.clock <= c.calledAt <= c.trimmedAt <= c.checkedAt
  {
    if c.id in w.ss {
      OkOf(cfg, w, c.id);
    }
    hide AllOk, History, SavedOk, IsOldest;
  }

  lemma AddedOk(cfg: Config, w': World, t: Tracked, h: Incarnation, c: Call)
    requires Lifecycle(t.(dirty := true), c.id) && TotalsOk(t, h) && c.id in w'.ss && w'.ss[c.id] == AddCall(cfg, t, c)
    requires History(w'.log, c.id) == h.(calls := h.calls + [RecordOf(c)])
    requires CallsOk(cfg, Trim(cfg, t.calls + [RecordOf(c)], c.trimmedAt), h.calls + [RecordOf(c)], w'.clock)
    ensures SessionOk(cfg, w', c.id)
  {
    hide CallsOk, History, Trim;
  }

  lemma TrackedCallsOk(cfg: Config, calls: seq<CallRecord>, all: seq<CallRecord>, clock: int, c: Call)
    requires CallsOk(cfg, calls, all, clock) && clock <= c.calledAt <= c.trimmedAt <= c.checkedAt
    ensures CallsOk(cfg, Trim(cfg, calls + [RecordOf(c)], c.trimmedAt), all + [RecordOf(c)], c.checkedAt)
  {
    CallsOkAppend(cfg, calls, all, clock, RecordOf(c));
    CallsOkTrim(cfg, calls + [RecordOf(c)], all + [RecordOf(c)], c.calledAt, c.trimmedAt);
    CallsOkLater(cfg, Trim(cfg, calls + [RecordOf(c)], c.trimmedAt), all + [RecordOf(c)], c.trimmedAt, c.checkedAt);
  }

  lemma TrackKeepsAll(cfg: Config, w: World, c: Call, victim: string)
    requires AllOk(cfg, w) && Enabled(w, Track(c, victim))
    ensures AllOk(cfg, Step(cfg, w, Track(c, victim)))
  {
    var w' := Step(cfg, w, Track(c, victim));
    forall id | id in w'.ss
      ensures SessionOk(cfg, w', id)
    {
      TrackHistory(cfg, w, c, victim, id);
      if id == c.id {
        TrackedSessionOk(cfg, w, c, victim);
      } else {
        OtherSessionKept(cfg, w, w', id);
      }
    }
  }

  lemma CostKeeps(cfg: Config, w: World, id: string, cost: real, tokens: int, k: string)
    requires k in w.ss && SessionOk(cfg, w, k)
    ensures k in Step(cfg, w, Cost(id, cost, tokens)).ss && SessionOk(cfg, Step(cfg, w, Cost(id, cost, tokens)), k)
  {
    hide *;
    var w' := Step(cfg, w, Cost(id, cost, tokens));
    CostFacts(cfg, w, id, cost, tokens);
    if id in w.ss {
      CostHistory(cfg, w, id, cost, tokens, k);
      if k == id {
        ChargedOk(cfg, w, w', id, cost, tokens);
      } else {
        OtherSessionKept(cfg, w, w', k);
      }
    }
  }

  lemma OkOf(cfg: Config, w: World, id: string)
    requires AllOk(cfg, w) && id in w.ss
    ensures SessionOk(cfg, w, id)
  {
  }

  lemma AllOf(cfg: Config, w: World)
    requires forall id :: id in w.ss ==> SessionOk(cfg, w, id)
    ensures AllOk(cfg, w)
  {
  }

  lemma CostFacts(cfg: Config, w: World, id: string, cost: real, tokens: int)
    ensures var w' := Step(cfg, w, Cost(id, cost, tokens));
            && w'.rows.taken == w.rows.taken && w'.clock == w.clock && w'.ss.Keys == w.ss.Keys
            && (id in w.ss ==> w'.ss[id] == AddCost(w.ss[id], cost, tokens))
            && (id !in w.ss ==> w' == w)
            && forall k :: k in w.ss && k != id ==> w'.ss[k] == w.ss[k]
  {
  }

  lemma CostHistory(cfg: Config, w: World, id: string, cost: real, tokens: int, k: string)
    requires id in w.ss
    ensures var h, h' := History(w.log, k), History(Step(cfg, w, Cost(id, cost, tokens)).log, k);
            h' == if k == id then h.(cost := h.cost + cost, tokens := h.tokens + tokens) else h
  {
    hide History, RecordCostOn;
    HistorySnoc(w.log, Charged(id, cost, tokens), k);
  }

  lemma ChargedOk(cfg: Config, w: World, w': World, id: string, cost: real, tokens: int)
    requires id in w.ss && SessionOk(cfg, w, id) && id in w'.ss && w'.ss[id] == AddCost(w.ss[id], cost, tokens)
    requires w'.clock == w.clock
    requires var h := History(w.log, id);
             History(w'.log, id) == h.(cost := h.cost + cost, tokens := h.tokens + tokens)
    ensures SessionOk(cfg, w', id)
  {
  }

  lemma EndKeeps(cfg: Config, w: World, id: string, now: int, k: string)
    requires Enabled(w, End(id, now)) && k in w.ss && SessionOk(cfg, w, k)
    ensures k in Step(cfg, w, End(id, now)).ss && SessionOk(cfg, Step(cfg, w, End(id, now)), k)
  {
    hide *;
    var w' := Step(cfg, w, End(id, now));
    EndFacts(cfg, w, id, now);
    if k == id {
      FinishedOk(cfg, w, w', k, now);
    } else {
      OtherSessionKept(cfg, w, w', k);
    }
  }

  lemma EndFacts(cfg: Config, w: World, id: string, now: int)
    requires Enabled(w, End(id, now))
    ensures var w' := Step(cfg, w, End(id, now));
            && w'.rows == w.rows && w.clock <= w'.clock && w'.log == w.log
            && w'.ss.Keys == w.ss.Keys && (id in w.ss ==> w'.ss[id] == Finish(w.ss[id], now))
            && forall k :: k in w.ss && k != id ==> w'.ss[k] == w.ss[k]
  {
    hide Finish;
  }

  lemma FinishedOk(cfg: Config, w: World, w': World, id: string, now: int)
    requires id in w.ss && SessionOk(cfg, w, id) && id in w'.ss && w'.ss[id] == Finish(w.ss[id], now)
    requires w'.log == w.log && w.clock <= w'.clock
    ensures SessionOk(cfg, w', id)
  {
  }

  lemma ExpireKeepsAll(cfg: Config, w: World, now: int)
    requires AllOk(cfg, w) && Enabled(w, ExpireAll(now))
    ensures AllOk(cfg, Step(cfg, w, ExpireAll(now)))
  {
    var w' := Step(cfg, w, ExpireAll(now));
    forall k | k in w'.ss
      ensures SessionOk(cfg, w', k)
    {
      assert SessionOk(cfg, w, k);
      if Idle(cfg, w.ss[k], now) {
        FinishedOk(cfg, w, w', k, now);
      } else {
        OtherSessionKept(cfg, w, w', k);
      }
    }
  }

  lemma GhostsFacts(cfg: Config, w: World, scan: Scan)
    requires Enabled(w, GhostScan(scan))
    ensures var w' := Step(cfg, w, GhostScan(scan));
            && w'.ss == GhostsOn(cfg, w.ss, scan) && w'.rows.taken == w.rows.taken && w.clock <= w'.clock
            && w'.log == w.log + [Ghosted(HauntingIds(cfg, w.ss, scan))]
  {
    hide GhostsOn, HauntingIds;
  }

  lemma {:induction false} GhostsKeepAll(cfg: Config, w: World, scan: Scan)
    requires AllOk(cfg, w) && Enabled(w, GhostScan(scan))
    ensures AllOk(cfg, Step(cfg, w, GhostScan(scan)))
  {
    var w' := Step(cfg, w, GhostScan(scan));
    GhostsFacts(cfg, w, scan);
    hide Step, AllOk, SessionOk, Haunts, History;
    forall k | k in w'.ss
      ensures SessionOk(cfg, w', k)
    {
      OkOf(cfg, w, k);
      HistorySnoc(w.log, Ghosted(HauntingIds(cfg, w.ss, scan)), k);
      if !Haunts(cfg, w.ss[k], scan.At(k)) {
        OtherSessionKept(cfg, w, w', k);
      } else {
        HauntsNew(cfg, w.ss[k], scan.At(k));
        GhostedOk(cfg, w, w', k);
      }
    }
    AllOf(cfg, w');
  }

  lemma HauntsNew(cfg: Config, t: Tracked, now: int)
    requires Haunts(cfg, t, now)
    ensures !t.ghostAlerted
  {
  }

  lemma GhostedOk(cfg: Config, w: World, w': World, id: string)
    requires id in w.ss && SessionOk(cfg, w, id) && !w.ss[id].ghostAlerted
    requires id in w'.ss && w'.ss[id] == w.ss[id].(ghostAlerted := true) && w.clock <= w'.clock
    requires History(w'.log, id) == History(w.log, id).(ghosts := History(w.log, id).ghosts + 1)
    requires w'.rows.taken == w.rows.taken
    ensures SessionOk(cfg, w', id)
  {
  }

  lemma SnapshotKeeps(cfg: Config, w: World, k: string)
    requires k in w.ss && k in Step(cfg, w, Snapshot).ss && SessionOk(cfg, w, k)
    ensures SessionOk(cfg, Step(cfg, w, Snapshot), k)
  {
    hide *;
    SnapshotFacts(cfg, w, k);
    CleanedOk(cfg, w, Step(cfg, w, Snapshot), k);
  }

  lemma SnapshotFacts(cfg: Config, w: World, k: string)
    requires k in Step(cfg, w, Snapshot).ss
    ensures var w' := Step(cfg, w, Snapshot);
            && k in w.ss && w'.ss[k] == w.ss[k].(dirty := false) && w'.log == w.log && w'.clock == w.clock
            && (w.ss[k].dirty ==> k in w'.rows.taken && w'.rows.taken[k] == w.ss[k].session)
            && (!w.ss[k].dirty && k in w.rows.taken ==> k in w'.rows.taken && w'.rows.taken[k] == w.rows.taken[k])
            && w.ss[k].session.status == Active
  {
  }

  lemma CleanedOk(cfg: Config, w: World, w': World, k: string)
    requires k in w.ss && SessionOk(cfg, w, k) && k in w'.ss && w'.ss[k] == w.ss[k].(dirty := false) && w'.log == w.log
    requires w'.clock == w.clock && w.ss[k].session.status == Active
    requires w.ss[k].dirty ==> k in w'.rows.taken && w'.rows.taken[k] == w.ss[k].session
    requires !w.ss[k].dirty && k in w.rows.taken ==> k in w'.rows.taken && w'.rows.taken[k] == w.rows.taken[k]
    ensures SessionOk(cfg, w', k)
  {
    hide CallsOk, History;
  }

  lemma WriteKeepsAll(cfg: Config, w: World, k: nat, id: string)
    requires AllOk(cfg, w)
    ensures AllOk(cfg, Step(cfg, w, Write(k, id)))
  {
    var w' := Step(cfg, w, Write(k, id));
    hide CallsOk, TotalsOk, History, Lifecycle;
    forall i | i in w'.ss
      ensures SessionOk(cfg, w', i)
    {
      assert SessionOk(cfg, w, i);
    }
  }

  // ----- Rows

  lemma BatchesKept(cfg: Config, w: World, e: Event)
    requires AllOk(cfg, w) && BatchesOk(w)
    ensures BatchesOk(Step(cfg, w, e))
  {
    var w' := Step(cfg, w, e);
    if e.Snapshot? {
      SnapshotBatches(cfg, w);
    } else {
      StepFrame(cfg, w, e);
      hide Step, AllOk, Upsert;
      forall k: nat, id | k < |w'.rows.batches|
        ensures RowOk(w', k, id)
      {
        assert RowOk(w, k, id);
      }
    }
  }

  lemma SnapshotBatches(cfg: Config, w: World)
    requires AllOk(cfg, w) && BatchesOk(w)
    ensures BatchesOk(Step(cfg, w, Snapshot))
  {
    hide AllOk, SessionOk, AfterSnapshot;
    var w' := Step(cfg, w, Snapshot);
    forall k: nat, id | k < |w'.rows.batches|
      ensures RowOk(w', k, id)
    {
      if k < |w.rows.batches| {
        assert RowOk(w, k, id);
      } else if id in DirtyRows(w.ss) {
        OkOf(cfg, w, id);
        OkId(cfg, w, id);
      }
    }
  }

  lemma OkId(cfg: Config, w: World, id: string)
    requires id in w.ss && SessionOk(cfg, w, id)
    ensures w.ss[id].session.id == id
  {
    hide TotalsOk, CallsOk, SavedOk, History;
  }

  /** What an event other than a snapshot does to the rows. */
  lemma StepFrame(cfg: Config, w: World, e: Event)
    requires !e.Snapshot?
    ensures var w' := Step(cfg, w, e);
            && w'.rows.taken == w.rows.taken && w'.rows.tookBy == w.rows.tookBy
            && (!e.Write? || !Enabled(w, e) ==>
                  w'.rows.batches == w.rows.batches && w'.rows.store == w.rows.store
                    && w'.rows.written == w.rows.written && w'.rows.wroteBy == w.rows.wroteBy)
            && (e.Write? && Enabled(w, e) ==>
                  && w'.rows.written == w.rows.written[e.id := w.rows.batches[e.batch][e.id]]
                  && w'.rows.wroteBy == w.rows.wroteBy[e.id := e.batch]
                  && w'.rows.store == Upsert(w.rows.store, w.rows.batches[e.batch][e.id])
                  && w'.rows.batches == w.rows.batches[e.batch := w.rows.batches[e.batch] - {e.id}])
  {
    hide TrackCallOn, RecordCostOn, EndSessionOn, ExpireOn, GhostsOn, IdleIds, HauntingIds, Upsert, EvictsActive;
  }

  /** A row is written only when no older flush still has to write the same id. */
  ghost predicate InOrder(w: World, e: Event) {
    e.Write? ==> forall j :: 0 <= j < e.batch && j < |w.rows.batches| ==> e.id !in w.rows.batches[j]
  }

  ghost predicate InOrderRun(cfg: Config, w: World, es: seq<Event>)
    decreases |es|
  {
    es == [] || (InOrder(w, es[0]) && InOrderRun(cfg, Step(cfg, w, es[0]), es[1..]))
  }

  lemma {:induction false} SnapshotRows(w: World, w': World)
    requires RowsOk(w) && w'.rows.batches == w.rows.batches + [DirtyRows(w.ss)]
             && w'.rows.taken == w.rows.taken + DirtyRows(w.ss) && w'.rows.store == w.rows.store
    ensures RowsOk(w')
  {
    var n := |w.rows.batches|;
    forall k: nat, id | NewestOf(w', id, k)
      ensures id in w'.rows.taken && w'.rows.batches[k][id] == w'.rows.taken[id]
    {
      if k < n {
        assert id !in w'.rows.batches[n];
        assert NewestOf(w, id, k) by {
          assert forall j :: 0 <= j < n ==> w'.rows.batches[j] == w.rows.batches[j];
        }
      }
    }
    forall id | id in w'.rows.taken && Settled(w', id)
      ensures id in w'.rows.store && Agrees(w'.rows.store[id], w'.rows.taken[id])
    {
      assert id !in w'.rows.batches[n];
      assert Settled(w, id) by {
        assert forall j :: 0 <= j < n ==> w'.rows.batches[j] == w.rows.batches[j];
      }
    }
  }

  /** `w'` is `w` after batch `k` wrote its row of `id`. */
  ghost predicate Wrote(w: World, w': World, k: nat, id: string) {
    && k < |w.rows.batches| && id in w.rows.batches[k] && w.rows.batches[k][id].id == id && id in w.rows.taken
    && w'.rows.taken == w.rows.taken && w'.rows.store == Upsert(w.rows.store, w.rows.batches[k][id])
    && w'.rows.batches == w.rows.batches[k := w.rows.batches[k] - {id}]
  }

  lemma WroteOthers(w: World, w': World, k: nat, id: string, other: string)
    requires Wrote(w, w', k, id) && other != id
    ensures forall j :: 0 <= j < |w.rows.batches| ==> (other in w'.rows.batches[j] <==> other in w.rows.batches[j])
    ensures forall j :: 0 <= j < |w.rows.batches| && other in w.rows.batches[j] ==>
            w'.rows.batches[j][other] == w.rows.batches[j][other]
    ensures other in w'.rows.store <==> other in w.rows.store
    ensures other in w.rows.store ==> w'.rows.store[other] == w.rows.store[other]
  {
  }

  lemma WroteThis(w: World, w': World, k: nat, id: string)
    requires Wrote(w, w', k, id)
    ensures id !in w'.rows.batches[k] && id in w'.rows.store && Agrees(w'.rows.store[id], w.rows.batches[k][id])
    ensures forall j :: 0 <= j < |w.rows.batches| && j != k ==> w'.rows.batches[j] == w.rows.batches[j]
  {
  }

  lemma WriteRowsOk(w: World, w': World, k: nat, id: string)
    requires RowsOk(w) && Wrote(w, w', k, id) && (forall j :: 0 <= j < k ==> id !in w.rows.batches[j])
    ensures RowsOk(w')
  {
    WroteThis(w, w', k, id);
    forall j: nat, i | NewestOf(w', i, j)
      ensures i in w'.rows.taken && w'.rows.batches[j][i] == w'.rows.taken[i]
    {
      if i != id {
        WroteOthers(w, w', k, id, i);
      }
      assert NewestOf(w, i, j);
    }
    forall i | i in w'.rows.taken && Settled(w', i)
      ensures i in w'.rows.store && Agrees(w'.rows.store[i], w'.rows.taken[i])
    {
      if i == id {
        assert NewestOf(w, id, k);
      } else {
        WroteOthers(w, w', k, id, i);
        assert Settled(w, i);
      }
    }
  }

  lemma RowsKept(cfg: Config, w: World, e: Event)
    requires Enabled(w, e) && BatchesOk(w) && RowsOk(w) && InOrder(w, e)
    ensures RowsOk(Step(cfg, w, e))
  {
    var w' := Step(cfg, w, e);
    if e.Snapshot? {
      hide RowsOk, DirtyRows, AfterSnapshot;
      SnapshotRows(w, w');
    } else {
      StepFrame(cfg, w, e);
      hide Step, RowsOk, Upsert;
      if e.Write? {
        assert RowOk(w, e.batch, e.id);
        WriteRowsOk(w, w', e.batch, e.id);
      } else {
        SameRows(w, w');
      }
    }
  }

  lemma SameRows(w: World, w': World)
    requires RowsOk(w) && w'.rows.batches == w.rows.batches && w'.rows.taken == w.rows.taken
             && w'.rows.store == w.rows.store
    ensures RowsOk(w')
  {
    forall k: nat, id | NewestOf(w', id, k)
      ensures id in w'.rows.taken && w'.rows.batches[k][id] == w'.rows.taken[id]
    {
      assert NewestOf(w, id, k);
    }
    forall id | id in w'.rows.taken && Settled(w', id)
      ensures id in w'.rows.store && Agrees(w'.rows.store[id], w'.rows.taken[id])
    {
      assert Settled(w, id);
    }
  }

  // ----- Counting

  lemma TrackCounts(cfg: Config, w: World, c: Call, victim: string)
    requires MetricsOk(w) && "" !in w.ss && Enabled(w, Track(c, victim))
    ensures MetricsOk(Step(cfg, w, Track(c, victim)))
  {
    hide *;
    var w' := Step(cfg, w, Track(c, victim));
    TrackNumbers(cfg, w, c, victim);
    MetricsMeaning(w);
    MetricsMeaning(w');
    if c.id in w.ss {
      TrackSame(cfg, w.ss, c, victim);
    } else {
      RoomCounts(w, c, victim);
      NewIsActive(cfg, c);
      InsertCounts(MakeRoom(w.ss, c.id, victim), c.id, AddCall(cfg, NewSession(c), c));
    }
  }

  lemma MetricsMeaning(w: World)
    ensures MetricsOk(w) <==> |w.ss| <= MAX_SESSIONS
                              && w.n.started - w.n.ended == |ActiveIds(w.ss)| + w.n.evictedActive - w.n.repeatedEnds
  {
  }

  lemma TrackNumbers(cfg: Config, w: World, c: Call, victim: string)
    ensures var w' := Step(cfg, w, Track(c, victim));
            && w'.n.ended == w.n.ended && w'.n.repeatedEnds == w.n.repeatedEnds
            && w'.n.started == w.n.started + (if c.id in w.ss then 0 else 1)
            && w'.n.evictedActive == w.n.evictedActive + (if EvictsActive(w.ss, c.id, victim) then 1 else 0)
            && w'.ss == TrackCallOn(cfg, w.ss, c, victim)
            && (c.id !in w.ss ==> w'.ss == MakeRoom(w.ss, c.id, victim)[c.id := AddCall(cfg, NewSession(c), c)])
  {
  }

  lemma NewIsActive(cfg: Config, c: Call)
    ensures AddCall(cfg, NewSession(c), c).session.status == Active
  {
  }

  lemma TrackSame(cfg: Config, ss: Sessions, c: Call, victim: string)
    requires c.id in ss
    ensures |TrackCallOn(cfg, ss, c, victim)| == |ss| && ActiveIds(TrackCallOn(cfg, ss, c, victim)) == ActiveIds(ss)
    ensures !EvictsActive(ss, c.id, victim)
  {
  }

  lemma ReplaceCounts(ss: Sessions, id: string, t: Tracked)
    requires id in ss
    ensures |ss[id := t]| == |ss|
    ensures ActiveIds(ss[id := t]) == if t.session.status == Active then ActiveIds(ss) + {id} else ActiveIds(ss) - {id}
    ensures ss[id].session.status == Active <==> id in ActiveIds(ss)
  {
  }

  /** There is room for one more, and an evicted active session is one active session less. */
  lemma {:induction false} RoomCounts(w: World, c: Call, victim: string)
    requires MetricsOk(w) && "" !in w.ss && Enabled(w, Track(c, victim)) && c.id !in w.ss
    ensures var room := MakeRoom(w.ss, c.id, victim);
            && c.id !in room && |room| < MAX_SESSIONS
            && |ActiveIds(room)| == |ActiveIds(w.ss)| - if EvictsActive(w.ss, c.id, victim) then 1 else 0
  {
    if NeedsRoom(w.ss, c.id) {
      RemoveCounts(w.ss, victim);
    }
  }

  lemma RemoveCounts(ss: Sessions, id: string)
    requires id in ss
    ensures |ss - {id}| == |ss| - 1
    ensures |ActiveIds(ss - {id})| == |ActiveIds(ss)| - if id in ActiveIds(ss) then 1 else 0
  {
    assert (ss - {id}).Keys == ss.Keys - {id};
    assert ActiveIds(ss - {id}) == ActiveIds(ss) - {id};
  }

  lemma InsertCounts(ss: Sessions, id: string, t: Tracked)
    requires id !in ss && t.session.status == Active
    ensures |ss[id := t]| == |ss| + 1 && |ActiveIds(ss[id := t])| == |ActiveIds(ss)| + 1
  {
    assert ss[id := t].Keys == ss.Keys + {id};
    assert ActiveIds(ss[id := t]) == ActiveIds(ss) + {id};
  }

  lemma EndCounts(cfg: Config, w: World, id: string, now: int)
    requires MetricsOk(w)
    ensures MetricsOk(Step(cfg, w, End(id, now)))
  {
    if id in w.ss {
      hide History, RecordCostOn, TrackCallOn, GhostsOn, ExpireOn, ActiveIds;
      ReplaceCounts(w.ss, id, Finish(w.ss[id], now));
    }
  }

  lemma ExpireCounts(cfg: Config, w: World, now: int)
    requires MetricsOk(w)
    ensures MetricsOk(Step(cfg, w, ExpireAll(now)))
  {
    hide *;
    var w' := Step(cfg, w, ExpireAll(now));
    MetricsMeaning(w);
    MetricsMeaning(w');
    ExpireNumbers(cfg, w, now);
    ExpireActive(cfg, w.ss, now);
  }

  lemma ExpireNumbers(cfg: Config, w: World, now: int)
    ensures var w' := Step(cfg, w, ExpireAll(now));
            && w'.n.started == w.n.started && w'.n.ended == w.n.ended + |IdleIds(cfg, w.ss, now)|
            && w'.n.repeatedEnds == w.n.repeatedEnds && w'.n.evictedActive == w.n.evictedActive
            && w'.ss == ExpireOn(cfg, w.ss, now)
  {
  }

  lemma ExpireActive(cfg: Config, ss: Sessions, now: int)
    ensures |ExpireOn(cfg, ss, now)| == |ss|
    ensures |ActiveIds(ExpireOn(cfg, ss, now))| == |ActiveIds(ss)| - |IdleIds(cfg, ss, now)|
  {
    var ss', idle := ExpireOn(cfg, ss, now), IdleIds(cfg, ss, now);
    assert ss'.Keys == ss.Keys;
    assert ActiveIds(ss') == ActiveIds(ss) - idle && idle <= ActiveIds(ss);
  }

  lemma SameActiveCounts(w: World, w': World)
    requires MetricsOk(w) && ActiveIds(w'.ss) == ActiveIds(w.ss) && w'.ss.Keys <= w.ss.Keys
    requires w'.n == w.n
    ensures MetricsOk(w')
  {
    SubsetSize(w'.ss.Keys, w.ss.Keys);
  }

  lemma SubsetSize(a: set<string>, b: set<string>)
    requires a <= b
    ensures |a| <= |b|
  {
    assert b == a + (b - a);
  }

  lemma OtherCounts(cfg: Config, w: World, e: Event)
    requires MetricsOk(w) && (e.Cost? || e.GhostScan? || e.Snapshot? || e.Write?)
    ensures MetricsOk(Step(cfg, w, e))
  {
    var w' := Step(cfg, w, e);
    hide MetricsOk, Upsert, HauntingIds, ActiveIds, GhostsOn, AfterSnapshot, DirtyRows, AddCost;
    if e.Cost? && e.id in w.ss {
      ReplaceCounts(w.ss, e.id, AddCost(w.ss[e.id], e.cost, e.tokens));
      ChargedStatus(w.ss[e.id], e.cost, e.tokens);
      assert w'.ss.Keys == w.ss.Keys;
      assert e.id in ActiveIds(w.ss) ==> ActiveIds(w.ss) + {e.id} == ActiveIds(w.ss);
      assert e.id !in ActiveIds(w.ss) ==> ActiveIds(w.ss) - {e.id} == ActiveIds(w.ss);
    } else if e.GhostScan? {
      GhostsActive(cfg, w.ss, e.scan);
    } else if e.Snapshot? {
      SnapshotActive(w.ss);
    }
    SameActiveCounts(w, w');
  }

  lemma ChargedStatus(t: Tracked, cost: real, tokens: int)
    ensures AddCost(t, cost, tokens).session.status == t.session.status
  {
  }

  lemma GhostsActive(cfg: Config, ss: Sessions, scan: Scan)
    ensures ActiveIds(GhostsOn(cfg, ss, scan)) == ActiveIds(ss) && GhostsOn(cfg, ss, scan).Keys == ss.Keys
  {
    hide Haunts;
  }

  lemma SnapshotActive(ss: Sessions)
    ensures ActiveIds(AfterSnapshot(ss)) == ActiveIds(ss) && AfterSnapshot(ss).Keys <= ss.Keys
  {
  }

  // ----- Whole runs

  lemma InvStep(cfg: Config, w: World, e: Event)
    requires Inv(cfg, w) && Enabled(w, e)
    ensures Inv(cfg, Step(cfg, w, e))
  {
    hide *;
    InvParts(cfg, w);
    match e {
      case Track(c, victim) => TrackKeepsAll(cfg, w, c, victim);
      case ExpireAll(now) => ExpireKeepsAll(cfg, w, now);
      case GhostScan(scan) => GhostsKeepAll(cfg, w, scan);
      case Write(k, id) => WriteKeepsAll(cfg, w, k, id);
      case _ =>
        forall k | k in Step(cfg, w, e).ss
          ensures SessionOk(cfg, Step(cfg, w, e), k)
        {
          SameIds(cfg, w, e, k);
          OkOf(cfg, w, k);
          match e
          case Cost(id, cost, tokens) => CostKeeps(cfg, w, id, cost, tokens, k);
          case End(id, now) => EndKeeps(cfg, w, id, now, k);
          case Snapshot => SnapshotKeeps(cfg, w, k);
        }
        AllOf(cfg, Step(cfg, w, e));
    }
    BatchesKept(cfg, w, e);
    InvOf(cfg, Step(cfg, w, e));
  }

  lemma SameIds(cfg: Config, w: World, e: Event, k: string)
    requires (e.Cost? || e.End? || e.Snapshot?) && k in Step(cfg, w, e).ss
    ensures k in w.ss
  {
    StepSessions(cfg, w, e);
    hide Step, Finish, AddCost;
  }

  /** Each event keeps the balance, and never brings in an empty id. */
  lemma CountsStep(cfg: Config, w: World, e: Event)
    requires MetricsOk(w) && "" !in w.ss && Enabled(w, e)
    ensures MetricsOk(Step(cfg, w, e)) && "" !in Step(cfg, w, e).ss
  {
    hide *;
    NoEmptyId(cfg, w, e);
    match e {
      case Track(c, victim) => TrackCounts(cfg, w, c, victim);
      case End(id, now) => EndCounts(cfg, w, id, now);
      case ExpireAll(now) => ExpireCounts(cfg, w, now);
      case Cost(_, _, _) => OtherCounts(cfg, w, e);
      case GhostScan(_) => OtherCounts(cfg, w, e);
      case Snapshot => OtherCounts(cfg, w, e);
      case Write(_, _) => OtherCounts(cfg, w, e);
    }
  }

  lemma NoEmptyId(cfg: Config, w: World, e: Event)
    requires "" !in w.ss && Enabled(w, e)
    ensures "" !in Step(cfg, w, e).ss
  {
    StepSessions(cfg, w, e);
    hide Step, AddCall, Finish, AddCost, Idle, Haunts;
  }

  lemma {:induction false} RunCounts(cfg: Config, w: World, es: seq<Event>)
    requires MetricsOk(w) && "" !in w.ss && IsRun(cfg, w, es)
    ensures MetricsOk(After(cfg, w, es))
    decreases |es|
  {
    if es != [] {
      hide MetricsOk, Enabled, Step;
      CountsStep(cfg, w, es[0]);
      RunCounts(cfg, Step(cfg, w, es[0]), es[1..]);
    }
  }

  lemma InvParts(cfg: Config, w: World)
    requires Inv(cfg, w)
    ensures AllOk(cfg, w) && BatchesOk(w)
  {
  }

  lemma InvOf(cfg: Config, w: World)
    requires AllOk(cfg, w) && BatchesOk(w)
    ensures Inv(cfg, w)
  {
  }

  lemma {:induction false} RunInv(cfg: Config, w: World, es: seq<Event>)
    requires Inv(cfg, w) && IsRun(cfg, w, es)
    ensures Inv(cfg, After(cfg, w, es))
    decreases |es|
  {
    if es != [] {
      InvStep(cfg, w, es[0]);
      RunInv(cfg, Step(cfg, w, es[0]), es[1..]);
    }
  }

  lemma InitialInv(cfg: Config, store: Store, clock: int)
    ensures Inv(cfg, Initial(store, clock))
  {
  }

  lemma {:induction false} RunRows(cfg: Config, w: World, es: seq<Event>)
    requires Inv(cfg, w) && RowsOk(w) && IsRun(cfg, w, es) && InOrderRun(cfg, w, es)
    ensures RowsOk(After(cfg, w, es))
    decreases |es|
  {
    if es != [] {
      hide Inv, RowsOk, Enabled, InOrder, Step;
      InvParts(cfg, w);
      RowsKept(cfg, w, es[0]);
      InvStep(cfg, w, es[0]);
      RunRows(cfg, Step(cfg, w, es[0]), es[1..]);
    }
  }

  lemma InitialRows(store: Store, clock: int)
    ensures RowsOk(Initial(store, clock))
  {
    var w := Initial(store, clock);
    assert w.rows.batches == [] && w.rows.taken == map[];
    assert forall k: nat, id :: !NewestOf(w, id, k);
  }

  /** Whatever the number of flushes at once, if the rows of each id are written in the order
      in which they were taken: a clean session that no flush still has to write agrees with
      its row, so does the newest row taken of every id, and the totals in memory are the
      sums of all calls and costs of the incarnation. */
  lemma FlushedStateAgrees(cfg: Config, store: Store, clock: int, es: seq<Event>)
    requires IsRun(cfg, Initial(store, clock), es) && InOrderRun(cfg, Initial(store, clock), es)
    ensures var w := After(cfg, Initial(store, clock), es);
            && (forall id :: id in w.ss ==> TotalsOk(w.ss[id], History(w.log, id)))
            && (forall id :: id in w.ss && !w.ss[id].dirty && Settled(w, id) ==>
                  id in w.rows.store && Agrees(w.rows.store[id], w.ss[id].session))
            && (forall id :: id in w.rows.taken && Settled(w, id) ==>
                  id in w.rows.store && Agrees(w.rows.store[id], w.rows.taken[id]))
  {
    InitialInv(cfg, store, clock);
    InitialRows(store, clock);
    RunInv(cfg, Initial(store, clock), es);
    RunRows(cfg, Initial(store, clock), es);
    var w := After(cfg, Initial(store, clock), es);
    hide IsRun, InOrderRun, After, Settled, CallsOk, Agrees;
    forall id | id in w.ss
      ensures TotalsOk(w.ss[id], History(w.log, id)) && SavedOk(w, id, w.ss[id])
    {
      assert SessionOk(cfg, w, id);
    }
  }

  // ----- Flushes in any order

  /** The store shows what was written last, and what was taken and is settled was written. */
  ghost predicate WrittenOk(w: World) {
    && (forall id :: id in w.rows.written ==> id in w.rows.store && Agrees(w.rows.store[id], w.rows.written[id]))
    && (forall id :: id in w.rows.taken && id !in w.rows.written ==> !Settled(w, id))
  }

  /** The flushes recorded for an id are those of its rows: the same flush, the same row. */
  predicate FlushesOk(w: World, id: string) {
    && (id in w.rows.taken <==> id in w.rows.tookBy) && (id in w.rows.written <==> id in w.rows.wroteBy)
    && (id in w.rows.tookBy ==>
          var k := w.rows.tookBy[id];
          k < |w.rows.batches| && (id in w.rows.batches[k] ==> w.rows.batches[k][id] == w.rows.taken[id]))
    && (id in w.rows.wroteBy ==>
          w.rows.wroteBy[id] < |w.rows.batches|
          && (id in w.rows.tookBy && w.rows.tookBy[id] == w.rows.wroteBy[id] ==>
             w.rows.written[id] == w.rows.taken[id]))
  }

  lemma FlushesKept(cfg: Config, w: World, e: Event, id: string)
    requires FlushesOk(w, id)
    ensures FlushesOk(Step(cfg, w, e), id)
  {
    if e.Snapshot? {
      hide AfterSnapshot, DirtyRows;
    } else {
      StepFrame(cfg, w, e);
      hide Step, Upsert;
    }
  }

  lemma {:induction false} RunFlushes(cfg: Config, w: World, es: seq<Event>, id: string)
    requires FlushesOk(w, id)
    ensures FlushesOk(After(cfg, w, es), id)
    decreases |es|
  {
    if es != [] {
      hide FlushesOk, Step;
      FlushesKept(cfg, w, es[0], id);
      RunFlushes(cfg, Step(cfg, w, es[0]), es[1..], id);
    }
  }

  lemma {:induction false} WrittenKept(cfg: Config, w: World, e: Event)
    requires Enabled(w, e) && BatchesOk(w) && WrittenOk(w)
    ensures WrittenOk(Step(cfg, w, e))
  {
    var w' := Step(cfg, w, e);
    if e.Snapshot? {
      SnapshotWritten(w, w');
    } else {
      StepFrame(cfg, w, e);
      hide Step, Upsert;
      if e.Write? {
        assert RowOk(w, e.batch, e.id);
        WriteWritten(w, w', e.batch, e.id);
      } else {
        hide WrittenOk;
        SameWritten(w, w');
      }
    }
  }

  lemma SameWritten(w: World, w': World)
    requires WrittenOk(w) && w'.rows.batches == w.rows.batches && w'.rows.taken == w.rows.taken
             && w'.rows.store == w.rows.store && w'.rows.written == w.rows.written
    ensures WrittenOk(w')
  {
    forall id | id in w'.rows.taken && id !in w'.rows.written
      ensures !Settled(w', id)
    {
      assert !Settled(w, id);
    }
  }

  lemma SnapshotWritten(w: World, w': World)
    requires WrittenOk(w) && w'.rows.batches == w.rows.batches + [DirtyRows(w.ss)]
             && w'.rows.taken == w.rows.taken + DirtyRows(w.ss)
    requires w'.rows.store == w.rows.store && w'.rows.written == w.rows.written
    ensures WrittenOk(w')
  {
    var n := |w.rows.batches|;
    forall id | id in w'.rows.taken && id !in w'.rows.written
      ensures !Settled(w', id)
    {
      assert w'.rows.batches[n] == DirtyRows(w.ss);
      if id in w.rows.taken {
        var k :| 0 <= k < n && id in w.rows.batches[k];
        assert w'.rows.batches[k] == w.rows.batches[k];
      }
    }
  }

  lemma WriteWritten(w: World, w': World, k: nat, id: string)
    requires WrittenOk(w) && Wrote(w, w', k, id) && w'.rows.written == w.rows.written[id := w.rows.batches[k][id]]
    ensures WrittenOk(w')
  {
    WroteThis(w, w', k, id);
    forall i | i in w'.rows.written
      ensures i in w'.rows.store && Agrees(w'.rows.store[i], w'.rows.written[i])
    {
      if i != id {
        WroteOthers(w, w', k, id, i);
      }
    }
    forall i | i in w'.rows.taken && i !in w'.rows.written
      ensures !Settled(w', i)
    {
      WroteOthers(w, w', k, id, i);
      var j :| 0 <= j < |w.rows.batches| && i in w.rows.batches[j];
      assert i in w'.rows.batches[j];
    }
  }

  lemma {:induction false} RunWritten(cfg: Config, w: World, es: seq<Event>)
    requires Inv(cfg, w) && WrittenOk(w) && IsRun(cfg, w, es)
    ensures WrittenOk(After(cfg, w, es))
    decreases |es|
  {
    if es != [] {
      hide Inv, WrittenOk, Enabled, Step;
      InvParts(cfg, w);
      WrittenKept(cfg, w, es[0]);
      InvStep(cfg, w, es[0]);
      RunWritten(cfg, Step(cfg, w, es[0]), es[1..]);
    }
  }

  /** Over every run, with flushes that overtake each other: a clean session that no flush
      still has to write has a row, and agrees with it exactly when the flush that wrote the id
      last is the one that took it last, or took a row that shows the same. */
  lemma AgreesIff(cfg: Config, store: Store, clock: int, es: seq<Event>, id: string)
    requires IsRun(cfg, Initial(store, clock), es)
    requires var w := After(cfg, Initial(store, clock), es); id in w.ss && !w.ss[id].dirty && Settled(w, id)
    ensures var w := After(cfg, Initial(store, clock), es);
            && id in w.rows.store && id in w.rows.written && id in w.rows.taken && id in w.rows.wroteBy
            && id in w.rows.tookBy
            && (Agrees(w.rows.store[id], w.ss[id].session)
                <==> w.rows.wroteBy[id] == w.rows.tookBy[id] || Agrees(w.rows.written[id], w.rows.taken[id]))
  {
    InitialInv(cfg, store, clock);
    assert WrittenOk(Initial(store, clock));
    RunInv(cfg, Initial(store, clock), es);
    RunWritten(cfg, Initial(store, clock), es);
    RunFlushes(cfg, Initial(store, clock), es, id);
    var w := After(cfg, Initial(store, clock), es);
    hide IsRun, After, Settled, CallsOk, TotalsOk, History;
    assert SessionOk(cfg, w, id);
  }

  // ----- One flush at a time

  /** A flush starts only when all earlier ones have written all their rows. */
  ghost predicate OneFlusher(cfg: Config, w: World, es: seq<Event>)
    decreases |es|
  {
    es == [] || ((es[0].Snapshot? ==> forall id :: Settled(w, id)) && OneFlusher(cfg, Step(cfg, w, es[0]), es[1..]))
  }

  ghost predicate OnlyLastOpen(w: World) {
    forall k, id :: 0 <= k < |w.rows.batches| - 1 ==> id !in w.rows.batches[k]
  }

  lemma OnlyLastKept(cfg: Config, w: World, e: Event)
    requires Enabled(w, e) && OnlyLastOpen(w) && (e.Snapshot? ==> forall id :: Settled(w, id))
    ensures OnlyLastOpen(Step(cfg, w, e)) && InOrder(w, e)
  {
    if e.Snapshot? {
      forall k, id | 0 <= k < |w.rows.batches|
        ensures id !in w.rows.batches[k]
      {
        assert Settled(w, id);
      }
    }
    hide TrackCallOn, RecordCostOn, EndSessionOn, ExpireOn, GhostsOn, IdleIds, HauntingIds, AfterSnapshot,
         DirtyRows, Upsert;
  }

  /** With one flush at a time the rows are always written in order. */
  lemma {:induction false} OneFlusherInOrder(cfg: Config, w: World, es: seq<Event>)
    requires IsRun(cfg, w, es) && OneFlusher(cfg, w, es) && OnlyLastOpen(w)
    ensures InOrderRun(cfg, w, es)
    decreases |es|
  {
    if es != [] {
      hide OnlyLastOpen, Step, Enabled, InOrder;
      OnlyLastKept(cfg, w, es[0]);
      OneFlusherInOrder(cfg, Step(cfg, w, es[0]), es[1..]);
    }
  }

  // ----- Ended sessions

  /** An id that is not tracked again keeps the row that was taken of it. */
  lemma {:induction false} TakenKept(cfg: Config, w: World, es: seq<Event>, id: string)
    requires id !in w.ss && id in w.rows.taken && forall e <- es :: e.Track? ==> e.call.id != id
    ensures var w' := After(cfg, w, es); id !in w'.ss && id in w'.rows.taken && w'.rows.taken[id] == w.rows.taken[id]
    decreases |es|
  {
    if es != [] {
      assert es[0] in es;
      StaysAway(cfg, w, es[0], id);
      hide Step;
      TakenKept(cfg, Step(cfg, w, es[0]), es[1..], id);
    }
  }

  lemma StaysAway(cfg: Config, w: World, e: Event, id: string)
    requires id !in w.ss && id in w.rows.taken && (e.Track? ==> e.call.id != id)
    ensures var w' := Step(cfg, w, e); id !in w'.ss && id in w'.rows.taken && w'.rows.taken[id] == w.rows.taken[id]
  {
    StepSessions(cfg, w, e);
    if !e.Snapshot? {
      StepFrame(cfg, w, e);
      hide Step;
    }
    hide AddCall, Finish, AddCost, Idle, Haunts;
  }

  /** A flush takes every ended session out of memory at once; and whatever happens after it,
      unless the id is tracked anew, once no flush still has to write the id its row holds its
      end and the sums of all calls and costs of the incarnation. */
  lemma {:induction false} EndedSessionsAreFlushed(
      cfg: Config, store: Store, clock: int, es: seq<Event>, later: seq<Event>, id: string)
    requires IsRun(cfg, Initial(store, clock), es) && InOrderRun(cfg, Initial(store, clock), es)
    requires forall e <- later :: e.Track? ==> e.call.id != id
    ensures var w := After(cfg, Initial(store, clock), es);
            var w1 := Step(cfg, w, Snapshot);
            var w2 := After(cfg, w1, later);
            id in w.ss && w.ss[id].session.status != Active ==>
              && id !in w1.ss
              && (IsRun(cfg, w1, later) && InOrderRun(cfg, w1, later) && Settled(w2, id) ==>
                    ShowsEnd(w2.rows.store, id, History(w.log, id)))
  {
    hide *;
    InitialInv(cfg, store, clock);
    InitialRows(store, clock);
    RunInv(cfg, Initial(store, clock), es);
    RunRows(cfg, Initial(store, clock), es);
    var w := After(cfg, Initial(store, clock), es);
    var w1 := Step(cfg, w, Snapshot);
    InvParts(cfg, w);
    if id in w.ss && w.ss[id].session.status != Active {
      OkOf(cfg, w, id);
      SnapshotTakes(cfg, w, id);
      InvStep(cfg, w, Snapshot);
      RowsKept(cfg, w, Snapshot);
      TakenKept(cfg, w1, later, id);
      if IsRun(cfg, w1, later) && InOrderRun(cfg, w1, later) && Settled(After(cfg, w1, later), id) {
        RunRows(cfg, w1, later);
        TakenIsStored(After(cfg, w1, later), id, w.ss[id].session);
        ShowsEndOf(After(cfg, w1, later).rows.store, id, History(w.log, id));
      }
    }
  }

  /** The row shows that the session has ended, and the sums over its incarnation. */
  predicate ShowsEnd(store: Store, id: string, h: Incarnation) {
    && id in store && store[id].status == Completed && store[id].endedAt.Some?
    && store[id].callCount == |h.calls| && store[id].cost == h.cost && store[id].tokens == h.tokens
  }

  lemma ShowsEndOf(store: Store, id: string, h: Incarnation)
    requires id in store && store[id].status == Completed && store[id].endedAt.Some?
    requires store[id].callCount == |h.calls| && store[id].cost == h.cost && store[id].tokens == h.tokens
    ensures ShowsEnd(store, id, h)
  {
  }

  lemma SnapshotTakes(cfg: Config, w: World, id: string)
    requires id in w.ss && SessionOk(cfg, w, id) && w.ss[id].session.status != Active
    ensures var s, w1, h := w.ss[id].session, Step(cfg, w, Snapshot), History(w.log, id);
            && id !in w1.ss && id in w1.rows.taken && w1.rows.taken[id] == s && Enabled(w, Snapshot)
               && InOrder(w, Snapshot)
            && s.status == Completed && s.endedAt.Some?
            && s.callCount == |h.calls| && s.cost == h.cost && s.tokens == h.tokens
  {
    hide CallsOk, History;
  }

  lemma TakenIsStored(w: World, id: string, s: Session)
    requires RowsOk(w) && Settled(w, id) && id in w.rows.taken && w.rows.taken[id] == s
    ensures id in w.rows.store && w.rows.store[id].endedAt == s.endedAt && w.rows.store[id].status == s.status
    ensures w.rows.store[id].callCount == s.callCount && w.rows.store[id].cost == s.cost
            && w.rows.store[id].tokens == s.tokens
  {
    hide Settled;
  }

  // ----- Two flushes out of order

  lemma {:induction false} RunSnoc(cfg: Config, w: World, es: seq<Event>, e: Event)
    requires IsRun(cfg, w, es) && Enabled(After(cfg, w, es), e)
    ensures IsRun(cfg, w, es + [e]) && After(cfg, w, es + [e]) == Step(cfg, After(cfg, w, es), e)
    decreases |es|
  {
    hide Enabled, Step;
    if es == [] {
      assert es + [e] == [e] && [e][1..] == [];
    } else {
      RunSnoc(cfg, Step(cfg, w, es[0]), es[1..], e);
      assert (es + [e])[1..] == es[1..] + [e];
    }
  }

  /** Some run leads from `w` to `w'`. */
  ghost predicate Leads(cfg: Config, w: World, w': World) {
    exists es :: IsRun(cfg, w, es) && After(cfg, w, es) == w'
  }

  lemma LeadsNowhere(cfg: Config, w: World)
    ensures Leads(cfg, w, w)
  {
    assert IsRun(cfg, w, []) && After(cfg, w, []) == w;
  }

  lemma LeadsStep(cfg: Config, w: World, w1: World, e: Event) returns (w2: World)
    requires Leads(cfg, w, w1) && Enabled(w1, e)
    ensures w2 == Step(cfg, w1, e) && Leads(cfg, w, w2)
  {
    hide Enabled, Step;
    var es :| IsRun(cfg, w, es) && After(cfg, w, es) == w1;
    RunSnoc(cfg, w, es, e);
    w2 := Step(cfg, w1, e);
  }

  /** Memory holds the one session `t`. */
  ghost predicate Only(w: World, id: string, t: Tracked) {
    w.ss == map[id := t] && t.session.id == id && t.session.status == Active
  }

  lemma FirstTrack(cfg: Config, store: Store, clock: int, c: Call) returns (w: World, t: Tracked)
    requires c.id != "" && clock <= c.startedAt <= c.calledAt <= c.trimmedAt <= c.checkedAt
    ensures Leads(cfg, Initial(store, clock), w) && Only(w, c.id, t) && t.dirty && t.session.cost == 0.0
    ensures w.rows.batches == [] && w.rows.store == store
  {
    LeadsNowhere(cfg, Initial(store, clock));
    w := LeadsStep(cfg, Initial(store, clock), Initial(store, clock), Track(c, ""));
    t := AddCall(cfg, NewSession(c), c);
    hide Leads, Trim;
  }

  lemma FlushOnly(cfg: Config, w0: World, w: World, id: string, t: Tracked) returns (w': World)
    requires Leads(cfg, w0, w) && Only(w, id, t) && t.dirty
    ensures Leads(cfg, w0, w') && Only(w', id, t.(dirty := false))
            && w'.rows.batches == w.rows.batches + [map[id := t.session]]
    ensures w'.rows.store == w.rows.store
  {
    hide Leads;
    w' := LeadsStep(cfg, w0, w, Snapshot);
    OneSnapshot(id, t);
    hide DirtyRows, AfterSnapshot;
  }

  lemma OneSnapshot(id: string, t: Tracked)
    requires t.dirty
    ensures DirtyRows(map[id := t]) == map[id := t.session]
    ensures t.session.status == Active ==> AfterSnapshot(map[id := t]) == map[id := t.(dirty := false)]
  {
  }

  lemma ChargeOnly(cfg: Config, w0: World, w: World, id: string, t: Tracked, cost: real) returns (w': World)
    requires Leads(cfg, w0, w) && Only(w, id, t)
    ensures Leads(cfg, w0, w') && Only(w', id, AddCost(t, cost, 0)) && w'.rows.batches == w.rows.batches
            && w'.rows.store == w.rows.store
  {
    w' := LeadsStep(cfg, w0, w, Cost(id, cost, 0));
    hide Leads;
  }

  lemma WriteOnly(cfg: Config, w0: World, w: World, id: string, t: Tracked, k: nat, row: Session) returns (w': World)
    requires Leads(cfg, w0, w) && Only(w, id, t) && k < |w.rows.batches|
    requires w.rows.batches[k] == map[id := row] && row.id == id
    ensures Leads(cfg, w0, w') && Only(w', id, t) && w'.rows.batches == w.rows.batches[k := map[]]
    ensures id in w'.rows.store && Agrees(w'.rows.store[id], row)
  {
    hide Leads, Agrees, WriteRow;
    w' := LeadsStep(cfg, w0, w, Write(k, id));
    assert w' == w.(rows := WriteRow(w.rows, k, id));
    hide Step;
    WroteOnly(w.rows, k, id, row);
  }

  lemma WroteOnly(r: Rows, k: nat, id: string, row: Session)
    requires k < |r.batches| && r.batches[k] == map[id := row] && row.id == id
    ensures WriteRow(r, k, id).batches == r.batches[k := map[]]
    ensures id in WriteRow(r, k, id).store && Agrees(WriteRow(r, k, id).store[id], row)
  {
    assert map[id := row] - {id} == map[];
  }

  /** For every configuration: a call, a flush, a cost, a second flush; when the second flush
      writes its row before the first does, no flush is left, the session is clean, and its
      row is out of date. */
  lemma TwoFlushersLoseUpdate(cfg: Config, store: Store, clock: int, c: Call, cost: real)
    requires c.id != "" && clock <= c.startedAt <= c.calledAt <= c.trimmedAt <= c.checkedAt && cost != 0.0
    ensures exists w ::
              && Leads(cfg, Initial(store, clock), w) && (forall id :: Settled(w, id))
              && c.id in w.ss && !w.ss[c.id].dirty && c.id in w.rows.store
              && !Agrees(w.rows.store[c.id], w.ss[c.id].session)
  {
    hide Leads, Only;
    var w0 := Initial(store, clock);
    var w, t := FirstTrack(cfg, store, clock, c);
    w := FlushOnly(cfg, w0, w, c.id, t);
    var t1 := t.(dirty := false);
    w := ChargeOnly(cfg, w0, w, c.id, t1, cost);
    var t2 := AddCost(t1, cost, 0);
    w := FlushOnly(cfg, w0, w, c.id, t2);
    var t3 := t2.(dirty := false);
    OnlyId(w, c.id, t3);
    OnlyIdOf(t, t3);
    w := WriteOnly(cfg, w0, w, c.id, t3, 1, t3.session);
    w := WriteOnly(cfg, w0, w, c.id, t3, 0, t.session);
    OnlyId(w, c.id, t3);
    assert !Agrees(w.rows.store[c.id], t3.session);
    assert forall id :: Settled(w, id);
  }

  lemma OnlyId(w: World, id: string, t: Tracked)
    requires Only(w, id, t)
    ensures t.session.id == id && id in w.ss && w.ss[id] == t
  {
  }

  lemma OnlyIdOf(t: Tracked, t3: Tracked)
    requires t3.session == t.session.(cost := t3.session.cost, tokens := t3.session.tokens)
    ensures t3.session.id == t.session.id
  {
  }

  /** Over every run: at most 10000 sessions, ended iff completed, at most one ghost alert
      per incarnation, and the balance of the session metrics. */
  lemma SessionAccounting(cfg: Config, store: Store, clock: int, es: seq<Event>)
    requires IsRun(cfg, Initial(store, clock), es)
    ensures var w := After(cfg, Initial(store, clock), es);
            && |w.ss| <= 10000
            && w.n.started - w.n.ended == |ActiveIds(w.ss)| + w.n.evictedActive - w.n.repeatedEnds
            && forall id :: id in w.ss ==> Lifecycle(w.ss[id], id) && History(w.log, id).ghosts <= 1
  {
    InitialInv(cfg, store, clock);
    RunInv(cfg, Initial(store, clock), es);
    assert ActiveIds(Initial(store, clock).ss) == {};
    RunCounts(cfg, Initial(store, clock), es);
    var w := After(cfg, Initial(store, clock), es);
    forall id | id in w.ss
      ensures Lifecycle(w.ss[id], id) && History(w.log, id).ghosts <= 1
    {
      assert SessionOk(cfg, w, id);
    }
  }

  // ----- Which sessions end, haunt and are forgotten

  /** The time of the last call of the incarnation, if the call is still known, or else of
      its start. */
  predicate IsLastActivity(t: Tracked, h: Incarnation, time: int) {
    if t.calls != [] && h.calls != [] then time == h.calls[|h.calls| - 1].time
    else h.first.Some? && time == h.first.value.startedAt
  }

  lemma ActivityOf(cfg: Config, w: World, id: string)
    requires id in w.ss && SessionOk(cfg, w, id)
    ensures IsLastActivity(w.ss[id], History(w.log, id), LastActivity(w.ss[id]))
  {
    hide History;
  }

  /** Over every run, an expiry ends exactly the active sessions whose last activity is more
      than a positive timeout ago, at that time, and changes nothing else of any session. */
  lemma ExpiryExact(cfg: Config, store: Store, clock: int, es: seq<Event>, now: int, id: string, last: int)
    requires IsRun(cfg, Initial(store, clock), es) && id in After(cfg, Initial(store, clock), es).ss
    requires var w := After(cfg, Initial(store, clock), es); IsLastActivity(w.ss[id], History(w.log, id), last)
    ensures var w := After(cfg, Initial(store, clock), es);
            var w', s := Step(cfg, w, ExpireAll(now)), w.ss[id].session;
            && id in w'.ss
            && w'.ss[id].session
               == if cfg.sessionTimeout > 0 && s.status == Active && now - last > cfg.sessionTimeout
                  then s.(status := Completed, endedAt := Some(now)) else s
  {
    InitialInv(cfg, store, clock);
    RunInv(cfg, Initial(store, clock), es);
    var w := After(cfg, Initial(store, clock), es);
    InvParts(cfg, w);
    OkOf(cfg, w, id);
    ActivityOf(cfg, w, id);
    StepSessions(cfg, w, ExpireAll(now));
    hide IsRun, After, Inv, SessionOk, History, Step;
  }

  /** An explicit end completes the session at that time, and changes no other one. */
  lemma EndExact(cfg: Config, w: World, id: string, now: int, k: string)
    requires k in w.ss
    ensures var w', s := Step(cfg, w, End(id, now)), w.ss[k].session;
            k in w'.ss && w'.ss[k].session == if k == id then s.(status := Completed, endedAt := Some(now)) else s
  {
    StepSessions(cfg, w, End(id, now));
    hide Step;
  }

  /** Over every run, a ghost scan reports exactly the active sessions that were not reported
      before and that, by their history, have reached the age, the calls and the cost. */
  lemma GhostsExact(cfg: Config, store: Store, clock: int, es: seq<Event>, scan: Scan, id: string)
    requires IsRun(cfg, Initial(store, clock), es) && id in After(cfg, Initial(store, clock), es).ss
    ensures var w := After(cfg, Initial(store, clock), es);
            var h := History(w.log, id);
            && h.first.Some?
            && (id in HauntingIds(cfg, w.ss, scan)
                <==> && w.ss[id].session.status == Active && h.ghosts == 0 && cfg.ghostMaxAge > 0
                     && scan.At(id) - h.first.value.startedAt >= cfg.ghostMaxAge
                     && |h.calls| >= cfg.ghostMinCalls && h.cost >= cfg.ghostMinCost)
  {
    InitialInv(cfg, store, clock);
    RunInv(cfg, Initial(store, clock), es);
    var w := After(cfg, Initial(store, clock), es);
    InvParts(cfg, w);
    OkOf(cfg, w, id);
    GhostsOf(cfg, w, scan, id);
    hide IsRun, After, Inv, SessionOk, History;
  }

  lemma GhostsOf(cfg: Config, w: World, scan: Scan, id: string)
    requires id in w.ss && SessionOk(cfg, w, id)
    ensures var h := History(w.log, id);
            && h.first.Some?
            && (id in HauntingIds(cfg, w.ss, scan)
                <==> && w.ss[id].session.status == Active && h.ghosts == 0 && cfg.ghostMaxAge > 0
                     && scan.At(id) - h.first.value.startedAt >= cfg.ghostMaxAge
                     && |h.calls| >= cfg.ghostMinCalls && h.cost >= cfg.ghostMinCost)
  {
    hide History, CallsOk;
  }

  /** A session is forgotten only when a flush finds it ended, or when a call of a new id finds
      10000 sessions and it is one of those with the oldest activity; and such a call makes
      room by exactly one session. */
  lemma ForgottenIff(cfg: Config, w: World, e: Event, id: string)
    requires Enabled(w, e) && id in w.ss && "" !in w.ss
    ensures id !in Step(cfg, w, e).ss
            <==> || (e.Snapshot? && w.ss[id].session.status != Active)
                 || (e.Track? && e.call.id !in w.ss && |w.ss| >= 10000 && id == e.victim)
    ensures e.Track? && id !in Step(cfg, w, e).ss ==>
              forall k :: k in w.ss ==> LastActivity(w.ss[id]) <= LastActivity(w.ss[k])
  {
    StepSessions(cfg, w, e);
    hide Step, AddCall, Finish, AddCost, Idle, Haunts, LastActivity;
  }

  /** The later state of a session is of the same incarnation, and completed is final. */
  predicate Onward(s: Session, s': Session) {
    && s'.startedAt == s.startedAt && s.callCount <= s'.callCount
    && (s.status == Completed ==> s'.status == Completed)
    && (s.status == Active ==> s'.status == Active || s'.status == Completed)
  }

  lemma StatusStep(cfg: Config, w: World, e: Event, id: string)
    requires id in w.ss && id in Step(cfg, w, e).ss
    ensures Onward(w.ss[id].session, Step(cfg, w, e).ss[id].session)
  {
    StepSessions(cfg, w, e);
    hide Step;
    OnwardStep(cfg, w.ss, e, id);
  }

  lemma OnwardStep(cfg: Config, ss: Sessions, e: Event, id: string)
    requires id in ss && id in SessionsAfter(cfg, ss, e)
    ensures Onward(ss[id].session, SessionsAfter(cfg, ss, e)[id].session)
  {
    hide Trim, Idle, Haunts;
  }

  /** The id is tracked all through the run. */
  ghost predicate Stays(cfg: Config, w: World, es: seq<Event>, id: string)
    decreases |es|
  {
    id in w.ss && (es == [] || Stays(cfg, Step(cfg, w, es[0]), es[1..], id))
  }

  /** All the while an id stays tracked, its start is kept, its call count does not fall, its
      status goes only from active to completed, and completed is final. */
  lemma {:induction false} StatusOneWay(cfg: Config, w: World, es: seq<Event>, id: string)
    requires IsRun(cfg, w, es) && Stays(cfg, w, es, id)
    ensures id in After(cfg, w, es).ss && Onward(w.ss[id].session, After(cfg, w, es).ss[id].session)
    decreases |es|
  {
    if es != [] {
      hide Step, Enabled;
      StatusStep(cfg, w, es[0], id);
      StatusOneWay(cfg, Step(cfg, w, es[0]), es[1..], id);
    }
  }

  lemma SuffixSorted(all: seq<CallRecord>, k: nat)
    requires k <= |all| && Sorted(all)
    ensures Sorted(all[k..])
  {
  }

  /** Over every run, a call raises a loop alert exactly when the calls of its path in the
      window, over the whole untrimmed history of the session, reach the threshold. */
  lemma {:induction false} LoopAlertExact(
      cfg: Config, store: Store, clock: int, es: seq<Event>, c: Call, victim: string)
    requires IsRun(cfg, Initial(store, clock), es) && Enabled(After(cfg, Initial(store, clock), es), Track(c, victim))
    ensures c.id in Step(cfg, After(cfg, Initial(store, clock), es), Track(c, victim)).ss
    ensures var w := Step(cfg, After(cfg, Initial(store, clock), es), Track(c, victim));
            LoopFound(cfg, w.ss[c.id].calls, c.path, c.checkedAt)
            <==> cfg.loopThreshold > 0 && cfg.loopWindow > 0
                 && CountInWindow(History(w.log, c.id).calls, c.path, c.checkedAt - cfg.loopWindow) >= cfg.loopThreshold
  {
    hide *;
    InitialInv(cfg, store, clock);
    RunInv(cfg, Initial(store, clock), es);
    var w0 := After(cfg, Initial(store, clock), es);
    InvParts(cfg, w0);
    TrackedSessionOk(cfg, w0, c, victim);
    LoopFromOk(cfg, Step(cfg, w0, Track(c, victim)), c.id, c.path);
    TrackClock(cfg, w0, c, victim);
  }

  lemma TrackClock(cfg: Config, w: World, c: Call, victim: string)
    ensures Step(cfg, w, Track(c, victim)).clock == c.checkedAt
  {
  }

  lemma LoopFromOk(cfg: Config, w: World, id: string, path: string)
    requires id in w.ss && SessionOk(cfg, w, id)
    ensures LoopFound(cfg, w.ss[id].calls, path, w.clock)
            <==> cfg.loopThreshold > 0 && cfg.loopWindow > 0
                 && CountInWindow(History(w.log, id).calls, path, w.clock - cfg.loopWindow) >= cfg.loopThreshold
  {
    ScanMatchesHistory(cfg, w.ss[id].calls, History(w.log, id).calls, w.clock, path);
  }

  lemma ScanMatchesHistory(cfg: Config, calls: seq<CallRecord>, all: seq<CallRecord>, now: int, path: string)
    requires CallsOk(cfg, calls, all, now)
    ensures ScanBack(calls, path, now - cfg.loopWindow) == CountInWindow(all, path, now - cfg.loopWindow)
  {
    hide *;
    var cutoff := now - cfg.loopWindow;
    var k := CallsSplit(cfg, calls, all, now);
    ScanIsCount(calls, path, cutoff);
    CountSplit(all[..k], calls, path, cutoff);
  }

  lemma CallsSplit(cfg: Config, calls: seq<CallRecord>, all: seq<CallRecord>, now: int) returns (k: nat)
    requires CallsOk(cfg, calls, all, now)
    ensures k <= |all| && all == all[..k] + calls && Sorted(calls)
    ensures forall i :: 0 <= i < |all[..k]| ==> all[..k][i].time < now - cfg.loopWindow
  {
    k := |all| - |calls|;
    SuffixSorted(all, k);
  }
}
