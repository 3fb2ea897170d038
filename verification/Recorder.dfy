/** The asynchronous usage recorder: producers, a bounded queue and any number of workers,
    as atomic steps that interleave freely. */
module Recorder {
  datatype UsageRecord = UsageRecord(id: string, cost: real)

  datatype Worker = Idle | Holding(record: UsageRecord) | Exited

  /** The channel and the workers; then the history: what was submitted, accepted, dropped
      and attempted, each in order. */
  datatype World = World(
    capacity: int, queue: seq<UsageRecord>, closed: bool, workers: seq<Worker>, droppedCount: int,
    submitted: seq<UsageRecord>, accepted: seq<UsageRecord>, dropped: seq<UsageRecord>, attempted: seq<UsageRecord>)

  /** `Take`, `Write` and `Exit` are steps of one worker: receive from the channel, write
      to the ledger (whether or not that succeeds), and leave the loop. */
  datatype Event = Submit(record: UsageRecord) | CloseChannel | Take(worker: nat) | Write(worker: nat)
    | Exit(worker: nat)

  function Initial(bufSize: int, workers: int): World {
    World(if bufSize <= 0 then 10000 else bufSize, [], false,
          seq(if workers <= 0 then 4 else workers, _ => Idle), 0, [], [], [], [])
  }

  /** Submitting to a closed channel is the caller's error; receiving waits for a record or
      for the channel to be closed and empty. */
  predicate Enabled(w: World, e: Event) {
    match e
    case Submit(_) => !w.closed
    case CloseChannel => !w.closed
    case Take(i) => i < |w.workers| && w.workers[i].Idle? && w.queue != []
    case Write(i) => i < |w.workers| && w.workers[i].Holding?
    case Exit(i) => i < |w.workers| && w.workers[i].Idle? && w.queue == [] && w.closed
  }

  function Step(w: World, e: Event): World
    requires Enabled(w, e)
  {
    match e
    case Submit(r) =>
      if |w.queue| < w.capacity then
        w.(submitted := w.submitted + [r], queue := w.queue + [r], accepted := w.accepted + [r])
      else
        w.(submitted := w.submitted + [r], droppedCount := w.droppedCount + 1, dropped := w.dropped + [r])
    case CloseChannel => w.(closed := true)
    case Take(i) => w.(queue := w.queue[1..], workers := w.workers[i := Holding(w.queue[0])])
    case Write(i) => w.(attempted := w.attempted + [w.workers[i].record], workers := w.workers[i := Idle])
    case Exit(i) => w.(workers := w.workers[i := Exited])
  }

  predicate IsRun(w: World, es: seq<Event>)
    decreases |es|
  {
    es == [] || (Enabled(w, es[0]) && IsRun(Step(w, es[0]), es[1..]))
  }

  function After(w: World, es: seq<Event>): World
    requires IsRun(w, es)
    decreases |es|
  {
    if es == [] then w else After(Step(w, es[0]), es[1..])
  }

  /** `Close` has returned: the channel is closed and every worker has left. */
  predicate CloseReturned(w: World) {
    w.closed && forall i :: 0 <= i < |w.workers| ==> w.workers[i].Exited?
  }

  // ----- Conservation

  function HeldBy(worker: Worker): multiset<UsageRecord> {
    if worker.Holding? then multiset{worker.record} else multiset{}
  }

  function Held(workers: seq<Worker>): multiset<UsageRecord> {
    if workers == [] then multiset{} else HeldBy(workers[0]) + Held(workers[1..])
  }

  lemma AddCommon(hd: multiset<UsageRecord>, x: multiset<UsageRecord>, a: multiset<UsageRecord>,
                  y: multiset<UsageRecord>, b: multiset<UsageRecord>)
    requires x + a == y + b
    ensures (hd + x) + a == (hd + y) + b
  {
    assert (hd + x) + a == hd + (x + a) && (hd + y) + b == hd + (y + b);
  }

  lemma {:induction false} HeldUpdate(workers: seq<Worker>, i: nat, next: Worker)
    requires i < |workers|
    ensures Held(workers[i := next]) + HeldBy(workers[i]) == Held(workers) + HeldBy(next)
  {
    var updated := workers[i := next];
    if i == 0 {
      assert updated[1..] == workers[1..];
    } else {
      var hd, rest := HeldBy(workers[0]), workers[1..];
      HeldUpdate(rest, i - 1, next);
      assert updated[1..] == rest[i - 1 := next];
      AddCommon(hd, Held(rest[i - 1 := next]), HeldBy(rest[i - 1]), Held(rest), HeldBy(next));
    }
  }

  /** Every submitted record is in exactly one place. */
  predicate Accounted(w: World) {
    && multiset(w.accepted) == multiset(w.queue) + Held(w.workers) + multiset(w.attempted)
    && multiset(w.submitted) == multiset(w.accepted) + multiset(w.dropped)
  }

  predicate Bounded(w: World) {
    w.droppedCount == |w.dropped| && |w.queue| <= w.capacity
  }

  /** A worker leaves only a closed and empty channel. */
  predicate DrainedBeforeExit(w: World) {
    forall i :: 0 <= i < |w.workers| && w.workers[i].Exited? ==> w.closed && w.queue == []
  }

  predicate Conserved(w: World) {
    Accounted(w) && Bounded(w) && DrainedBeforeExit(w)
  }

  lemma MoveFirst(a: multiset<UsageRecord>, b: multiset<UsageRecord>, c: multiset<UsageRecord>,
                  a': multiset<UsageRecord>, b': multiset<UsageRecord>, x: UsageRecord)
    requires a == a' + multiset{x} && b' == b + multiset{x}
    ensures a + b + c == a' + b' + c
  {
  }

  lemma MoveSecond(a: multiset<UsageRecord>, b: multiset<UsageRecord>, c: multiset<UsageRecord>,
                   b': multiset<UsageRecord>, c': multiset<UsageRecord>, x: UsageRecord)
    requires b == b' + multiset{x} && c' == c + multiset{x}
    ensures a + b + c == a + b' + c'
  {
  }

  lemma HeldTake(workers: seq<Worker>, i: nat, r: UsageRecord)
    requires i < |workers| && workers[i].Idle?
    ensures Held(workers[i := Holding(r)]) == Held(workers) + multiset{r}
  {
    HeldUpdate(workers, i, Holding(r));
  }

  lemma HeldWrite(workers: seq<Worker>, i: nat)
    requires i < |workers| && workers[i].Holding?
    ensures Held(workers) == Held(workers[i := Idle]) + multiset{workers[i].record}
  {
    HeldUpdate(workers, i, Idle);
  }

  lemma HeldExit(workers: seq<Worker>, i: nat)
    requires i < |workers| && workers[i].Idle?
    ensures Held(workers[i := Exited]) == Held(workers)
  {
    HeldUpdate(workers, i, Exited);
    assert Held(workers) + multiset{} == Held(workers);
    assert Held(workers[i := Exited]) + multiset{} == Held(workers[i := Exited]);
  }

  lemma QueueHead(queue: seq<UsageRecord>)
    requires queue != []
    ensures multiset(queue) == multiset(queue[1..]) + multiset{queue[0]}
  {
    assert queue == [queue[0]] + queue[1..];
  }

  lemma AccountedTake(w: World, i: nat)
    requires Accounted(w) && Enabled(w, Take(i))
    ensures Accounted(Step(w, Take(i)))
  {
    HeldTake(w.workers, i, w.queue[0]);
    QueueHead(w.queue);
    MoveFirst(multiset(w.queue), Held(w.workers), multiset(w.attempted),
              multiset(w.queue[1..]), Held(w.workers[i := Holding(w.queue[0])]), w.queue[0]);
  }

  lemma AccountedWrite(w: World, i: nat)
    requires Accounted(w) && Enabled(w, Write(i))
    ensures Accounted(Step(w, Write(i)))
  {
    var r := w.workers[i].record;
    HeldWrite(w.workers, i);
    MoveSecond(multiset(w.queue), Held(w.workers), multiset(w.attempted),
               Held(w.workers[i := Idle]), multiset(w.attempted + [r]), r);
  }

  lemma AccountedSubmit(w: World, r: UsageRecord)
    requires Accounted(w) && Enabled(w, Submit(r))
    ensures Accounted(Step(w, Submit(r)))
  {
  }

  lemma {:induction false} ConservedStep(w: World, e: Event)
    requires Conserved(w) && Enabled(w, e)
    ensures Conserved(Step(w, e))
  {
    OthersKept(w, e);
    hide Accounted, Held;
    match e
    case Submit(r) => AccountedSubmit(w, r);
    case CloseChannel => AccountedClose(w);
    case Take(i) => AccountedTake(w, i);
    case Write(i) => AccountedWrite(w, i);
    case Exit(i) => AccountedExit(w, i);
  }

  lemma AccountedClose(w: World)
    requires Accounted(w) && Enabled(w, CloseChannel)
    ensures Accounted(Step(w, CloseChannel))
  {
  }

  lemma AccountedExit(w: World, i: nat)
    requires Accounted(w) && Enabled(w, Exit(i))
    ensures Accounted(Step(w, Exit(i)))
  {
    HeldExit(w.workers, i);
  }

  lemma OthersKept(w: World, e: Event)
    requires Bounded(w) && DrainedBeforeExit(w) && Enabled(w, e)
    ensures Bounded(Step(w, e)) && DrainedBeforeExit(Step(w, e))
  {
  }

  lemma {:induction false} ConservedRun(w: World, es: seq<Event>)
    requires Conserved(w) && IsRun(w, es)
    ensures Conserved(After(w, es))
    decreases |es|
  {
    if es != [] {
      ConservedStep(w, es[0]);
      ConservedRun(Step(w, es[0]), es[1..]);
    }
  }

  lemma {:induction false} HeldByNone(workers: seq<Worker>)
    requires forall i :: 0 <= i < |workers| ==> !workers[i].Holding?
    ensures Held(workers) == multiset{}
  {
    if workers != [] {
      HeldByNone(workers[1..]);
    }
  }

  lemma InitialConserved(bufSize: int, workers: int)
    ensures Conserved(Initial(bufSize, workers))
  {
    HeldByNone(Initial(bufSize, workers).workers);
  }

  /** Over every interleaving: submitted records are the dropped, the queued, those held by
      workers and those written, and the queue stays within its capacity. */
  lemma Conservation(bufSize: int, workers: int, es: seq<Event>)
    requires IsRun(Initial(bufSize, workers), es)
    ensures var w := After(Initial(bufSize, workers), es);
            && multiset(w.submitted)
               == multiset(w.dropped) + multiset(w.queue) + Held(w.workers) + multiset(w.attempted)
            && |w.queue| <= w.capacity && w.droppedCount == |w.dropped|
  {
    InitialConserved(bufSize, workers);
    ConservedRun(Initial(bufSize, workers), es);
  }

  /** Once `Close` has returned, every accepted record was attempted exactly once. */
  lemma ClosedMeansWritten(bufSize: int, workers: int, es: seq<Event>)
    requires IsRun(Initial(bufSize, workers), es)
    requires CloseReturned(After(Initial(bufSize, workers), es))
    ensures var w := After(Initial(bufSize, workers), es);
            && multiset(w.attempted) == multiset(w.accepted)
            && multiset(w.submitted) == multiset(w.attempted) + multiset(w.dropped)
  {
    InitialConserved(bufSize, workers);
    ConservedRun(Initial(bufSize, workers), es);
    SameWorkers(Initial(bufSize, workers), es);
    var w := After(Initial(bufSize, workers), es);
    assert w.workers[0].Exited?;
    HeldByNone(w.workers);
  }

  lemma {:induction false} SameWorkers(w: World, es: seq<Event>)
    requires IsRun(w, es)
    ensures |After(w, es).workers| == |w.workers|
    decreases |es|
  {
    if es != [] {
      SameWorkers(Step(w, es[0]), es[1..]);
    }
  }

  // ----- When a record is dropped

  /** How many records were taken from the queue. */
  function Taken(es: seq<Event>): nat {
    if es == [] then 0 else (if es[0].Take? then 1 else 0) + Taken(es[1..])
  }

  function Submissions(es: seq<Event>): nat {
    if es == [] then 0 else (if es[0].Submit? then 1 else 0) + Submissions(es[1..])
  }

  /** The queue is what was accepted and not yet taken, and its capacity never changes. */
  lemma {:induction false} QueueLength(w: World, es: seq<Event>)
    requires IsRun(w, es)
    ensures var w' := After(w, es);
            && |w'.queue| + Taken(es) - |w'.accepted| == |w.queue| - |w.accepted| && w'.capacity == w.capacity
            && |w'.submitted| == |w.submitted| + Submissions(es)
    decreases |es|
  {
    if es != [] {
      QueueLength(Step(w, es[0]), es[1..]);
    }
  }

  /** Over every run, a record is dropped iff, when it is submitted, as many records are
      accepted and not yet taken as the buffer holds: 10000 unless a positive size is given.
      Otherwise it is accepted. */
  lemma DroppedIff(bufSize: int, workers: int, es: seq<Event>, r: UsageRecord)
    requires IsRun(Initial(bufSize, workers), es) && !After(Initial(bufSize, workers), es).closed
    ensures var w := After(Initial(bufSize, workers), es);
            var w' := Step(w, Submit(r));
            var full := |w.accepted| - Taken(es) == if bufSize > 0 then bufSize else 10000;
            && w'.submitted == w.submitted + [r]
            && (full ==> w'.dropped == w.dropped + [r] && w'.accepted == w.accepted && w'.queue == w.queue)
            && (!full ==> w'.dropped == w.dropped && w'.accepted == w.accepted + [r] && w'.queue == w.queue + [r])
  {
    QueueLength(Initial(bufSize, workers), es);
    Conservation(bufSize, workers, es);
  }

  /** As long as no more is submitted than the buffer holds, nothing is dropped, and once
      `Close` has returned everything submitted was attempted. */
  lemma NothingDropped(bufSize: int, workers: int, es: seq<Event>)
    requires IsRun(Initial(bufSize, workers), es) && Submissions(es) <= if bufSize > 0 then bufSize else 10000
    ensures var w := After(Initial(bufSize, workers), es);
            && w.dropped == []
            && (CloseReturned(w) ==> multiset(w.attempted) == multiset(w.submitted))
  {
    NothingDroppedFrom(Initial(bufSize, workers), es);
    if CloseReturned(After(Initial(bufSize, workers), es)) {
      ClosedMeansWritten(bufSize, workers, es);
    }
  }

  lemma {:induction false} NothingDroppedFrom(w: World, es: seq<Event>)
    requires IsRun(w, es) && w.dropped == [] && |w.queue| + Submissions(es) <= w.capacity
    ensures After(w, es).dropped == []
    decreases |es|
  {
    if es != [] {
      NothingDroppedFrom(Step(w, es[0]), es[1..]);
    }
  }

  /** A new recorder has the workers asked for, four unless a positive number is given, all
      waiting. */
  lemma InitialWorkers(bufSize: int, workers: int)
    ensures var w := Initial(bufSize, workers);
            && |w.workers| == (if workers > 0 then workers else 4)
            && (forall i :: 0 <= i < |w.workers| ==> w.workers[i].Idle?)
            && w.queue == w.submitted == w.dropped == w.attempted == [] && !w.closed
  {
  }

  // ----- Order

  function HeldOrder(worker: Worker): seq<UsageRecord> {
    if worker.Holding? then [worker.record] else []
  }

  /** With one worker, writing follows the order of submission. */
  predicate InOrder(w: World) {
    |w.workers| == 1 && w.accepted == w.attempted + HeldOrder(w.workers[0]) + w.queue
  }

  lemma {:induction false} SingleWorkerOrder(w: World, es: seq<Event>)
    requires InOrder(w) && IsRun(w, es)
    ensures InOrder(After(w, es))
    ensures After(w, es).attempted <= After(w, es).accepted
    decreases |es|
  {
    if es != [] {
      var w' := Step(w, es[0]);
      if es[0].Take? {
        assert w.queue == [w.queue[0]] + w.queue[1..];
      }
      assert InOrder(w');
      SingleWorkerOrder(w', es[1..]);
    }
  }

  // ----- Close terminates

  function Load(worker: Worker): nat {
    match worker
    case Holding(_) => 2
    case Idle => 1
    case Exited => 0
  }

  function TotalLoad(workers: seq<Worker>): nat {
    if workers == [] then 0 else Load(workers[0]) + TotalLoad(workers[1..])
  }

  /** An upper bound on the steps left after the channel is closed. */
  function StepsLeft(w: World): nat {
    3 * |w.queue| + TotalLoad(w.workers)
  }

  lemma {:induction false} LoadUpdate(workers: seq<Worker>, i: nat, next: Worker)
    requires i < |workers|
    ensures TotalLoad(workers[i := next]) + Load(workers[i]) == TotalLoad(workers) + Load(next)
  {
    var updated := workers[i := next];
    if i == 0 {
      assert updated[1..] == workers[1..];
    } else {
      LoadUpdate(workers[1..], i - 1, next);
      assert updated[1..] == workers[1..][i - 1 := next];
    }
  }

  lemma ClosedStepShrinks(w: World, e: Event)
    requires w.closed && Enabled(w, e)
    ensures Step(w, e).closed && StepsLeft(Step(w, e)) < StepsLeft(w)
  {
    match e
    case Take(i) => LoadUpdate(w.workers, i, Holding(w.queue[0]));
    case Write(i) => LoadUpdate(w.workers, i, Idle);
    case Exit(i) => LoadUpdate(w.workers, i, Exited);
  }

  /** After the close, every schedule is finite and none gets stuck before `Close` returns:
      a run that cannot be continued has drained everything. */
  lemma {:induction false} CloseTerminates(w: World, es: seq<Event>)
    requires w.closed && IsRun(w, es)
    ensures |es| <= StepsLeft(w)
    ensures (forall e :: !Enabled(After(w, es), e)) ==> CloseReturned(After(w, es))
    decreases |es|
  {
    if es == [] {
      if !CloseReturned(w) {
        var i :| 0 <= i < |w.workers| && !w.workers[i].Exited?;
        assert Enabled(w, Write(i)) || Enabled(w, Take(i)) || Enabled(w, Exit(i));
      }
    } else {
      ClosedStepShrinks(w, es[0]);
      CloseTerminates(Step(w, es[0]), es[1..]);
    }
  }

  // ----- The implementation

  lemma {:induction false} RunSnoc(w: World, es: seq<Event>, e: Event)
    requires IsRun(w, es) && Enabled(After(w, es), e)
    ensures IsRun(w, es + [e]) && After(w, es + [e]) == Step(After(w, es), e)
    decreases |es|
  {
    if es == [] {
      assert [e][1..] == [] && es + [e] == [e];
    } else {
      RunSnoc(Step(w, es[0]), es[1..], e);
      assert (es + [e])[1..] == es[1..] + [e];
    }
  }

  /** Some schedule leads from `w` to `w'`. */
  ghost predicate Leads(w: World, w': World) {
    exists es :: IsRun(w, es) && After(w, es) == w'
  }

  lemma LeadsNowhere(w: World)
    ensures Leads(w, w)
  {
    assert IsRun(w, []) && After(w, []) == w;
  }

  lemma LeadsStep(w: World, w1: World, e: Event)
    requires Leads(w, w1) && Enabled(w1, e)
    ensures Leads(w, Step(w1, e))
  {
    var es :| IsRun(w, es) && After(w, es) == w1;
    RunSnoc(w, es, e);
  }

  /** The world after an idle worker has written the first `n` queued records by itself. */
  function Drained(w: World, n: nat): World
    requires n <= |w.queue|
  {
    w.(queue := w.queue[n..], attempted := w.attempted + w.queue[..n])
  }

  lemma DrainOne(w0: World, w: World, i: nat, n: nat)
    requires n < |w.queue| && i < |w.workers| && w.workers[i].Idle? && Leads(w0, Drained(w, n))
    ensures Leads(w0, Drained(w, n + 1))
  {
    var w1 := Drained(w, n);
    LeadsStep(w0, w1, Take(i));
    LeadsStep(w0, Step(w1, Take(i)), Write(i));
    assert Step(Step(w1, Take(i)), Write(i)) == Drained(w, n + 1) by {
      assert w.workers[i := Holding(w1.queue[0])][i := Idle] == w.workers;
      assert w1.queue[1..] == w.queue[n + 1..];
      assert w.attempted + w.queue[..n] + [w.queue[n]] == w.attempted + w.queue[..n + 1];
    }
  }

  class AsyncRecorder {
    const capacity: int
    var ch: seq<UsageRecord>
    var closed: bool
    var workers: seq<Worker>
    var dropped: int
    var ledger: seq<UsageRecord>
    ghost var submitted: seq<UsageRecord>
    ghost var accepted: seq<UsageRecord>
    ghost var lost: seq<UsageRecord>

    ghost function Abs(): World
      reads this
    {
      World(capacity, ch, closed, workers, dropped, submitted, accepted, lost, ledger)
    }

    constructor (bufSize: int, workers: int)
      ensures Abs() == Initial(bufSize, workers)
    {
      capacity := if bufSize <= 0 then 10000 else bufSize;
      this.workers := seq(if workers <= 0 then 4 else workers, _ => Idle);
      ch, closed, dropped, ledger := [], false, 0, [];
      submitted, accepted, lost := [], [], [];
    }

    /** Enqueue the record, or drop and count it when the buffer is full. */
    method Record(r: UsageRecord)
      requires !closed
      modifies this
      ensures Abs() == Step(old(Abs()), Submit(r))
    {
      if |ch| < capacity {
        ch := ch + [r];
        accepted := accepted + [r];
      } else {
        dropped := dropped + 1;
        lost := lost + [r];
      }
      submitted := submitted + [r];
    }

    /** The loop of one worker after the close, when it is the one that drains the channel:
        it writes everything still queued, in order, and leaves; the step system allows it. */
    method DrainAndExit(i: nat)
      requires closed && i < |workers| && workers[i].Idle?
      modifies this`ch, this`workers, this`ledger
      ensures Abs() == Drained(old(Abs()), |old(ch)|).(workers := old(workers)[i := Exited])
      ensures Leads(old(Abs()), Abs())
    {
      ghost var w := Abs();
      ghost var n := 0;
      LeadsNowhere(w);
      assert w == Drained(w, 0);
      hide Leads, IsRun, After;
      while |ch| > 0
        invariant n <= |w.queue| && Abs() == Drained(w, n) && Leads(w, Abs())
        decreases |ch|
      {
        DrainOne(w, w, i, n);
        var record := ch[0];
        ch := ch[1..];
        ledger := ledger + [record];
        n := n + 1;
        assert w.attempted + w.queue[..n - 1] + [w.queue[n - 1]] == w.attempted + w.queue[..n];
      }
      LeadsStep(w, Abs(), Exit(i));
      workers := workers[i := Exited];
    }
  }
}
