/** The streaming-response interceptor: it passes bytes through, folds the usage that
    the events report, and accounts for the stream exactly once. */
module StreamInterceptor {
  import opened Common
  import opened SseFraming
  import opened SseEvent
  import Meter

  /** What a provider's stream parser extracts from one event. */
  datatype Chunk = Chunk(model: string, inputTokens: int, outputTokens: int, text: string)

  /** Code and data the interceptor is given: the provider's parser (`None` for an error
      or for no chunk), the request's model, the token estimator, the price table, and
      whether a session is to be charged. */
  datatype Env = Env(
    parse: (seq<Byte>, seq<Byte>) -> Option<Chunk>,
    requestModel: Option<string>,
    estimate: (string, string) -> int,
    table: Meter.Table,
    charging: bool)

  /** The chunk that an event block contributes, if any. */
  function ParseEvent(env: Env, body: seq<Byte>): Option<Chunk> {
    var f := ScanLines(SplitLines(body));
    if f.payload == [] || f.payload == DONE then None else env.parse(f.eventType, f.payload)
  }

  /** What a block contributes, from its lines alone: nothing if its data values after the
      leading empty ones, joined by LF, are empty or the end marker; else what the provider's
      parser makes of the value of its last `event:` line and that data. */
  ghost predicate Contributes(env: Env, body: seq<Byte>, c: Option<Chunk>) {
    var lines := SplitLines(body);
    var data := Join(DropLeadingEmpty(DataValues(lines)));
    exists eventType ::
      && IsEventType(lines, eventType)
      && c == if data == [] || data == Ascii("[DONE]") then None else env.parse(eventType, data)
  }

  lemma ParseEventMeaning(env: Env, body: seq<Byte>)
    ensures Contributes(env, body, ParseEvent(env, body))
  {
    var lines := SplitLines(body);
    PayloadMeaning(lines);
    EventTypeMeaning(lines);
    FieldNames();
    hide ScanLines, SplitLines, DataValues, Join, DropLeadingEmpty, IsEventType;
    assert IsEventType(lines, ScanLines(lines).eventType);
  }

  // ----- Usage over many events

  datatype Usage = Usage(model: string, inputTokens: int, outputTokens: int, text: string)

  const NO_USAGE := Usage("", 0, 0, "")

  function Absorb(u: Usage, c: Chunk): Usage {
    Usage(
      if c.model != "" then c.model else u.model,
      if c.inputTokens > 0 then c.inputTokens else u.inputTokens,
      if c.outputTokens > 0 then c.outputTokens else u.outputTokens,
      u.text + c.text)
  }

  function ApplyBody(env: Env, u: Usage, body: seq<Byte>): Usage {
    var c := ParseEvent(env, body);
    if c.Some? then Absorb(u, c.value) else u
  }

  function ApplyBlocks(env: Env, u: Usage, blocks: seq<Block>): Usage
    decreases |blocks|
  {
    if blocks == [] then u else ApplyBlocks(env, ApplyBody(env, u, blocks[0].body), blocks[1..])
  }

  lemma {:induction false} ApplyBlocksConcat(env: Env, u: Usage, a: seq<Block>, b: seq<Block>)
    ensures ApplyBlocks(env, u, a + b) == ApplyBlocks(env, ApplyBlocks(env, u, a), b)
    decreases |a|
  {
    hide ApplyBody;
    if a == [] {
      assert a + b == b;
    } else {
      ApplyBlocksConcat(env, ApplyBody(env, u, a[0].body), a[1..], b);
      assert (a + b)[1..] == a[1..] + b;
    }
  }

  /** The chunks that a list of blocks contributes. */
  function Chunks(env: Env, blocks: seq<Block>): seq<Chunk> {
    if blocks == [] then []
    else
      var c := ParseEvent(env, blocks[0].body);
      (if c.Some? then [c.value] else []) + Chunks(env, blocks[1..])
  }

  /** `cs` are the contributions of the blocks, in order. */
  ghost predicate AreChunks(env: Env, blocks: seq<Block>, cs: seq<Chunk>)
    decreases |blocks|
  {
    if blocks == [] then cs == []
    else
      exists c ::
        && Contributes(env, blocks[0].body, c)
        && if c.None? then AreChunks(env, blocks[1..], cs)
           else cs != [] && cs[0] == c.value && AreChunks(env, blocks[1..], cs[1..])
  }

  lemma {:induction false} ChunksMeaning(env: Env, blocks: seq<Block>)
    ensures AreChunks(env, blocks, Chunks(env, blocks))
    decreases |blocks|
  {
    if blocks != [] {
      hide Contributes, ParseEvent;
      var c, cs := ParseEvent(env, blocks[0].body), Chunks(env, blocks);
      ParseEventMeaning(env, blocks[0].body);
      ChunksMeaning(env, blocks[1..]);
      if c.Some? {
        assert cs[1..] == Chunks(env, blocks[1..]);
      } else {
        assert [] + Chunks(env, blocks[1..]) == Chunks(env, blocks[1..]);
      }
      assert Contributes(env, blocks[0].body, c);
    }
  }

  function Texts(cs: seq<Chunk>): string {
    if cs == [] then "" else cs[0].text + Texts(cs[1..])
  }

  /** `m` is the last non-empty model reported, or `before` when there is none. */
  ghost predicate IsLastModel(cs: seq<Chunk>, before: string, m: string) {
    || (m == before && forall i :: 0 <= i < |cs| ==> cs[i].model == "")
    || exists k :: 0 <= k < |cs| && cs[k].model == m && m != "" && forall i :: k < i < |cs| ==> cs[i].model == ""
  }

  ghost predicate IsLastInput(cs: seq<Chunk>, before: int, n: int) {
    || (n == before && forall i :: 0 <= i < |cs| ==> cs[i].inputTokens <= 0)
    || exists k ::
         0 <= k < |cs| && cs[k].inputTokens == n && n > 0 && forall i :: k < i < |cs| ==> cs[i].inputTokens <= 0
  }

  ghost predicate IsLastOutput(cs: seq<Chunk>, before: int, n: int) {
    || (n == before && forall i :: 0 <= i < |cs| ==> cs[i].outputTokens <= 0)
    || exists k ::
         0 <= k < |cs| && cs[k].outputTokens == n && n > 0 && forall i :: k < i < |cs| ==> cs[i].outputTokens <= 0
  }

  ghost predicate Summarises(cs: seq<Chunk>, before: Usage, u: Usage) {
    && IsLastModel(cs, before.model, u.model)
    && IsLastInput(cs, before.inputTokens, u.inputTokens)
    && IsLastOutput(cs, before.outputTokens, u.outputTokens)
    && u.text == before.text + Texts(cs)
  }

  lemma LastModelCons(c: Chunk, cs: seq<Chunk>, before: string, m: string)
    requires IsLastModel(cs, if c.model != "" then c.model else before, m)
    ensures IsLastModel([c] + cs, before, m)
  {
    var all := [c] + cs;
    assert forall i :: 1 <= i < |all| ==> all[i] == cs[i - 1];
    if exists k :: 0 <= k < |cs| && cs[k].model == m && m != "" && forall i :: k < i < |cs| ==> cs[i].model == "" {
      var k :| 0 <= k < |cs| && cs[k].model == m && m != "" && forall i :: k < i < |cs| ==> cs[i].model == "";
      assert all[k + 1].model == m;
    } else if c.model != "" {
      assert all[0].model == m;
    }
  }

  lemma LastInputCons(c: Chunk, cs: seq<Chunk>, before: int, n: int)
    requires IsLastInput(cs, if c.inputTokens > 0 then c.inputTokens else before, n)
    ensures IsLastInput([c] + cs, before, n)
  {
    var all := [c] + cs;
    assert forall i :: 1 <= i < |all| ==> all[i] == cs[i - 1];
    if exists k ::
         0 <= k < |cs| && cs[k].inputTokens == n && n > 0 && forall i :: k < i < |cs| ==> cs[i].inputTokens <= 0 {
      var k :| 0 <= k < |cs| && cs[k].inputTokens == n && n > 0 && forall i :: k < i < |cs| ==> cs[i].inputTokens <= 0;
      assert all[k + 1].inputTokens == n;
    } else if c.inputTokens > 0 {
      assert all[0].inputTokens == n;
    }
  }

  lemma LastOutputCons(c: Chunk, cs: seq<Chunk>, before: int, n: int)
    requires IsLastOutput(cs, if c.outputTokens > 0 then c.outputTokens else before, n)
    ensures IsLastOutput([c] + cs, before, n)
  {
    var all := [c] + cs;
    assert forall i :: 1 <= i < |all| ==> all[i] == cs[i - 1];
    if exists k ::
         0 <= k < |cs| && cs[k].outputTokens == n && n > 0 && forall i :: k < i < |cs| ==> cs[i].outputTokens <= 0 {
      var k :|
        0 <= k < |cs| && cs[k].outputTokens == n && n > 0 && forall i :: k < i < |cs| ==> cs[i].outputTokens <= 0;
      assert all[k + 1].outputTokens == n;
    } else if c.outputTokens > 0 {
      assert all[0].outputTokens == n;
    }
  }

  lemma SummarisesCons(c: Chunk, cs: seq<Chunk>, before: Usage, u: Usage)
    requires Summarises(cs, Absorb(before, c), u)
    ensures Summarises([c] + cs, before, u)
  {
    LastModelCons(c, cs, before.model, u.model);
    LastInputCons(c, cs, before.inputTokens, u.inputTokens);
    LastOutputCons(c, cs, before.outputTokens, u.outputTokens);
    assert ([c] + cs)[1..] == cs;
    assert u.text == before.text + (c.text + Texts(cs));
  }

  /** Folding events keeps the last non-empty model, the last positive token counts and
      all of the text. */
  lemma {:induction false} UsageMeaning(env: Env, u: Usage, blocks: seq<Block>)
    ensures Summarises(Chunks(env, blocks), u, ApplyBlocks(env, u, blocks))
    decreases |blocks|
  {
    if blocks != [] {
      hide ParseEvent, Summarises;
      var c, rest := ParseEvent(env, blocks[0].body), Chunks(env, blocks[1..]);
      UsageMeaning(env, ApplyBody(env, u, blocks[0].body), blocks[1..]);
      if c.Some? {
        SummarisesCons(c.value, rest, u, ApplyBlocks(env, u, blocks));
      } else {
        assert [] + rest == rest;
      }
    }
  }

  // ----- The interceptor as a state machine

  datatype UsageRecord = UsageRecord(
    model: string, inputTokens: int, outputTokens: int, totalTokens: int, cost: real, estimated: bool)

  datatype Charge = Charge(cost: real, tokens: int)

  datatype StreamState = StreamState(
    buf: seq<Byte>, usage: Usage, finalized: bool, records: seq<UsageRecord>, charges: seq<Charge>)

  const INITIAL := StreamState([], NO_USAGE, false, [], [])

  /** A read that delivers `data`, possibly together with end of file, or a close. */
  datatype Op = ReadOp(data: seq<Byte>, eof: bool) | CloseOp {
    predicate Ends() { CloseOp? || eof }
    function Data(): seq<Byte> { if ReadOp? then data else [] }
  }

  function FinalModel(env: Env, u: Usage): string {
    if u.model == "" && env.requestModel.Some? then env.requestModel.value else u.model
  }

  predicate Estimates(u: Usage) {
    u.outputTokens == 0 && |u.text| > 0
  }

  function FinalOutput(env: Env, u: Usage): int {
    if Estimates(u) then env.estimate(FinalModel(env, u), u.text) else u.outputTokens
  }

  function MakeRecord(env: Env, u: Usage): UsageRecord {
    var m, o := FinalModel(env, u), FinalOutput(env, u);
    UsageRecord(m, u.inputTokens, o, u.inputTokens + o, Meter.Calculate(env.table, m, u.inputTokens, o), Estimates(u))
  }

  function MakeCharge(r: UsageRecord): Charge {
    Charge(r.cost, r.totalTokens)
  }

  function Finalize(env: Env, st: StreamState): StreamState {
    if st.finalized then st
    else
      var r := MakeRecord(env, st.usage);
      StreamState(st.buf, st.usage.(outputTokens := FinalOutput(env, st.usage)), true, st.records + [r],
                  if env.charging then st.charges + [MakeCharge(r)] else st.charges)
  }

  function Process(env: Env, st: StreamState): StreamState {
    var f := Frame(st.buf);
    st.(buf := f.rest, usage := ApplyBlocks(env, st.usage, f.blocks))
  }

  function Step(env: Env, st: StreamState, op: Op): StreamState {
    var fed := if op.Data() != [] then Process(env, st.(buf := st.buf + op.Data())) else st;
    if op.Ends() then Finalize(env, fed) else fed
  }

  function Run(env: Env, ops: seq<Op>): StreamState {
    if ops == [] then INITIAL else Step(env, Run(env, ops[..|ops| - 1]), ops[|ops| - 1])
  }

  /** The bytes of every operation, one chunk each. */
  function Reads(ops: seq<Op>): seq<seq<Byte>> {
    if ops == [] then [] else Reads(ops[..|ops| - 1]) + [ops[|ops| - 1].Data()]
  }

  /** Index of the first operation that ends the stream, or `|ops|`. */
  function FirstEnd(ops: seq<Op>): (k: nat)
    ensures k <= |ops|
    ensures forall i :: 0 <= i < k ==> !ops[i].Ends()
    ensures k < |ops| ==> ops[k].Ends()
  {
    if ops == [] then 0
    else
      var k := FirstEnd(ops[..|ops| - 1]);
      if k < |ops| - 1 then k
      else if ops[|ops| - 1].Ends() then |ops| - 1
      else |ops|
  }

  /** The usage folded from everything that the operations delivered. */
  function UsageOf(env: Env, ops: seq<Op>): Usage {
    ApplyBlocks(env, NO_USAGE, Feed(EMPTY, Reads(ops)).blocks)
  }

  lemma {:induction false} FeedAppend(f: Framed, chunks: seq<seq<Byte>>, c: seq<Byte>)
    ensures Feed(f, chunks + [c]) == FeedOne(Feed(f, chunks), c)
    decreases |chunks|
  {
    if chunks == [] {
      assert (chunks + [c])[1..] == [];
    } else {
      FeedAppend(FeedOne(f, chunks[0]), chunks[1..], c);
      assert (chunks + [c])[1..] == chunks[1..] + [c];
    }
  }

  lemma FeedOneEmpty(f: Framed)
    requires NoTerminator(f.rest)
    ensures FeedOne(f, []) == f
  {
    assert f.rest + [] == f.rest;
  }

  /** One operation moves buffer and usage along the framing of the delivered bytes. */
  lemma {:induction false} StepFollowsFeed(env: Env, f: Framed, op: Op)
    requires NoTerminator(f.rest)
    ensures var st := StreamState(f.rest, ApplyBlocks(env, NO_USAGE, f.blocks), false, [], []);
            var g := FeedOne(f, op.Data());
            var fed := st.(buf := g.rest, usage := ApplyBlocks(env, NO_USAGE, g.blocks));
            Step(env, st, op) == if op.Ends() then Finalize(env, fed) else fed
  {
    if op.Data() == [] {
      FeedOneEmpty(f);
    } else {
      ApplyBlocksConcat(env, NO_USAGE, f.blocks, Frame(f.rest + op.Data()).blocks);
    }
    hide ApplyBlocks, Frame, Finalize, NextCut;
  }

  /** Before the end of the stream nothing is recorded; buffer and usage follow the
      framing of the delivered bytes. */
  lemma {:induction false} RunBeforeEnd(env: Env, ops: seq<Op>)
    requires FirstEnd(ops) == |ops|
    ensures var f := Feed(EMPTY, Reads(ops));
            Run(env, ops) == StreamState(f.rest, UsageOf(env, ops), false, [], [])
    ensures NoTerminator(Feed(EMPTY, Reads(ops)).rest)
  {
    FeedLossless(EMPTY, Reads(ops));
    if ops != [] {
      hide Step, Feed, FeedOne, ApplyBlocks, NoTerminator;
      var init, op := ops[..|ops| - 1], ops[|ops| - 1];
      RunOfInit(env, ops);
      RunBeforeEnd(env, init);
      FeedAppend(EMPTY, Reads(init), op.Data());
      StepFollowsFeed(env, Feed(EMPTY, Reads(init)), op);
    }
  }

  /** Recorded once, and the session charged once if there is one, for what `ops` delivered. */
  ghost predicate AccountedFor(env: Env, st: StreamState, ops: seq<Op>) {
    var r := MakeRecord(env, UsageOf(env, ops));
    st.finalized && st.records == [r] && st.charges == if env.charging then [MakeCharge(r)] else []
  }

  /** Every run that reaches end of file or a close accounts once for everything delivered
      up to that point; all other runs record nothing. */
  lemma {:induction false} RecordedExactlyOnce(env: Env, ops: seq<Op>)
    ensures FirstEnd(ops) == |ops| ==> Run(env, ops).records == [] && Run(env, ops).charges == []
    ensures FirstEnd(ops) < |ops| ==> AccountedFor(env, Run(env, ops), ops[..FirstEnd(ops) + 1])
  {
    hide *;
    var k := FirstEnd(ops);
    if k == |ops| {
      RunBeforeEnd(env, ops);
    } else if k < |ops| - 1 {
      var init := ops[..|ops| - 1];
      RunOfInit(env, ops);
      RecordedExactlyOnce(env, init);
      assert init[..k + 1] == ops[..k + 1];
      AccountedAfterEnd(env, Run(env, init), ops[|ops| - 1], ops[..k + 1]);
    } else {
      assert ops[..k + 1] == ops;
      EndingStep(env, ops);
    }
  }

  lemma RunOfInit(env: Env, ops: seq<Op>)
    requires ops != []
    ensures var init := ops[..|ops| - 1];
            && Run(env, ops) == Step(env, Run(env, init), ops[|ops| - 1])
            && (FirstEnd(ops) < |ops| - 1 ==> FirstEnd(init) == FirstEnd(ops))
            && (FirstEnd(ops) >= |ops| - 1 ==> FirstEnd(init) == |init|)
            && Reads(ops) == Reads(init) + [ops[|ops| - 1].Data()]
  {
    hide Step;
  }

  lemma AccountedAfterEnd(env: Env, st: StreamState, op: Op, ops: seq<Op>)
    requires AccountedFor(env, st, ops)
    ensures AccountedFor(env, Step(env, st, op), ops)
  {
  }

  lemma EndingStep(env: Env, ops: seq<Op>)
    requires ops != [] && FirstEnd(ops) == |ops| - 1
    ensures AccountedFor(env, Run(env, ops), ops)
  {
    hide Step, Feed, FeedOne, ApplyBlocks, NoTerminator, MakeRecord;
    var init, op := ops[..|ops| - 1], ops[|ops| - 1];
    RunOfInit(env, ops);
    RunBeforeEnd(env, init);
    FeedAppend(EMPTY, Reads(init), op.Data());
    StepFollowsFeed(env, Feed(EMPTY, Reads(init)), op);
  }

  lemma UsageOfUnmixed(env: Env, ops: seq<Op>, s: seq<Byte>)
    requires s == Flatten(Reads(ops)) && Unmixed(s)
    ensures UsageOf(env, ops) == ApplyBlocks(env, NO_USAGE, Frame(s).blocks)
  {
    assert [] + s == s;
    FeedEqualsFrame([], Reads(ops));
    assert Frame([]) == EMPTY;
  }

  /** Two runs that deliver the same unmixed bytes before their end record the same,
      however the bytes were cut into reads. */
  lemma {:induction false} DeliveryInvisible(env: Env, ops: seq<Op>, ops': seq<Op>, s: seq<Byte>)
    requires FirstEnd(ops) < |ops| && FirstEnd(ops') < |ops'|
    requires Flatten(Reads(ops[..FirstEnd(ops) + 1])) == s == Flatten(Reads(ops'[..FirstEnd(ops') + 1]))
    requires Unmixed(s)
    ensures Run(env, ops).records == Run(env, ops').records
    ensures Run(env, ops).charges == Run(env, ops').charges
  {
    var a, b := ops[..FirstEnd(ops) + 1], ops'[..FirstEnd(ops') + 1];
    UsageOfUnmixed(env, a, s);
    UsageOfUnmixed(env, b, s);
    RecordedExactlyOnce(env, ops);
    RecordedExactlyOnce(env, ops');
    SameAccount(env, Run(env, ops), a, Run(env, ops'), b);
  }

  lemma SameAccount(env: Env, st: StreamState, ops: seq<Op>, st': StreamState, ops': seq<Op>)
    requires AccountedFor(env, st, ops) && AccountedFor(env, st', ops') && UsageOf(env, ops) == UsageOf(env, ops')
    ensures st.records == st'.records && st.charges == st'.charges
  {
  }

  /** The record bills the usage: the reported model, or else the one asked for; the
      reported tokens, except that output is estimated, and marked so, when none was reported
      for a text that is not empty; and the price of these. */
  predicate Bills(env: Env, u: Usage, r: UsageRecord) {
    && (u.model != "" ==> r.model == u.model)
    && (u.model == "" && env.requestModel.Some? ==> r.model == env.requestModel.value)
    && (u.model == "" && env.requestModel.None? ==> r.model == "")
    && r.inputTokens == u.inputTokens && r.totalTokens == r.inputTokens + r.outputTokens
    && (r.estimated <==> u.outputTokens == 0 && u.text != "")
    && r.outputTokens == (if r.estimated then env.estimate(r.model, u.text) else u.outputTokens)
    && r.cost == Meter.Calculate(env.table, r.model, r.inputTokens, r.outputTokens)
  }

  /** What the one record of a finished stream, and the one charge of its session, say in
      terms of the chunks reported up to the end. */
  lemma {:induction false} RecordMeaning(env: Env, ops: seq<Op>)
    requires FirstEnd(ops) < |ops|
    ensures exists cs, u, r ::
              && AreChunks(env, Feed(EMPTY, Reads(ops[..FirstEnd(ops) + 1])).blocks, cs)
              && Summarises(cs, NO_USAGE, u) && Bills(env, u, r)
              && Run(env, ops).records == [r]
              && Run(env, ops).charges == if env.charging then [Charge(r.cost, r.totalTokens)] else []
  {
    hide *;
    var seen := ops[..FirstEnd(ops) + 1];
    RecordedExactlyOnce(env, ops);
    ChunksMeaning(env, Feed(EMPTY, Reads(seen)).blocks);
    UsageMeaning(env, NO_USAGE, Feed(EMPTY, Reads(seen)).blocks);
    AccountBills(env, Run(env, ops), seen);
  }

  lemma AccountBills(env: Env, st: StreamState, ops: seq<Op>)
    requires AccountedFor(env, st, ops)
    ensures var u, r := ApplyBlocks(env, NO_USAGE, Feed(EMPTY, Reads(ops)).blocks), MakeRecord(env, UsageOf(env, ops));
            && Bills(env, u, r) && st.records == [r]
            && st.charges == if env.charging then [Charge(r.cost, r.totalTokens)] else []
  {
    hide ApplyBlocks, Feed, Reads;
  }

  // ----- The implementation

  class Interceptor {
    const env: Env
    var parseBuf: seq<Byte>
    var textBuf: string
    var model: string
    var inputTokens: int
    var outputTokens: int
    var finalized: bool
    var records: seq<UsageRecord>
    var charges: seq<Charge>

    ghost function CurrentUsage(): Usage
      reads this
    {
      Usage(model, inputTokens, outputTokens, textBuf)
    }

    ghost function State(): StreamState
      reads this
    {
      StreamState(parseBuf, CurrentUsage(), finalized, records, charges)
    }

    constructor (env: Env)
      ensures this.env == env && State() == INITIAL
    {
      this.env := env;
      parseBuf, textBuf, model, inputTokens, outputTokens := [], "", "", 0, 0;
      finalized, records, charges := false, [], [];
    }

    /** Pass the bytes of one upstream read through while parsing them. */
    method Read(data: seq<Byte>, eof: bool) returns (delivered: seq<Byte>)
      modifies this
      ensures State() == Step(env, old(State()), ReadOp(data, eof))
      ensures delivered == data
    {
      delivered := data;
      if |data| > 0 {
        parseBuf := parseBuf + data;
        ProcessEvents();
      }
      if eof {
        Finish();
      }
    }

    method Close()
      modifies this
      ensures State() == Step(env, old(State()), CloseOp)
    {
      Finish();
    }

    /** Cut and parse every complete event of the buffer. */
    method ProcessEvents()
      modifies this
      ensures State() == Process(env, old(State()))
    {
      ghost var target := Process(env, State());
      while true
        invariant Process(env, State()) == target
        decreases |parseBuf|
      {
        var c := NextCut(parseBuf);
        if c.NoCut? {
          break;
        }
        var event := parseBuf[..c.at];
        parseBuf := Tail(parseBuf, c);
        ParseSseEvent(event);
      }
    }

    /** Extract event type and data payload, and absorb the provider's chunk. */
    method ParseSseEvent(raw: seq<Byte>)
      modifies this`model, this`inputTokens, this`outputTokens, this`textBuf
      ensures State() == old(State()).(usage := ApplyBody(env, old(CurrentUsage()), raw))
    {
      hide ScanLines, SplitLines;
      var eventType, dataPayload := ScanBlock(raw);
      if dataPayload == [] || dataPayload == DONE {
        return;
      }
      var chunk := env.parse(eventType, dataPayload);
      if chunk.None? {
        return;
      }
      if chunk.value.model != "" {
        model := chunk.value.model;
      }
      if chunk.value.inputTokens > 0 {
        inputTokens := chunk.value.inputTokens;
      }
      if chunk.value.outputTokens > 0 {
        outputTokens := chunk.value.outputTokens;
      }
      if chunk.value.text != "" {
        textBuf := textBuf + chunk.value.text;
      }
    }

    /** Record the accumulated usage, the first time only. */
    method Finish()
      modifies this
      ensures State() == Finalize(env, old(State()))
    {
      if finalized {
        return;
      }
      finalized := true;
      var m := model;
      if m == "" && env.requestModel.Some? {
        m := env.requestModel.value;
      }
      var estimated := false;
      if outputTokens == 0 && |textBuf| > 0 {
        outputTokens := env.estimate(m, textBuf);
        estimated := true;
      }
      var cost := Meter.Calculate(env.table, m, inputTokens, outputTokens);
      records := records + [UsageRecord(m, inputTokens, outputTokens, inputTokens + outputTokens, cost, estimated)];
      if env.charging {
        charges := charges + [Charge(cost, inputTokens + outputTokens)];
      }
    }
  }
}
