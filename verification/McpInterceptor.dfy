/** The MCP interceptor: it pairs tool-call requests of a client with the responses of the
    server by JSON-RPC id and records each completed call. */
module McpInterceptor {
  import opened Common

  datatype Agent = Agent(agentId: string, sessionId: string, userId: string)

  /** A parsed message. `tool` is `None` when the parameters of a request do not parse, and
      `announced` is the server name of an initialize result, or empty. */
  datatype Message =
    | Malformed
    | Request(reqId: Option<string>, name: string, tool: Option<string>)
    | Response(respId: Option<string>, isError: bool, announced: string)

  datatype Event = Event(fromClient: bool, msg: Message, agent: Option<Agent>, now: int)

  datatype PendingCall = PendingCall(tool: string, start: int)

  datatype CallRecord = CallRecord(server: string, tool: string, cost: real, duration: int, status: int, agent: Agent)

  /** The price of a call, the initial server name and the default agent. */
  datatype Env = Env(price: (string, string) -> real, serverName: string, agent: Agent)

  datatype State = State(inflight: map<string, PendingCall>, serverName: string, records: seq<CallRecord>)

  const TOOLS_CALL := "tools/call"

  /** A client request that starts a metered call. */
  predicate Starts(e: Event) {
    && e.fromClient && e.msg.Request? && e.msg.name == TOOLS_CALL
    && e.msg.reqId.Some? && e.msg.tool.Some?
  }

  /** A server response that carries an id. */
  predicate Answers(e: Event) {
    !e.fromClient && e.msg.Response? && e.msg.respId.Some?
  }

  function MakeRecord(env: Env, server: string, p: PendingCall, e: Event): CallRecord
    requires Answers(e)
  {
    CallRecord(server, p.tool, env.price(server, p.tool), e.now - p.start,
               if e.msg.isError then 500 else 200,
               if e.agent.Some? then e.agent.value else env.agent)
  }

  function Step(env: Env, st: State, e: Event): State {
    if Starts(e) then st.(inflight := st.inflight[e.msg.reqId.value := PendingCall(e.msg.tool.value, e.now)])
    else if Answers(e) then
      var id := e.msg.respId.value;
      if id in st.inflight then
        st.(inflight := st.inflight - {id},
            records := st.records + [MakeRecord(env, st.serverName, st.inflight[id], e)])
      else if e.msg.announced != "" then st.(serverName := e.msg.announced)
      else st
    else st
  }

  function Run(env: Env, es: seq<Event>): State {
    if es == [] then State(map[], env.serverName, [])
    else Step(env, Run(env, es[..|es| - 1]), es[|es| - 1])
  }

  // ----- What a trace means, without the table of calls in flight

  /** The last tool call with this id that has not been answered yet. */
  function Pending(es: seq<Event>, id: string): Option<PendingCall> {
    if es == [] then None
    else
      var e := es[|es| - 1];
      if Starts(e) && e.msg.reqId.value == id then Some(PendingCall(e.msg.tool.value, e.now))
      else if Answers(e) && e.msg.respId.value == id then None
      else Pending(es[..|es| - 1], id)
  }

  /** The last name announced by a response that answers no pending call. */
  function ServerName(env: Env, es: seq<Event>): string {
    if es == [] then env.serverName
    else
      var init, e := es[..|es| - 1], es[|es| - 1];
      if Answers(e) && Pending(init, e.msg.respId.value).None? && e.msg.announced != "" then e.msg.announced
      else ServerName(env, init)
  }

  /** One record for every response that answers a pending call, and none for any other
      message; it names the tool of that call. */
  function Completed(env: Env, es: seq<Event>): seq<CallRecord> {
    if es == [] then []
    else
      var init, e := es[..|es| - 1], es[|es| - 1];
      if Answers(e) && Pending(init, e.msg.respId.value).Some? then
        Completed(env, init) + [MakeRecord(env, ServerName(env, init), Pending(init, e.msg.respId.value).value, e)]
      else Completed(env, init)
  }

  function Accepted(es: seq<Event>): nat {
    if es == [] then 0 else Accepted(es[..|es| - 1]) + (if Starts(es[|es| - 1]) then 1 else 0)
  }

  /** How many tool calls reused the id of a call that was still pending. */
  function Overwritten(es: seq<Event>): nat {
    if es == [] then 0
    else
      var init, e := es[..|es| - 1], es[|es| - 1];
      Overwritten(init) + (if Starts(e) && Pending(init, e.msg.reqId.value).Some? then 1 else 0)
  }

  function Lookup(m: map<string, PendingCall>, id: string): Option<PendingCall> {
    if id in m then Some(m[id]) else None
  }

  /** The interceptor records exactly the completed calls of the trace, and holds exactly
      the pending ones. */
  lemma {:induction false} RunMeaning(env: Env, es: seq<Event>)
    ensures forall id :: Lookup(Run(env, es).inflight, id) == Pending(es, id)
    ensures Run(env, es).serverName == ServerName(env, es)
    ensures Run(env, es).records == Completed(env, es)
  {
    if es != [] {
      var init, e := es[..|es| - 1], es[|es| - 1];
      RunMeaning(env, init);
      forall id
        ensures Lookup(Run(env, es).inflight, id) == Pending(es, id)
      {
        assert Lookup(Run(env, init).inflight, id) == Pending(init, id);
      }
      if Answers(e) {
        var id := e.msg.respId.value;
        assert Lookup(Run(env, init).inflight, id) == Pending(init, id);
      }
    }
  }

  /** Over every trace: accepted calls are recorded, in flight, or overwritten. */
  lemma {:induction false} CallsConserved(env: Env, es: seq<Event>)
    ensures Accepted(es) == |Run(env, es).records| + |Run(env, es).inflight| + Overwritten(es)
  {
    if es != [] {
      var init, e := es[..|es| - 1], es[|es| - 1];
      CallsConserved(env, init);
      RunMeaning(env, init);
      var st := Run(env, init);
      if Starts(e) {
        var id := e.msg.reqId.value;
        assert Lookup(st.inflight, id) == Pending(init, id);
        SizeOfUpdate(st.inflight, id, PendingCall(e.msg.tool.value, e.now));
      } else if Answers(e) && e.msg.respId.value in st.inflight {
        SizeOfRemoval(st.inflight, e.msg.respId.value);
      }
    }
  }

  // ----- Every record, by the messages themselves

  /** A client calls a tool under the id. */
  predicate Calls(e: Event, id: string) {
    e.fromClient && e.msg.Request? && e.msg.name == "tools/call" && e.msg.reqId == Some(id) && e.msg.tool.Some?
  }

  /** A server answers the id. */
  predicate Replies(e: Event, id: string) {
    !e.fromClient && e.msg.Response? && e.msg.respId == Some(id)
  }

  /** Message `i` calls a tool, and up to message `j` the id is neither called nor answered. */
  ghost predicate Unanswered(es: seq<Event>, i: int, j: int, id: string) {
    && 0 <= i < j <= |es| && Calls(es[i], id)
    && forall k :: i < k < j ==> !Calls(es[k], id) && !Replies(es[k], id)
  }

  /** Message `j` is the answer to a call. */
  ghost predicate IsAnswer(es: seq<Event>, j: int, id: string) {
    0 <= j < |es| && Replies(es[j], id) && exists i :: Unanswered(es, i, j, id)
  }

  /** Message `k` answers no call and announces a server. */
  ghost predicate Announces(es: seq<Event>, k: int) {
    && 0 <= k < |es| && !es[k].fromClient && es[k].msg.Response? && es[k].msg.respId.Some?
    && es[k].msg.announced != "" && forall i :: !Unanswered(es, i, k, es[k].msg.respId.value)
  }

  /** The name announced last before message `j`, or else the given one. */
  ghost predicate IsServerName(env: Env, es: seq<Event>, j: int, name: string) {
    || (name == env.serverName && forall k :: 0 <= k < j ==> !Announces(es, k))
    || exists k ::
         0 <= k < j && Announces(es, k) && es[k].msg.announced == name && forall m :: k < m < j ==> !Announces(es, m)
  }

  /** The record is that of the call `i` that message `j` answers. */
  ghost predicate Records(env: Env, es: seq<Event>, i: int, j: int, r: CallRecord) {
    && 0 <= i < j < |es| && es[j].msg.Response? && es[j].msg.respId.Some?
    && Unanswered(es, i, j, es[j].msg.respId.value) && IsServerName(env, es, j, r.server)
    && r.tool == es[i].msg.tool.value && r.cost == env.price(r.server, r.tool)
    && r.duration == es[j].now - es[i].now && (r.status == if es[j].msg.isError then 500 else 200)
    && (r.agent == if es[j].agent.Some? then es[j].agent.value else env.agent)
  }

  ghost predicate RecordsCall(env: Env, es: seq<Event>, j: int, r: CallRecord) {
    exists i :: Records(env, es, i, j, r)
  }

  ghost predicate Answered(es: seq<Event>, j: int) {
    exists id :: IsAnswer(es, j, id)
  }

  /** The records are those of the answers `at`, one each, in the order of the answers. */
  ghost predicate RecordsOf(env: Env, es: seq<Event>, at: seq<int>, records: seq<CallRecord>) {
    && |at| == |records|
    && (forall m, n :: 0 <= m < n < |at| ==> at[m] < at[n])
    && (forall j :: j in at <==> Answered(es, j))
    && (forall n :: 0 <= n < |at| ==> RecordsCall(env, es, at[n], records[n]))
  }

  lemma UnansweredPrefix(es: seq<Event>, e: Event, i: int, j: int, id: string)
    requires j <= |es|
    ensures Unanswered(es + [e], i, j, id) <==> Unanswered(es, i, j, id)
  {
    var all := es + [e];
    hide Calls, Replies;
    assert forall k :: 0 <= k < |es| ==> all[k] == es[k];
  }

  lemma AnnouncesPrefix(es: seq<Event>, e: Event, k: int)
    requires k < |es|
    ensures Announces(es + [e], k) <==> Announces(es, k)
  {
    if 0 <= k {
      assert (es + [e])[k] == es[k];
      if es[k].msg.Response? && es[k].msg.respId.Some? {
        forall i
          ensures Unanswered(es + [e], i, k, es[k].msg.respId.value) <==> Unanswered(es, i, k, es[k].msg.respId.value)
        {
          UnansweredPrefix(es, e, i, k, es[k].msg.respId.value);
        }
      }
    }
    hide Unanswered;
  }

  lemma ServerNamePrefix(env: Env, es: seq<Event>, e: Event, j: int, name: string)
    requires j <= |es| && IsServerName(env, es, j, name)
    ensures IsServerName(env, es + [e], j, name)
  {
    forall k | k < |es|
      ensures Announces(es + [e], k) <==> Announces(es, k)
    {
      AnnouncesPrefix(es, e, k);
    }
    hide Announces;
    if k :| && 0 <= k < j && Announces(es, k) && es[k].msg.announced == name
            && forall m :: k < m < j ==> !Announces(es, m) {
      assert (es + [e])[k] == es[k];
      assert Announces(es + [e], k);
    }
  }

  lemma RecordsPrefix(env: Env, es: seq<Event>, e: Event, i: int, j: int, r: CallRecord)
    requires Records(env, es, i, j, r)
    ensures Records(env, es + [e], i, j, r)
  {
    UnansweredPrefix(es, e, i, j, es[j].msg.respId.value);
    ServerNamePrefix(env, es, e, j, r.server);
    hide Unanswered, IsServerName;
    assert (es + [e])[i] == es[i] && (es + [e])[j] == es[j];
  }

  lemma AnswerPrefix(es: seq<Event>, e: Event, j: int, id: string)
    requires j < |es|
    ensures IsAnswer(es + [e], j, id) <==> IsAnswer(es, j, id)
  {
    forall i
      ensures Unanswered(es + [e], i, j, id) <==> Unanswered(es, i, j, id)
    {
      UnansweredPrefix(es, e, i, j, id);
    }
    hide Unanswered;
  }

  /** The pending call of an id is the unanswered one. */
  lemma {:induction false} PendingMeaning(es: seq<Event>, id: string)
    ensures Pending(es, id).Some? <==> exists i :: Unanswered(es, i, |es|, id)
    ensures forall i :: Unanswered(es, i, |es|, id) ==>
              Pending(es, id) == Some(PendingCall(es[i].msg.tool.value, es[i].now))
  {
    if es != [] {
      var init, e := es[..|es| - 1], es[|es| - 1];
      assert init + [e] == es;
      PendingMeaning(init, id);
      forall i
        ensures Unanswered(es, i, |es|, id)
                <==> (i == |es| - 1 && Calls(e, id))
                     || (!Calls(e, id) && !Replies(e, id) && Unanswered(init, i, |init|, id))
      {
        UnansweredStep(init, e, i, id);
      }
      assert Calls(e, id) ==> Unanswered(es, |es| - 1, |es|, id);
      hide Unanswered;
    }
  }

  lemma UnansweredStep(es: seq<Event>, e: Event, i: int, id: string)
    ensures Unanswered(es + [e], i, |es| + 1, id)
            <==> (i == |es| && Calls(e, id)) || (!Calls(e, id) && !Replies(e, id) && Unanswered(es, i, |es|, id))
  {
    hide Calls, Replies;
    var all := es + [e];
    assert forall k :: 0 <= k < |es| ==> all[k] == es[k];
    assert all[|es|] == e;
  }

  lemma {:induction false} ServerNameMeaning(env: Env, es: seq<Event>)
    ensures IsServerName(env, es, |es|, ServerName(env, es))
  {
    if es != [] {
      var n := |es| - 1;
      var init, e := es[..n], es[n];
      assert init + [e] == es;
      ServerNameMeaning(env, init);
      ServerNamePrefix(env, init, e, n, ServerName(env, init));
      AnnounceStep(init, e);
      hide Announces, Pending;
      if Announces(es, n) {
        assert es[n].msg.announced == ServerName(env, es);
      } else {
        ServerNameKept(env, es, n, ServerName(env, init));
      }
    }
  }

  lemma ServerNameKept(env: Env, es: seq<Event>, n: int, name: string)
    requires 0 <= n < |es| && IsServerName(env, es, n, name) && !Announces(es, n)
    ensures IsServerName(env, es, n + 1, name)
  {
    hide Announces;
  }

  lemma AnnounceStep(es: seq<Event>, e: Event)
    ensures Announces(es + [e], |es|)
            <==> Answers(e) && e.msg.announced != "" && Pending(es, e.msg.respId.value).None?
  {
    assert (es + [e])[|es|] == e;
    if Answers(e) {
      var id := e.msg.respId.value;
      PendingMeaning(es, id);
      forall i
        ensures Unanswered(es + [e], i, |es|, id) <==> Unanswered(es, i, |es|, id)
      {
        UnansweredPrefix(es, e, i, |es|, id);
      }
      hide Unanswered, Pending;
    }
  }

  /** Over every trace, the records are those of the answered calls, one for each answer, in
      their order: each has the tool of the call, the server announced by then, the price of
      these two, the time between call and answer, the status by the answer and the agent of
      the answer or else the default. */
  lemma {:induction false} RecordsMeaning(env: Env, es: seq<Event>)
    ensures exists at :: RecordsOf(env, es, at, Run(env, es).records)
  {
    RunMeaning(env, es);
    CompletedMeaning(env, es);
  }

  lemma {:induction false} CompletedMeaning(env: Env, es: seq<Event>)
    ensures exists at :: RecordsOf(env, es, at, Completed(env, es))
  {
    if es == [] {
      assert RecordsOf(env, es, [], Completed(env, es));
    } else {
      var n := |es| - 1;
      var init, e := es[..n], es[n];
      assert init + [e] == es;
      CompletedMeaning(env, init);
      var at :| RecordsOf(env, init, at, Completed(env, init));
      hide RecordsOf, MakeRecord, Pending, ServerName;
      if Answers(e) && Pending(init, e.msg.respId.value).Some? {
        RecordsMore(env, init, e, at, Completed(env, init));
        assert RecordsOf(env, es, at + [n], Completed(env, es));
      } else {
        RecordsSame(env, init, e, at, Completed(env, init));
        assert RecordsOf(env, es, at, Completed(env, es));
      }
    }
  }

  lemma AnswerStep(es: seq<Event>, e: Event, id: string)
    ensures IsAnswer(es + [e], |es|, id) <==> Replies(e, id) && Pending(es, id).Some?
  {
    assert (es + [e])[|es|] == e;
    PendingMeaning(es, id);
    forall i
      ensures Unanswered(es + [e], i, |es|, id) <==> Unanswered(es, i, |es|, id)
    {
      UnansweredPrefix(es, e, i, |es|, id);
    }
    hide Unanswered, Pending, Replies;
  }

  lemma NewRecord(env: Env, es: seq<Event>, e: Event) returns (i: int)
    requires Answers(e) && Pending(es, e.msg.respId.value).Some?
    ensures var p := Pending(es, e.msg.respId.value).value;
            Records(env, es + [e], i, |es|, MakeRecord(env, ServerName(env, es), p, e))
  {
    var id := e.msg.respId.value;
    PendingMeaning(es, id);
    i :| Unanswered(es, i, |es|, id);
    UnansweredPrefix(es, e, i, |es|, id);
    ServerNameMeaning(env, es);
    ServerNamePrefix(env, es, e, |es|, ServerName(env, es));
    assert (es + [e])[|es|] == e && (es + [e])[i] == es[i];
    hide IsServerName, Pending, ServerName;
  }

  lemma OldRecords(env: Env, es: seq<Event>, e: Event, at: seq<int>, rs: seq<CallRecord>, n: int)
    requires RecordsOf(env, es, at, rs) && 0 <= n < |at|
    ensures at[n] < |es| && RecordsCall(env, es + [e], at[n], rs[n])
  {
    var i :| Records(env, es, i, at[n], rs[n]);
    RecordsPrefix(env, es, e, i, at[n], rs[n]);
    hide Records;
    assert Records(env, es + [e], i, at[n], rs[n]);
  }

  lemma OldAnswers(env: Env, es: seq<Event>, e: Event, at: seq<int>, rs: seq<CallRecord>, j: int)
    requires RecordsOf(env, es, at, rs) && j < |es|
    ensures j in at <==> Answered(es + [e], j)
  {
    forall id
      ensures IsAnswer(es + [e], j, id) <==> IsAnswer(es, j, id)
    {
      AnswerPrefix(es, e, j, id);
    }
    hide IsAnswer, Records;
  }

  lemma RecordsMore(env: Env, es: seq<Event>, e: Event, at: seq<int>, rs: seq<CallRecord>)
    requires RecordsOf(env, es, at, rs) && Answers(e) && Pending(es, e.msg.respId.value).Some?
    ensures RecordsOf(env, es + [e], at + [|es|],
                      rs + [MakeRecord(env, ServerName(env, es), Pending(es, e.msg.respId.value).value, e)])
  {
    var all, at' := es + [e], at + [|es|];
    var last := MakeRecord(env, ServerName(env, es), Pending(es, e.msg.respId.value).value, e);
    var rs' := rs + [last];
    var i := NewRecord(env, es, e);
    AnswerStep(es, e, e.msg.respId.value);
    assert Replies(e, e.msg.respId.value);
    assert IsAnswer(all, |es|, e.msg.respId.value);
    assert Answered(all, |es|) && RecordsCall(env, all, |es|, last);
    hide Answered, RecordsCall, MakeRecord, Pending, ServerName;
    forall n | 0 <= n < |at'|
      ensures RecordsCall(env, all, at'[n], rs'[n])
    {
      if n < |at| {
        OldRecords(env, es, e, at, rs, n);
      }
    }
    forall j
      ensures j in at' <==> Answered(all, j)
    {
      AtBounded(env, es, e, at, rs, j);
      if j < |es| {
        OldAnswers(env, es, e, at, rs, j);
      }
    }
    forall n | 0 <= n < |at|
      ensures at[n] < |es|
    {
      OldRecords(env, es, e, at, rs, n);
    }
  }

  lemma AtBounded(env: Env, es: seq<Event>, e: Event, at: seq<int>, rs: seq<CallRecord>, j: int)
    requires RecordsOf(env, es, at, rs)
    ensures j in at ==> 0 <= j < |es|
    ensures Answered(es + [e], j) ==> 0 <= j <= |es|
  {
    hide Records;
  }

  lemma RecordsSame(env: Env, es: seq<Event>, e: Event, at: seq<int>, rs: seq<CallRecord>)
    requires RecordsOf(env, es, at, rs) && !(Answers(e) && Pending(es, e.msg.respId.value).Some?)
    ensures RecordsOf(env, es + [e], at, rs)
  {
    var all := es + [e];
    forall id
      ensures !IsAnswer(all, |es|, id)
    {
      AnswerStep(es, e, id);
      hide IsAnswer, Pending;
    }
    assert !Answered(all, |es|);
    hide RecordsCall, Answered, Pending;
    forall n | 0 <= n < |at|
      ensures RecordsCall(env, all, at[n], rs[n])
    {
      OldRecords(env, es, e, at, rs, n);
    }
    forall j
      ensures j in at <==> Answered(all, j)
    {
      AtBounded(env, es, e, at, rs, j);
      if j < |es| {
        OldAnswers(env, es, e, at, rs, j);
      }
    }
  }

  lemma SizeOfUpdate(m: map<string, PendingCall>, id: string, p: PendingCall)
    ensures |m[id := p]| == |m| + if id in m then 0 else 1
  {
  }

  lemma SizeOfRemoval(m: map<string, PendingCall>, id: string)
    requires id in m
    ensures |m - {id}| == |m| - 1
  {
  }

  // ----- The implementation

  class Interceptor {
    const env: Env
    var inflight: map<string, PendingCall>
    var serverName: string
    var records: seq<CallRecord>

    ghost function Abs(): State
      reads this
    {
      State(inflight, serverName, records)
    }

    constructor (env: Env)
      ensures this.env == env && Abs() == Run(env, [])
    {
      this.env := env;
      inflight, serverName, records := map[], env.serverName, [];
    }

    method HandleMessage(e: Event)
      modifies this
      ensures Abs() == Step(env, old(Abs()), e)
    {
      if e.msg.Malformed? {
        return;
      }
      if e.fromClient && e.msg.Request? {
        HandleClientRequest(e);
      } else if !e.fromClient && e.msg.Response? {
        HandleServerResponse(e);
      }
    }

    method HandleClientRequest(e: Event)
      requires e.fromClient && e.msg.Request?
      modifies this`inflight
      ensures Abs() == Step(env, old(Abs()), e)
    {
      if e.msg.name != TOOLS_CALL || e.msg.reqId.None? || e.msg.tool.None? {
        return;
      }
      inflight := inflight[e.msg.reqId.value := PendingCall(e.msg.tool.value, e.now)];
    }

    method HandleServerResponse(e: Event)
      requires !e.fromClient && e.msg.Response?
      modifies this
      ensures Abs() == Step(env, old(Abs()), e)
    {
      if e.msg.respId.None? {
        return;
      }
      var id := e.msg.respId.value;
      if id !in inflight {
        TryExtractServerName(e.msg);
        return;
      }
      var pending := inflight[id];
      inflight := inflight - {id};
      var cost := env.price(serverName, pending.tool);
      var agent := env.agent;
      if e.agent.Some? {
        agent := e.agent.value;
      }
      var status := 200;
      if e.msg.isError {
        status := 500;
      }
      records := records + [CallRecord(serverName, pending.tool, cost, e.now - pending.start, status, agent)];
    }

    method TryExtractServerName(m: Message)
      requires m.Response?
      modifies this`serverName
      ensures serverName == if m.announced != "" then m.announced else old(serverName)
    {
      if m.announced != "" {
        serverName := m.announced;
      }
    }
  }
}
