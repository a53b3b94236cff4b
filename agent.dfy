/**
 * `/api/chat`: one agentic chat turn. The user's message joins the session history, the
 * planner picks an action, the tools it needs run and cache their outputs in the session,
 * the final answer is composed and joins the history too. Every Gemini call, the report
 * generator and the tools' own outputs for this turn are inputs.
 */
module Agent {
  import opened Wrappers
  import opened Text
  import opened Json
  import opened Planner
  import opened Aggregate
  import opened Trend
  import opened Sessions

  /** The reply to an empty message. */
  const Greeting := "Say something and I\U{2019}ll help."

  datatype ChatRequest = ChatRequest(input: string, mode: string, sessionId: Option<string>)

  /** The body of a successful `/api/chat` answer; absent optional fields are `None`. */
  datatype ChatResponse = ChatResponse(
    sessionId: string, toolUsed: string, text: string,
    health: Option<HealthReport>, metrics: Option<MetricsData>, reportMarkdown: Option<string>)

  /** Why a turn ends in an HTTP error instead of an answer. */
  datatype ChatError =
    | PlanningFailed(cause: TurnError)   // the router call raised or replied with the wrong shape
    | ReportFailed(detail: string)       // the report generator raised
    | AnswerFailed(detail: string)       // the final Gemini call raised

  /** `tool_payload`: what the answering model is shown. */
  datatype ToolPayload = ToolPayload(
    action: Action, why: string,
    health: Option<HealthReport>, metrics: Option<MetricsData>, reportMarkdown: Option<string>)

  /** What `api_healthcheck` and `api_metrics` return if they are called during this turn. */
  datatype ToolOutputs = ToolOutputs(health: HealthReport, metrics: MetricsData)

  /** The calls into Gemini and the JSON parser. */
  datatype Backends = Backends(
    router: (string, ContextFlags) -> Result<string, string>,
    loads: string -> Option<Value>,
    report: (HealthReport, MetricsData) -> Result<string, string>,
    chat: (string, seq<Message>) -> Result<string, string>,
    answer: (string, Action, ToolPayload) -> Result<string, string>)

  /** `req.sessionId or str(uuid.uuid4())`, the fresh id passed in. */
  function SessionIdOf(req: ChatRequest, freshId: string): (sid: string)
    ensures req.sessionId.Some? && req.sessionId.value != "" ==> sid == req.sessionId.value
    ensures req.sessionId.None? || req.sessionId.value == "" ==> sid == freshId
  {
    if req.sessionId.Some? && req.sessionId.value != "" then req.sessionId.value else freshId
  }

  /**
   * `if len(history) > max_turns * 2: history = history[-max_turns * 2:]` with Python's
   * slice rules: the last `2 * maxTurns` messages for a positive bound, everything for 0,
   * and for a negative bound the list without its first `-2 * maxTurns` messages.
   */
  function BoundHistory(h: seq<Message>, maxTurns: int): (r: seq<Message>)
    ensures |r| <= |h| && r == h[|h| - |r|..]
    ensures maxTurns > 0 ==> |r| == if |h| <= 2 * maxTurns then |h| else 2 * maxTurns
    ensures maxTurns == 0 ==> r == h
    ensures maxTurns < 0 ==> |r| == if |h| <= -2 * maxTurns then 0 else |h| + 2 * maxTurns
  {
    var k := 2 * maxTurns;
    if |h| <= k then h
    else if k > 0 then h[|h| - k..]
    else if k == 0 then h
    else h[(if -k < |h| then -k else |h|)..]
  }

  /** The context flags: cached outputs that are present and truthy. */
  function FlagsOf(s: Session): (f: ContextFlags)
    ensures f.hasLastHealth <==> s.lastHealth.Some?
    ensures f.hasLastMetrics <==> s.lastMetrics.Some?
    ensures f.hasLastReport <==> s.lastReport.Some? && s.lastReport.value != ""
  {
    ContextFlags(s.lastHealth.Some?, s.lastMetrics.Some?, s.lastReport.Some? && s.lastReport.value != "")
  }

  /** Python falsiness of `report_md`. */
  predicate Blank(md: Option<string>) {
    md.None? || md.value == ""
  }

  predicate IsReportAction(a: Action) {
    a == Report || a == DailyReport
  }

  /** What the tool block fetched this turn. */
  datatype Fetched = Fetched(health: Option<HealthReport>, metrics: Option<MetricsData>, reportMarkdown: Option<string>)

  /**
   * The tool block: each tool the plan runs caches its output in the session. A failing
   * report generator aborts the turn after the health and metrics outputs are cached.
   */
  function ToolPhase(s: Session, p: Plan, tools: ToolOutputs,
                     report: (HealthReport, MetricsData) -> Result<string, string>): (Session, Result<Fetched, string>)
  {
    var health := if RunsHealth(p) then Some(tools.health) else None;
    var metrics := if RunsMetrics(p) then Some(tools.metrics) else None;
    var s2 := s.(lastHealth := if RunsHealth(p) then health else s.lastHealth,
                 lastMetrics := if RunsMetrics(p) then metrics else s.lastMetrics);
    if !RunsReport(p) then (s2, Ok(Fetched(health, metrics, None)))
    else
      match report(tools.health, tools.metrics)
      case Err(e) => (s2, Err(e))
      case Ok(md) => (s2.(lastReport := Some(md)), Ok(Fetched(health, metrics, Some(md))))
  }

  /**
   * The answer block: an action without fresh output falls back on the session's cached
   * one, the reply is composed, and on success it joins the history.
   */
  function AnswerPhase(s: Session, sid: string, text: string, p: Plan, f: Fetched, maxTurns: int,
                       b: Backends): (Session, Result<ChatResponse, ChatError>)
  {
    var health := if p.action == Health && f.health.None? then s.lastHealth else f.health;
    var metrics := if p.action == Metrics && f.metrics.None? then s.lastMetrics else f.metrics;
    var md := if IsReportAction(p.action) && Blank(f.reportMarkdown) then s.lastReport else f.reportMarkdown;
    var payload := ToolPayload(p.action, p.why, health, metrics, if Blank(md) then f.reportMarkdown else md);
    var reply := if p.action == Chat then b.chat(text, s.history) else b.answer(text, p.action, payload);
    if reply.Err? then (s, Err(AnswerFailed(reply.error)))
    else
      (s.(history := BoundHistory(s.history + [Message(Model, reply.value)], maxTurns)),
       Ok(ChatResponse(sid, ActionName(p.action), reply.value, health, metrics, md)))
  }

  /**
   * A turn with a non-empty message: the message joins the bounded history, then the plan,
   * the tool block and the answer block follow; a failure aborts the turn with what the
   * session holds by then.
   */
  function Exchange(s0: Session, sid: string, text: string, mode: string, maxTurns: int,
                    tools: ToolOutputs, b: Backends): (Session, Result<ChatResponse, ChatError>)
  {
    var s1 := s0.(history := BoundHistory(s0.history + [Message(User, text)], maxTurns));
    match PlanTurn(mode, text, FlagsOf(s1), b.router, b.loads)
    case Err(e) => (s1, Err(PlanningFailed(e)))
    case Ok(p) =>
      var (s2, fetched) := ToolPhase(s1, p, tools, b.report);
      match fetched
      case Err(e) => (s2, Err(ReportFailed(e)))
      case Ok(f) => AnswerPhase(s2, sid, text, p, f, maxTurns, b)
  }

  /**
   * The turn as a value: from the session as `_get_session` hands it out to the session
   * left in the store and the answer (or the error that aborts the turn).
   */
  function Respond(s0: Session, sid: string, req: ChatRequest, maxTurns: int,
                   tools: ToolOutputs, b: Backends): (Session, Result<ChatResponse, ChatError>)
  {
    var text := Strip(req.input);
    if text == "" then (s0, Ok(ChatResponse(sid, "none", Greeting, None, None, None)))
    else Exchange(s0, sid, text, req.mode, maxTurns, tools, b)
  }

  /**
   * The tool block of `api_chat`, writing each output into the stored session (`session`
   * is the dictionary the store holds, so each update is seen there at once).
   */
  method RunTools(store: SessionStore, sid: string, session: Session, plan: Plan, tools: ToolOutputs,
                  b: Backends) returns (s: Session, fetched: Result<Fetched, string>)
    requires sid in store.sessions && store.sessions[sid] == session
    modifies store
    ensures (s, fetched) == ToolPhase(session, plan, tools, b.report)
    ensures store.sessions == old(store.sessions)[sid := s]
  {
    s := session;
    assert old(store.sessions)[sid := s] == old(store.sessions);
    var healthObj: Option<HealthReport> := None;
    var metricsObj: Option<MetricsData> := None;
    if RunsHealth(plan) {
      healthObj := Some(tools.health);
      s := s.(lastHealth := healthObj);
      store.Save(sid, s);
    }
    if RunsMetrics(plan) {
      metricsObj := Some(tools.metrics);
      s := s.(lastMetrics := metricsObj);
      store.Save(sid, s);
    }
    if RunsReport(plan) {
      // The health check and the metrics ran just above, so both are at hand.
      var rep := b.report(tools.health, tools.metrics);
      if rep.Err? {
        return s, Err(rep.error);
      }
      s := s.(lastReport := Some(rep.value));
      store.Save(sid, s);
      return s, Ok(Fetched(healthObj, metricsObj, Some(rep.value)));
    }
    fetched := Ok(Fetched(healthObj, metricsObj, None));
  }

  /**
   * The answer block of `api_chat`: fallbacks, the Gemini reply, the reply into the history
   * of the session the store holds.
   */
  method Answer(store: SessionStore, sid: string, session: Session, text: string, plan: Plan, f: Fetched,
                maxTurns: int, b: Backends) returns (s: Session, outcome: Result<ChatResponse, ChatError>)
    requires sid in store.sessions && store.sessions[sid] == session
    modifies store
    ensures (s, outcome) == AnswerPhase(session, sid, text, plan, f, maxTurns, b)
    ensures store.sessions == old(store.sessions)[sid := s]
  {
    s := session;
    assert old(store.sessions)[sid := s] == old(store.sessions);
    var healthObj, metricsObj, reportMd := f.health, f.metrics, f.reportMarkdown;
    var payload := ToolPayload(plan.action, plan.why, healthObj, metricsObj, reportMd);
    var reply: Result<string, string>;
    if plan.action == Chat {
      reply := b.chat(text, s.history);
    } else {
      if plan.action == Health && healthObj.None? {
        healthObj := s.lastHealth;
        if healthObj.Some? {
          payload := payload.(health := healthObj);
        }
      }
      if plan.action == Metrics && metricsObj.None? {
        metricsObj := s.lastMetrics;
        if metricsObj.Some? {
          payload := payload.(metrics := metricsObj);
        }
      }
      if IsReportAction(plan.action) && Blank(reportMd) {
        reportMd := s.lastReport;
        if !Blank(reportMd) {
          payload := payload.(reportMarkdown := reportMd);
        }
      }
      reply := b.answer(text, plan.action, payload);
    }
    if reply.Err? {
      return s, Err(AnswerFailed(reply.error));
    }
    s := s.(history := BoundHistory(s.history + [Message(Model, reply.value)], maxTurns));
    store.Save(sid, s);
    outcome := Ok(ChatResponse(sid, ActionName(plan.action), reply.value, healthObj, metricsObj, reportMd));
  }

  /** `api_chat` from the history update on, for a non-empty message. */
  method RunExchange(store: SessionStore, sid: string, session: Session, text: string, mode: string,
                     maxTurns: int, tools: ToolOutputs, b: Backends) returns (outcome: Result<ChatResponse, ChatError>)
    modifies store
    ensures store.sessions == old(store.sessions)[sid := Exchange(session, sid, text, mode, maxTurns, tools, b).0]
    ensures outcome == Exchange(session, sid, text, mode, maxTurns, tools, b).1
  {
    var history := BoundHistory(session.history + [Message(User, text)], maxTurns);
    var s := session.(history := history);
    store.Save(sid, s);

    ghost var e := Exchange(session, sid, text, mode, maxTurns, tools, b);
    var planned := PlanTurn(mode, text, FlagsOf(s), b.router, b.loads);
    if planned.Err? {
      assert e == (s, Err(PlanningFailed(planned.error)));
      return Err(PlanningFailed(planned.error));
    }
    var plan := planned.value;

    var fetched;
    ghost var s1 := s;
    s, fetched := RunTools(store, sid, s, plan, tools, b);
    OverwriteKey(old(store.sessions), sid, s1, s);
    if fetched.Err? {
      assert e == (s, Err(ReportFailed(fetched.error)));
      return Err(ReportFailed(fetched.error));
    }
    ghost var s2 := s;
    assert e == AnswerPhase(s2, sid, text, plan, fetched.value, maxTurns, b);
    s, outcome := Answer(store, sid, s, text, plan, fetched.value, maxTurns, b);
    OverwriteKey(old(store.sessions), sid, s2, s);
  }

  /** `api_chat`: look the session up (purging expired ones), greet an empty message, else run the exchange. */
  method ChatTurn(store: SessionStore, req: ChatRequest, freshId: string, now: int, maxTurns: int,
                  tools: ToolOutputs, b: Backends) returns (outcome: Result<ChatResponse, ChatError>)
    modifies store
    ensures var sid := SessionIdOf(req, freshId);
            var touched := Touch(old(store.sessions), sid, now, store.ttl);
            && store.sessions == touched[sid := Respond(touched[sid], sid, req, maxTurns, tools, b).0]
            && outcome == Respond(touched[sid], sid, req, maxTurns, tools, b).1
  {
    var sid := SessionIdOf(req, freshId);
    var session := store.GetSession(sid, now);
    var text := Strip(req.input);
    if text == "" {
      assert store.sessions[sid := session] == store.sessions;
      return Ok(ChatResponse(sid, "none", Greeting, None, None, None));
    }
    outcome := RunExchange(store, sid, session, text, req.mode, maxTurns, tools, b);
  }

  /** An empty or all-whitespace message is greeted with tool "none" and leaves the session as it was. */
  lemma BlankTurn(s0: Session, sid: string, req: ChatRequest, maxTurns: int, tools: ToolOutputs, b: Backends)
    requires AllSpace(req.input)
    ensures Respond(s0, sid, req, maxTurns, tools, b) == (s0, Ok(ChatResponse(sid, "none", Greeting, None, None, None)))
  {
    StripEmptyIffBlank(req.input);
  }

  /** The tool block changes only the cached outputs of the tools that ran. */
  lemma ToolPhaseEffect(s: Session, p: Plan, tools: ToolOutputs,
                        report: (HealthReport, MetricsData) -> Result<string, string>)
    ensures var r := ToolPhase(s, p, tools, report);
            && r.0.ts == s.ts && r.0.history == s.history
            && r.0.lastHealth == (if RunsHealth(p) then Some(tools.health) else s.lastHealth)
            && r.0.lastMetrics == (if RunsMetrics(p) then Some(tools.metrics) else s.lastMetrics)
            && (r.1.Err? <==> RunsReport(p) && report(tools.health, tools.metrics).Err?)
            && (r.1.Err? ==> r.0.lastReport == s.lastReport && r.1.error == report(tools.health, tools.metrics).error)
            && (r.1.Ok? ==> r.0.lastReport == (if RunsReport(p) then Some(report(tools.health, tools.metrics).value) else s.lastReport))
            && (r.1.Ok? ==> r.1.value == Fetched(
                  if RunsHealth(p) then Some(tools.health) else None,
                  if RunsMetrics(p) then Some(tools.metrics) else None,
                  if RunsReport(p) then Some(report(tools.health, tools.metrics).value) else None))
  {
  }

  /**
   * The answer block leaves the cached outputs alone, appends the reply on success, and
   * answers with the fresh output or, for an action whose tool did not run, the cached one.
   * The reply is the chat model's answer to the history for a plain chat, else the answering
   * model's answer to the payload of those outputs; the turn fails exactly when that call fails.
   */
  lemma AnswerPhaseEffect(s: Session, sid: string, text: string, p: Plan, f: Fetched, maxTurns: int, b: Backends)
    requires p.action == Chat ==> f == Fetched(None, None, None)
    requires !IsReportAction(p.action) ==> f.reportMarkdown.None?
    requires f.reportMarkdown.Some? ==> s.lastReport == f.reportMarkdown
    ensures var r := AnswerPhase(s, sid, text, p, f, maxTurns, b);
            && r.0 == s.(history := r.0.history)
            && (r.1.Err? ==> r.0 == s)
            && (r.1.Ok? ==> r.0.history == BoundHistory(s.history + [Message(Model, r.1.value.text)], maxTurns))
            && (r.1.Ok? ==> r.1.value.sessionId == sid && r.1.value.toolUsed == ActionName(p.action))
            && (r.1.Ok? ==> r.1.value.health == (if p.action == Health && f.health.None? then s.lastHealth else f.health))
            && (r.1.Ok? ==> r.1.value.metrics == (if p.action == Metrics && f.metrics.None? then s.lastMetrics else f.metrics))
            && (r.1.Ok? ==> r.1.value.reportMarkdown == (if f.reportMarkdown.Some? then f.reportMarkdown
                                                         else if IsReportAction(p.action) then s.lastReport else None))
            && var payload := ToolPayload(p.action, p.why,
                 if p.action == Health && f.health.None? then s.lastHealth else f.health,
                 if p.action == Metrics && f.metrics.None? then s.lastMetrics else f.metrics,
                 if IsReportAction(p.action) && Blank(f.reportMarkdown) && !Blank(s.lastReport) then s.lastReport
                 else f.reportMarkdown);
               var reply := if p.action == Chat then b.chat(text, s.history) else b.answer(text, p.action, payload);
               && (r.1.Err? <==> reply.Err?)
               && (r.1.Err? ==> r.1.error == AnswerFailed(reply.error))
               && (r.1.Ok? ==> r.1.value.text == reply.value)
  {
  }

  /** A message added to a history bounded to at least one turn is its last message. */
  lemma BoundedAppendOnce(h0: seq<Message>, u: Message, maxTurns: int)
    requires maxTurns >= 1
    ensures var h1 := BoundHistory(h0 + [u], maxTurns);
            1 <= |h1| <= 2 * maxTurns && h1[|h1| - 1] == u
  {
    var h1 := BoundHistory(h0 + [u], maxTurns);
    assert h1 == (h0 + [u])[|h0| + 1 - |h1|..];
  }

  /** Adding a message to a bounded history and bounding again keeps a suffix of the whole conversation. */
  lemma {:induction false} BoundedAppendTwice(h0: seq<Message>, u: Message, m: Message, maxTurns: int)
    requires maxTurns >= 1
    ensures var h2 := BoundHistory(BoundHistory(h0 + [u], maxTurns) + [m], maxTurns);
            var whole := h0 + [u, m];
            && 2 <= |h2| <= 2 * maxTurns
            && h2 == whole[|whole| - |h2|..]
  {
    var h1 := BoundHistory(h0 + [u], maxTurns);
    var h2 := BoundHistory(h1 + [m], maxTurns);
    var whole := h0 + [u, m];
    assert h1 == (h0 + [u])[|h0| + 1 - |h1|..];
    assert h1 + [m] == whole[|whole| - |h1| - 1..];
    assert h2 == (h1 + [m])[|h1| + 1 - |h2|..];
  }

  /** A turn's history is the user's message added and bounded, then on success the reply added and bounded. */
  lemma ExchangeHistory(s0: Session, sid: string, text: string, mode: string, maxTurns: int,
                        tools: ToolOutputs, b: Backends)
    ensures var r := Exchange(s0, sid, text, mode, maxTurns, tools, b);
            var h1 := BoundHistory(s0.history + [Message(User, text)], maxTurns);
            r.0.history == if r.1.Ok? then BoundHistory(h1 + [Message(Model, r.1.value.text)], maxTurns) else h1
  {
    var s1 := s0.(history := BoundHistory(s0.history + [Message(User, text)], maxTurns));
    match PlanTurn(mode, text, FlagsOf(s1), b.router, b.loads)
    case Err(_) =>
    case Ok(p) =>
      ToolPhaseEffect(s1, p, tools, b.report);
      var tp := ToolPhase(s1, p, tools, b.report);
      if tp.1.Ok? {
        AnswerPhaseEffect(tp.0, sid, text, p, tp.1.value, maxTurns, b);
      }
  }

  /**
   * The history a turn with a non-empty message leaves: at most `2 * maxTurns` messages, ending with the user's
   * message and, when the turn succeeds, the reply after it, as a suffix of the whole
   * conversation; a failed turn still keeps the user's message.
   */
  lemma TurnHistory(s0: Session, sid: string, text: string, mode: string, maxTurns: int,
                    tools: ToolOutputs, b: Backends)
    requires maxTurns >= 1
    ensures var r := Exchange(s0, sid, text, mode, maxTurns, tools, b);
            var h := r.0.history;
            var u := Message(User, text);
            && |h| <= 2 * maxTurns
            && (r.1.Ok? ==> var whole := s0.history + [u, Message(Model, r.1.value.text)];
                            2 <= |h| <= |whole| && h == whole[|whole| - |h|..])
            && (r.1.Err? ==> |h| >= 1 && h[|h| - 1] == u)
  {
    var u := Message(User, text);
    var r := Exchange(s0, sid, text, mode, maxTurns, tools, b);
    ExchangeHistory(s0, sid, text, mode, maxTurns, tools, b);
    if r.1.Ok? {
      BoundedTurn(s0.history, u, Message(Model, r.1.value.text), true, r.0.history, maxTurns);
    } else {
      BoundedTurn(s0.history, u, u, false, r.0.history, maxTurns);
    }
  }

  /** The history shapes a turn can leave, on sequences alone. */
  lemma BoundedTurn(h0: seq<Message>, u: Message, m: Message, ok: bool, h: seq<Message>, maxTurns: int)
    requires maxTurns >= 1
    requires h == if ok then BoundHistory(BoundHistory(h0 + [u], maxTurns) + [m], maxTurns)
                  else BoundHistory(h0 + [u], maxTurns)
    ensures |h| <= 2 * maxTurns
    ensures ok ==> var whole := h0 + [u, m]; 2 <= |h| <= |whole| && h == whole[|whole| - |h|..]
    ensures !ok ==> |h| >= 1 && h[|h| - 1] == u
  {
    BoundedAppendOnce(h0, u, maxTurns);
    if ok {
      BoundedAppendTwice(h0, u, m, maxTurns);
    }
  }

  /**
   * What a successful turn caches and answers: each tool the plan runs refreshes its
   * cached output; an action whose tool did not run answers with the cached output;
   * `toolUsed` is the planned action.
   */
  lemma TurnOutputs(s0: Session, sid: string, text: string, mode: string, maxTurns: int, tools: ToolOutputs,
                    b: Backends, p: Plan)
    requires PlanTurn(mode, text, FlagsOf(s0), b.router, b.loads) == Ok(p)
    requires Exchange(s0, sid, text, mode, maxTurns, tools, b).1.Ok?
    ensures var r := Exchange(s0, sid, text, mode, maxTurns, tools, b);
            var md := b.report(tools.health, tools.metrics);
            && (RunsReport(p) ==> md.Ok?)
            && r.0.lastHealth == (if RunsHealth(p) then Some(tools.health) else s0.lastHealth)
            && r.0.lastMetrics == (if RunsMetrics(p) then Some(tools.metrics) else s0.lastMetrics)
            && r.0.lastReport == (if RunsReport(p) then Some(md.value) else s0.lastReport)
            && r.1.value.sessionId == sid
            && r.1.value.toolUsed == ActionName(p.action)
            && r.1.value.health == (if RunsHealth(p) then Some(tools.health)
                                    else if p.action == Health then s0.lastHealth else None)
            && r.1.value.metrics == (if RunsMetrics(p) then Some(tools.metrics)
                                     else if p.action == Metrics then s0.lastMetrics else None)
            && r.1.value.reportMarkdown == (if RunsReport(p) then Some(md.value)
                                            else if IsReportAction(p.action) then s0.lastReport else None)
  {
    var s1 := s0.(history := BoundHistory(s0.history + [Message(User, text)], maxTurns));
    assert FlagsOf(s1) == FlagsOf(s0);
    ToolPhaseEffect(s1, p, tools, b.report);
    var (s2, fetched) := ToolPhase(s1, p, tools, b.report);
    assert fetched.Ok?;
    assert Exchange(s0, sid, text, mode, maxTurns, tools, b) == AnswerPhase(s2, sid, text, p, fetched.value, maxTurns, b);
    AnswerPhaseEffect(s2, sid, text, p, fetched.value, maxTurns, b);
  }

  /**
   * What a failed turn leaves in the session: the user's message always; the health and
   * metrics outputs when the report generator failed after them.
   */
  lemma FailedTurnState(s0: Session, sid: string, text: string, mode: string, maxTurns: int, tools: ToolOutputs,
                        b: Backends)
    requires Exchange(s0, sid, text, mode, maxTurns, tools, b).1.Err?
    ensures var r := Exchange(s0, sid, text, mode, maxTurns, tools, b);
            var planned := PlanTurn(mode, text, FlagsOf(s0), b.router, b.loads);
            && r.0.history == BoundHistory(s0.history + [Message(User, text)], maxTurns)
            && (r.1.error.PlanningFailed? <==> planned.Err?)
            && (planned.Err? ==> r.1.error.cause == planned.error && r.0 == s0.(history := r.0.history))
            && (r.1.error.ReportFailed? ==> planned.Ok? && RunsReport(planned.value)
                                            && r.0 == s0.(history := r.0.history,
                                                          lastHealth := Some(tools.health),
                                                          lastMetrics := Some(tools.metrics)))
  {
    var s1 := s0.(history := BoundHistory(s0.history + [Message(User, text)], maxTurns));
    assert FlagsOf(s1) == FlagsOf(s0);
    match PlanTurn(mode, text, FlagsOf(s1), b.router, b.loads)
    case Err(_) =>
    case Ok(p) =>
      ToolPhaseEffect(s1, p, tools, b.report);
      var (s2, fetched) := ToolPhase(s1, p, tools, b.report);
      if fetched.Ok? {
        AnswerPhaseEffect(s2, sid, text, p, fetched.value, maxTurns, b);
      }
  }

  /** In a forced mode the router is never consulted: any router gives the same turn. */
  lemma ForcedModeIgnoresRouter(s0: Session, sid: string, req: ChatRequest, maxTurns: int, tools: ToolOutputs,
                                b: Backends, router: (string, ContextFlags) -> Result<string, string>)
    requires ForcedPlan(req.mode).Some?
    ensures Respond(s0, sid, req, maxTurns, tools, b) == Respond(s0, sid, req, maxTurns, tools, b.(router := router))
  {
  }

  /** A health-mode turn that succeeds reports the health check run in that same turn. */
  lemma ForcedHealthTurn(s0: Session, sid: string, text: string, mode: string, maxTurns: int,
                         tools: ToolOutputs, b: Backends)
    requires NormalizeMode(mode) == "health"
    requires Exchange(s0, sid, text, mode, maxTurns, tools, b).1.Ok?
    ensures var (s, out) := Exchange(s0, sid, text, mode, maxTurns, tools, b);
            && out.value.toolUsed == "health"
            && out.value.health == Some(tools.health) && s.lastHealth == Some(tools.health)
            && out.value.metrics == None && s.lastMetrics == s0.lastMetrics
  {
    var p := ForcedPlan(mode).value;
    assert p.action == Health && p.needTools;
    TurnOutputs(s0, sid, text, mode, maxTurns, tools, b, p);
  }
}
