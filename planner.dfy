/**
 * Deciding what a chat turn does: the mode override from the ChatOps pills, the
 * recovery of a JSON object from the router model's reply, the normalisation of that
 * object into a plan, and which tools a plan runs.
 */
module Planner {
  import opened Wrappers
  import opened Text
  import opened Json

  datatype Action = Chat | Health | Metrics | Report | DailyReport

  function ActionName(a: Action): string {
    match a
    case Chat => "chat"
    case Health => "health"
    case Metrics => "metrics"
    case Report => "report"
    case DailyReport => "daily_report"
  }

  /** The action with exactly this name, if any. */
  function ParseAction(name: string): (r: Option<Action>)
    ensures r.Some? ==> ActionName(r.value) == name
    ensures r.None? ==> name !in {"chat", "health", "metrics", "report", "daily_report"}
  {
    if name == "chat" then Some(Chat)
    else if name == "health" then Some(Health)
    else if name == "metrics" then Some(Metrics)
    else if name == "report" then Some(Report)
    else if name == "daily_report" then Some(DailyReport)
    else None
  }

  /** The planner's verdict: which action, why, and whether tools must run. */
  datatype Plan = Plan(action: Action, why: string, needTools: bool)

  /** `(mode or "auto").lower().strip()`. */
  function NormalizeMode(mode: string): string {
    Strip(Lower(if mode == "" then "auto" else mode))
  }

  /** The plan an explicit mode forces, when the mode names a tool action. */
  function ForcedPlan(mode: string): (r: Option<Plan>)
    ensures r.Some? <==> NormalizeMode(mode) in {"health", "metrics", "report", "daily_report"}
    ensures r.Some? ==> && ActionName(r.value.action) == NormalizeMode(mode)
                        && r.value.action != Chat
                        && r.value.needTools
                        && r.value.why == "forced_by_mode:" + NormalizeMode(mode)
  {
    var m := NormalizeMode(mode);
    match ParseAction(m)
    case Some(a) => if a == Chat then None else Some(Plan(a, "forced_by_mode:" + m, true))
    case None => None
  }

  /**
   * The slice of `t` from its first '{' to its last '}', when the last '}' comes after
   * the first '{'.
   */
  function BraceChunk(t: string): (r: Option<string>)
    ensures r.Some? <==> '{' in t && '}' in t && Find(t, '{') < RFind(t, '}')
    ensures r.Some? ==> && 0 <= Find(t, '{') && Find(t, '{') + |r.value| <= |t|
                        && r.value == t[Find(t, '{')..Find(t, '{') + |r.value|]
                        && |r.value| >= 2 && r.value[0] == '{' && r.value[|r.value| - 1] == '}'
                        && '{' !in t[..Find(t, '{')] && '}' !in t[Find(t, '{') + |r.value|..]
  {
    var start := Find(t, '{');
    var end := RFind(t, '}');
    if start != -1 && end != -1 && end > start then Some(t[start..end + 1]) else None
  }

  /**
   * `_extract_json_object`: parse the stripped reply whole; failing that, parse the slice
   * from its first '{' to its last '}'. `loads` is `json.loads`, None where it raises.
   */
  function ExtractJsonObject(s: string, loads: string -> Option<Value>): (r: Option<Value>)
    ensures Strip(s) == "" ==> r == None
    ensures Strip(s) != "" && loads(Strip(s)).Some? ==> r == loads(Strip(s))
    ensures Strip(s) != "" && loads(Strip(s)).None? ==>
              r == if BraceChunk(Strip(s)).Some? then loads(BraceChunk(Strip(s)).value) else None
  {
    var t := Strip(s);
    if t == "" then None
    else if loads(t).Some? then loads(t)
    else
      match BraceChunk(t)
      case Some(chunk) => loads(chunk)
      case None => None
  }

  /** A reply that wraps one JSON object in prose free of braces yields that object. */
  lemma ExtractFromProse(s: string, before: string, obj: string, after: string, loads: string -> Option<Value>)
    requires Strip(s) == before + obj + after
    requires '{' !in before && '}' !in after
    requires |obj| >= 2 && obj[0] == '{' && obj[|obj| - 1] == '}'
    requires loads(Strip(s)).None?
    ensures ExtractJsonObject(s, loads) == loads(obj)
  {
    var t := Strip(s);
    var last := |before| + |obj| - 1;
    assert t[..|before|] == before;
    assert t[|before|] == '{';
    FindAt(t, '{', |before|);
    assert t[last] == '}';
    assert t[last + 1..] == after;
    RFindAt(t, '}', last);
    assert t[|before|..last + 1] == obj;
  }

  /** Attribute errors the normalisation raises on a reply of the wrong shape. */
  datatype PlanError =
    | NotAnObject    // the parsed value is truthy but not a dict: `plan.get` fails
    | ActionNotText  // "action" is truthy but not a string: `.strip()` fails
    | WhyNotText     // "why" is truthy but not a string: `.strip()` fails

  /** `_extract_json_object(...) or {}`. */
  function PlanObject(parsed: Option<Value>): Value {
    if parsed.Some? && Truthy(parsed.value) then parsed.value else JObject(map[])
  }

  /** The action an object names: missing, empty or unknown names give Chat. */
  function ActionOf(text: string): Action {
    ParseAction(Lower(Strip(text))).GetOr(Chat)
  }

  /** The normalisation of the router reply in `_plan_action_with_gemini` (non-forced path). */
  function NormalizePlan(parsed: Option<Value>): (r: Result<Plan, PlanError>)
    ensures parsed.None? || !Truthy(parsed.value) ==> r == Ok(Plan(Chat, "n/a", false))
    ensures !PlanObject(parsed).JObject? ==> r == Err(NotAnObject)
    ensures PlanObject(parsed).JObject? ==>
              var o := PlanObject(parsed);
              var act := Field(o, "action");
              var why := Field(o, "why");
              && (r.Err? <==> (Truthy(act) && !act.JString?) || (Truthy(why) && !why.JString?))
              && (r.Ok? ==>
                  && (r.value.action == (if Truthy(act) then ActionOf(act.s) else Chat))
                  && (r.value.needTools == if "need_tools" in o.fields then Truthy(o.fields["need_tools"])
                                           else r.value.action != Chat)
                  && (r.value.why == if Truthy(why) then Strip(why.s) else "n/a"))
  {
    var o := PlanObject(parsed);
    if !o.JObject? then Err(NotAnObject)
    else
      var act := Field(o, "action");
      if Truthy(act) && !act.JString? then Err(ActionNotText)
      else
        var action := if Truthy(act) then ActionOf(act.s) else Chat;
        var needTools := if "need_tools" in o.fields then Truthy(o.fields["need_tools"]) else action != Chat;
        var why := Field(o, "why");
        if Truthy(why) && !why.JString? then Err(WhyNotText)
        else Ok(Plan(action, if Truthy(why) then Strip(why.s) else "n/a", needTools))
  }

  /** An action whose name is not one of the five becomes Chat, and then no tools are needed by default. */
  lemma UnknownActionIsChat(parsed: Option<Value>, name: string)
    requires parsed.Some? && parsed.value.JObject?
    requires Field(parsed.value, "action") == JString(name)
    requires Lower(Strip(name)) !in {"chat", "health", "metrics", "report", "daily_report"}
    requires "need_tools" !in parsed.value.fields
    requires NormalizePlan(parsed).Ok?
    ensures NormalizePlan(parsed).value.action == Chat && !NormalizePlan(parsed).value.needTools
  {
    assert Truthy(parsed.value) by { assert "action" in parsed.value.fields; }
  }

  /** Flags the router model is shown about what the session already holds. */
  datatype ContextFlags = ContextFlags(hasLastHealth: bool, hasLastMetrics: bool, hasLastReport: bool)

  /** Why a chat turn fails as a whole (HTTP 500). */
  datatype TurnError =
    | GeminiFailed(detail: string)       // a Gemini call raised
    | PlanMalformed(error: PlanError)    // the router reply had the wrong shape

  /**
   * `_plan_action_with_gemini`. `router` stands for the Gemini call made with the
   * routing instructions (user text and context flags in, reply text or error out).
   */
  function PlanTurn(mode: string, userText: string, flags: ContextFlags,
                    router: (string, ContextFlags) -> Result<string, string>,
                    loads: string -> Option<Value>): (r: Result<Plan, TurnError>)
    ensures ForcedPlan(mode).Some? ==> r == Ok(ForcedPlan(mode).value)
    ensures ForcedPlan(mode).None? && router(userText, flags).Err? ==>
              r == Err(GeminiFailed(router(userText, flags).error))
    ensures ForcedPlan(mode).None? && router(userText, flags).Ok? ==>
              var n := NormalizePlan(ExtractJsonObject(router(userText, flags).value, loads));
              (r.Ok? <==> n.Ok?) && (n.Ok? ==> r.value == n.value) && (n.Err? ==> r == Err(PlanMalformed(n.error)))
  {
    var forced := ForcedPlan(mode);
    if forced.Some? then Ok(forced.value)
    else
      match router(userText, flags)
      case Err(e) => Err(GeminiFailed(e))
      case Ok(raw) =>
        match NormalizePlan(ExtractJsonObject(raw, loads))
        case Ok(p) => Ok(p)
        case Err(e) => Err(PlanMalformed(e))
  }

  /** The health check runs for health, report and daily_report when tools are needed. */
  predicate RunsHealth(p: Plan) {
    p.needTools && p.action in {Health, Report, DailyReport}
  }

  /** The metrics run for metrics, report and daily_report when tools are needed. */
  predicate RunsMetrics(p: Plan) {
    p.needTools && p.action in {Metrics, Report, DailyReport}
  }

  /** The report runs for report and daily_report when tools are needed. */
  predicate RunsReport(p: Plan) {
    p.needTools && p.action in {Report, DailyReport}
  }

  /**
   * A report always runs after a fresh health check and fresh metrics in the same turn,
   * and nothing runs without `needTools` or for a chat action.
   */
  lemma DispatchShape(p: Plan)
    ensures RunsReport(p) ==> RunsHealth(p) && RunsMetrics(p)
    ensures !p.needTools || p.action == Chat ==> !RunsHealth(p) && !RunsMetrics(p) && !RunsReport(p)
    ensures RunsHealth(p) && RunsMetrics(p) <==> RunsReport(p)
  {
  }

  /** A forced mode runs exactly the tools its action names. */
  lemma ForcedDispatch(mode: string)
    requires ForcedPlan(mode).Some?
    ensures var p := ForcedPlan(mode).value;
            var m := NormalizeMode(mode);
            && (RunsHealth(p) <==> m in {"health", "report", "daily_report"})
            && (RunsMetrics(p) <==> m in {"metrics", "report", "daily_report"})
            && (RunsReport(p) <==> m in {"report", "daily_report"})
  {
  }
}
