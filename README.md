# InfraCopilot Lite — a Dafny model of its health checks, planner and chat turn

InfraCopilot Lite is a small FastAPI service. It reports the health of a hybrid estate: the local
machine (psutil readings against thresholds), an Azure resource group (VMs, App Services,
storage accounts), and a list of custom HTTP endpoints. The three sources are merged into one
summary. It also serves a synthetic 24-hour metrics trend. Its ChatOps endpoint `/api/chat`
keeps per-session memory and lets Gemini (or a forced mode) choose an action. The tools that
action needs run and cache their outputs in the session, and Gemini composes the final reply.

This project models that core in Dafny. Each source function is kept in its own form:

- **Pure helpers become functions with contracts**: model-name normalisation, CORS origin
  parsing, JSON-object extraction, plan normalisation, the summary arithmetic, clamping.
- **Loops that build lists become methods with loop invariants**: the Azure blocks, the
  endpoint probes and the hourly series. Each is proved to meet a contract stated over a
  specification function or over the inputs, and the properties are proved about that
  function. The local warnings have no loop. They are built by three conditional appends,
  and `Host.LocalHealth` is proved equal to `Host.LocalSnapshotOf`.
- **The session store is a class** whose `map` field the purge and look-up methods update in
  place.
- **The chat turn is a method** that writes the session back into the store at each point the
  source does. It is proved equal to a pure description of the turn (`Agent.Respond`, which greets an
  empty message and otherwise runs `Agent.Exchange`), and the lemmas about the turn are stated on
  that description.

Everything outside the process is an input:

- Gemini calls, `json.loads`, HTTP responses, Azure REST listings and the token request are
  function or datatype parameters.
- `random.random()` is a stream `nat -> real`.
- `uuid.uuid4()` is a fresh-id parameter.
- The clock is an integer count of microseconds, read once per operation.

Modules, one per file:

| file | module | models |
|---|---|---|
| wrappers.dfy | Wrappers | `Option`, `Result` |
| seqs.dfy | Seqs | first index satisfying a predicate, element-wise map |
| text.dfy | Text | Python's `strip` (full `isspace` set), ASCII `lower`, `find`, `rfind`, `split`, integer formatting |
| json.dfy | Json | JSON values, Python truthiness, `dict.get` |
| settings.dfy | Settings | `_normalize_gemini_model`, ALLOWED_ORIGINS parsing |
| alerts.dfy | Alerts | the warning values, one warning per unhealthy item |
| host.dfy | Host | the threshold warnings of `local_health` |
| azure.dfy | Azure | `azure_health` |
| endpoints.dfy | Endpoints | `custom_endpoints_health` |
| aggregate.dfy | Aggregate | `aggregate_summary`, `api_healthcheck` |
| trend.dfy | Trend | `series`, `api_metrics` |
| sessions.dfy | Sessions | `_purge_sessions`, `_get_session` |
| planner.dfy | Planner | `_extract_json_object`, `_plan_action_with_gemini`, tool dispatch conditions |
| agent.dfy | Agent | `api_chat` |

Where the code and its written description disagree, the model follows the code:

- `summary.total` is always 5. `healthy` is `max(0, 5 - len(warnings))`, so `healthy + warnings == total` holds only while there are at most five warnings (`Aggregate.AggregateSummary`).
- A local threshold warns when the reading is greater than **or equal to** it.
- When the planner or an answer call fails, the user's message is already stored in the session history and stays there (`Agent.FailedTurnState`).
- In the report branch, the fallback to cached health and metrics (lines 732-733) never takes effect. In the same turn the health check and the metrics always ran first and produced non-empty objects, so the model passes the fresh outputs to the report generator.

## Model

| member | source | states |
|---|---|---|
| Text.Strip | infra-copilot-lite-gemini-files/app/main.py:61 | The result has no leading or trailing whitespace (Python's `isspace` set). It is a contiguous slice of the input, and everything removed on either side is whitespace. |
| Text.StripIdempotent | infra-copilot-lite-gemini-files/app/main.py:65 | Stripping an already stripped string changes nothing. |
| Text.StripEmptyIffBlank | infra-copilot-lite-gemini-files/app/main.py:686-687 | A message strips to the empty string exactly when it is all whitespace. This is the empty-message test. |
| Text.RFindBefore | infra-copilot-lite-gemini-files/app/main.py:593 | The result is -1 or an index before the bound holding the character, with no occurrence between it and the bound. |
| Text.Split | infra-copilot-lite-gemini-files/app/main.py:65 | `split(",")` yields at least one piece. No piece contains the separator, and joining the pieces with it gives back the input. |
| Text.SplitJoin | infra-copilot-lite-gemini-files/app/main.py:65 | Splitting the join of separator-free pieces gives back exactly those pieces. |
| Settings.NormalizeGeminiModel | infra-copilot-lite-gemini-files/app/main.py:156-160 | When the stripped name starts with `models/`, the prefix followed by the result is the stripped name. Otherwise the result is the stripped name. It is never longer than the input. |
| Settings.NormalizeUndoesPrefix | infra-copilot-lite-gemini-files/app/main.py:156-160 | For a stripped bare name, normalising `models/` + name gives back the name. |
| Settings.NormalizeKeepsBareName | infra-copilot-lite-gemini-files/app/main.py:156-160 | A stripped name without the prefix is returned unchanged. |
| Settings.CleanOrigins | infra-copilot-lite-gemini-files/app/main.py:65 | Keeps at most one origin per piece. Each kept origin is non-empty and stripped, and contains a comma only if a piece did. |
| Settings.AllowedOrigins | infra-copilot-lite-gemini-files/app/main.py:61-65 | A raw value that strips to `*` gives `["*"]`. Any other value gives at most one origin per comma-separated piece, each non-empty, stripped and comma-free. |
| Settings.KeptOrigin | infra-copilot-lite-gemini-files/app/main.py:65 | One piece contributes at most one origin. That origin is non-empty and stripped, and contains a comma only if the piece did. |
| Settings.CleanOriginsAppend | infra-copilot-lite-gemini-files/app/main.py:65 | Cleaning two lists of pieces one after the other gives the first list's origins followed by the second's. |
| Settings.CleanOriginsSnoc | infra-copilot-lite-gemini-files/app/main.py:65 | One more piece adds its stripped text at the end exactly when that text is not empty. Together with `CleanOriginsAppend` this fixes which origins are kept and in what order. |
| Settings.CleanOriginsMembers | infra-copilot-lite-gemini-files/app/main.py:65 | An origin is kept iff it is non-empty and is the stripped text of some piece. |
| Settings.AllowedOriginsMembers | infra-copilot-lite-gemini-files/app/main.py:61-65 | Unless the value strips to `*`, the origins are the cleaned comma-separated pieces of the stripped value. An origin is allowed iff it is the non-empty stripped text of one of those pieces. |
| Settings.OriginsRoundTrip | infra-copilot-lite-gemini-files/app/main.py:61-65 | A list of non-empty, stripped, comma-free origins, joined with commas, parses back to itself. |
| Planner.ParseAction | infra-copilot-lite-gemini-files/app/main.py:642-644 | Recognises exactly the five action names, and the recognised action's name is the input. |
| Planner.ForcedPlan | infra-copilot-lite-gemini-files/app/main.py:608-610 | A mode that lowercases and strips to health, metrics, report or daily_report forces that action. The forced plan has need_tools set and why equal to `forced_by_mode:` followed by the normalised mode. Any other mode forces nothing. |
| Planner.BraceChunk | infra-copilot-lite-gemini-files/app/main.py:592-595 | A chunk exists iff the text has a `{` before its last `}`. The chunk runs from the first `{` to the last `}`, with no `{` before it and no `}` after it. |
| Planner.ExtractJsonObject | infra-copilot-lite-gemini-files/app/main.py:582-600 | Blank input gives nothing. Text that parses as a whole gives its parse. Otherwise the result is the parse of the brace chunk, or nothing. |
| Planner.ExtractFromProse | infra-copilot-lite-gemini-files/app/main.py:591-597 | An object surrounded by brace-free prose is recovered by parsing it alone. |
| Planner.NormalizePlan | infra-copilot-lite-gemini-files/app/main.py:640-649 | A missing or falsy parse gives chat / `n/a` / no tools. Otherwise the parse must be an object with textual action and why (else an error). The action is the stripped, lowercased name if known, else chat. need_tools is the field's truthiness when present, else `action != chat`. why defaults to `n/a` and is stripped. |
| Planner.UnknownActionIsChat | infra-copilot-lite-gemini-files/app/main.py:642-646 | An unrecognised action name with no need_tools field yields chat without tools. |
| Planner.PlanTurn | infra-copilot-lite-gemini-files/app/main.py:603-649 | A forced mode wins without consulting the router. A router error fails the turn. Otherwise the plan is the normalised router reply, or a malformed-plan error. |
| Planner.DispatchShape | infra-copilot-lite-gemini-files/app/main.py:718-730 | A report always runs after both the health check and the metrics. Nothing runs for chat or without need_tools. Both running is the same as the report running. |
| Planner.ForcedDispatch | infra-copilot-lite-gemini-files/app/main.py:608-610 | Each forced mode runs exactly the tools its action names. |
| Alerts.Flagged | infra-copilot-lite-gemini-files/app/main.py:284-285 | At most one warning per item. |
| Alerts.FlaggedEmptyIff | infra-copilot-lite-gemini-files/app/main.py:283-285 | No warning at all iff every item is healthy. |
| Alerts.FlaggedSnoc | infra-copilot-lite-gemini-files/app/main.py:283-285 | Checking one more item appends its warning exactly when it is unhealthy. |
| Alerts.FlaggedCount | infra-copilot-lite-gemini-files/app/main.py:373-374 | There are exactly as many warnings as unhealthy items. |
| Alerts.FlaggedCovers | infra-copilot-lite-gemini-files/app/main.py:298-299 | Every unhealthy item's warning is listed, and every listed warning belongs to an unhealthy item. |
| Host.LocalHealth | infra-copilot-lite-gemini-files/app/main.py:193-198 | The snapshot is exactly `LocalSnapshotOf`: the readings copied and the warnings `LocalWarnings`. There is a CPU, memory or disk warning iff that reading is at or above its threshold, and no other warning. Warnings appear in CPU, memory, disk order, at most three. There are none iff all readings are below their thresholds. |
| Host.LocalWarningsFacts | infra-copilot-lite-gemini-files/app/main.py:193-198 | The local warnings hold a CPU, memory or disk warning iff that reading reaches its threshold, and nothing else. They come in that order, at most three, and there are none iff all readings are below. |
| Azure.PowerStateOf | infra-copilot-lite-gemini-files/app/main.py:273-282 | A 200 instance view gives the text after `PowerState/` in its first such code. Anything else gives `unknown`. |
| Azure.CheckVms | infra-copilot-lite-gemini-files/app/main.py:266-287 | The loop yields exactly the entries and warnings of `VmSection`. A failed listing gives one warning and no entries. Otherwise there are entries for the VMs before the first instance-view exception, a warning per VM not running, stopped or deallocated, and one failure warning if an exception cut the block short. |
| Azure.CheckAppServices | infra-copilot-lite-gemini-files/app/main.py:290-301 | The loop yields the mapped apps and the warnings for apps whose state is not `running` (case-insensitively), or one failure warning. |
| Azure.CheckStorageAccounts | infra-copilot-lite-gemini-files/app/main.py:304-315 | The loop yields the mapped accounts and the warnings for those not `succeeded` (case-insensitively), or one failure warning. |
| Azure.AzureHealth | infra-copilot-lite-gemini-files/app/main.py:225-326 | Without subscription and group: not configured and empty. If the token fails: auth_failed with exactly one warning. Otherwise the three sections with their warnings concatenated in order, and status ok iff no warning. The snapshot is exactly `AzureSnapshotOf` of the same inputs. |
| Azure.VmQuietIff | infra-copilot-lite-gemini-files/app/main.py:266-287 | The VM block is silent iff the listing succeeded and every VM answered and is in an accepted state. |
| Azure.AppQuietIff | infra-copilot-lite-gemini-files/app/main.py:290-301 | The App Service block is silent iff the listing succeeded and every app is running. |
| Azure.StorageQuietIff | infra-copilot-lite-gemini-files/app/main.py:304-315 | The storage block is silent iff the listing succeeded and every account has succeeded. |
| Azure.FailedListingIsolated | infra-copilot-lite-gemini-files/app/main.py:286-287 | A failed VM listing costs exactly one warning and leaves the later blocks' warnings as they are. |
| Endpoints.CheckEndpoint | infra-copilot-lite-gemini-files/app/main.py:347-372 | UP iff the GET answered with a status in [200, 400). A bad status gives `Bad status <code>`. A raised request gives DOWN with no HTTP status and the exception text. Name, url and latency are copied. |
| Endpoints.Checks | infra-copilot-lite-gemini-files/app/main.py:341-372 | At most one result per configured entry. |
| Endpoints.ChecksAppend | infra-copilot-lite-gemini-files/app/main.py:341-372 | Checking a list in two parts gives the first part's results followed by the second part's, whose entries are probed at their positions in the whole list. |
| Endpoints.CustomEndpointsHealth | infra-copilot-lite-gemini-files/app/main.py:332-376 | A configuration that is not a list gives not-configured with the single "not a JSON list" warning. Otherwise the loop yields the checks of the probed entries in order and a warning per result that is not UP. The snapshot is exactly `CustomSnapshotOf` of the same inputs. |
| Endpoints.ChecksInOrder | infra-copilot-lite-gemini-files/app/main.py:341-372 | When every entry has a truthy name and url, there is one result per entry, in configuration order. Result i is the check of entry i with probe i. |
| Endpoints.UnprobedEntryIgnored | infra-copilot-lite-gemini-files/app/main.py:342-345 | An entry missing its name or url adds no result. |
| Endpoints.WarningPerDownResult | infra-copilot-lite-gemini-files/app/main.py:373-374 | There is one warning per DOWN result, no warning iff all are UP, and every DOWN result's warning is listed. |
| Aggregate.AggregateSummary | infra-copilot-lite-gemini-files/app/main.py:379-390 | The list is local, then Azure, then custom (missing read as empty). total is 5, warnings is the list length, and healthy is `5 - warnings` when there are fewer than five warnings, else 0. So healthy is in [0, 5], and healthy + warnings equals total iff there are at most five warnings. |
| Aggregate.HealthCheck | infra-copilot-lite-gemini-files/app/main.py:396-422 | The report carries the timestamp. Its local, azure and custom parts are exactly `LocalSnapshotOf`, `AzureSnapshotOf` and `CustomSnapshotOf` of the observations. Its warnings are the three parts' warnings in order, with the summary counts over them. There are no local warnings iff every reading is below its threshold. Azure is silent when not configured, else its warnings are the three sections' warnings. Custom is configured iff the endpoint list is a list, and then holds the endpoint checks with a warning per DOWN result. |
| Aggregate.LocalOnlySummary | infra-copilot-lite-gemini-files/app/main.py:379-390 | With Azure and custom silent, the summary lists exactly the local warnings and counts at least two healthy checks. |
| Trend.Clamp | infra-copilot-lite-gemini-files/app/main.py:438 | The result lies in [0, 100], equals the input inside that range, and is the nearer bound outside it. |
| Trend.Series | infra-copilot-lite-gemini-files/app/main.py:433-440 | One point per requested hour (none for a negative count). Points are spaced an hour apart and the last is at `now`. Value i is the clamped jittered base from draw `from + i` of the random stream, in [0, 100]. |
| Trend.SampleZeroJitter | infra-copilot-lite-gemini-files/app/main.py:438 | Zero jitter reproduces the base. |
| Trend.SampleUnclamped | infra-copilot-lite-gemini-files/app/main.py:438 | A base at least half a jitter inside [0, 100] is never clamped: the value is the base plus the scaled offset of the draw. |
| Trend.CollectMetrics | infra-copilot-lite-gemini-files/app/main.py:428-453 | Four 24-point series on the same hourly timestamps: cpu with jitter 18, memory with jitter 14, disk with base 55 and jitter 10, netio with base 35 and jitter 22. Each series uses its own 24 consecutive draws. |
| Sessions.Live | infra-copilot-lite-gemini-files/app/main.py:101-112 | Keeps exactly the sessions that have a timestamp and were used no more than the TTL ago, unchanged. |
| Sessions.Touch | infra-copilot-lite-gemini-files/app/main.py:115-120 | The id is present and stamped `now`. A live session keeps its history and cached outputs, else the id starts fresh. Every other id stays iff it is live, unchanged. |
| Sessions.TtlBoundary | infra-copilot-lite-gemini-files/app/main.py:109 | A session used again exactly one TTL later survives. One microsecond later it starts fresh. |
| Sessions.SecondUse | infra-copilot-lite-gemini-files/app/main.py:101-120 | Two look-ups of one id: the history carries over iff the second comes within the TTL of the first. Otherwise the session is fresh. |
| Sessions.SessionStore.constructor | infra-copilot-lite-gemini-files/app/main.py:97-98 | The store starts empty, with the TTL in minutes converted to microseconds. |
| Sessions.SessionStore.Purge | infra-copilot-lite-gemini-files/app/main.py:101-112 | The store afterwards is exactly its live part. |
| Sessions.SessionStore.GetSession | infra-copilot-lite-gemini-files/app/main.py:115-120 | The store afterwards is the touched store, and the session handed out is the stored one. |
| Sessions.SessionStore.Save | infra-copilot-lite-gemini-files/app/main.py:701 | Writing the session blob changes only that id's entry. |
| Agent.SessionIdOf | infra-copilot-lite-gemini-files/app/main.py:683 | A non-empty requested id is used, otherwise the fresh one. |
| Agent.BoundHistory | infra-copilot-lite-gemini-files/app/main.py:697-699 | The result is a suffix of the history. It is the last 2·turns messages for a positive bound and everything for 0. For a negative bound it is the history without its first −2·turns messages. |
| Agent.FlagsOf | infra-copilot-lite-gemini-files/app/main.py:613-617 | Each context flag is set iff the corresponding cached output is present and truthy. An empty report does not count. |
| Agent.BlankTurn | infra-copilot-lite-gemini-files/app/main.py:686-688 | A message that is empty or all whitespace gets the greeting with tool `none` and no outputs, and the session (its history included) is left unchanged. |
| Agent.ToolPhaseEffect | infra-copilot-lite-gemini-files/app/main.py:717-738 | The tool block refreshes the cache of each tool that ran and nothing else. A failing report generator aborts after health and metrics are cached. On success it yields the fresh outputs. |
| Agent.AnswerPhaseEffect | infra-copilot-lite-gemini-files/app/main.py:748-786 | The answer block leaves the cache alone. On success it appends the bounded reply. It answers with the fresh output or, when the tool of the action did not run, the cached one. The reply is the chat call on the history for a plain chat, else the answer call on the payload of those outputs (a blank fresh report replaced by a non-blank cached one). The block fails with that call's error exactly when the call fails, and on success answers with its text. |
| Agent.RunTools | infra-copilot-lite-gemini-files/app/main.py:717-738 | The imperative tool block yields the tool phase's session and outputs, and writes the session into the store. |
| Agent.Answer | infra-copilot-lite-gemini-files/app/main.py:748-805 | The imperative answer block yields the answer phase's session and reply, and writes the session into the store. |
| Agent.RunExchange | infra-copilot-lite-gemini-files/app/main.py:691-805 | A turn with a non-empty message leaves the store and the outcome that `Exchange` describes. |
| Agent.ChatTurn | infra-copilot-lite-gemini-files/app/main.py:682-805 | The store afterwards is the touched store with this session replaced by the turn's final session. The outcome is the turn's answer or error. |
| Agent.BoundedAppendOnce | infra-copilot-lite-gemini-files/app/main.py:694-699 | With a bound of at least one turn, the new user message ends the bounded history. |
| Agent.BoundedAppendTwice | infra-copilot-lite-gemini-files/app/main.py:783-785 | After both appends the history holds 2..2·turns messages and is a suffix of the whole conversation. |
| Agent.ExchangeHistory | infra-copilot-lite-gemini-files/app/main.py:694-786 | A turn's final history is the bounded history with the user message, plus the bounded reply on success. |
| Agent.TurnHistory | infra-copilot-lite-gemini-files/app/main.py:694-786 | At most 2·turns messages. On success the history ends with the user message and the reply, as a suffix of the conversation. On failure it still ends with the user message. |
| Agent.TurnOutputs | infra-copilot-lite-gemini-files/app/main.py:704-805 | A successful turn with a non-empty message caches each tool output that ran. It reports `toolUsed` as the planned action. It answers health, metrics and report with the fresh output, or the cached one for the action's own tool when that tool did not run. |
| Agent.FailedTurnState | infra-copilot-lite-gemini-files/app/main.py:704-745 | A failed turn with a non-empty message keeps the user message. A planning failure changes nothing else. A report failure leaves fresh health and metrics cached and the old report. |
| Agent.ForcedModeIgnoresRouter | infra-copilot-lite-gemini-files/app/main.py:608-610 | In a forced mode the turn is the same whatever the router would answer. |
| Agent.ForcedHealthTurn | infra-copilot-lite-gemini-files/app/main.py:718-722 | A successful health-mode turn reports and caches this turn's health check and leaves metrics alone. |

## Left out

- HTTP transport, FastAPI routing, CORS middleware, static files, `/api/models`, `/api/report` prompt construction and `/api/supervisor`. These are I/O and framework code. The report generator is an input function.
- Gemini calls, `json.loads`, psutil, the Azure credential and REST calls, and the endpoint GETs are parameters, with their outcomes given as inputs. Failures inside psutil during a chat turn are not modelled.
- Warning texts and f-string formatting (`{cpu:.1f}`, exception messages) are modelled as structured `Warning` values. The one reproduced text is `Bad status <code>`.
- Floating point: readings and draws are `real`. The `round(v, 2)` of values and percentages is not modelled.
- Time: the source reads the clock several times per request. The model takes one `now` (integer microseconds) per operation. ISO formatting is not modelled.
- Host.LocalHealth: the uptime computation from the boot time is an input. The disk path choice per OS is not modelled.
- Azure items whose state fields hold JSON `null` (which raises in `.lower()` and ends the block) are not modelled. A missing field reads as `unknown`.
- Names and status codes: an Azure item's `name` is taken as a string. A missing or JSON `null` name (formatted as `None` in the warning) is not modelled, nor is a `statuses` entry that is not an object or whose `code` is not a string. HTTP status codes are integers, as httpx reports them.
- Endpoint latency is an input of each probe. The timeout and redirects are not modelled.
- Concurrency: async requests are modelled as running one at a time, with no interleaving on the session store.
- Agent.ChatTurn: the tool outputs of the turn (`api_healthcheck` and `api_metrics`) are inputs (`ToolOutputs`), not recomputed inside the turn. `Aggregate.HealthCheck` and `Trend.CollectMetrics` describe what they are. The 12000-character truncation of the tool payload shown to Gemini, and the `usedModel` field, are not modelled.
- Lower: only ASCII letters are lowered. Non-ASCII case mapping in Python's `str.lower` is not modelled.
