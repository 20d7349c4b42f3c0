# Usage statistics and setup logic of the multi-provider LLM gateway demo

This Dafny project models the parts of the repository that compute something locally. The HTTP calls, container commands and SQLite cursors around them are left out.

- **Trace aggregation** (`scripts/analyze-user-activity.py`):
  - `parse_traces` walks batches, traces, spans and tags.
  - It keeps per-user counters keyed by the `x-user-email` header.
  - `print_report` ranks the users and derives the report's figures.
  - `main` maps the result to JSON.
- **Log mining** (`scripts/track-users-openwebui.py`):
  - pattern-driven chat-log counting;
  - gateway-log counting on `route_rule=` / `http.status=` lines;
  - pipe-separated database rows;
  - the chat ranking and provider percentages printed by `main`.
- **The agent library** (`agents/lib/schema-transformer.js`, `agents/lib/a2a-agent-base.js`, `agents/hello-agent.js`):
  - the MCP-to-A2A conversions;
  - the agent's defaults, MCP initialisation and skill list;
  - the agent card and task dispatch;
  - the hello agent's `greet` and `introduce` handlers.
- **The setup scripts** (`init/openwebui/init-openwebui.py`, `scripts/configure-openwebui-connections.py`, `scripts/configure-models-db.py`):
  - user-status classification and the summary tallies;
  - the connection and model lists;
  - the script each one runs inside the web UI's container. That script updates the JSON config document and inserts every model whose id is not yet in the `model` table.

## How the files are modelled

- The two reporting scripts build their counters in loops.
  - Each loop is a Dafny `method` with `while` loops: `ParseTraces`, `TallySpan`, `ProviderTotals`, `GetChatLogs`, `GetGatewayStats` and `ParseRows`.
  - A nested loop's inner loop is a method of its own: `AddProviderCounts` inside `ProviderTotals`, and `MineLineInto` inside `GetChatLogs`.
  - Each method is proved equal to a recursive specification function.
  - The promised properties are lemmas about that function.
- A `defaultdict(int)` counter is the sequence of keys it was bumped with.
  - This keeps first-seen order, which the report's stable sorts depend on.
  - `Counters.Count` gives each key's count.
- JavaScript values are the datatype `JsValues.Value`.
  - Reading a property of `undefined` or `null` gives a `TypeError` value: `Cannot read properties of undefined (reading 'x')`.
  - Destructuring `undefined` or `null` gives the engine's other wording: `Cannot destructure property 'x' of 'parameters' as it is undefined.`
  - A thrown error caught by `handleTask` becomes a 500 reply carrying that message.
- The agent is a class `AgentBase.Agent` whose methods update its fields.
  - The MCP session the constructor would open is a parameter: `McpSession`.
  - `callTool` and `JSON.stringify` are parameters too, in `Environment`.
- The web UI's database is a class `WebuiDb.Database`.
  - Its config rows are a sequence, and its `model` table is a map keyed by model id.
  - The embedded scripts' config update is the function `WebuiDb.UpdatedConfig`.
  - Their insert loop is `Database.InsertModels`, proved equal to `WebuiDb.InsertAll`.
  - The three setup scripts share these; each script's own order of steps is a `Configure` method.
  - The connection configurator's `Configure` takes the connection table as a parameter. Lemmas about the table `Connections` relate it to the other two scripts' lists.
- External commands and requests are parameters:
  - a command's outcome is `LogMining.CommandOutcome` (it raised, or completed with a return code and output);
  - a signup response is `OpenwebuiInit.SignupOutcome`;
  - the clock is `now`.
- The source's regular expressions are handled two ways.
  - The chat-log patterns and the timestamp pattern are abstract matchers (`string -> Option<string>`).
  - The gateway captures `gen_ai.provider.name=(\w+)` and `http.status=(\d+)` are modelled concretely by `Text.CaptureAfter`.

Where the project's written description and the code disagree, the model follows the code:
- The chat-log miner counts a line once for every pattern that matches it; it does not stop at the first match.
- Users and providers with equal counts stay in first-seen order; there is no other tie-break.
- No operation merges two sets of statistics.

## Model

| member | source | states |
|---|---|---|
| TraceActivity.LastValueIsLast | scripts/analyze-user-activity.py:62-78 | a recognised tag key takes the value of its last tag in the span: the result is `v` exactly when some tag is `(key, v)` and no later tag has that key |
| TraceActivity.LastValueAbsent | scripts/analyze-user-activity.py:56-78 | a key stays unset exactly when no tag of the span has it |
| TraceActivity.ScanTags | scripts/analyze-user-activity.py:62-78 | the tag loop leaves each of the four variables at the last value of its key |
| TraceActivity.ProviderOf | scripts/analyze-user-activity.py:68-74 | the provider is a dash-free prefix of the route name that ends at a '-' or at the end of the name |
| TraceActivity.ProviderOfUnique | scripts/analyze-user-activity.py:68-74 | only one prefix has that property, so the provider is exactly the text before the first '-', or the whole name |
| TraceActivity.ProviderOfDashedRoute | scripts/analyze-user-activity.py:70-72 | "anthropic-claude" gives "anthropic" |
| TraceActivity.ProviderOfPlainRoute | scripts/analyze-user-activity.py:73-74 | "gemini" gives "gemini" |
| TraceActivity.TallySpan | scripts/analyze-user-activity.py:83-95 | the counter updates for one span, in source order, equal `Tally`; a present status that `int()` rejects is a failure that ends the run |
| TraceActivity.CountSpan | scripts/analyze-user-activity.py:83-90 | the unconditional updates add one request and the span's duration, and count the provider and the method each once when present |
| TraceActivity.TallyKeepsBounds | scripts/analyze-user-activity.py:83-95 | one span keeps `errors <= status count <= requests` and the provider and method counts at most `requests` |
| TraceActivity.StatusCountsError | scripts/analyze-user-activity.py:92-95 | a numeric status is counted under its own string, and as an error exactly when its value is at least 400 |
| TraceActivity.SpanWithoutUser | scripts/analyze-user-activity.py:80-81 | a span without a non-empty user address changes nothing |
| TraceActivity.IngestSpanRequests | scripts/analyze-user-activity.py:81-84 | a span adds 1 to the requests of its own user and of no other address; the trace count is unchanged |
| TraceActivity.IngestSpanRecords | scripts/analyze-user-activity.py:81-84 | a recorded span creates or updates its user's record, adds its duration (0 when absent), adds at most one error, and leaves every other user's record as it was |
| TraceActivity.IngestSpanWellFormed | scripts/analyze-user-activity.py:81-95 | users stay distinct, non-empty and in first-seen order, and every record keeps its bounds |
| TraceActivity.ParseTraces | scripts/analyze-user-activity.py:37-97 | the nested batch/trace/span loops compute the fold `IngestItems`, including the failure on a non-numeric status |
| TraceActivity.ParseTracesOutcome | scripts/analyze-user-activity.py:50-84 | `total_traces` is the number of traces across all batches; each user's `requests` is the number of spans carrying that address; the result is well formed |
| TraceActivity.UserListed | scripts/analyze-user-activity.py:81-82 | an address has a record exactly when at least one span carries it |
| ActivityReport.RankedUsersCorrect | scripts/analyze-user-activity.py:117 | the ranking lists every user once, by non-increasing `requests`, and keeps first-seen order among equal counts |
| ActivityReport.AvgMsTotal | scripts/analyze-user-activity.py:120 | the average in milliseconds times the number of requests gives back the total duration |
| ActivityReport.ErrorPercentBounds | scripts/analyze-user-activity.py:126 | a recorded user's error percentage exists and lies between 0 and 100 |
| ActivityReport.ProviderSharesCorrect | scripts/analyze-user-activity.py:128-132 | each provider the user used is listed once, by non-increasing count, with a percentage of the user's requests between 0 and 100 |
| ActivityReport.StatusLinesCorrect | scripts/analyze-user-activity.py:134-137 | each status code is listed once, in ascending order, with its count |
| ActivityReport.ProviderTotals | scripts/analyze-user-activity.py:147-150 | the totals loop gives each provider the sum of its counts over all users |
| ActivityReport.AddProviderCounts | scripts/analyze-user-activity.py:149-150 | adding one user's providers to the totals of the users before gives the key order of all their providers together, and each provider the sum of its counts |
| ActivityReport.BarLength | scripts/analyze-user-activity.py:157 | the bar is `count * 50 / total` rounded down, so at most 50 marks |
| ActivityReport.DistributionCorrect | scripts/analyze-user-activity.py:152-158 | each provider appears once, by non-increasing total, as a percentage of all provider-tagged requests, with a bar of at most 50 |
| ActivityReport.NoticeIffNoUsers | scripts/analyze-user-activity.py:101-107 | the report is only the "no activity" notice exactly when no user was seen |
| ActivityReport.ReportLines | scripts/analyze-user-activity.py:112-124 | the report has one numbered entry per user, in ranking order, with that user's request count; the unique-user count is the number of users |
| ActivityReport.TopIsFirstFive | scripts/analyze-user-activity.py:161-163 | the top list is the first five ranked users, or all of them when there are fewer |
| ActivityReport.UsersCounted | scripts/analyze-user-activity.py:113 | `len(user_stats)` equals the number of distinct users listed |
| ActivityReport.CounterJsonKeys | scripts/analyze-user-activity.py:203 | a counter's JSON object has exactly the counted names as keys, each with its count |
| ActivityReport.CounterJsonFaithful | scripts/analyze-user-activity.py:203 | two counters with the same JSON object have the same counts |
| ActivityReport.UserJsonFaithful | scripts/analyze-user-activity.py:203 | a user's JSON object determines all of the user's figures and counts |
| ActivityReport.JsonFaithful | scripts/analyze-user-activity.py:199-204 | the JSON document determines the trace count, the set of users and each user's figures; only the order of first use is lost |
| Counters.SumOfCounts | scripts/analyze-user-activity.py:154 | the counts of a counter's distinct keys add up to the number of increments |
| Counters.MostCountedFirstCorrect | scripts/analyze-user-activity.py:155 | sorting a counter's items by count lists each key once, by non-increasing count |
| Counters.KeysAscendingCorrect | scripts/analyze-user-activity.py:136 | sorting a counter's items lists each key once, in ascending string order |
| Counters.PercentBounds | scripts/analyze-user-activity.py:131 | a percentage of a count no larger than its total lies between 0 and 100, and is 100 for the whole |
| Ranking.SortDescSorted | scripts/analyze-user-activity.py:117 | `sorted(..., reverse=True)` by a key is non-increasing in that key |
| Ranking.SortDescPermutes | scripts/analyze-user-activity.py:117 | the sort is a permutation of its input |
| Ranking.SortDescStable | scripts/analyze-user-activity.py:117 | the elements with any one key value keep their input order |
| Ranking.SortStringsCorrect | init/openwebui/init-openwebui.py:428 | `sorted` on strings is ascending and a permutation |
| Text.Split | scripts/track-users-openwebui.py:39 | `split` on a separator gives one more part than there are separators, and no part contains the separator |
| Text.JoinSplit | scripts/track-users-openwebui.py:39 | joining the parts with the separator gives back the text, so each line is processed exactly once |
| Text.SplitJoin | scripts/track-users-openwebui.py:113 | splitting fields joined by a separator that none of them contains gives back the fields |
| Text.ParseUnsignedRun | scripts/analyze-user-activity.py:94 | `int()` accepts a run of digits with single underscores between them, and gives its decimal value |
| Text.ParseNatural | scripts/analyze-user-activity.py:94 | `int()` of a number's decimal text gives back the number |
| Text.ParseNegative | scripts/analyze-user-activity.py:94 | `int()` of a minus sign followed by a positive number's decimal text gives back the negative number |
| Text.CaptureAfter | scripts/track-users-openwebui.py:78-86 | a capture is a non-empty run of the character class that follows the literal in the line |
| Text.CaptureNeedsLiteral | scripts/track-users-openwebui.py:78-86 | a line without the literal captures nothing |
| JsValues.Member | agents/lib/schema-transformer.js:14 | reading a property fails with a TypeError exactly on `undefined` and `null`; on an object it gives the property's value, or `undefined` when it is missing |
| JsValues.Destructure | agents/hello-agent.js:41 | destructuring fails exactly on `undefined` and `null`, with the TypeError that names the first property, the expression and which of the two it was; an object gives its own property or `undefined`, and any other value gives `undefined` |
| LogMining.GetChatLogs | scripts/track-users-openwebui.py:39-48 | the per-line, per-pattern loop computes `ChatLogs`; a command that raised gives no activity |
| LogMining.MineLineInto | scripts/track-users-openwebui.py:40-48 | the per-pattern loop for one line computes `MineLine`: each capturing pattern adds an event, and a timestamp when the line has one |
| LogMining.LineEvents | scripts/track-users-openwebui.py:40-44 | one line adds to a user exactly the number of patterns that capture that user, with no early exit |
| LogMining.MatchesAtMostPatterns | scripts/track-users-openwebui.py:40-44 | one line adds at most one event per pattern |
| LogMining.UnmatchedLine | scripts/track-users-openwebui.py:39-44 | a line that no pattern matches changes nothing |
| LogMining.MineLineOk | scripts/track-users-openwebui.py:44-48 | users stay distinct in first-counted order, each has at least one event, and each has no more timestamps than events |
| LogMining.ChatLogsOutcome | scripts/track-users-openwebui.py:39-48 | over all lines, each user's event count is the total number of pattern captures of that user, and the activity is well formed |
| LogMining.ChatRankingCorrect | scripts/track-users-openwebui.py:156 | the chat list has every user once, by non-increasing events, ties in first-counted order |
| LogMining.GetGatewayStats | scripts/track-users-openwebui.py:56-94 | the per-line loop computes `GatewayStatsOf`; a command that raised gives the empty dict |
| LogMining.GatewayLineCounts | scripts/track-users-openwebui.py:74-92 | a line is counted exactly when it contains both `route_rule=` and `http.status=`; the bounds `successful + errors <= statuses <= total` and `providers <= total` are kept |
| LogMining.StatusClassified | scripts/track-users-openwebui.py:84-92 | a captured status is recorded, and is a success when it starts with '2' and an error when it starts with '4' or '5' |
| LogMining.UncountedLine | scripts/track-users-openwebui.py:74 | a line missing either marker changes nothing |
| LogMining.GatewayLinesOk | scripts/track-users-openwebui.py:73-92 | after any log, `successful + errors <= total_requests` and the provider and status counts sum to at most `total_requests` |
| LogMining.GetActiveUsers | scripts/track-users-openwebui.py:107-125 | rows come from the stripped output, line by line, only when the command exited with 0; otherwise the list is empty |
| LogMining.ParseRows | scripts/track-users-openwebui.py:111-120 | the row loop keeps each line that parses as a row, in order |
| LogMining.RowKept | scripts/track-users-openwebui.py:112-114 | a line is kept exactly when it contains at least two pipe characters, that is, when it has a pipe and splits into at least 3 fields |
| LogMining.RowRoundTrip | scripts/track-users-openwebui.py:115-119 | four pipe-free fields joined with pipes come back positionally as email, name, role and last active time |
| LogMining.ShortRowRoundTrip | scripts/track-users-openwebui.py:117-119 | with three fields the last active time is "" |
| LogMining.SectionPercentages | scripts/track-users-openwebui.py:170-174 | each provider line has its count and a percentage of all counted requests between 0 and 100, which is 0 when there are none |
| LogMining.GatewaySectionCrashes | scripts/track-users-openwebui.py:164-168 | when the gateway log command raised, the statistics section as written fails with `KeyError('total_requests')` |
| LogMining.GatewaySectionFixed | scripts/track-users-openwebui.py:60-68 | the corrected section reports zero requests and no providers or statuses when the command raised, and agrees with the written one otherwise |
| LogMining.GatewaySectionFixedTotals | scripts/track-users-openwebui.py:164-168 | in the corrected section, successful plus errors is at most the total, whatever the command's outcome |
| SchemaTransformer.McpToolToA2ASkill | agents/lib/schema-transformer.js:12-24 | fails exactly on an `undefined` or `null` tool; otherwise the skill has the keys name, description, parameters and `_mcpBacked`, copies the name, and `_mcpBacked` is true |
| SchemaTransformer.SkillOfTool | agents/lib/schema-transformer.js:15-20 | a truthy description or input schema is kept; otherwise the description is "MCP tool: " followed by the name, and the parameters are the empty object schema |
| SchemaTransformer.A2aParamsToMcpArgs | agents/lib/schema-transformer.js:31-35 | truthy parameters pass through unchanged, anything else becomes `{}`; the result is always truthy |
| SchemaTransformer.ArgsIdempotent | agents/lib/schema-transformer.js:31-35 | converting twice is the same as converting once |
| SchemaTransformer.McpResultToA2AOutput | agents/lib/schema-transformer.js:43-72 | fails exactly when there is content whose first item is `undefined` or `null`; every other output has `success` true |
| SchemaTransformer.ReplyWithoutContent | agents/lib/schema-transformer.js:47-56 | with no result or no content, the text is "Tool <name> executed successfully" and the data is the raw result |
| SchemaTransformer.ReplyFromFirstItem | agents/lib/schema-transformer.js:59-71 | otherwise the type and text come from the first content item, defaulting to 'text' and its JSON text, and `fullResult` is the whole content list |
| SchemaTransformer.EmptyContentRaises | agents/lib/schema-transformer.js:59-64 | an empty content list raises "Cannot read properties of undefined (reading 'type')" |
| SchemaTransformer.McpErrorToA2AError | agents/lib/schema-transformer.js:80-89 | fails exactly on an `undefined` or `null` error; otherwise `success` is false |
| SchemaTransformer.ErrorReplyForTool | agents/lib/schema-transformer.js:84-86 | the code defaults to 'MCP_TOOL_ERROR', the message starts with "MCP tool '<name>' failed: ", and the details are the error's data |
| AgentBase.ConvertTools | agents/lib/a2a-agent-base.js:77-79 | mapping the tools succeeds exactly when none is `undefined` or `null`, and gives one converted skill per tool, in order |
| AgentBase.SkillNames | agents/lib/a2a-agent-base.js:194 | the skills' names, one per skill, in order; fails exactly when a skill is `undefined` or `null` |
| AgentBase.CardSkills | agents/lib/a2a-agent-base.js:159-163 | one card entry per skill, in order; fails exactly when a skill is `undefined` or `null` |
| AgentBase.Agent.constructor | agents/lib/a2a-agent-base.js:10-29 | the defaults: version '1.0.0', skills `[]`, handlers `{}`, MCP enabled unless `enabled` is exactly `false`, the default endpoint, no client, no tools, no skills |
| AgentBase.Agent.InitializeMcp | agents/lib/a2a-agent-base.js:56-87 | a reachable session whose tools all convert sets `mcpTools`; any failure sets `mcpEnabled` false and `mcpTools` empty; the client exists afterwards and nothing else changes |
| AgentBase.Agent.Initialize | agents/lib/a2a-agent-base.js:34-51 | MCP is set up only when enabled: then the client exists, and MCP stays enabled with the converted tools exactly when the session connected and every tool converted, otherwise it is off with no tools; when disabled, the tools and client are untouched. `allSkills` becomes the native skills followed by the MCP tools, and the identity fields and handlers are unchanged |
| AgentBase.Agent.BuildSkillsList | agents/lib/a2a-agent-base.js:92-94 | native skills followed by MCP tools, in order, with length the sum of both |
| AgentBase.Agent.AgentCard | agents/lib/a2a-agent-base.js:148-165 | building the card fails exactly when some skill is `undefined` or `null` |
| AgentBase.Agent.HandleTask | agents/lib/a2a-agent-base.js:170-208 | an `undefined` or `null` body is destructured outside the `try`, so the request gets no reply; every reply has status 200 or 500 |
| AgentBase.NativeFirst | agents/lib/a2a-agent-base.js:177-180 | for any body other than `undefined` or `null` (an array included), a skill with a native handler runs that handler, even when an MCP tool has the same name |
| AgentBase.McpSecond | agents/lib/a2a-agent-base.js:183-187 | otherwise a skill named by an MCP tool runs through the MCP client, which then exists |
| AgentBase.UnknownLast | agents/lib/a2a-agent-base.js:190-196 | otherwise the reply is `success` false, code UNKNOWN_SKILL, and a message listing every skill name joined with ', ' |
| AgentBase.NoClientError | agents/lib/a2a-agent-base.js:221-233 | without a client the MCP call does not throw: it returns the converted error "MCP client not initialized" with code MCP_TOOL_ERROR |
| AgentBase.CardMatchesSkills | agents/lib/a2a-agent-base.js:148-165 | the card's skills have the same length and order as `allSkills`, each projected to name, description and parameters, and the card reports `mcpEnabled` |
| HelloAgent.Greet | agents/hello-agent.js:40-55 | `greet` throws exactly when its parameters are `undefined` or `null`, and what it throws is the TypeError for destructuring `name` from `parameters` |
| HelloAgent.GreetingNamesPerson | agents/hello-agent.js:42-54 | for any parameters other than `undefined` and `null` (strings, numbers and arrays included), the reply has `success` true and type 'text', and its text contains the name, or "undefined" when there is none |
| HelloAgent.EnglishByDefault | agents/hello-agent.js:41 | with no language the greeting is the English one |
| HelloAgent.EnglishForUnknown | agents/hello-agent.js:52 | an unknown language falls back to the English greeting |
| HelloAgent.KnownLanguage | agents/hello-agent.js:42-46 | English, Spanish and French each get their own greeting |
| HelloAgent.Introduce | agents/hello-agent.js:57-65 | `introduce` replies with `success` true and the fixed introduction |
| HelloAgent.IntroductionIgnoresParameters | agents/hello-agent.js:57-65 | the introduction does not depend on the parameters |
| HelloAgent.NewHelloAgent | agents/hello-agent.js:69-81 | the hello agent starts with MCP enabled, its two native skills and handlers, and the endpoint or the default |
| HelloAgent.GreetTaskInEnglish | agents/hello-agent.js:40-55 | a `greet` task with only a name gets the English greeting in a 200 reply |
| HelloAgent.GreetTaskWithoutParameters | agents/hello-agent.js:41 | a `greet` task without parameters gets a 500 reply carrying the TypeError message for destructuring `name` from `parameters`, which is `undefined` |
| HelloAgent.GreetWithoutParametersMessage | agents/hello-agent.js:41 | that message reads "Cannot destructure property 'name' of 'parameters' as it is undefined." |
| WebuiDb.UpdatedConfig | scripts/configure-models-db.py:95-155 | the update succeeds exactly when the document is an object whose 'openai' entry, if any, is an object |
| WebuiDb.UpdateKeepsOtherKeys | init/openwebui/init-openwebui.py:248-307 | the update writes exactly the listed keys, keeps every other key of the document and of an existing 'openai' section, and creates the section only when absent |
| WebuiDb.SectionSettings | scripts/configure-models-db.py:114-152 | the section lists the same URLs and keys as the top level, and `api_configs` is exactly '0' to '3', each enabled with its one model id |
| WebuiDb.ConfiguredModelIdsDistinct | scripts/configure-models-db.py:119-152 | the four connections list four different models |
| WebuiDb.SavedConfig | scripts/configure-models-db.py:158-163 | the document is saved by UPDATE of the row that was read, or by INSERT with id 1 when there was none |
| WebuiDb.InsertAllCorrect | init/openwebui/init-openwebui.py:340-364 | inserting skips ids already present and never alters an existing row; the rows added are the absent listed ids; `models_added` counts them; the k-th one added records position k |
| WebuiDb.InsertAllKeys | init/openwebui/init-openwebui.py:340-364 | the ids in the table after a run are exactly those before it and the listed ones |
| WebuiDb.InsertFresh | scripts/configure-models-db.py:175-207 | with distinct ids none of which is present, every model is added, in list order |
| WebuiDb.InsertAgain | scripts/configure-models-db.py:181-185 | running the same inserts again adds nothing and changes nothing |
| WebuiDb.NothingNew | scripts/configure-models-db.py:181-185 | when every listed id is present, nothing is added |
| WebuiDb.GatewayModelsAligned | init/openwebui/init-openwebui.py:310-335 | model i uses connection i's URL and key and is the model that connection's `api_configs` entry lists; the ids are distinct |
| WebuiDb.FirstRunAddsAll | init/openwebui/init-openwebui.py:337-364 | on an empty model table all four models are added, at positions 0 to 3 |
| WebuiDb.Database.FirstConfig | scripts/configure-models-db.py:85-86 | `fetchone()` gives a row exactly when the table has one |
| WebuiDb.Database.SaveConfig | scripts/configure-models-db.py:157-165 | the config rows become `SavedConfig` and the model table is untouched |
| WebuiDb.Database.InsertModels | scripts/configure-models-db.py:175-208 | the insert loop leaves the table and `models_added` as `InsertAll` describes, and leaves the config rows untouched |
| OpenwebuiInit.CreateUserAsAdmin | init/openwebui/init-openwebui.py:211-216 | the admin path never creates a user |
| OpenwebuiInit.StatusClassification | init/openwebui/init-openwebui.py:187-205 | 'created' exactly on status 200, 'exists' exactly on status 400 with 'already' in the lower-cased body, 'failed' otherwise (including a raised request) |
| OpenwebuiInit.CreateUsers | init/openwebui/init-openwebui.py:164-209 | one result per configured user, in configuration order, each with its classified status |
| OpenwebuiInit.TalliesAddUp | init/openwebui/init-openwebui.py:407-409 | created + exists + failed is the number of results |
| OpenwebuiInit.CreatedUsersTallied | init/openwebui/init-openwebui.py:407-409 | for the results of `create_users` the three tallies add up to the number of users |
| OpenwebuiInit.GroupByTeam | init/openwebui/init-openwebui.py:417-422 | the grouping loop computes `Grouped` |
| OpenwebuiInit.GroupsAreTeams | init/openwebui/init-openwebui.py:417-422 | there is a group exactly for each team that occurs, holding that team's results in their original order |
| OpenwebuiInit.OfTeamMembers | init/openwebui/init-openwebui.py:418-422 | a group holds only results of its own team |
| OpenwebuiInit.OfTeamEmpty | init/openwebui/init-openwebui.py:418-422 | a team without a group has no results |
| OpenwebuiInit.TeamOrderCorrect | init/openwebui/init-openwebui.py:428 | teams are printed once each, in ascending order |
| OpenwebuiInit.ConfigureModels | init/openwebui/init-openwebui.py:228-379 | the script fails without writing anything exactly when the config table is missing or the document cannot be updated; otherwise the config is saved as `SavedConfig` and the models are inserted as `InsertAll` describes; whether the config table exists is unchanged |
| ConnectionsSetup.BaseUrls | scripts/configure-openwebui-connections.py:50 | the URL list has one entry per connection, aligned with it |
| ConnectionsSetup.ApiKeys | scripts/configure-openwebui-connections.py:51 | the key list has one entry per connection, aligned with it |
| ConnectionsSetup.BuildModelsData | scripts/configure-openwebui-connections.py:54-62 | the nested loops build `ModelsData`, connection by connection and model by model |
| ConnectionsSetup.ModelsDataEntries | scripts/configure-openwebui-connections.py:54-62 | there is one entry per (connection, model) pair, so the length is the sum of the model-list lengths; each entry's key index is its connection's index, its URL is that connection's, and its name is "<connection> - <model>" |
| ConnectionsSetup.SingleModelEntries | scripts/configure-openwebui-connections.py:54-62 | when each connection offers exactly one model, entry i is connection i's model, named after it and on its URL |
| ConnectionsSetup.KeyedModels | scripts/configure-openwebui-connections.py:159-181 | the key read back at each entry's index from the key list just written is its own connection's key |
| ConnectionsSetup.Configure | scripts/configure-openwebui-connections.py:72-194 | the script generated from a connection table fails without writing anything exactly when the config table is missing or the document cannot be updated; otherwise the config is saved and committed, then the keyed models are inserted; whether the config table exists is unchanged |
| ConnectionsSetup.ConnectionModels | scripts/configure-openwebui-connections.py:16-41 | each of the four connections offers the one model its `api_configs` entry lists |
| ConnectionsSetup.SameAsGatewayModels | scripts/configure-openwebui-connections.py:16-62 | the connection table yields the same URLs, keys and models as the other two scripts write out by hand |
| ModelsDbSetup.Configure | scripts/configure-models-db.py:77-211 | a missing config table stops the script before any write; a document that cannot be updated also writes nothing; otherwise the config is saved and committed, then the missing models are inserted; whether the config table exists is unchanged |
| ModelsDbSetup.DocumentServesModels | scripts/configure-models-db.py:96-152 | in the saved document, connection i's URL, key and `api_configs` entry are those of model i, so each model is served by a connection that offers it |

## Left out

- Network and process I/O are parameters or left out:
  - `fetch_traces`, the Jaeger request and `sys.exit`;
  - every `subprocess`/`docker` call, whose outcome is a parameter;
  - the signup and sign-in HTTP flows, whose response is a parameter;
  - readiness waits and `time.sleep`;
  - the clock, which is the parameter `now`.
- SQLite mechanics and JSON text:
  - connections and cursors are not modelled;
  - the stored document is a JSON value rather than text, so `json.loads` and `json.dumps` are not modelled;
  - a document that does not parse is not modelled;
  - the `model` table is assumed to exist.
- The MCP client (`agents/lib/mcp-client.js`) is a network client and is not part of this model. A session's outcome and `callTool` are parameters.
- The Express server is left out: routes, the health endpoint, `listen`, and logging.
- Printed output is not modelled:
  - status icons, banners, the active-user listing and "next steps" text;
  - `capitalize()` and `upper()` on printed names;
  - the `.1f`/`.2f` float formatting.
- Averages and percentages are exact `real` quotients rather than IEEE doubles.
- ActivityReport.Bar: computes `int(pct / 2)` as the exact floor of `count * 50 / total`. Python's floating-point percentage can land just below a whole number and give a bar one mark shorter.
- Numbers are unbounded integers:
  - durations and JavaScript numbers are not floats;
  - JavaScript `Num` values carry no fractional part.
- TraceActivity.Tag: tag values are modelled as text. Trace JSON can also carry numbers and booleans as tag values, and the script treats those differently: a numeric status 0 is falsy and is not tallied (scripts/analyze-user-activity.py:92), and a numeric `route.name` raises a TypeError at the `"-" in value` test (line 71).
- Text.ParseInt: accepts ASCII digits only. Python's `int()` also accepts every other Unicode decimal digit (Arabic-Indic or full-width digits, say).
- TraceActivity.TallySpan: because of that, a status written in non-ASCII decimal digits is the failure that ends the run, where the program would parse and count it.
- Regular expressions:
  - the chat-log patterns (with `re.IGNORECASE`) and the timestamp pattern are abstract matchers;
  - `\w` and `\d` in the two gateway captures are ASCII classes, where Python's are Unicode-aware;
  - `Text.Lower` lowers ASCII letters only.
- JSON key order is not modelled: objects are maps. `JSON.stringify` is a parameter.
- AgentBase.Agent.constructor: requires the config to be an object and its `skills` to be an array or falsy. The other shapes are never passed by the agents in the repository.
- Property lookup through the JavaScript prototype chain is not modelled. For example, a skill named `toString` would find an inherited handler.
- `scripts/configure-models-db.py` lines 15-33 define `CONFIG_UPDATES` (with a `gemi/v1` URL), which nothing reads. It has no behaviour to model.
- `init/keycloak/init-keycloak.py`, `scripts/configure-openwebui-models.py`, `scripts/inject-user-headers.py`, `agents/calculator-agent.js` and `webui/app.js` are not part of this model. They are REST orchestration, printing, floating point, or UI.

## Findings

| source | as written | input that shows it | evidently intended | confidence | as-written member | corrected member |
|---|---|---|---|---|---|---|
| scripts/track-users-openwebui.py:166 | `main` reads `ag_stats['total_requests']`, but `get_agentgateway_stats` returns `{}` when running the log command raises (lines 60-62) | the `docker-compose logs` command raising, for example when `docker-compose` is not installed | report zero gateway requests (or skip the section) instead of aborting with `KeyError` | not executed | LogMining.GatewaySectionCrashes | LogMining.GatewaySectionFixed |
