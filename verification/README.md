# Security-agent workflows in Dafny

This project models the deterministic core of a security-operations agent. The agent is built as
LangGraph workflows over Splunk, Cisco Secure Endpoint, Splunk SOAR and a Cisco SCC firewall tool
server. The model has these parts:

- **Engine** (`engine.dfy`). Workflow graphs as immutable data: nodes, static edges, conditional edges
  with label maps, an entry node and END. A fuel-bounded sequential executor runs one node at a
  time. It merges the node's partial update into the state, then follows the static edge or looks
  the router's label up in the label map. LangGraph itself is not part of the repository. The
  executor is the small one the two workflows rely on.
- **Messages** (`messages.dfy`). Chat messages and the `add_messages` reducer, which appends.
- **Incident** (`incident.dfy`). The interactive incident-response graph. It has six nodes, two
  routers, the table-driven node updates, and the parsing of the model's `SEVERITY:`,
  `INVESTIGATE:` and `THREAT_LEVEL:` lines. The two language-model calls are parameters, and either
  may fail. Every other field uses last-write-wins, so "the field after a run" is proved per route.
- **Pipeline** (`pipeline.dfy`). The linear four-node response pipeline. Its four tools are
  parameters.
- **SecureEndpoint** (`endpoint.dfy`). The emulated endpoint-isolation service: a map from connector
  id to device record, moving `not_isolated → pending_start → isolated`.
- **SccUtils** and **SccFactory** (`scc_utils.dfy`, `scc_factory.dfy`). The firewall tool server's
  helpers and tool factory:
  - tool-name sanitising and description generation, including its error path;
  - tool records from URL entries;
  - the request a generated tool sends;
  - the three cache-management tools.
- **Text** and **Wrappers** (`text.dfy`, `wrappers.dfy`). Python's `in`, `split`, `join`, `strip`,
  `lower` and `dict.get` defaults, stated over `seq<char>`, plus `Option`/`Result`.

Several behaviours are modelled exactly as the code has them:

- A generated tool's description never receives the entry's filterable fields
  (`tools/factory.py:213`). Every generated description therefore ends " Does not support
  filtering.", even for a tool marked as filterable.
- `generate_tool_docstring` raises for any method other than GET and POST, because `description` is
  then never bound. A URL entry with such a method, or with no method at all, makes
  `create_tool_from_url_entry` raise, and with it the whole `create_tools_from_url_entries` run.
- `splunk_mcp_node` and `cisco_secure_endpoint_node` both read the last message, so both raise on an
  empty message list. The endpoint node then ignores what it read.

## Model

| member | source | states |
|---|---|---|
| Messages.AddMessages | app/state.py:14 | The merged list has the prior length plus the update length, the existing messages as a prefix, and the update's messages after them in their order |
| Messages.AddNothing | app/state.py:5-6 | An empty update leaves the message list unchanged |
| Messages.AddMessagesAssociative | app/state.py:5-6 | Two successive merges equal one merge of the concatenated updates |
| Messages.Contents | app/agent.py:61 | The contents list has one entry per message, in order, each that message's content |
| Pipeline.Merge | app/state.py:7-14 | The pipeline's merge appends the update to the message list: the old messages are a prefix and the update follows them |
| Incident.Merge | langgraph_studio_demo.py:27-35 | The workflow's merge appends the update's messages, and every other field takes the update's value when the update carries one and keeps the old value otherwise |
| Engine.Next | langgraph_studio_demo.py:72-94 | A static edge gives its destination; a conditional edge looks the router's label up in its map; a missing edge or an unmapped label is an error naming the node and label |
| Engine.Run | app/agent.py:65-84 | A run takes at most the fuel in steps; its first step is the start node; every visited node is declared; a finished run took at least one step |
| Engine.RunStateIsReplay | app/state.py:5-14 | A run's state is its start state with the updates of its trace merged in, one per step, in order: nothing else changes the state |
| Engine.RunFollowsEdges | langgraph_studio_demo.py:72-94 | Each step of a run is followed by the step at the destination that the edge table gives for its node, read on the state merged up to and including that node's update |
| Engine.RunStepsAreBodies | app/agent.py:78-81 | Each step of a run records its node's body applied to the state merged from the steps before it, and that node is declared |
| Engine.FinishedRunsEndAtEnd | langgraph_studio_demo.py:94 | A finished run stopped because the edge out of its last node, read on the final state, leads to END |
| Engine.Invoke | langgraph_studio_demo.py:347 | A run of the compiled graph starts at the entry node, takes at most the fuel in steps, and took at least one step if it finished; a graph whose entry is not a node aborts with the initial state untouched |
| Engine.RunStep | app/agent.py:78-81 | A node that returns an update, followed by a resolved edge, gives one step and then the run from the destination, or the finished run at END |
| Engine.ClosedRunsAreWellRouted | langgraph_studio_demo.py:72-94 | On a closed graph a run stops short of END only when a node raises or the fuel runs out: never for an unknown node, a missing edge or an unmapped label |
| Engine.RankedRunsTerminate | langgraph_studio_demo.py:69-94 | On a closed graph whose rank falls along every edge, fuel above the start's rank is never exhausted and the run visits at most rank + 1 nodes |
| Engine.FuelMonotone | app/agent.py:84 | Extra fuel does not change a run that did not run out of fuel |
| Text.SplitOn | langgraph_studio_demo.py:130 | Splitting gives at least one part |
| Text.SplitJoin | langgraph_studio_demo.py:130 | Joining the parts of a split with the separator gives back the text |
| Text.JoinSplit | app/agent.py:61 | Splitting a newline-join of parts without newlines gives back the parts |
| Text.SplitLastIsTextAfterLastMarker | langgraph_studio_demo.py:131 | The last part of `split(marker)` holds no marker; it is the whole text when there is no marker, and otherwise the text after the last marker |
| Text.Strip | langgraph_studio_demo.py:131 | The stripped text is a slice of the input that neither starts nor ends with whitespace, with only whitespace removed around it |
| Text.FirstLineWith | langgraph_studio_demo.py:129-130 | A line is found exactly when the text contains the marker |
| Text.FirstLineWithIsFirstHit | langgraph_studio_demo.py:129-130 | The line found is the first line of the text that contains the marker |
| Text.ToLower | app/tools/scc_fw_mcp_server/core/utils.py:28 | An ASCII capital becomes its lower-case letter; any other character is unchanged |
| Incident.ClassificationParsing | langgraph_studio_demo.py:126-135 | Severity defaults to "Medium" and the flag to true; otherwise severity is the stripped text after the last "SEVERITY:" on the first line with one, and the flag is true exactly when the first "INVESTIGATE:" line contains "Yes" |
| Incident.MarkedValueSpec | langgraph_studio_demo.py:129-131 | A marked value is the default when no line holds the marker, and otherwise the stripped text after the last marker on the first line holding one |
| Incident.ThreatLevelParsing | langgraph_studio_demo.py:200-204 | The level defaults to "Medium"; otherwise it is the stripped text after the last "THREAT_LEVEL:" on the first line with one |
| Incident.Body | langgraph_studio_demo.py:137-283 | Every node update carries exactly one message |
| Incident.ShouldInvestigate | langgraph_studio_demo.py:286-297 | The router answers only "investigate" or "escalate" |
| Incident.ShouldInvestigateRule | langgraph_studio_demo.py:286-297 | A "Critical" severity escalates; otherwise the router investigates exactly when the flag is present and true, so a missing flag escalates |
| Incident.DetermineResponseLevel | langgraph_studio_demo.py:299-307 | The router answers only "automated" or "manual" |
| Incident.DetermineResponseLevelRule | langgraph_studio_demo.py:299-307 | The response is automated exactly when the threat level is "Low", "Medium" or missing |
| Incident.WorkflowGraphIsClosed | langgraph_studio_demo.py:61-94 | The entry is a node, every node has one edge, every edge leads to a node or END, and every label either router returns is a key of its map |
| Incident.WorkflowGraphIsAcyclic | langgraph_studio_demo.py:72-94 | A rank strictly decreases along every edge, so the graph has no cycle |
| Incident.Successor | langgraph_studio_demo.py:72-94 | Every successor has a lower rank, and only `create_report` leads to END |
| Incident.Steps | langgraph_studio_demo.py:69-94 | A route from a node takes at least one and at most rank + 1 steps, the first being that node's own update |
| Incident.GraphEdgesAgreeWithSuccessor | langgraph_studio_demo.py:72-94 | The graph's edge table routes every node on every state as the routers decide |
| Incident.WorkflowGraphImplements | langgraph_studio_demo.py:55-96 | The wired graph declares every node, runs each node's update function, and routes as the routers decide |
| Incident.RunFollowsRoute | langgraph_studio_demo.py:69-94 | The executor on such a graph, given fuel above the start's rank, finishes along the routers' route in the state that route produces |
| Incident.ThreeRoutes | langgraph_studio_demo.py:72-94 | From classification the route is classify→escalate→report, classify→investigate→assess→execute→report, or classify→investigate→assess→escalate→report, as the routers decide, each ending in the state its updates produce in order |
| Incident.EscalatedRoute | langgraph_studio_demo.py:72-94 | When classification says "escalate" the route is classify, escalate, report, ending in the state those updates produce |
| Incident.InvestigatedRoutes | langgraph_studio_demo.py:72-94 | When classification does not escalate, an "automated" assessment routes through execution and a "manual" one through an analyst, each ending in the state its updates produce |
| Incident.ReplayAppendsMessages | app/state.py:14 | Folding a trace keeps the existing messages and appends each step's messages in step order |
| Incident.OneMessagePerStep | langgraph_studio_demo.py:137-283 | When every update carries one message, the trace carries one message per step, the i-th being step i's |
| Incident.StepsCarryOneMessage | langgraph_studio_demo.py:137-283 | Every step of a route carries exactly one message |
| Incident.IncidentRunFollowsRoute | langgraph_studio_demo.py:55-96 | With five or more steps of fuel, a run from `classify_incident` is exactly the routers' route and its end state |
| Incident.ClassificationStep | langgraph_studio_demo.py:126-149 | Classification records the parsed severity and flag, or "Unknown" and no investigation when the model call fails, leaves the threat level and investigation results as they were, and escalates exactly Critical or unflagged incidents |
| Incident.AssessmentSteps | langgraph_studio_demo.py:151-216 | Investigation then assessment records the threat level parsed from the assessor's reply to the severity and its canned investigation result ("Unknown" on failure), keeping the severity |
| Incident.IncidentRunsTerminate | langgraph_studio_demo.py:69-94 | Every run finishes along one of the three routes, at most five nodes with `create_report` last and once; the final messages are the initial ones followed by one message per step, in order |
| Incident.RouteIsDecidedByVerdicts | langgraph_studio_demo.py:286-307 | The run escalates at once exactly for Critical or unflagged verdicts (so a failed classification always escalates); otherwise it automates exactly for a Low or Medium threat |
| Incident.ReportStep | langgraph_studio_demo.py:255-283 | The report appends a summary of the state and sets `case_status` to "report_generated", changing no other field |
| Incident.EscalationStep | langgraph_studio_demo.py:245-253 | Escalation sets `actions_taken` to ["escalate_to_analyst"] and the escalated status, changing no classification or assessment field |
| Incident.ResponseStep | langgraph_studio_demo.py:218-243 | The automated response records the playbook for the threat level (missing reads "Medium") and its status, changing no classification or assessment field |
| Incident.EscalatedEndRecords | langgraph_studio_demo.py:245-283 | A run escalated at once ends "report_generated" with the classified severity, the single escalation action, and the threat level and investigation results it started with |
| Incident.AutomatedEndRecords | langgraph_studio_demo.py:218-283 | An automated run ends "report_generated" with the classified severity, the assessed threat level and that level's playbook |
| Incident.ManualEndRecords | langgraph_studio_demo.py:245-283 | A run handed to an analyst after assessment ends "report_generated" with the classified severity and the single escalation action |
| Incident.RouteEndRecords | langgraph_studio_demo.py:218-283 | The end state of the routers' route has the final case status, the severity, and the actions that route's last writer recorded |
| Incident.IncidentRunOutcome | langgraph_studio_demo.py:218-307 | Every run ends with `case_status` "report_generated" and the classified severity; an automated run records the playbook for the assessed threat; any other run records ["escalate_to_analyst"]; an immediate escalation leaves threat level and investigation results as they were |
| Pipeline.SplunkMcpNode | app/agent.py:26-33 | The node raises exactly on an empty message list; otherwise it appends one "splunk_mcp_search" tool message holding the search of the last message's content |
| Pipeline.CiscoSecureEndpointNode | app/agent.py:35-44 | The node raises exactly on an empty message list; otherwise it appends one "cisco_isolate_endpoint" tool message holding the isolation of "1.2.3.4", whatever the state |
| Pipeline.SplunkSoarNode | app/agent.py:46-53 | The node raises exactly on an empty message list; otherwise it appends one "splunk_soar_create_case" tool message holding the case created from the last message's content |
| Pipeline.DatabaseNode | app/agent.py:55-63 | The node never raises, even on an empty list, and appends exactly one tool message named "save_context_to_db"; its content is the save of a text that splits back into every message's content, in order, when there are messages and none holds a newline |
| Pipeline.AgentGraphIsClosedAndAcyclic | app/agent.py:66-84 | The pipeline's graph is closed and has no cycle |
| Pipeline.PipelineRun | app/agent.py:26-84 | From a non-empty list, a run visits `splunk_mcp`, `cisco_secure_endpoint`, `splunk_soar`, `database` in order and finishes with the input followed by the four tool messages; the SOAR case is built from the isolation result, and the saved history is the input plus the first three tool messages |
| Pipeline.EmptyInputRaises | app/agent.py:31 | From an empty list the first node raises and the run stops with nothing appended |
| Pipeline.HistoryRoundTrip | app/agent.py:61 | When no content holds a newline, splitting the saved history into lines gives back every message's content in order |
| SecureEndpoint.StatusText | app/tools/cisco_secure_endpoint.py:14 | Each isolation state has its own status string, and each of the three strings names exactly one state |
| SecureEndpoint.Lookup | app/tools/cisco_secure_endpoint.py:35-38 | An unseen id reads as a new record with status "not_isolated", no isolation flag and no unlock code |
| SecureEndpoint.Queried | app/tools/cisco_secure_endpoint.py:40-41 | A status query completes a pending isolation and leaves any other record as it is |
| SecureEndpoint.GetIsolationStatus | app/tools/cisco_secure_endpoint.py:28-65 | The query registers an unseen id and changes only that id's record; a pending record becomes isolated and gets the full response with "unlockme"; otherwise the short response carries the record's status and unlock code |
| SecureEndpoint.Isolating | app/tools/cisco_secure_endpoint.py:74-76 | An isolation request marks the record isolated and pending with "unlockme", keeping its address |
| SecureEndpoint.IsolateEndpoint | app/tools/cisco_secure_endpoint.py:68-91 | The request registers an unseen id and changes only that id's record, whatever its state; the response reports "pending_start", "unlockme" and a comment naming the record's address |
| SecureEndpoint.CallsPreserveValid | app/tools/cisco_secure_endpoint.py:10-14 | Both calls keep every record keyed by its own address, with the flag, code and status agreeing |
| SecureEndpoint.ResponsesReflectRecords | app/tools/cisco_secure_endpoint.py:58-89 | On valid records a query reports a status other than "not_isolated" exactly when the record is isolated, and the isolation comment names the id |
| SecureEndpoint.QuerySettles | app/tools/cisco_secure_endpoint.py:58-65 | A second query changes no record, and repeats the first answer when nothing was pending |
| SecureEndpoint.IsolateThenQuery | app/tools/cisco_secure_endpoint.py:40-56 | Isolation followed by a query always ends isolated, and the query answers "isolated" with "unlockme" |
| SecureEndpoint.QueryIsolateQuery | app/tools/cisco_secure_endpoint.py:98-103 | On a fresh service, query, isolate, query reports "not_isolated", "pending_start", "isolated", leaving one isolated record |
| SccUtils.ProcessFilterExpression | app/tools/scc_fw_mcp_server/core/utils.py:6-16 | The result has the single key "filter", mapped to the unchanged expression |
| SccUtils.SanitizeToolName | app/tools/scc_fw_mcp_server/core/utils.py:28 | The tool name has the length of the name: nothing is dropped or inserted |
| SccUtils.SanitizeEachCharacter | app/tools/scc_fw_mcp_server/core/utils.py:28 | The tool name has no space and no capital; each space becomes "_", each capital its lower-case letter, and every other character stays in place |
| SccUtils.SanitizeIsIdempotent | app/tools/scc_fw_mcp_server/core/utils.py:28 | Sanitizing a sanitized name changes nothing |
| SccUtils.SanitizeKeepsEmptiness | app/tools/scc_fw_mcp_server/core/utils.py:28 | A name sanitizes to "" exactly when it is "" |
| SccUtils.GenerateToolDocstring | app/tools/scc_fw_mcp_server/core/utils.py:30-54 | The description fails, with the unbound-variable error, exactly for a method other than GET and POST |
| SccUtils.DocstringOpening | app/tools/scc_fw_mcp_server/core/utils.py:43-47 | A GET description starts "Fetch data for {name} from Cisco SCC Firewall" and a POST one "Send config changes to {name} on Cisco SCC Firewall" |
| SccUtils.DocstringNamesEndpoint | app/tools/scc_fw_mcp_server/core/utils.py:43-47 | Every description contains "(Endpoint: {path})." |
| SccUtils.DocstringWithoutFields | app/tools/scc_fw_mcp_server/core/utils.py:49-52 | Without filterable fields the description ends " Does not support filtering." |
| SccUtils.DocstringListsFields | app/tools/scc_fw_mcp_server/core/utils.py:49-50 | With filterable fields the description contains every one of them |
| SccUtils.DocstringEndsWithFieldList | app/tools/scc_fw_mcp_server/core/utils.py:49-50 | With filterable fields the description ends with " Supports filtering on fields: ", the fields joined by ", " in order, and a full stop |
| SccFactory.CreateToolFromUrlEntry | app/tools/scc_fw_mcp_server/tools/factory.py:194-213 | No tool exactly when the sanitized name or the URL is empty or missing; an error, the unbound-variable one, exactly for any other entry whose method is not GET or POST |
| SccFactory.CreatedToolRecord | app/tools/scc_fw_mcp_server/tools/factory.py:194-220 | A created record has the sanitized (non-empty) name, is filterable exactly when fields are given, echoes the fields, has the description generated without fields, and calls the entry's URL with the list-devices input only for GET |
| SccFactory.DescriptionIgnoresFilterableFields | app/tools/scc_fw_mcp_server/tools/factory.py:213 | A tool marked filterable still has a description ending " Does not support filtering." |
| SccFactory.ToolOf | app/tools/scc_fw_mcp_server/tools/factory.py:235-236 | An entry contributes at most one tool, and exactly its created tool when it has one |
| SccFactory.CollectedUpTo | app/tools/scc_fw_mcp_server/tools/factory.py:233-237 | The tools from the first n entries are no more than n |
| SccFactory.CollectedComeFromEntries | app/tools/scc_fw_mcp_server/tools/factory.py:233-237 | Every tool collected from the first n entries is the created tool of one of them, for any way of creating an entry's tool |
| SccFactory.EntriesAreCollected | app/tools/scc_fw_mcp_server/tools/factory.py:233-237 | The created tool of any of the first n entries is among the tools collected from them |
| SccFactory.CreatedTools | app/tools/scc_fw_mcp_server/tools/factory.py:232-237 | The collected tools are no more than the entries |
| SccFactory.CreatedToolsComeFromEntries | app/tools/scc_fw_mcp_server/tools/factory.py:232-237 | Every collected tool is the tool of some entry |
| SccFactory.EveryToolIsCollected | app/tools/scc_fw_mcp_server/tools/factory.py:232-237 | Every entry's tool is among the collected tools |
| SccFactory.CollectTools | app/tools/scc_fw_mcp_server/tools/factory.py:233-237 | For any way of creating an entry's tool, the loop fails exactly when some entry's creation fails, with the error of the first entry that fails, and otherwise returns the tools in entry order, skipping entries that yield none |
| SccFactory.CreateToolsFromUrlEntries | app/tools/scc_fw_mcp_server/tools/factory.py:222-237 | The run fails exactly when some entry's creation fails; otherwise it returns the non-skipped entries' tools in entry order |
| SccFactory.RequestParams | app/tools/scc_fw_mcp_server/tools/factory.py:64-82 | The parameters hold "filter" from a given expression and every query parameter except "use_cache"; query parameters win over the expression |
| SccFactory.UseCache | app/tools/scc_fw_mcp_server/tools/factory.py:78-79 | A value is extracted exactly when the query parameters hold "use_cache" |
| SccFactory.ToolRequest | app/tools/scc_fw_mcp_server/tools/factory.py:86-96 | GET sends the assembled parameters to the path; POST sends every argument but the query parameters; any other method sends nothing |
| SccFactory.InvokeTool | app/tools/scc_fw_mcp_server/tools/factory.py:63-96 | A registered API tool sends a request exactly when its method is GET or POST, always to its own path; a GET never forwards "use_cache" and a POST sends the call's fields |
| SccFactory.UseCacheIsDropped | app/tools/scc_fw_mcp_server/tools/factory.py:73-96 | Calls that differ only in "use_cache" send the same request; POST calls that differ only in query parameters send the same request |
| SccFactory.QueryFilterOverridesExpression | app/tools/scc_fw_mcp_server/tools/factory.py:69-82 | A "filter" query parameter overrides the filter expression |
| SccFactory.CreatedToolsAlwaysSend | app/tools/scc_fw_mcp_server/tools/factory.py:206-213 | Every created tool sends a request to its entry's URL on every call |
| SccFactory.NewClientSettings | app/tools/scc_fw_mcp_server/api/client.py:21-26 | A new client as written has caching off and no time-to-live attribute at all |
| SccFactory.NewClientSettingsCorrected | app/tools/scc_fw_mcp_server/api/client.py:19-26 | A corrected new client has caching off and the class default time-to-live |
| SccFactory.CacheConfig | app/tools/scc_fw_mcp_server/tools/factory.py:167-179 | Each setting changes only when a value is given, and the settings are stored even on failure; the reply fails exactly when no time-to-live was ever set, and otherwise reports the resulting settings |
| SccFactory.CacheConfigFailsOnNewClient | app/tools/scc_fw_mcp_server/tools/factory.py:171-177 | On a new client as written, configuring without a time-to-live fails with the missing-attribute error |
| SccFactory.CorrectedClientAlwaysAnswers | app/tools/scc_fw_mcp_server/tools/factory.py:167-179 | From a client with a time-to-live, every configuration call answers, and the time-to-live stays the initial one unless a call gives a new one |
| SccFactory.ConfigureWithoutTtlKeepsTtl | app/tools/scc_fw_mcp_server/tools/factory.py:168-172 | Configuration calls that give no time-to-live leave it as it was, assigned or not |
| SccFactory.ConfigureKeepsLastTtl | app/tools/scc_fw_mcp_server/tools/factory.py:171-172 | After a sequence of configuration calls the time-to-live is the one given by the last call that gave one |
| SccFactory.CacheClearMessage | app/tools/scc_fw_mcp_server/tools/factory.py:123 | The message as written starts "Cache" and ends " cleared successfully"; without a namespace it is exactly "Cache cleared successfully", and with one it contains "for namespace: " and the namespace |
| SccFactory.CacheClearMessageCorrected | app/tools/scc_fw_mcp_server/tools/factory.py:123 | Without a namespace the corrected message equals the message as written |
| SccFactory.ClearMessageRunsWordsTogether | app/tools/scc_fw_mcp_server/tools/factory.py:123 | With a namespace the message as written starts "Cachefor namespace: …", with no space after "Cache" |
| SccFactory.CorrectedClearMessageSeparatesWords | app/tools/scc_fw_mcp_server/tools/factory.py:123 | The corrected message starts "Cache ", ends " cleared successfully", and names a given namespace as " for namespace: {ns} " |
| SccFactory.CacheClear | app/tools/scc_fw_mcp_server/tools/factory.py:107-124 | The tool as written fails exactly when the client's clear call fails, with that error; otherwise it replies "success" with a message that starts "Cache", ends " cleared successfully", is exactly "Cache cleared successfully" without a namespace and names the namespace after "for namespace: " with one |
| SccFactory.CacheClearCorrected | app/tools/scc_fw_mcp_server/tools/factory.py:107-124 | The corrected tool fails exactly as the tool as written does; its success message starts "Cache ", ends " cleared successfully" and names a given namespace as " for namespace: {ns} " |
| SccFactory.CacheClearToolsAgreeWithoutNamespace | app/tools/scc_fw_mcp_server/tools/factory.py:121-124 | The two tools fail on the same calls and give the same reply without a namespace; with a namespace and a successful clear their replies differ |
| SccFactory.CacheClearOn | app/tools/scc_fw_mcp_server/tools/factory.py:120-124 | On a client without `clear_cache` the tool always fails with the attribute error; on one with it, the tool fails exactly when the clear fails and otherwise replies "success" with the clear message |
| SccFactory.CacheInfoOn | app/tools/scc_fw_mcp_server/tools/factory.py:144 | On a client without `get_cache_info` the tool always fails with the attribute error; on one with it, the tool answers exactly what the client answers |
| SccFactory.ShippedCacheClearAlwaysRaises | app/tools/scc_fw_mcp_server/tools/factory.py:120 | With the client of `api/client.py` every cache-clear call fails with the missing `clear_cache` attribute, whatever the namespace, so no success reply is ever sent |
| SccFactory.ShippedCacheInfoAlwaysRaises | app/tools/scc_fw_mcp_server/tools/factory.py:144 | With the client of `api/client.py` every cache-info call fails with the missing `get_cache_info` attribute |
| SccFactory.CorrectedClientClears | app/tools/scc_fw_mcp_server/tools/factory.py:120-124 | With a client that defines `clear_cache`, a successful clear replies "success" with the clear message, which runs "Cachefor namespace: " together when a namespace is given |
| SccFactory.CorrectedClientReportsCacheInfo | app/tools/scc_fw_mcp_server/tools/factory.py:144 | With a client that defines `get_cache_info`, the tool answers exactly what the client answers, failures included |
| SccFactory.CacheManagementTools | app/tools/scc_fw_mcp_server/tools/factory.py:239-281 | Exactly three tools, "cache_clear", "cache_info", "cache_config" in that order, none filterable and all without fields |

## Left out

- The language-model calls (`ChatAnthropic`, `ChatGoogleGenerativeAI`) are parameters: a classifier from incident text to a reply and an assessor from severity and investigation result to a reply. Either may fail. The prompt texts are not modelled.
- LangGraph's `compile`, `invoke` and `stream` are replaced by the executor in `engine.dfy`. Its fuel is a verification device: the recursion limit, streaming and checkpointing are not modelled.
- Replace-by-id message merging, wrapping of node failures, and cancellation are not modelled, because the repository's code has none of them. The merge is a plain append.
- Logging, `print`, environment variables (`dotenv`), `asyncio`, HTTP (`httpx`, `requests`) and splunklib are not modelled. They carry no decision logic.
- Incident.ReportSummary: the report's layout (leading newline, indentation, emoji, blank lines) is simplified to one line per field. The field values and their defaults are kept. The unused `total_messages` entry is left out.
- Incident.ExecuteResponseUpdate: the per-action result list built inside the node is not modelled, because it is never returned.
- Text.ToLower: lower-casing is ASCII-only. Python's `str.lower` also maps non-ASCII capitals, which the model leaves unchanged.
- SccUtils.SanitizeToolName: lower-casing is ASCII-only. Python's `str.lower` also maps non-ASCII capitals (and can change the length for a few), so the length fact and the facts of SccUtils.SanitizeEachCharacter hold for ASCII names.
- SccUtils.SanitizeEachCharacter: the per-character facts describe ASCII lower-casing only, for the same reason.
- SccFactory.CreateToolFromUrlEntry: a key that is present with value `null` is treated as missing. Python's `entry.get` would return `None` rather than the default there.
- The POST payload model's fields are abstract, because `core/models.py` is not part of this model.
- The client's `clear_cache` and `get_cache_info` are not defined in `api/client.py`, so as written every call of the `cache_clear` and `cache_info` tools raises AttributeError (see "## Findings"). For a client that does define them, what they do is not modelled: the clear call's failure and the info answer are parameters of `CacheClearOn` and `CacheInfoOn`.
- The `splunk_mcp.py` class is commented out, so the `SplunkMCP` import in `app/agent.py` fails. The pipeline's four tools are parameters. The endpoint service's records are not threaded through the pipeline.
- `main.py`, `test_security_response.py`, the settings module and the demos' `main()` functions are not modelled. They handle I/O only.

## Findings

| source | as written | input that shows it | evidently intended | confidence | as-written member | corrected member |
|---|---|---|---|---|---|---|
| app/tools/scc_fw_mcp_server/tools/factory.py:171-177 | `cache_config` reads `api_client.cache_ttl`, but the client's constructor (`api/client.py:21-26`) never assigns it; only a call with a `ttl` does | a fresh client and `cache_config` with `ttl` omitted: reading the attribute raises | the client starts from its class default `DEFAULT_CACHE_TTL` of 300 seconds, and the call reports it | high (not executed) | SccFactory.CacheConfigFailsOnNewClient | SccFactory.CorrectedClientAlwaysAnswers |
| app/tools/scc_fw_mcp_server/tools/factory.py:120 | `cache_clear` calls `api_client.clear_cache`, which the client class in `api/client.py` does not define | any call, for example with namespace "devices": the attribute lookup raises AttributeError before anything is cleared | the client defines `clear_cache` (its `aiocache` import suggests a cache was planned), and a successful clear replies "success" | high (not executed) | SccFactory.ShippedCacheClearAlwaysRaises | SccFactory.CorrectedClientClears |
| app/tools/scc_fw_mcp_server/tools/factory.py:144 | `cache_info` calls `api_client.get_cache_info`, which the client class in `api/client.py` does not define | any call: the attribute lookup raises AttributeError | the client defines `get_cache_info`, and the tool passes its answer on | high (not executed) | SccFactory.ShippedCacheInfoAlwaysRaises | SccFactory.CorrectedClientReportsCacheInfo |
| app/tools/scc_fw_mcp_server/tools/factory.py:123 | the namespace phrase is glued to "Cache" without a space | with a client that defines `clear_cache` (the shipped one does not; see the factory.py:120 row), namespace "devices" gives "Cachefor namespace: devices cleared successfully" | "Cache for namespace: devices cleared successfully" | high (not executed) | SccFactory.ClearMessageRunsWordsTogether | SccFactory.CorrectedClearMessageSeparatesWords |
