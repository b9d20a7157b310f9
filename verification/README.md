# AzureAgent orchestration core, modelled in Dafny

AzureAgent is a set of LLM agents for Azure operations. A triage agent hands
work to specialists: ADF linked services, integration runtimes, pipelines,
Key Vault, an Azure MCP agent and an Azure DevOps agent. They all share one
mutable request context, `AzureCtx`, and one lazily created
`AzureAuthentication` object. This project models the deterministic logic
around the LLM:

- the context and `ensure_auth`, and the rule each agent factory uses to pick
  its context;
- the `set_azure_context` tool, in its shared copy and in the triage agent's
  variant;
- the specialists' tools. Each reads the context, builds its SDK helper, calls
  it, and turns any exception into a `"<what failed>: <str(e)>"` report;
- `get_resource_handler`: key dispatch, `batch.pool` validation, and the
  `lru_cache(maxsize=32)` around it;
- the token cache of `AzureAuthentication`;
- the process-wide OpenAI client of `_build_client`;
- the MCP tool filters and the lifecycle hook counter;
- the history window of the Azure DevOps agent;
- token-usage summing;
- the device-code scan of `az login`;
- the ADF MCP server's linked-service summary.

Each Azure SDK call, credential, MCP server call or clock reading is a
parameter. It holds how that call ends: `Success(value)`, or `Failure(text)`
with the text `str(e)` of the exception. A newly created
`AzureAuthentication` object is likewise a parameter (`newAuth`), and objects
are known by identity (`AuthRef`, serial numbers). A Python optional string is
`Option<string>`, and its truthiness is `Truthy` (neither `None` nor `""`).

Modules, one per source component: `AzureConfig`, `SharedTools`,
`ServiceAccess`, `IntegrationRuntime`, `LinkedServices`, `Pipelines`,
`KeyVault`, `AzureAdapters`, `TokenCache`, `AgentBuilder`, `ToolFilters`,
`McpHooks`, `AdoAgent`, `TokenUsage`, `AzLogin`, `AdfServer`. Two more hold
helpers: `Text` (Python string built-ins) and `Wrappers` (`Option`,
`Result`).

Some files are duplicated in the repository:

- DAPEAgent/shared_tools.py and DAPEAgent/azure/shared_tools.py are identical.
- The two key_vault_agent.py files are identical.
- The two 29-name MCP allow-lists are identical.

Each is modelled once, and the rows below cite one copy.

## Model

| member | source | states |
|---|---|---|
| AzureConfig.With | DAPEAgent/azure/config.py:42-45 | assigning one identifier field changes that field only and keeps the handle |
| AzureConfig.DefaultCtx | DAPEAgent/azure/config.py:39-46 | a context built with no arguments has every identifier and the handle set to `None` |
| AzureConfig.OrEmpty | DAPEAgent/azure/adf/integration_runtime_agent.py:183 | `user_input or ""` is the input when it is truthy, and `""` when it is `None` or empty |
| AzureConfig.EnsureAuth | DAPEAgent/azure/config.py:48-52 | the returned object is the stored one; an existing object is kept and nothing changes; otherwise the new object is stored; no identifier is touched |
| AzureConfig.EnsureAuthIdempotent | DAPEAgent/azure/config.py:48-52 | a second `ensure_auth` returns the first one's object, whatever would have been created, and changes nothing |
| AzureConfig.ResolveAgentContext | DAPEAgent/azure/adf/integration_runtime_agent.py:177-187 | a supplied context is reused unchanged. Without one, a context exists iff some identifier is truthy; it then carries the identifiers, `intent = user_input or ""` and a new handle |
| AzureConfig.ResolveReusesResolved | DAPEAgent/azure/adf/linked_services_agent.py:185-194 | passing a factory's context to another factory gives back that same context, so all specialists share one context |
| SharedTools.Merge | DAPEAgent/azure/shared_tools.py:30-34 | a truthy field stays; a falsy one takes any supplied argument, even `""`; otherwise it is unchanged |
| SharedTools.VisitFieldsContext | DAPEAgent/azure/shared_tools.py:30-52 | the field-by-field pass merges each visited field with its argument and leaves unvisited fields and the handle alone |
| SharedTools.VisitFieldsAvailable | DAPEAgent/azure/shared_tools.py:30-52 | the "already available" entries the pass collects are exactly the truthy fields of the original context, in visiting order |
| SharedTools.VisitFieldsNewlySet | DAPEAgent/azure/shared_tools.py:30-52 | the "newly set" entries the pass collects are exactly the falsy fields that were supplied, in visiting order |
| SharedTools.PassMeaning | DAPEAgent/azure/shared_tools.py:30-52 | over the four fields in report order, the pass yields the field-wise merge and the declarative entry lists, and keeps the handle |
| SharedTools.Section | DAPEAgent/azure/shared_tools.py:72-76 | a report section is at most one line, and present iff it has items |
| SharedTools.SetAzureContext | DAPEAgent/azure/shared_tools.py:11-87 | each identifier ends as the merge of old value and argument; the handle is created only if absent; the message is the status lines joined by newlines |
| SharedTools.TriageSetAzureContext | DAPEAgent/triage_agent.py:27-100 | the same context update as the shared tool, with the handle always present; the message lists the missing fields as evaluated after the update |
| SharedTools.UpdatedContext | DAPEAgent/triage_agent.py:45-71 | the context a call leaves, stated field by field: each identifier merged, and the existing handle or else the new one |
| SharedTools.SetAzureContextOn | DAPEAgent/triage_agent.py:38-45 | with no run context, reading the first identifier raises and nothing is reported; otherwise the tool leaves the updated context |
| SharedTools.VariantsAgreeOnContext | DAPEAgent/triage_agent.py:27-71 | the shared and the triage variants leave the same context for the same call |
| SharedTools.SetAzureContextIdempotent | DAPEAgent/azure/shared_tools.py:30-57 | calling the tool twice with the same arguments leaves the context of the first call |
| SharedTools.RepeatedCallReportsNothingNew | DAPEAgent/azure/shared_tools.py:30-57 | after one call, a repeat has a handle, so no "Newly set" authentication line; with arguments absent or non-empty it reports nothing newly set |
| SharedTools.NoNewEntriesWhenSettled | DAPEAgent/azure/shared_tools.py:30-52 | when every field is truthy or not supplied, nothing is newly set |
| SharedTools.AvailableEntriesNonEmpty | DAPEAgent/azure/shared_tools.py:72-73 | the "Already available" line appears iff some field is truthy |
| SharedTools.NewEntriesNonEmpty | DAPEAgent/azure/shared_tools.py:75-76 | the "Newly set" line appears iff some falsy field was supplied |
| SharedTools.MissingLabelsMeaning | DAPEAgent/triage_agent.py:74-82 | "Still missing" names exactly the falsy fields |
| SharedTools.EntriesSingleLine | DAPEAgent/azure/shared_tools.py:30-52 | entries built from newline-free values contain no newline |
| SharedTools.StatusLinesSingleLine | DAPEAgent/azure/shared_tools.py:27-76 | with newline-free values, no status line of the shared tool contains a newline |
| SharedTools.StatusReportReadsBack | DAPEAgent/azure/shared_tools.py:87 | splitting the message at newlines gives back the status lines, the first being the fixed header |
| SharedTools.StatusReportSections | DAPEAgent/azure/shared_tools.py:55-76 | the shared report has one line for the header, one for a new handle, one if some field was truthy and one if some falsy field was supplied; the handle line, when present, comes right after the header |
| SharedTools.StatusAuthLine | DAPEAgent/azure/shared_tools.py:54-57 | the handle line is in the shared report iff there was no handle |
| SharedTools.StatusAvailableTitle | DAPEAgent/azure/shared_tools.py:29-73 | a line starting "Already available: " is in the shared report iff some field was truthy |
| SharedTools.StatusNewlySetTitle | DAPEAgent/azure/shared_tools.py:29-76 | a line starting "Newly set: " is in the shared report iff some falsy field was supplied |
| SharedTools.SharedReportOmitsMissing | DAPEAgent/azure/shared_tools.py:60-85 | the shared tool computes the missing fields but reports neither a "Still missing" nor an "all available" line |
| SharedTools.TriageLinesSingleLine | DAPEAgent/triage_agent.py:85-98 | with newline-free values, no triage report line contains a newline |
| SharedTools.TriageReportReadsBack | DAPEAgent/triage_agent.py:85-100 | the triage message reads back line by line, has no header, and always ends "Authentication: Initialized" |
| SharedTools.TriageFirstLineNotHeader | DAPEAgent/triage_agent.py:85-96 | the triage report never starts with the shared tool's header |
| SharedTools.TriageMissingLine | DAPEAgent/triage_agent.py:74-96 | the missing-fields line names exactly the fields still falsy after the merge, and gives way to the all-available line when there are none |
| SharedTools.FirstTruthy | DAPEAgent/azure/shared_tools.py:30-34 | the position of the first truthy value, with no truthy value before it; absent when none is truthy |
| SharedTools.FirstTruthyWriteWins | DAPEAgent/azure/shared_tools.py:30-52 | over any series of calls, a truthy field never changes, and a falsy one ends with the first truthy value supplied to it |
| ServiceAccess.Acquire | DAPEAgent/azure/keyvault/key_vault_agent.py:35-42 | with no context the tool fails with the missing-attribute text and builds nothing. Otherwise an existing handle is kept and a missing one becomes the newly created object, even when the constructor raises; a built helper carries the three identifiers and that handle |
| ServiceAccess.ToolsShareCredential | DAPEAgent/azure/adf/linked_services_agent.py:34-41 | once a tool ran on a context, a later tool changes nothing and builds its helper with the same credential |
| ServiceAccess.AndThen | DAPEAgent/azure/adf/pipelines_agent.py:43-55 | an exception while building the helper is the outcome; otherwise the call's outcome is |
| IntegrationRuntime.GetIrDetails | DAPEAgent/azure/adf/integration_runtime_agent.py:22-46 | one `get_ir` call only when the helper was built; its JSON text, or the details prefix and the exception text |
| IntegrationRuntime.GetIrStatus | DAPEAgent/azure/adf/integration_runtime_agent.py:50-75 | one status call only when the helper was built; the enabled/disabled sentence, or the status prefix and the exception text |
| IntegrationRuntime.StatusTextNamesState | DAPEAgent/azure/adf/integration_runtime_agent.py:72-73 | the status sentence ends in "enabled" iff the runtime is enabled and in "disabled" iff it is not |
| IntegrationRuntime.GetIrType | DAPEAgent/azure/adf/integration_runtime_agent.py:79-103 | one type call only when the helper was built; the type sentence, or the type prefix and the exception text |
| IntegrationRuntime.EnableInteractiveAuthoring | DAPEAgent/azure/adf/integration_runtime_agent.py:107-143 | no call at all when the helper cannot be built; otherwise the calls of the guarded sequence, and the text is that sequence's message, or the enable-error report when a step raised |
| IntegrationRuntime.EnableGuardOrder | DAPEAgent/azure/adf/integration_runtime_agent.py:131-141 | an enabled runtime is reported without further calls; a non-Managed type is refused and named; enabling happens iff the runtime is disabled and Managed, exactly once, last, for the requested minutes |
| IntegrationRuntime.EnableErrorsReported | DAPEAgent/azure/adf/integration_runtime_agent.py:122-143 | an exception from the status, type or enable call is reported with the enabling prefix and its own text |
| IntegrationRuntime.EnabledTextKeepsMinutes | DAPEAgent/azure/adf/integration_runtime_agent.py:141 | two different durations never produce the same success report |
| LinkedServices.ListStep | end-to-end/adf_agent.py:42-56 | once the helper exists, exactly one list call, carrying the type filter; then the helper's listing, or the listing prefix and the exception's text; no call when the helper is missing |
| LinkedServices.ListLinkedServices | DAPEAgent/azure/adf/linked_services_agent.py:21-45 | the context gains its handle as `ensure_auth` leaves it; with the helper built, exactly one list call carrying `filter_by_type` (None when omitted), then the listing or the listing prefix and the exception's text; with no helper, no call and the prefix with the construction error |
| LinkedServices.DetailsStep | end-to-end/adf_agent.py:60-74 | once the helper exists, exactly one details call for the named service; then the details, or the details prefix and the exception's text |
| LinkedServices.GetLinkedServiceDetails | DAPEAgent/azure/adf/linked_services_agent.py:49-73 | the context as `ensure_auth` leaves it; with the helper built, exactly one details call for the named service, then the details or the details prefix and the exception's text; otherwise no call |
| LinkedServices.UpdateStep | end-to-end/adf_agent.py:78-109 | once the helper exists, exactly one update call with the name, both FQDNs and `dry_run`; then the dry-run or real-update sentence, or the update prefix and the exception's text |
| LinkedServices.UpdateLinkedService | DAPEAgent/azure/adf/linked_services_agent.py:77-116 | the context as `ensure_auth` leaves it; with the helper built, exactly one update call receiving the name, both FQDNs and `dry_run` (True when omitted), then the dry-run or real-update sentence, or the update prefix and the exception's text; otherwise no call |
| LinkedServices.UpdateReportMatchesRequest | DAPEAgent/azure/adf/linked_services_agent.py:104-114 | after a completed update, the report says "Dry run" exactly when the helper was asked for a dry run, and "Successfully" exactly when it was asked for a real update |
| LinkedServices.UpdateDependsOnlyOnDryRun | DAPEAgent/azure/adf/linked_services_agent.py:111-114 | the update report ignores the helper's return value and tells a dry run from a real update by its first word |
| LinkedServices.FailureReasonCases | DAPEAgent/azure/adf/linked_services_agent.py:146 | a missing `errors` key, or a first error without a message, gives "Unknown error"; otherwise the first error's message; an empty `errors` list raises `IndexError` |
| LinkedServices.TestStep | end-to-end/adf_agent.py:113-132 | once the helper exists, exactly one test call for the named service; a passed test reports success, a failed one the failure reason or the testing prefix when extracting it raises |
| LinkedServices.TestLinkedServiceConnection | DAPEAgent/azure/adf/linked_services_agent.py:120-149 | the context as `ensure_auth` leaves it; with the helper built, exactly one test call for the named service; a passed test reports success; a failed one reports the failure reason, or the testing prefix when extracting the reason raises; a raised call reports the testing prefix |
| LinkedServices.TestReportsDistinct | DAPEAgent/azure/adf/linked_services_agent.py:144-149 | the passed, failed and exception reports are told apart by their leading text |
| LinkedServices.EmptyErrorsRaise | DAPEAgent/azure/adf/linked_services_agent.py:143-147 | a failed test with an empty `errors` list ends in the exception report, and a passed one never looks at `errors` |
| LinkedServices.EndToEndService | end-to-end/adf_agent.py:30-38 | resource group and factory come from the environment, defaulting to "SQL-RG" and "adf-stanley"; there is no subscription and no shared credential |
| LinkedServices.GetAgent | DAPEAgent/adf/linked_services_agent.py:128-145 | a missing `system_prompt` or `model` key raises `KeyError`, checked in that order; otherwise the agent uses both, with the shared client requested for that model |
| LinkedServices.AgentModelOnlyOnFirstBuild | DAPEAgent/adf/linked_services_agent.py:139-145 | the prompt's model reaches the client only if this is the first client built in the process |
| Pipelines.RunAndFetch | DAPEAgent/azure/adf/pipelines_agent.py:26-55 | one `run_and_fetch` call with the pipeline, activity and parameters, only when the helper was built; its results or the operation prefix and the exception text |
| Pipelines.RunReportsOutcome | DAPEAgent/azure/adf/pipelines_agent.py:26-55 | for all inputs: at most one helper call, made iff the helper was built; the text is the helper's results when that call completed, and starts with the operation's error prefix otherwise |
| Pipelines.RunAndFetchDefaults | DAPEAgent/azure/adf/pipelines_agent.py:26-55 | omitted activity and parameters reach the helper as `None`; without a context the tool reports the missing attribute and calls nothing |
| KeyVault.ListSecrets | DAPEAgent/azure/keyvault/key_vault_agent.py:26-46 | one list call only when the helper was built; its listing or the listing prefix and the exception text |
| KeyVault.GetSecret | DAPEAgent/azure/keyvault/key_vault_agent.py:50-74 | one get call for the named secret only when the helper was built; the retrieval sentence (`None` prints as "None"), or a prefix naming the secret |
| KeyVault.RetrievedTextCarriesNameAndValue | DAPEAgent/azure/keyvault/key_vault_agent.py:72 | the retrieval report contains the quoted secret name and ends with the value |
| KeyVault.SetSecret | DAPEAgent/azure/keyvault/key_vault_agent.py:78-104 | the value is handed to the helper unchanged; the report names the secret and the context's vault, or carries a prefix naming the secret |
| KeyVault.SetSecretHidesValue | DAPEAgent/azure/keyvault/key_vault_agent.py:101-104 | the report of storing a secret is the same whatever value was stored |
| KeyVault.ErrorReportsNameSecret | DAPEAgent/azure/keyvault/key_vault_agent.py:73-74 | the get and set failure reports contain the quoted secret name ahead of the exception text |
| AzureAdapters.ParseKeyRoundTrip | DAPEAgent/utils/azure_adapters.py:35-44 | the eight declared keys and the eight helper kinds correspond one to one |
| AzureAdapters.Lookup | DAPEAgent/utils/azure_adapters.py:66 | `ctx.get(name)` finds the first keyword so named, and is absent iff none is |
| AzureAdapters.Dispatch | DAPEAgent/utils/azure_adapters.py:55-78 | an unknown key raises `ValueError` naming the key, and only then; otherwise the helper kind is the key's kind |
| AzureAdapters.DispatchValidation | DAPEAgent/utils/azure_adapters.py:65-68 | `batch.pool` succeeds iff `pool_name` is present and truthy, failing with the fixed text; every other kind succeeds; all but `locks` get the keyword arguments unchanged |
| AzureAdapters.LocksArguments | DAPEAgent/utils/azure_adapters.py:71-76 | `locks` receives only the resource group (default `""`) and the subscription (default `None`) |
| AzureAdapters.EmptyCache | DAPEAgent/utils/azure_adapters.py:47 | the cache starts empty and valid |
| AzureAdapters.CachedGet | DAPEAgent/utils/azure_adapters.py:47-78 | a hit returns the cached helper and makes it most recent. A raising miss caches nothing. A successful miss builds a new helper, evicting the least recent entry when 32 are held. The cache stays valid |
| AzureAdapters.RepeatCallSameInstance | DAPEAgent/utils/azure_adapters.py:47-53 | a successful call repeated at once returns the same helper and leaves the cache as it was |
| AzureAdapters.FailureNotCached | DAPEAgent/utils/azure_adapters.py:66-78 | a failed call leaves the cache unchanged |
| AzureAdapters.OtherCallKeepsEntry | DAPEAgent/utils/azure_adapters.py:47 | a call with another key keeps a young enough entry with the same helper, aged by at most one |
| AzureAdapters.StaysCachedWhileRecent | DAPEAgent/utils/azure_adapters.py:47-53 | identical calls return the very same helper as long as the entry's age (the number of entries used after it) plus the number of calls with other keys since then, repeats included, stays below 32 |
| AzureAdapters.FullCacheEvictsLeastRecent | DAPEAgent/utils/azure_adapters.py:47 | a miss on a full cache evicts exactly the least recently used entry and keeps the others in order |
| AzureAdapters.KeywordOrderMatters | DAPEAgent/utils/azure_adapters.py:47-48 | the same keyword arguments in another order make a separate entry with a second helper |
| AzureAdapters.DistinctKeywordsDistinctHelpers | DAPEAgent/utils/azure_adapters.py:47-48 | for any cache and any two keyword sequences that differ in values or order: after a call returns a helper, a call with the other, uncached sequence caches and returns a new helper, never the one just returned |
| TokenCache.NewCache | azure_tools/auth.py:12-18 | a new object holds no token and no expiry |
| TokenCache.GetToken | azure_tools/auth.py:20-40 | the credential is asked, for the management scope, iff a part of the cache is missing or expired. A fresh token is stored with expiry five minutes early. A credential error propagates and leaves the cache unchanged |
| TokenCache.FetchedTokenReused | azure_tools/auth.py:26-39 | a fetched token is returned without asking again until five minutes before its expiry, and any call from that moment on asks again |
| TokenCache.FirstCallAcquires | azure_tools/auth.py:17-33 | the first call on a new object always asks the credential |
| TokenCache.ValidCacheNeverRefreshes | azure_tools/auth.py:26-30 | calls made while the cached token is valid never ask the credential or change the cache |
| TokenCache.SessionAcquiresOnce | azure_tools/auth.py:20-40 | a session whose calls all come before the first token's early expiry asks the credential exactly once |
| AgentBuilder.BuildClient | DAPEAgent/agent_builder.py:39-57 | an existing client is returned and nothing changes. Otherwise a client is created with the requested deployment or the settings' one, and tracing is enabled; with a trace key it also becomes the default client |
| AgentBuilder.BuildClientAsWritten | DAPEAgent/agent_builder.py:42-50 | against DAPEAgent/config.py's settings, the creating call stores the client and then raises on the undeclared `openai_api_key` |
| AgentBuilder.FirstBuildRaises | DAPEAgent/agent_builder.py:42-57 | as written, the first build in a process raises, the second returns the stored client, and tracing is never set up; the corrected build sets it up on the first call |
| AgentBuilder.BuildAll | DAPEAgent/agent_builder.py:39-57 | a series of calls returns one client per call, every one the same client, and the existing client when there was one |
| AgentBuilder.LaterCallsReuseClient | DAPEAgent/agent_builder.py:42-57 | once a client exists, every later call returns it and changes nothing, whatever deployment it asks for |
| AgentBuilder.SingletonForProcess | DAPEAgent/agent_builder.py:36-57 | every call in a process returns the first call's client, configured with the first call's deployment or else the settings' |
| ToolFilters.AllowListedMeaning | DAPEAgent/mcp/azure_mcp_agent.py:32-65 | the full agent's filter passes a tool iff its name is one of the 29 listed names, and those 29 names are pairwise distinct |
| ToolFilters.FirstMarker | end-to-end/main-example.py:23-28 | a scan of the name finds a position iff `rg_only` passes the tool; the position found starts one of the three markers, and no marker starts earlier |
| ToolFilters.SubstringFiltersExtend | DAPEAgent/azure/mcp/azure_mcp_agent.py:38-40 | any name containing a name that `rg_only` passes is passed too, and so is any name containing "-storage-" for the storage/kusto filter; the tests are by substring, not by list |
| ToolFilters.FiltersIgnoreContext | end-to-end/main-example.py:23-28 | no filter depends on the filter context |
| ToolFilters.SuffixedNameRejected | DAPEAgent/mcp/azure_mcp_agent.py:63 | membership is not by prefix: "azmcp-kusto-query" passes, while "azmcp-kusto-query-v2" (it with a suffix) and "azmcp-group" (a prefix of listed names) are rejected |
| ToolFilters.UnlistedLength | DAPEAgent/mcp/azure_mcp_agent.py:32-62 | a name whose length no listed name has is not listed |
| ToolFilters.ListedPrefixOfListed | DAPEAgent/mcp/azure_mcp_agent.py:41-42 | a listed name that extends another listed name passes in its own right |
| ToolFilters.StorageKustoExamples | DAPEAgent/azure/mcp/azure_mcp_agent.py:33-40 | the storage/kusto filter passes "kusto" only as the whole name, rejects the kusto tools, and passes storage tools by substring |
| ToolFilters.RgOnlyAccepts | end-to-end/main-example.py:23-28 | `rg_only` passes the resource-group listing and monitor tools |
| ToolFilters.RgOnlyRejects | end-to-end/main-example.py:23-28 | `rg_only` rejects a name with none of its three markers |
| McpHooks.NewHooks | end-to-end/hook.py:72-74 | the counter starts at zero |
| McpHooks.Handle | end-to-end/hook.py:75-85 | a hook whose server call returns raises the counter by one; a raising call propagates and leaves the counter alone |
| McpHooks.Completed | end-to-end/hook.py:75-85 | the number of hooks before the first raising server call |
| McpHooks.CounterCountsCompletedHooks | end-to-end/hook.py:75-85 | after a series of hooks, the counter has grown by the number that completed, and the run is error-free iff all completed |
| McpHooks.FullSessionsCountTwice | end-to-end/hook.py:75-85 | n agent runs whose connects and cleanups all succeed leave the counter at 2n |
| AdoAgent.NewAgent | DAPEAgent/azure_devops/ado_agent.py:14-19 | a new agent has no handles and is not initialised |
| AdoAgent.Initialize | DAPEAgent/azure_devops/ado_agent.py:21-60 | nothing happens when already initialised. Otherwise the model and server are stored before the server is entered; a raising enter leaves the flag clear and no new agent; success sets the agent and the flag. Consistency is kept |
| AdoAgent.Cleanup | DAPEAgent/azure_devops/ado_agent.py:62-73 | whatever leaving the server does, the agent returns to its initial state |
| AdoAgent.InitializeIdempotent | DAPEAgent/azure_devops/ado_agent.py:23-24 | initialising a successfully initialised agent again does nothing |
| AdoAgent.Recent | DAPEAgent/azure_devops/ado_agent.py:86 | the window is the last `min(10, n)` exchanges of the history |
| AdoAgent.ModelInput | DAPEAgent/azure_devops/ado_agent.py:84-91 | with no or empty history the input is the question. Otherwise it is the header, then the last ten exchanges written out, then the current question |
| AdoAgent.TranscriptConcat | DAPEAgent/azure_devops/ado_agent.py:86-87 | writing out two runs of exchanges is writing out their concatenation |
| AdoAgent.OlderExchangesForgotten | DAPEAgent/azure_devops/ado_agent.py:86 | exchanges older than the last ten never reach the model |
| AdoAgent.ShortHistoryKept | DAPEAgent/azure_devops/ado_agent.py:86-87 | below ten exchanges, a new exchange is appended to the written history |
| AdoAgent.GetResponse | DAPEAgent/azure_devops/ado_agent.py:75-91 | an uninitialised agent is initialised first and its error propagates; a produced input implies an agent exists; without history the input is the question alone, otherwise the history header, the last ten exchanges and the question; consistency is kept |
| TokenUsage.ExtractTokenUsage | DAPEAgent/utils.py:8-47 | each counter is the sum over the raw responses of its reading; it is all zeros when there are no raw responses or any reading is missing |
| TokenUsage.SumSplit | DAPEAgent/utils.py:28-32 | the sums over a run split in two are the sums of the parts |
| TokenUsage.TotalIsReportedTotal | DAPEAgent/utils.py:29-31 | the total is the sum of the reported totals, not input plus output |
| AzLogin.FirstMatchFrom | async_az_login.py:25-26 | `re.search` finds the leftmost position where the pattern matches, or reports that it matches nowhere |
| AzLogin.SearchUrl | async_az_login.py:25-29 | the URL is found iff the URL pattern matches. It starts at the leftmost match with "https://", has no whitespace after it, and runs to a space or the end of the line |
| AzLogin.SearchCode | async_az_login.py:26-30 | the code is found iff the code pattern matches. It follows "code " at the leftmost match, has at least eight characters of `[A-Z0-9-]`, and runs until the class ends |
| AzLogin.ParseLine | async_az_login.py:20-22 | a line that is blank once stripped yields nothing |
| AzLogin.PrefilterRedundant | async_az_login.py:24-30 | the substring pre-test never decides anything: a line yields a pair iff both patterns match, and then it yields both matches |
| AzLogin.ScanDeviceCode | async_az_login.py:19-32 | the result is the pair of the first line that yields one, or nothing when none does |
| AzLogin.FirstSome | async_az_login.py:19-32 | the first present result in order, and nothing iff every result is absent |
| AdfServer.SummarizeAll | adf_server.py:37-43 | one summary per listed service, in order |
| AdfServer.UnknownMeansMissing | adf_server.py:40-41 | "Unknown" stands in exactly for an absent name or type; present ones are copied |
| AdfServer.ServerService | adf_server.py:28-34 | with no environment overrides, the helper targets "SQL-RG"/"adf-stanley" with no subscription or shared credential |
| Text.SplitJoin | DAPEAgent/azure/shared_tools.py:87 | splitting a newline-joined report whose parts have no newline gives back the parts |
| Text.IndexOf | async_az_login.py:24 | a left-to-right search finds a position iff the substring test `in` holds, and the position found is the first occurrence |
| Text.Strip | async_az_login.py:20 | the line is its leading whitespace, then the result, then trailing whitespace; the result is empty iff the line is all whitespace, and otherwise starts and ends with non-whitespace |
| Text.IntToStringRoundTrip | DAPEAgent/azure/adf/integration_runtime_agent.py:141 | `int(str(n)) == n` for the rendered number of minutes |

## Left out

- Agent construction, the LLM, `Runner.run`, handoffs and `trace`. Also `load_yaml_prompt` and the prompt defaults read with `.get` (DAPEAgent/agent_builder.py:65-71). All of these are outside the deterministic core.
- `get_triage_agent` and `get_azure_mcp_agent` are wiring only. Their context rule is the one `ResolveAgentContext` models; the MCP server construction is not modelled.
- `list_handler_keys` (DAPEAgent/utils/azure_adapters.py:81-84) reads Python annotations at runtime.
- `print` calls, the Streamlit UI, `main` and the interactive loops are left out.
- Concurrency and `async`/`await` ordering are left out. Every coroutine runs to completion in the order the source awaits it.
- JSON rendering (`json.dumps`) is not modelled. The SDK calls hand back text that is already rendered.
- Time is whole seconds. The sub-second part of `datetime` is ignored.
- TokenCache.FetchedTokenReused: holds on one monotone clock. The source compares naive local times (`datetime.now()` against `datetime.fromtimestamp(expires_on)` less five minutes, azure_tools/auth.py:25,37-39), so across a daylight-saving fall-back a token can be reused for up to an hour after its early expiry; local-time conversion is not modelled.
- TokenCache.SessionAcquiresOnce: holds on one monotone clock. With the source's naive local times, calls in the repeated hour of a daylight-saving fall-back can ask the credential again on every call; local-time conversion is not modelled.
- AzureAdapters.StaysCachedWhileRecent: counts every intervening call with another key, repeats included. Under least-recently-used eviction the entry survives as long as at most 31 distinct other keys were used after it; the lemma states only the weaker count.
- `AzureAuthentication()` and `DefaultAzureCredential()` construction is assumed to succeed. The constructed object is the `newAuth` parameter.
- The settings are parameters. `AgentBuilder.Settings` has the fields of DAPEAgent/azure/config.py, including `openai_api_key`. DAPEAgent/config.py lacks that field, and `AgentBuilder.BuildClientAsWritten` shows the effect (see Findings).
- The ADO agent's own client setup from environment variables is left out (DAPEAgent/azure_devops/ado_agent.py:27-41). So are `__aenter__`/`__aexit__` and `create_ado_agent`, which only call `initialize`/`cleanup`.
- A history entry without a `user` or `assistant` key would raise `KeyError` while the input is built; exchanges are modelled as records that always have both.
- In the DAPEAgent/adf/linked_services_agent.py copy of the tools, the helper comes from `get_resource_handler("adf.linked_services", ctx.context)`. That file imports `AzureCtx` from a module that does not define it, and passes the context positionally. The model takes the helper's outcome as the `service` parameter and shares the tools' text with the other copies.
- In adf_server.py a key present with value `None` is modelled as absent. `dict.get` would return `None` there, not "Unknown".
- The shared `set_azure_context` computes `missing` but never reports it; `SharedTools.SharedReportOmitsMissing` states this.
- AdfServer.ServerService: states only the no-override case. The overrides are stated by `LinkedServices.EndToEndService`, which it calls.
- McpHooks.NewHooks: the MCP server object it holds is not modelled; only the counter is.
- The tool filters take a tool's name, not the tool object, because the source reads only `tool.name`.
- LinkedServices.FailureReason: a key present with value `None` is modelled as absent. With `errors` present as `None`, the source's subscript raises and the tool reports "Error testing linked service connection: 'NoneType' object is not subscriptable" (DAPEAgent/azure/adf/linked_services_agent.py:146); with `message` present as `None` the report ends in "None". The model gives "Unknown error" in both cases, because the SDK result is modelled with one level of absence.
- AgentBuilder.BuildClient: the `AsyncAzureOpenAI` constructor (DAPEAgent/agent_builder.py:43-48) is assumed to succeed. If it raised, nothing would be stored and the next call would try again; that path is not modelled.

## Findings

| source | as written | input that shows it | evidently intended | confidence | as-written member | corrected member |
|---|---|---|---|---|---|---|
| DAPEAgent/agent_builder.py:50 | `_build_client` reads `settings.openai_api_key`, but the `Settings` it imports from DAPEAgent/config.py declares no such field. Only `openai_trace_export_key` exists, at line 20. | The first `_build_client()` of a process. The client is stored at line 43, and line 50 then raises `AttributeError`. That first agent factory fails; later calls silently return the stored client, and tracing is never configured. | The settings declare `openai_api_key`, as DAPEAgent/azure/config.py:23 does. The first call then returns the client and configures tracing. | medium, not executed | AgentBuilder.BuildClientAsWritten (shown by AgentBuilder.FirstBuildRaises) | AgentBuilder.BuildClient (AgentBuilder.SingletonForProcess) |
