# melonops-api decision core, in Dafny

A model of the logic that surrounds the LLM calls in the melonops-api chat
service. The model covers:

- the process-wide memo cache behind `cached_function` and
  `async_cached_function`;
- the plan tiers and entitlement checks;
- model dispatch and session verification;
- MCP connector credential resolution;
- the two-node chat graph (verification, router, chat);
- the encoder from the graph's message stream to AI SDK data-stream frames;
- the per-model token aggregation over observability traces.

Every database query, SDK call, network call and clock reading is a
parameter. A query becomes the list of rows it would read. A call becomes a
function-typed oracle that returns `Result`. A clock reading becomes an
`int`. A raised exception is `Err(message)`, where `message` is the text
Python's `str(e)` would give.

| file | module | models |
|---|---|---|
| results.dfy | Results | `Option`, `Result` (with `:-`), pass/fail `Outcome`, Python truthiness of optional strings |
| text.dfy | Text | string order (for `sorted`), `str.split`, `str.isdigit` |
| constants.dfy | Constants | `src/app/lib/constants.py` |
| caching.dfy | Caching | `src/app/lib/caching_utils.py` |
| entitlement.dfy | Entitlement | `src/app/lib/usage_utils.py` |
| actions.dfy | Actions | `src/app/lib/actions.py`, with `verify_token` behind the cache |
| mcp_tools.dfy | McpTools | `src/app/lib/ai/tools/mcp_tools.py` |
| chat_workflow.dfy | ChatWorkflow | `src/app/lib/ai/workflows/chat_workflow.py` |
| streaming.dfy | Streaming | `src/app/api/streaming_handler.py` |
| usage_traces.dfy | UsageTraces | `src/app/lib/utils.py` |

The cache is a `map<string, Entry<R>>`, generic over the result type.

A key is the function name, a colon, and a digest of the JSON document
`[args, sorted(kwargs.items())]`. The digest (json.dumps followed by
SHA-256, as in FIPS 180-4) is a function parameter. Two properties are
assumed of it only where a lemma says so:

- it yields hexadecimal text;
- it is collision-free.

## Model

| member | source | states |
|---|---|---|
| Constants.TiersCumulative | src/app/lib/constants.py:21-42 | every model and every MCP allowed on basic is allowed on pro, and every one allowed on pro is allowed on enterprise |
| Constants.PassportKeys | src/app/lib/constants.py:28-42 | both passports are keyed by exactly the plan names basic, pro and enterprise |
| Constants.FamiliesPartitionSupport | src/app/lib/constants.py:2-17 | a model is supported iff it is in the OpenAI family or the Google family, and no model is in both |
| Constants.PassportModelsSupported | src/app/lib/constants.py:2-32 | every model any plan allows is a supported model |
| Constants.DefaultModelOnEveryTier | src/app/lib/constants.py:4-32 | the default model is allowed on every plan |
| Text.Split | src/app/lib/ai/tools/mcp_tools.py:35 | splitting yields at least one part, no part contains the separator, and joining the parts with the separator gives back the string |
| Text.SplitJoin | src/app/lib/ai/tools/mcp_tools.py:35 | splitting the join of separator-free parts gives back exactly those parts |
| Caching.SerializeArg | src/app/lib/caching_utils.py:22-27 | a UUID argument is serialised as its string form and a string as itself |
| Caching.SerializeArgs | src/app/lib/caching_utils.py:29 | the positional arguments serialise iff every one does, element by element and in order |
| Caching.SerializeKwargs | src/app/lib/caching_utils.py:30 | the keyword arguments serialise iff every value does, keeping names and order |
| Caching.Insert | src/app/lib/caching_utils.py:31 | inserting into a name-sorted list keeps it sorted and adds exactly that one pair |
| Caching.SortByName | src/app/lib/caching_utils.py:31 | `sorted(kwargs.items())` yields a name-sorted list with the same length and exactly the same pairs |
| Caching.SortedUnique | src/app/lib/caching_utils.py:31 | two name-sorted lists with the same pairs are equal, so the sorted form does not depend on call order |
| Caching.CacheKey | src/app/lib/caching_utils.py:19-32 | a key exists iff every argument is JSON-serialisable, and it starts with the function name followed by ':' |
| Caching.KeyIgnoresKeywordOrder | src/app/lib/caching_utils.py:30-32 | two calls whose keyword arguments differ only in order get the same key |
| Caching.LastColonSeparates | src/app/lib/caching_utils.py:32 | in `name:hex` with a hexadecimal digest, the last ':' sits right after the name |
| Caching.KeysSeparateFunctions | src/app/lib/caching_utils.py:32 | with a hexadecimal digest, equal keys imply equal function names |
| Caching.KeyDeterminesCall | src/app/lib/caching_utils.py:19-32 | with a collision-free hexadecimal digest, equal keys imply the same function and the same serialised arguments |
| Caching.Get | src/app/lib/caching_utils.py:35-47 | a lookup hits iff the key is present and not expired; a hit returns the entry and leaves the table alone; a miss leaves the table without that key |
| Caching.NoTtlNeverExpires | src/app/lib/caching_utils.py:43 | an entry without a time-to-live is a hit at any time |
| Caching.TtlBoundary | src/app/lib/caching_utils.py:43-46 | at exactly `cached_at + ttl` the entry is still a hit; one unit later it is a miss and is deleted |
| Caching.Store | src/app/lib/caching_utils.py:50-66 | storing adds or replaces exactly one key, recording the result, function name, positional arguments, keyword dict, store time and ttl, and leaves all other entries as they were |
| Caching.KwargMap | src/app/lib/caching_utils.py:63 | the recorded keyword dict maps exactly the call's names to their values |
| Caching.CachedCall | src/app/lib/caching_utils.py:116-159 | a fresh hit returns the stored result without calling the function; a miss calls it once; a success is stored under the key with the wrapper's ttl and the call's arguments and keyword dict, and nothing else changes; a failure stores nothing; an unserialisable argument raises before lookup |
| Caching.SecondCallHits | src/app/lib/caching_utils.py:120-132 | after a successful computed call without ttl, the same call (keyword order aside) returns the same result without calling the function, whatever the function would now return |
| Caching.FailureIsNotCached | src/app/lib/caching_utils.py:129-131 | after a call whose function raised, the next identical call computes again |
| Caching.CachedResultsKeepInvariant | src/app/lib/caching_utils.py:116-136 | if every stored result of a function and every result it can compute satisfy a property, every result the wrapper returns does, and so does every stored result afterwards |
| Caching.WithoutFunction | src/app/lib/caching_utils.py:96-98 | exactly the entries of other functions remain, unchanged |
| Caching.WithoutMatching | src/app/lib/caching_utils.py:74-90 | exactly the entries the parameter test does not select remain, unchanged |
| Caching.InvalidateByFunction | src/app/lib/caching_utils.py:93-98 | the collect-then-delete loop removes exactly the entries whose function name matches and keeps the rest unchanged |
| Caching.InvalidateByParameter | src/app/lib/caching_utils.py:69-90 | the loop removes exactly the entries of the named function whose positional argument (digit name, bounds-checked) or keyword argument equals the value under Python equality; other functions' entries are untouched |
| Caching.PositionalIgnoresKeywords | src/app/lib/caching_utils.py:81-84 | for a digit parameter name the test does not look at keyword arguments |
| Caching.ParameterWithinFunction | src/app/lib/caching_utils.py:76-77 | invalidating by parameter never removes an entry that invalidating the whole function would keep |
| Caching.ClearAll | src/app/lib/caching_utils.py:101-104 | the table is empty afterwards |
| Caching.Stats | src/app/lib/caching_utils.py:107-113 | the entry count is the table size, and a function is listed iff some entry records it |
| Caching.StatsAfterInvalidate | src/app/lib/caching_utils.py:93-113 | after invalidating a function it is no longer listed, and the count drops by exactly the number of its entries |
| Caching.CallKeepsWellKeyed | src/app/lib/caching_utils.py:122-131 | every entry stays under a key whose prefix is its own function name |
| Caching.InvalidateForcesRecompute | src/app/lib/caching_utils.py:93-98 | after invalidating a function, its next call always computes |
| Caching.PositionalInvalidationForcesRecompute | src/app/lib/caching_utils.py:63-85 | after a computed success, invalidating the function by a position whose argument equals the value removes the stored entry, and the next identical call computes again |
| Caching.KeywordInvalidationForcesRecompute | src/app/lib/caching_utils.py:63-85 | after a computed success, invalidating the function by a keyword the call passed, with an equal value, removes the stored entry, and the next identical call computes again |
| Entitlement.ActiveSubscriptions | src/app/lib/usage_utils.py:26-31 | keeps exactly the user's subscriptions whose status is active, trialing or past_due, each as many times as the table holds it, so the count the caller branches on is the number of such rows |
| Entitlement.OnlyActive | src/app/lib/usage_utils.py:26-31 | when row `i` is the user's only active row, the query returns exactly that row |
| Entitlement.FindPlan | src/app/lib/usage_utils.py:41 | a plan is found iff one has the id, and it is the first such |
| Entitlement.ResolvePlan | src/app/lib/usage_utils.py:33-44 | no active subscription gives "basic"; more than one gives the multiple-subscriptions error; exactly one gives its plan's name iff that plan exists, otherwise the plan-not-found error |
| Entitlement.SingleActivePlan | src/app/lib/usage_utils.py:33-44 | a user with exactly one active subscription is on that subscription's plan when the plan row exists, and gets the plan-not-found error when it does not |
| Entitlement.PlanResolutionNeverGuesses | src/app/lib/usage_utils.py:36-38 | two distinct active subscriptions of the user always give the error, whatever their plans |
| Entitlement.InactiveIgnored | src/app/lib/usage_utils.py:27-30 | adding an inactive subscription, or one of another user, does not change the resolved plan |
| Entitlement.CheckAllowedModel | src/app/lib/usage_utils.py:64-67 | returns true iff the plan's allow-list holds the model; otherwise the upgrade error; an unknown plan name is a KeyError |
| Entitlement.CheckAllowedMcp | src/app/lib/usage_utils.py:86-91 | returns true iff the plan's MCP list holds the id; otherwise the upgrade error; an unknown plan name is a KeyError |
| Entitlement.CheckAllowedModelForUser | src/app/lib/usage_utils.py:47-67 | a plan-resolution error propagates; otherwise the result is true iff the resolved plan allows the model |
| Entitlement.CheckAllowedMcpForUser | src/app/lib/usage_utils.py:70-91 | a plan-resolution error propagates; otherwise the result is true iff the resolved plan allows the MCP |
| Entitlement.HigherTierKeepsAccess | src/app/lib/usage_utils.py:62-91 | whatever a lower plan allows, every higher plan allows too |
| Actions.Dispatch | src/app/lib/actions.py:30-46 | an unsupported name is rejected; an OpenAI-family name selects Azure with that deployment and the fixed API version; a Google-family name selects gemini-2.0-flash; "Unknown model type" is never raised |
| Actions.GetRightModel | src/app/lib/actions.py:25-46 | the entitlement check runs first and its error wins; every failure is an entitlement failure; a success means the user is entitled and the backend matches the model's family |
| Actions.MatchingSessions | src/app/lib/actions.py:96 | keeps exactly the session rows with that token, each as many times as the table holds it |
| Actions.OnlyMatch | src/app/lib/actions.py:96-98 | when row `i` is the only one with the token, it is the one match |
| Actions.VerifyToken | src/app/lib/actions.py:93-106 | no matching row or several matching rows give the invalid-session error; a single row expired strictly before now gives "Expired session"; otherwise that row is returned, so a session is valid at its expiry instant |
| Actions.SingleSessionVerified | src/app/lib/actions.py:93-106 | a token held by exactly one row verifies to that row up to and including its expiry instant, and fails as expired after it |
| Actions.AmbiguousTokenRejected | src/app/lib/actions.py:97-100 | two distinct rows with the same token always fail verification |
| Actions.GetAgent | src/app/lib/actions.py:81-90 | returns an agent with the id iff one exists, otherwise the not-found error naming the id |
| Actions.CachedVerifyToken | src/app/lib/actions.py:93-106 | when the cached verification computes and succeeds, the session was unexpired at that time |
| Actions.CachedVerifyAcceptsExpiredSession | src/app/lib/actions.py:93-106 | as deployed: a session verified before expiry is returned from the cache after expiry, although direct verification rejects it |
| Actions.VerifyTokenRechecked | src/app/lib/actions.py:102-104 | repeating the expiry check on every call: any accepted session is unexpired now; an unexpired session, cached or computed, is still accepted and every failure is passed on unchanged; an expired one gets the expired-session error; the cache contents are as before |
| Actions.RecheckedRejectsExpiredSession | src/app/lib/actions.py:102-104 | with the check repeated, the same scenario is rejected after expiry |
| Actions.CachedGetRightModel | src/app/lib/actions.py:25-29 | a computed call is `get_right_model` itself; a computed success means the user was entitled at that call |
| Actions.CachedRightModelIgnoresDowngrade | src/app/lib/actions.py:25-29 | after a computed success, a later call with the same llm and user returns the cached backend without computing, whatever the subscriptions have become |
| Actions.CachedModelCheckOnlyTrue | src/app/lib/usage_utils.py:47-67 | the cached `check_allowed_model` only ever returns true |
| McpTools.FindAccount | src/app/lib/ai/tools/mcp_tools.py:18-23 | finds an account of that provider and user iff one exists |
| McpTools.ConnectorParams | src/app/lib/ai/tools/mcp_tools.py:16-64 | a providerless connector gets its url, streamable_http and no headers; a provider-bound one with no account fails naming the provider, and otherwise succeeds iff scope is present, covers the connector's scopes and, for Google, the token is not expired; a missing scope, an ungranted scope and an expired token each give their own message, checked in that order; a Google connector gets exactly the header set built from its account (tokens, scope string, expiry) and the client credentials, any other none |
| McpTools.HeaderMap | src/app/lib/ai/tools/mcp_tools.py:53-64 | no headers is the empty dict; the Google set is a dict with exactly the six `X-…` names, each holding its own field of the set |
| McpTools.SpacesAreNotTrimmed | src/app/lib/ai/tools/mcp_tools.py:35-41 | an account scope "first, second" (say "read, write") does not grant `second`: the split does not trim, and a connector asking for it is rejected |
| McpTools.SpacedScopes | src/app/lib/ai/tools/mcp_tools.py:35 | splitting "first, second" on "," gives `first` and " second" |
| McpTools.GoogleExpiryBoundary | src/app/lib/ai/tools/mcp_tools.py:44-52 | for any account list, a Google token expiring exactly now passes; one unit later it fails with the expiry message |
| McpTools.ResolveAll | src/app/lib/ai/tools/mcp_tools.py:14-65 | for any per-connector step: succeeds iff every connector resolves; a failure is the first failing connector's; the keys are the connector names, each holding the last same-named connector's parameters |
| McpTools.ResolveServerParams | src/app/lib/ai/tools/mcp_tools.py:13-65 | succeeds iff every connector passes; a failure is the first failing connector's; the map's keys are the connector names, and each holds the parameters of the last connector with that name |
| McpTools.GetToolsFromMcps | src/app/lib/ai/tools/mcp_tools.py:13-69 | a failing connector's error is returned; otherwise discovery is given the full name-to-parameters map |
| ChatWorkflow.Coalesce | src/app/lib/ai/workflows/chat_workflow.py:59-62 | the state value wins when present; the config value is used only when it is absent |
| ChatWorkflow.AgentPrompt | src/app/lib/ai/workflows/chat_workflow.py:74-79 | a named agent (not "Untitled Agent") gets the "Your name is ..." prefix before its prompt; otherwise its own prompt |
| ChatWorkflow.Verification | src/app/lib/ai/workflows/chat_workflow.py:34-112 | messages are kept; every present state field is kept and an absent one takes the config value; a missing token is the first error; the node succeeds iff every check passes (token present and verified, llm and user id present, both limits pass, the agent found when a prompt is derived, session and agent ids present); a derived prompt comes from the found agent, and otherwise the prompt is kept |
| ChatWorkflow.MissingTokenStopsFirst | src/app/lib/ai/workflows/chat_workflow.py:51-55 | without a token the result is the state with the token error, whatever the oracles would say |
| ChatWorkflow.FailedVerifyStopsRest | src/app/lib/ai/workflows/chat_workflow.py:57-62 | a failed token verification ends with its message, does not depend on later checks, and merges no llm or user id |
| ChatWorkflow.FailedTokenLimitStopsRest | src/app/lib/ai/workflows/chat_workflow.py:69-70 | a failed token-limit check ends with its message, before the usage limit, the agent lookup and the id merges |
| ChatWorkflow.MergeIds | src/app/lib/ai/workflows/chat_workflow.py:81-89 | the session and agent ids are merged; a missing session id is reported before a missing agent id; nothing else changes |
| ChatWorkflow.MissingLlmStopsBeforeUserId | src/app/lib/ai/workflows/chat_workflow.py:59-67 | a missing llm is reported before a missing user id and before either limit is consulted |
| ChatWorkflow.FailedUsageLimitStopsRest | src/app/lib/ai/workflows/chat_workflow.py:70-86 | a failed usage-limit check ends with its message, before the agent lookup and the id merges |
| ChatWorkflow.FailedAgentLookupStopsRest | src/app/lib/ai/workflows/chat_workflow.py:72-86 | a failed agent lookup ends with its message, the prompt unchanged and no id merged |
| ChatWorkflow.SessionIdCheckedBeforeAgentId | src/app/lib/ai/workflows/chat_workflow.py:86-89 | once the checks pass, a missing session id is reported first, and a missing agent id only when the session id is present |
| ChatWorkflow.MissingSessionKeepsDerivedPrompt | src/app/lib/ai/workflows/chat_workflow.py:72-87 | a missing session id is reported after the prompt was derived, and the failed state carries that prompt |
| ChatWorkflow.Route | src/app/lib/ai/workflows/chat_workflow.py:156-159 | the turn ends iff the error is truthy |
| ChatWorkflow.FailedVerificationEndsTurn | src/app/lib/ai/workflows/chat_workflow.py:101-112 | when every oracle failure carries a message, verification ends the turn iff it failed |
| ChatWorkflow.EmptyFailureIsRoutedToChat | src/app/lib/ai/workflows/chat_workflow.py:156-159 | a limit check (here the token limit) failing with an empty message is routed on to the chat node |
| ChatWorkflow.WithSystemPrompt | src/app/lib/ai/workflows/chat_workflow.py:125-127 | the prompt is put in front iff it is truthy and the list does not start with a system message; with a truthy prompt and no messages it raises the index error |
| ChatWorkflow.PrependIdempotent | src/app/lib/ai/workflows/chat_workflow.py:125-127 | prepending to an already prepended list changes nothing |
| ChatWorkflow.ChatNode | src/app/lib/ai/workflows/chat_workflow.py:115-153 | the non-message fields are kept; a model-selection error keeps the messages; success returns exactly the model's reply with no error; a failed call returns the list it was given |
| ChatWorkflow.RightModelFor | src/app/lib/ai/workflows/chat_workflow.py:124 | with llm and user present this is the entitlement-checked dispatch; a missing llm always fails |
| ChatWorkflow.RunTurn | src/app/lib/ai/workflows/chat_workflow.py:115-172 | a truthy verification error is the turn's result; otherwise the chat route runs: every field but the messages and error is verification's; a failed model selection or model call is the error; an error-free turn passed verification and its messages are exactly the model's one reply |
| ChatWorkflow.PassedTurnUsesEntitledModel | src/app/lib/ai/workflows/chat_workflow.py:124-140 | an error-free turn after a passed verification used a model the user is entitled to under the subscriptions given (the uncached model) |
| ChatWorkflow.SilentLimitFailureReachesModel | src/app/lib/ai/workflows/chat_workflow.py:156-172 | a token-limit failure with an empty message still reaches the model, and the turn ends without error |
| Streaming.ToolCallFrames | src/app/api/streaming_handler.py:57-58 | one tool-call frame per call, in order, carrying its id, name and arguments |
| Streaming.EventFrames | src/app/api/streaming_handler.py:53-60 | within one item: text first, then tool calls, then the tool result; text iff the content is non-empty; tool calls only with empty content; a tool result only for a tool message, last; a non-empty AI chunk gives one frame and a tool message one or two |
| Streaming.ItemFrames | src/app/api/streaming_handler.py:53-60 | the handler's three independent tests yield exactly the item's frames |
| Streaming.Accumulate | src/app/api/streaming_handler.py:45-51 | a counter pair grows by the item's input and output tokens, by nothing for a tool message or empty usage |
| Streaming.OpenStep | src/app/api/streaming_handler.py:36-43 | the start frame, with the id fixed from the first item, is emitted only while the step is not started |
| Streaming.HandleItem | src/app/api/streaming_handler.py:36-60 | one loop iteration extends the handler's state for the first `i` items to the state for the first `i + 1` |
| Streaming.StreamingHandler | src/app/api/streaming_handler.py:12-74 | the loop with its flags and counters yields exactly the reference frame stream |
| Streaming.Framing | src/app/api/streaming_handler.py:36-74 | a start frame appears once and first iff any item arrived; the message end appears once, last, with the totals; a normal end has one step end just before it and no error frame; a raised stream has one error frame with its text and no step end |
| Streaming.FramingCounts | src/app/api/streaming_handler.py:41-74 | the stream holds one start frame iff an item arrived, one step end or one error frame depending on how the stream ended, and one message end |
| Streaming.StepCountsMatchTotals | src/app/api/streaming_handler.py:46-74 | on normal completion the step end and message end report the same counts |
| Streaming.MessageIdFixedAtFirstItem | src/app/api/streaming_handler.py:37-43 | later items do not change the start frame's message id |
| Streaming.ScriptFrames | src/app/api/streaming_handler.py:29-74 | text "Hi", one tool call and its result give start, text, tool call, result text, result, step end, message end; raised at the end, the error frame replaces the step end |
| UsageTraces.TokenUsage | src/app/lib/utils.py:29-40 | `token_usage` is used whenever present and counts only when non-empty; otherwise a non-empty `usage_metadata` counts with its fields renamed; a usage that does not count adds zero |
| UsageTraces.FoldIsSum | src/app/lib/utils.py:14-51 | the fold's keys are exactly the model names seen, and each model's counters are the sums over its responses |
| UsageTraces.AddUsage | src/app/lib/utils.py:42-51 | a model's three counters grow by the usage's counts, and stay when the usage is falsy |
| UsageTraces.AddResponse | src/app/lib/utils.py:15-51 | one response's update of the totals is the reference step: skipped without a model name, otherwise opening the entry at zero and adding its usage |
| UsageTraces.AddResponses | src/app/lib/utils.py:14-51 | the inner loop over one trace's responses continues the reference fold over all responses seen |
| UsageTraces.ExtractUsageFromTraces | src/app/lib/utils.py:4-53 | the nested loops yield exactly the model names of qualifying responses, each with its summed counters |
| UsageTraces.TokenUsageTakesPrecedence | src/app/lib/utils.py:33-34 | when `token_usage` is present, `usage_metadata` does not affect the counts |
| UsageTraces.NoUsageStillCounted | src/app/lib/utils.py:19-25 | a named response without usage still opens its model's entry at zero and changes no counter |
| UsageTraces.SkippedTraceContributesNothing | src/app/lib/utils.py:8-9 | a trace with no output or no response list adds no responses |

## Left out

- Database sessions and queries: every query is the list of rows it would read, and the SQL library's own messages are written out as constants.
- The LLM SDKs and `model.ainvoke`: a backend is a tag (`AzureOpenAi`, `GoogleGenAi`) and the call is an oracle. API keys, endpoints and temperature are not modelled.
- `MultiServerMCPClient.get_tools()` is the oracle `discover`.
- `generate_tools` in `src/app/lib/actions.py` is a query plus a call of `get_tools_from_mcps`, and is not modelled.
- `check_llm_token_limit` and `check_usage_limit`: their bodies are not part of this model. They are pass/fail oracles, with no quota windows or boundaries.
- The cache lock, the async wrappers and thread safety: one sequential table is modelled, and the sync and async wrappers share one definition.
- The cache reads two clocks, at lookup and at store. They are the parameters `now` and `storedAt`, and nothing relates them.
- Caching.CacheKey: JSON encoding and SHA-256 are one abstract digest. The exact `TypeError` text of `json.dumps` is a constant. Key equality beyond the name prefix is proved only under an assumed collision-free digest.
- Caching.CacheKey: `func.__name__` is the name, so two functions with the same name share keys. This is not modelled apart.
- Caching.PyEq: Python equality is modelled for the argument shapes only: booleans equal to 0/1, UUIDs never equal to strings, lists and dicts by value. Floats are not modelled.
- Text.IsDigits accepts ASCII digits only. Python's `str.isdigit` also accepts other Unicode digits.
- The model's chat graph calls `verify_token`, `get_agent` and `get_right_model` (with `check_allowed_model` and `get_active_subscription_plan_name` under it) uncached. In the source they are memoised with no time-to-live. The effects of that memo are stated separately, in `Actions.CachedVerifyAcceptsExpiredSession`, `Actions.CachedRightModelIgnoresDowngrade` and `Actions.CachedModelCheckOnlyTrue`.
- ChatWorkflow.PassedTurnUsesEntitledModel: holds for the subscriptions given to the turn. In the source, `get_right_model` is memoised with no time-to-live, so entitlement is checked at the first call for each llm and user only. A later downgrade or cancellation is never re-checked (`Actions.CachedRightModelIgnoresDowngrade`).
- ChatWorkflow.RunTurn returns the last node's output. The graph reducer that merges it into the stored conversation (appending messages) is not modelled.
- ChatWorkflow.RightModelFor: with a missing user id, plan resolution is taken to read no subscription rows.
- The float `total_cost` in `src/app/lib/utils.py` is not modelled. The code adds it once per named response, not once per trace.
- Streaming: JSON escaping inside frames is not modelled, since frames are a tagged datatype. Logging and the debug `print` calls are left out.
- Streaming: the `a:` frame carries the tool message's own `id`, not its `tool_call_id`. The model follows the code.
- Streaming.ScriptFrames: in the AI SDK data stream protocol a tool result is an `a:` part. The code also emits a `0:` text part for a tool message with non-empty content, because its content test applies to every item. The model follows the code, so the script's tool message yields both parts.
- McpTools.GetToolsFromMcps: the code does not call `check_allowed_mcps`, and the model follows it. The providerless connector has no bearer header, and no plan is let through unchecked: neither is in the code.
- McpTools.ResolveServerParams: one clock value `now` serves every connector. The code reads `get_current_timestamp()` afresh for each Google connector.
- McpTools.GoogleHeaders: the expiry header's text is `str(datetime)`, and is modelled as the timestamp value itself.
- The `HTTPException` status code (400) is not modelled. The error is its `detail` text.
- A per-plan token ceiling (including a ceiling of zero) belongs to `check_llm_token_limit`, which is an oracle here.
- Python `repr` escaping in the KeyError message is not modelled: plan names are quoted as they are.

## Findings

| source | as written | input that shows it | evidently intended | confidence | as-written member | corrected member |
|---|---|---|---|---|---|---|
| src/app/lib/actions.py:93-106 | `verify_token` is memoised with no time-to-live, so after one successful verification later calls with the same token return the cached session without the expiry check | a session expiring at 20, verified at 10 and again at 30: the second call returns the session | an expired session is rejected on every call | not executed | Actions.CachedVerifyAcceptsExpiredSession | Actions.VerifyTokenRechecked |
