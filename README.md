# Conversation persistence and history reconstruction, modelled in Dafny

This project models the conversation layer of a multi-agent chat application built on an agents SDK. It covers how the application stores a conversation, how it rebuilds one from the traces that its tracing backend (Langfuse) records, and how it inspects the result.

**Session store.** A Redis-backed session keeps one Redis list per session under the key `openai_agent_session:<id>`.
- Items are appended at the tail and read in insertion order. They can also be read as the last N, popped from the tail, or cleared.
- Every non-empty append refreshes the key's expiry. The expiry is `REDIS_SESSION_TTL`, or seven days when that is unset.

**History from traces.** Three loaders rebuild a conversation from trace and observation records.
- The per-trace extractor turns each trace into at most one user message and one assistant message. The user message is the first observation with an input; the assistant message is the last generation with an output.
- The paginated extractor pages through all of a session's observations. It then walks them in time order: each `user-interaction` span yields a user message, and each run of consecutive generations of the same trace yields one assistant message (a trace whose generations are interleaved with another trace's yields one message per run).
- The cumulative-input approach flattens the message lists that generations re-send. It then removes repeats by their `role:content` signature, keeping the last occurrence.

**Session rebuilders.** Two rebuilders turn a conversation, or raw traces, into session items.
- Each assistant item gets an envelope whose provisional id `msg_<n>` is its position.
- The multi-agent rebuilder also recognises handoff records and keeps them out of the session.

**Validators, listings, parsers.**
- A checker reports neighbouring messages with the same role and role-count imbalance.
- A listing groups recent traces by session.
- A parser extracts the facilitator's expert nomination, a JSON object after the marker 【専門家指名】.
- A scrubbing callback decides how the telemetry redacts a matched text.

**External services are inputs.** Every HTTP call becomes a function parameter that returns an abstract reply: a status, the `data` list and `meta.totalPages`. Python's `str()` of a non-string value becomes a parameter `render`, and `json.loads` becomes a parameter `decode` that yields `None` where the decoder raises. The Redis server is a class over two maps, key to list and key to remaining seconds, with the commands the store issues.

The modules are:

| module | file |
|---|---|
| `Wrappers`, `JsonValues`, `Strings`, `Sorting`, `TraceRecords`, `SessionItems` | shared vocabulary: `Option`; JSON values with Python truthiness and `str()`; `find`/`rfind`/`strip`/`lower`/slicing; the stable `sorted(key=...)`; the trace records and the agent session |
| `RedisSessionStore` | redis_session.py |
| `ConversationHistory` | conversation_history.py |
| `PaginatedHistory` | conversation_history_paginated.py |
| `GenerationDedup` | test_correct_approach.py |
| `SessionBuilder` | session_builder.py |
| `AdvancedSessionBuilder` | advanced_session_builder.py |
| `DuplicateCheck` | test_duplicate_check.py |
| `SessionListing` | list_sessions.py |
| `ExpertNomination` | facilitator_agent.py |
| `Scrubbing` | custom_scrubbing.py |

## Where the code and its description differ (the model follows the code)
- **Dedup keeps the last occurrence.** The cumulative-input approach keeps the last occurrence of each `role:content` signature, not the first (test_correct_approach.py:55-59).
- **One user message per span.** The paginated walker emits a user message for every `user-interaction` span with an input (conversation_history_paginated.py:100-105), not only for the first span of a turn. Its tracking of the current trace and input (lines 88-97) has no effect on the output.
- **No cut to an expected count.** Neither loader truncates the conversation to an expected number of messages.
- **`last_seen` must be present.** The session listing's sort raises `TypeError` when two or more sessions are listed and one has no `last_seen` (list_sessions.py:50-52). The model returns `UnorderableTimestamps` in that case.

## Model

| member | source | states |
|---|---|---|
| RedisSessionStore.SessionKeyInjective | redis_session.py:33 | two sessions share a Redis key `openai_agent_session:<id>` only when their ids are equal |
| RedisSessionStore.ItemsRange | redis_session.py:59-63 | no limit, or limit 0 (`LRANGE key -0 -1`), reads the whole list; a positive limit n reads the last min(n, length) items in order; a negative limit drops the first items |
| RedisSessionStore.ConfiguredTtl | redis_session.py:87 | the expiry is `REDIS_SESSION_TTL` when set and 604800 seconds otherwise |
| RedisSessionStore.RequestedTtl | redis_session.py:142 | `seconds or default`: `None` and 0 select the configured expiry, any other value is used as is |
| RedisSessionStore.RedisServer.RPush | redis_session.py:84 | RPUSH appends the values at the tail of the key's list and keeps its expiry |
| RedisSessionStore.RedisServer.RPop | redis_session.py:100 | RPOP returns and removes the last value; a list emptied this way is deleted with its expiry; a missing key gives nothing and changes nothing |
| RedisSessionStore.RedisServer.Delete | redis_session.py:109 | DEL removes the key's list and expiry and nothing else |
| RedisSessionStore.RedisServer.Expire | redis_session.py:88 | EXPIRE on a missing key does nothing; a positive time sets the key's expiry; zero or a negative time deletes the key |
| RedisSessionStore.RedisSession.constructor | redis_session.py:22-33 | the session's key is `openai_agent_session:<id>`; the expiry setting is not read here but at each `add_items`/`extend_ttl` call |
| RedisSessionStore.RedisSession.GetItems | redis_session.py:46-66 | returns the stored items selected by `ItemsRange`: all of them in insertion order, or a chronological tail |
| RedisSessionStore.RedisSession.AddItems | redis_session.py:68-88 | an empty list changes neither list nor expiry; otherwise the list becomes the old list followed by the new items, and the expiry becomes `REDIS_SESSION_TTL` as it is at the time of the call (604800 when unset) |
| RedisSessionStore.RedisSession.PopItem | redis_session.py:90-104 | returns and removes the most recent item; `None` on an empty or missing session; other keys are untouched; the session keeps its TTL while items remain and loses it with the key when the last item goes |
| RedisSessionStore.RedisSession.ClearSession | redis_session.py:106-109 | afterwards the session reads empty and has no expiry (TTL -2); other keys are untouched |
| RedisSessionStore.RedisSession.Exists | redis_session.py:117-120 | true exactly when the session holds at least one item |
| RedisSessionStore.RedisSession.GetSessionInfo | redis_session.py:122-135 | item_count is the list length; exists holds iff the count is positive; ttl_seconds is present iff the key has a positive expiry |
| RedisSessionStore.RedisSession.ExtendTtl | redis_session.py:137-143 | a missing session is left alone; otherwise the expiry becomes `seconds`, or for `None`/0 `REDIS_SESSION_TTL` as it is at the time of the call |
| RedisSessionStore.CreateRedisSession | redis_session.py:154-175 | restoring keeps the stored data untouched; not restoring deletes the session's key and its TTL and nothing else |
| RedisSessionStore.BasicOperationsScenario | test_redis_session.py:9-67 | new session empty; two adds read back in order; limit 1 gives the newer item; pop returns it and leaves the older; clear leaves nothing |
| ConversationHistory.ListFrom | conversation_history.py:44-49 | a non-200 reply yields no records; a 200 reply yields its `data`, or nothing when `data` is absent |
| ConversationHistory.TraceDetailsFrom | conversation_history.py:66-70 | a non-200 reply yields an empty object, a 200 reply its body |
| ConversationHistory.FirstInput | conversation_history.py:120-123 | present iff some observation has a truthy input, and then it is the input of the first such observation |
| ConversationHistory.LastGenerationOutput | conversation_history.py:126-127 | present iff some GENERATION has a truthy output, and then it is the output of the last such one |
| ConversationHistory.ScanTurn | conversation_history.py:117-127 | the single pass over the sorted observations yields exactly the first input and the last generation output |
| ConversationHistory.ExtractConversationHistory | conversation_history.py:101-142 | the loop yields the history: each trace's messages in trace order; traces without an id contribute none |
| ConversationHistory.TraceMessagesShape | conversation_history.py:106-140 | a trace gives at most two messages, a user message before an assistant one, and none without an id |
| ConversationHistory.UserMessageIsFirstInput | conversation_history.py:114-127 | the user message exists iff an observation in stable `startTime` order has an input, and carries the first such input; the assistant message exists iff a generation answered |
| ConversationHistory.HistoryAppend | conversation_history.py:105 | the history of two trace lists placed end to end is the concatenation of their histories |
| ConversationHistory.HistoryBounded | conversation_history.py:101-142 | at most two messages per trace and at most one user message per trace |
| ConversationHistory.RoleLabel | conversation_history.py:149 | role `user` is labelled ユーザー, every other role アシスタント |
| ConversationHistory.FormatForAgent | conversation_history.py:144-152 | the text is the header followed by one `label: content` block per message, in order |
| ConversationHistory.BlocksAppend | conversation_history.py:148-150 | the blocks of a longer conversation extend those of its prefix by the new messages' blocks |
| PaginatedHistory.PagesFromRequests | conversation_history_paginated.py:26-68 | pages 1, 2, ... are requested consecutively, never more than `max_pages`; every page but the last succeeded, was non-empty and was below totalPages; at least one page is requested when `page <= max_pages`, and the loop stops on a page that fails that test or on `max_pages` |
| PaginatedHistory.PagesFromContents | conversation_history_paginated.py:49-57 | the collected observations are the data of the requested pages that answered 200, concatenated in page order |
| PaginatedHistory.GetAllSessionObservations | conversation_history_paginated.py:22-71 | the page loop yields what `PagesFrom` describes: at most `max_pages` requests and the concatenated successful pages |
| PaginatedHistory.Untag | conversation_history_paginated.py:121-123 | dropping `trace_id` keeps each message's role and content, one for one |
| PaginatedHistory.WalkObservations | conversation_history_paginated.py:85-125 | the walk over the sorted observations, with tags removed, is `Walk` |
| PaginatedHistory.ExtractConversationHistoryPaginated | conversation_history_paginated.py:73-125 | the conversation is the reconstruction of the fetched pages: empty for no observations, else the walk over the observations in stable `startTime` order |
| PaginatedHistory.WalkUserMessages | conversation_history_paginated.py:100-105 | the user messages are exactly the inputs of the `user-interaction` spans, one each, in order |
| PaginatedHistory.WalkNoRepeatedTurn | conversation_history_paginated.py:107-119 | no two adjacent assistant messages share a trace; every role is user or assistant; no more messages than observations |
| PaginatedHistory.WalkIgnoresOtherObservations | conversation_history_paginated.py:79-119 | observations that are neither input spans nor answering generations (and no observations at all) yield no conversation |
| PaginatedHistory.LaterGenerationReplaces | conversation_history_paginated.py:112-113 | a second generation of the same trace replaces the content of the last assistant message instead of adding one |
| PaginatedHistory.TwoTurnWalk | conversation_history_paginated.py:83-123 | any two turns, each a user-interaction span followed by a generation of the same trace, walk to user, assistant, user, assistant with the spans' inputs and the generations' outputs |
| PaginatedHistory.TwoTurnScenario | conversation_history_paginated.py:83-123 | two traces of a span and a generation each give user, assistant, user, assistant in time order |
| GenerationDedup.FlatOf | test_correct_approach.py:42-49 | an entry yields a message iff it is an object with `role` and `content` and a role other than `system`; its content is the entry's content and its role is `user` exactly when the entry's role is `user`, `assistant` otherwise |
| GenerationDedup.CollectGenerations | test_correct_approach.py:21-33 | collects, trace by trace, the GENERATION observations with a truthy input, in order |
| GenerationDedup.FlattenInputs | test_correct_approach.py:38-49 | flattens the list inputs of the collected generations into messages, in order |
| GenerationDedup.DedupKeepLast | test_correct_approach.py:51-59 | the backward scan with a seen-set computes `KeepLast`: a message survives iff no later message has its signature |
| GenerationDedup.ObservationsByTraces | test_correct_approach.py:12-70 | the result is the keep-last dedup of the flattened inputs of the collected generations |
| GenerationDedup.KeepLastDistinct | test_correct_approach.py:52-59 | no two surviving messages share a `role:content` signature |
| GenerationDedup.KeepLastSignatures | test_correct_approach.py:55-59 | every signature of the input survives |
| GenerationDedup.KeepLastSubsequence | test_correct_approach.py:55-59 | the output is a subsequence of the input: order is kept |
| GenerationDedup.KeepLastIsLastOccurrence | test_correct_approach.py:51-59 | each surviving message is an input message with no later message of its signature |
| GenerationDedup.SignatureFaithfulForText | test_correct_approach.py:56 | for text contents two messages share a signature iff they are equal |
| SessionItems.MsgIdTextInjective | session_builder.py:51 | different positions give different ids `msg_<n>` |
| SessionItems.AssistantEnvelope | session_builder.py:38-53 | one `output_text` block with empty annotations and logprobs, type `message`, status `complete`, id from the position |
| SessionItems.AgentSession.constructor | session_builder.py:17 | a new in-memory session holds no items |
| SessionItems.AgentSession.AddItems | session_builder.py:57 | the items are appended in order |
| SessionBuilder.BuildItems | session_builder.py:31-53 | the loop yields `ToItems`, each assistant id read from the current item count |
| SessionBuilder.ToItemsFaithful | session_builder.py:32-53 | the items are the user and assistant messages one for one in order, user content unchanged, assistant text in the envelope; every assistant id is its own position |
| SessionBuilder.ToItemsAscending | session_builder.py:51 | the assistant ids are distinct and increasing |
| SessionBuilder.ToItemsCount | session_builder.py:32-53 | the number of items is the number of user messages plus the number of assistant messages |
| SessionBuilder.RebuildFromLangfuse | session_builder.py:13-62 | a fresh session for the id; empty when there are no traces; otherwise holding the items of the extracted history |
| AdvancedSessionBuilder.Probe | advanced_session_builder.py:47-50 | none iff no probed key has a truthy value; otherwise the value of the first key in order that has one |
| AdvancedSessionBuilder.ProbeOr | advanced_session_builder.py:48-51 | the content is the first truthy value under the probed keys, in order, or else `str()` of the whole object |
| AdvancedSessionBuilder.InputItems | advanced_session_builder.py:35-56 | a string input yields one user item carrying that string; an object input yields one user item carrying its probed content; any other input, or none, yields nothing |
| AdvancedSessionBuilder.OutputItems | advanced_session_builder.py:59-111 | a string output yields one assistant envelope with that text and the agent name; an object with a `handoff` or `transfer` key yields one handoff item whose target is its `handoff_to` (`unknown` when absent), with the reason and the timestamp; any other object yields one envelope with its probed content; anything else yields nothing |
| AdvancedSessionBuilder.GatherItems | advanced_session_builder.py:28-111 | the loop yields `AllItems`: per trace its input item, then its output item, ids from the running count |
| AdvancedSessionBuilder.RebuildFromLangfuseAdvanced | advanced_session_builder.py:13-127 | a fresh session holding all gathered items except the handoff records, or nothing |
| AdvancedSessionBuilder.AllItemsIdsArePositions | advanced_session_builder.py:74-109 | each gathered assistant id is its position among all gathered items, handoffs included |
| AdvancedSessionBuilder.WithoutHandoffsContents | advanced_session_builder.py:114 | filtering keeps exactly the non-handoff items and removes every handoff |
| AdvancedSessionBuilder.WithoutHandoffsCounts | advanced_session_builder.py:114 | filtering keeps every non-handoff item as many times as it occurs and no handoff |
| AdvancedSessionBuilder.WithoutHandoffsInOrder | advanced_session_builder.py:114 | the filtered list is the original list with items removed, the kept ones in their original order |
| AdvancedSessionBuilder.WithoutHandoffsAscending | advanced_session_builder.py:114 | filtering keeps the assistant ids increasing (they may have gaps) |
| AdvancedSessionBuilder.SessionItemsWellFormed | advanced_session_builder.py:109-117 | what reaches the session has distinct, increasing assistant ids and no handoff |
| AdvancedSessionBuilder.FlowOf | advanced_session_builder.py:135-143 | the agent is the trace name or `Unknown`; each summary is the first min(50, length) characters of the text, empty when absent |
| AdvancedSessionBuilder.ExtractAgentFlow | advanced_session_builder.py:130-147 | exactly one flow entry per trace, in trace order |
| DuplicateCheck.IssuesSound | test_duplicate_check.py:27-30 | every issue names a position whose role equals the previous position's role, with that role |
| DuplicateCheck.IssuesComplete | test_duplicate_check.py:28-30 | every position whose role repeats the previous one is reported |
| DuplicateCheck.IssuesIncreasing | test_duplicate_check.py:28-30 | issues come in increasing position order |
| DuplicateCheck.IssuesEmptyIffAlternates | test_duplicate_check.py:32-37 | no issues iff the roles strictly alternate |
| DuplicateCheck.CheckConversationDuplicates | test_duplicate_check.py:25-48 | the report lists the issues, the user and assistant counts, and raises the warning iff the counts differ by more than one |
| DuplicateCheck.AlternatingBalance | test_duplicate_check.py:40-41 | an alternating user/assistant conversation has equal counts at even length, else one more of the first speaker |
| DuplicateCheck.AlternatingNeverImbalanced | test_duplicate_check.py:47-48 | an alternating conversation never raises the imbalance warning |
| SessionListing.CollectSessions | list_sessions.py:32-45 | the grouping loop yields `Aggregate`: the dict's entries and their insertion order |
| SessionListing.AggregateSummaries | list_sessions.py:33-45 | a session is listed iff a trace names it with a non-empty id; first/last seen come from its first/last trace, its count is its number of traces, its first input is its first trace's input cut to 50 characters; each key is listed once |
| SessionListing.AggregateFirstSeenOrder | list_sessions.py:33-45 | the dict's keys are in the order their sessions first appear among the traces (dict insertion order), which the stable sort keeps among equal `last_seen` values |
| SessionListing.AggregateCountsAllTraces | list_sessions.py:32-45 | the trace counts add up to the number of traces that name a session |
| SessionListing.ListRecentSessions | list_sessions.py:8-72 | the loop and sort yield `RecentSessions`: an error on a non-200 reply, the sort failure, or the sorted sessions cut to `limit` |
| SessionListing.RecentSessionsSorted | list_sessions.py:50-54 | the shown sessions are newest `last_seen` first, at most `limit` of them, a prefix of a permutation of all sessions |
| SessionListing.ListedWhenTimestamped | list_sessions.py:28-54 | when every trace has a timestamp, a 200 reply always produces a listing |
| ExpertNomination.Segment | facilitator_agent.py:57-66 | there is a segment iff the reply contains the marker |
| ExpertNomination.ParseExpertRequest | facilitator_agent.py:55-78 | no marker gives `None`; with a segment after the marker, a brace span in it gives exactly the decoder's result on that span and no span gives `None` |
| ExpertNomination.BraceSpanBraces | facilitator_agent.py:68-74 | a span exists iff the stripped segment has a `{` and a `}`; a non-empty span runs from the first `{` to the last `}` |
| ExpertNomination.NoBraceNoNomination | facilitator_agent.py:71-72 | without a `{` or a `}` there is no nomination |
| ExpertNomination.FirstMarkerAfter | facilitator_agent.py:62 | in `x + marker + y`, with no marker in `x`, the first marker is the one after `x` |
| ExpertNomination.SegmentBetweenMarkers | facilitator_agent.py:62-66 | the segment is the text between the first and the second marker |
| ExpertNomination.SegmentAfterOnlyMarker | facilitator_agent.py:62-66 | with a single marker the segment is everything after it |
| ExpertNomination.LaterTextIgnored | facilitator_agent.py:62-78 | text before the first marker and from the second marker on never changes the nomination |
| Scrubbing.Scrub | custom_scrubbing.py:9-32 | a text starting like a UUID is returned unchanged; any other text becomes the password, key, token or session label, the first of these words found in its lowercased form deciding, or the plain label when none occurs |
| Scrubbing.PasswordLabelFixed | custom_scrubbing.py:22-23 | `[REDACTED-PASSWORD]` scrubs to itself |
| Scrubbing.KeyLabelFixed | custom_scrubbing.py:24-25 | `[REDACTED-KEY]` scrubs to itself |
| Scrubbing.TokenLabelFixed | custom_scrubbing.py:26-27 | `[REDACTED-TOKEN]` scrubs to itself |
| Scrubbing.SessionLabelFixed | custom_scrubbing.py:28-30 | `[REDACTED-SESSION]` scrubs to itself |
| Scrubbing.PlainLabelFixed | custom_scrubbing.py:32 | `[REDACTED]` scrubs to itself |
| Scrubbing.ScrubIdempotent | custom_scrubbing.py:9-32 | scrubbing a scrubbed text changes nothing |
| Scrubbing.UuidPrefixKept | custom_scrubbing.py:14-16 | the UUID match is anchored at the start only: anything after a leading UUID is kept as well |
| Scrubbing.UuidNotAtStartScrubbed | custom_scrubbing.py:14-30 | `session=<uuid>` is not protected by the UUID it contains and becomes `[REDACTED-SESSION]` |
| Sorting.SortByKeyPermutes | conversation_history.py:114 | the sort's result is a permutation of its input, of the same length |
| Sorting.SortByKeySorted | conversation_history.py:114 | the sort's result is ordered by key, ascending or, with `reverse=True`, descending |
| Sorting.SortByKeyStable | conversation_history.py:114 | for every key, the items with that key keep their input order (Python's sort is stable) |
| Sorting.SortedUnchanged | conversation_history_paginated.py:83 | sorting an already sorted sequence leaves it unchanged |
| Strings.StrLeTotal | conversation_history.py:114 | string order, as Python compares keys, is total |
| Strings.StrLeTransitive | conversation_history.py:114 | string order is transitive |
| Strings.StrLeAntisymmetric | conversation_history.py:114 | string order is antisymmetric |
| Strings.IndexOf | facilitator_agent.py:62 | `find` gives -1 iff the pattern is absent, else its first occurrence |
| Strings.FindChar | facilitator_agent.py:68 | `find('{')` gives the first `{`, or -1 when there is none |
| Strings.RFindChar | facilitator_agent.py:69 | `rfind('}')` gives the last `}`, or -1 when there is none |
| Strings.Strip | facilitator_agent.py:66 | `strip()` removes only whitespace, from both ends, and leaves no whitespace at either end |
| Strings.Truncate | advanced_session_builder.py:141-142 | `[:n]` gives the prefix of exactly min(n, length) characters, the whole text when it is short enough |
| Strings.TakePrefix | list_sessions.py:54 | `[:limit]` gives a prefix of min(limit, length) items, or for a negative limit drops that many from the end |
| Strings.Lower | custom_scrubbing.py:22 | `lower()` maps each character on its own, keeping the length |
| Strings.DecimalInjective | session_builder.py:51 | different numbers have different decimal texts |
| JsonValues.Show | conversation_history.py:133 | `str()` of a string is the string itself |
| TraceRecords.CountRoleAppend | test_duplicate_check.py:40-41 | role counts add up over concatenation |

## Left out
- HTTP: building URLs and authentication headers, and issuing requests. Replies are abstract inputs: a status, the `data` list and `meta.totalPages`.
- Redis connectivity: `_get_client`, `close` and the async context manager are left out. So are the JSON encoding of stored items and the `redis_url` parameter, because they are plumbing.
- Wall-clock expiry is not modelled: time does not pass, so a key never expires by itself. The concurrent-append test is left out because its point is concurrency.
- `json.dumps`/`json.loads`, `str()` of non-string values and `datetime.fromisoformat` are parameters or left out, not re-implemented.
- Floating-point JSON numbers are not modelled; numbers are integers.
- Null string fields are not modelled: a string field that is explicitly null is treated like an absent one.
- ConversationHistory.ExtractConversationHistory and PaginatedHistory.ExtractConversationHistoryPaginated: the `TypeError` Python raises when an observation's `startTime` is null (sorting `None` against strings) is not modelled.
- GenerationDedup.ObservationsByTraces requires every trace to have an id: the source crashes on a missing id when printing `trace_id[:8]`. It also omits the printing of the last six messages.
- GenerationDedup.ObservationsByTraces returns normally where the source's printing of the last six kept messages raises `TypeError`: a content that is null, a number or a boolean has no `len()`, and a list or object content longer than 50 cannot be concatenated with `"..."`.
- JSON objects are unordered maps (`JObject`), while Python dicts keep insertion order, which `str()` of a dict shows; the rendering function is a parameter, so the model does not fix the key order of that text.
- RedisSessionStore.ConfiguredTtl takes the environment value as an already parsed integer: the `ValueError` that `int()` raises on a malformed `REDIS_SESSION_TTL` is not modelled.
- Strings.Lower covers only the characters that can produce the searched ASCII words (`A`-`Z` and the Kelvin sign). Other case mappings, which change lengths in Python, are not modelled.
- The trace listing's request parameter (`limit: 20`) and the timeout are request plumbing and are not modelled.
- Telemetry is left out because it is a wrapper over a foreign client: log.py, the logfire/OpenTelemetry configuration, `get_custom_scrubbing_options` and `setup_scrubbing_allowlist`.
- CLI loops, printing and agent construction are left out because they are user interface and SDK wiring. This covers `input()` loops, the display functions, `resume_conversation` and `get_session_details`.
- `get_session_observations` and `extract_conversation_history_direct` are called by test scripts but not defined in conversation_history.py, so there is nothing to model. The duplicate checker therefore takes the conversation as its input.
- The SQLite session of the agents SDK is foreign. It is modelled as an ordered sequence that `add_items` appends to, so whether `add_items` runs with an empty list is not observable in the model.
