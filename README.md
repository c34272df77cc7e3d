# CozyMind core, modelled in Dafny

CozyMind is a small AI-assistant system with several parts:

- An **AI-Core** Rust service. It hosts an embedded MQTT broker, keeps Ollama conversation contexts, and answers a system-prompt endpoint.
- A **GUI backend** in Rust/actix. It keeps three configuration tables: AI-Core endpoints, Ollama endpoints and message presets.
- A **Vue frontend**. It has five Pinia stores, an API response cache and some performance utilities.
- Shared **message-model crates**: a versioned message envelope and small response records.

This project models the sequential logic of those parts and proves what each promises.

- **Pure Rust code** becomes datatypes and functions. This covers schema versions, the v0 envelope and its event validator, MQTT messages and configuration, and the rust-models records.
- **State the source updates in place** becomes classes, with `modifies` clauses and postconditions that state the whole new state. This covers:
  - the backend tables and their id counters;
  - `APICache` with its FIFO eviction and lazy expiry;
  - the `PerformanceMonitor` window, `memoize` and `dedupeRequest`;
  - every Pinia store;
  - the MQTT broker's client table, running flag and message channel;
  - the Ollama client's context cell;
  - the per-session context store.
- **Inputs from outside the program are parameters.** This covers API results, probe outcomes, clock readings, UUIDs, environment variables and file contents.

One file per source unit:

| file | models |
|---|---|
| `message_v0.dfy`, `schema_version.dfy`, `json.dfy` | `crates/message-models/src/v0.rs`, `version.rs`; JSON as a value datatype |
| `gui_backend.dfy` | `gui/src/main.rs` (`AppState`, `load_data`) and `gui/src/handlers.rs` |
| `api_cache.dfy` | `gui/frontend/src/utils/apiCache.ts` |
| `performance.dfy` | `gui/frontend/src/utils/performance.ts` |
| `store_common.dfy`, `ai_core_store.dfy`, `ollama_store.dfy`, `message_store.dfy`, `chat_store.dfy`, `model_setup_store.dfy` | the Pinia stores |
| `broker.dfy`, `mqtt_message.dfy`, `mqtt_config.dfy` | `ai-core/src/mqtt/broker.rs`, `message.rs`, `config.rs` |
| `ollama_client.dfy`, `system_prompt.dfy`, `env.dfy` | `ai-core/src/ollama_client.rs`, `ai-core/src/system_prompt.rs`; reading environment variables with a default |
| `rust_models.dfy` | `rust-models/src/lib.rs` |
| `wrappers.dfy`, `seqs.dfy`, `text.dfy` | Option/Result, sequence helpers, JavaScript string helpers (`trim`, `toLowerCase`, `includes`, `join`/`split`) |

## Model

| member | source | states |
|---|---|---|
| MessageV0.ChinaTime | crates/message-models/src/v0.rs:30-38 | the default timestamp is the given instant shown at offset UTC+8 |
| MessageV0.DefaultMeta | crates/message-models/src/v0.rs:40-47 | default metadata declares schema "v0", is stamped at UTC+8 and has no extra fields |
| MessageV0.MetaWithChinaTime | crates/message-models/src/v0.rs:57-63 | `with_china_time` builds exactly the default metadata |
| MessageV0.Validate | crates/message-models/src/v0.rs:122-132 | passes iff the event is consistent; fails with the source's message when an ok event lacks data or an error event lacks an error |
| MessageV0.StatusConsistent | crates/message-models/src/v0.rs:122-132 | an ok event carries data and an error event carries an error |
| MessageV0.OkEvent | crates/message-models/src/v0.rs:100-108 | `ok` has status ok, the given data, no error, no extra fields, and always validates |
| MessageV0.ErrorEvent | crates/message-models/src/v0.rs:111-119 | `error` has status error, the given error, no data, and always validates |
| MessageV0.OkWithBothValidates | crates/message-models/src/v0.rs:130 | an ok event carrying both data and an error still validates |
| MessageV0.UserEnvelope | crates/message-models/src/v0.rs:161-168 | `user` pairs type User with text content, default meta, no extra fields |
| MessageV0.EventEnvelope | crates/message-models/src/v0.rs:171-178 | `event` pairs type Event with event content |
| MessageV0.SystemEnvelope | crates/message-models/src/v0.rs:181-188 | `system` pairs type System with object content |
| MessageV0.WithMeta | crates/message-models/src/v0.rs:191-194 | replaces the metadata only; type, content and extra fields are kept, so the type/content pairing is kept |
| MessageV0.DefaultMetaDeclaresV0 | crates/message-models/src/v0.rs:26-28 | an envelope given default metadata declares schema "v0" |
| SchemaVersion.FromStr | crates/message-models/src/version.rs:31-40 | accepts exactly "v0" in either case of the letter; anything else is "Unknown schema version: " followed by the input |
| SchemaVersion.ParseDisplayRoundTrip | crates/message-models/src/version.rs:23-40 | parsing the displayed form of any version gives that version back |
| SchemaVersion.DefaultVersion | crates/message-models/src/version.rs:17-21 | the default version displays as "v0" |
| SchemaVersion.Latest | crates/message-models/src/version.rs:48-51 | the latest version is the default one |
| SchemaVersion.All | crates/message-models/src/version.rs:43-46 | `all` lists one version, the latest |
| SchemaVersion.AllIsComplete | crates/message-models/src/version.rs:43-46 | every version is in `all` |
| SchemaVersion.IsCompatibleWith | crates/message-models/src/version.rs:54-58 | compatible iff the two versions are equal |
| SchemaVersion.CompatibilityIsReflexiveAndSymmetric | crates/message-models/src/version.rs:54-58 | compatibility is reflexive and symmetric |
| SchemaVersion.DetectVersion | crates/message-models/src/version.rs:87-105 | fails iff the text is not JSON; any JSON value is detected as v0, the only version there is |
| SchemaVersion.UnknownDeclaredVersionFallsBack | crates/message-models/src/version.rs:93-104 | a declared `meta.schema_version` that does not parse (such as "v1") is read as v0 |
| SchemaVersion.DeclaredVersionIsDetected | crates/message-models/src/version.rs:93-97 | a declared version that parses is the one detected |
| SchemaVersion.AsV0 | crates/message-models/src/version.rs:129-133 | present iff the envelope is v0, and then it wraps back to the same envelope |
| SchemaVersion.FromJson | crates/message-models/src/version.rs:74-84 | succeeds iff the text is JSON and decodes; the result has the detected version and wraps the decoded envelope |
| SchemaVersion.UpgradeTo | crates/message-models/src/version.rs:143-154 | succeeds iff the target is the envelope's own version, returning it unchanged; otherwise the "Cannot upgrade from … to …" error |
| GuiBackend.RecoveredNextId | gui/src/main.rs:48-50 | the recovered counter is above every loaded id, is one past a loaded id, and is 1 for an empty list |
| GuiBackend.AppState.constructor | gui/src/main.rs:28-39 | all three lists empty, all counters 1, and the freshness invariant holds |
| GuiBackend.AppState.LoadData | gui/src/main.rs:41-94 | each file that was read replaces its own list and recomputes its own counter; an unread file changes neither; freshness kept |
| GuiBackend.AppState.AddAiCore | gui/src/handlers.rs:19-40 | the record gets the counter's id, which no stored record has, is appended, and the counter goes up by one |
| GuiBackend.AppState.UpdateAiCore | gui/src/handlers.rs:44-73 | the first record with the id takes name, url and description and keeps its id; an absent id is NotFound and changes nothing |
| GuiBackend.AppState.DeleteAiCore | gui/src/handlers.rs:77-99 | removes exactly the first record with the id, keeping the order of the rest; an absent id is NotFound |
| GuiBackend.AppState.AddOllamaConfig | gui/src/handlers.rs:330-351 | as AddAiCore, for the Ollama table |
| GuiBackend.AppState.UpdateOllamaConfig | gui/src/handlers.rs:355-384 | as UpdateAiCore, also copying the model |
| GuiBackend.AppState.DeleteOllamaConfig | gui/src/handlers.rs:389-411 | as DeleteAiCore, for the Ollama table |
| GuiBackend.AppState.AddMessage | gui/src/handlers.rs:664-685 | as AddAiCore, for the preset table |
| GuiBackend.AppState.UpdateMessage | gui/src/handlers.rs:689-717 | the first preset with the id takes name, content and category |
| GuiBackend.AppState.DeleteMessage | gui/src/handlers.rs:722-744 | as DeleteAiCore, for the preset table |
| GuiBackend.FailureMessage | gui/src/handlers.rs:114-161 | an unparseable body gives "Invalid response", a request error its own text, a timeout "Request timeout" |
| GuiBackend.CheckConnection | gui/src/handlers.rs:103-163 | the call always succeeds; connected (and a version reported) iff the body parsed; otherwise "offline" with the failure message |
| GuiBackend.CoreCheckItem | gui/src/handlers.rs:177-241 | the item carries the core's id, name and url; "online" iff the health body parsed, else "offline" |
| GuiBackend.OllamaCheckItem | gui/src/handlers.rs:558-632 | the item carries the config's model; "online" with "Connected" iff the body parsed |
| GuiBackend.CollectResults | gui/src/handlers.rs:247-252 | the loop keeps the results of the tasks that joined, in task order |
| GuiBackend.Joined | gui/src/handlers.rs:247-252 | no more results than tasks, and all of them when every task joins |
| GuiBackend.JoinedSkipsFailed | gui/src/handlers.rs:247-252 | a task that fails to join drops its own item and nothing else |
| ApiCache.RemoveKey | gui/frontend/src/utils/apiCache.ts:62-64 | `Map.delete` on the insertion order keeps every other key, in order |
| ApiCache.SetKeys | gui/frontend/src/utils/apiCache.ts:16-28 | after `set` the order is distinct and holds at most 100 keys. It begins with the old keys in their order, minus the first one when the cache was full (even when that is the key being set). A key still among them keeps its place, and a new key is added at the end |
| ApiCache.Lookup | gui/frontend/src/utils/apiCache.ts:30-44 | a value is served iff its key is present and not expired |
| ApiCache.LookupAfterSet | gui/frontend/src/utils/apiCache.ts:16-44 | a value just set is served at that instant iff its ttl is not negative |
| ApiCache.DefaultTtlServesFiveMinutes | gui/frontend/src/utils/apiCache.ts:14-16 | a value set with the default ttl is served until five minutes after it was set, and not after |
| ApiCache.LiveEntries | gui/frontend/src/utils/apiCache.ts:71-79 | exactly the unexpired entries, unchanged |
| ApiCache.LiveKeys | gui/frontend/src/utils/apiCache.ts:71-79 | exactly the keys whose entries are not expired |
| ApiCache.SweepResult | gui/frontend/src/utils/apiCache.ts:71-79 | once the sweep has gone over every key, the entries left are exactly the live ones |
| ApiCache.Cache.constructor | gui/frontend/src/utils/apiCache.ts:11-14 | an empty cache that keeps its invariant |
| ApiCache.Cache.Size | gui/frontend/src/utils/apiCache.ts:82-88 | the size equals the number of keys and is at most 100 |
| ApiCache.Cache.Set | gui/frontend/src/utils/apiCache.ts:16-28 | order follows SetKeys, the evicted key's entry goes, and the key's entry is stamped now with the ttl |
| ApiCache.Cache.SetWithDefaultTtl | gui/frontend/src/utils/apiCache.ts:14-28 | `set` without a ttl stores the entry with the five-minute default |
| ApiCache.Cache.Get | gui/frontend/src/utils/apiCache.ts:30-44 | returns Lookup; an expired key is deleted; anything else leaves the cache unchanged |
| ApiCache.Cache.Has | gui/frontend/src/utils/apiCache.ts:46-60 | true iff Lookup finds a value, with the same deletion of an expired key |
| ApiCache.Cache.Delete | gui/frontend/src/utils/apiCache.ts:62-64 | removes only that key and reports whether it was there |
| ApiCache.Cache.Clear | gui/frontend/src/utils/apiCache.ts:66-68 | empties the cache |
| ApiCache.Cache.Cleanup | gui/frontend/src/utils/apiCache.ts:71-79 | the loop leaves exactly the live entries, with their keys in order |
| ApiCache.GenerateCacheKey | gui/frontend/src/utils/apiCache.ts:124-128 | the prefix and parameters joined with "_" |
| ApiCache.KeyRecoversParts | gui/frontend/src/utils/apiCache.ts:124-128 | without "_" inside the parts, splitting the key on "_" gives them back |
| ApiCache.KeysCanCollide | gui/frontend/src/utils/apiCache.ts:124-128 | with "_" inside the parts, different requests share a key |
| Performance.CeilDiv | gui/frontend/src/utils/performance.ts:99 | `Math.ceil(a / b)`: the least c with a ≤ c·b |
| Performance.GetVisibleRange | gui/frontend/src/utils/performance.ts:91-103 | start ≥ 0 and end ≤ totalItems, with start and end as the source computes them |
| Performance.VisibleItemsAreRendered | gui/frontend/src/utils/performance.ts:91-103 | with a buffer of one row or more, every item overlapping the viewport lies in the range |
| Performance.DefaultBufferRendersVisibleItems | gui/frontend/src/utils/performance.ts:91-103 | with the default buffer of 5 rows, every row overlapping the viewport is in the range |
| Performance.NoBufferCanMissLastRow | gui/frontend/src/utils/performance.ts:91-103 | with buffer 0, a partly visible row can fall outside the range |
| Performance.RangeCanBeInverted | gui/frontend/src/utils/performance.ts:98-100 | start can exceed end, for example with no items |
| Performance.LastN | gui/frontend/src/utils/performance.ts:127-133 | the last min(n, length) samples, in order |
| Performance.LastNAppend | gui/frontend/src/utils/performance.ts:127-133 | push, then shift once when over the limit, keeps the last n samples of the whole history |
| Performance.PerformanceMonitor.constructor | gui/frontend/src/utils/performance.ts:108 | no metrics |
| Performance.PerformanceMonitor.Record | gui/frontend/src/utils/performance.ts:117-137 | the metric becomes the last 100 durations ever recorded under its name; other metrics unchanged |
| Performance.PerformanceMonitor.AverageTime | gui/frontend/src/utils/performance.ts:139-144 | 0 for an absent or empty metric, otherwise the mean of its samples |
| Performance.PerformanceMonitor.GetMetrics | gui/frontend/src/utils/performance.ts:146-157 | one summary per metric, with count equal to the number of samples and average equal to AverageTime |
| Performance.Memoized.constructor | gui/frontend/src/utils/performance.ts:64-68 | an empty cache and no calls yet |
| Performance.Memoized.Call | gui/frontend/src/utils/performance.ts:70-80 | a cached key is answered from the cache without calling; a new key calls the function once and caches the result; the function has run once per cached key |
| Performance.Deduper.constructor | gui/frontend/src/utils/performance.ts:45 | nothing pending |
| Performance.Deduper.Request | gui/frontend/src/utils/performance.ts:47-61 | a pending key returns its promise and starts nothing; otherwise the new promise is started and becomes pending |
| Performance.Deduper.Settle | gui/frontend/src/utils/performance.ts:55-57 | a settled request is no longer pending |
| StoreCommon.ErrorText | gui/frontend/src/stores/aiCoreStore.ts:32 | an `Error`'s message, or the store's fallback text for anything else thrown |
| StoreCommon.OrUndefined | gui/frontend/src/stores/modelSetupStore.ts:96 | an empty string becomes undefined; any other is kept |
| AiCoreStore.StatusViewsPartition | gui/frontend/src/stores/aiCoreStore.ts:14-20 | online and offline views are disjoint, hold only entries with that status, omit unchecked entries, and with the unchecked entries count the list |
| AiCoreStore.OnlineCores | gui/frontend/src/stores/aiCoreStore.ts:13-15 | exactly the entries whose status is online |
| AiCoreStore.OfflineCores | gui/frontend/src/stores/aiCoreStore.ts:17-19 | exactly the entries whose status is offline |
| AiCoreStore.UncheckedCores | gui/frontend/src/stores/aiCoreStore.ts:13-19 | exactly the entries without a status, which neither view shows |
| AiCoreStore.FindById | gui/frontend/src/stores/aiCoreStore.ts:129-131 | the first entry with the id, and none iff no entry has it |
| AiCoreStore.Store.constructor | gui/frontend/src/stores/aiCoreStore.ts:8-11 | empty list, not loading, no error, no check results |
| AiCoreStore.Store.Load | gui/frontend/src/stores/aiCoreStore.ts:23-37 | a fetched list replaces the old one; a failure keeps it and records the error text; loading ends false |
| AiCoreStore.Store.Add | gui/frontend/src/stores/aiCoreStore.ts:39-55 | appends the returned record, or records the error and rethrows |
| AiCoreStore.Store.Update | gui/frontend/src/stores/aiCoreStore.ts:57-76 | replaces the first entry with the id; no change for an absent id or a failure |
| AiCoreStore.Store.Delete | gui/frontend/src/stores/aiCoreStore.ts:78-94 | drops every entry with the id and its check result, keeping the rest |
| AiCoreStore.Store.CheckConnection | gui/frontend/src/stores/aiCoreStore.ts:96-117 | the first entry with the id takes status, response time and check time; the result is stored under the id; a failure changes nothing |
| OllamaStore.StatusViewsPartition | gui/frontend/src/stores/ollamaStore.ts:14-20 | as AiCoreStore.StatusViewsPartition, for Ollama configs |
| OllamaStore.OnlineConfigs | gui/frontend/src/stores/ollamaStore.ts:13-15 | exactly the configs whose status is online |
| OllamaStore.OfflineConfigs | gui/frontend/src/stores/ollamaStore.ts:17-19 | exactly the configs whose status is offline |
| OllamaStore.UncheckedConfigs | gui/frontend/src/stores/ollamaStore.ts:13-19 | exactly the configs without a status, which neither view shows |
| OllamaStore.FindById | gui/frontend/src/stores/ollamaStore.ts:129-131 | the first config with the id |
| OllamaStore.Store.constructor | gui/frontend/src/stores/ollamaStore.ts:8-11 | empty state |
| OllamaStore.Store.Load | gui/frontend/src/stores/ollamaStore.ts:23-37 | as AiCoreStore.Store.Load |
| OllamaStore.Store.Add | gui/frontend/src/stores/ollamaStore.ts:39-55 | as AiCoreStore.Store.Add |
| OllamaStore.Store.Update | gui/frontend/src/stores/ollamaStore.ts:57-76 | as AiCoreStore.Store.Update |
| OllamaStore.Store.Delete | gui/frontend/src/stores/ollamaStore.ts:78-94 | as AiCoreStore.Store.Delete |
| OllamaStore.Store.CheckConnection | gui/frontend/src/stores/ollamaStore.ts:96-117 | as AiCoreStore.Store.CheckConnection |
| MessageStore.OfType | gui/frontend/src/stores/messageStore.ts:127-129 | exactly the presets of that type |
| MessageStore.TypeViewsDisjoint | gui/frontend/src/stores/messageStore.ts:16-26 | the system, user and assistant views share no preset and together hold no more than the list |
| MessageStore.Search | gui/frontend/src/stores/messageStore.ts:131-140 | a blank query returns every preset; otherwise exactly those whose title, content or tags contain the lowered query |
| MessageStore.Matches | gui/frontend/src/stores/messageStore.ts:134-139 | the lowered title, the lowered content or the lowered non-empty tags contain the query |
| MessageStore.SearchIgnoresQueryCase | gui/frontend/src/stores/messageStore.ts:134-139 | queries that lower to the same text give the same result |
| MessageStore.QueryIsNotTrimmed | gui/frontend/src/stores/messageStore.ts:134-139 | the query is not trimmed: " foo" does not find "foo" |
| MessageStore.Store.constructor | gui/frontend/src/stores/messageStore.ts:8-12 | empty state with last load time 0 |
| MessageStore.UseCached | gui/frontend/src/stores/messageStore.ts:38 | not forced, a non-empty list, and less than five minutes since the last load |
| MessageStore.Store.LoadMessages | gui/frontend/src/stores/messageStore.ts:35-57 | skips the fetch iff it is not forced, the list is non-empty and less than five minutes have passed; a fetch sets list and time, a failure keeps both |
| MessageStore.Store.Add | gui/frontend/src/stores/messageStore.ts:59-75 | appends the returned preset, or records the error and rethrows |
| MessageStore.Store.Update | gui/frontend/src/stores/messageStore.ts:77-96 | replaces the first preset with the id; no change when absent |
| MessageStore.Store.Delete | gui/frontend/src/stores/messageStore.ts:98-116 | drops the id's presets, and clears the selection iff it had that id |
| MessageStore.Store.Select | gui/frontend/src/stores/messageStore.ts:118-121 | sets the selection |
| MessageStore.Store.GetById | gui/frontend/src/stores/messageStore.ts:123-125 | the first preset with the id, and none iff no preset has it |
| ChatStore.IndexOfMessage | gui/frontend/src/stores/chatStore.ts:143 | `findIndex`: the first message with the id, none iff there is none |
| ChatStore.OfSession | gui/frontend/src/stores/chatStore.ts:26 | exactly the messages of the session |
| ChatStore.CurrentMessages | gui/frontend/src/stores/chatStore.ts:25-27 | no messages without a current session, else that session's messages |
| ChatStore.CurrentSession | gui/frontend/src/stores/chatStore.ts:20-23 | none for a null or empty id; otherwise none iff no session has the id, else the first session with it |
| ChatStore.SelectedAiCore | gui/frontend/src/stores/chatStore.ts:33-35 | an online core from the list, and none iff no core is online |
| ChatStore.SelectedIsFirstAvailable | gui/frontend/src/stores/chatStore.ts:29-35 | the selected core is the head of the available (online) cores |
| ChatStore.ReloadedSessionView | gui/frontend/src/stores/chatStore.ts:60-61 | after a reload, the session's view is exactly the loaded messages of that session |
| ChatStore.MarkFirst | gui/frontend/src/stores/chatStore.ts:143-146 | only the first message with the id takes the status; nothing changes when none has it |
| ChatStore.SessionOrUndefined | gui/frontend/src/stores/chatStore.ts:127 | a null or empty current id becomes undefined |
| ChatStore.FreshIdMarksOwnMessage | gui/frontend/src/stores/chatStore.ts:121-146 | with a new client id, the send marks the user's own message |
| ChatStore.ReusedIdMarksOlderMessage | gui/frontend/src/stores/chatStore.ts:122 | an id reused within one millisecond marks an older message instead |
| ChatStore.Store.constructor | gui/frontend/src/stores/chatStore.ts:9-14 | empty state, no current session |
| ChatStore.Store.LoadSessions | gui/frontend/src/stores/chatStore.ts:38-51 | replaces the session list, or keeps it and records the error |
| ChatStore.Store.LoadSessionMessages | gui/frontend/src/stores/chatStore.ts:53-68 | drops the session's old messages and appends the loaded ones, keeping other sessions' messages |
| ChatStore.Store.CreateSession | gui/frontend/src/stores/chatStore.ts:70-87 | the new session goes first and becomes current with no messages |
| ChatStore.Store.DeleteSession | gui/frontend/src/stores/chatStore.ts:89-109 | removes the session; clears the current id and messages iff it was current |
| ChatStore.Store.SelectSession | gui/frontend/src/stores/chatStore.ts:111-114 | the session becomes current. A load replaces that session's messages with the loaded ones after the other sessions' messages and clears the error. A failure keeps the messages and records the error text |
| ChatStore.Store.SendMessage | gui/frontend/src/stores/chatStore.ts:116-176 | no online core: throws and changes nothing. Otherwise the user message goes in as sending. On success it is marked sent, the reply is appended and the session is set only when none was current. On failure it is marked failed and the error is recorded |
| ChatStore.Store.ClearMessages | gui/frontend/src/stores/chatStore.ts:178-180 | no messages |
| ModelSetupStore.Count | gui/frontend/src/stores/modelSetupStore.ts:23-27 | the number of items with an outcome is at most the history length |
| ModelSetupStore.CountsCoverHistory | gui/frontend/src/stores/modelSetupStore.ts:23-27 | success and error counts add up to the history length |
| ModelSetupStore.CountPrepend | gui/frontend/src/stores/modelSetupStore.ts:119-121 | prepending an item counts it under its own outcome only |
| ModelSetupStore.CanSend | gui/frontend/src/stores/modelSetupStore.ts:51-56 | a truthy core id, a prompt that is not all JavaScript whitespace, and not loading |
| ModelSetupStore.CoreName | gui/frontend/src/stores/modelSetupStore.ts:34-37 | the selected core's name, or "未知服务" when nothing usable is selected; never empty |
| ModelSetupStore.AutoSelected | gui/frontend/src/stores/modelSetupStore.ts:181-187 | a truthy selection is kept; otherwise the first online core, or no change when none is online |
| ModelSetupStore.AutoSelectIsOnlineAndStable | gui/frontend/src/stores/modelSetupStore.ts:181-187 | a selection made automatically is of an online core, and a second run changes nothing |
| ModelSetupStore.RequestFor | gui/frontend/src/stores/modelSetupStore.ts:93-97 | the request carries the core id and the trimmed prompt; an empty session id is sent as undefined |
| ModelSetupStore.ItemFor | gui/frontend/src/stores/modelSetupStore.ts:108-140 | the history item repeats the request; success carries the response time, failure the error text |
| ModelSetupStore.Counted | gui/frontend/src/stores/modelSetupStore.ts:120-121 | sent goes up by one, with success or fail |
| ModelSetupStore.RecordKeepsCounts | gui/frontend/src/stores/modelSetupStore.ts:119-121 | prepending an item and counting it keeps sent = success + fail = history length |
| ModelSetupStore.Store.constructor | gui/frontend/src/stores/modelSetupStore.ts:16-27 | empty prompt and history, zero stats, invariant holds |
| ModelSetupStore.Store.SetSystemPrompt | gui/frontend/src/stores/modelSetupStore.ts:59-61 | sets the prompt |
| ModelSetupStore.Store.SetSelectedAiCore | gui/frontend/src/stores/modelSetupStore.ts:63-65 | sets the selection |
| ModelSetupStore.Store.SetSessionId | gui/frontend/src/stores/modelSetupStore.ts:67-69 | sets the session id |
| ModelSetupStore.Store.ClearHistory | gui/frontend/src/stores/modelSetupStore.ts:75-78 | empty history, zero stats, invariant kept |
| ModelSetupStore.Store.SendSystemPrompt | gui/frontend/src/stores/modelSetupStore.ts:80-158 | when CanSend fails: returns null and changes nothing. Otherwise one item is prepended and counted, a failure records the error and rethrows, loading ends false, and the invariant is kept |
| ModelSetupStore.Store.Settle | gui/frontend/src/stores/modelSetupStore.ts:89-157 | loading is set for the post and ends false; success clears the error and returns the response, failure records the error text and rethrows; the item is prepended and counted, invariant kept |
| ModelSetupStore.Store.Record | gui/frontend/src/stores/modelSetupStore.ts:119-121 | unshift of the item with the matching stats increments, invariant kept |
| ModelSetupStore.Store.LoadAiCores | gui/frontend/src/stores/modelSetupStore.ts:176-188 | the selection becomes AutoSelected |
| ModelSetupStore.Store.GetHistoryById | gui/frontend/src/stores/modelSetupStore.ts:194-196 | the first history item with the id, none iff no item has it |
| ModelSetupStore.FirstWithId | gui/frontend/src/stores/modelSetupStore.ts:195 | `find` by id: the first item with the id, none iff none has it |
| MqttBroker.TotalWithout | ai-core/src/mqtt/broker.rs:213-221 | the subscription total is any one client's count plus the total of the others |
| MqttBroker.TotalAfterInsert | ai-core/src/mqtt/broker.rs:172-190 | inserting or replacing a client changes the total by the difference of its subscriptions |
| MqttBroker.Broker.constructor | ai-core/src/mqtt/broker.rs:28-38 | not running, no clients, channel open with the receiver still in its cell |
| MqttBroker.Broker.Start | ai-core/src/mqtt/broker.rs:42-64 | running, broker created, the handler takes the receiver if it is still there |
| MqttBroker.Broker.Stop | ai-core/src/mqtt/broker.rs:67-90 | not running, sender closed, client table empty |
| MqttBroker.Broker.IsRunning | ai-core/src/mqtt/broker.rs:93-96 | the running flag |
| MqttBroker.Broker.ClientCount | ai-core/src/mqtt/broker.rs:99-102 | the number of entries in the table |
| MqttBroker.Broker.ConnectedClients | ai-core/src/mqtt/broker.rs:105-108 | exactly the table's entries |
| MqttBroker.Broker.Publish | ai-core/src/mqtt/broker.rs:111-120 | closed sender: "Message channel is closed"; no receiver left: "Failed to send message"; otherwise queued |
| MqttBroker.Broker.HandlerStep | ai-core/src/mqtt/broker.rs:134-169 | takes the oldest queued message; while running, updates its sender's `last_seen`; ends once the channel is closed and drained |
| MqttBroker.Broker.AddClient | ai-core/src/mqtt/broker.rs:172-190 | inserts or replaces the entry, connected and seen now |
| MqttBroker.Broker.RemoveClient | ai-core/src/mqtt/broker.rs:193-198 | removes only that id, reporting whether it was there |
| MqttBroker.Broker.UpdateClientSubscriptions | ai-core/src/mqtt/broker.rs:201-210 | an existing entry gets the subscriptions and `last_seen`; an absent id changes nothing |
| MqttBroker.Broker.GetStats | ai-core/src/mqtt/broker.rs:213-229 | running flag, table size, summed subscriptions, listen address, uptime 0 |
| MqttBroker.StopThenStartStaysClosed | ai-core/src/mqtt/broker.rs:42-120 | after stop then start the broker runs, but publish still fails with "Message channel is closed" |
| OllamaClient.SendRequest | ai-core/src/ollama_client.rs:82-98 | ok iff there was an answer with a 2xx status and a decodable body; a non-2xx status is an HTTP error |
| OllamaClient.BaseUrlFromEnv | ai-core/src/ollama_client.rs:26-33 | "http://", the host, ":" and the port, each taken from its variable when set or from its default (127.0.0.1, 11434) otherwise |
| OllamaClient.Client.constructor | ai-core/src/ollama_client.rs:17-23 | the base URL, no context |
| OllamaClient.Client.GenerateUrl | ai-core/src/ollama_client.rs:83 | the base URL followed by "/api/generate" |
| OllamaClient.Client.GetContext | ai-core/src/ollama_client.rs:101-104 | the stored context |
| OllamaClient.Client.ClearContext | ai-core/src/ollama_client.rs:107-110 | no context |
| OllamaClient.Client.SetContext | ai-core/src/ollama_client.rs:113-116 | the given context is stored |
| OllamaClient.Client.Ask | ai-core/src/ollama_client.rs:36-79 | the request carries the stored context, or none for a new session; the context is replaced iff the decoded response has one; errors pass through |
| SystemPrompt.PreviewAsWritten | ai-core/src/system_prompt.rs:88-92 | a prompt of at most 20 bytes is its own preview. A longer prompt panics (none) iff byte 20 is not a character boundary, and otherwise previews as its first 20 bytes. Any preview is a prefix |
| SystemPrompt.BoundaryFound | ai-core/src/system_prompt.rs:88-92 | the byte length of any run of leading characters is a character boundary |
| SystemPrompt.PreviewPanicsIff | ai-core/src/system_prompt.rs:88-92 | a prompt longer than 20 bytes makes the slice panic iff no run of leading characters takes exactly 20 bytes |
| SystemPrompt.ByteSliceIsNotCharPreview | ai-core/src/system_prompt.rs:87-92 | on "你是一个helpful!的AI助手" the slice does not panic but keeps 12 characters, where the character preview keeps all 17 |
| SystemPrompt.StraddledHasNoBoundary | ai-core/src/system_prompt.rs:88-92 | a byte offset strictly inside a character's encoding is not a character boundary |
| SystemPrompt.DocExamplePanics | ai-core/src/system_prompt.rs:88-92 | the byte slice panics on "你是一个helpful的AI助手" |
| SystemPrompt.AsciiPreviewAgrees | ai-core/src/system_prompt.rs:88-92 | on ASCII prompts the written slice equals the corrected preview |
| SystemPrompt.Preview | ai-core/src/system_prompt.rs:88-92 | a prefix of at most 20 characters, the whole prompt when shorter, exactly 20 when longer |
| Env.EnvOr | ai-core/src/system_prompt.rs:104-105 | the variable's value when set, else the default |
| SystemPrompt.GenerateUrl | ai-core/src/system_prompt.rs:104-106 | the handler posts to the base URL an `OllamaClient` built by `from_env` has, followed by "/api/generate" |
| SystemPrompt.DefaultGenerateUrl | ai-core/src/system_prompt.rs:104-106 | with neither variable set, "http://" + "127.0.0.1" + ":" + "11434" + "/api/generate" |
| SystemPrompt.SessionStore.constructor | ai-core/src/system_prompt.rs:47-51 | no sessions |
| SystemPrompt.SessionStore.GetContext | ai-core/src/system_prompt.rs:54-57 | the session's context iff one was saved |
| SystemPrompt.SessionStore.SaveContext | ai-core/src/system_prompt.rs:60-63 | overwrites the session's context, which is then what GetContext returns |
| SystemPrompt.SetSystemPrompt | ai-core/src/system_prompt.rs:78-173 | when the byte-slice preview panics: a panic, no request and no change to the store. Otherwise the session id is the request's or a fresh one. The POST goes to GenerateUrl and carries the byte-slice preview as prompt, the whole prompt as system text and the session's stored context. A context is saved only when the parsed response has one. The two failure texts are as in the source |
| SystemPrompt.DocExampleRequestPanics | ai-core/src/system_prompt.rs:66-92 | the handler's own doc example panics without a POST and without touching the store |
| MqttMessage.New | ai-core/src/mqtt/message.rs:25-38 | keeps topic, payload and qos; not retained; no client id |
| MqttMessage.WithClientId | ai-core/src/mqtt/message.rs:41-44 | sets the client id and nothing else |
| MqttMessage.WithRetain | ai-core/src/mqtt/message.rs:47-50 | sets retain and nothing else |
| MqttMessage.BuildersCommute | ai-core/src/mqtt/message.rs:41-50 | the two builders commute, and each overrides an earlier call of itself |
| MqttMessage.BuiltMessageKeepsContent | ai-core/src/mqtt/message.rs:25-50 | a message built with both builders keeps what `new` was given and carries the client id and retain flag |
| MqttConfig.Default | ai-core/src/mqtt/config.rs:22-33 | host "0.0.0.0", port 1883, 1000 connections, timeout 300, keep-alive 60, persistence on, log "info" |
| MqttConfig.New | ai-core/src/mqtt/config.rs:38-44 | host and port as given, every other field the default |
| MqttConfig.Decimal | ai-core/src/mqtt/config.rs:48 | decimal digits of the port, with no leading zero |
| MqttConfig.DecimalRoundTrip | ai-core/src/mqtt/config.rs:48 | reading the printed number gives it back |
| MqttConfig.ListenAddr | ai-core/src/mqtt/config.rs:47-49 | the host, a colon and the port in decimal |
| MqttConfig.ListenAddrEndsWithPort | ai-core/src/mqtt/config.rs:47-49 | the address is the host, a colon and the port's digits, and the port can be read back after the colon |
| MqttConfig.DefaultListenAddr | ai-core/src/mqtt/config.rs:22-49 | the default address is "0.0.0.0:1883" |
| RustModels.NewMessage | rust-models/src/lib.rs:13-19 | id, content and timestamp are kept |
| RustModels.Success | rust-models/src/lib.rs:32-38 | success, with data and no error |
| RustModels.Error | rust-models/src/lib.rs:41-47 | failure, with the error and no data |
| RustModels.ConstructedResponsesAreWellFormed | rust-models/src/lib.rs:32-47 | a response is well formed (success iff data iff no error) iff one of the two constructors built it |

## Left out

- **I/O, time and identifiers.** The following are parameters and are not modelled:
  - file reads and every `save_*` in `gui/src/main.rs` (a read file is `Option<list>`);
  - HTTP, reqwest and axios calls (each is a resolved or rejected outcome);
  - `Date.now()`, `SystemTime::now()` and chrono clocks;
  - UUIDs;
  - `std::env::var`.
- **Concurrency.** The actix/tokio task runtime and the interleaving of awaits are not modelled.
  - The broker's handler task is one step method, `HandlerStep`.
  - The stores' `checkAllConnections` run many checks concurrently and are not modelled.
- **serde encoding and decoding** are not modelled. This covers `to_json`/`from_json` bodies, `payload_as_string`, `payload_as_json`, `publish_json` and untagged content selection. A decoded value enters as a parameter.
- **Fixed-width integers.** The i32 ids in the backend tables are unbounded `int`, so counter overflow is not modelled. The JavaScript numbers in the stores are `int` too.
- `Text.Lower`: `toLowerCase` is modelled on ASCII letters only. Other Unicode case mappings are not modelled.
- **Floating point.**
  - `PerformanceMonitor` durations and averages are exact reals, not IEEE doubles.
  - `getVisibleRange` takes integer pixel values and needs `itemHeight > 0`. Its default buffer is `Performance.DefaultBuffer`, passed explicitly. The source divides by it, and a zero height would give Infinity or NaN.
  - The ollama-models duration conversions and formatting are not modelled.
- **Timers and the UI.** These are not modelled: the `setInterval` cleanup in `apiCache.ts`, `debounce`, `throttle`, `batchUpdate`, the `cached` decorator, `PerformanceMonitor.getInstance`, console logging and `ElMessage` toasts.
- **Fields not modelled.**
  - `ApiCache.Cache.Size`: of `getStats`, only `size` is modelled; `maxSize` and the key array are left out.
  - `MqttBroker.Broker.GetStats`: `uptime` is always 0 in the source and stays 0 here.
- **Probes.** `get_ai_core_info`, `check_ollama_status` and `test_ollama` are not modelled. Like `check_connection`, they are HTTP probes, and the outcome-to-status mapping they share is modelled once.
- **Simple getters.** `get_ai_cores`, `get_ollama_configs` and `get_messages` return their list and are not modelled separately.
- **Store members not modelled.**
  - These are single assignments: `clearError`, `clearSystemPrompt`, `selectMessageForPrompt` (it is SetSystemPrompt) and modelSetup's `loadMessages` wrapper.
  - `selectMessageAndSend` is SetSystemPrompt followed by SendSystemPrompt.
  - `charCount` is a UTF-16 length.
  - These computeds only forward another store's state: modelSetup's `messages`, `availableAiCores` and `systemMessages`.
  - chatStore's `isConnected` is never written by the store.
- **Preset and chat-message fields.** A message preset and a chat message keep only the fields the stores read: id, title, content, type and tags; and id, content, role, timestamp, status and session id. `types/api.ts` does not declare them.
- `OllamaClient.Client.Ask`: clones of a client share one context cell in the source. The model has one object, so sharing between clones is not modelled. An HTTP error is reported by its status code, without the display text.
- `ApiCache.GenerateCacheKey`: each parameter arrives already turned into its string. The conversion (`JSON.stringify` for objects, `String(p)` otherwise) is not modelled.
- `SchemaVersion.DetectVersion`: the text-to-JSON step is a parameter (`None` for text that is not JSON).
- **Other repository parts.** These are not part of this model: the MQTT client wrappers, `ai-core/src/main.rs` routing, `broker/src/main.rs`, `gui/server.js`, `gui/public/app.js` and `ai-core/src/ollama_client_backup.rs`.

## Findings

| source | as written | input that shows it | evidently intended | confidence | as-written member | corrected member |
|---|---|---|---|---|---|---|
| ai-core/src/system_prompt.rs:88-92 | the preview is the byte slice `&prompt[..20]` when the prompt is longer than 20 bytes, which panics when byte 20 falls inside a multi-byte character | "你是一个helpful的AI助手" (4×3 + 7 + 3 bytes puts byte 20 inside 的) | the first 20 characters of the prompt, as its comment says | not executed | SystemPrompt.DocExamplePanics | SystemPrompt.Preview |
