# A verified model of the elect chat-completion gateway

elect is a small HTTP gateway. It accepts OpenAI-style chat-completion requests and forwards
each one to one of several interchangeable LLM providers (Groq and Cerebras are built in; more
can be registered). It also keeps an optional in-memory conversation history per session.

This project models the gateway's decision logic in Dafny and proves properties of it:

- **Registry** (`config.dfy`, module `Config`). Holds the built-in providers and routes, and the
  registration function that merges new entries into them.
- **Provider executor** (`executor.dfy`, module `Executor`):
  - the body and headers sent to a provider;
  - the classification of a provider's failure as a rate limit or a generic error;
  - the loop that forwards the chunks of a successful answer and then releases the reader lock.
- **Load balancer** (`balancer.dfy`, module `Balancer`):
  - the circuit breaker, which filters providers that are cooling down and falls open when none
    is left;
  - the scheduler, which puts the preferred provider first or rotates round-robin per model;
  - the failover loop, which tries each ordered candidate once, opens a five-minute cooldown
    after a rate limit, serves the first success and otherwise answers 503.
- **Session store** (`sessions.dfy`, module `Sessions`). A `ContextManager` class over a map of
  sessions and their insertion order:
  - get-or-create;
  - appending to a history;
  - reading a history;
  - deleting a session;
  - listing and statistics;
  - the clean-up run after every creation, which sweeps sessions idle for more than 24 hours and
    then trims the least recently used ones down to 1000.
- **Context handler** (`handler.dfy`, module `Handler`):
  - the chat endpoint, which puts the stored history before the new messages and deletes the two
    session fields; it records the user messages and the assistant's answer after a successful,
    non-streamed exchange, and tags the reply with the session id;
  - the session information, deletion and listing endpoints.

Shared values are in `types.dfy` (module `Types`):

- requests, with a passthrough map for the fields the gateway does not read;
- messages and sessions;
- provider configurations and route steps;
- the constants: cooldown 300000 ms, session timeout 86400000 ms, capacity 1000.

The world outside the gateway becomes parameters:

- **Clock.** The current time is a parameter `now` in milliseconds.
- **Provider answers.** These are an oracle `answer: nat -> Upstream`, indexed by the position of
  the attempt in the ordered candidate list. An answer is either a status with a body text, or a
  connection failure with a message.
- **Generated session id.** This is a parameter `freshId` that names no live session.
- **Parsed JSON.** The request body and the completion body come as `Decoded` values: the parsed
  value, or the parser's error message.

Header names are kept lower-cased, as the platform's `Headers` class stores them.

## Model

| member | source | states |
|---|---|---|
| Config.InitialTables | config.ts:17-28 | The built-in providers are exactly `groq` and `cerebras`. A `default` route exists. Every built-in route has two steps, and each step names a built-in provider. |
| Config.Registry.constructor | default.ts:1-43 | The registry starts with the built-in provider and route tables. |
| Config.Registry.RegisterProviders | config.ts:53-73 | Given providers: each named provider now maps to its new configuration, and every other provider keeps its old one. Given routes: the same holds for routes. An absent part leaves its table unchanged. |
| Executor.OutboundPayloadFields | ProviderExecutor.ts:33-49 | The body sent to a provider is the request object without `custom_providers`, `preferred_provider`, `session_id` and `use_context`, with `model` overwritten by the target model. |
| Executor.OutboundPayloadHasNoControlField | ProviderExecutor.ts:33-49 | No control field reaches a provider. `model` is the target model. Every other field of the request is sent unchanged. |
| Executor.BuildHeaders | ProviderExecutor.ts:41-45 | Outbound headers are `authorization` = "Bearer " + key and `content-type` = application/json, with no `host` and no `content-length`. Every other inbound header is kept with its value. |
| Executor.LowerSlice | ProviderExecutor.ts:64-65 | Lower-casing commutes with taking a slice, so a marker found in a lower-cased slice is found in the lower-cased body. |
| Executor.Contains | ProviderExecutor.ts:64-65 | The substring test holds iff the pattern occurs at some index. |
| Executor.Execute | ProviderExecutor.ts:58-71 | A 2xx answer is delivered with its status. A non-2xx answer is a rate limit iff its status is 429 or 402, or its lower-cased body contains "rate limit" or "quota exceeded". The rate-limit and generic error messages carry the provider name, and the generic one also carries the status. A connection failure keeps its own message. |
| Executor.MarkerInAnyCase | ProviderExecutor.ts:61-67 | A failed answer whose body contains either marker, in any letter case, is classified as a rate limit. |
| Executor.ExecuteRequest | ProviderExecutor.ts:26-72 | The request goes to the provider's URL with the outbound payload and the bearer headers. Every other inbound header is forwarded unchanged. The verdict is the classification of the answer. |
| Executor.Reader.ReadNext | ProviderExecutor.ts:14 | Each read returns the next recorded read result; past the end it reports the end of the body. |
| Executor.Reader.ReleaseLock | ProviderExecutor.ts:19 | Releasing the reader counts one release. |
| Executor.DrainAll | ProviderExecutor.ts:12-20 | A consumer that never cancels receives every present chunk before the first end marker or failed read, in order. The loop ends as that read says. |
| Executor.DrainLimited | ProviderExecutor.ts:12-20 | A consumer that cancels after k chunks receives a prefix, at most k chunks long, of what a patient consumer receives. |
| Executor.Pump | ProviderExecutor.ts:12-20 | The loop over a reader at the start of the body yields exactly the chunks and the ending that the read sequence determines, and releases the lock once. |
| Executor.StreamResponse | ProviderExecutor.ts:7-21 | The forwarding loop yields exactly what the read sequence determines: no reader means no body, and cancelling before the first chunk means the loop never starts. The reader lock is released exactly once whenever the loop started. |
| Balancer.ActiveMembers | loadbalancer.ts:34-44 | The filter keeps exactly the steps whose provider has no cooldown deadline after `now`. It is empty iff every step is cooling down. |
| Balancer.ActiveAppend | loadbalancer.ts:34-44 | Filtering commutes with concatenation, so the kept steps stay in their original order. |
| Balancer.TripThenRecover | loadbalancer.ts:146-147 | After a trip at t0, the provider is skipped exactly while t < t0 + 300000, and is eligible again from the deadline on. |
| Balancer.FindProvider | loadbalancer.ts:57-59 | The result is the first index of a step of the provider, or none when no step has it. |
| Balancer.MoveToFront | loadbalancer.ts:64-67 | The chosen step comes first, followed by the others in their original order. The result is a permutation. |
| Balancer.RotateLeft | loadbalancer.ts:83-86 | Element j of the rotation is element (j + k) mod n of the input. The result is a permutation. |
| Balancer.RotationFairness | loadbalancer.ts:76-86 | Over n consecutive rotations of an n-element list, with counters c to c+n-1, every element comes first exactly once. |
| Balancer.SystemRoutesNeverEmpty | loadbalancer.ts:106-107 | With the built-in table, every model name resolves to a two-step route, through the `default` fallback if needed. |
| Balancer.MergeProviders | loadbalancer.ts:108-111 | The providers of the request override the registry key by key. Other providers keep their configuration. |
| Balancer.FailoverOutcome | loadbalancer.ts:123-165 | The loop serves the first configured step whose provider answers successfully. If there is none, it reports the message of the last configured step's failure. |
| Balancer.FailoverCooldowns | loadbalancer.ts:146-153 | The loop sets a cooldown of now + 300000 for exactly the providers that reported a rate limit among the attempted steps. Every other cooldown entry stays as it was. |
| Balancer.ReplyFor | loadbalancer.ts:135-165 | A served step gives status 200 with `x-provider-used` naming its provider. Exhaustion gives 503 "Todos los proveedores fallaron" with the last error as detail. |
| Balancer.LoadBalancer.constructor | loadbalancer.ts:15-17 | A new balancer has no rotation counters and no cooldowns. |
| Balancer.Prioritize | loadbalancer.ts:26-94 | Fail-open: with no active step the order is the route itself. Otherwise it is a permutation of the active steps. An active step of the preferred provider comes first. When rotating, the active step at counter mod n comes first. |
| Balancer.PrioritizedFromRoute | loadbalancer.ts:26-94 | Every step tried is a step of the route, every active step is tried, and the order is a permutation of the route or of its active part. |
| Balancer.LoadBalancer.GetPrioritizedSteps | loadbalancer.ts:26-94 | The order is Balancer.Prioritize of the route, its active part and the model's counter before the call. The model's counter advances by one exactly when the scheduler rotates (some step is active and no active step is of the preferred provider). Otherwise no counter changes. |
| Balancer.LoadBalancer.RunFailover | loadbalancer.ts:120-157 | The loop's outcome and cooldowns are those of the failover function, which FailoverOutcome and FailoverCooldowns characterise. |
| Balancer.ResolveRoute | loadbalancer.ts:106-107 | The route is the model's own entry when it has one (even an empty one), else the `default` entry, else no candidates. |
| Balancer.FailoverFrom | loadbalancer.ts:120-157 | A served step is one of the steps from the start index on, and its provider is configured. Existing cooldown entries are never removed. |
| Balancer.DispatchSound | loadbalancer.ts:99-166 | For every request: the reply is 200 from a configured step of the route with `x-provider-used` naming it, or 503 "all providers failed", always 503 for an empty route. Only the requested model's counter moves, by at most one. Cooldown entries are only added or set to now + 300000. |
| Balancer.LoadBalancer.ProcessRequest | loadbalancer.ts:99-166 | The reply, the counters and the cooldowns afterwards are exactly those of one request in Balancer.Dispatch: the failover loop over Prioritize of the route's active steps, with the model's counter advanced exactly when the scheduler rotates. Hence the reply is 200 from a route step whose provider is configured, with `x-provider-used` naming it, or 503 "all providers failed". An empty route gives 503. Only the requested model's counter can change, by at most one. Cooldown entries are only added or set to now + 300000. |
| Balancer.LoadBalancer.HandleRequest | loadbalancer.ts:171-180 | A body that does not parse gets 400 "JSON Inválido" and leaves the balancer unchanged. Any other body is answered 200 or 503, and the reply and the new state are exactly those of Balancer.Dispatch for it. |
| Sessions.ContextManager.constructor | context-manager.ts:10-12 | The store starts empty. |
| Sessions.ContextManager.GetOrCreateSession | context-manager.ts:24-44 | A live, non-empty id is touched (`lastUsed := now`); nothing else changes. Otherwise a new empty session with createdAt = lastUsed = now is filed under the given id, or under the generated id when none is given. The clean-up then runs and keeps the new session. An expired session that is still stored is revived by the touch, because the expiry sweep runs only when a session is created. It removes every expired session, keeps the others unchanged, holds min(unexpired + 1, 1000) sessions, and every unexpired session it removes was used no later than any it keeps. |
| Sessions.ContextManager.AddMessages | context-manager.ts:49-61 | An unknown id changes nothing. A known id's history becomes old history + new messages, with lastUsed := now. Every other session is unchanged. |
| Sessions.ContextManager.GetHistory | context-manager.ts:66-69 | The result is the session's messages, or no messages for an unknown id. The store is unchanged. |
| Sessions.ContextManager.DeleteSession | context-manager.ts:74-80 | The result is true iff the id was live. Afterwards the id is absent, every other session is unchanged, and the insertion order of the rest is kept. |
| Sessions.ContextManager.GetAllSessions | context-manager.ts:85-92 | Every live session appears exactly once, filed under its own id. |
| Sessions.ContextManager.CleanOldSessions | context-manager.ts:97-120 | The clean-up leaves at most 1000 sessions. Only unexpired sessions remain, unchanged: min(unexpired, 1000) of them. Every unexpired session removed precedes every kept one in least-recently-used order. Kept ids keep their relative order. |
| Sessions.ContextManager.GetStats | context-manager.ts:125-144 | `totalSessions` is the store's size. `totalMessages` is 0 iff every history is empty. The oldest and newest creation times are absent iff the store is empty; otherwise they are the attained minimum and maximum of createdAt. |
| Sessions.SweepExpired | context-manager.ts:101-106 | The sweep leaves exactly the sessions idle for at most 24 hours, unchanged, in their original order. |
| Sessions.LeastRecentlyUsed | context-manager.ts:110-114 | The chosen session precedes every other in least-recently-used order: lower lastUsed first, earlier insertion among equals. |
| Sessions.TrimStep | context-manager.ts:114-118 | Removing the least recently used session of an over-full store keeps every trim invariant and shrinks the store. |
| Sessions.TrimToCapacity | context-manager.ts:109-119 | The trim leaves at most 1000 sessions, and no fewer than min(size, 1000). The kept ones are unchanged, and every removed session precedes every kept one. |
| Sessions.SweepThenTrim | context-manager.ts:97-120 | The sweep followed by the trim meets the clean-up's promise. |
| Sessions.NewestSurvives | context-manager.ts:40-43 | A session just created is the most recently used and the last inserted, so it survives the clean-up. The store then holds min(unexpired + 1, 1000) sessions. |
| Sessions.InsertThenClean | context-manager.ts:40-43 | After creating a session, the clean-up removes every expired older session and keeps the rest unchanged. Every unexpired session it removes was used no later than any kept one. |
| Sessions.StatsOf | context-manager.ts:131-143 | For a list of sessions: the count, whether the message sum is zero, and the attained minimum and maximum creation times, which are absent iff the list is empty. |
| Sessions.OldestOfStore | context-manager.ts:135-138 | The minimum creation time of the listing bounds, and is attained by, a session of the store. |
| Sessions.NewestOfStore | context-manager.ts:139-142 | The maximum creation time of the listing bounds, and is attained by, a session of the store. |
| Sessions.TotalOfStore | context-manager.ts:134 | The message total of the store is zero iff every history is empty. |
| Sessions.AppendRaisesTotal | context-manager.ts:56-57 | Appending k messages to a session raises the statistics' message total by exactly k. |
| Sessions.DeleteLowersTotal | context-manager.ts:74-80 | Deleting a session lowers the message total by exactly the length of its history. |
| Sessions.Listing | context-manager.ts:85-92 | Entry i of the listing is the session filed under the i-th id in insertion order. |
| Sessions.ListingFacts | context-manager.ts:85-92 | In a coherent store, the listing holds every session exactly once, each under its own id. |
| Handler.ForwardedMessages | context-handler.ts:30-38 | With context, the forwarded messages are history + request messages; without it, only the request's own. The test for an empty history changes nothing. The request's messages always come last. |
| Handler.ForwardedFields | context-handler.ts:41-48 | The forwarded object is the request object with `messages` replaced and `session_id` and `use_context` removed. Every other field is kept, including `preferred_provider` and `custom_providers`. |
| Handler.ForwardedPayload | context-handler.ts:41-48 | What reaches a provider is what the request with replaced messages would send. No control field reaches a provider. |
| Handler.UserMessages | context-handler.ts:55-57 | Every captured message has the user role, and there are no more of them than in the request. |
| Handler.UserMessagesMembers | context-handler.ts:55-57 | A message is captured iff it is among the request's messages and has the user role. |
| Handler.UserMessagesAppend | context-handler.ts:55-57 | The capture distributes over concatenation, so it keeps the messages in order. |
| Handler.UserMessagesIdempotent | context-handler.ts:55-57 | Capturing twice is capturing once. |
| Handler.AssistantMessage | context-handler.ts:71-74 | The recorded answer is an assistant message; a missing content is the empty string. |
| Handler.RecordedTurnShaped | context-handler.ts:77-81 | Recording a turn keeps a history free of system messages and, unless empty, ending with an assistant message. |
| Handler.RecordKeepsShape | context-handler.ts:77-81 | Recording a turn keeps every history of the store in that shape. |
| Handler.RelayAndRecord | context-handler.ts:65-93 | A 2xx balancer reply to a non-streamed request whose answer does not parse gives 500, and only then. Any other reply is the balancer's, with `x-session-id` added. The history grows by the user messages plus the answer iff the answer was 200, not streamed, parsed, and context was on; the session is then marked used at `now`. No other session and not the insertion order change. |
| Handler.ForwardAndRecord | context-handler.ts:30-93 | Forwards the request with its history prepended when context is on. The ghost `balanced` is the balancer's reply, and it and the balancer's new state are exactly those of Balancer.Dispatch for the forwarded body. The reply is that reply with `x-session-id` added, or 500 exactly when that reply is a 2xx to a non-streamed request whose answer does not parse. The history grows by the user messages plus the answer iff the answer was 200, not streamed, parsed, and context was on; the session is then marked used at `now`. No other session and not the insertion order change. The store keeps its shape. |
| Handler.HandleChatRequest | context-handler.ts:20-103 | A body that does not parse gets 500 "Error procesando petición" and leaves every state unchanged. Otherwise the session for the given or generated id is opened as Sessions.ContextManager.GetOrCreateSession promises (touched, or created followed by the clean-up). After that only this session can change, as in ForwardAndRecord, and the insertion order is kept. The forwarded body is fixed by the prior history. The balancer's reply is that of Balancer.Dispatch for the forwarded body. The reply and history facts are those of ForwardAndRecord. |
| Handler.FindSession | context-handler.ts:121-123 | The result is the first session with the id, or none when no session has it. |
| Handler.GetSessionInfo | context-handler.ts:108-137 | The reply is 404 iff the history is empty, which includes a live session with no messages. Otherwise it is 200 with the history, its length and the session's timestamps, which are always found. |
| Handler.DeleteSession | context-handler.ts:142-165 | The reply is 404 iff no session was deleted; otherwise it is 200 with the success message. The session is gone afterwards, every other session is unchanged, and the rest keep their insertion order. |
| Handler.SummariesTotal | context-handler.ts:177-182 | The message counts of the summaries add up to the store's message total. |
| Handler.SummariesOfStore | context-handler.ts:177-182 | Each summary describes a live session: its id, message count and timestamps. Every live session is summarised. |
| Handler.ListSessions | context-handler.ts:170-188 | The reply is 200 with the store's statistics and one summary per live session. The statistics' session count and message total agree with the summaries. |

## Left out

- **JSON and HTTP plumbing.** JSON parsing and serialisation, `Request`/`Response` objects and
  `statusText` are left out. Parsing is the `Decoded` parameter, and replies are records of status,
  headers and body.
- **Bytes of a successful answer.** A successful balancer reply names the serving step but does
  not hold the bytes of the upstream body. The handler's parse of that body is the `completion`
  parameter.
- **Ill-typed request fields.** Fields of other types than the declared ones are left out: a
  non-array `messages`, a non-string `content`, a non-boolean `use_context`. The typed model cannot
  express them.
- **Request dispatch.** index.ts (path dispatch, the 400 for a missing session id, the
  documentation page) is not part of this model.
- **Logging.** Console logging is left out, including the remaining-seconds and minutes
  computations of the circuit breaker.
- **Concurrency.** Interleaving of concurrent requests at `await` points is left out. Each
  operation is modelled as running alone, so another request cannot touch the session between
  the handler's get-or-create and its append.
- **Session id generation.** The random generator is the `freshId` parameter, required to name
  no live session. Uniqueness of random ids cannot be proved.
- **Message shape.** A message is a role (user, assistant or system) and a text content. Other
  roles such as `tool`, and extra per-message fields such as `name` or `tool_call_id`, are not
  modelled, so the history, the user-message capture and the forwarded payload cannot hold them.
- **Timestamps.** Times are integers (milliseconds), not `Date` objects. `created_at` and
  `last_used` are reported as numbers rather than ISO strings. The model assumes the clock never
  goes backwards: the store's operations require `now` to be no earlier than the last time they
  recorded, which `Date.now()` does not guarantee.
- **Credentials.** Credentials from the environment are the `groqKey` and `cerebrasKey`
  parameters.
- Executor.Execute: lower-cases the body in ASCII only. `toLowerCase` also folds non-ASCII letters,
  which can only matter for a body holding non-ASCII letters whose lower case is ASCII.
- Balancer.LoadBalancer.ProcessRequest: uses one `now` for the whole request. The source reads the
  clock separately in the scheduler and after each rate-limited attempt.
- Sessions.ContextManager.GetOrCreateSession: uses one `now` for the touch, the creation and the
  clean-up, which the source reads from the clock separately.
- Handler.RelayAndRecord, Handler.ForwardAndRecord, Handler.HandleChatRequest: stamp a recorded turn
  with the request's single `now`, the instant the session was opened. The source reads the clock
  again in `addMessages`, after the upstream round trip and the parse of the answer, so the
  reported `last_used` and later expiry decisions differ from the source's by that latency.
- Balancer.ResolveRoute, Balancer.FailoverFrom, Balancer.LoadBalancer.HandleRequest: keys that a
  JavaScript object inherits from `Object.prototype` (`constructor`, `toString`, `__proto__`) are not
  modelled. In the source such a model name selects a non-array route, whose filtering throws, so
  `handleRequest` answers 400 and `handleRequestWithBody` answers 500; and a step naming such a
  provider finds a truthy configuration. The model's tables hold only their own keys, so these
  catches are never reached in the model.
- Handler.RelayAndRecord, Handler.ForwardAndRecord, Handler.HandleChatRequest, Balancer.FailoverFrom,
  Balancer.ReplyFor, Executor.BuildHeaders, Executor.ExecuteRequest: header values are assumed valid
  and are not trimmed. The platform's `Headers` rejects a value with CR, LF or NUL or a character
  above U+00FF, and trims surrounding whitespace. So a session id such as "a\nb" makes the source answer 500 from its catch after the turn, and
  such a provider id turns a served step into a failure. Likewise a provider key holding CR, LF or
  NUL makes the source's `Authorization` header throw, which the balancer counts as a failed step,
  and trailing whitespace in a key is trimmed. The model sends "Bearer " + key verbatim and relays
  the ids verbatim instead.
- Sessions.StatsOf: states of the message total only whether it is zero. The exact total follows
  from Sessions.AppendRaisesTotal and Sessions.DeleteLowersTotal rather than from its own contract.
- Sessions.ContextManager.GetStats: states the message total through
  Sessions.AppendRaisesTotal, Sessions.DeleteLowersTotal and Handler.ListSessions rather than as
  an explicit sum in its own contract.
