/** The context-aware front of the gateway: the chat endpoint that keeps conversation
    histories in the session store and forwards requests through the load balancer,
    and the three session endpoints (info, deletion, listing). */
module Handler {
  import opened Types
  import opened Sessions
  import Config
  import Executor
  import Balancer

  // ---------------------------------------------------------------------------
  // Replies
  // ---------------------------------------------------------------------------

  /** The outcome of a JSON parse: the parsed value, or the parser's error message. */
  datatype Decoded<T> = Decoded(value: T) | DecodeError(message: string)

  /** One entry of the session listing. */
  datatype SessionSummary = SessionSummary(id: string, messageCount: nat, createdAt: int, lastUsed: int)

  /** The bodies the handler answers with. `ProcessingFailure` is the object with
      `error` = PROCESSING_ERROR and the failure's message as `detail`; `NotFound` the
      object with `error` = SESSION_NOT_FOUND and the id; `Deleted` the success object
      with SESSION_DELETED as `message`; `SessionList` the statistics with the summaries. */
  datatype HandlerBody =
    | Forwarded(reply: Balancer.ReplyBody)
    | ProcessingFailure(detail: string)
    | NotFound(sessionId: string)
    | SessionInfo(sessionId: string, messageCount: nat, messages: seq<Message>,
                  createdAt: Option<int>, lastUsed: Option<int>)
    | Deleted(sessionId: string)
    | SessionList(stats: Stats, sessions: seq<SessionSummary>)

  /** A reply of the handler: status, headers (lower-cased names) and body. */
  datatype HandlerReply = HandlerReply(status: nat, headers: map<string, string>, body: HandlerBody)

  const X_SESSION_ID := "x-session-id"
  const APPLICATION_JSON := "application/json"
  const PROCESSING_ERROR := "Error procesando petición"
  const SESSION_NOT_FOUND := "Sesión no encontrada"
  const SESSION_DELETED := "Sesión eliminada correctamente"

  /** Headers of a reply built from a bare string body. */
  function PlainHeaders(): map<string, string> {
    map[Executor.CONTENT_TYPE := Balancer.TEXT_PLAIN]
  }

  /** Headers of a reply whose body is declared to be JSON. */
  function JsonHeaders(): map<string, string> {
    map[Executor.CONTENT_TYPE := APPLICATION_JSON]
  }

  // ---------------------------------------------------------------------------
  // Preparing the forwarded request
  // ---------------------------------------------------------------------------

  /** `use_context` with an absent flag read as false. */
  predicate UseContext(req: ChatRequest) {
    req.useContext == Some(true)
  }

  /** Whether the caller asked for a streamed answer; an absent flag is not. */
  predicate Streaming(req: ChatRequest) {
    req.stream == Some(true)
  }

  /** The id the store files the request under: the caller's id when one is given
      and non-empty, otherwise a generated one. */
  function SessionIdFor(sessionId: Option<string>, freshId: string): string {
    if sessionId.Some? && sessionId.value != "" then sessionId.value else freshId
  }

  /** The messages sent upstream: with context, the stored history is put before the
      request's messages; the source tests for a non-empty history first, and the
      contract shows that the test changes nothing. */
  function ForwardedMessages(history: seq<Message>, req: ChatRequest): (ms: seq<Message>)
    ensures ms == if UseContext(req) then history + req.messages else req.messages
    ensures |ms| >= |req.messages| && ms[|ms| - |req.messages|..] == req.messages
  {
    if UseContext(req) && |history| > 0 then history + req.messages else req.messages
  }

  /** The request object with its messages replaced and the two session fields deleted. */
  function ForwardedBody(req: ChatRequest, messages: seq<Message>): ChatRequest {
    req.(messages := messages, sessionId := None, useContext := None)
  }

  /** As JSON objects: the forwarded body is the request object with `messages`
      overwritten and `session_id` and `use_context` removed; every other field,
      `preferred_provider` and `custom_providers` included, is kept. */
  lemma ForwardedFields(req: ChatRequest, messages: seq<Message>)
    ensures Fields(ForwardedBody(req, messages))
            == Fields(req)["messages" := MessagesJson(messages)] - {"session_id", "use_context"}
  {
    var p := Fields(ForwardedBody(req, messages));
    var q := Fields(req)["messages" := MessagesJson(messages)] - {"session_id", "use_context"};
    forall k
      ensures (k in p <==> k in q) && (k in p ==> p[k] == q[k])
    {
      ForwardedField(req, messages, k);
    }
    assert p == q;
  }

  /** One key of the forwarded body, compared with the request object. */
  lemma ForwardedField(req: ChatRequest, messages: seq<Message>, k: string)
    ensures var p := Fields(ForwardedBody(req, messages));
      var q := Fields(req)["messages" := MessagesJson(messages)] - {"session_id", "use_context"};
      (k in p <==> k in q) && (k in p ==> p[k] == q[k])
  {
    var f := ForwardedBody(req, messages);
    assert f.extra == req.extra;
    if k !in DeclaredKeys {
      assert k !in Declared(f) && k !in Declared(req);
    } else if k == "messages" {
      assert Declared(f)[k] == MessagesJson(messages);
    } else if k == "session_id" || k == "use_context" {
      assert k !in Declared(f);
    } else {
      assert DeclaredEntry(f, k) == DeclaredEntry(req, k);
      assert k in Declared(f) <==> k in Declared(req);
    }
  }

  /** What reaches a provider is what it would be for the request with its messages
      replaced: deleting the session fields here is subsumed by the executor's own
      removal of the control fields, and the target model still replaces `model`. */
  lemma ForwardedPayload(req: ChatRequest, messages: seq<Message>, targetModel: string)
    ensures Executor.OutboundPayload(ForwardedBody(req, messages), targetModel)
            == Executor.OutboundPayload(req.(messages := messages), targetModel)
    ensures Executor.PayloadFields(Executor.OutboundPayload(ForwardedBody(req, messages), targetModel)).Keys
            !! ControlKeys
    ensures Executor.OutboundPayload(ForwardedBody(req, messages), targetModel).messages == messages
  {
    Executor.OutboundPayloadHasNoControlField(ForwardedBody(req, messages), targetModel);
  }

  // ---------------------------------------------------------------------------
  // What is remembered
  // ---------------------------------------------------------------------------

  /** The user-role messages of a list, in order. */
  function UserMessages(ms: seq<Message>): (us: seq<Message>)
    ensures |us| <= |ms|
    ensures forall i :: 0 <= i < |us| ==> us[i].role == User
  {
    if ms == [] then []
    else if ms[0].role == User then [ms[0]] + UserMessages(ms[1..])
    else UserMessages(ms[1..])
  }

  /** A message is kept exactly when it is in the list and has the user role. */
  lemma {:induction false} UserMessagesMembers(ms: seq<Message>, m: Message)
    ensures m in UserMessages(ms) <==> m in ms && m.role == User
  {
    if ms != [] {
      UserMessagesMembers(ms[1..], m);
      assert m in ms <==> m == ms[0] || m in ms[1..];
    }
  }

  /** The filter distributes over concatenation. */
  lemma {:induction false} UserMessagesAppend(a: seq<Message>, b: seq<Message>)
    ensures UserMessages(a + b) == UserMessages(a) + UserMessages(b)
  {
    if a == [] {
      assert a + b == b;
    } else {
      assert (a + b)[0] == a[0];
      assert (a + b)[1..] == a[1..] + b;
      UserMessagesAppend(a[1..], b);
    }
  }

  /** The filter keeps a list of user messages as it is, so filtering twice is filtering once. */
  lemma {:induction false} UserMessagesIdempotent(ms: seq<Message>)
    ensures UserMessages(UserMessages(ms)) == UserMessages(ms)
  {
    if ms != [] {
      UserMessagesIdempotent(ms[1..]);
      if ms[0].role == User {
        var rest := UserMessages(ms[1..]);
        assert ([ms[0]] + rest)[0] == ms[0];
        assert ([ms[0]] + rest)[1..] == rest;
      }
    }
  }

  /** The assistant's answer as stored: a missing or empty content is the empty string. */
  function AssistantMessage(content: Option<string>): (m: Message)
    ensures m.role == Assistant
  {
    Message(Assistant, if content.Some? then content.value else "")
  }

  /** The shape of every stored history: no system message, and, unless empty, an
      assistant message last (each recorded turn ends with the answer). */
  ghost predicate ConversationShaped(history: seq<Message>) {
    && (forall i :: 0 <= i < |history| ==> history[i].role != System)
    && (history != [] ==> history[|history| - 1].role == Assistant)
  }

  /** Recording a turn keeps the shape, and the turn adds exactly the user messages of
      the request followed by one assistant message. */
  lemma RecordedTurnShaped(history: seq<Message>, ms: seq<Message>, content: Option<string>)
    requires ConversationShaped(history)
    ensures ConversationShaped(history + (UserMessages(ms) + [AssistantMessage(content)]))
  {
    var turn := UserMessages(ms) + [AssistantMessage(content)];
    var h := history + turn;
    forall i | 0 <= i < |h|
      ensures h[i].role != System
    {
      if i < |history| {
        assert h[i] == history[i];
      } else if i - |history| < |UserMessages(ms)| {
        assert h[i] == UserMessages(ms)[i - |history|];
      } else {
        assert h[i] == AssistantMessage(content);
      }
    }
  }

  /** Every history of the store is conversation-shaped. */
  ghost predicate ShapedStore(m: map<string, Session>) {
    forall k :: k in m ==> ConversationShaped(m[k].messages)
  }

  /** Opening a session (a new empty one, or a known one whose history is unchanged)
      while every other kept session is unchanged keeps the store shaped. */
  lemma OpenKeepsShape(m0: map<string, Session>, m: map<string, Session>, s: Session)
    requires ShapedStore(m0)
    requires s.id in m && m[s.id] == s
    requires s.messages == [] || (s.id in m0 && s.messages == m0[s.id].messages)
    requires forall k :: k in m && k != s.id ==> k in m0 && m[k] == m0[k]
    ensures ShapedStore(m)
  {
  }

  /** Recording a turn in a known session keeps the store shaped. */
  lemma RecordKeepsShape(m0: map<string, Session>, id: string, ms: seq<Message>, content: Option<string>, now: int)
    requires ShapedStore(m0) && id in m0
    ensures ShapedStore(m0[id := m0[id].(messages := m0[id].messages + (UserMessages(ms) + [AssistantMessage(content)]),
                                        lastUsed := now)])
  {
    RecordedTurnShaped(m0[id].messages, ms, content);
  }

  // ---------------------------------------------------------------------------
  // The chat endpoint
  // ---------------------------------------------------------------------------

  /** A reply the load balancer gives for a request: a stream from the provider it
      names, or the 503 that all providers failed. */
  ghost predicate BalancerReply(response: Balancer.GatewayReply) {
    && (response.status == 200 || response.status == 503)
    && (response.status == 200 ==>
          && response.body.EventStream?
          && Balancer.X_PROVIDER_USED in response.headers
          && response.headers[Balancer.X_PROVIDER_USED] == response.body.step.providerId)
    && (response.status == 503 ==> response.body.ErrorJson? && response.body.error == Balancer.ALL_FAILED)
  }

  /** The reply of the chat endpoint once session `id` is open: the balancer's reply
      with the session id as a header, where a 200 for a non-streamed request also
      means its body parsed; or 500 when a served, non-streamed answer did not parse. */
  ghost predicate ChatReply(reply: HandlerReply, id: string, req: ChatRequest, completion: Decoded<Option<string>>) {
    && (reply.status == 200 || reply.status == 503 || reply.status == 500)
    && (reply.status != 500 ==>
          && reply.body.Forwarded?
          && X_SESSION_ID in reply.headers && reply.headers[X_SESSION_ID] == id
          && BalancerReply(Balancer.GatewayReply(reply.status, reply.headers, reply.body.reply))
          && (reply.status == 200 ==> Streaming(req) || completion.Decoded?))
    && (reply.status == 500 ==>
          && !Streaming(req) && completion.DecodeError?
          && reply == HandlerReply(500, PlainHeaders(), ProcessingFailure(completion.message)))
  }

  /** How the chat endpoint relays the balancer's reply `g` for session `id`: 500 exactly
      when `g` is a success for a non-streamed request whose answer did not parse; any
      other reply is `g` itself with the session id added as a header. */
  ghost predicate Relayed(reply: HandlerReply, g: Balancer.GatewayReply, id: string, req: ChatRequest,
                          completion: Decoded<Option<string>>) {
    && (reply.status == 500 <==> 200 <= g.status < 300 && !Streaming(req) && completion.DecodeError?)
    && (reply.status != 500 ==> reply == HandlerReply(g.status, g.headers[X_SESSION_ID := id], Forwarded(g.body)))
  }

  /** The history after a turn: the prior history, plus the request's user messages
      and the assistant's answer when context was asked for and a non-streamed answer
      was served with a body that parsed. */
  function HistoryAfter(prior: seq<Message>, reply: HandlerReply, req: ChatRequest,
                        completion: Decoded<Option<string>>): seq<Message>
  {
    if Recorded(reply, req, completion)
    then prior + (UserMessages(req.messages) + [AssistantMessage(completion.value)])
    else prior
  }

  /** Whether a turn is recorded: context was asked for and a non-streamed answer was
      served with a body that parsed. */
  predicate Recorded(reply: HandlerReply, req: ChatRequest, completion: Decoded<Option<string>>) {
    reply.status == 200 && !Streaming(req) && UseContext(req) && completion.Decoded?
  }

  /** The sessions after a turn of session `id`: when the turn is recorded, that session's
      history grows as HistoryAfter says and it is marked used at `now`; every other
      session, and this one when nothing is recorded, is left as it was. */
  function SessionsAfter(sessions: map<string, Session>, id: string, reply: HandlerReply, req: ChatRequest,
                         completion: Decoded<Option<string>>, now: nat): map<string, Session>
    requires id in sessions
  {
    if Recorded(reply, req, completion)
    then sessions[id := sessions[id].(messages := HistoryAfter(sessions[id].messages, reply, req, completion), lastUsed := now)]
    else sessions
  }

  /** The end of the chat endpoint, once the balancer has answered `response`: a served,
      non-streamed answer is parsed (a parse failure is answered 500) and, with context,
      recorded in the history; the reply is relayed with the session id as a header. */
  method RelayAndRecord(store: ContextManager, req: ChatRequest, session: Session,
                        response: Balancer.GatewayReply, completion: Decoded<Option<string>>, now: nat)
    returns (reply: HandlerReply)
    requires store.Valid() && store.clock <= now
    requires session.id in store.sessions && store.sessions[session.id] == session
    requires BalancerReply(response)
    modifies store
    ensures store.Valid()
    ensures ShapedStore(old(store.sessions)) ==> ShapedStore(store.sessions)
    ensures session.id in store.sessions
    ensures Relayed(reply, response, session.id, req, completion)
    ensures ChatReply(reply, session.id, req, completion)
    ensures store.GetHistory(session.id) == HistoryAfter(session.messages, reply, req, completion)
    ensures store.order == old(store.order)
    ensures store.sessions == SessionsAfter(old(store.sessions), session.id, reply, req, completion, now)
  {
    var userMessages := UserMessages(req.messages);
    assert store.GetHistory(session.id) == session.messages;
    if 200 <= response.status < 300 && !Streaming(req) {
      if completion.DecodeError? {
        reply := HandlerReply(500, PlainHeaders(), ProcessingFailure(completion.message));
        assert ChatReply(reply, session.id, req, completion);
        return;
      }
      var assistant := AssistantMessage(completion.value);
      if UseContext(req) {
        ghost var m1 := store.sessions;
        store.AddMessages(session.id, userMessages + [assistant], now);
        assert store.GetHistory(session.id) == session.messages + (userMessages + [assistant]);
        if ShapedStore(m1) {
          RecordKeepsShape(m1, session.id, req.messages, completion.value, now);
        }
      }
    }
    reply := HandlerReply(response.status, response.headers[X_SESSION_ID := session.id], Forwarded(response.body));
    assert ChatReply(reply, session.id, req, completion);
  }

  /** The second half of the chat endpoint, once the session is open: forwards the
      request with the session's history when context is asked for, through the load
      balancer, and relays and records its reply. */
  method ForwardAndRecord(store: ContextManager, lb: Balancer.LoadBalancer, registry: Config.Registry,
                          req: ChatRequest, session: Session, inbound: map<string, string>,
                          answer: nat -> Executor.Upstream, completion: Decoded<Option<string>>, now: nat)
    returns (reply: HandlerReply, ghost forwarded: ChatRequest, ghost balanced: Balancer.GatewayReply)
    requires store.Valid() && store.clock <= now
    requires session.id in store.sessions && store.sessions[session.id] == session
    modifies store, lb
    ensures store.Valid()
    ensures ShapedStore(old(store.sessions)) ==> ShapedStore(store.sessions)
    ensures session.id in store.sessions
    ensures forwarded == ForwardedBody(req, ForwardedMessages(session.messages, req))
    ensures var d := Balancer.Dispatch(registry.routing, registry.providers, forwarded,
                                       old(lb.rotationCounters), old(lb.cooldowns), answer, now);
              balanced == Balancer.ReplyFor(d.outcome) && lb.rotationCounters == d.counters && lb.cooldowns == d.cooldowns
    ensures Relayed(reply, balanced, session.id, req, completion)
    ensures ChatReply(reply, session.id, req, completion)
    ensures store.GetHistory(session.id) == HistoryAfter(session.messages, reply, req, completion)
    ensures store.order == old(store.order)
    ensures store.sessions == SessionsAfter(old(store.sessions), session.id, reply, req, completion, now)
  {
    var messages := ForwardedMessages(session.messages, req);
    var modified := ForwardedBody(req, messages);
    forwarded := modified;
    var response := lb.ProcessRequest(registry, modified, inbound, answer, now);
    balanced := response;
    reply := RelayAndRecord(store, req, session, response, completion, now);
  }

  /** Handles a chat request with context. A body that does not parse is answered 500.
      Otherwise the session is fetched or created, its history is put before the
      messages when context is asked for, the session fields are deleted and the
      result goes through the load balancer. A successful, non-streamed answer is
      parsed (`completion` stands for that parse of the answer's body); a parse failure
      is answered 500, otherwise with context the user messages and the assistant's
      answer are appended to the history. The balancer's reply goes back with the
      session id as a header. `freshId` stands for the generated session id. The ghosts
      `forwarded` and `balanced` are the body handed to the load balancer and its reply;
      `afterOpen` and `orderAfterOpen` are the store once the session is open. */
  method HandleChatRequest(store: ContextManager, lb: Balancer.LoadBalancer, registry: Config.Registry,
                           body: Decoded<ChatRequest>, inbound: map<string, string>,
                           answer: nat -> Executor.Upstream, completion: Decoded<Option<string>>,
                           now: nat, freshId: string)
    returns (reply: HandlerReply, ghost forwarded: Option<ChatRequest>, ghost balanced: Option<Balancer.GatewayReply>,
             ghost afterOpen: map<string, Session>, ghost orderAfterOpen: seq<string>)
    requires store.Valid() && store.clock <= now && freshId !in store.sessions
    modifies store, lb
    ensures store.Valid()
    ensures ShapedStore(old(store.sessions)) ==> ShapedStore(store.sessions)
    ensures body.DecodeError? ==>
              && reply == HandlerReply(500, PlainHeaders(), ProcessingFailure(body.message))
              && forwarded.None?
              && store.sessions == old(store.sessions) && store.order == old(store.order)
              && lb.rotationCounters == old(lb.rotationCounters) && lb.cooldowns == old(lb.cooldowns)
    ensures body.Decoded? ==>
              var id := SessionIdFor(body.value.sessionId, freshId);
              && id in store.sessions
              && forwarded == Some(ForwardedBody(body.value, ForwardedMessages(old(store.GetHistory(id)), body.value)))
    ensures body.Decoded? ==>
              var id := SessionIdFor(body.value.sessionId, freshId);
              && ChatReply(reply, id, body.value, completion)
              && store.GetHistory(id) == HistoryAfter(old(store.GetHistory(id)), reply, body.value, completion)
    ensures body.DecodeError? ==> balanced.None?
    ensures body.Decoded? ==>
              var id := SessionIdFor(body.value.sessionId, freshId);
              && OpenedFrom(old(store.sessions), old(store.order), id, now, afterOpen, orderAfterOpen)
              && store.order == orderAfterOpen
              && store.sessions == SessionsAfter(afterOpen, id, reply, body.value, completion, now)
    ensures body.Decoded? ==>
              && forwarded.Some? && balanced.Some?
              && var d := Balancer.Dispatch(registry.routing, registry.providers, forwarded.value,
                                            old(lb.rotationCounters), old(lb.cooldowns), answer, now);
                 balanced.value == Balancer.ReplyFor(d.outcome) && lb.rotationCounters == d.counters && lb.cooldowns == d.cooldowns
    ensures body.Decoded? && balanced.Some? ==>
              Relayed(reply, balanced.value, SessionIdFor(body.value.sessionId, freshId), body.value, completion)
  {
    if body.DecodeError? {
      reply := HandlerReply(500, PlainHeaders(), ProcessingFailure(body.message));
      forwarded, balanced := None, None;
      afterOpen, orderAfterOpen := store.sessions, store.order;
      return;
    }
    var req := body.value;
    ghost var counters0, cooldowns0 := lb.rotationCounters, lb.cooldowns;
    ghost var m0 := store.sessions;
    ghost var prior := store.GetHistory(SessionIdFor(req.sessionId, freshId));
    var session := store.GetOrCreateSession(req.sessionId, now, freshId);
    afterOpen, orderAfterOpen := store.sessions, store.order;
    assert session.messages == prior;
    assert lb.rotationCounters == counters0 && lb.cooldowns == cooldowns0;
    if ShapedStore(m0) {
      OpenKeepsShape(m0, store.sessions, session);
    }
    ghost var sent, served;
    reply, sent, served := ForwardAndRecord(store, lb, registry, req, session, inbound, answer, completion, now);
    forwarded, balanced := Some(sent), Some(served);
  }

  // ---------------------------------------------------------------------------
  // The session endpoints
  // ---------------------------------------------------------------------------

  /** The first session of the list with the given id, if any. */
  function FindSession(list: seq<Session>, id: string): (r: Option<Session>)
    ensures r.Some? ==> r.value in list && r.value.id == id
    ensures r.None? ==> forall i :: 0 <= i < |list| ==> list[i].id != id
    ensures r.Some? ==> exists j :: 0 <= j < |list| && list[j] == r.value && forall k :: 0 <= k < j ==> list[k].id != id
  {
    if list == [] then None
    else if list[0].id == id then Some(list[0])
    else
      var r := FindSession(list[1..], id);
      assert r.Some? ==> exists j :: 0 <= j < |list| && list[j] == r.value && forall k :: 0 <= k < j ==> list[k].id != id by {
        if r.Some? {
          var j :| 0 <= j < |list[1..]| && list[1..][j] == r.value && forall k :: 0 <= k < j ==> list[1..][k].id != id;
          assert list[j + 1] == r.value;
          assert forall k :: 0 <= k < j + 1 ==> list[k].id != id by {
            forall k | 0 <= k < j + 1 ensures list[k].id != id {
              if k > 0 { assert list[k] == list[1..][k - 1]; }
            }
          }
        }
      }
      r
  }

  /** The session information endpoint. It answers 404 exactly when the history is
      empty, which includes a live session that has no messages yet; otherwise the
      history with its length and the session's timestamps, which are always found. */
  function GetSessionInfo(store: ContextManager, sessionId: string): (reply: HandlerReply)
    reads store
    requires store.WellFormed()
    ensures reply.status == 404 <==> store.GetHistory(sessionId) == []
    ensures reply.status == 404 ==> reply == HandlerReply(404, PlainHeaders(), NotFound(sessionId))
    ensures reply.status != 404 ==>
              && reply.status == 200 && reply.headers == JsonHeaders()
              && sessionId in store.sessions
              && var s := store.sessions[sessionId];
                 reply.body == SessionInfo(sessionId, |s.messages|, s.messages, Some(s.createdAt), Some(s.lastUsed))
  {
    var history := store.GetHistory(sessionId);
    if |history| == 0 then
      HandlerReply(404, PlainHeaders(), NotFound(sessionId))
    else
      var list := store.GetAllSessions();
      var found := FindSession(list, sessionId);
      assert found.Some? && found.value == store.sessions[sessionId] by {
        var i :| 0 <= i < |list| && list[i] == store.sessions[sessionId];
        assert list[i].id == sessionId;
        var j :| 0 <= j < |list| && list[j] == found.value;
      }
      HandlerReply(200, JsonHeaders(),
        SessionInfo(sessionId, |history|, history,
                    if found.Some? then Some(found.value.createdAt) else None,
                    if found.Some? then Some(found.value.lastUsed) else None))
  }

  /** The session deletion endpoint: 404 exactly when there was no such session. */
  method DeleteSession(store: ContextManager, sessionId: string) returns (reply: HandlerReply)
    requires store.Valid()
    modifies store
    ensures store.Valid()
    ensures store.sessions == old(store.sessions) - {sessionId}
    ensures store.order == Keep(old(store.order), store.sessions.Keys)
    ensures reply.status == 404 <==> sessionId !in old(store.sessions)
    ensures reply.status == 404 ==> reply == HandlerReply(404, PlainHeaders(), NotFound(sessionId))
    ensures reply.status != 404 ==> reply == HandlerReply(200, JsonHeaders(), Deleted(sessionId))
    ensures ShapedStore(old(store.sessions)) ==> ShapedStore(store.sessions)
  {
    var deleted := store.DeleteSession(sessionId);
    if !deleted {
      return HandlerReply(404, PlainHeaders(), NotFound(sessionId));
    }
    reply := HandlerReply(200, JsonHeaders(), Deleted(sessionId));
  }

  function Summary(s: Session): SessionSummary {
    SessionSummary(s.id, |s.messages|, s.createdAt, s.lastUsed)
  }

  function Summaries(list: seq<Session>): (r: seq<SessionSummary>)
    ensures |r| == |list|
  {
    seq(|list|, i requires 0 <= i < |list| => Summary(list[i]))
  }

  function SumCounts(summaries: seq<SessionSummary>): nat {
    if summaries == [] then 0 else summaries[0].messageCount + SumCounts(summaries[1..])
  }

  /** The message counts of the summaries add up to the messages of the sessions. */
  lemma {:induction false} SummariesTotal(list: seq<Session>)
    ensures SumCounts(Summaries(list)) == SumMessages(list)
  {
    if list != [] {
      assert Summaries(list)[1..] == Summaries(list[1..]);
      SummariesTotal(list[1..]);
    }
  }

  /** The summaries of a coherent store's listing describe its sessions, each once. */
  lemma SummariesOfStore(m: map<string, Session>, o: seq<string>, clock: int)
    requires Coherent(m, o, clock)
    ensures forall i :: 0 <= i < |o| ==>
              var e := Summaries(Listing(m, o))[i];
              && e.id in m
              && e.messageCount == |m[e.id].messages|
              && e.createdAt == m[e.id].createdAt
              && e.lastUsed == m[e.id].lastUsed
    ensures forall k :: k in m ==>
              exists i :: 0 <= i < |o| && Summaries(Listing(m, o))[i].id == k
  {
    var list := Listing(m, o);
    var sums := Summaries(list);
    forall i | 0 <= i < |o|
      ensures sums[i] == Summary(m[o[i]]) && sums[i].id == o[i]
    {
      assert list[i] == m[o[i]];
    }
    ListingFacts(m, o, clock);
    forall k | k in m
      ensures exists i :: 0 <= i < |o| && Summaries(list)[i].id == k
    {
      var i :| 0 <= i < |list| && list[i] == m[k];
      assert Summaries(list)[i].id == k;
    }
  }

  /** The listing endpoint: the store's statistics and one summary per live session,
      in insertion order; the statistics agree with the summaries. */
  function ListSessions(store: ContextManager): (reply: HandlerReply)
    reads store
    requires store.WellFormed()
    ensures reply.status == 200 && reply.headers == JsonHeaders() && reply.body.SessionList?
    ensures reply.body.stats == store.GetStats()
    ensures |reply.body.sessions| == |store.sessions|
    ensures forall i :: 0 <= i < |reply.body.sessions| ==>
              var e := reply.body.sessions[i];
              && e.id in store.sessions
              && e.messageCount == |store.sessions[e.id].messages|
              && e.createdAt == store.sessions[e.id].createdAt
              && e.lastUsed == store.sessions[e.id].lastUsed
    ensures forall k :: k in store.sessions ==>
              exists i :: 0 <= i < |reply.body.sessions| && reply.body.sessions[i].id == k
    ensures reply.body.stats.totalSessions == |reply.body.sessions|
    ensures reply.body.stats.totalMessages == SumCounts(reply.body.sessions)
  {
    var list := store.GetAllSessions();
    var stats := store.GetStats();
    assert list == Listing(store.sessions, store.order);
    assert stats == StoreStats(store.sessions, store.order);
    CoherentLength(store.sessions, store.order, store.clock);
    SummariesOfStore(store.sessions, store.order, store.clock);
    SummariesTotal(list);
    HandlerReply(200, JsonHeaders(), SessionList(stats, Summaries(list)))
  }
}
