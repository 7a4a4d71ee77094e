/** Value types shared by the gateway: requests, messages, provider configuration,
    route steps, sessions and the constants of the circuit breaker and session store. */
module Types {

  datatype Option<+T> = None | Some(value: T)

  /** A JSON value as the request body carries it. Numbers are integers here. */
  datatype Json =
    | JNull
    | JBool(b: bool)
    | JNum(n: int)
    | JStr(s: string)
    | JArr(items: seq<Json>)
    | JObj(fields: map<string, Json>)

  datatype Role = User | Assistant | System

  datatype Message = Message(role: Role, content: string)

  /** Connection data of one upstream provider. */
  datatype ProviderConfig = ProviderConfig(name: string, url: string, key: string)

  /** One candidate of a route: which provider, and the model name that provider knows. */
  datatype RouteStep = RouteStep(providerId: string, targetModel: string)

  /** A chat-completion request. The fields the gateway reads are typed; every other
      field of the JSON object travels in `extra` and is forwarded untouched. */
  datatype ChatRequest = ChatRequest(
    model: string,
    messages: seq<Message>,
    stream: Option<bool>,
    preferredProvider: Option<string>,
    customProviders: Option<map<string, ProviderConfig>>,
    sessionId: Option<string>,
    useContext: Option<bool>,
    extra: map<string, Json>)

  /** A conversation kept by the session store; timestamps are milliseconds. */
  datatype Session = Session(id: string, messages: seq<Message>, createdAt: int, lastUsed: int)

  /** The argument of the registration function: optional provider and route additions. */
  datatype ConfigInput = ConfigInput(
    providers: Option<map<string, ProviderConfig>>,
    routing: Option<map<string, seq<RouteStep>>>)

  /** Circuit-breaker penalty after a rate-limit failure: five minutes. */
  const RATE_LIMIT_COOLDOWN: nat := 5 * 60 * 1000

  /** Idle time after which a session expires: 24 hours. */
  const SESSION_TIMEOUT_MS: nat := 1000 * 60 * 60 * 24

  /** Largest number of sessions kept in memory. */
  const MAX_SESSIONS: nat := 1000

  /** The four control fields that are never sent to a provider. */
  const ControlKeys: set<string> :=
    {"custom_providers", "preferred_provider", "session_id", "use_context"}

  /** The names of all typed fields of a request. */
  const DeclaredKeys: set<string> :=
    {"model", "messages", "stream"} + ControlKeys

  function RoleName(r: Role): string {
    match r
    case User => "user"
    case Assistant => "assistant"
    case System => "system"
  }

  function MessageJson(m: Message): Json {
    JObj(map["role" := JStr(RoleName(m.role)), "content" := JStr(m.content)])
  }

  function MessagesJson(ms: seq<Message>): Json {
    JArr(seq(|ms|, i requires 0 <= i < |ms| => MessageJson(ms[i])))
  }

  function ProviderJson(c: ProviderConfig): Json {
    JObj(map["name" := JStr(c.name), "url" := JStr(c.url), "key" := JStr(c.key)])
  }

  function ProvidersJson(ps: map<string, ProviderConfig>): Json {
    JObj(map k | k in ps :: ProviderJson(ps[k]))
  }

  /** The value of the typed field named `k`, if that field is present. */
  function DeclaredEntry(r: ChatRequest, k: string): Option<Json> {
    if k == "model" then Some(JStr(r.model))
    else if k == "messages" then Some(MessagesJson(r.messages))
    else if k == "stream" then (if r.stream.Some? then Some(JBool(r.stream.value)) else None)
    else if k == "preferred_provider" then
      (if r.preferredProvider.Some? then Some(JStr(r.preferredProvider.value)) else None)
    else if k == "custom_providers" then
      (if r.customProviders.Some? then Some(ProvidersJson(r.customProviders.value)) else None)
    else if k == "session_id" then (if r.sessionId.Some? then Some(JStr(r.sessionId.value)) else None)
    else if k == "use_context" then (if r.useContext.Some? then Some(JBool(r.useContext.value)) else None)
    else None
  }

  /** The typed fields that are present, as object entries. */
  function Declared(r: ChatRequest): map<string, Json> {
    map k | k in DeclaredKeys && DeclaredEntry(r, k).Some? :: DeclaredEntry(r, k).value
  }

  /** The request as the JavaScript object it stands for: typed fields shadow any
      passthrough entry of the same name, and absent optional fields are absent keys. */
  function Fields(r: ChatRequest): map<string, Json> {
    (r.extra - DeclaredKeys) + Declared(r)
  }
}
