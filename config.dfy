/** The provider registry and route table, with their built-in contents and the
    registration function that merges new entries into them. */
module Config {
  import opened Types

  /** The two built-in providers; their credentials come from the environment
      (an unset variable is the empty string). */
  function SystemProviders(groqKey: string, cerebrasKey: string): map<string, ProviderConfig> {
    map[
      "groq" := ProviderConfig("Groq System", "https://api.groq.com/openai/v1/chat/completions", groqKey),
      "cerebras" := ProviderConfig("Cerebras System", "https://api.cerebras.ai/v1/chat/completions", cerebrasKey)
    ]
  }

  /** The built-in routes: every model goes to Groq first and Cerebras second. */
  function SystemRouting(): map<string, seq<RouteStep>> {
    map[
      "default" := [RouteStep("groq", "llama-3.1-8b-instant"), RouteStep("cerebras", "llama3.1-8b")],
      "llama3-70b" := [RouteStep("groq", "llama-3.3-70b-versatile"), RouteStep("cerebras", "llama3.1-70b")],
      "llama3-8b" := [RouteStep("groq", "llama-3.1-8b-instant"), RouteStep("cerebras", "llama3.1-8b")],
      "openai/gpt-oss-120b" := [RouteStep("groq", "openai/gpt-oss-120b"), RouteStep("cerebras", "openai/gpt-oss-120b")]
    ]
  }

  /** The built-in tables: exactly two providers, a `default` route, and no empty route;
      every step of every route names a built-in provider. */
  lemma InitialTables(groqKey: string, cerebrasKey: string)
    ensures SystemProviders(groqKey, cerebrasKey).Keys == {"groq", "cerebras"}
    ensures "default" in SystemRouting()
    ensures forall m :: m in SystemRouting() ==> |SystemRouting()[m]| == 2
    ensures forall m, i :: m in SystemRouting() && 0 <= i < |SystemRouting()[m]| ==>
              SystemRouting()[m][i].providerId in SystemProviders(groqKey, cerebrasKey)
  {
  }

  /** The process-wide provider registry and route table. */
  class Registry {
    var providers: map<string, ProviderConfig>
    var routing: map<string, seq<RouteStep>>

    constructor (groqKey: string, cerebrasKey: string)
      ensures providers == SystemProviders(groqKey, cerebrasKey)
      ensures routing == SystemRouting()
    {
      providers := SystemProviders(groqKey, cerebrasKey);
      routing := SystemRouting();
    }

    /** Merges the given providers and routes into the tables, overwriting entries of
        the same name; an absent part leaves its table as it was. */
    method RegisterProviders(input: ConfigInput)
      modifies this
      ensures input.providers.Some? ==>
                providers.Keys == old(providers).Keys + input.providers.value.Keys
      ensures input.providers.Some? ==>
                forall id :: id in input.providers.value ==> providers[id] == input.providers.value[id]
      ensures forall id :: id in old(providers) && (input.providers.None? || id !in input.providers.value) ==>
                id in providers && providers[id] == old(providers)[id]
      ensures input.providers.None? ==> providers == old(providers)
      ensures input.routing.Some? ==>
                routing.Keys == old(routing).Keys + input.routing.value.Keys
      ensures input.routing.Some? ==>
                forall m :: m in input.routing.value ==> routing[m] == input.routing.value[m]
      ensures forall m :: m in old(routing) && (input.routing.None? || m !in input.routing.value) ==>
                m in routing && routing[m] == old(routing)[m]
      ensures input.routing.None? ==> routing == old(routing)
    {
      if input.providers.Some? {
        providers := providers + input.providers.value;
      }
      if input.routing.Some? {
        routing := routing + input.routing.value;
      }
    }
  }
}
