/** Configuration classes and their construction from a run configuration.
    An instance is represented by its init fields, by name; nothing checks the
    type of a supplied value, exactly as the dataclass constructor does not. */
module Configuration {
  import opened Common

  /** The prompt constants the configuration classes default to, kept opaque. */
  datatype Prompts = Prompts(router: string, grader: string, response: string)

  /** What is fixed when the configuration classes are defined: the process
      environment read by the base class, and the prompt constants. */
  datatype Context = Context(env: map<string, string>, prompts: Prompts)

  /** A run configuration: absent, or a dictionary that may carry a
      "configurable" entry. */
  type RunnableConfig = Option<map<string, Value>>

  /** A configuration instance: its init fields by name. */
  type Instance = map<string, Value>

  /** `configurable.items()` on a truthy value that is not a dictionary. */
  datatype ConfigError = NoItems(typeName: string)

  const DefaultEmbeddingModel := "openai/text-embedding-3-small"
  const DefaultAgentModel := "gpt-3.5-turbo-0125"
  const DefaultHierarchicalModel := "gpt-4o-mini"

  /** The dictionary of overrides read from a run configuration: an absent or
      falsy "configurable" entry gives no overrides. */
  function Configurable(config: RunnableConfig): (r: Result<map<string, Value>, ConfigError>)
    ensures config.None? || !Truthy(Get(config.value, "configurable")) ==> r == Ok(map[])
    ensures config.Some? && Get(config.value, "configurable").VDict? ==>
              r == Ok(Get(config.value, "configurable").entries)
    ensures r.Err? <==>
              config.Some? && Truthy(Get(config.value, "configurable"))
              && !Get(config.value, "configurable").VDict?
  {
    if config.None? || config.value == map[] then Ok(map[])
    else
      var c := Get(config.value, "configurable");
      if !Truthy(c) then Ok(map[])
      else if c.VDict? then Ok(c.entries)
      else Err(NoItems(TypeName(c)))
  }

  /** The instance built from defaults and overrides: every override whose key
      names an init field replaces that field's default verbatim, every other
      override is dropped, and every other field keeps its default. */
  function Construct(fields: set<string>, defaults: Instance, overrides: map<string, Value>): (r: Instance)
    requires defaults.Keys == fields
    ensures r.Keys == fields
    ensures forall k :: k in fields && k in overrides ==> r[k] == overrides[k]
    ensures forall k :: k in fields && k !in overrides ==> r[k] == defaults[k]
  {
    defaults + map k | k in overrides && k in fields :: overrides[k]
  }

  /** Overrides whose keys are not init fields make no difference. */
  lemma ConstructDropsUnknownKeys(fields: set<string>, defaults: Instance,
                                  overrides: map<string, Value>, extra: map<string, Value>)
    requires defaults.Keys == fields
    requires extra.Keys !! fields
    ensures Construct(fields, defaults, overrides + extra) == Construct(fields, defaults, overrides)
  {
    var a := Construct(fields, defaults, overrides + extra);
    var b := Construct(fields, defaults, overrides);
    forall k | k in fields
      ensures a[k] == b[k]
    {
      assert k !in extra;
    }
  }

  /** No overrides give the defaults. */
  lemma ConstructWithoutOverrides(fields: set<string>, defaults: Instance)
    requires defaults.Keys == fields
    ensures Construct(fields, defaults, map[]) == defaults
  {
  }

  /** Feeding an instance back in as the overrides reproduces it, whatever the
      defaults: construction loses nothing that names a field. */
  lemma ConstructRoundTrip(fields: set<string>, defaults: Instance, inst: Instance)
    requires defaults.Keys == fields
    requires inst.Keys == fields
    ensures Construct(fields, defaults, inst) == inst
  {
  }

  /** `os.getenv(key, default)` over the given environment. */
  function EnvOr(env: map<string, string>, key: string, default: string): string
  {
    if key in env then env[key] else default
  }

  // ---------------------------------------------------------------------
  // The shared base class.

  const BaseFields: set<string> :=
    {"milvus_host", "milvus_port", "milvus_collection", "vector_dim",
     "embedding_model", "search_params", "retriever_provider"}

  /** The four retriever providers the base class declares. */
  const RetrieverProviders: set<string> := {"mongodb", "elastic", "pinecone", "other_provider"}

  function DefaultSearchParams(): Value
  {
    VDict(map["metric_type" := VStr("L2"), "nprobe" := VInt(10)])
  }

  function BaseDefaults(ctx: Context): (d: Instance)
    ensures d.Keys == BaseFields
  {
    map[
      "milvus_host" := VStr(EnvOr(ctx.env, "MILVUS_HOST", "127.0.0.1")),
      "milvus_port" := VStr(EnvOr(ctx.env, "MILVUS_PORT", "19530")),
      "milvus_collection" := VStr(EnvOr(ctx.env, "MILVUS_COLLECTION", "default_collection")),
      "vector_dim" := VInt(1536),
      "embedding_model" := VStr(DefaultEmbeddingModel),
      "search_params" := DefaultSearchParams(),
      "retriever_provider" := VStr("mongodb")
    ]
  }

  /** Builds a base configuration: defaults, overridden by the recognised keys
      of "configurable"; fails only when "configurable" is a truthy
      non-dictionary. */
  function BaseFromRunnableConfig(ctx: Context, config: RunnableConfig): (r: Result<Instance, ConfigError>)
    ensures r.Err? <==> Configurable(config).Err?
    ensures r.Ok? ==> r.value.Keys == BaseFields
    ensures r.Ok? ==> forall k :: k in BaseFields ==>
              r.value[k] == (var o := Configurable(config).value;
                             if k in o then o[k] else BaseDefaults(ctx)[k])
  {
    match Configurable(config)
    case Err(e) => Err(e)
    case Ok(o) => Ok(Construct(BaseFields, BaseDefaults(ctx), o))
  }

  /** With nothing configured, every base field holds its documented default. */
  lemma BaseUnconfiguredDefaults(ctx: Context, config: RunnableConfig)
    requires config.None? || !Truthy(Get(config.value, "configurable"))
    ensures BaseFromRunnableConfig(ctx, config).Ok?
    ensures var c := BaseFromRunnableConfig(ctx, config).value;
            && c["vector_dim"] == VInt(1536)
            && c["embedding_model"] == VStr("openai/text-embedding-3-small")
            && c["search_params"] == VDict(map["metric_type" := VStr("L2"), "nprobe" := VInt(10)])
            && c["retriever_provider"].VStr? && c["retriever_provider"].s in RetrieverProviders
            && c["retriever_provider"] == VStr("mongodb")
            && c["milvus_host"] == VStr(EnvOr(ctx.env, "MILVUS_HOST", "127.0.0.1"))
  {
  }

  // ---------------------------------------------------------------------
  // The agent's configuration (base fields plus models and prompts).

  const AgentOwnFields: set<string> :=
    {"query_model", "response_model", "vector_output_fields",
     "router_system_prompt", "grader_system_prompt", "response_system_prompt"}

  const AgentFields: set<string> := BaseFields + AgentOwnFields

  function AgentDefaults(ctx: Context): (d: Instance)
    ensures d.Keys == AgentFields
  {
    BaseDefaults(ctx) + map[
      "query_model" := VStr(DefaultAgentModel),
      "response_model" := VStr(DefaultAgentModel),
      "vector_output_fields" := VStr("summary"),
      "router_system_prompt" := VStr(ctx.prompts.router),
      "grader_system_prompt" := VStr(ctx.prompts.grader),
      "response_system_prompt" := VStr(ctx.prompts.response)
    ]
  }

  /** Builds the agent configuration; inherited base fields are recognised keys too. */
  function AgentFromRunnableConfig(ctx: Context, config: RunnableConfig): (r: Result<Instance, ConfigError>)
    ensures r.Err? <==> Configurable(config).Err?
    ensures r.Ok? ==> r.value.Keys == AgentFields
    ensures r.Ok? ==> forall k :: k in AgentFields ==>
              r.value[k] == (var o := Configurable(config).value;
                             if k in o then o[k] else AgentDefaults(ctx)[k])
  {
    match Configurable(config)
    case Err(e) => Err(e)
    case Ok(o) => Ok(Construct(AgentFields, AgentDefaults(ctx), o))
  }

  /** With nothing configured, the agent's models, output field and prompts
      hold their documented defaults, and the base defaults are inherited. */
  lemma AgentUnconfiguredDefaults(ctx: Context, config: RunnableConfig)
    requires config.None? || !Truthy(Get(config.value, "configurable"))
    ensures AgentFromRunnableConfig(ctx, config).Ok?
    ensures var c := AgentFromRunnableConfig(ctx, config).value;
            && c["query_model"] == VStr("gpt-3.5-turbo-0125")
            && c["response_model"] == VStr("gpt-3.5-turbo-0125")
            && c["vector_output_fields"] == VStr("summary")
            && c["router_system_prompt"] == VStr(ctx.prompts.router)
            && c["grader_system_prompt"] == VStr(ctx.prompts.grader)
            && c["response_system_prompt"] == VStr(ctx.prompts.response)
            && c["embedding_model"] == VStr("openai/text-embedding-3-small")
  {
    var d := AgentDefaults(ctx);
    ConstructWithoutOverrides(AgentFields, d);
    assert AgentFromRunnableConfig(ctx, config).value == d;
    AgentDefaultValues(ctx);
  }

  lemma AgentDefaultValues(ctx: Context)
    ensures var d := AgentDefaults(ctx);
            && d["query_model"] == VStr(DefaultAgentModel)
            && d["response_model"] == VStr(DefaultAgentModel)
            && d["vector_output_fields"] == VStr("summary")
            && d["router_system_prompt"] == VStr(ctx.prompts.router)
            && d["grader_system_prompt"] == VStr(ctx.prompts.grader)
            && d["response_system_prompt"] == VStr(ctx.prompts.response)
            && d["embedding_model"] == VStr(DefaultEmbeddingModel)
  {
  }

  /** What constructing the agent configuration can give: an instance with
      exactly the agent's fields, or the construction error. */
  type AgentConfigResult = r: Result<Instance, ConfigError> | r.Ok? ==> r.value.Keys == AgentFields
    witness Err(NoItems(""))

  // ---------------------------------------------------------------------
  // The hierarchical graph's configuration.

  const HierarchicalOwnFields: set<string> := {"query_model", "llm_router_model", "router_system_prompt"}

  const HierarchicalFields: set<string> := BaseFields + HierarchicalOwnFields

  function HierarchicalDefaults(ctx: Context): (d: Instance)
    ensures d.Keys == HierarchicalFields
  {
    BaseDefaults(ctx) + map[
      "query_model" := VStr(DefaultHierarchicalModel),
      "llm_router_model" := VStr(DefaultHierarchicalModel),
      "router_system_prompt" := VStr(ctx.prompts.router)
    ]
  }

  /** What constructing the hierarchical configuration can give. */
  type HierarchicalConfigResult = r: Result<Instance, ConfigError> | r.Ok? ==> r.value.Keys == HierarchicalFields
    witness Err(NoItems(""))

  function HierarchicalFromRunnableConfig(ctx: Context, config: RunnableConfig): (r: Result<Instance, ConfigError>)
    ensures r.Err? <==> Configurable(config).Err?
    ensures r.Ok? ==> r.value.Keys == HierarchicalFields
    ensures r.Ok? ==> forall k :: k in HierarchicalFields ==>
              r.value[k] == (var o := Configurable(config).value;
                             if k in o then o[k] else HierarchicalDefaults(ctx)[k])
  {
    match Configurable(config)
    case Err(e) => Err(e)
    case Ok(o) => Ok(Construct(HierarchicalFields, HierarchicalDefaults(ctx), o))
  }

  /** With nothing configured, both hierarchical models default to
      "gpt-4o-mini" and the router prompt to the router prompt constant. */
  lemma HierarchicalUnconfiguredDefaults(ctx: Context, config: RunnableConfig)
    requires config.None? || !Truthy(Get(config.value, "configurable"))
    ensures HierarchicalFromRunnableConfig(ctx, config).Ok?
    ensures var c := HierarchicalFromRunnableConfig(ctx, config).value;
            && c["query_model"] == VStr("gpt-4o-mini")
            && c["llm_router_model"] == VStr("gpt-4o-mini")
            && c["router_system_prompt"] == VStr(ctx.prompts.router)
  {
    ConstructWithoutOverrides(HierarchicalFields, HierarchicalDefaults(ctx));
    assert HierarchicalFromRunnableConfig(ctx, config).value == HierarchicalDefaults(ctx);
  }

  /** A key that is not a field of the agent configuration (for instance one
      only the hierarchical configuration declares) is dropped. */
  lemma AgentDropsForeignKey(ctx: Context, config: map<string, Value>, key: string, v: Value)
    requires key !in AgentFields
    requires Get(config, "configurable").VDict?
    ensures var extended := config["configurable" := VDict(Get(config, "configurable").entries[key := v])];
            AgentFromRunnableConfig(ctx, Some(extended)) == AgentFromRunnableConfig(ctx, Some(config))
  {
    var o := Get(config, "configurable").entries;
    var extended := config["configurable" := VDict(o[key := v])];
    assert Get(extended, "configurable") == VDict(o[key := v]);
    assert o[key := v] == o + map[key := v];
    ConstructDropsUnknownKeys(AgentFields, AgentDefaults(ctx), o, map[key := v]);
  }
}
