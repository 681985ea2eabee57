/** The top-level graph: a language model classifies the conversation, a
    router maps the classification to one of three branch nodes, and every
    branch node ends the run. */
module AgentGraph {
  import opened Common
  import opened Configuration
  import RagState
  import RagGraph

  /** The structured classification. Its `kind` is declared as one of three
      literals, but nothing at run time enforces that. */
  datatype Router = Router(kind: string, logic: string)

  const RouterKinds: set<string> := {"more-info", "movie", "general"}

  predicate WellTyped(r: Router)
  {
    r.kind in RouterKinds
  }

  /** The `router` field holds the classification record until a branch node
      overwrites it with a bare label. */
  datatype RouterSlot = Classified(router: Router) | Tag(text: string)

  datatype AgentState = AgentState(messages: seq<Message>, router: RouterSlot)

  /** A classification built with only its kind given; `logic` takes its default. */
  function NewRouter(kind: string): (r: Router)
    ensures r.kind == kind && r.logic == ""
  {
    Router(kind, "")
  }

  /** The state built from the one required field, `messages`; the router
      defaults to a "general" classification. */
  function NewAgentState(messages: seq<Message>): (s: AgentState)
    ensures s.messages == messages
    ensures s.router == Classified(Router("general", "")) && WellTyped(s.router.router)
  {
    AgentState(messages, Classified(NewRouter("general")))
  }

  datatype AgentError =
    | ConfigFailure(cause: ConfigError)
    | RouterIndexedByString(text: string)
    | UnknownRouterType(kind: string)
    | NoFirstMessage
    | QuestionNotText(content: Value)
    | SubgraphFailure(failure: RagGraph.RagError)
    | SubgraphUnfinished

  datatype Analyzed = Analyzed(prompt: seq<Message>, state: AgentState)

  /** A system message followed by the conversation, in order. */
  function SystemThen(system: Value, messages: seq<Message>): (p: seq<Message>)
    ensures |p| == |messages| + 1
    ensures p[0] == Message("system", system)
    ensures forall i :: 0 <= i < |messages| ==> p[i + 1] == messages[i]
  {
    [Message("system", system)] + messages
  }

  /** The classification node: the prompt is the configured router prompt
      followed by the conversation, and only `router` is updated, with the
      model's classification. */
  function AnalyzeAndRouteQuery(conf: AgentConfigResult, s: AgentState,
                                response: Router): (r: Result<Analyzed, AgentError>)
    ensures r.Ok? <==> conf.Ok?
    ensures r.Ok? ==>
              r.value.prompt == SystemThen(conf.value["router_system_prompt"], s.messages)
    ensures r.Ok? ==> r.value.state == s.(router := Classified(response))
  {
    match conf
    case Err(e) => Err(ConfigFailure(e))
    case Ok(cfg) =>
      assert "router_system_prompt" in AgentOwnFields;
      Ok(Analyzed(SystemThen(cfg["router_system_prompt"], s.messages), s.(router := Classified(response))))
  }

  /** The three branch nodes. */
  datatype Branch = CreateResearchPlan | AskForMoreInfo | RespondToGeneralQuery

  /** The router: "movie", "more-info" and "general" select their branch, any
      other kind is an error, and a bare label cannot be indexed by "type". */
  function RouteQuery(s: AgentState): (r: Result<Branch, AgentError>)
    ensures r == Ok(CreateResearchPlan) <==> s.router.Classified? && s.router.router.kind == "movie"
    ensures r == Ok(AskForMoreInfo) <==> s.router.Classified? && s.router.router.kind == "more-info"
    ensures r == Ok(RespondToGeneralQuery) <==> s.router.Classified? && s.router.router.kind == "general"
    ensures r.Err? <==> !(s.router.Classified? && WellTyped(s.router.router))
    ensures s.router.Classified? && !WellTyped(s.router.router) ==>
              r == Err(UnknownRouterType(s.router.router.kind))
  {
    match s.router
    case Tag(t) => Err(RouterIndexedByString(t))
    case Classified(router) =>
      if router.kind == "movie" then Ok(CreateResearchPlan)
      else if router.kind == "more-info" then Ok(AskForMoreInfo)
      else if router.kind == "general" then Ok(RespondToGeneralQuery)
      else Err(UnknownRouterType(router.kind))
  }

  /** What the research-plan node hands to the retrieval sub-graph, and the
      `steps` value it returns. */
  datatype Plan = Plan(subgraphInput: map<string, Value>, steps: string)

  /** The retrieval sub-graph run on the first message's text, under the same
      configuration; `replies` are the services' answers to its steps. */
  function Research(conf: AgentConfigResult, question: string, replies: seq<RagGraph.Reply>): Result<RagGraph.Run, RagGraph.RagError>
  {
    RagGraph.RunGraph(conf, RagGraph.Run(RagGraph.Entry, RagState.NewResearcherState(question)), replies)
  }

  /** The sub-graph returns normally exactly when its run reaches the end. */
  predicate ResearchReturns(conf: AgentConfigResult, messages: seq<Message>, replies: seq<RagGraph.Reply>)
  {
    |messages| > 0 && messages[0].content.VStr?
    && var sub := Research(conf, messages[0].content.s, replies);
       sub.Ok? && sub.value.node == RagGraph.End
  }

  /** The research-plan node: runs the retrieval sub-graph on the first
      message's content, discards its result, and returns the fixed steps
      "result". */
  function CreateResearchPlanNode(conf: AgentConfigResult, s: AgentState,
                                  replies: seq<RagGraph.Reply>): (r: Result<Plan, AgentError>)
    ensures r.Ok? <==> ResearchReturns(conf, s.messages, replies)
    ensures |s.messages| == 0 ==> r == Err(NoFirstMessage)
    ensures |s.messages| > 0 && !s.messages[0].content.VStr? ==> r == Err(QuestionNotText(s.messages[0].content))
    ensures r.Ok? ==> r.value.subgraphInput == map["question" := s.messages[0].content]
    ensures r.Ok? ==> r.value.steps == "result"
  {
    if |s.messages| == 0 then Err(NoFirstMessage)
    else if !s.messages[0].content.VStr? then Err(QuestionNotText(s.messages[0].content))
    else match Research(conf, s.messages[0].content.s, replies)
      case Err(e) => Err(SubgraphFailure(e))
      case Ok(run) =>
        if run.node != RagGraph.End then Err(SubgraphUnfinished)
        else Ok(Plan(map["question" := s.messages[0].content], "result"))
  }

  /** The two other branch nodes overwrite `router` with their bare label. */
  function LabelBranch(s: AgentState, b: Branch): (r: AgentState)
    requires b != CreateResearchPlan
    ensures r.messages == s.messages
    ensures b == AskForMoreInfo ==> r.router == Tag("more-info")
    ensures b == RespondToGeneralQuery ==> r.router == Tag("general")
  {
    s.(router := Tag(if b == AskForMoreInfo then "more-info" else "general"))
  }

  datatype Node = Start | AnalyzeAndRouteQueryNode | BranchNode(branch: Branch) | End

  /** The unconditional edges: the entry goes to the classifier, and every
      branch node goes to the end. The classifier's edge is conditional. */
  function Successor(n: Node): (r: Option<Node>)
  {
    match n
    case Start => Some(AnalyzeAndRouteQueryNode)
    case BranchNode(_) => Some(End)
    case _ => None
  }

  /** The end is entered only from a branch node, and every branch node enters it. */
  lemma BranchesEnd(n: Node)
    ensures Successor(n) == Some(End) <==> n.BranchNode?
    ensures Successor(Start) == Some(AnalyzeAndRouteQueryNode)
  {
  }

  datatype Outcome = Outcome(path: seq<Node>, state: AgentState, plan: Option<Plan>)

  /** One run of the graph: classify, route, run the chosen branch, end.
      `conf` is the agent configuration built from the run configuration, and
      `replies` feed the retrieval sub-graph when the research branch runs it. */
  function Invoke(conf: AgentConfigResult, messages: seq<Message>, response: Router,
                  replies: seq<RagGraph.Reply>): (r: Result<Outcome, AgentError>)
    ensures r.Ok? ==> |r.value.path| == 4 && r.value.path[0] == Start && r.value.path[3] == End
    ensures r.Ok? ==> forall i :: 0 <= i < |r.value.path| - 1 ==>
              Successor(r.value.path[i]) == Some(r.value.path[i + 1]) || r.value.path[i] == AnalyzeAndRouteQueryNode
    ensures r.Ok? ==> (r.value.path[2] == BranchNode(CreateResearchPlan) <==> response.kind == "movie")
    ensures r.Ok? ==> (r.value.path[2] == BranchNode(AskForMoreInfo) <==> response.kind == "more-info")
    ensures r.Ok? ==> (r.value.path[2] == BranchNode(RespondToGeneralQuery) <==> response.kind == "general")
    ensures r.Ok? <==>
              conf.Ok? && WellTyped(response)
              && (response.kind == "movie" ==> ResearchReturns(conf, messages, replies))
    ensures r.Ok? && response.kind == "movie" ==>
              r.value.state.router == Classified(response)
              && r.value.plan == Some(Plan(map["question" := messages[0].content], "result"))
    ensures r.Ok? && response.kind == "more-info" ==> r.value.state.router == Tag("more-info") && r.value.plan.None?
    ensures r.Ok? && response.kind == "general" ==> r.value.state.router == Tag("general") && r.value.plan.None?
    ensures r.Ok? ==> r.value.state.messages == messages
  {
    match AnalyzeAndRouteQuery(conf, NewAgentState(messages), response)
    case Err(e) => Err(e)
    case Ok(analyzed) =>
      match RouteQuery(analyzed.state)
      case Err(e) => Err(e)
      case Ok(b) =>
        var path := [Start, AnalyzeAndRouteQueryNode, BranchNode(b), End];
        if b == CreateResearchPlan then
          match CreateResearchPlanNode(conf, analyzed.state, replies)
          case Err(e) => Err(e)
          case Ok(plan) => Ok(Outcome(path, analyzed.state, Some(plan)))
        else Ok(Outcome(path, LabelBranch(analyzed.state, b), None))
  }

  /** When every grounding grade of the sub-graph is a grade record, the
      sub-graph never reaches its end, so a "movie" run never completes. */
  lemma MovieNeedsBareGrade(conf: AgentConfigResult, messages: seq<Message>, response: Router,
                            replies: seq<RagGraph.Reply>)
    requires response.kind == "movie"
    requires forall i :: 0 <= i < |replies| ==> replies[i].grounding.Structured?
    ensures Invoke(conf, messages, response, replies).Err?
  {
    if |messages| > 0 && messages[0].content.VStr? {
      var start := RagGraph.Run(RagGraph.Entry, RagState.NewResearcherState(messages[0].content.s));
      RagGraph.NoEndWithGradeRecords(conf, start, replies);
    }
  }

  /** A well-typed classification never makes the router raise. */
  lemma WellTypedNeverRaises(s: AgentState, r: Router)
    requires WellTyped(r)
    ensures RouteQuery(s.(router := Classified(r))).Ok?
  {
  }
}
