/** The supervisor/worker graph: a language model picks the next worker or
    FINISH, each (mocked) worker appends one message and reports back to the
    supervisor, and only the supervisor can end the run. */
module Hierarchical {
  import opened Common
  import opened Configuration

  datatype NodeResponse = NodeResponse(result: Option<string>, status: string, metadata: Option<map<string, Value>>)

  datatype HierState = HierState(
    messages: seq<Message>,
    searchResponse: NodeResponse,
    webScraperResponse: NodeResponse,
    supervisorResponse: Option<string>)

  /** A worker response before the worker has run. */
  function PendingResponse(): (r: NodeResponse)
    ensures r.result.None? && r.status == "pending" && r.metadata.None?
  {
    NodeResponse(None, "pending", None)
  }

  /** The state built from the one required field, `messages`: both worker
      responses pending and no supervisor response. */
  function NewHierState(messages: seq<Message>): (s: HierState)
    ensures s.messages == messages
    ensures s.searchResponse == PendingResponse() && s.webScraperResponse == PendingResponse()
    ensures s.supervisorResponse.None?
  {
    HierState(messages, PendingResponse(), PendingResponse(), None)
  }

  /** The workers the supervisor manages, and the choices offered to it. */
  const Members: seq<string> := ["search", "web_scraper"]

  const Finish := "FINISH"

  function Options(members: seq<string>): (o: seq<string>)
    ensures |o| == |members| + 1 && o[0] == "FINISH" && o[1..] == members
  {
    [Finish] + members
  }

  /** Python's rendering of a list of plain strings, as in `['a', 'b']`. */
  function QuotedList(xs: seq<string>): string
  {
    "[" + QuotedItems(xs) + "]"
  }

  function QuotedItems(xs: seq<string>): string
  {
    if |xs| == 0 then ""
    else if |xs| == 1 then "'" + xs[0] + "'"
    else "'" + xs[0] + "', " + QuotedItems(xs[1..])
  }

  function SupervisorPrompt(members: seq<string>): string
  {
    "You are a supervisor tasked with managing a conversation between the"
    + " following workers: " + QuotedList(members) + ". Given the following user request,"
    + " respond with the worker to act next. Each worker will perform a"
    + " task and respond with their results and status. When finished,"
    + " respond with FINISH."
  }

  /** The supervisor's prompt: its system instruction, naming the members,
      followed by the conversation in order. */
  function SupervisorMessages(members: seq<string>, s: HierState): (p: seq<Message>)
    ensures |p| == |s.messages| + 1
    ensures p[0] == Message("system", VStr(SupervisorPrompt(members)))
    ensures p[1..] == s.messages
  {
    [Message("system", VStr(SupervisorPrompt(members)))] + s.messages
  }

  /** The system instruction names exactly the two workers. */
  lemma SupervisorPromptNamesMembers()
    ensures QuotedList(Members) == "['search', 'web_scraper']"
  {
  }

  /** The name a command targets to end the run. */
  const EndName := "__end__"

  /** The choices that end the run: "FINISH", and the end's own name. */
  predicate EndsRun(choice: string)
  {
    choice == Finish || choice == EndName
  }

  /** The supervisor's decision: "FINISH" is rewritten to the end's name, any
      other choice is used verbatim as the next node's name, so a choice of the
      end's name itself ends the run too. */
  function SupervisorGoto(choice: string): (g: string)
    ensures g == EndName <==> EndsRun(choice)
    ensures choice != Finish ==> g == choice
  {
    if choice == Finish then EndName else choice
  }

  const SearchResult := "Found top 5 AI research papers of 2023"
  const WebScraperResult := "Scraped abstracts: [abstract 1, abstract 2, ...]"

  function SearchMessage(): Message
  {
    Message("ai", VStr("Search result: " + SearchResult))
  }

  function WebScraperMessage(): Message
  {
    Message("ai", VStr("Web Scraper result: " + WebScraperResult))
  }

  datatype Worker = Search | WebScraper

  datatype HierError = ConfigFailure(cause: ConfigError) | UnknownNode(name: string)

  /** A node's command: the state update it returns, if any, and where the run
      goes next. */
  datatype Command = Command(update: Option<HierState>, goto: string)

  /** What the supervisor node sends to the model, and the command it returns. */
  datatype SupervisorTurn = SupervisorTurn(prompt: seq<Message>, command: Command)

  /** The supervisor node: it prompts the model with its instruction and the
      conversation, and its command carries no update, only the target. */
  function SupervisorNode(conf: HierarchicalConfigResult, s: HierState, choice: string): (r: Result<SupervisorTurn, HierError>)
    ensures r.Ok? <==> conf.Ok?
    ensures r.Ok? ==> r.value.prompt == SupervisorMessages(Members, s)
    ensures r.Ok? ==> r.value.command.update.None?
    ensures r.Ok? ==> (r.value.command.goto == EndName <==> EndsRun(choice))
  {
    match conf
    case Err(e) => Err(ConfigFailure(e))
    case Ok(_) => Ok(SupervisorTurn(SupervisorMessages(Members, s), Command(None, SupervisorGoto(choice))))
  }

  /** A worker node: records its mock result as completed, appends exactly one
      message after the existing ones, and always reports back to the supervisor. */
  function WorkerNode(conf: HierarchicalConfigResult, w: Worker, s: HierState): (r: Result<Command, HierError>)
    ensures r.Ok? <==> conf.Ok?
    ensures r.Ok? ==> r.value.goto == "supervisor" && r.value.update.Some?
    ensures r.Ok? ==> r.value.update.value.messages ==
                        s.messages + [if w == Search then SearchMessage() else WebScraperMessage()]
    ensures r.Ok? && w == Search ==>
              r.value.update.value.searchResponse == NodeResponse(Some(SearchResult), "completed", None)
              && r.value.update.value.webScraperResponse == s.webScraperResponse
    ensures r.Ok? && w == WebScraper ==>
              r.value.update.value.webScraperResponse == NodeResponse(Some(WebScraperResult), "completed", None)
              && r.value.update.value.searchResponse == s.searchResponse
    ensures r.Ok? ==> r.value.update.value.supervisorResponse == s.supervisorResponse
  {
    match conf
    case Err(e) => Err(ConfigFailure(e))
    case Ok(_) =>
      match w
      case Search =>
        Ok(Command(Some(s.(searchResponse := NodeResponse(Some(SearchResult), "completed", None),
                           messages := s.messages + [SearchMessage()])),
                   "supervisor"))
      case WebScraper =>
        Ok(Command(Some(s.(webScraperResponse := NodeResponse(Some(WebScraperResult), "completed", None),
                           messages := s.messages + [WebScraperMessage()])),
                   "supervisor"))
  }

  datatype Node = Supervisor | WorkerStep(worker: Worker) | End

  const Entry: Node := Supervisor

  /** Resolves a command's target against the graph's nodes and the end; an
      unknown name is an error. */
  function Resolve(name: string): (r: Result<Node, HierError>)
    ensures r == Ok(End) <==> name == EndName
    ensures r.Err? <==> name !in {EndName, "supervisor", "search", "web_scraper"}
  {
    if name == EndName then Ok(End)
    else if name == "supervisor" then Ok(Supervisor)
    else if name == "search" then Ok(WorkerStep(Search))
    else if name == "web_scraper" then Ok(WorkerStep(WebScraper))
    else Err(UnknownNode(name))
  }

  /** The state after a command: its update when it returns one. */
  function Apply(cmd: Command, s: HierState): HierState
  {
    if cmd.update.Some? then cmd.update.value else s
  }

  datatype Run = Run(node: Node, state: HierState)

  /** Runs the current node. `choice` is the supervisor's pick, read only when
      the supervisor runs; the supervisor issues no state update, and only its
      "FINISH" (or the end's own name) ends the run. */
  function Step(conf: HierarchicalConfigResult, c: Run, choice: string): (r: Result<Run, HierError>)
    ensures c.node == End ==> r == Ok(c)
    ensures r.Ok? && r.value.node == End ==>
              c.node == End || (c.node == Supervisor && EndsRun(choice))
    ensures c.node == Supervisor && conf.Ok? && EndsRun(choice) ==> r == Ok(Run(End, c.state))
    ensures r.Ok? && c.node.WorkerStep? ==> r.value.node == Supervisor
    ensures r.Ok? && !c.node.WorkerStep? ==> r.value.state == c.state
    ensures r.Ok? && c.node.WorkerStep? ==>
              r.value.state.messages ==
                c.state.messages + [if c.node.worker == Search then SearchMessage() else WebScraperMessage()]
    ensures c.node == Supervisor && conf.Ok? && choice in Options(Members) ==> r.Ok?
  {
    match c.node
    case End => Ok(c)
    case Supervisor =>
      (match SupervisorNode(conf, c.state, choice)
       case Err(e) => Err(e)
       case Ok(turn) =>
         match Resolve(turn.command.goto)
         case Err(e) => Err(e)
         case Ok(n) => Ok(Run(n, Apply(turn.command, c.state))))
    case WorkerStep(w) =>
      (match WorkerNode(conf, w, c.state)
       case Err(e) => Err(e)
       case Ok(cmd) =>
         match Resolve(cmd.goto)
         case Err(e) => Err(e)
         case Ok(n) => Ok(Run(n, Apply(cmd, c.state))))
  }

  /** The message a worker appends. */
  predicate IsWorkerMessage(m: Message)
  {
    m == SearchMessage() || m == WebScraperMessage()
  }

  /** Steps the graph once per choice until the end or until the choices run
      out. Earlier messages are never changed, and every message added is a
      worker's. */
  function RunGraph(conf: HierarchicalConfigResult, c: Run, choices: seq<string>): (r: Result<Run, HierError>)
    ensures r.Ok? ==> |c.state.messages| <= |r.value.state.messages|
    ensures r.Ok? ==> r.value.state.messages[..|c.state.messages|] == c.state.messages
    ensures r.Ok? ==> forall k :: |c.state.messages| <= k < |r.value.state.messages| ==>
                        IsWorkerMessage(r.value.state.messages[k])
    decreases |choices|
  {
    if c.node == End || |choices| == 0 then Ok(c)
    else
      var step := Step(conf, c, choices[0]);
      if step.Err? then Err(step.error)
      else
        StepExtends(conf, c, choices[0]);
        var r := RunGraph(conf, step.value, choices[1..]);
        if r.Err? then r
        else
          ExtendsTransitive(c.state.messages, step.value.state.messages, r.value.state.messages);
          r
  }

  /** `b` keeps `a` as its prefix and adds only worker messages. */
  ghost predicate Extends(a: seq<Message>, b: seq<Message>)
  {
    |a| <= |b| && b[..|a|] == a && forall k :: |a| <= k < |b| ==> IsWorkerMessage(b[k])
  }

  lemma StepExtends(conf: HierarchicalConfigResult, c: Run, choice: string)
    ensures Step(conf, c, choice).Ok? ==> Extends(c.state.messages, Step(conf, c, choice).value.state.messages)
  {
  }

  lemma ExtendsTransitive(a: seq<Message>, b: seq<Message>, c: seq<Message>)
    requires Extends(a, b) && Extends(b, c)
    ensures Extends(a, c)
  {
    assert c[..|a|] == c[..|b|][..|a|];
  }

  /** Runs the graph from its entry on a conversation. */
  function Invoke(conf: HierarchicalConfigResult, messages: seq<Message>, choices: seq<string>): (r: Result<Run, HierError>)
    ensures r.Ok? ==> |messages| <= |r.value.state.messages| && r.value.state.messages[..|messages|] == messages
  {
    RunGraph(conf, Run(Entry, NewHierState(messages)), choices)
  }

  /** Every step that ends the run is a supervisor step on a FINISH choice (or
      on the end's own name). */
  lemma {:induction false} EndOnlyByFinish(conf: HierarchicalConfigResult, c: Run, choices: seq<string>)
    requires c.node != End
    requires forall i :: 0 <= i < |choices| ==> !EndsRun(choices[i])
    ensures RunGraph(conf, c, choices).Ok? ==> RunGraph(conf, c, choices).value.node != End
    decreases |choices|
  {
    if |choices| > 0 {
      var r := Step(conf, c, choices[0]);
      if r.Ok? {
        NoFinishKeepsRunning(conf, c, choices[0]);
        EndOnlyByFinish(conf, r.value, choices[1..]);
      }
    }
  }

  lemma NoFinishKeepsRunning(conf: HierarchicalConfigResult, c: Run, choice: string)
    requires c.node != End && !EndsRun(choice)
    ensures Step(conf, c, choice).Ok? ==> Step(conf, c, choice).value.node != End
  {
  }

  /** With a working configuration and every choice among the offered options,
      a run never fails. */
  lemma {:induction false} OfferedChoicesNeverFail(conf: HierarchicalConfigResult, c: Run, choices: seq<string>)
    requires conf.Ok?
    requires forall i :: 0 <= i < |choices| ==> choices[i] in Options(Members)
    ensures RunGraph(conf, c, choices).Ok?
    decreases |choices|
  {
    if c.node != End && |choices| > 0 {
      var r := Step(conf, c, choices[0]);
      assert r.Ok?;
      OfferedChoicesNeverFail(conf, r.value, choices[1..]);
    }
  }
}
