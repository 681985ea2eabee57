/** The records the self-reflective retrieval graph threads through its nodes. */
module RagState {

  /** The two literals a relevance grade may carry. */
  datatype GraderType = Yes | No

  /** A structured grade returned by the language model. */
  datatype Grader = Grader(kind: GraderType, logic: string)

  /** A structured rewrite returned by the language model. */
  datatype RewriterResponse = RewriterResponse(rewrittenQuestion: string, reasoning: string)

  /** A document's metadata values: the vector hit's id and its distance. */
  datatype MetaValue = MetaId(id: int) | MetaDistance(distance: real)

  datatype Document = Document(pageContent: string, metadata: map<string, MetaValue>)

  /** The `generation` field starts as a list of log strings, and the
      generate node overwrites it with the model's answer. */
  datatype Generation = Log(entries: seq<string>) | Answer(text: string)

  datatype ResearcherState = ResearcherState(
    question: string,
    generation: Generation,
    documents: seq<Document>,
    iterationCount: int,
    maxIterations: int)

  /** A grade built with only its kind given; `logic` takes its default. */
  function NewGrader(kind: GraderType): (g: Grader)
    ensures g.kind == kind && g.logic == ""
  {
    Grader(kind, "")
  }

  /** A rewrite built with only its question given; `reasoning` takes its default. */
  function NewRewriterResponse(rewritten: string): (r: RewriterResponse)
    ensures r.rewrittenQuestion == rewritten && r.reasoning == ""
  {
    RewriterResponse(rewritten, "")
  }

  /** The state built from the one required field, `question`; every other
      field takes its default. */
  function NewResearcherState(question: string): (s: ResearcherState)
    ensures s.question == question
    ensures s.generation == Log([]) && s.documents == []
    ensures s.iterationCount == 0 && s.maxIterations == 5
  {
    ResearcherState(question, Log([]), [], 0, 5)
  }
}
