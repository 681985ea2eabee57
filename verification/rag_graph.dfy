/** The self-reflective retrieval graph: retrieve, grade for relevance, then
    either rewrite the question or generate an answer and check it against
    the documents. Embedding, vector search and every language-model call are
    inputs: each step receives a `Reply` holding what those services returned. */
module RagGraph {
  import opened Common
  import opened Configuration
  import opened RagState

  // ---------------------------------------------------------------------
  // Retrieval

  /** One vector-search hit: its id, its distance and its stored fields. */
  datatype Hit = Hit(id: int, distance: real, entity: map<string, string>)

  /** The search the retrieve node issues. */
  datatype SearchRequest = SearchRequest(topK: nat, outputFields: seq<Value>)

  datatype RagError =
    | ConfigFailure(cause: ConfigError)
    | UnsupportedEmbeddingModel(model: Value)
    | GenerationNotAList
    | PromptNotFormattable(prompt: Value)
    | GradeWithoutType(text: string)
    | NoRewrittenQuestion(text: string)

  /** The only embedding model the embedding service accepts. */
  const SupportedEmbeddingModel := "openai/text-embedding-3-small"

  /** The entity field read for a document's text, whatever fields were requested. */
  const SummaryField := "summary"

  const RetrievalTopK := 3

  function HitDocument(h: Hit): Document
  {
    Document(if SummaryField in h.entity then h.entity[SummaryField] else "",
             map["id" := MetaId(h.id), "distance" := MetaDistance(h.distance)])
  }

  function HitCount(groups: seq<seq<Hit>>): nat
  {
    if |groups| == 0 then 0 else |groups[0]| + HitCount(groups[1..])
  }

  function GroupDocuments(hits: seq<Hit>): (docs: seq<Document>)
    ensures |docs| == |hits|
    ensures forall j :: 0 <= j < |hits| ==> docs[j] == HitDocument(hits[j])
  {
    if |hits| == 0 then [] else [HitDocument(hits[0])] + GroupDocuments(hits[1..])
  }

  /** All hits of all result groups as documents, group after group. */
  function HitsDocuments(groups: seq<seq<Hit>>): (docs: seq<Document>)
    ensures |docs| == HitCount(groups)
  {
    if |groups| == 0 then [] else GroupDocuments(groups[0]) + HitsDocuments(groups[1..])
  }

  /** Hit `j` of group `i` becomes the document at position "hits in the
      groups before `i`, plus `j`": one document per hit, flattened in order. */
  lemma {:induction false} HitsDocumentsAt(groups: seq<seq<Hit>>, i: nat, j: nat)
    requires i < |groups| && j < |groups[i]|
    ensures HitCount(groups[..i]) + j < |HitsDocuments(groups)|
    ensures HitsDocuments(groups)[HitCount(groups[..i]) + j] == HitDocument(groups[i][j])
  {
    if i == 0 {
      assert groups[..0] == [];
    } else {
      assert groups[..i][1..] == groups[1..][..i - 1];
      HitsDocumentsAt(groups[1..], i - 1, j);
      HitCountPrefix(groups, i);
    }
  }

  lemma HitCountPrefix(groups: seq<seq<Hit>>, i: nat)
    requires 0 < i <= |groups|
    ensures HitCount(groups[..i]) == |groups[0]| + HitCount(groups[1..][..i - 1])
  {
    assert groups[..i][1..] == groups[1..][..i - 1];
  }

  /** Every retrieved document carries exactly the metadata keys "id" and
      "distance", and a hit with no "summary" field gives empty text. */
  lemma HitDocumentShape(h: Hit)
    ensures HitDocument(h).metadata.Keys == {"id", "distance"}
    ensures HitDocument(h).metadata["id"] == MetaId(h.id)
    ensures HitDocument(h).metadata["distance"] == MetaDistance(h.distance)
    ensures "summary" !in h.entity ==> HitDocument(h).pageContent == ""
    ensures "summary" in h.entity ==> HitDocument(h).pageContent == h.entity["summary"]
  {
  }

  datatype Retrieved = Retrieved(request: SearchRequest, state: ResearcherState)

  /** The retrieve node: checks the embedding model, asks for the three nearest
      hits projecting the configured output field, and replaces the documents
      with the hits' documents. */
  function RetrieveDocuments(conf: AgentConfigResult, s: ResearcherState,
                             hits: seq<seq<Hit>>): (r: Result<Retrieved, RagError>)
    ensures r.Ok? <==>
              conf.Ok?
              && conf.value["embedding_model"] == VStr("openai/text-embedding-3-small")
    ensures r.Ok? ==> r.value.request.topK == 3
    ensures r.Ok? ==> r.value.request.outputFields ==
                        [conf.value["vector_output_fields"]]
    ensures r.Ok? ==> r.value.state.documents == HitsDocuments(hits)
    ensures r.Ok? ==> r.value.state == s.(documents := r.value.state.documents)
  {
    match conf
    case Err(e) => Err(ConfigFailure(e))
    case Ok(cfg) =>
      assert "embedding_model" in BaseFields && "vector_output_fields" in AgentOwnFields;
      if cfg["embedding_model"] != VStr(SupportedEmbeddingModel) then
        Err(UnsupportedEmbeddingModel(cfg["embedding_model"]))
      else
        Ok(Retrieved(SearchRequest(RetrievalTopK, [cfg["vector_output_fields"]]),
                     s.(documents := HitsDocuments(hits))))
  }

  // ---------------------------------------------------------------------
  // Relevance grading

  /** The positions, among the first `n` grading calls, whose grade is "yes",
      in increasing order. `verdict(i)` is the grade returned for document `i`. */
  function KeptIndices(verdict: nat -> Grader, n: nat): (idx: seq<nat>)
    ensures forall k :: 0 <= k < |idx| ==> idx[k] < n && verdict(idx[k]).kind == Yes
    ensures forall k, l :: 0 <= k < l < |idx| ==> idx[k] < idx[l]
    ensures forall i :: 0 <= i < n && verdict(i).kind == Yes ==> i in idx
  {
    if n == 0 then []
    else KeptIndices(verdict, n - 1) + (if verdict(n - 1).kind == Yes then [n - 1] else [])
  }

  /** The first `n` documents with every one graded "no" dropped. */
  function Relevant(docs: seq<Document>, verdict: nat -> Grader, n: nat): seq<Document>
    requires n <= |docs|
  {
    if n == 0 then []
    else Relevant(docs, verdict, n - 1) + (if verdict(n - 1).kind == Yes then [docs[n - 1]] else [])
  }

  /** The relevance filter is a stable selection: its output is the input at
      exactly the positions graded "yes", in their original order. */
  lemma {:induction false} RelevantIsSelection(docs: seq<Document>, verdict: nat -> Grader, n: nat)
    requires n <= |docs|
    ensures |Relevant(docs, verdict, n)| == |KeptIndices(verdict, n)|
    ensures forall k :: 0 <= k < |KeptIndices(verdict, n)| ==>
              Relevant(docs, verdict, n)[k] == docs[KeptIndices(verdict, n)[k]]
  {
    if n > 0 {
      RelevantIsSelection(docs, verdict, n - 1);
    }
  }

  /** All graded "yes" keeps everything; all graded "no" keeps nothing. */
  lemma {:induction false} RelevantExtremes(docs: seq<Document>, verdict: nat -> Grader, n: nat)
    requires n <= |docs|
    ensures (forall i :: 0 <= i < n ==> verdict(i).kind == Yes) ==> Relevant(docs, verdict, n) == docs[..n]
    ensures (forall i :: 0 <= i < n ==> verdict(i).kind == No) ==> Relevant(docs, verdict, n) == []
  {
    if n > 0 {
      RelevantExtremes(docs, verdict, n - 1);
      assert docs[..n] == docs[..n - 1] + [docs[n - 1]];
    }
  }

  /** The first of the first `n` grading replies that is a bare string rather
      than a grade record, if any. */
  function FirstUntyped(verdict: nat -> GradeValue, n: nat): (k: Option<nat>)
    ensures k.None? <==> forall i :: 0 <= i < n ==> verdict(i).Structured?
    ensures k.Some? ==> k.value < n && verdict(k.value).Plain?
                        && forall i :: 0 <= i < k.value ==> verdict(i).Structured?
  {
    if n == 0 then None
    else
      match FirstUntyped(verdict, n - 1)
      case Some(k) => Some(k)
      case None => if verdict(n - 1).Plain? then Some(n - 1) else None
  }

  /** The grade records of the grading replies; a bare string never reaches
      the filter, so what stands in for it does not matter. */
  function Grades(verdict: nat -> GradeValue): nat -> Grader
  {
    (i: nat) => if verdict(i).Structured? then verdict(i).grade else NewGrader(No)
  }

  /** The grade-documents node: grades the documents in order, keeps those
      graded "yes", and returns the question unchanged. A bare-string reply has
      no `type`, so the first one stops the node. */
  function GradeDocuments(conf: AgentConfigResult, s: ResearcherState,
                          verdict: nat -> GradeValue): (r: Result<ResearcherState, RagError>)
    ensures r.Ok? <==> conf.Ok? && forall i :: 0 <= i < |s.documents| ==> verdict(i).Structured?
    ensures conf.Ok? && FirstUntyped(verdict, |s.documents|).Some? ==>
              r == Err(GradeWithoutType(verdict(FirstUntyped(verdict, |s.documents|).value).text))
    ensures r.Ok? ==> r.value == s.(documents := Relevant(s.documents, Grades(verdict), |s.documents|))
  {
    match conf
    case Err(e) => Err(ConfigFailure(e))
    case Ok(_) =>
      match FirstUntyped(verdict, |s.documents|)
      case Some(k) => Err(GradeWithoutType(verdict(k).text))
      case None => Ok(s.(documents := Relevant(s.documents, Grades(verdict), |s.documents|)))
  }

  // ---------------------------------------------------------------------
  // Decision gate, generation, rewriting

  /** The two labels the decision gate returns. */
  datatype Decision = TransformQueryLabel | GenerateLabel

  /** Route to rewriting exactly when no document survived grading. */
  function DecideToGenerate(s: ResearcherState): (d: Decision)
    ensures d == TransformQueryLabel <==> |s.documents| == 0
    ensures d == GenerateLabel <==> |s.documents| > 0
  {
    if |s.documents| == 0 then TransformQueryLabel else GenerateLabel
  }

  /** The generate node: the configured response prompt is formatted with the
      documents as context, and the model's answer overwrites `generation`.
      Only a string has a `format` method. */
  function Generate(conf: AgentConfigResult, s: ResearcherState,
                    answer: string): (r: Result<ResearcherState, RagError>)
    ensures r.Ok? <==> conf.Ok? && conf.value["response_system_prompt"].VStr?
    ensures conf.Ok? && !conf.value["response_system_prompt"].VStr? ==>
              r == Err(PromptNotFormattable(conf.value["response_system_prompt"]))
    ensures r.Ok? ==> r.value.generation == Answer(answer)
    ensures r.Ok? ==> r.value.question == s.question && r.value.documents == s.documents
    ensures r.Ok? ==> r.value.iterationCount == s.iterationCount && r.value.maxIterations == s.maxIterations
  {
    match conf
    case Err(e) => Err(ConfigFailure(e))
    case Ok(cfg) =>
      assert "response_system_prompt" in AgentOwnFields;
      if !cfg["response_system_prompt"].VStr? then Err(PromptNotFormattable(cfg["response_system_prompt"]))
      else Ok(s.(generation := Answer(answer)))
  }

  /** What the un-structured rewriting call hands back: the rewrite record it
      is cast to, or the free-text completion it may really be. */
  datatype RewriteReply = RewriteRecord(record: RewriterResponse) | Completion(text: string)

  /** The transform-query node: the rewritten question replaces the question.
      A completion has no `rewritten_question`, which stops the node first.
      The node also appends a "Reasoning: ..." entry to its own copy of the
      generation log, which fails on an answer that is not a list; the entry is
      not part of the update it returns, so `generation` is left as it was. */
  function TransformQuery(conf: AgentConfigResult, s: ResearcherState,
                          reply: RewriteReply): (r: Result<ResearcherState, RagError>)
    ensures r.Ok? <==> conf.Ok? && reply.RewriteRecord? && s.generation.Log?
    ensures conf.Ok? && reply.Completion? ==> r == Err(NoRewrittenQuestion(reply.text))
    ensures r == Err(GenerationNotAList) <==>
              conf.Ok? && reply.RewriteRecord? && s.generation.Answer?
    ensures r.Ok? ==> r.value.question == reply.record.rewrittenQuestion
    ensures r.Ok? ==> r.value.generation == s.generation
    ensures r.Ok? ==> r.value.documents == s.documents
    ensures r.Ok? ==> r.value.iterationCount == s.iterationCount && r.value.maxIterations == s.maxIterations
  {
    match conf
    case Err(e) => Err(ConfigFailure(e))
    case Ok(_) =>
      match reply
      case Completion(text) => Err(NoRewrittenQuestion(text))
      case RewriteRecord(response) =>
        match s.generation
        case Answer(_) => Err(GenerationNotAList)
        case Log(_) => Ok(s.(question := response.rewrittenQuestion))
  }

  // ---------------------------------------------------------------------
  // Grounding check

  /** What the structured grading call hands back: a grade record, or a bare
      string. */
  datatype GradeValue = Structured(grade: Grader) | Plain(text: string)

  /** The three labels the grounding router may return. */
  datatype GroundingRoute = NotSupported | Useful | NotUseful

  /** The usefulness grade, fixed instead of asked of the model. */
  const UsefulnessGrade := "yes"

  /** The grounding router as written: it compares the whole grade value, not
      its `kind`, with "yes", and the usefulness branch reads a fixed grade. */
  function GroundingRouteOf(grade: GradeValue): GroundingRoute
  {
    if grade == Plain("yes") then
      (if UsefulnessGrade == "yes" then Useful else NotUseful)
    else NotSupported
  }

  /** The grounding check node, including its configuration read. */
  function GradeGeneration(conf: AgentConfigResult, grade: GradeValue): (r: Result<GroundingRoute, RagError>)
    ensures r.Ok? <==> conf.Ok?
    ensures r == Ok(Useful) <==> conf.Ok? && grade == Plain("yes")
    ensures r != Ok(NotUseful)
  {
    match conf
    case Err(e) => Err(ConfigFailure(e))
    case Ok(_) => Ok(GroundingRouteOf(grade))
  }

  /** A well-formed grade record never passes the grounding check, whatever
      its kind: only a bare "yes" does, and "not useful" is never returned. */
  lemma GroundingIgnoresGradeRecords(g: Grader, grade: GradeValue)
    ensures GroundingRouteOf(Structured(g)) == NotSupported
    ensures GroundingRouteOf(grade) == Useful <==> grade == Plain("yes")
    ensures GroundingRouteOf(grade) != NotUseful
  {
  }

  // ---------------------------------------------------------------------
  // The transition table

  datatype Node = RetrieveDocumentsNode | GradeDocumentsNode | GenerateNode | TransformQueryNode | End

  const Entry: Node := RetrieveDocumentsNode

  /** Unconditional edges: retrieve to grade, and rewrite back to retrieve. */
  function FixedSuccessor(n: Node): Option<Node>
  {
    match n
    case RetrieveDocumentsNode => Some(GradeDocumentsNode)
    case TransformQueryNode => Some(RetrieveDocumentsNode)
    case _ => None
  }

  /** The conditional edges out of grade-documents. */
  function DecisionTarget(d: Decision): Node
  {
    match d
    case TransformQueryLabel => TransformQueryNode
    case GenerateLabel => GenerateNode
  }

  /** The conditional edges out of generate. */
  function GroundingTarget(g: GroundingRoute): Node
  {
    match g
    case NotSupported => GenerateNode
    case Useful => End
    case NotUseful => TransformQueryNode
  }

  /** "useful" is the only edge into the end of the graph. */
  lemma OnlyUsefulEnds(n: Node, d: Decision, g: GroundingRoute)
    ensures FixedSuccessor(n) != Some(End)
    ensures DecisionTarget(d) != End
    ensures GroundingTarget(g) == End <==> g == Useful
  {
  }

  /** What the external services return during one step. `relevance(i)` is
      the grade for the `i`-th document graded in that step. */
  datatype Reply = Reply(
    hits: seq<seq<Hit>>,
    relevance: nat -> GradeValue,
    answer: string,
    rewrite: RewriteReply,
    grounding: GradeValue)

  datatype Run = Run(node: Node, state: ResearcherState)

  /** Runs the current node and follows its outgoing edge. The end is a fixed point. */
  function Step(conf: AgentConfigResult, c: Run, reply: Reply): (r: Result<Run, RagError>)
    ensures r.Ok? ==> r.value.state.iterationCount == c.state.iterationCount
    ensures r.Ok? ==> r.value.state.maxIterations == c.state.maxIterations
    ensures r.Ok? && r.value.node == End ==>
              c.node == End || (c.node == GenerateNode && reply.grounding == Plain("yes"))
    ensures c.node == End ==> r == Ok(c)
  {
    match c.node
    case End => Ok(c)
    case RetrieveDocumentsNode =>
      (match RetrieveDocuments(conf, c.state, reply.hits)
       case Err(e) => Err(e)
       case Ok(got) => Ok(Run(FixedSuccessor(c.node).value, got.state)))
    case GradeDocumentsNode =>
      (match GradeDocuments(conf, c.state, reply.relevance)
       case Err(e) => Err(e)
       case Ok(s) => Ok(Run(DecisionTarget(DecideToGenerate(s)), s)))
    case GenerateNode =>
      (match Generate(conf, c.state, reply.answer)
       case Err(e) => Err(e)
       case Ok(s) =>
         match GradeGeneration(conf, reply.grounding)
         case Err(e) => Err(e)
         case Ok(route) => Ok(Run(GroundingTarget(route), s)))
    case TransformQueryNode =>
      (match TransformQuery(conf, c.state, reply.rewrite)
       case Err(e) => Err(e)
       case Ok(s) => Ok(Run(FixedSuccessor(c.node).value, s)))
  }

  /** Steps the graph once per reply until the end is reached or the replies
      run out; the number of replies is the fuel. */
  function RunGraph(conf: AgentConfigResult, c: Run, replies: seq<Reply>): (r: Result<Run, RagError>)
    ensures r.Ok? ==> r.value.state.iterationCount == c.state.iterationCount
    ensures r.Ok? ==> r.value.state.maxIterations == c.state.maxIterations
    decreases |replies|
  {
    if c.node == End || |replies| == 0 then Ok(c)
    else
      match Step(conf, c, replies[0])
      case Err(e) => Err(e)
      case Ok(next) => RunGraph(conf, next, replies[1..])
  }

  /** Invokes the graph on a question, starting at the entry node. */
  function Invoke(ctx: Context, config: RunnableConfig, question: string, replies: seq<Reply>): (r: Result<Run, RagError>)
    ensures r.Ok? ==> r.value.state.iterationCount == 0 && r.value.state.maxIterations == 5
  {
    RunGraph(AgentFromRunnableConfig(ctx, config), Run(Entry, NewResearcherState(question)), replies)
  }

  /** When every grounding grade is a grade record, no run ever reaches the
      end, however many steps it is given: the graph itself has no edge that
      stops the loop. */
  lemma {:induction false} NoEndWithGradeRecords(conf: AgentConfigResult, c: Run, replies: seq<Reply>)
    requires c.node != End
    requires forall i :: 0 <= i < |replies| ==> replies[i].grounding.Structured?
    ensures RunGraph(conf, c, replies).Ok? ==> RunGraph(conf, c, replies).value.node != End
    decreases |replies|
  {
    if |replies| > 0 {
      var r := Step(conf, c, replies[0]);
      if r.Ok? {
        assert r.value.node != End;
        NoEndWithGradeRecords(conf, r.value, replies[1..]);
      }
    }
  }

  /** The answer overwrites `generation` only on the way to the grounding
      check, and after it the graph only regenerates or ends. */
  ghost predicate AnswerOnlyAfterGenerate(c: Run)
  {
    c.state.generation.Answer? ==> c.node == GenerateNode || c.node == End
  }

  /** The invariant holds initially, is kept by every step, and rules out the
      failed append in the rewrite node. */
  lemma {:induction false} AppendNeverFails(conf: AgentConfigResult, c: Run, replies: seq<Reply>)
    requires AnswerOnlyAfterGenerate(c)
    ensures RunGraph(conf, c, replies) != Err(GenerationNotAList)
    decreases |replies|
  {
    if c.node != End && |replies| > 0 {
      var r := Step(conf, c, replies[0]);
      StepKeepsAnswerInvariant(conf, c, replies[0]);
      if r.Ok? {
        AppendNeverFails(conf, r.value, replies[1..]);
      }
    }
  }

  lemma StepKeepsAnswerInvariant(conf: AgentConfigResult, c: Run, reply: Reply)
    requires AnswerOnlyAfterGenerate(c)
    ensures Step(conf, c, reply).Ok? ==> AnswerOnlyAfterGenerate(Step(conf, c, reply).value)
    ensures Step(conf, c, reply) != Err(GenerationNotAList)
  {
  }

  /** `generation` is either the empty log it starts as or an answer. */
  predicate LogUntouched(c: Run)
  {
    c.state.generation == Log([]) || c.state.generation.Answer?
  }

  /** No step writes a log entry: the rewrite node's reasoning entry never
      reaches the graph's state, so the log stays empty until an answer
      replaces it. */
  lemma {:induction false} ReasoningNeverPersists(conf: AgentConfigResult, c: Run, replies: seq<Reply>)
    requires LogUntouched(c)
    ensures RunGraph(conf, c, replies).Ok? ==> LogUntouched(RunGraph(conf, c, replies).value)
    decreases |replies|
  {
    if c.node != End && |replies| > 0 {
      var r := Step(conf, c, replies[0]);
      if r.Ok? {
        StepKeepsLogUntouched(conf, c, replies[0]);
        ReasoningNeverPersists(conf, r.value, replies[1..]);
      }
    }
  }

  lemma StepKeepsLogUntouched(conf: AgentConfigResult, c: Run, reply: Reply)
    requires LogUntouched(c)
    ensures Step(conf, c, reply).Ok? ==> LogUntouched(Step(conf, c, reply).value)
  {
  }

  /** Running a live node on a non-empty reply list is one step followed by
      the run on the remaining replies. */
  lemma RunGraphUnfold(conf: AgentConfigResult, c: Run, replies: seq<Reply>, next: Run)
    requires c.node != End && |replies| > 0
    requires Step(conf, c, replies[0]) == Ok(next)
    ensures RunGraph(conf, c, replies) == RunGraph(conf, next, replies[1..])
  {
  }

  /** Relevant evidence and a bare "yes" grounding grade end the run after one
      pass through retrieve, grade and generate: the documents are the hits'
      documents, the answer is the generated one, and nothing else changes. */
  lemma UsefulOnFirstPass(conf: AgentConfigResult, c: Run, replies: seq<Reply>)
    requires conf.Ok? && conf.value["embedding_model"] == VStr(SupportedEmbeddingModel)
    requires conf.value["response_system_prompt"].VStr?
    requires c.node == RetrieveDocumentsNode
    requires |replies| == 3
    requires HitCount(replies[0].hits) > 0
    requires forall i: nat :: replies[1].relevance(i).Structured? && replies[1].relevance(i).grade.kind == Yes
    requires replies[2].grounding == Plain("yes")
    ensures RunGraph(conf, c, replies)
            == Ok(Run(End, c.state.(documents := HitsDocuments(replies[0].hits),
                                    generation := Answer(replies[2].answer))))
  {
    var docs := HitsDocuments(replies[0].hits);
    var s1 := c.state.(documents := docs);
    var r1 := RetrieveDocuments(conf, c.state, replies[0].hits);
    assert r1.Ok? && r1.value.state == s1;
    RunGraphUnfold(conf, c, replies, Run(GradeDocumentsNode, s1));
    RelevantExtremes(docs, Grades(replies[1].relevance), |docs|);
    assert docs[..|docs|] == docs;
    assert GradeDocuments(conf, s1, replies[1].relevance) == Ok(s1);
    var rest := replies[1..];
    RunGraphUnfold(conf, Run(GradeDocumentsNode, s1), rest, Run(GenerateNode, s1));
    var s2 := s1.(generation := Answer(replies[2].answer));
    assert Generate(conf, s1, replies[2].answer) == Ok(s2);
    assert GradeGeneration(conf, replies[2].grounding) == Ok(Useful);
    RunGraphUnfold(conf, Run(GenerateNode, s1), rest[1..], Run(End, s2));
  }

  /** When the first retrieval finds nothing, the graph grades nothing, the
      question is rewritten once, and the run is back at retrieval with the new
      question and an empty generation log. */
  lemma EmptyRetrievalRewrites(conf: AgentConfigResult, question: string, replies: seq<Reply>)
    requires conf.Ok? && conf.value["embedding_model"] == VStr(SupportedEmbeddingModel)
    requires |replies| == 3
    requires HitCount(replies[0].hits) == 0
    requires replies[2].rewrite.RewriteRecord?
    ensures RunGraph(conf, Run(Entry, NewResearcherState(question)), replies)
            == Ok(Run(RetrieveDocumentsNode,
                      ResearcherState(replies[2].rewrite.record.rewrittenQuestion, Log([]), [], 0, 5)))
  {
    var s0 := NewResearcherState(question);
    assert HitsDocuments(replies[0].hits) == [];
    var r1 := RetrieveDocuments(conf, s0, replies[0].hits);
    assert r1.Ok? && r1.value.state == s0;
    RunGraphUnfold(conf, Run(Entry, s0), replies, Run(GradeDocumentsNode, s0));
    assert GradeDocuments(conf, s0, replies[1].relevance) == Ok(s0);
    var rest := replies[1..];
    RunGraphUnfold(conf, Run(GradeDocumentsNode, s0), rest, Run(TransformQueryNode, s0));
    var s3 := ResearcherState(replies[2].rewrite.record.rewrittenQuestion, Log([]), [], 0, 5);
    assert TransformQuery(conf, s0, replies[2].rewrite) == Ok(s3);
    RunGraphUnfold(conf, Run(TransformQueryNode, s0), rest[1..], Run(RetrieveDocumentsNode, s3));
  }

  /** A run invoked on a question never fails on the rewrite node's append. */
  lemma InvokeNeverFailsToAppend(ctx: Context, config: RunnableConfig, question: string, replies: seq<Reply>)
    ensures Invoke(ctx, config, question, replies) != Err(GenerationNotAList)
  {
    AppendNeverFails(AgentFromRunnableConfig(ctx, config), Run(Entry, NewResearcherState(question)), replies);
  }
}
