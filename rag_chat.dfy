/** The chat server of the PDF knowledge base: retrieval, prompt construction and the `/chat` route. */
module RagChat {
  import opened Strings
  import opened Gemini

  /** The remote calls one request makes, in the order it makes them. */
  datatype Call = EmbedQuery(text: string) | QueryStore(embedding: seq<Value>, nResults: nat) | Generate(prompt: string)

  /**
   * The outcome of `collection.query`: it raised (a missing `'documents'` key included), or it
   * answered with the value under `'documents'` (None for JSON null), one list per query embedding.
   */
  datatype QueryResult = QueryRaised | QueryReply(documents: Option<seq<seq<string>>>)

  /** The outcome of `generate_content(prompt).text`. */
  datatype GenerateOutcome = GenerateRaised | Generated(text: string)

  /** How the embedding model, the Chroma collection and the generation model answer. */
  datatype Services = Services(
    embed: string -> EmbedResponse,
    query: (seq<Value>, nat) -> QueryResult,
    generate: string -> GenerateOutcome)

  /** The `k` the chat handler retrieves with. */
  const TopK: nat := 5

  /** `get_gemini_query_embedding`: the embedding, or None when the call raised or the reply had no `'embedding'`. */
  function QueryEmbedding(response: EmbedResponse): (r: Option<seq<Value>>)
    ensures r.Some? <==> response.EmbedReply?
    ensures r.Some? ==> r.value == response.embedding
  {
    match response
    case EmbedReply(embedding) => Some(embedding)
    case _ => None
  }

  /** `results['documents'][0] if results['documents'] else []`, with a raised query giving `[]`. */
  function FirstDocuments(result: QueryResult): (r: seq<string>)
    ensures r != [] ==> result.QueryReply? && result.documents.Some? && result.documents.value != []
                        && r == result.documents.value[0]
    ensures result.QueryReply? && result.documents.Some? && result.documents.value != [] ==> r == result.documents.value[0]
  {
    match result
    case QueryRaised => []
    case QueryReply(documents) =>
      if documents.Some? && documents.value != [] then documents.value[0] else []
  }

  /** The chunks a retrieval returns, and the remote calls it made to get them. */
  datatype Retrieval = Retrieval(chunks: seq<string>, calls: seq<Call>)

  /** `retrieve_documents(query, k)`; `collectionLoaded` is false when the collection failed to load at start-up. */
  function RetrieveDocuments(collectionLoaded: bool, svc: Services, query: string, k: nat): (r: Retrieval)
    ensures !collectionLoaded ==> r == Retrieval([], [])
    ensures collectionLoaded ==> 1 <= |r.calls| <= 2 && r.calls[0] == EmbedQuery(query)
    ensures |r.calls| == 2 <==> collectionLoaded && svc.embed(query).EmbedReply?
    ensures |r.calls| == 2 ==> r.calls[1] == QueryStore(svc.embed(query).embedding, k)
    ensures r.chunks != [] ==> |r.calls| == 2
    ensures |r.calls| == 2 ==> r.chunks == FirstDocuments(svc.query(svc.embed(query).embedding, k))
  {
    if !collectionLoaded then Retrieval([], [])
    else match QueryEmbedding(svc.embed(query))
      case None => Retrieval([], [EmbedQuery(query)])
      case Some(embedding) => Retrieval(FirstDocuments(svc.query(embedding, k)), [EmbedQuery(query), QueryStore(embedding, k)])
  }

  /** The prompt used when nothing was retrieved: the model answers from general knowledge. */
  const FallbackPrefix: string := "사용자의 질문에 답변해주세요: "

  /** The sentence the grounded prompt tells the model to answer with when the context lacks the information. */
  const RefusalAnswer: string := "해당 정보는 제가 가지고 있지 않습니다."

  const GroundedIntro: string :=
    "당신은 유능한 전문 챗봇입니다. 다음의 '참고 정보'를 **반드시 활용**하여 '사용자의 질문'에 대해 **정확하고 간결하게 답변**해주세요.\n"
    + "        **오직 제공된 '참고 정보' 내에서만 답변해야 하며, 정보에 없는 내용은 절대 지어내지 말고 \""
  const GroundedRules: string :=
    "\" 라고 명확히 답하세요.**\n"
    + "        추측하거나 일반적인 지식을 끌어와 답변하지 마세요. 답변은 한국어로 해주세요.\n\n"
    + "        **참고 정보:**\n        "
  const QuestionHeader: string := "\n\n        **사용자의 질문:**\n        "
  const AnswerHeader: string := "\n\n        **답변:**\n        "

  /** Everything of the grounded prompt before the context. */
  const GroundedHead: string := GroundedIntro + RefusalAnswer + GroundedRules

  function GroundedPrompt(context: string, query: string): string {
    GroundedHead + context + QuestionHeader + query + AnswerHeader
  }

  /** The context is the retrieved chunks joined by newlines. */
  function Context(chunks: seq<string>): string {
    Join("\n", chunks)
  }

  /** The prompt `generate_response_with_rag` sends for a query and the chunks retrieved for it. */
  function Prompt(query: string, chunks: seq<string>): string {
    if chunks == [] then FallbackPrefix + query else GroundedPrompt(Context(chunks), query)
  }

  /** Where the question starts in the grounded prompt. */
  function QuestionOffset(chunks: seq<string>): nat {
    |GroundedHead| + |Context(chunks)| + |QuestionHeader|
  }

  const Apology: string := "죄송합니다. 답변을 생성하는 데 문제가 발생했습니다."

  /** The answer text, and every remote call made to produce it. */
  datatype Answer = Answer(text: string, calls: seq<Call>)

  /** `generate_response_with_rag(user_query)` */
  function GenerateResponseWithRag(collectionLoaded: bool, svc: Services, query: string): (r: Answer)
    ensures var retrieval := RetrieveDocuments(collectionLoaded, svc, query, TopK);
      |r.calls| == |retrieval.calls| + 1 && r.calls[..|retrieval.calls|] == retrieval.calls
    ensures var prompt := Prompt(query, RetrieveDocuments(collectionLoaded, svc, query, TopK).chunks);
      && r.calls[|r.calls| - 1] == Generate(prompt)
      && (svc.generate(prompt).GenerateRaised? ==> r.text == Apology)
      && (svc.generate(prompt).Generated? ==> r.text == svc.generate(prompt).text)
  {
    var retrieval := RetrieveDocuments(collectionLoaded, svc, query, TopK);
    var prompt := Prompt(query, retrieval.chunks);
    var text := match svc.generate(prompt) case GenerateRaised => Apology case Generated(t) => t;
    Answer(text, retrieval.calls + [Generate(prompt)])
  }

  /** The HTTP status and JSON `response` field of a `/chat` reply, with the remote calls behind it. */
  datatype HttpReply = HttpReply(status: nat, response: string, calls: seq<Call>)

  const EmptyQuestion: string := "질문을 입력해주세요."

  /** The `/chat` route; `message` is the request's `'message'` field, None when it is absent. */
  function Chat(collectionLoaded: bool, svc: Services, message: Option<string>): (r: HttpReply)
    ensures r.status == 400 <==> message == None || message == Some("")
    ensures r.status == 400 ==> r.response == EmptyQuestion && r.calls == []
    ensures r.status != 400 ==>
      (r.status == 200
       && r.response == GenerateResponseWithRag(collectionLoaded, svc, message.value).text
       && r.calls == GenerateResponseWithRag(collectionLoaded, svc, message.value).calls)
  {
    if message == None || message == Some("") then HttpReply(400, EmptyQuestion, [])
    else
      var answer := GenerateResponseWithRag(collectionLoaded, svc, message.value);
      HttpReply(200, answer.text, answer.calls)
  }

  /** Every answered request makes exactly one generation call, and makes it last. */
  lemma GenerationIsLastCall(collectionLoaded: bool, svc: Services, query: string)
    ensures var calls := GenerateResponseWithRag(collectionLoaded, svc, query).calls;
      calls[|calls| - 1].Generate?
      && forall i :: 0 <= i < |calls| - 1 ==> !calls[i].Generate?
  {
    var retrieval := RetrieveDocuments(collectionLoaded, svc, query, TopK);
    var calls := GenerateResponseWithRag(collectionLoaded, svc, query).calls;
    forall i | 0 <= i < |calls| - 1 ensures !calls[i].Generate? {
      assert calls[i] == retrieval.calls[i];
    }
  }

  /** The store is queried only with the embedding the query embedding call returned, and always for `TopK` results. */
  lemma StoreQueriedWithTopK(collectionLoaded: bool, svc: Services, query: string)
    ensures var calls := GenerateResponseWithRag(collectionLoaded, svc, query).calls;
      forall i :: 0 <= i < |calls| && calls[i].QueryStore? ==>
        i == 1 && calls[0] == EmbedQuery(query)
        && svc.embed(query).EmbedReply? && calls[i] == QueryStore(svc.embed(query).embedding, TopK)
  {
    var retrieval := RetrieveDocuments(collectionLoaded, svc, query, TopK);
    var calls := GenerateResponseWithRag(collectionLoaded, svc, query).calls;
    forall i | 0 <= i < |calls| && calls[i].QueryStore?
      ensures i == 1 && calls[0] == EmbedQuery(query)
              && svc.embed(query).EmbedReply? && calls[i] == QueryStore(svc.embed(query).embedding, TopK)
    {
      assert i < |retrieval.calls|;
    }
  }

  /** With nothing retrieved the model is asked the bare question, after the fixed instruction. */
  lemma FallbackWhenNothingRetrieved(collectionLoaded: bool, svc: Services, query: string)
    requires RetrieveDocuments(collectionLoaded, svc, query, TopK).chunks == []
    ensures var calls := GenerateResponseWithRag(collectionLoaded, svc, query).calls;
      calls[|calls| - 1] == Generate(FallbackPrefix + query)
      && StartsWith(calls[|calls| - 1].prompt, FallbackPrefix) && EndsWith(calls[|calls| - 1].prompt, query)
  {
    var p := FallbackPrefix + query;
    assert p[..|FallbackPrefix|] == FallbackPrefix;
    assert p[|p| - |query|..] == query;
  }

  /** The grounded prompt holds the refusal instruction right after the introduction. */
  lemma GroundedPromptRefusal(context: string, query: string)
    ensures OccursAt(GroundedPrompt(context, query), RefusalAnswer, |GroundedIntro|)
  {
    OccursAfter(GroundedIntro, RefusalAnswer);
    OccursExtend(GroundedIntro + RefusalAnswer, GroundedRules, RefusalAnswer, |GroundedIntro|);
    OccursExtend(GroundedHead, context, RefusalAnswer, |GroundedIntro|);
    OccursExtend(GroundedHead + context, QuestionHeader, RefusalAnswer, |GroundedIntro|);
    OccursExtend(GroundedHead + context + QuestionHeader, query, RefusalAnswer, |GroundedIntro|);
    OccursExtend(GroundedHead + context + QuestionHeader + query, AnswerHeader, RefusalAnswer, |GroundedIntro|);
  }

  /** The grounded prompt holds the question right after the context and its header. */
  lemma GroundedPromptQuestion(context: string, query: string)
    ensures OccursAt(GroundedPrompt(context, query), query, |GroundedHead| + |context| + |QuestionHeader|)
  {
    OccursAfter(GroundedHead + context + QuestionHeader, query);
    OccursExtend(GroundedHead + context + QuestionHeader + query, AnswerHeader, query, |GroundedHead| + |context| + |QuestionHeader|);
  }

  /** Text found in the context is found in the grounded prompt, shifted past the head. */
  lemma GroundedPromptContext(context: string, query: string, pattern: string, p: int)
    requires OccursAt(context, pattern, p)
    ensures OccursAt(GroundedPrompt(context, query), pattern, |GroundedHead| + p)
  {
    OccursShift(GroundedHead, context, pattern, p);
    OccursExtend(GroundedHead + context, QuestionHeader, pattern, |GroundedHead| + p);
    OccursExtend(GroundedHead + context + QuestionHeader, query, pattern, |GroundedHead| + p);
    OccursExtend(GroundedHead + context + QuestionHeader + query, AnswerHeader, pattern, |GroundedHead| + p);
  }

  /** `pattern` occurs in `s` and ends at or before `offset`. */
  predicate PrecedesAt(s: string, pattern: string, offset: int) {
    exists p :: 0 <= p <= |s| && OccursAt(s, pattern, p) && p + |pattern| <= offset
  }

  /**
   * A grounded prompt holds the refusal instruction, holds the question at `QuestionOffset`, and
   * holds every retrieved chunk verbatim, ending before the question starts.
   */
  lemma GroundedPromptShape(query: string, chunks: seq<string>)
    requires chunks != []
    ensures OccursAt(Prompt(query, chunks), RefusalAnswer, |GroundedIntro|)
    ensures OccursAt(Prompt(query, chunks), query, QuestionOffset(chunks))
    ensures forall k :: 0 <= k < |chunks| ==> PrecedesAt(Prompt(query, chunks), chunks[k], QuestionOffset(chunks))
  {
    var context := Context(chunks);
    GroundedPromptRefusal(context, query);
    GroundedPromptQuestion(context, query);
    forall k | 0 <= k < |chunks|
      ensures PrecedesAt(Prompt(query, chunks), chunks[k], QuestionOffset(chunks))
    {
      JoinContainsPart("\n", chunks, k);
      var p :| OccursAt(context, chunks[k], p);
      GroundedPromptContext(context, query, chunks[k], p);
      assert Prompt(query, chunks) == GroundedPrompt(context, query);
      assert OccursAt(Prompt(query, chunks), chunks[k], |GroundedHead| + p);
      assert |GroundedHead| + p + |chunks[k]| <= QuestionOffset(chunks);
    }
  }

  /** Retrieved chunks always lead to the grounded prompt, and to the fallback otherwise. */
  lemma PromptChoice(collectionLoaded: bool, svc: Services, query: string)
    ensures var chunks := RetrieveDocuments(collectionLoaded, svc, query, TopK).chunks;
      var calls := GenerateResponseWithRag(collectionLoaded, svc, query).calls;
      calls[|calls| - 1].prompt == if chunks == [] then FallbackPrefix + query else GroundedPrompt(Context(chunks), query)
  {}

  /** A failed generation call yields the fixed apology, never an exception. */
  lemma ApologyOnGenerationFailure(collectionLoaded: bool, svc: Services, query: string)
    requires var chunks := RetrieveDocuments(collectionLoaded, svc, query, TopK).chunks;
      svc.generate(Prompt(query, chunks)).GenerateRaised?
    ensures Chat(collectionLoaded, svc, Some(query)).response == (if query == "" then EmptyQuestion else Apology)
  {}

  /** Without a loaded collection no retrieval call is made and the question goes out in the fallback prompt. */
  lemma NoCollectionGeneratesOnly(svc: Services, query: string)
    ensures GenerateResponseWithRag(false, svc, query).calls == [Generate(FallbackPrefix + query)]
  {}
}
