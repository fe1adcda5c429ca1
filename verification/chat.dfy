/** The `/chat` endpoint of the backend as a pure function of the request
    and of what the external services answer. The Gemini client (used
    twice: to classify, then to answer), the embedding client and the
    vector search are parameters; the result records the response, the
    prompt chosen for the answer and the external calls made, in order. */
module Chat {
  import opened Wrappers
  import opened TextUtil
  import opened Retrieval
  import opened ResponseFormat

  datatype Method = Post | Options

  /** The parsed request body: `message` and `conversation_history`, with
      `""` for a missing key. */
  datatype Request = Request(verb: Method, message: string, conversationHistory: string)

  /** The JSON body: none (preflight), `{"response": ...}`, or the outer
      handler's `{"error": "Internal server error", "message": ...}`. */
  datatype Body = NoBody | Reply(response: string) | ServerError(message: string)

  datatype Response = Response(status: int, body: Body)

  /** `generate_embeddings`: a vector (empty when the key is missing or the
      call raised), or an exception from constructing the client, which
      only the route's outer handler catches. */
  datatype EmbedOutcome = Embedding(vector: seq<real>) | EmbedClientError(message: string)

  /** The external steps of one request, in the order they are entered.
      `Embed(m)` marks that the embedding step was entered, so it is
      recorded even when building the embedding client fails before any
      embedding request is sent. */
  datatype Call = Classify(prompt: string) | Embed(text: string) | Search(query: VectorQuery) | Generate(prompt: string)

  /** The environment of one request. `clientOk` is whether the Gemini
      client could be constructed; `generate` is its `generate_content`,
      `None` when it raises or yields no text. */
  datatype Services = Services(
    dbConnected: bool,
    clientOk: bool,
    generate: string -> Option<string>,
    embed: string -> EmbedOutcome,
    search: VectorQuery -> SearchOutcome,
    indexName: string,
    embeddingField: string)

  datatype ChatResult = ChatResult(response: Response, prompt: Option<string>, calls: seq<Call>)

  const DatabaseUnavailable: string := "Sorry, database connection is not available. Please try again later."
  const NoMessage: string := "Error: No message provided"
  const ProcessingFailed: string := "Sorry, I encountered an issue processing your request."
  const GenerationFailed: string := "Sorry, I encountered an issue generating a response. Please try again."

  const ContextSpecific: string := "context-specific"
  const Casual: string := "casual"

  // ---------------------------------------------------------------------
  // Prompts.

  const ClassifyInstructions: string :=
    "\n\nClassify as:\n"
    + "- 'context-specific' if asking about Naisarg, his work, skills, projects, or using pronouns referring to him\n"
    + "- 'casual' if it's casual conversation (greetings, \"what's up\", small talk, reactions like \"lol\")\n"
    + "- 'generic' if it's unrelated questions about other topics\n\nAnswer: "

  const NoDocsInstructions: string :=
    "\n\nYou are Naisarg's AI assistant. Answer the question about Naisarg directly and naturally. "
    + "Be conversational but informative. Don't use repetitive greetings."

  const DocsInstructions: string :=
    "\n\nYou are Naisarg's AI assistant. Answer naturally about Naisarg using the information provided. "
    + "Be conversational and helpful. Don't repeat greetings or summarize previous conversation unless asked."

  const CasualInstructions: string :=
    "\n\nYou are Naisarg's AI assistant. The user is making casual conversation. Respond naturally and "
    + "friendly, then gently guide them to ask about Naisarg if appropriate. \n\nDO:\n"
    + "- Be warm and conversational\n- Acknowledge their casual message naturally\n"
    + "- Suggest they can ask about Naisarg\n- Match their energy level\n\nDON'T:\n"
    + "- Be robotic or rude\n- Just say \"Only Naisarg-related questions\"\n"
    + "- Ignore their casual message\n- Be overly formal"

  const GenericInstructions: string :=
    "\n\nYou are Naisarg's AI assistant. The user asked about something unrelated to Naisarg. Respond "
    + "politely that you specialize in questions about Naisarg, but do it in a friendly way.\n\nDO:\n"
    + "- Be polite and understanding\n- Acknowledge their question\n- Explain your role nicely\n"
    + "- Invite them to ask about Naisarg\n\nDON'T:\n- Be rude or dismissive\n"
    + "- Just say \"No\" or \"Only Naisarg-related questions\"\n- Ignore their question completely"

  const HistoryHeader: string := "Previous conversation:\n"
  const InformationHeader: string := "Information about Naisarg:\n"

  function ClassificationPrompt(history: string, message: string): string {
    "Classify this message:\n\n" + HistoryHeader + history + "\n\nCurrent message: " + message + ClassifyInstructions
  }

  function NoDocsPrompt(history: string, message: string): string {
    HistoryHeader + history + "\n\nQuestion: " + message + NoDocsInstructions
  }

  function DocsPrompt(combined: string, history: string, message: string): string {
    InformationHeader + combined + "\n\n" + HistoryHeader + history + "\n\nQuestion: " + message + DocsInstructions
  }

  function CasualPrompt(history: string, message: string): string {
    HistoryHeader + history + "\n\nUser message: " + message + CasualInstructions
  }

  function GenericPrompt(history: string, message: string): string {
    HistoryHeader + history + "\n\nUser message: " + message + GenericInstructions
  }

  // ---------------------------------------------------------------------
  // The decision flow.

  /** The classifier's label, `.strip().lower()` of its text; `casual` when
      the client cannot be built or the call fails. */
  function Classification(sv: Services, prompt: string): (c: (string, seq<Call>))
    ensures !sv.clientOk ==> c == (Casual, [])
    ensures sv.clientOk ==> c.1 == [Classify(prompt)]
    ensures sv.clientOk && sv.generate(prompt).None? ==> c.0 == Casual
  {
    if !sv.clientOk then (Casual, [])
    else
      match sv.generate(prompt)
      case None => (Casual, [Classify(prompt)])
      case Some(t) => (LowerAscii(Strip(t)), [Classify(prompt)])
  }

  /** Generating and formatting the answer to `prompt`. Without a client
      the call fails before it is made. */
  function Answer(sv: Services, prompt: string, calls: seq<Call>): (r: ChatResult)
    ensures r.prompt == Some(prompt)
    ensures !sv.clientOk ==> r.calls == calls
    ensures sv.clientOk ==> r.calls == calls + [Generate(prompt)]
    ensures r.response.status == 200 <==> sv.clientOk && sv.generate(prompt).Some?
    ensures r.response.status == 200 ==> r.response.body == Reply(FormatText(sv.generate(prompt).value))
    ensures r.response.status != 200 ==> r.response == Response(500, Reply(GenerationFailed))
  {
    if !sv.clientOk then ChatResult(Response(500, Reply(GenerationFailed)), Some(prompt), calls)
    else
      match sv.generate(prompt)
      case None => ChatResult(Response(500, Reply(GenerationFailed)), Some(prompt), calls + [Generate(prompt)])
      case Some(t) => ChatResult(Response(200, Reply(FormatText(t))), Some(prompt), calls + [Generate(prompt)])
  }

  /** The retrieval branch: embed the message, search for three documents,
      and answer with or without the retrieved context. */
  function Retrieve(sv: Services, req: Request, calls: seq<Call>): (r: ChatResult)
    ensures r.response.status in {200, 500}
    ensures |r.calls| > |calls| && r.calls[..|calls|] == calls && r.calls[|calls|] == Embed(req.message)
  {
    var m, h := req.message, req.conversationHistory;
    match sv.embed(m)
    case EmbedClientError(e) => ChatResult(Response(500, ServerError(e)), None, calls + [Embed(m)])
    case Embedding(v) =>
      if |v| == 0 then ChatResult(Response(500, Reply(ProcessingFailed)), None, calls + [Embed(m)])
      else
        var q := Query(v, sv.indexName, sv.embeddingField, DefaultNoOfDocs);
        var docs := FindSimilarDocuments(sv.search, v, sv.indexName, sv.embeddingField, DefaultNoOfDocs);
        var prompt := if |docs| == 0 then NoDocsPrompt(h, m) else DocsPrompt(CombinedTexts(docs), h, m);
        var r := Answer(sv, prompt, calls + [Embed(m), Search(q)]);
        assert (calls + [Embed(m), Search(q)])[..|calls|] == calls;
        r
  }

  /** `chat`. */
  function Chat(req: Request, sv: Services): (r: ChatResult)
    ensures r.response.status in {200, 400, 500}
  {
    if req.verb == Options then ChatResult(Response(200, NoBody), None, [])
    else if !sv.dbConnected then ChatResult(Response(500, Reply(DatabaseUnavailable)), None, [])
    else if req.message == "" then ChatResult(Response(400, Reply(NoMessage)), None, [])
    else
      var (c, calls) := Classification(sv, ClassificationPrompt(req.conversationHistory, req.message));
      Dispatch(sv, req, c, calls)
  }

  /** The three branches on the classifier's label, tried in order. Every
      branch keeps the calls already made and ends with a prompt or an
      error. */
  function Dispatch(sv: Services, req: Request, c: string, calls: seq<Call>): (r: ChatResult)
    ensures |r.calls| > |calls| || (!sv.clientOk && r.prompt.Some?)
    ensures |r.calls| >= |calls| && r.calls[..|calls|] == calls
    ensures r.response.status in {200, 500}
  {
    var m, h := req.message, req.conversationHistory;
    if Contains(c, ContextSpecific) then Retrieve(sv, req, calls)
    else if Contains(c, Casual) then Answer(sv, CasualPrompt(h, m), calls)
    else Answer(sv, GenericPrompt(h, m), calls)
  }

  // ---------------------------------------------------------------------
  // Properties of the flow.

  /** The request gets past the three guards: a POST, a connected
      database and a non-empty message. */
  predicate Admitted(req: Request, sv: Services) {
    req.verb == Post && sv.dbConnected && req.message != ""
  }

  /** A request the guards stop is answered without any external call and
      without a prompt: a preflight with an empty 200, a missing database
      with a 500 (checked before the message), an empty message with a
      400. */
  lemma GuardsAnswerDirectly(req: Request, sv: Services)
    requires !Admitted(req, sv)
    ensures Chat(req, sv).calls == [] && Chat(req, sv).prompt.None?
    ensures req.verb == Options ==> Chat(req, sv).response == Response(200, NoBody)
    ensures req.verb == Post && !sv.dbConnected ==>
              Chat(req, sv).response == Response(500, Reply(DatabaseUnavailable))
    ensures req.verb == Post && sv.dbConnected ==>
              Chat(req, sv).response == Response(400, Reply(NoMessage))
  {
  }

  /** An admitted request always reaches a prompt or an external call, and
      is never answered with 400. */
  lemma AdmittedProceeds(req: Request, sv: Services)
    requires Admitted(req, sv)
    ensures Chat(req, sv).calls != [] || Chat(req, sv).prompt.Some?
    ensures Chat(req, sv).response.status in {200, 500}
  {
    var cp := ClassificationPrompt(req.conversationHistory, req.message);
    var (c, calls) := Classification(sv, cp);
    assert Chat(req, sv) == Dispatch(sv, req, c, calls);
  }

  /** The guards are exactly the requests answered without a call or a
      prompt, and 400 means exactly an empty message. */
  lemma GuardsComeFirst(req: Request, sv: Services)
    ensures !Admitted(req, sv) <==> Chat(req, sv).calls == [] && Chat(req, sv).prompt.None?
    ensures Chat(req, sv).response.status == 400 <==> req.verb == Post && sv.dbConnected && req.message == ""
  {
    if Admitted(req, sv) {
      AdmittedProceeds(req, sv);
    } else {
      GuardsAnswerDirectly(req, sv);
    }
  }

  /** The classifier is the first call of an admitted request. */
  lemma {:induction false} ClassificationFirst(req: Request, sv: Services)
    requires Admitted(req, sv) && sv.clientOk
    ensures |Chat(req, sv).calls| > 0
    ensures Chat(req, sv).calls[0] == Classify(ClassificationPrompt(req.conversationHistory, req.message))
  {
    var cp := ClassificationPrompt(req.conversationHistory, req.message);
    var (c, calls) := Classification(sv, cp);
    var r := Dispatch(sv, req, c, calls);
    assert r.calls[..1] == [Classify(cp)];
    assert r.calls[0] == r.calls[..1][0];
  }

  /** A failing classifier counts as `casual`. */
  lemma ClassifierFailureIsCasual(req: Request, sv: Services)
    requires Admitted(req, sv)
    requires !sv.clientOk || sv.generate(ClassificationPrompt(req.conversationHistory, req.message)).None?
    ensures Chat(req, sv).prompt == Some(CasualPrompt(req.conversationHistory, req.message))
  {
    CasualIsCasual();
  }

  lemma CasualIsCasual()
    ensures Contains(Casual, Casual) && !Contains(Casual, ContextSpecific)
  {
    assert OccursAt(Casual, Casual, 0);
  }

  /** Branch order on the cleaned label: `context-specific` anywhere in it
      selects retrieval, else `casual` anywhere selects the casual prompt,
      else the generic prompt. */
  lemma BranchSelection(req: Request, sv: Services, t: string)
    requires Admitted(req, sv) && sv.clientOk
    requires sv.generate(ClassificationPrompt(req.conversationHistory, req.message)) == Some(t)
    ensures var c := LowerAscii(Strip(t));
            Contains(c, ContextSpecific) ==>
              |Chat(req, sv).calls| > 1 && Chat(req, sv).calls[1] == Embed(req.message)
    ensures var c := LowerAscii(Strip(t));
            !Contains(c, ContextSpecific) && Contains(c, Casual) ==>
              Chat(req, sv).prompt == Some(CasualPrompt(req.conversationHistory, req.message))
    ensures var c := LowerAscii(Strip(t));
            !Contains(c, ContextSpecific) && !Contains(c, Casual) ==>
              Chat(req, sv).prompt == Some(GenericPrompt(req.conversationHistory, req.message))
  {
  }

  /** The label the retrieval branch depends on. */
  predicate RetrievalChosen(req: Request, sv: Services) {
    && Admitted(req, sv) && sv.clientOk
    && var cp := ClassificationPrompt(req.conversationHistory, req.message);
       sv.generate(cp).Some? && Contains(LowerAscii(Strip(sv.generate(cp).value)), ContextSpecific)
  }

  /** An empty embedding ends the request with a 500 before any search or
      generation. */
  lemma EmptyEmbeddingStops(req: Request, sv: Services)
    requires RetrievalChosen(req, sv)
    requires sv.embed(req.message) == Embedding([])
    ensures Chat(req, sv).response == Response(500, Reply(ProcessingFailed))
    ensures Chat(req, sv).prompt.None?
    ensures forall i :: 0 <= i < |Chat(req, sv).calls| ==>
              !Chat(req, sv).calls[i].Search? && !Chat(req, sv).calls[i].Generate?
  {
    var cp := ClassificationPrompt(req.conversationHistory, req.message);
    ChatRetrieves(req, sv);
    RetrieveEmptyEmbedding(sv, req, [Classify(cp)]);
    NeitherSearchNorGenerate([Classify(cp)] + [Embed(req.message)], cp, req.message);
  }

  lemma NeitherSearchNorGenerate(calls: seq<Call>, cp: string, m: string)
    requires calls == [Classify(cp)] + [Embed(m)]
    ensures forall i :: 0 <= i < |calls| ==> !calls[i].Search? && !calls[i].Generate?
  {
  }

  lemma RetrieveEmptyEmbedding(sv: Services, req: Request, calls: seq<Call>)
    requires sv.embed(req.message) == Embedding([])
    ensures Retrieve(sv, req, calls) == ChatResult(Response(500, Reply(ProcessingFailed)), None, calls + [Embed(req.message)])
  {
  }

  /** The retrieval branch with a non-empty embedding: one search for
      three documents with 49 candidates follows the embedding call; no
      documents gives the prompt without the information block, documents
      give it with their combined entries. */
  lemma RetrieveSearches(sv: Services, req: Request, calls: seq<Call>, v: seq<real>)
    requires sv.embed(req.message) == Embedding(v) && |v| > 0
    ensures var r := Retrieve(sv, req, calls);
            && |r.calls| > |calls| + 1
            && r.calls[|calls| + 1] == Search(VectorQuery(sv.indexName, sv.embeddingField, v, 49, 3))
    ensures var docs := FindSimilarDocuments(sv.search, v, sv.indexName, sv.embeddingField, 3);
            && |docs| <= 3
            && (|docs| == 0 ==>
                  Retrieve(sv, req, calls).prompt == Some(NoDocsPrompt(req.conversationHistory, req.message)))
            && (|docs| > 0 ==>
                  Retrieve(sv, req, calls).prompt
                  == Some(DocsPrompt(CombinedTexts(docs), req.conversationHistory, req.message)))
  {
    var q := Query(v, sv.indexName, sv.embeddingField, DefaultNoOfDocs);
    var r := Retrieve(sv, req, calls);
    assert r.calls[..|calls| + 2] == calls + [Embed(req.message), Search(q)];
    assert r.calls[|calls| + 1] == r.calls[..|calls| + 2][|calls| + 1];
  }

  /** When the classifier picks retrieval and the embedding is non-empty,
      the third call is the search for three documents. */
  lemma RetrievalPrompt(req: Request, sv: Services, v: seq<real>)
    requires RetrievalChosen(req, sv)
    requires sv.embed(req.message) == Embedding(v) && |v| > 0
    ensures var r := Chat(req, sv);
            && |r.calls| > 2
            && r.calls[2] == Search(VectorQuery(sv.indexName, sv.embeddingField, v, 49, 3))
    ensures var docs := FindSimilarDocuments(sv.search, v, sv.indexName, sv.embeddingField, 3);
            && (|docs| == 0 ==>
                  Chat(req, sv).prompt == Some(NoDocsPrompt(req.conversationHistory, req.message)))
            && (|docs| > 0 ==>
                  Chat(req, sv).prompt
                  == Some(DocsPrompt(CombinedTexts(docs), req.conversationHistory, req.message)))
  {
    var cp := ClassificationPrompt(req.conversationHistory, req.message);
    ChatRetrieves(req, sv);
    RetrieveSearches(sv, req, [Classify(cp)], v);
  }

  lemma ChatRetrieves(req: Request, sv: Services)
    requires RetrievalChosen(req, sv)
    ensures Chat(req, sv)
            == Retrieve(sv, req, [Classify(ClassificationPrompt(req.conversationHistory, req.message))])
  {
  }

  /** A result succeeds exactly when a prompt was chosen and the generator
      answered it; the reply is then the formatted answer and generation
      was the last call. Every other outcome after a prompt is the
      generation error. */
  predicate GenerationDecides(r: ChatResult, sv: Services) {
    && (r.response.status == 200 <==> r.prompt.Some? && sv.clientOk && sv.generate(r.prompt.value).Some?)
    && (r.response.status == 200 ==>
          && r.response.body == Reply(FormatText(sv.generate(r.prompt.value).value))
          && |r.calls| > 0 && r.calls[|r.calls| - 1] == Generate(r.prompt.value))
    && (r.prompt.Some? && r.response.status != 200 ==> r.response == Response(500, Reply(GenerationFailed)))
  }

  lemma AnswerDecided(sv: Services, prompt: string, calls: seq<Call>)
    ensures GenerationDecides(Answer(sv, prompt, calls), sv)
  {
    var r := Answer(sv, prompt, calls);
    if sv.clientOk {
      assert r.calls[|r.calls| - 1] == Generate(prompt);
    }
  }

  lemma RetrieveDecided(sv: Services, req: Request, calls: seq<Call>)
    ensures GenerationDecides(Retrieve(sv, req, calls), sv)
  {
    match sv.embed(req.message)
    case EmbedClientError(_) =>
    case Embedding(v) =>
      if |v| > 0 {
        var m, h := req.message, req.conversationHistory;
        var q := Query(v, sv.indexName, sv.embeddingField, DefaultNoOfDocs);
        var docs := FindSimilarDocuments(sv.search, v, sv.indexName, sv.embeddingField, DefaultNoOfDocs);
        var prompt := if |docs| == 0 then NoDocsPrompt(h, m) else DocsPrompt(CombinedTexts(docs), h, m);
        AnswerDecided(sv, prompt, calls + [Embed(m), Search(q)]);
      }
  }

  lemma DispatchDecided(sv: Services, req: Request, c: string, calls: seq<Call>)
    ensures GenerationDecides(Dispatch(sv, req, c, calls), sv)
  {
    var m, h := req.message, req.conversationHistory;
    if Contains(c, ContextSpecific) {
      RetrieveDecided(sv, req, calls);
    } else if Contains(c, Casual) {
      AnswerDecided(sv, CasualPrompt(h, m), calls);
    } else {
      AnswerDecided(sv, GenericPrompt(h, m), calls);
    }
  }

  /** For a POST, the generator alone decides success (see
      `GenerationDecides`); the guards answer without a prompt and never
      with 200. */
  lemma SuccessOnlyThroughGeneration(req: Request, sv: Services)
    requires req.verb == Post
    ensures GenerationDecides(Chat(req, sv), sv)
  {
    if Admitted(req, sv) {
      var (c, calls) := Classification(sv, ClassificationPrompt(req.conversationHistory, req.message));
      assert Chat(req, sv) == Dispatch(sv, req, c, calls);
      DispatchDecided(sv, req, c, calls);
    }
  }

  lemma PrefixOfAppends(p: string, a: string, b: string, c: string, d: string)
    ensures p <= p + a + b + c + d
  {
    assert p + a + b + c + d == p + (a + b + c + d);
  }

  /** The prompts never mix: the retrieval prompt with documents opens with
      the information block, the others with the conversation history. */
  lemma PromptHeads(combined: string, history: string, message: string)
    ensures InformationHeader + combined + "\n\n" + HistoryHeader <= DocsPrompt(combined, history, message)
    ensures HistoryHeader <= NoDocsPrompt(history, message)
    ensures !(InformationHeader <= NoDocsPrompt(history, message))
    ensures HistoryHeader <= CasualPrompt(history, message) && HistoryHeader <= GenericPrompt(history, message)
  {
    PrefixOfAppends(InformationHeader + combined + "\n\n" + HistoryHeader, history, "\n\nQuestion: ", message, DocsInstructions);
    PrefixOfAppends(HistoryHeader, history, "\n\nQuestion: ", message, NoDocsInstructions);
    PrefixOfAppends(HistoryHeader, history, "\n\nUser message: ", message, CasualInstructions);
    PrefixOfAppends(HistoryHeader, history, "\n\nUser message: ", message, GenericInstructions);
    var n := NoDocsPrompt(history, message);
    assert n[0] == HistoryHeader[0];
  }
}
