/** What the two chat entry points, backend/main_with_toggle.py and
    backend/main_backup.py, have in common: the session record, the
    keyword classification of the insurance type, the retrieval trigger, the
    `use_langgraph` toggle and the way a graph result is copied back into the
    session. The LLM, the graph and the knowledge search are collaborators
    whose answers come in as functions. */
module SessionCore {
  import opened Wrappers
  import opened Text
  import opened AgentGraph
  import Rag

  // ===========================================================================
  // Session record
  // ===========================================================================

  /** A session holds exactly the graph's state. */
  type SessionRecord = AgentState

  /** The record an unknown session id starts from. */
  const DefaultRecord: SessionRecord := AgentState([], map[], None, None, "", "gather_info")

  /** `request.session_id or str(uuid.uuid4())`: a missing or empty id is
      replaced by a fresh one. */
  function SessionIdFor(requested: Option<string>, freshId: string): string {
    match requested
    case Some(id) => if id == "" then freshId else id
    case None => freshId
  }

  /** The record a request works on: the stored one, or the defaults. */
  function RecordFor(sessions: map<string, SessionRecord>, id: string): SessionRecord {
    if id in sessions then sessions[id] else DefaultRecord
  }

  /** A known id keeps its record as it is; an unknown one gets the defaults:
      no messages, empty user_info, no type, no quote, empty context, next
      action "gather_info". */
  lemma RecordForCases(sessions: map<string, SessionRecord>, id: string)
    ensures id in sessions ==> RecordFor(sessions, id) == sessions[id]
    ensures id !in sessions ==>
      && RecordFor(sessions, id).messages == [] && RecordFor(sessions, id).userInfo == map[]
      && RecordFor(sessions, id).insuranceType == None && RecordFor(sessions, id).quoteResult == None
      && RecordFor(sessions, id).knowledgeContext == "" && RecordFor(sessions, id).nextAction == "gather_info"
  {
  }

  /** A provided non-empty id is kept; otherwise the fresh one is used. */
  lemma SessionIdForCases(requested: Option<string>, freshId: string)
    ensures SessionIdFor(requested, freshId) == freshId <==> requested.None? || requested.value == "" || requested.value == freshId
    ensures requested.Some? && requested.value != "" ==> SessionIdFor(requested, freshId) == requested.value
  {
  }

  // ===========================================================================
  // Keyword rules
  // ===========================================================================

  const AutoWords: seq<string> := ["auto", "car", "vehicle"]
  const HomeWords: seq<string> := ["home", "house", "property"]

  /** The type-extraction step after the reply: auto words win, then home
      words, and otherwise the type stays as it was. */
  function ClassifyInsuranceType(message: string, current: Option<string>): Option<string> {
    var lowerMessage := Lower(message);
    if ContainsAny(lowerMessage, AutoWords) then Some("auto")
    else if ContainsAny(lowerMessage, HomeWords) then Some("home")
    else current
  }

  /** Both directions of each outcome; a message naming both a car and a
      house is classified as auto. */
  lemma ClassifyCases(message: string, current: Option<string>)
    ensures var auto := ContainsAny(Lower(message), AutoWords);
      var home := ContainsAny(Lower(message), HomeWords);
      && (ClassifyInsuranceType(message, current) == Some("auto") <==> auto || (!home && current == Some("auto")))
      && (ClassifyInsuranceType(message, current) == Some("home") <==> (!auto && home) || (!auto && !home && current == Some("home")))
      && (!auto && !home ==> ClassifyInsuranceType(message, current) == current)
  {
  }

  /** A message naming both a car and a house is auto. */
  lemma AutoWinsTies()
    ensures ClassifyInsuranceType("My car and my HOUSE", None) == Some("auto")
  {
    var l := Lower("My car and my HOUSE");
    assert l == "my car and my house";
    assert "car" in AutoWords && OccursAt(l, "car", 3);
    ContainsIffOccurs(l, "car");
  }

  /** The extraction step as the handlers write it, overwriting the type
      only when a word group matches. */
  method ExtractInsuranceType(message: string, current: Option<string>) returns (insuranceType: Option<string>)
    ensures insuranceType == ClassifyInsuranceType(message, current)
  {
    insuranceType := current;
    var lowerMessage := Lower(message);
    if ContainsAny(lowerMessage, AutoWords) {
      insuranceType := Some("auto");
    } else if ContainsAny(lowerMessage, HomeWords) {
      insuranceType := Some("home");
    }
  }

  const RetrievalKeywords: seq<string> := ["what is", "explain", "tell me about", "how does", "difference"]

  /** The trigger for the optional knowledge search before the LLM call. */
  predicate RetrievalRequested(message: string) {
    ContainsAny(Lower(message), RetrievalKeywords)
  }

  /** Every message the graph's router sends to the knowledge search also
      triggers retrieval on the direct path ("difference between" contains
      "difference"). */
  lemma RoutingQuestionRequestsRetrieval(message: string)
    requires ContainsAny(Lower(message), SearchKeywords)
    ensures RetrievalRequested(message)
  {
    var k :| k in SearchKeywords && Contains(Lower(message), k);
    if k == "difference between" {
      assert OccursAt(k, "difference", 0);
      ContainsIffOccurs(k, "difference");
      ContainsTransitive(Lower(message), k, "difference");
      assert "difference" in RetrievalKeywords;
    } else {
      assert k in RetrievalKeywords;
    }
  }

  /** The toggle variant's filter: the same auto-before-home priority as the
      type extraction, with no filter when neither word group occurs. */
  function RetrievalFilter(message: string): Option<string> {
    ClassifyInsuranceType(message, None)
  }

  /** `use_langgraph()`: `USE_LANGGRAPH` (default "no"), lower-cased, must
      be "yes", and the graph module must have been imported. */
  function UseLanggraph(useLanggraphVar: Option<string>, hasLanggraph: bool): bool {
    Lower(useLanggraphVar.GetOr("no")) == "yes" && hasLanggraph
  }

  lemma UseLanggraphIff(useLanggraphVar: Option<string>, hasLanggraph: bool)
    ensures UseLanggraph(useLanggraphVar, hasLanggraph) <==>
      hasLanggraph && useLanggraphVar.Some? && Lower(useLanggraphVar.value) == "yes"
    ensures UseLanggraph(Some("YES"), true) && !UseLanggraph(Some("YES"), false)
  {
    if useLanggraphVar.None? {
      assert Lower("no")[0] != "yes"[0];
    }
    assert Lower("YES") == "yes";
  }

  // ===========================================================================
  // Collaborators
  // ===========================================================================

  /** What the deployment offers: the imports that succeeded and the
      `USE_LANGGRAPH` variable. */
  datatype Environment = Environment(hasLangchain: bool, hasLanggraph: bool, hasRag: bool, useLanggraphVar: Option<string>)

  /** The dictionary `agent_graph.invoke` returns: each key may be missing
      (`None` here); a present key may hold Python's `None`. */
  datatype FinalState = FinalState(
    messages: Option<seq<Message>>,
    userInfo: Option<UserInfo>,
    insuranceType: Option<Option<string>>,
    quoteResult: Option<Option<QuoteResult>>,
    knowledgeContext: Option<string>,
    nextAction: Option<string>,
    agentResponse: Option<string>)

  /** `agent_graph.invoke(state)`: it returns, or raises with a message. */
  datatype GraphOutcome = GraphReturned(final: FinalState) | GraphRaised(error: string)

  /** What reaches the LLM besides the fixed system instruction: the
      session's messages and, when retrieval found passages, the knowledge
      block built from them. */
  datatype Prompt = Prompt(history: seq<Message>, knowledge: Option<string>)

  /** `session.update({... final_state.get(key, session[key]) ...})`. */
  function ApplyFinalState(s: SessionRecord, f: FinalState): (t: SessionRecord)
    ensures (f.messages.None? && f.userInfo.None? && f.insuranceType.None? && f.quoteResult.None?
             && f.knowledgeContext.None? && f.nextAction.None?) ==> t == s
    ensures f.messages.Some? ==> t.messages == f.messages.value
    ensures f.messages.None? ==> t.messages == s.messages
    ensures f.userInfo.Some? ==> t.userInfo == f.userInfo.value
    ensures f.userInfo.None? ==> t.userInfo == s.userInfo
    ensures f.insuranceType.Some? ==> t.insuranceType == f.insuranceType.value
    ensures f.insuranceType.None? ==> t.insuranceType == s.insuranceType
    ensures f.quoteResult.Some? ==> t.quoteResult == f.quoteResult.value
    ensures f.quoteResult.None? ==> t.quoteResult == s.quoteResult
    ensures f.knowledgeContext.Some? ==> t.knowledgeContext == f.knowledgeContext.value
    ensures f.knowledgeContext.None? ==> t.knowledgeContext == s.knowledgeContext
    ensures f.nextAction.Some? ==> t.nextAction == f.nextAction.value
    ensures f.nextAction.None? ==> t.nextAction == s.nextAction
  {
    AgentState(
      f.messages.GetOr(s.messages),
      f.userInfo.GetOr(s.userInfo),
      f.insuranceType.GetOr(s.insuranceType),
      f.quoteResult.GetOr(s.quoteResult),
      f.knowledgeContext.GetOr(s.knowledgeContext),
      f.nextAction.GetOr(s.nextAction))
  }

  /** `f"⚠️ LangGraph error: {e}. Falling back to direct LLM."`. */
  function GraphErrorText(e: string): string {
    "\U{26A0}\U{FE0F} LangGraph error: " + e + ". Falling back to direct LLM."
  }

  /** `"\n\n".join(doc.page_content for doc in results)`. */
  function JoinPassages(contents: seq<string>): string {
    Join(contents, "\n\n")
  }

  /** The optional retrieval before the LLM call. It runs only when the
      knowledge module is available and the message asks a question; a
      failed or empty search changes nothing; otherwise the joined passages
      become the session's knowledge context and are added to the prompt. */
  function Retrieve(s: SessionRecord, message: string, hasRag: bool, filterType: Option<string>,
                    search: Rag.SearchRequest -> Result<seq<string>, string>): (SessionRecord, Option<string>)
  {
    if hasRag && RetrievalRequested(message) then
      match search(Rag.SearchKnowledgeRequest(message, 2, filterType))
      case Err(_) => (s, None)
      case Ok(results) =>
        if results == [] then (s, None)
        else (s.(knowledgeContext := JoinPassages(results)), Some(JoinPassages(results)))
    else (s, None)
  }

  /** Retrieval changes at most the knowledge context, and the prompt
      carries exactly what was stored; without a question (or without the
      module) the search is not consulted at all. */
  lemma RetrieveFrame(s: SessionRecord, message: string, hasRag: bool, filterType: Option<string>,
                      search: Rag.SearchRequest -> Result<seq<string>, string>)
    ensures var (t, knowledge) := Retrieve(s, message, hasRag, filterType, search);
      && t == s.(knowledgeContext := t.knowledgeContext)
      && (knowledge.Some? ==> t.knowledgeContext == knowledge.value)
      && (knowledge.None? ==> t == s)
    ensures !(hasRag && RetrievalRequested(message)) ==>
      forall other: Rag.SearchRequest -> Result<seq<string>, string> ::
        Retrieve(s, message, hasRag, filterType, other) == (s, None)
  {
  }

  /** The three outcomes of retrieval: without a question or the module, and
      for a failed or empty search, nothing changes and no knowledge is
      added; otherwise the passages, joined by blank lines, become both the
      stored context and the prompt's knowledge. */
  lemma RetrieveCases(s: SessionRecord, message: string, hasRag: bool, filterType: Option<string>,
                      search: Rag.SearchRequest -> Result<seq<string>, string>)
    ensures !(hasRag && RetrievalRequested(message)) ==> Retrieve(s, message, hasRag, filterType, search) == (s, None)
    ensures var answer := search(Rag.SearchRequest(message, 2, Rag.SearchFilter(filterType)));
      hasRag && RetrievalRequested(message) ==>
        && (answer.Err? || answer == Ok([]) ==> Retrieve(s, message, hasRag, filterType, search) == (s, None))
        && (answer.Ok? && answer.value != [] ==>
              Retrieve(s, message, hasRag, filterType, search)
              == (s.(knowledgeContext := JoinPassages(answer.value)), Some(JoinPassages(answer.value))))
  {
  }

  /** A search that raises is treated exactly like one that finds nothing. */
  lemma SearchErrorIsNoResults(s: SessionRecord, message: string, hasRag: bool, filterType: Option<string>,
                               failing: Rag.SearchRequest -> Result<seq<string>, string>,
                               empty: Rag.SearchRequest -> Result<seq<string>, string>)
    requires failing(Rag.SearchRequest(message, 2, Rag.SearchFilter(filterType))).Err?
    requires empty(Rag.SearchRequest(message, 2, Rag.SearchFilter(filterType))) == Ok([])
    ensures Retrieve(s, message, hasRag, filterType, failing) == Retrieve(s, message, hasRag, filterType, empty)
  {
    RetrieveCases(s, message, hasRag, filterType, failing);
    RetrieveCases(s, message, hasRag, filterType, empty);
  }

  /** The only request whose answer matters is the raw message with k = 2
      and the given type as filter: two searches that agree on it give the
      same outcome. */
  lemma RetrieveAsksOnce(s: SessionRecord, message: string, hasRag: bool, filterType: Option<string>,
                         a: Rag.SearchRequest -> Result<seq<string>, string>,
                         b: Rag.SearchRequest -> Result<seq<string>, string>)
    requires a(Rag.SearchRequest(message, 2, Rag.SearchFilter(filterType)))
          == b(Rag.SearchRequest(message, 2, Rag.SearchFilter(filterType)))
    ensures Retrieve(s, message, hasRag, filterType, a) == Retrieve(s, message, hasRag, filterType, b)
  {
  }

  /** The `agent_state` summary of a reply. */
  datatype AgentSummary = AgentSummary(insuranceType: Option<string>, hasQuote: bool, messageCount: nat)

  datatype ChatResponse = ChatResponse(response: string, sessionId: string, agentState: Option<AgentSummary>)

  /** How a request ends: a reply, an HTTP error raised on purpose, or an
      exception escaping the handler (a collaborator raised). */
  datatype ChatOutcome = Replied(reply: ChatResponse) | HttpError(status: nat, detail: string) | ServerError(error: string)

  function Summary(s: SessionRecord): (a: AgentSummary)
    ensures a.hasQuote <==> s.quoteResult.Some?
    ensures a.messageCount == |s.messages|
    ensures a.insuranceType == s.insuranceType
  {
    AgentSummary(s.insuranceType, s.quoteResult != None, |s.messages|)
  }

  /** The shared tail of `chat`: store the assistant reply, re-classify the
      type from the user's message, and answer with the summary. */
  function Finish(sessions: map<string, SessionRecord>, id: string, s: SessionRecord, message: string, reply: string)
    : (ChatOutcome, map<string, SessionRecord>)
  {
    var t := s.(messages := s.messages + [Message(Ai, reply)],
                insuranceType := ClassifyInsuranceType(message, s.insuranceType));
    (Replied(ChatResponse(reply, id, Some(Summary(t)))), sessions[id := t])
  }

  /** The tail appends exactly the reply, touches only the messages and the
      type, and writes only this session. */
  lemma FinishFrame(sessions: map<string, SessionRecord>, id: string, s: SessionRecord, message: string, reply: string)
    ensures var (outcome, after) := Finish(sessions, id, s, message, reply);
      && id in after && after.Keys == sessions.Keys + {id}
      && after[id].messages == s.messages + [Message(Ai, reply)]
      && after[id].userInfo == s.userInfo && after[id].quoteResult == s.quoteResult
      && after[id].knowledgeContext == s.knowledgeContext && after[id].nextAction == s.nextAction
      && (forall other | other in sessions && other != id :: after[other] == sessions[other])
      && outcome.Replied? && outcome.reply.response == reply && outcome.reply.sessionId == id
      && outcome.reply.agentState == Some(AgentSummary(after[id].insuranceType, after[id].quoteResult.Some?, |s.messages| + 1))
  {
  }

  /** The record once the user's message is appended. */
  function WithUserMessage(s: SessionRecord, message: string): SessionRecord {
    s.(messages := s.messages + [Message(Human, message)])
  }

  /** The direct LLM path: optional retrieval with the given filter, then the
      LLM call on the session's messages and whatever retrieval found. An LLM
      error escapes the handler, after the session has been written. */
  function DirectTurn(sessions: map<string, SessionRecord>, id: string, s: SessionRecord, message: string,
                      hasRag: bool, filterType: Option<string>,
                      search: Rag.SearchRequest -> Result<seq<string>, string>,
                      llm: Prompt -> Result<string, string>): (ChatOutcome, map<string, SessionRecord>)
  {
    var (t, knowledge) := Retrieve(s, message, hasRag, filterType, search);
    match llm(Prompt(t.messages, knowledge))
    case Err(e) => (ServerError(e), sessions[id := t])
    case Ok(reply) => Finish(sessions, id, t, message, reply)
  }

  /** The direct path writes only this session. The LLM is asked about the
      session's messages together with what retrieval found; the turn
      replies exactly when the LLM answers, and then with that answer, and
      an LLM error escapes as it is. When the LLM answers, the session gains
      exactly the reply, keeps its user_info and quote, and its summary
      counts one more message than before the reply. */
  lemma DirectTurnFrame(sessions: map<string, SessionRecord>, id: string, s: SessionRecord, message: string,
                        hasRag: bool, filterType: Option<string>,
                        search: Rag.SearchRequest -> Result<seq<string>, string>,
                        llm: Prompt -> Result<string, string>)
    ensures var (outcome, after) := DirectTurn(sessions, id, s, message, hasRag, filterType, search, llm);
      && id in after && after.Keys == sessions.Keys + {id}
      && (forall other | other in sessions && other != id :: after[other] == sessions[other])
      && after[id].userInfo == s.userInfo && after[id].quoteResult == s.quoteResult
      && after[id].nextAction == s.nextAction
      && (outcome.ServerError? ==> after[id].messages == s.messages)
      && (outcome.Replied? ==>
            && after[id].messages == s.messages + [Message(Ai, outcome.reply.response)]
            && after[id].insuranceType == ClassifyInsuranceType(message, s.insuranceType)
            && outcome.reply.agentState.Some?
            && outcome.reply.agentState.value.messageCount == |s.messages| + 1
            && (outcome.reply.agentState.value.hasQuote <==> s.quoteResult.Some?))
      && !outcome.HttpError?
    ensures var (outcome, after) := DirectTurn(sessions, id, s, message, hasRag, filterType, search, llm);
      var knowledge := Retrieve(s, message, hasRag, filterType, search).1;
      var answer := llm(Prompt(s.messages, knowledge));
      && (outcome.Replied? <==> answer.Ok?)
      && (answer.Ok? ==> outcome.Replied? && outcome.reply.response == answer.value)
      && (answer.Err? ==> outcome == ServerError(answer.error))
      && after[id].knowledgeContext == (if knowledge.Some? then knowledge.value else s.knowledgeContext)
  {
    var (t, knowledge) := Retrieve(s, message, hasRag, filterType, search);
    RetrieveFrame(s, message, hasRag, filterType, search);
    if llm(Prompt(t.messages, knowledge)).Ok? {
      FinishFrame(sessions, id, t, message, llm(Prompt(t.messages, knowledge)).value);
    }
  }
}
