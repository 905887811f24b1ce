/** backend/main_with_toggle.py: the `/api/chat` handler that routes a
    request through the graph when the toggle is on and falls back to the
    direct LLM call when it is off or when the graph raises, and
    `/api/reset`. The module-level `sessions` dictionary is the field of
    `ToggleServer`. */
module ToggleApp {
  import opened Wrappers
  import opened Text
  import opened AgentGraph
  import opened SessionCore
  import Rag

  const NotConfiguredReply: string := "Sorry, the AI system is not properly configured. Please contact support."
  const NoGraphReply: string := "[No response from LangGraph]"
  const ResetReply: string := "Session reset successfully"

  datatype ChatRequest = ChatRequest(message: string, sessionId: Option<string>)

  /** The graph path: when the toggle is on and the graph returns, the
      updated record and the reply; `None` sends the request down the direct
      path (toggle off, or the graph raised). */
  function GraphAttempt(s: SessionRecord, env: Environment, graph: AgentState -> GraphOutcome)
    : Option<(SessionRecord, string)>
  {
    if UseLanggraph(env.useLanggraphVar, env.hasLanggraph) then
      match graph(s)
      case GraphReturned(f) => Some((ApplyFinalState(s, f), f.agentResponse.GetOr(NoGraphReply)))
      case GraphRaised(_) => None
    else None
  }

  /** One request to `chat`: its outcome and the session table afterwards. */
  function ChatTurn(sessions: map<string, SessionRecord>, request: ChatRequest, env: Environment, freshId: string,
                    graph: AgentState -> GraphOutcome,
                    search: Rag.SearchRequest -> Result<seq<string>, string>,
                    llm: Prompt -> Result<string, string>): (ChatOutcome, map<string, SessionRecord>)
  {
    if !env.hasLangchain then
      (Replied(ChatResponse(NotConfiguredReply, freshId, None)), sessions)
    else
      var id := SessionIdFor(request.sessionId, freshId);
      var s := WithUserMessage(RecordFor(sessions, id), request.message);
      match GraphAttempt(s, env, graph)
      case Some((t, reply)) => Finish(sessions, id, t, request.message, reply)
      case None => DirectTurn(sessions, id, s, request.message, env.hasRag, RetrievalFilter(request.message), search, llm)
  }

  /** The optional retrieval of the direct path, with the type filter
      chosen from the message: auto words, then home words, else none. */
  method RetrieveWithFilter(session: SessionRecord, message: string, hasRag: bool,
                            search: Rag.SearchRequest -> Result<seq<string>, string>)
    returns (updated: SessionRecord, knowledge: Option<string>)
    ensures (updated, knowledge) == Retrieve(session, message, hasRag, RetrievalFilter(message), search)
  {
    updated, knowledge := session, None;
    var lowerMessage := Lower(message);
    if hasRag && ContainsAny(lowerMessage, RetrievalKeywords) {
      var filterType: Option<string> := None;
      if ContainsAny(lowerMessage, AutoWords) {
        filterType := Some("auto");
      } else if ContainsAny(lowerMessage, HomeWords) {
        filterType := Some("home");
      }
      var results := search(Rag.SearchKnowledgeRequest(message, 2, filterType));
      if results.Ok? && results.value != [] {
        var context := JoinPassages(results.value);
        updated := session.(knowledgeContext := context);
        knowledge := Some(context);
      }
    }
  }

  class ToggleServer {
    /** `sessions`. */
    var sessions: map<string, SessionRecord>

    constructor ()
      ensures sessions == map[]
    {
      sessions := map[];
    }

    /** `chat(request)`, updating the session record in place step by step. */
    method Chat(request: ChatRequest, env: Environment, freshId: string,
                graph: AgentState -> GraphOutcome,
                search: Rag.SearchRequest -> Result<seq<string>, string>,
                llm: Prompt -> Result<string, string>) returns (outcome: ChatOutcome)
      modifies this
      ensures (outcome, sessions) == ChatTurn(old(sessions), request, env, freshId, graph, search, llm)
    {
      if !env.hasLangchain {
        return Replied(ChatResponse(NotConfiguredReply, freshId, None));
      }
      var id := if request.sessionId.Some? && request.sessionId.value != "" then request.sessionId.value else freshId;
      var session := if id in sessions then sessions[id] else DefaultRecord;
      session := session.(messages := session.messages + [Message(Human, request.message)]);
      ghost var withUser := session;
      assert id == SessionIdFor(request.sessionId, freshId);
      assert withUser == WithUserMessage(RecordFor(old(sessions), id), request.message);

      var responseText: string;
      var useGraph := false;
      if UseLanggraph(env.useLanggraphVar, env.hasLanggraph) {
        var result := graph(session);
        match result {
          case GraphReturned(f) =>
            responseText := f.agentResponse.GetOr(NoGraphReply);
            session := ApplyFinalState(session, f);
            useGraph := true;
          case GraphRaised(e) =>
            responseText := GraphErrorText(e);
        }
      }

      if !useGraph {
        assert GraphAttempt(withUser, env, graph) == None && session == withUser;
        var knowledge;
        session, knowledge := RetrieveWithFilter(session, request.message, env.hasRag, search);
        var response := llm(Prompt(session.messages, knowledge));
        if response.Err? {
          sessions := sessions[id := session];
          return ServerError(response.error);
        }
        responseText := response.value;
      } else {
        assert GraphAttempt(withUser, env, graph) == Some((session, responseText));
      }

      ghost var beforeFinish := session;
      session := session.(messages := session.messages + [Message(Ai, responseText)]);
      var insuranceType := ExtractInsuranceType(request.message, session.insuranceType);
      session := session.(insuranceType := insuranceType);
      sessions := sessions[id := session];
      outcome := Replied(ChatResponse(responseText, id,
        Some(AgentSummary(session.insuranceType, session.quoteResult != None, |session.messages|))));
      assert (outcome, sessions) == Finish(old(sessions), id, beforeFinish, request.message, responseText);
    }

    /** `reset_session(session_id)`: deletes the record if there is one. */
    method ResetSession(sessionId: string) returns (message: string)
      modifies this
      ensures sessions == old(sessions) - {sessionId}
      ensures sessionId !in old(sessions) ==> sessions == old(sessions)
      ensures message == ResetReply
    {
      if sessionId in sessions {
        sessions := sessions - {sessionId};
      }
      message := ResetReply;
    }
  }

  // ===========================================================================
  // Properties of a chat turn
  // ===========================================================================

  /** Without the LLM library the handler apologises under a fresh id and
      leaves every session alone. */
  lemma NoLangchainApologises(sessions: map<string, SessionRecord>, request: ChatRequest, env: Environment, freshId: string,
                              graph: AgentState -> GraphOutcome,
                              search: Rag.SearchRequest -> Result<seq<string>, string>,
                              llm: Prompt -> Result<string, string>)
    requires !env.hasLangchain
    ensures ChatTurn(sessions, request, env, freshId, graph, search, llm)
         == (Replied(ChatResponse(NotConfiguredReply, freshId, None)), sessions)
  {
  }

  /** A turn writes at most the request's own session; every other record
      is unchanged. */
  lemma {:induction false} ChatTouchesOneSession(sessions: map<string, SessionRecord>, request: ChatRequest, env: Environment,
                                                 freshId: string, graph: AgentState -> GraphOutcome,
                                                 search: Rag.SearchRequest -> Result<seq<string>, string>,
                                                 llm: Prompt -> Result<string, string>)
    ensures var after := ChatTurn(sessions, request, env, freshId, graph, search, llm).1;
      var id := SessionIdFor(request.sessionId, freshId);
      && after.Keys <= sessions.Keys + {id}
      && (forall other | other in sessions && other != id :: other in after && after[other] == sessions[other])
  {
    if env.hasLangchain {
      var id := SessionIdFor(request.sessionId, freshId);
      var s := WithUserMessage(RecordFor(sessions, id), request.message);
      match GraphAttempt(s, env, graph)
      case Some((t, reply)) => FinishFrame(sessions, id, t, request.message, reply);
      case None =>
        DirectTurnFrame(sessions, id, s, request.message, env.hasRag, RetrievalFilter(request.message), search, llm);
    }
  }

  /** On the direct path (toggle off) a turn the LLM answers appends exactly
      the user's message and the reply, so the message count rises by two;
      user_info and the quote are never written, and `has_quote` reports
      whether a quote is stored. */
  lemma {:induction false} DirectPathAppendsTwo(sessions: map<string, SessionRecord>, request: ChatRequest, env: Environment,
                                                freshId: string, graph: AgentState -> GraphOutcome,
                                                search: Rag.SearchRequest -> Result<seq<string>, string>,
                                                llm: Prompt -> Result<string, string>)
    requires env.hasLangchain && !UseLanggraph(env.useLanggraphVar, env.hasLanggraph)
    requires ChatTurn(sessions, request, env, freshId, graph, search, llm).0.Replied?
    ensures var (outcome, after) := ChatTurn(sessions, request, env, freshId, graph, search, llm);
      var id := SessionIdFor(request.sessionId, freshId);
      var before := RecordFor(sessions, id);
      && id in after
      && after[id].messages == before.messages + [Message(Human, request.message), Message(Ai, outcome.reply.response)]
      && after[id].userInfo == before.userInfo && after[id].quoteResult == before.quoteResult
      && outcome.reply.agentState.Some?
      && outcome.reply.agentState.value.messageCount == |before.messages| + 2
      && (outcome.reply.agentState.value.hasQuote <==> before.quoteResult.Some?)
      && after[id].insuranceType == ClassifyInsuranceType(request.message, before.insuranceType)
  {
    var id := SessionIdFor(request.sessionId, freshId);
    var s := WithUserMessage(RecordFor(sessions, id), request.message);
    DirectTurnFrame(sessions, id, s, request.message, env.hasRag, RetrievalFilter(request.message), search, llm);
  }

  /** A graph that raises costs nothing: the turn is exactly the turn with
      the toggle off, so the LLM's reply replaces the error text. */
  lemma GraphErrorFallsBack(sessions: map<string, SessionRecord>, request: ChatRequest, env: Environment, freshId: string,
                            graph: AgentState -> GraphOutcome,
                            search: Rag.SearchRequest -> Result<seq<string>, string>,
                            llm: Prompt -> Result<string, string>)
    requires graph(WithUserMessage(RecordFor(sessions, SessionIdFor(request.sessionId, freshId)), request.message)).GraphRaised?
    ensures ChatTurn(sessions, request, env, freshId, graph, search, llm)
         == ChatTurn(sessions, request, env.(useLanggraphVar := None), freshId, graph, search, llm)
  {
    assert !UseLanggraph(None, env.hasLanggraph) by {
      assert Lower("no")[0] != "yes"[0];
    }
  }

  /** When the graph returns, its reply (or the placeholder) is the answer,
      and neither the knowledge search nor the LLM is consulted. */
  lemma GraphReplyIsFinal(sessions: map<string, SessionRecord>, request: ChatRequest, env: Environment, freshId: string,
                          graph: AgentState -> GraphOutcome,
                          search: Rag.SearchRequest -> Result<seq<string>, string>,
                          llm: Prompt -> Result<string, string>,
                          search': Rag.SearchRequest -> Result<seq<string>, string>,
                          llm': Prompt -> Result<string, string>)
    requires env.hasLangchain && UseLanggraph(env.useLanggraphVar, env.hasLanggraph)
    requires graph(WithUserMessage(RecordFor(sessions, SessionIdFor(request.sessionId, freshId)), request.message)).GraphReturned?
    ensures var f := graph(WithUserMessage(RecordFor(sessions, SessionIdFor(request.sessionId, freshId)), request.message)).final;
      var outcome := ChatTurn(sessions, request, env, freshId, graph, search, llm).0;
      outcome.Replied? && outcome.reply.response == f.agentResponse.GetOr(NoGraphReply)
    ensures ChatTurn(sessions, request, env, freshId, graph, search, llm)
         == ChatTurn(sessions, request, env, freshId, graph, search', llm')
  {
  }

  /** The direct path's search is filtered by the message's own type words,
      auto before home: only the answer to that one request matters. */
  lemma RetrievalUsesMessageFilter(sessions: map<string, SessionRecord>, request: ChatRequest, env: Environment, freshId: string,
                                   graph: AgentState -> GraphOutcome,
                                   search: Rag.SearchRequest -> Result<seq<string>, string>,
                                   search': Rag.SearchRequest -> Result<seq<string>, string>,
                                   llm: Prompt -> Result<string, string>)
    requires var key := Rag.SearchRequest(request.message, 2, Rag.SearchFilter(RetrievalFilter(request.message)));
      search(key) == search'(key)
    ensures ChatTurn(sessions, request, env, freshId, graph, search, llm)
         == ChatTurn(sessions, request, env, freshId, graph, search', llm)
  {
    if env.hasLangchain {
      var id := SessionIdFor(request.sessionId, freshId);
      var s := WithUserMessage(RecordFor(sessions, id), request.message);
      RetrieveAsksOnce(s, request.message, env.hasRag, RetrievalFilter(request.message), search, search');
    }
  }

  /** A knowledge search that raises is swallowed: the turn is exactly the
      turn whose search found nothing. */
  lemma SearchErrorLikeNoResults(sessions: map<string, SessionRecord>, request: ChatRequest, env: Environment, freshId: string,
                                 graph: AgentState -> GraphOutcome,
                                 failing: Rag.SearchRequest -> Result<seq<string>, string>,
                                 empty: Rag.SearchRequest -> Result<seq<string>, string>,
                                 llm: Prompt -> Result<string, string>)
    requires var key := Rag.SearchRequest(request.message, 2, Rag.SearchFilter(RetrievalFilter(request.message)));
      failing(key).Err? && empty(key) == Ok([])
    ensures ChatTurn(sessions, request, env, freshId, graph, failing, llm)
         == ChatTurn(sessions, request, env, freshId, graph, empty, llm)
  {
    if env.hasLangchain {
      var id := SessionIdFor(request.sessionId, freshId);
      var s := WithUserMessage(RecordFor(sessions, id), request.message);
      SearchErrorIsNoResults(s, request.message, env.hasRag, RetrievalFilter(request.message), failing, empty);
    }
  }

  /** After a reset, the next turn for that id starts from the default
      record, exactly as if the id had never been seen. */
  lemma ResetThenChatStartsFresh(sessions: map<string, SessionRecord>, id: string, message: string, env: Environment,
                                 freshId: string, graph: AgentState -> GraphOutcome,
                                 search: Rag.SearchRequest -> Result<seq<string>, string>,
                                 llm: Prompt -> Result<string, string>)
    requires id != "" && env.hasLangchain
    ensures var request := ChatRequest(message, Some(id));
      var (o1, after1) := ChatTurn(sessions - {id}, request, env, freshId, graph, search, llm);
      var (o2, after2) := ChatTurn(map[], request, env, freshId, graph, search, llm);
      o1 == o2 && id in after1 && id in after2 && after1[id] == after2[id]
  {
    var request := ChatRequest(message, Some(id));
    assert RecordFor(sessions - {id}, id) == RecordFor(map[], id);
    ChatTouchesOneSession(sessions - {id}, request, env, freshId, graph, search, llm);
    ChatTouchesOneSession(map[], request, env, freshId, graph, search, llm);
    var s := WithUserMessage(DefaultRecord, message);
    match GraphAttempt(s, env, graph)
    case Some((t, reply)) =>
      FinishFrame(sessions - {id}, id, t, message, reply);
      FinishFrame(map[], id, t, message, reply);
    case None =>
      DirectTurnFrame(sessions - {id}, id, s, message, env.hasRag, RetrievalFilter(message), search, llm);
      DirectTurnFrame(map[], id, s, message, env.hasRag, RetrievalFilter(message), search, llm);
  }
}
