/** backend/main_backup.py: the earlier `/api/chat` handler with the same
    toggle. Here a missing LLM library is an HTTP 503, a graph that raises is
    answered with the error text itself (the LLM is not called), and the
    direct path's knowledge search has no type filter. */
module BackupApp {
  import opened Wrappers
  import opened Text
  import opened AgentGraph
  import opened SessionCore
  import Rag

  const NoGraphReply: string := "[No response from graph]"
  const ResetReply: string := "Session reset successfully"

  datatype ChatRequest = ChatRequest(message: string, sessionId: Option<string>)

  /** The graph path: when the toggle is on, the record after the graph and
      the reply — the graph's own, or the error text when it raised. */
  function GraphAttempt(s: SessionRecord, env: Environment, graph: AgentState -> GraphOutcome)
    : Option<(SessionRecord, string)>
  {
    if UseLanggraph(env.useLanggraphVar, env.hasLanggraph) then
      match graph(s)
      case GraphReturned(f) => Some((ApplyFinalState(s, f), f.agentResponse.GetOr(NoGraphReply)))
      case GraphRaised(e) => Some((s, GraphErrorText(e)))
    else None
  }

  /** One request to `chat`: its outcome and the session table afterwards. */
  function ChatTurn(sessions: map<string, SessionRecord>, request: ChatRequest, env: Environment, freshId: string,
                    graph: AgentState -> GraphOutcome,
                    search: Rag.SearchRequest -> Result<seq<string>, string>,
                    llm: Prompt -> Result<string, string>): (ChatOutcome, map<string, SessionRecord>)
  {
    if !env.hasLangchain then
      (HttpError(503, "LangChain not available"), sessions)
    else
      var id := SessionIdFor(request.sessionId, freshId);
      var s := WithUserMessage(RecordFor(sessions, id), request.message);
      match GraphAttempt(s, env, graph)
      case Some((t, reply)) => Finish(sessions, id, t, request.message, reply)
      case None => DirectTurn(sessions, id, s, request.message, env.hasRag, None, search, llm)
  }

  /** The optional retrieval of the direct path: same trigger, k = 2, and no
      type filter. */
  method RetrieveUnfiltered(session: SessionRecord, message: string, hasRag: bool,
                            search: Rag.SearchRequest -> Result<seq<string>, string>)
    returns (updated: SessionRecord, knowledge: Option<string>)
    ensures (updated, knowledge) == Retrieve(session, message, hasRag, None, search)
  {
    updated, knowledge := session, None;
    if hasRag && ContainsAny(Lower(message), RetrievalKeywords) {
      var results := search(Rag.SearchKnowledgeRequest(message, 2, None));
      if results.Ok? && results.value != [] {
        var context := JoinPassages(results.value);
        updated := session.(knowledgeContext := context);
        knowledge := Some(context);
      }
    }
  }

  class BackupServer {
    /** `sessions`. */
    var sessions: map<string, SessionRecord>

    constructor ()
      ensures sessions == map[]
    {
      sessions := map[];
    }

    /** `chat(request)`: the record is read or created, updated step by step,
        and written back when the handler returns or raises. */
    method Chat(request: ChatRequest, env: Environment, freshId: string,
                graph: AgentState -> GraphOutcome,
                search: Rag.SearchRequest -> Result<seq<string>, string>,
                llm: Prompt -> Result<string, string>) returns (outcome: ChatOutcome)
      modifies this
      ensures (outcome, sessions) == ChatTurn(old(sessions), request, env, freshId, graph, search, llm)
    {
      if !env.hasLangchain {
        return HttpError(503, "LangChain not available");
      }
      var id := if request.sessionId.Some? && request.sessionId.value != "" then request.sessionId.value else freshId;
      var session := if id in sessions then sessions[id] else DefaultRecord;
      session := session.(messages := session.messages + [Message(Human, request.message)]);
      ghost var withUser := session;
      assert id == SessionIdFor(request.sessionId, freshId);
      assert withUser == WithUserMessage(RecordFor(old(sessions), id), request.message);

      var responseText: string;
      if UseLanggraph(env.useLanggraphVar, env.hasLanggraph) {
        var result := graph(session);
        match result {
          case GraphReturned(f) =>
            responseText := f.agentResponse.GetOr(NoGraphReply);
            session := ApplyFinalState(session, f);
          case GraphRaised(e) =>
            responseText := GraphErrorText(e);
        }
        assert GraphAttempt(withUser, env, graph) == Some((session, responseText));
      } else {
        assert GraphAttempt(withUser, env, graph) == None;
        var knowledge;
        session, knowledge := RetrieveUnfiltered(session, request.message, env.hasRag, search);
        var response := llm(Prompt(session.messages, knowledge));
        if response.Err? {
          sessions := sessions[id := session];
          return ServerError(response.error);
        }
        responseText := response.value;
      }

      ghost var beforeFinish := session;
      session := session.(messages := session.messages + [Message(Ai, responseText)]);
      var insuranceType := ExtractInsuranceType(request.message, session.insuranceType);
      session := session.(insuranceType := insuranceType);
      sessions := sessions[id := session];
      outcome := Replied(ChatResponse(responseText, id,
        Some(AgentSummary(session.insuranceType, session.quoteResult != None, |session.messages|))));
      assert (outcome, sessions) == Finish(old(sessions), id, beforeFinish, request.message, responseText);
    }

    /** `reset_session(session_id)`: deletes the record if there is one. */
    method ResetSession(sessionId: string) returns (message: string)
      modifies this
      ensures sessions == old(sessions) - {sessionId}
      ensures sessionId !in old(sessions) ==> sessions == old(sessions)
      ensures message == ResetReply
    {
      if sessionId in sessions {
        sessions := sessions - {sessionId};
      }
      message := ResetReply;
    }
  }

  // ===========================================================================
  // Properties of a chat turn
  // ===========================================================================

  /** Without the LLM library the request fails with 503 before any session
      is created or changed. */
  lemma NoLangchainIs503(sessions: map<string, SessionRecord>, request: ChatRequest, env: Environment, freshId: string,
                         graph: AgentState -> GraphOutcome,
                         search: Rag.SearchRequest -> Result<seq<string>, string>,
                         llm: Prompt -> Result<string, string>)
    requires !env.hasLangchain
    ensures ChatTurn(sessions, request, env, freshId, graph, search, llm)
         == (HttpError(503, "LangChain not available"), sessions)
  {
  }

  /** A turn writes at most the request's own session. */
  lemma {:induction false} ChatTouchesOneSession(sessions: map<string, SessionRecord>, request: ChatRequest, env: Environment,
                                                 freshId: string, graph: AgentState -> GraphOutcome,
                                                 search: Rag.SearchRequest -> Result<seq<string>, string>,
                                                 llm: Prompt -> Result<string, string>)
    ensures var after := ChatTurn(sessions, request, env, freshId, graph, search, llm).1;
      var id := SessionIdFor(request.sessionId, freshId);
      && after.Keys <= sessions.Keys + {id}
      && (forall other | other in sessions && other != id :: other in after && after[other] == sessions[other])
  {
    if env.hasLangchain {
      var id := SessionIdFor(request.sessionId, freshId);
      var s := WithUserMessage(RecordFor(sessions, id), request.message);
      match GraphAttempt(s, env, graph)
      case Some((t, reply)) => FinishFrame(sessions, id, t, request.message, reply);
      case None => DirectTurnFrame(sessions, id, s, request.message, env.hasRag, None, search, llm);
    }
  }

  /** A graph that raises is answered with the warning text, which is also
      stored as the assistant's message; no LLM call or search follows, so
      the turn is the same whatever they would answer. */
  lemma {:induction false} GraphErrorIsTheReply(sessions: map<string, SessionRecord>, request: ChatRequest, env: Environment,
                                                freshId: string, graph: AgentState -> GraphOutcome,
                                                search: Rag.SearchRequest -> Result<seq<string>, string>,
                                                llm: Prompt -> Result<string, string>,
                                                search': Rag.SearchRequest -> Result<seq<string>, string>,
                                                llm': Prompt -> Result<string, string>)
    requires env.hasLangchain && UseLanggraph(env.useLanggraphVar, env.hasLanggraph)
    requires graph(WithUserMessage(RecordFor(sessions, SessionIdFor(request.sessionId, freshId)), request.message)).GraphRaised?
    ensures var e := graph(WithUserMessage(RecordFor(sessions, SessionIdFor(request.sessionId, freshId)), request.message)).error;
      var (outcome, after) := ChatTurn(sessions, request, env, freshId, graph, search, llm);
      var id := SessionIdFor(request.sessionId, freshId);
      && outcome.Replied? && outcome.reply.response == GraphErrorText(e)
      && id in after
      && after[id].messages == RecordFor(sessions, id).messages
                               + [Message(Human, request.message), Message(Ai, GraphErrorText(e))]
    ensures ChatTurn(sessions, request, env, freshId, graph, search, llm)
         == ChatTurn(sessions, request, env, freshId, graph, search', llm')
  {
    var id := SessionIdFor(request.sessionId, freshId);
    var s := WithUserMessage(RecordFor(sessions, id), request.message);
    var e := graph(s).error;
    FinishFrame(sessions, id, s, request.message, GraphErrorText(e));
  }

  /** On the direct path a turn the LLM answers appends exactly the user's
      message and the reply, and never writes user_info or the quote. */
  lemma {:induction false} DirectPathAppendsTwo(sessions: map<string, SessionRecord>, request: ChatRequest, env: Environment,
                                                freshId: string, graph: AgentState -> GraphOutcome,
                                                search: Rag.SearchRequest -> Result<seq<string>, string>,
                                                llm: Prompt -> Result<string, string>)
    requires env.hasLangchain && !UseLanggraph(env.useLanggraphVar, env.hasLanggraph)
    requires ChatTurn(sessions, request, env, freshId, graph, search, llm).0.Replied?
    ensures var (outcome, after) := ChatTurn(sessions, request, env, freshId, graph, search, llm);
      var id := SessionIdFor(request.sessionId, freshId);
      var before := RecordFor(sessions, id);
      && id in after
      && after[id].messages == before.messages + [Message(Human, request.message), Message(Ai, outcome.reply.response)]
      && after[id].userInfo == before.userInfo && after[id].quoteResult == before.quoteResult
      && outcome.reply.agentState.Some?
      && outcome.reply.agentState.value.messageCount == |before.messages| + 2
      && after[id].insuranceType == ClassifyInsuranceType(request.message, before.insuranceType)
  {
    var id := SessionIdFor(request.sessionId, freshId);
    var s := WithUserMessage(RecordFor(sessions, id), request.message);
    DirectTurnFrame(sessions, id, s, request.message, env.hasRag, None, search, llm);
  }

  /** The direct path's search is never filtered: only the answer to the
      unfiltered request with k = 2 matters. */
  lemma RetrievalIsUnfiltered(sessions: map<string, SessionRecord>, request: ChatRequest, env: Environment, freshId: string,
                              graph: AgentState -> GraphOutcome,
                              search: Rag.SearchRequest -> Result<seq<string>, string>,
                              search': Rag.SearchRequest -> Result<seq<string>, string>,
                              llm: Prompt -> Result<string, string>)
    requires search(Rag.SearchRequest(request.message, 2, None)) == search'(Rag.SearchRequest(request.message, 2, None))
    ensures ChatTurn(sessions, request, env, freshId, graph, search, llm)
         == ChatTurn(sessions, request, env, freshId, graph, search', llm)
  {
    if env.hasLangchain {
      var id := SessionIdFor(request.sessionId, freshId);
      var s := WithUserMessage(RecordFor(sessions, id), request.message);
      RetrieveAsksOnce(s, request.message, env.hasRag, None, search, search');
    }
  }

  /** A knowledge search that raises is swallowed: the turn is exactly the
      turn whose search found nothing. */
  lemma SearchErrorLikeNoResults(sessions: map<string, SessionRecord>, request: ChatRequest, env: Environment, freshId: string,
                                 graph: AgentState -> GraphOutcome,
                                 failing: Rag.SearchRequest -> Result<seq<string>, string>,
                                 empty: Rag.SearchRequest -> Result<seq<string>, string>,
                                 llm: Prompt -> Result<string, string>)
    requires failing(Rag.SearchRequest(request.message, 2, None)).Err?
    requires empty(Rag.SearchRequest(request.message, 2, None)) == Ok([])
    ensures ChatTurn(sessions, request, env, freshId, graph, failing, llm)
         == ChatTurn(sessions, request, env, freshId, graph, empty, llm)
  {
    if env.hasLangchain {
      var id := SessionIdFor(request.sessionId, freshId);
      var s := WithUserMessage(RecordFor(sessions, id), request.message);
      SearchErrorIsNoResults(s, request.message, env.hasRag, None, failing, empty);
    }
  }

  /** After a reset, the next turn for that id starts from the default
      record, exactly as if the id had never been seen. */
  lemma ResetThenChatStartsFresh(sessions: map<string, SessionRecord>, id: string, message: string, env: Environment,
                                 freshId: string, graph: AgentState -> GraphOutcome,
                                 search: Rag.SearchRequest -> Result<seq<string>, string>,
                                 llm: Prompt -> Result<string, string>)
    requires id != "" && env.hasLangchain
    ensures var request := ChatRequest(message, Some(id));
      var (o1, after1) := ChatTurn(sessions - {id}, request, env, freshId, graph, search, llm);
      var (o2, after2) := ChatTurn(map[], request, env, freshId, graph, search, llm);
      o1 == o2 && id in after1 && id in after2 && after1[id] == after2[id]
  {
    var request := ChatRequest(message, Some(id));
    assert RecordFor(sessions - {id}, id) == RecordFor(map[], id);
    var s := WithUserMessage(DefaultRecord, message);
    match GraphAttempt(s, env, graph)
    case Some((t, reply)) =>
      FinishFrame(sessions - {id}, id, t, message, reply);
      FinishFrame(map[], id, t, message, reply);
    case None =>
      DirectTurnFrame(sessions - {id}, id, s, message, env.hasRag, None, search, llm);
      DirectTurnFrame(map[], id, s, message, env.hasRag, None, search, llm);
  }
}
