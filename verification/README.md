# Insurance agent backend — a verified Dafny model

This project models the deterministic core of an insurance-quoting chat backend. The rest of the backend is LLM, vector-store or web glue. The model covers:

- **Rating engine.** The two premium calculators of the graph agent, `calculate_auto_premium` and `calculate_home_premium`. There is also a simplified rule set with the same names in `backend/tools.py`. Auto premiums are integers. Home premiums use Python's true division and are modelled with `real`, which is exact.
- **Routing and graph state machine.**
  - `should_search_knowledge` decides the next step.
  - Four node functions each update a few state fields.
  - The edge table of `create_agent_graph` is written as an explicit transition function `Step`, with `Run` for n steps.
  - Reachability and termination are proved about that function.
  - The calculators are bound to the `user_info` dictionary the way a tool call checks its arguments: a missing argument that has no default, or a value of the wrong kind, raises.
- **Session bookkeeping.**
  - The `sessions` table of the two chat handlers (`main_with_toggle.py`, `main_backup.py`), each a class whose `Chat` method updates the table.
  - The `MemoryStore` class.
  - The LLM, the graph invocation and the knowledge search are functions passed in as parameters, so their answers are opaque.
- **Text extraction and formatting.**
  - `extract_field`: nested loops with early return, proved against a recursive specification.
  - `extract_coverage`: a dictionary filled in a loop.
  - `parse_extraction_response`.
  - The mime-type dispatch of `analyze_insurance_document`.
  - The numbered reference blocks of `get_relevant_context`.

## Files

- `wrappers.dfy`: `Option` and `Result`.
- `text.dfy`: helpers for Python string operations.
  - ASCII `Lower`.
  - Substring tests: `Contains`, `ContainsAny`, `StartsWith`.
  - `Split` and `Join`.
  - `strip`, using Python's whitespace set.
  - `f"{n}"` and `f"{n:,}"` formatting, with their read-back lemmas.
- `rating.dfy`, `simple_rating.dfy`: the two rule sets.
- `rag.dfy`: the search filter and `get_relevant_context`.
- `agent_graph.dfy`: the state, argument binding, routing, nodes (as functions and as methods of `GraphState`), and the graph.
- `document_analyzer.dfy`: field and coverage extraction, and the upload dispatch.
- `memory_store.dfy`: `MemoryStore`.
- `session_core.dfy`: what the two handlers share.
- `toggle_app.dfy`, `backup_app.dfy`: the two handlers.

## Model

| member | source | states |
|---|---|---|
| Rating.CalculateAutoPremium | backend/langgraph_agent.py:35-119 | the six breakdown entries add up to the annual premium; the monthly figure is the annual one over twelve |
| Rating.AutoAgeBrackets | backend/langgraph_agent.py:53-65 | age <25 gives +400 "Young driver surcharge", 25–29 gives +200, >65 gives +150, 30–65 gives 0 "Optimal age range", each in both directions |
| Rating.AutoVehicleAgeBrackets | backend/langgraph_agent.py:67-77 | 2025−year >10 gives −100, <3 gives +200, 3..10 gives 0, each in both directions |
| Rating.UnknownLiabilityPricedAsDefault | backend/langgraph_agent.py:80-86 | an unrecognised liability limit yields the same premium and breakdown as "100000/300000" |
| Rating.AutoDiscountThresholds | backend/langgraph_agent.py:88-91 | the −50 deductible discount applies exactly when the deductible is ≥1000; the −100 experience discount exactly above ten years |
| Rating.OneMoreAccident | backend/langgraph_agent.py:92-97 | one more accident, all else equal, adds exactly 300 a year |
| Rating.OneMoreViolation | backend/langgraph_agent.py:93-97 | one more violation, all else equal, adds exactly 200 a year |
| Rating.AutoWorkedExample | backend/langgraph_agent.py:95-110 | age 28, 2020 Toyota Camry, ten years, default coverage gives 1500 a year and 125 a month (age 28 adds 200; exactly ten years earns no experience discount), vehicle "2020 Toyota Camry", deductible "$500" |
| Rating.CalculateHomePremium | backend/langgraph_agent.py:121-201 | the breakdown falls short of the annual premium by exactly the stories factor (stories−1)×100; monthly is annual over twelve |
| Rating.HomeAgeBrackets | backend/langgraph_agent.py:138-151 | property age >50 gives +400, 31–50 gives +200, <10 gives −100, 10–30 gives 0, each with its reason and in both directions |
| Rating.UnknownConstructionIsStandard | backend/langgraph_agent.py:153-162 | an unknown construction type gives (0, "Standard construction") |
| Rating.RoofTypeIgnored | backend/langgraph_agent.py:121-201 | changing only the roof type leaves the whole quote unchanged |
| Rating.HomeBreakdownMatchesIffOneStorey | backend/langgraph_agent.py:164-200 | breakdown total equals the annual premium if and only if the home has one storey |
| Rating.HomeWorkedExample | backend/langgraph_agent.py:135-173 | 2015, 2000 sq ft, frame, 300000, one storey gives 1700 a year; `roof_type` has no default, so one is supplied |
| SimpleRating.SimpleAutoPremium | backend/tools.py:8-71 | annual premium equals the sum of the six breakdown entries; monthly is annual over twelve |
| SimpleRating.SimpleAutoFactors | backend/tools.py:30-54 | age <25 gives +400, 25–29 gives +200, any other age 0 (no senior surcharge); vehicle age <5 gives +100, >15 gives −50, else 0; −100 exactly above ten licensed years; 300 per accident, 200 per violation |
| SimpleRating.SimpleAutoWorkedExample | backend/tools.py:137-146 | age 28, 2020, ten years, no accidents or violations gives 1000 a year, and leaving the two counts to their defaults gives the same quote |
| SimpleRating.SimpleHomePremium | backend/tools.py:74-134 | annual premium equals the sum of the four breakdown entries; monthly is annual over twelve |
| SimpleRating.SimpleHomeFactors | backend/tools.py:94-120 | base is half a unit per thousand of coverage; age <10 gives −50, >50 gives +200; size >3000 gives +150, <1500 gives −50, else 0; masonry −100, mobile +200, others 0 |
| SimpleRating.SimpleHomeCaseInsensitive | backend/tools.py:114-120 | the quote for a construction type equals the quote for its lower-cased form |
| SimpleRating.SimpleHomeUpperCaseExample | backend/tools.py:120 | "MOBILE" is priced as a mobile home (+200) |
| SimpleRating.SimpleHomeWorkedExample | backend/tools.py:151-157 | 2015, 2000 sq ft, frame, 300000 gives 150 |
| Rag.SearchFilterFalsy | backend/rag_system.py:182 | no filter exactly when the type is missing or empty; otherwise the single key "type" holding the type |
| Rag.GetRelevantContext | backend/rag_system.py:192-212 | requests k = 2 with the insurance type as filter; no results give "No relevant information found."; otherwise the newline-join of "**Reference i:**" blocks, i = 1..n in result order; a search that raises passes its error on |
| Rag.FormatContextSnoc | backend/rag_system.py:208-212 | in `FormatContext`, one more result appends one more block, after a newline, numbered one past the previous last |
| Rag.FormatContextBase | backend/rag_system.py:205-210 | in `FormatContext`, the first block is "Reference 1"; the empty result is the fixed fallback text |
| Rag.ReferenceNumberReadsBack | backend/rag_system.py:209-210 | the numeral in block i reads back as i + 1 |
| AgentGraph.BindAutoIff | backend/langgraph_agent.py:35-48 | `BindAutoArguments` succeeds exactly when the seven parameters without a default are present with the right kind and the four others are absent or of the right kind; the profile is then the values given, with "100000/300000", collision, comprehensive and a 500 deductible for absent optional ones |
| AgentGraph.BindHomeIff | backend/langgraph_agent.py:121-132 | `BindHomeArguments` succeeds exactly when its five parameters without a default are present with the right kind and the four others are absent or of the right kind; the profile is then the values given, with one storey and no security system, fire alarm or pool for absent optional ones |
| AgentGraph.RouteCases | backend/langgraph_agent.py:271-290 | `ShouldSearchKnowledge` gives "search" if and only if the lower-cased last message holds a question keyword; "calculate" if and only if not, and the active type's three keys are present; "gather_more" otherwise |
| AgentGraph.WhatIsAlwaysSearches | backend/langgraph_agent.py:273-279 | `ShouldSearchKnowledge`: a last message containing "what is" routes to search whatever user_info holds |
| AgentGraph.RouteIgnoresValues | backend/langgraph_agent.py:281-288 | `ShouldSearchKnowledge` depends on which keys are present, not on their values |
| AgentGraph.NodeFrames | backend/langgraph_agent.py:207-265 | gather_info and explain_results change only next_action; search_knowledge only knowledge_context and next_action; calculate_quote only quote_result and next_action; search_knowledge raises exactly when the store does, with its error |
| AgentGraph.UnknownTypeStoresError | backend/langgraph_agent.py:243-251 | with neither "auto" nor "home" the node stores the "Unknown insurance type" error and sets "explain_quote" |
| AgentGraph.GraphState.GatherInfoNode | backend/langgraph_agent.py:207-216 | the state in place becomes the gather_info function of the old state |
| AgentGraph.GraphState.SearchKnowledgeNode | backend/langgraph_agent.py:218-233 | stores the formatted context for the last message (or "") and the type, and "respond_with_context"; a raising search is reported and leaves the state as it was |
| AgentGraph.GraphState.CalculateQuoteNode | backend/langgraph_agent.py:235-255 | stores the quote and "explain_quote", or reports the binding error and leaves the state as it was |
| AgentGraph.GraphState.ExplainResultsNode | backend/langgraph_agent.py:257-265 | the state in place becomes the explain_results function of the old state |
| AgentGraph.StepFollowsEdges | backend/langgraph_agent.py:311-325 | every move of `Step` is an edge of the table |
| AgentGraph.EndOnlyThroughQuote | backend/langgraph_agent.py:311-325 | under `Step`, END is entered only from explain_results, which is entered only from calculate_quote, which is entered only from gather_info |
| AgentGraph.LoopsWithoutCalculate | backend/langgraph_agent.py:207-233 | if the first decision is not "calculate", every `Run` stays in gather_info/search_knowledge with the routing inputs unchanged unless the knowledge search has raised; with a store that never raises it stays there at every step |
| AgentGraph.NoEndWithoutCalculate | backend/langgraph_agent.py:312-325 | a `Run` whose first decision is not "calculate" never reaches END and never hits the binding error |
| AgentGraph.SearchErrorAbortsRun | backend/langgraph_agent.py:218-233 | a first "search" whose knowledge search raises stops the `Run` after search_knowledge with the store's error, and the run stays stopped |
| AgentGraph.CalculatePath | backend/langgraph_agent.py:309-325 | under `Run`, a first "calculate" gives gather_info, calculate_quote, explain_results, END in three steps, or stops with the binding error after calculate_quote |
| AgentGraph.ReachesEndIff | backend/langgraph_agent.py:309-325 | `Run` reaches END after n steps if and only if n ≥ 3, the first decision is "calculate" and the arguments bind; always via calculate_quote and explain_results |
| AgentGraph.CalculateOnlyWithKnownType | backend/langgraph_agent.py:285-288 | a `Run` reaches calculate_quote only with type "auto" or "home" |
| AgentGraph.AutoCalculateRouteMayRaise | backend/langgraph_agent.py:285-286 | routing "calculate" does not imply the calculator's arguments: the three auto routing keys route to calculate while vehicle_make is missing, so the node raises |
| AgentGraph.HomeCalculateRouteMayRaise | backend/langgraph_agent.py:287-288 | the three home routing keys route to calculate while construction_type is missing, so the node raises |
| AgentGraph.BrainProfileQuote | backend/test_langgraph_brain.py:36-44 | the walk-through profile binds every auto parameter, the four optional ones taking their defaults, and is priced at 1300 a year |
| AgentGraph.BrainWalkThrough | backend/test_langgraph_brain.py:34-54 | the walk-through profile with a non-question message reaches END in three steps with an auto quote of 1300 a year |
| DocumentAnalyzer.ExtractField | backend/document_analyzer.py:135-152 | the nested keyword/line loops return exactly the recursive specification's value |
| DocumentAnalyzer.ExtractFieldNotFoundIff | backend/document_analyzer.py:137-152 | `ExtractFieldSpec` gives "Not found" exactly when no (keyword, line) pair qualifies; always when no keyword occurs in the lower-cased text |
| DocumentAnalyzer.ExtractFieldFound | backend/document_analyzer.py:139-150 | any other value of `ExtractFieldSpec` is the stripped text after the first colon of a line mentioning a keyword, from the first qualifying pair in (keyword, line) order; never empty |
| DocumentAnalyzer.FirstInLinesFound | backend/document_analyzer.py:144-150 | the inner loop yields the value of the first qualifying line, and no earlier line qualifies |
| DocumentAnalyzer.QualifyingLineInText | backend/document_analyzer.py:141-145 | a line that qualifies implies the keyword occurs in the whole lower-cased text, so the outer check never hides a match |
| DocumentAnalyzer.FieldNonEmpty | backend/document_analyzer.py:147-152 | a field is "Not found" or non-empty |
| DocumentAnalyzer.ExtractCoverage | backend/document_analyzer.py:154-173 | the loop builds the dictionary of the recursive insertion specification |
| DocumentAnalyzer.CoverageFromKeys | backend/document_analyzer.py:168-171 | with distinct names, a name is a key exactly when its field is found, and holds that field; no other keys |
| DocumentAnalyzer.ExtractCoverageKeys | backend/document_analyzer.py:159-173 | keys are among the six coverage names; each is present exactly when extract_field with its keywords is not "Not found" |
| DocumentAnalyzer.ParseExtractionResponse | backend/document_analyzer.py:119-133 | exactly the seven keys; each text field is extract_field with its own keywords, so "Not found" or non-empty; coverage details are extract_coverage's dictionary, over the six names only |
| DocumentAnalyzer.AnalyzeInsuranceDocument | backend/document_analyzer.py:20-117 | success exactly for an image or PDF type whose model call replies; then the raw text is kept and the data is `ParseExtractionResponse` of the reply, with its seven keys; an unsupported type fails with "Unsupported file type" |
| DocumentAnalyzer.UnsupportedNeverCallsModel | backend/document_analyzer.py:93-98 | an unsupported type gives the same result whatever the model would do, with the message naming the type |
| DocumentAnalyzer.ImageAndPdfAgreeOnReplies | backend/document_analyzer.py:52-109 | images and PDFs parse a reply identically and differ only in the message when the call raises |
| Memory.MemoryStore.constructor | backend/memory.py:6-7 | a new store is empty |
| Memory.MemoryStore.Get | backend/memory.py:9-11 | returns the stored chat exactly when the id is present, else None |
| Memory.MemoryStore.Set | backend/memory.py:13-17 | the table gains or overwrites the id's entry; every other id reads as before |
| Memory.MemoryStore.Clear | backend/memory.py:19-21 | the id is gone; an absent id is a no-op; every other id reads as before |
| Memory.FreshStoreIsEmpty | backend/memory.py:6-11 | a fresh store returns None for any id |
| Memory.SetThenGet | backend/test_memory.py:10-13 | get after set returns the chat |
| Memory.SetClearGet | backend/test_memory.py:15-18 | get after set then clear returns None |
| Memory.OverwriteAndClearOther | backend/memory.py:13-21 | a second set wins; clearing one id (twice) keeps the other |
| SessionCore.RecordForCases | backend/main_with_toggle.py:105-115 | a known id keeps its record; an unknown one gets the default record |
| SessionCore.SessionIdForCases | backend/main_with_toggle.py:105 | a given non-empty id is kept, otherwise the fresh one is used |
| SessionCore.ClassifyCases | backend/main_with_toggle.py:184-189 | `ClassifyInsuranceType`: the type becomes "auto" exactly on an auto word, "home" on a home word with no auto word, and is otherwise unchanged |
| SessionCore.AutoWinsTies | backend/main_with_toggle.py:186-189 | a message naming both a car and a house is auto |
| SessionCore.ExtractInsuranceType | backend/main_with_toggle.py:185-189 | the in-place extraction step computes the classification |
| SessionCore.RoutingQuestionRequestsRetrieval | backend/main_with_toggle.py:162-164 | every graph-routing question also triggers direct-path retrieval |
| SessionCore.UseLanggraphIff | backend/main_with_toggle.py:65-66 | `UseLanggraph` holds exactly when USE_LANGGRAPH lower-cases to "yes" and the graph imported; unset means off |
| SessionCore.ApplyFinalState | backend/main_with_toggle.py:135-142 | for each of the six keys (messages, user_info, insurance_type, quote_result, knowledge_context, next_action) a key present in the final state gives its value, a missing key keeps the session's |
| SessionCore.RetrieveCases | backend/main_with_toggle.py:164-177 | `Retrieve`: without the module or a question, and for a search that raises or finds nothing, the record is unchanged and no knowledge is added; otherwise the passages joined by blank lines become the stored context and the prompt's knowledge |
| SessionCore.SearchErrorIsNoResults | backend/main_with_toggle.py:164-177 | `Retrieve` treats a search that raises exactly like one that finds nothing |
| SessionCore.RetrieveFrame | backend/main_with_toggle.py:161-177 | `Retrieve` changes at most the knowledge context, which the prompt then carries; without a question or the module the search is not consulted |
| SessionCore.RetrieveAsksOnce | backend/main_with_toggle.py:171 | in `Retrieve` only the answer to the request (message, k = 2, filter) matters |
| SessionCore.Summary | backend/main_with_toggle.py:191-199 | has_quote is true exactly when a quote is stored; message_count is the number of messages |
| SessionCore.FinishFrame | backend/main_with_toggle.py:182-199 | `Finish` appends the reply, changes only messages and type, and writes only this session |
| SessionCore.DirectTurnFrame | backend/main_with_toggle.py:157-199 | `DirectTurn` asks the LLM about the session's messages plus what `Retrieve` found; it replies exactly when the LLM answers, with that answer, and otherwise fails with the LLM's error; it writes only this session, stores the retrieved context, never writes user_info or the quote, and appends exactly the reply |
| ToggleApp.RetrieveWithFilter | backend/main_with_toggle.py:161-177 | the retrieval step computes `Retrieve` with the auto-before-home filter, whose outcomes `SessionCore.RetrieveCases` states |
| ToggleApp.ToggleServer.Chat | backend/main_with_toggle.py:83-199 | the handler's outcome and new session table are those of the turn function |
| ToggleApp.ToggleServer.ResetSession | backend/main_with_toggle.py:204-208 | deletes the record if present, else no-op; always the same message |
| ToggleApp.NoLangchainApologises | backend/main_with_toggle.py:86-90 | without the LLM library: the apology under a fresh id, every session unchanged |
| ToggleApp.ChatTouchesOneSession | backend/main_with_toggle.py:104-115 | a `ChatTurn` writes at most its own session |
| ToggleApp.DirectPathAppendsTwo | backend/main_with_toggle.py:116-197 | in `ChatTurn`, the direct path appends the user message and the reply (count +2), never writes user_info or the quote, and has_quote reflects the stored quote |
| ToggleApp.GraphErrorFallsBack | backend/main_with_toggle.py:143-157 | in `ChatTurn`, a graph that raises gives exactly the toggle-off turn |
| ToggleApp.GraphReplyIsFinal | backend/main_with_toggle.py:131-150 | in `ChatTurn`, a graph that returns supplies the reply (or the placeholder); the search and LLM are not consulted |
| ToggleApp.RetrievalUsesMessageFilter | backend/main_with_toggle.py:164-171 | in `ChatTurn`, the direct-path search is the message, k = 2, with the auto-before-home filter |
| ToggleApp.SearchErrorLikeNoResults | backend/main_with_toggle.py:164-177 | a `ChatTurn` whose search raises equals the turn whose search finds nothing |
| ToggleApp.ResetThenChatStartsFresh | backend/main_with_toggle.py:204-208 | after a reset the next `ChatTurn` for that id equals a turn on a never-seen id |
| BackupApp.RetrieveUnfiltered | backend/main_backup.py:155-164 | the retrieval step computes `Retrieve` with no filter, whose outcomes `SessionCore.RetrieveCases` states |
| BackupApp.BackupServer.Chat | backend/main_backup.py:90-187 | the handler's outcome and new session table are those of the turn function |
| BackupApp.BackupServer.ResetSession | backend/main_backup.py:192-196 | deletes the record if present, else no-op |
| BackupApp.NoLangchainIs503 | backend/main_backup.py:93-94 | without the LLM library: HTTP 503 "LangChain not available", sessions unchanged |
| BackupApp.ChatTouchesOneSession | backend/main_backup.py:107-117 | a `ChatTurn` writes at most its own session |
| BackupApp.GraphErrorIsTheReply | backend/main_backup.py:146-170 | in `ChatTurn`, a graph that raises is answered with the warning text, stored as the assistant message, with no LLM call or search |
| BackupApp.DirectPathAppendsTwo | backend/main_backup.py:149-177 | in `ChatTurn`, the direct path appends the user message and the reply and never writes user_info or the quote |
| BackupApp.RetrievalIsUnfiltered | backend/main_backup.py:156-158 | in `ChatTurn`, the direct-path search is the message, k = 2, without a filter |
| BackupApp.SearchErrorLikeNoResults | backend/main_backup.py:156-164 | a `ChatTurn` whose search raises equals the turn whose search finds nothing |
| BackupApp.ResetThenChatStartsFresh | backend/main_backup.py:192-196 | after a reset the next `ChatTurn` for that id equals a turn on a never-seen id |
| Text.ContainsIffOccurs | backend/langgraph_agent.py:278 | Python's `sub in s` holds exactly when `sub` occurs at some index |
| Text.Split | backend/document_analyzer.py:143 | splitting gives at least one piece |
| Text.SplitPieces | backend/document_analyzer.py:143 | no piece of `Split` holds the separator |
| Text.SplitJoin | backend/document_analyzer.py:143 | `Join` of the pieces of `Split` with the separator gives back the text |
| Text.SplitPartLowerContained | backend/document_analyzer.py:141-145 | a keyword in a lower-cased line is in the lower-cased text |
| Text.StripIsStrip | backend/document_analyzer.py:148 | strip removes exactly the outer whitespace |
| Text.IndexOf | backend/document_analyzer.py:148 | the index is the first occurrence of the separator |
| Text.LowerIdempotent | backend/tools.py:120 | lower-casing twice is lower-casing once |
| Text.NatToStringValue | backend/rag_system.py:210 | the decimal numeral is all digits, has no leading zero except "0" itself, and reads back as the number |
| Text.GroupedNatValue | backend/langgraph_agent.py:185 | the comma-grouped numeral reads back as the number once the commas are removed |

## Left out

- Rating.CalculateAutoPremium, Rating.CalculateHomePremium, SimpleRating.SimpleAutoPremium, SimpleRating.SimpleHomePremium: the monthly figure is exactly the annual one over twelve, and the annual one is not rounded. Python's binary-float `round(…, 2)` is not modelled, and neither is float precision in the home formulas.
- Text.Lower: lower-cases ASCII letters only. Python's `str.lower()` also folds non-ASCII letters.
- AgentGraph.BindAutoArguments, AgentGraph.BindHomeArguments: a value of the wrong kind raises. The tool framework's lax coercion is not modelled, for example the string "30" accepted as an int.
- LangGraph semantics are not modelled: the `operator.add` reducer on `messages`, the recursion limit, and `generate_graph_visualization`. The graph is `Step`/`Run` over the nodes as written.
- `Run` counts steps. A run whose first decision is not "calculate" loops between gather_info and search_knowledge for ever, unless the knowledge search raises. LangGraph would stop it at its recursion limit and raise. The model shows only that END is never reached, and the handlers see such a raise as an opaque graph error.
- ToggleApp.ToggleServer.Chat, BackupApp.BackupServer.Chat: the record is written back to the table when the handler returns or raises. Python mutates the shared record object step by step. Nothing else runs in between, so the table seen afterwards is the same.
- Concurrent requests on the module-level `sessions` table are not modelled.
- The LLM, Chroma's `similarity_search`, embeddings, `initialize_knowledge_base` and the vision model are parameters whose answers are opaque. The knowledge search's answer is a list of passages or a raised error, on the graph path as on the direct path. So is the graph as seen from the chat handlers.
- `uuid.uuid4()` is a `freshId` parameter.
- The environment variable and the optional imports are an `Environment` parameter.
- The fixed system instruction and the wording of the knowledge block in the LLM prompt are not modelled. The prompt is the session's messages plus the retrieved context.
- The toggle handler's `if not llm` branch is not modelled. The client object is always truthy, so the branch never runs.
- A failure while constructing the LLM client is not modelled.
- `generate_comparison_quote` is not modelled: it uses `random.uniform` and float percentages.
- The `/health` endpoints, FastAPI, CORS and `.env` loading are not modelled.
- backend/provider.py, backend/system_prompt.py and backend/main_simple.py are not part of this model. Neither are the frontend components or the test and debug scripts that call external APIs.
- Dictionary key order is not modelled: results are maps. `extract_coverage` is specified by its insertion sequence, so its values match the order of `coverage_terms`.
