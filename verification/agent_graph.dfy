/** The graph agent of backend/langgraph_agent.py: the state that flows
    through the graph, the routing decision `should_search_knowledge`, the
    four node functions, and the edge table of `create_agent_graph`, here as
    an explicit transition function. The quote calculators are bound to the
    `user_info` dictionary the way a tool invocation validates its arguments:
    a missing argument without a default, or a value of the wrong kind, makes
    the call raise. */
module AgentGraph {
  import opened Wrappers
  import opened Text
  import opened Rating
  import Rag

  // ===========================================================================
  // State
  // ===========================================================================

  /** A value stored in the `user_info` dictionary. */
  datatype Value = IntValue(i: int) | StrValue(s: string) | BoolValue(b: bool)

  type UserInfo = map<string, Value>

  datatype Role = Human | Ai

  datatype Message = Message(role: Role, content: string)

  /** What `calculate_quote_node` stores under "quote_result". */
  datatype QuoteResult = AutoResult(auto: AutoQuote) | HomeResult(home: HomeQuote) | QuoteError(error: string)

  /** `AgentState`; `None` stands for Python's `None`. */
  datatype AgentState = AgentState(
    messages: seq<Message>,
    userInfo: UserInfo,
    insuranceType: Option<string>,
    quoteResult: Option<QuoteResult>,
    knowledgeContext: string,
    nextAction: string)

  // ===========================================================================
  // Binding `user_info` to the calculators' parameters
  // ===========================================================================

  /** Why a tool invocation's argument validation fails. */
  datatype BindError = MissingArgument(name: string) | WrongType(name: string)

  predicate HasInt(info: UserInfo, name: string) { name in info && info[name].IntValue? }
  predicate HasStr(info: UserInfo, name: string) { name in info && info[name].StrValue? }
  predicate OptionalInt(info: UserInfo, name: string) { name !in info || info[name].IntValue? }
  predicate OptionalStr(info: UserInfo, name: string) { name !in info || info[name].StrValue? }
  predicate OptionalBool(info: UserInfo, name: string) { name !in info || info[name].BoolValue? }

  function IntArgument(info: UserInfo, name: string): Result<int, BindError> {
    if name !in info then Err(MissingArgument(name))
    else if info[name].IntValue? then Ok(info[name].i)
    else Err(WrongType(name))
  }

  function StrArgument(info: UserInfo, name: string): Result<string, BindError> {
    if name !in info then Err(MissingArgument(name))
    else if info[name].StrValue? then Ok(info[name].s)
    else Err(WrongType(name))
  }

  function IntArgumentOr(info: UserInfo, name: string, default: int): Result<int, BindError> {
    if name !in info then Ok(default) else IntArgument(info, name)
  }

  function StrArgumentOr(info: UserInfo, name: string, default: string): Result<string, BindError> {
    if name !in info then Ok(default) else StrArgument(info, name)
  }

  function BoolArgumentOr(info: UserInfo, name: string, default: bool): Result<bool, BindError> {
    if name !in info then Ok(default)
    else if info[name].BoolValue? then Ok(info[name].b)
    else Err(WrongType(name))
  }

  /** `calculate_auto_premium.invoke(user_info)`'s argument binding: seven
      parameters without a default, four with one. */
  function BindAutoArguments(info: UserInfo): Result<AutoProfile, BindError> {
    var age :- IntArgument(info, "age");
    var vehicleYear :- IntArgument(info, "vehicle_year");
    var vehicleMake :- StrArgument(info, "vehicle_make");
    var vehicleModel :- StrArgument(info, "vehicle_model");
    var yearsLicensed :- IntArgument(info, "years_licensed");
    var accidents :- IntArgument(info, "accidents");
    var violations :- IntArgument(info, "violations");
    var liabilityLimit :- StrArgumentOr(info, "liability_limit", "100000/300000");
    var collision :- BoolArgumentOr(info, "collision", true);
    var comprehensive :- BoolArgumentOr(info, "comprehensive", true);
    var deductible :- IntArgumentOr(info, "deductible", 500);
    Ok(AutoProfile(age, vehicleYear, vehicleMake, vehicleModel, yearsLicensed, accidents, violations,
                   liabilityLimit, collision, comprehensive, deductible))
  }

  /** `calculate_home_premium.invoke(user_info)`'s argument binding: five
      parameters without a default, four with one. */
  function BindHomeArguments(info: UserInfo): Result<HomeProfile, BindError> {
    var yearBuilt :- IntArgument(info, "year_built");
    var squareFootage :- IntArgument(info, "square_footage");
    var constructionType :- StrArgument(info, "construction_type");
    var roofType :- StrArgument(info, "roof_type");
    var dwellingCoverage :- IntArgument(info, "dwelling_coverage");
    var stories :- IntArgumentOr(info, "stories", 1);
    var securitySystem :- BoolArgumentOr(info, "security_system", false);
    var fireAlarm :- BoolArgumentOr(info, "fire_alarm", false);
    var hasPool :- BoolArgumentOr(info, "has_pool", false);
    Ok(HomeProfile(yearBuilt, squareFootage, constructionType, roofType, dwellingCoverage,
                   stories, securitySystem, fireAlarm, hasPool))
  }

  /** The auto call succeeds exactly when every parameter without a default
      is present with the right kind and every other one is absent or of the
      right kind; the bound profile is then the values given, with
      "100000/300000", collision and comprehensive cover, and a 500
      deductible for absent optional parameters. */
  lemma BindAutoIff(info: UserInfo)
    ensures BindAutoArguments(info).Ok? <==>
      && HasInt(info, "age") && HasInt(info, "vehicle_year")
      && HasStr(info, "vehicle_make") && HasStr(info, "vehicle_model")
      && HasInt(info, "years_licensed") && HasInt(info, "accidents") && HasInt(info, "violations")
      && OptionalStr(info, "liability_limit") && OptionalBool(info, "collision")
      && OptionalBool(info, "comprehensive") && OptionalInt(info, "deductible")
    ensures BindAutoArguments(info).Ok? ==>
      BindAutoArguments(info).value == AutoProfile(
        info["age"].i, info["vehicle_year"].i, info["vehicle_make"].s, info["vehicle_model"].s,
        info["years_licensed"].i, info["accidents"].i, info["violations"].i,
        if "liability_limit" in info then info["liability_limit"].s else "100000/300000",
        if "collision" in info then info["collision"].b else true,
        if "comprehensive" in info then info["comprehensive"].b else true,
        if "deductible" in info then info["deductible"].i else 500)
  {
  }

  /** The home call succeeds exactly when every parameter without a default
      is present with the right kind and every other one is absent or of the
      right kind; the bound profile is then the values given, with one
      storey and no security system, fire alarm or pool for absent optional
      parameters. */
  lemma BindHomeIff(info: UserInfo)
    ensures BindHomeArguments(info).Ok? <==>
      && HasInt(info, "year_built") && HasInt(info, "square_footage")
      && HasStr(info, "construction_type") && HasStr(info, "roof_type")
      && HasInt(info, "dwelling_coverage")
      && OptionalInt(info, "stories") && OptionalBool(info, "security_system")
      && OptionalBool(info, "fire_alarm") && OptionalBool(info, "has_pool")
    ensures BindHomeArguments(info).Ok? ==>
      BindHomeArguments(info).value == HomeProfile(
        info["year_built"].i, info["square_footage"].i, info["construction_type"].s, info["roof_type"].s,
        info["dwelling_coverage"].i,
        if "stories" in info then info["stories"].i else 1,
        if "security_system" in info then info["security_system"].b else false,
        if "fire_alarm" in info then info["fire_alarm"].b else false,
        if "has_pool" in info then info["has_pool"].b else false)
  {
  }

  // ===========================================================================
  // Routing: should_search_knowledge
  // ===========================================================================

  datatype Route = Search | Calculate | GatherMore

  const SearchKeywords: seq<string> := ["what is", "explain", "tell me about", "how does", "difference between"]

  /** The keys whose mere presence lets routing choose "calculate". */
  const AutoRoutingKeys: seq<string> := ["age", "vehicle_year", "years_licensed"]
  const HomeRoutingKeys: seq<string> := ["year_built", "square_footage", "dwelling_coverage"]

  /** The content of the last message, or "" when there is none. */
  function LastMessageText(messages: seq<Message>): string {
    if messages == [] then "" else messages[|messages| - 1].content
  }

  predicate HasAllKeys(info: UserInfo, keys: seq<string>) {
    forall k | k in keys :: k in info
  }

  /** `should_search_knowledge`. */
  function ShouldSearchKnowledge(s: AgentState): Route {
    var lastMessage := Lower(LastMessageText(s.messages));
    if ContainsAny(lastMessage, SearchKeywords) then Search
    else if s.insuranceType == Some("auto") && HasAllKeys(s.userInfo, AutoRoutingKeys) then Calculate
    else if s.insuranceType == Some("home") && HasAllKeys(s.userInfo, HomeRoutingKeys) then Calculate
    else GatherMore
  }

  /** The three outcomes, each characterised in both directions: a question
      wins whatever `user_info` holds; then key presence for the active type;
      otherwise more information is gathered. */
  lemma RouteCases(s: AgentState)
    ensures var question := ContainsAny(Lower(LastMessageText(s.messages)), SearchKeywords);
      && (ShouldSearchKnowledge(s) == Search <==> question)
      && (ShouldSearchKnowledge(s) == Calculate <==>
            !question
            && ((s.insuranceType == Some("auto") && HasAllKeys(s.userInfo, AutoRoutingKeys))
                || (s.insuranceType == Some("home") && HasAllKeys(s.userInfo, HomeRoutingKeys))))
      && (ShouldSearchKnowledge(s) == GatherMore <==>
            !question
            && !(s.insuranceType == Some("auto") && HasAllKeys(s.userInfo, AutoRoutingKeys))
            && !(s.insuranceType == Some("home") && HasAllKeys(s.userInfo, HomeRoutingKeys)))
  {
  }

  /** A last message containing "what is" (in any letter case) is routed to
      the knowledge search, however complete the profile. */
  lemma WhatIsAlwaysSearches(s: AgentState)
    requires Contains(Lower(LastMessageText(s.messages)), "what is")
    ensures ShouldSearchKnowledge(s) == Search
  {
    assert "what is" in SearchKeywords;
  }

  /** Routing looks at which keys are present, never at their values. */
  lemma RouteIgnoresValues(a: AgentState, b: AgentState)
    requires a.messages == b.messages && a.insuranceType == b.insuranceType
    requires a.userInfo.Keys == b.userInfo.Keys
    ensures ShouldSearchKnowledge(a) == ShouldSearchKnowledge(b)
  {
  }

  // ===========================================================================
  // Nodes
  // ===========================================================================

  /** `gather_info_node`. */
  function AfterGatherInfo(s: AgentState): AgentState {
    s.(nextAction := "check_if_ready")
  }

  /** The request `search_knowledge_node` sends through `get_relevant_context`. */
  function KnowledgeRequest(s: AgentState): Rag.SearchRequest {
    Rag.SearchKnowledgeRequest(LastMessageText(s.messages), 2, s.insuranceType)
  }

  /** `search_knowledge_node`, given what the store answers to each request;
      an `Err` is the search's exception escaping the node. */
  function AfterSearchKnowledge(s: AgentState, store: Rag.SearchRequest -> Result<seq<string>, string>)
    : Result<AgentState, string>
  {
    var results :- store(KnowledgeRequest(s));
    Ok(s.(knowledgeContext := Rag.FormatContext(results), nextAction := "respond_with_context"))
  }

  /** The result `calculate_quote_node` computes, or the binding error the
      calculator call raises. */
  function QuoteFor(s: AgentState): Result<QuoteResult, BindError> {
    if s.insuranceType == Some("auto") then
      var p :- BindAutoArguments(s.userInfo);
      Ok(AutoResult(CalculateAutoPremium(p)))
    else if s.insuranceType == Some("home") then
      var p :- BindHomeArguments(s.userInfo);
      Ok(HomeResult(CalculateHomePremium(p)))
    else Ok(QuoteError("Unknown insurance type"))
  }

  /** `calculate_quote_node`: an `Err` is the exception escaping the node. */
  function AfterCalculateQuote(s: AgentState): Result<AgentState, BindError> {
    var result :- QuoteFor(s);
    Ok(s.(quoteResult := Some(result), nextAction := "explain_quote"))
  }

  /** `explain_results_node`. */
  function AfterExplainResults(s: AgentState): AgentState {
    s.(nextAction := "complete")
  }

  /** The part of the state routing reads. */
  predicate SameRoutingInputs(a: AgentState, b: AgentState) {
    a.messages == b.messages && a.userInfo == b.userInfo && a.insuranceType == b.insuranceType
  }

  /** What each node writes: gather_info and explain_results only
      `next_action`, search_knowledge only `knowledge_context` and
      `next_action`, calculate_quote only `quote_result` and `next_action`.
      None of them touches what routing reads. search_knowledge raises
      exactly when the store does, with the store's error. */
  lemma NodeFrames(s: AgentState, store: Rag.SearchRequest -> Result<seq<string>, string>)
    ensures AfterGatherInfo(s) == s.(nextAction := AfterGatherInfo(s).nextAction)
    ensures AfterExplainResults(s) == s.(nextAction := AfterExplainResults(s).nextAction)
    ensures AfterSearchKnowledge(s, store).Err? <==> store(KnowledgeRequest(s)).Err?
    ensures AfterSearchKnowledge(s, store).Err? ==> AfterSearchKnowledge(s, store).error == store(KnowledgeRequest(s)).error
    ensures AfterSearchKnowledge(s, store).Ok? ==>
      var t := AfterSearchKnowledge(s, store).value;
      t == s.(knowledgeContext := t.knowledgeContext, nextAction := t.nextAction) && SameRoutingInputs(s, t)
    ensures AfterCalculateQuote(s).Ok? ==>
      var t := AfterCalculateQuote(s).value;
      t == s.(quoteResult := t.quoteResult, nextAction := t.nextAction) && t.quoteResult.Some?
    ensures SameRoutingInputs(s, AfterGatherInfo(s))
    ensures SameRoutingInputs(s, AfterExplainResults(s))
  {
  }

  /** Neither type given: the node stores the "Unknown insurance type" error. */
  lemma UnknownTypeStoresError(s: AgentState)
    requires s.insuranceType != Some("auto") && s.insuranceType != Some("home")
    ensures AfterCalculateQuote(s) == Ok(s.(quoteResult := Some(QuoteError("Unknown insurance type")),
                                            nextAction := "explain_quote"))
  {
  }

  /** The node methods, acting in place on the state dictionary. */
  class GraphState {
    var messages: seq<Message>
    var userInfo: UserInfo
    var insuranceType: Option<string>
    var quoteResult: Option<QuoteResult>
    var knowledgeContext: string
    var nextAction: string

    /** The dictionary's current contents. */
    function Snapshot(): AgentState
      reads this
    {
      AgentState(messages, userInfo, insuranceType, quoteResult, knowledgeContext, nextAction)
    }

    constructor (s: AgentState)
      ensures Snapshot() == s
    {
      messages, userInfo, insuranceType := s.messages, s.userInfo, s.insuranceType;
      quoteResult, knowledgeContext, nextAction := s.quoteResult, s.knowledgeContext, s.nextAction;
    }

    method GatherInfoNode()
      modifies this
      ensures Snapshot() == AfterGatherInfo(old(Snapshot()))
    {
      nextAction := "check_if_ready";
    }

    /** Returns the search's error when the store raises; the state is then
        left as it was. */
    method SearchKnowledgeNode(store: Rag.SearchRequest -> Result<seq<string>, string>) returns (raised: Option<string>)
      modifies this
      ensures AfterSearchKnowledge(old(Snapshot()), store).Ok? ==>
                raised == None && Snapshot() == AfterSearchKnowledge(old(Snapshot()), store).value
      ensures AfterSearchKnowledge(old(Snapshot()), store).Err? ==>
                raised == Some(AfterSearchKnowledge(old(Snapshot()), store).error) && Snapshot() == old(Snapshot())
    {
      var lastMessage := if messages != [] then messages[|messages| - 1].content else "";
      var context := Rag.GetRelevantContext(lastMessage, insuranceType, store);
      if context.Err? {
        return Some(context.error);
      }
      knowledgeContext := context.value;
      nextAction := "respond_with_context";
      raised := None;
    }

    /** Returns the binding error when the calculator call raises; the state
        is then left as it was. */
    method CalculateQuoteNode() returns (raised: Option<BindError>)
      modifies this
      ensures AfterCalculateQuote(old(Snapshot())).Ok? ==>
                raised == None && Snapshot() == AfterCalculateQuote(old(Snapshot())).value
      ensures AfterCalculateQuote(old(Snapshot())).Err? ==>
                raised == Some(AfterCalculateQuote(old(Snapshot())).error) && Snapshot() == old(Snapshot())
    {
      var result: QuoteResult;
      if insuranceType == Some("auto") {
        var bound := BindAutoArguments(userInfo);
        if bound.Err? {
          return Some(bound.error);
        }
        result := AutoResult(CalculateAutoPremium(bound.value));
      } else if insuranceType == Some("home") {
        var bound := BindHomeArguments(userInfo);
        if bound.Err? {
          return Some(bound.error);
        }
        result := HomeResult(CalculateHomePremium(bound.value));
      } else {
        result := QuoteError("Unknown insurance type");
      }
      quoteResult := Some(result);
      nextAction := "explain_quote";
      raised := None;
    }

    method ExplainResultsNode()
      modifies this
      ensures Snapshot() == AfterExplainResults(old(Snapshot()))
    {
      nextAction := "complete";
    }
  }

  // ===========================================================================
  // The graph: edge table and transition function
  // ===========================================================================

  datatype Node = GatherInfo | SearchKnowledge | CalculateQuote | ExplainResults | End

  /** The conditional edges out of gather_info. */
  function RouteTarget(r: Route): Node {
    match r
    case Search => SearchKnowledge
    case Calculate => CalculateQuote
    case GatherMore => GatherInfo
  }

  /** The edges `create_agent_graph` adds. */
  predicate Edge(from: Node, to: Node) {
    match from
    case GatherInfo => to == SearchKnowledge || to == CalculateQuote || to == GatherInfo
    case SearchKnowledge => to == GatherInfo
    case CalculateQuote => to == ExplainResults
    case ExplainResults => to == End
    case End => false
  }

  /** Where a run is: about to execute `node` on `state`, stopped by an
      exception raised in the calculator call, or stopped by an exception
      raised in the knowledge search. */
  datatype Config = At(node: Node, state: AgentState) | Raised(error: BindError) | SearchRaised(message: string)

  /** The entry point is gather_info. */
  function Start(s: AgentState): Config {
    At(GatherInfo, s)
  }

  /** Run the current node, then follow its edge. End and a raised exception
      are final. */
  function Step(c: Config, store: Rag.SearchRequest -> Result<seq<string>, string>): Config {
    match c
    case Raised(_) => c
    case SearchRaised(_) => c
    case At(node, s) =>
      match node
      case GatherInfo =>
        var t := AfterGatherInfo(s);
        At(RouteTarget(ShouldSearchKnowledge(t)), t)
      case SearchKnowledge =>
        (match AfterSearchKnowledge(s, store)
         case Ok(t) => At(GatherInfo, t)
         case Err(e) => SearchRaised(e))
      case CalculateQuote =>
        (match AfterCalculateQuote(s)
         case Ok(t) => At(ExplainResults, t)
         case Err(e) => Raised(e))
      case ExplainResults => At(End, AfterExplainResults(s))
      case End => c
  }

  /** `n` steps. */
  function Run(c: Config, store: Rag.SearchRequest -> Result<seq<string>, string>, n: nat): Config
    decreases n
  {
    if n == 0 then c else Run(Step(c, store), store, n - 1)
  }

  /** Every move of the transition function is an edge of the table. */
  lemma StepFollowsEdges(c: Config, store: Rag.SearchRequest -> Result<seq<string>, string>)
    requires c.At? && c.node != End && Step(c, store).At?
    ensures Edge(c.node, Step(c, store).node)
  {
  }

  /** In the edge table, End is entered only from explain_results, which is
      entered only from calculate_quote, which is entered only from
      gather_info. */
  lemma EndOnlyThroughQuote(a: Node, b: Node)
    ensures Edge(a, End) <==> a == ExplainResults
    ensures Edge(a, ExplainResults) <==> a == CalculateQuote
    ensures Edge(a, CalculateQuote) <==> a == GatherInfo
  {
  }

  lemma {:induction false} RunSplit(c: Config, store: Rag.SearchRequest -> Result<seq<string>, string>, n: nat)
    ensures Run(c, store, n + 1) == Step(Run(c, store, n), store)
    decreases n
  {
    if n > 0 {
      RunSplit(Step(c, store), store, n - 1);
    }
  }

  /** When the first decision is not "calculate", a run stays in
      gather_info and search_knowledge with the routing inputs unchanged,
      until (if ever) the knowledge search raises; with a store that never
      raises it stays there for ever. */
  lemma {:induction false} LoopsWithoutCalculate(s0: AgentState, store: Rag.SearchRequest -> Result<seq<string>, string>, n: nat)
    requires ShouldSearchKnowledge(s0) != Calculate
    ensures var c := Run(Start(s0), store, n);
      || c.SearchRaised?
      || (c.At? && (c.node == GatherInfo || c.node == SearchKnowledge) && SameRoutingInputs(c.state, s0))
    ensures (forall r :: store(r).Ok?) ==> Run(Start(s0), store, n).At?
    decreases n
  {
    if n > 0 {
      LoopsWithoutCalculate(s0, store, n - 1);
      RunSplit(Start(s0), store, n - 1);
      var c := Run(Start(s0), store, n - 1);
      if c.At? {
        assert ShouldSearchKnowledge(AfterGatherInfo(c.state)) == ShouldSearchKnowledge(s0);
      }
    }
  }

  /** Hence such a run never reaches END and never hits the binding error;
      the only way it stops is a raising knowledge search. */
  lemma NoEndWithoutCalculate(s0: AgentState, store: Rag.SearchRequest -> Result<seq<string>, string>, n: nat)
    requires ShouldSearchKnowledge(s0) != Calculate
    ensures var c := Run(Start(s0), store, n); !(c.At? && c.node == End) && !c.Raised?
  {
    LoopsWithoutCalculate(s0, store, n);
  }

  /** A first "search" whose knowledge search raises aborts the run right
      after search_knowledge: the error is the store's, and nothing changes
      afterwards. */
  lemma {:induction false} SearchErrorAbortsRun(s0: AgentState, store: Rag.SearchRequest -> Result<seq<string>, string>, n: nat)
    requires ShouldSearchKnowledge(s0) == Search
    requires store(KnowledgeRequest(AfterGatherInfo(s0))).Err?
    ensures Run(Start(s0), store, 1) == At(SearchKnowledge, AfterGatherInfo(s0))
    ensures n >= 2 ==> Run(Start(s0), store, n) == SearchRaised(store(KnowledgeRequest(AfterGatherInfo(s0))).error)
    decreases n
  {
    assert ShouldSearchKnowledge(AfterGatherInfo(s0)) == Search;
    RunSplit(Start(s0), store, 0);
    RunSplit(Start(s0), store, 1);
    if n > 2 {
      SearchErrorAbortsRun(s0, store, n - 1);
      RunSplit(Start(s0), store, n - 1);
    }
  }

  /** When the first decision is "calculate", the run is gather_info,
      calculate_quote, explain_results, END, or it stops with the binding
      error after calculate_quote; either way nothing changes after three
      steps. */
  lemma {:induction false} CalculatePath(s0: AgentState, store: Rag.SearchRequest -> Result<seq<string>, string>, n: nat)
    requires ShouldSearchKnowledge(s0) == Calculate
    ensures Run(Start(s0), store, 1) == At(CalculateQuote, AfterGatherInfo(s0))
    ensures var q := AfterCalculateQuote(AfterGatherInfo(s0));
      && (q.Ok? ==> Run(Start(s0), store, 2) == At(ExplainResults, q.value)
                    && Run(Start(s0), store, 3) == At(End, AfterExplainResults(q.value)))
      && (q.Err? ==> Run(Start(s0), store, 2) == Raised(q.error))
    ensures n >= 3 ==> Run(Start(s0), store, n) == Run(Start(s0), store, 3)
    decreases n
  {
    assert ShouldSearchKnowledge(AfterGatherInfo(s0)) == Calculate;
    RunSplit(Start(s0), store, 0);
    RunSplit(Start(s0), store, 1);
    RunSplit(Start(s0), store, 2);
    if n > 3 {
      CalculatePath(s0, store, n - 1);
      RunSplit(Start(s0), store, n - 1);
    }
  }

  /** END is reached exactly when the first decision is "calculate" and the
      calculator binds its arguments, and always along gather_info,
      calculate_quote, explain_results. */
  lemma ReachesEndIff(s0: AgentState, store: Rag.SearchRequest -> Result<seq<string>, string>, n: nat)
    ensures (Run(Start(s0), store, n).At? && Run(Start(s0), store, n).node == End) <==>
      n >= 3 && ShouldSearchKnowledge(s0) == Calculate && AfterCalculateQuote(AfterGatherInfo(s0)).Ok?
    ensures Run(Start(s0), store, n).At? && Run(Start(s0), store, n).node == End ==>
      && Run(Start(s0), store, 1).node == CalculateQuote
      && Run(Start(s0), store, 2).node == ExplainResults
  {
    if ShouldSearchKnowledge(s0) == Calculate {
      CalculatePath(s0, store, n);
      if n < 3 {
        assert n == 0 || n == 1 || n == 2;
      }
    } else {
      LoopsWithoutCalculate(s0, store, n);
    }
  }

  /** A run reaches calculate_quote only with "auto" or "home" as the type,
      so the "Unknown insurance type" result is never produced by the graph. */
  lemma CalculateOnlyWithKnownType(s0: AgentState, store: Rag.SearchRequest -> Result<seq<string>, string>, n: nat)
    requires Run(Start(s0), store, n).At? && Run(Start(s0), store, n).node == CalculateQuote
    ensures Run(Start(s0), store, n).state.insuranceType in {Some("auto"), Some("home")}
  {
    if ShouldSearchKnowledge(s0) == Calculate {
      CalculatePath(s0, store, n);
    } else {
      LoopsWithoutCalculate(s0, store, n);
    }
  }

  /** Routing's "calculate" does not imply that the calculator can be called:
      the three routing keys satisfy routing, but the auto calculator also
      needs vehicle_make, vehicle_model, accidents and violations. */
  lemma AutoCalculateRouteMayRaise()
    ensures var auto := AgentState([Message(Human, "30, 2020, 10")],
                                   map["age" := IntValue(30), "vehicle_year" := IntValue(2020),
                                       "years_licensed" := IntValue(10)],
                                   Some("auto"), None, "", "gather_info");
      && ShouldSearchKnowledge(auto) == Calculate
      && AfterCalculateQuote(auto) == Err(MissingArgument("vehicle_make"))
  {
    var info := map["age" := IntValue(30), "vehicle_year" := IntValue(2020), "years_licensed" := IntValue(10)];
    var auto := AgentState([Message(Human, "30, 2020, 10")], info, Some("auto"), None, "", "gather_info");
    NoQuestion("30, 2020, 10");
    assert LastMessageText(auto.messages) == "30, 2020, 10";
    assert HasAllKeys(info, AutoRoutingKeys);
    assert IntArgument(info, "age") == Ok(30);
    assert IntArgument(info, "vehicle_year") == Ok(2020);
    assert "vehicle_make" !in info;
    assert BindAutoArguments(info) == Err(MissingArgument("vehicle_make"));
  }

  /** The same for homes: the three routing keys route to "calculate", but
      the home calculator also needs construction_type and roof_type. */
  lemma HomeCalculateRouteMayRaise()
    ensures var home := AgentState([Message(Human, "2015, 2000, 300000")],
                                   map["year_built" := IntValue(2015), "square_footage" := IntValue(2000),
                                       "dwelling_coverage" := IntValue(300000)],
                                   Some("home"), None, "", "gather_info");
      && ShouldSearchKnowledge(home) == Calculate
      && AfterCalculateQuote(home) == Err(MissingArgument("construction_type"))
  {
    var info := map["year_built" := IntValue(2015), "square_footage" := IntValue(2000),
                    "dwelling_coverage" := IntValue(300000)];
    var home := AgentState([Message(Human, "2015, 2000, 300000")], info, Some("home"), None, "", "gather_info");
    NoQuestion("2015, 2000, 300000");
    assert LastMessageText(home.messages) == "2015, 2000, 300000";
    assert HasAllKeys(info, HomeRoutingKeys);
    assert IntArgument(info, "year_built") == Ok(2015);
    assert IntArgument(info, "square_footage") == Ok(2000);
    assert "construction_type" !in info;
    assert BindHomeArguments(info) == Err(MissingArgument("construction_type"));
  }

  lemma NoQuestion(m: string)
    requires forall i | 0 <= i < |m| :: m[i] in "0123456789, "
    ensures !ContainsAny(Lower(m), SearchKeywords)
  {
    var l := Lower(m);
    forall k | k in SearchKeywords ensures !Contains(l, k) {
      assert k[0] in "wethd";
      forall i ensures !OccursAt(l, k, i) {
        if 0 <= i && i + |k| <= |l| {
          assert l[i..i + |k|][0] == l[i] != k[0];
        }
      }
      ContainsIffOccurs(l, k);
    }
  }

  /** The auto profile of the graph walk-through: 30 years old, a 2020
      Toyota Camry, ten years licensed, no incidents, type "auto". */
  const BrainProfile: UserInfo := map[
    "age" := IntValue(30), "vehicle_year" := IntValue(2020), "vehicle_make" := StrValue("Toyota"),
    "vehicle_model" := StrValue("Camry"), "years_licensed" := IntValue(10),
    "accidents" := IntValue(0), "violations" := IntValue(0)]

  /** The walk-through profile binds every parameter of the auto calculator,
      the four optional ones taking their defaults, and is priced at 1300 a
      year (base 800, liability 150, collision and comprehensive 350). */
  lemma BrainProfileQuote() returns (p: AutoProfile)
    ensures BindAutoArguments(BrainProfile) == Ok(p)
    ensures CalculateAutoPremium(p).annualPremium == 1300
  {
    p := AutoProfile(30, 2020, "Toyota", "Camry", 10, 0, 0, "100000/300000", true, true, 500);
    assert IntArgument(BrainProfile, "age") == Ok(30);
    assert IntArgument(BrainProfile, "vehicle_year") == Ok(2020);
    assert StrArgument(BrainProfile, "vehicle_make") == Ok("Toyota");
    assert StrArgument(BrainProfile, "vehicle_model") == Ok("Camry");
    assert IntArgument(BrainProfile, "years_licensed") == Ok(10);
    assert IntArgument(BrainProfile, "accidents") == Ok(0);
    assert IntArgument(BrainProfile, "violations") == Ok(0);
    assert "liability_limit" !in BrainProfile && "collision" !in BrainProfile;
    assert "comprehensive" !in BrainProfile && "deductible" !in BrainProfile;
  }

  /** With that profile and a last message that asks no question, the run
      goes gather_info, calculate_quote, explain_results and reaches END in
      three steps with an auto quote of 1300 a year. */
  lemma BrainWalkThrough(message: string, store: Rag.SearchRequest -> Result<seq<string>, string>)
    requires !ContainsAny(Lower(message), SearchKeywords)
    ensures var s0 := AgentState([Message(Human, message)], BrainProfile, Some("auto"), None, "", "gather_info");
      var c := Run(Start(s0), store, 3);
      && c.At? && c.node == End && c.state.nextAction == "complete"
      && c.state.quoteResult.Some? && c.state.quoteResult.value.AutoResult?
      && c.state.quoteResult.value.auto.annualPremium == 1300
      && c.state.quoteResult.value.auto.monthlyPremium * 12.0 == 1300.0
  {
    var s0 := AgentState([Message(Human, message)], BrainProfile, Some("auto"), None, "", "gather_info");
    assert LastMessageText(s0.messages) == message;
    assert HasAllKeys(BrainProfile, AutoRoutingKeys);
    assert ShouldSearchKnowledge(s0) == Calculate;
    CalculatePath(s0, store, 3);
    var p := BrainProfileQuote();
    assert QuoteFor(AfterGatherInfo(s0)) == Ok(AutoResult(CalculateAutoPremium(p)));
  }
}
