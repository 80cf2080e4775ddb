/** The AI engine of src/ai/aiUtils.js: it answers a query or analyses data
    through the live NEAR AI API when a token is set and the live flag is on,
    and otherwise, or when the live call fails, through a deterministic
    keyword simulation. The HTTP calls themselves are outcomes the caller
    supplies. */
module AI {
  import opened Common
  import opened Config

  datatype QueryResult = QueryResult(
    kind: string,                  // the `type` field
    content: string,
    confidence: real,
    timestamp: string,
    model: string,
    rawResponse: Option<string>)   // present only on live results

  datatype AnalysisResult = AnalysisResult(
    summary: string,
    insights: seq<string>,
    recommendations: seq<string>,
    confidence: real,
    timestamp: string,
    model: string,
    rawResponse: Option<string>)

  datatype Insight = Insight(summary: string, insights: seq<string>, recommendations: seq<string>)

  datatype ModelDescriptor = ModelDescriptor(id: string, name: string, description: string)

  // ---------------------------------------------------------------------
  // Keyword classification, stated once as an ordered rule table.
  // ---------------------------------------------------------------------

  /** A rule of a keyword classifier: when any keyword occurs, answer `answer`. */
  datatype Rule<T> = Rule(keywords: seq<string>, answer: T)

  predicate MatchesAny(text: string, keywords: seq<string>)
  {
    exists k :: k in keywords && Contains(text, k)
  }

  /** The answer of the first rule that matches `text`, or `otherwise`. */
  function FirstMatch<T>(rules: seq<Rule<T>>, text: string, otherwise: T): T
  {
    if rules == [] then otherwise
    else if MatchesAny(text, rules[0].keywords) then rules[0].answer
    else FirstMatch(rules[1..], text, otherwise)
  }

  /** The first matching rule wins, whatever later rules say. */
  lemma {:induction false} FirstMatchIsFirst<T>(rules: seq<Rule<T>>, text: string, otherwise: T, i: nat)
    requires i < |rules| && MatchesAny(text, rules[i].keywords)
    requires forall j :: 0 <= j < i ==> !MatchesAny(text, rules[j].keywords)
    ensures FirstMatch(rules, text, otherwise) == rules[i].answer
  {
    if i > 0 {
      assert !MatchesAny(text, rules[0].keywords);
      FirstMatchIsFirst(rules[1..], text, otherwise, i - 1);
    }
  }

  /** A rule with two keywords matches when either keyword occurs. */
  lemma PairRule<T>(text: string, rule: Rule<T>)
    requires |rule.keywords| == 2
    ensures MatchesAny(text, rule.keywords) <==> Contains(text, rule.keywords[0]) || Contains(text, rule.keywords[1])
  {
    if Contains(text, rule.keywords[0]) {
      assert rule.keywords[0] in rule.keywords;
    }
    if Contains(text, rule.keywords[1]) {
      assert rule.keywords[1] in rule.keywords;
    }
  }

  /** When no rule matches, the classifier answers `otherwise`. */
  lemma {:induction false} FirstMatchNone<T>(rules: seq<Rule<T>>, text: string, otherwise: T)
    requires forall j :: 0 <= j < |rules| ==> !MatchesAny(text, rules[j].keywords)
    ensures FirstMatch(rules, text, otherwise) == otherwise
  {
    if rules != [] {
      assert !MatchesAny(text, rules[0].keywords);
      FirstMatchNone(rules[1..], text, otherwise);
    }
  }

  /** What a simulated query answer is about. */
  datatype QueryTopic = Protocol | Price | Capabilities | Echo

  const QueryRules: seq<Rule<QueryTopic>> := [
    Rule(["near", "blockchain"], Protocol),
    Rule(["price", "value"], Price),
    Rule(["help", "capabilities"], Capabilities)
  ]

  /** The topic of a prompt, matched case-insensitively. */
  function QueryTopicOf(prompt: string): QueryTopic
  {
    FirstMatch(QueryRules, ToLower(prompt), Echo)
  }

  /** What a simulated analysis is about. */
  datatype DataTopic = TransactionData | UserData | GeneralData

  const DataRules: seq<Rule<DataTopic>> := [
    Rule(["transaction", "tx"], TransactionData),
    Rule(["user", "account"], UserData)
  ]

  /** The topic of serialised data, matched case-insensitively. */
  function DataTopicOf(serialized: string): DataTopic
  {
    FirstMatch(DataRules, ToLower(serialized), GeneralData)
  }

  // ---------------------------------------------------------------------
  // The fixed answers of the simulation.
  // ---------------------------------------------------------------------

  const ProtocolAnswer := "NEAR Protocol is a layer one blockchain designed for usability. It features a unique consensus mechanism called Nightshade, which enables high transaction throughput and low fees."
  const PriceAnswer := "I don't have access to real-time price data in this simulation. In a full implementation, I would connect to a price oracle or API to provide current market information."
  const CapabilitiesAnswer := "I can help you with information about NEAR Protocol, execute transactions on the blockchain (when properly configured), and analyze data. What would you like to know?"
  const EchoPrefix := "This is a simulated response in the NEAR AI Bridge alpha. Your query was: \""
  const EchoSuffix := "\". To get actual AI responses, please configure the NEAR AI API authentication in your environment."

  function EchoAnswer(prompt: string): string
  {
    EchoPrefix + prompt + EchoSuffix
  }

  /** The fixed confidence of each simulated answer. */
  function TopicConfidence(t: QueryTopic): real
  {
    match t
    case Protocol => 0.92
    case Price => 0.85
    case Capabilities => 0.95
    case Echo => 0.70
  }

  function TopicContent(t: QueryTopic, prompt: string): string
  {
    match t
    case Protocol => ProtocolAnswer
    case Price => PriceAnswer
    case Capabilities => CapabilitiesAnswer
    case Echo => EchoAnswer(prompt)
  }

  const SimulationModel := ModelDescriptor("simulation", "Simulation Model", "This is a simulated model, not a real NEAR AI model")

  /** The branch `simulateAIResponse` takes: the keyword tests in the order
      the source makes them. It agrees with the rule table. */
  function PromptBranch(prompt: string): (t: QueryTopic)
    ensures t == QueryTopicOf(prompt)
  {
    var lower := ToLower(prompt);
    PairRule(lower, QueryRules[0]);
    PairRule(lower, QueryRules[1]);
    PairRule(lower, QueryRules[2]);
    if Contains(lower, "near") || Contains(lower, "blockchain") then
      FirstMatchIsFirst(QueryRules, lower, Echo, 0);
      Protocol
    else if Contains(lower, "price") || Contains(lower, "value") then
      FirstMatchIsFirst(QueryRules, lower, Echo, 1);
      Price
    else if Contains(lower, "help") || Contains(lower, "capabilities") then
      FirstMatchIsFirst(QueryRules, lower, Echo, 2);
      Capabilities
    else
      assert forall j :: 0 <= j < |QueryRules| ==> !MatchesAny(lower, QueryRules[j].keywords);
      FirstMatchNone(QueryRules, lower, Echo);
      Echo
  }

  /** `simulateAIResponse`: the answer for the prompt's topic, always a text
      answer of the simulation model. */
  function SimulateAIResponse(prompt: string, timestamp: string): (r: QueryResult)
    ensures r.kind == "text" && r.model == "simulation" && r.rawResponse == None
    ensures r.timestamp == timestamp
    ensures r.confidence == TopicConfidence(QueryTopicOf(prompt))
    ensures r.content == TopicContent(QueryTopicOf(prompt), prompt)
  {
    var topic := PromptBranch(prompt);
    QueryResult("text", TopicContent(topic, prompt), TopicConfidence(topic), timestamp, "simulation", None)
  }

  /** Any prompt mentioning NEAR, in any letter case, gets the protocol
      answer with confidence 0.92. */
  lemma NearPromptsGetProtocolAnswer(prompt: string, timestamp: string)
    requires Contains(ToLower(prompt), "near")
    ensures SimulateAIResponse(prompt, timestamp).confidence == 0.92
    ensures SimulateAIResponse(prompt, timestamp).content == ProtocolAnswer
  {
    assert MatchesAny(ToLower(prompt), QueryRules[0].keywords);
    FirstMatchIsFirst(QueryRules, ToLower(prompt), Echo, 0);
  }

  /** A price question that mentions neither NEAR nor blockchain gets the
      disclaimer with confidence 0.85: the earlier rule has priority. */
  lemma PricePromptsGetDisclaimer(prompt: string, timestamp: string)
    requires !Contains(ToLower(prompt), "near") && !Contains(ToLower(prompt), "blockchain")
    requires Contains(ToLower(prompt), "price") || Contains(ToLower(prompt), "value")
    ensures SimulateAIResponse(prompt, timestamp).confidence == 0.85
    ensures SimulateAIResponse(prompt, timestamp).content == PriceAnswer
  {
    var lower := ToLower(prompt);
    assert !MatchesAny(lower, QueryRules[0].keywords);
    assert MatchesAny(lower, QueryRules[1].keywords);
    FirstMatchIsFirst(QueryRules, lower, Echo, 1);
  }

  /** The confidence is 0.70 exactly when no keyword occurs, and the answer
      then quotes the prompt. */
  lemma {:induction false} EchoExactlyWithoutKeywords(prompt: string, timestamp: string)
    ensures var r := SimulateAIResponse(prompt, timestamp);
      (r.confidence == 0.70 <==> forall j :: 0 <= j < |QueryRules| ==> !MatchesAny(ToLower(prompt), QueryRules[j].keywords))
    ensures var r := SimulateAIResponse(prompt, timestamp);
      r.confidence == 0.70 ==> Contains(r.content, prompt)
  {
    var lower := ToLower(prompt);
    if forall j :: 0 <= j < |QueryRules| ==> !MatchesAny(lower, QueryRules[j].keywords) {
      FirstMatchNone(QueryRules, lower, Echo);
      PrefixIsContained(EchoPrefix, prompt + EchoSuffix, prompt);
      assert EchoPrefix + (prompt + EchoSuffix) == EchoAnswer(prompt);
    } else {
      var j :| 0 <= j < |QueryRules| && MatchesAny(lower, QueryRules[j].keywords);
      var i := if MatchesAny(lower, QueryRules[0].keywords) then 0
        else if MatchesAny(lower, QueryRules[1].keywords) then 1 else 2;
      FirstMatchIsFirst(QueryRules, lower, Echo, i);
    }
  }

  /** The classification ignores letter case: prompts that lower-case alike
      get the same topic and confidence. */
  lemma CaseInsensitive(p: string, q: string, timestamp: string)
    requires ToLower(p) == ToLower(q)
    ensures QueryTopicOf(p) == QueryTopicOf(q)
    ensures SimulateAIResponse(p, timestamp).confidence == SimulateAIResponse(q, timestamp).confidence
  {
  }

  /** The scenario of scripts/test-agent.js: "Tell me about NEAR Protocol"
      is answered with the protocol description at confidence 0.92. */
  lemma TellMeAboutNear(timestamp: string)
    ensures SimulateAIResponse("Tell me about NEAR Protocol", timestamp).confidence == 0.92
  {
    var prompt := "Tell me about NEAR Protocol";
    var lower := ToLower(prompt);
    assert prompt[14] == 'N' && prompt[15] == 'E' && prompt[16] == 'A' && prompt[17] == 'R';
    assert lower[14] == 'n' && lower[15] == 'e' && lower[16] == 'a' && lower[17] == 'r';
    assert lower[14..18] == "near";
    assert OccursAt(lower, "near", 14);
    NearPromptsGetProtocolAnswer("Tell me about NEAR Protocol", timestamp);
  }

  /** The insight set of each data topic. */
  function InsightFor(t: DataTopic): (r: Insight)
    ensures |r.insights| == 2 && |r.recommendations| == 2
  {
    match t
    case TransactionData => Insight("Transaction Pattern Analysis",
      ["Transaction frequency appears to follow a regular pattern",
       "Gas usage is within normal parameters for this contract type"],
      ["Consider batching smaller transactions for gas efficiency",
       "Monitor contract gas usage during peak network times"])
    case UserData => Insight("User Activity Analysis",
      ["User engagement shows periodic patterns",
       "Account activity is consistent with normal usage patterns"],
      ["Consider implementing user rewards for consistent engagement",
       "Analyze dormant accounts to improve retention"])
    case GeneralData => Insight("General Data Analysis",
      ["The provided data shows some interesting patterns",
       "Several anomalies were detected that might warrant attention"],
      ["Consider collecting more detailed data for better analysis",
       "Regular monitoring of these metrics is recommended"])
  }

  /** The branch `generateInsight` takes on the serialised data
      (`JSON.stringify(data)`), tested in the source's order. It agrees with
      the rule table. */
  function DataBranch(serialized: string): (t: DataTopic)
    ensures t == DataTopicOf(serialized)
  {
    var lower := ToLower(serialized);
    PairRule(lower, DataRules[0]);
    PairRule(lower, DataRules[1]);
    if Contains(lower, "transaction") || Contains(lower, "tx") then
      FirstMatchIsFirst(DataRules, lower, GeneralData, 0);
      TransactionData
    else if Contains(lower, "user") || Contains(lower, "account") then
      FirstMatchIsFirst(DataRules, lower, GeneralData, 1);
      UserData
    else
      assert forall j :: 0 <= j < |DataRules| ==> !MatchesAny(lower, DataRules[j].keywords);
      FirstMatchNone(DataRules, lower, GeneralData);
      GeneralData
  }

  /** `generateInsight`: the insight set of the data's topic, always two
      insights and two recommendations. */
  function GenerateInsight(serialized: string): (r: Insight)
    ensures r == InsightFor(DataTopicOf(serialized))
    ensures |r.insights| == 2 && |r.recommendations| == 2
  {
    InsightFor(DataBranch(serialized))
  }

  /** Data mentioning transactions is summarised as a transaction pattern,
      whatever else it mentions. */
  lemma TransactionDataFirst(serialized: string)
    requires Contains(ToLower(serialized), "transaction") || Contains(ToLower(serialized), "tx")
    ensures GenerateInsight(serialized).summary == "Transaction Pattern Analysis"
  {
    assert MatchesAny(ToLower(serialized), DataRules[0].keywords);
    FirstMatchIsFirst(DataRules, ToLower(serialized), GeneralData, 0);
  }

  /** `simulateDataAnalysis` with the draw `r` of `Math.random()`: the insight
      set of the data, confidence in [0.65, 0.95), simulation model. */
  function SimulateDataAnalysis(serialized: string, r: Draw, timestamp: string): (a: AnalysisResult)
    ensures 0.65 <= a.confidence < 0.95
    ensures a.model == "simulation" && a.rawResponse == None && a.timestamp == timestamp
    ensures Insight(a.summary, a.insights, a.recommendations) == GenerateInsight(serialized)
  {
    var insight := GenerateInsight(serialized);
    AnalysisResult(insight.summary, insight.insights, insight.recommendations,
      r * 0.3 + 0.65, timestamp, "simulation", None)
  }

  /** The engine decides on every call: live iff a token is set and the flag is on. */
  predicate UsesLiveApi(authToken: Option<string>, env: Env)
  {
    Truthy(authToken) && LiveApiEnabled(env)
  }

  function BearerHeader(authToken: Option<string>): Option<string>
  {
    if Truthy(authToken) then Some("Bearer " + authToken.value) else None
  }

  /** An `AIUtils` object: its token, the Authorization header of its HTTP
      client, and the live-mode flag. */
  class AIUtils {
    const env: Env
    const apiEndpoint: string
    var authToken: Option<string>
    var authHeader: Option<string>
    var useActualAPI: bool

    /** The mode flag and the header always follow the token. */
    predicate Valid()
      reads this
    {
      useActualAPI == UsesLiveApi(authToken, env) && authHeader == BearerHeader(authToken)
    }

    constructor (endpoint: Option<string>, token: Option<string>, env: Env)
      ensures Valid()
      ensures this.env == env && authToken == token
      ensures apiEndpoint == OrElse(endpoint, BaseUrl(env))
      ensures useActualAPI == (Truthy(token) && LiveApiEnabled(env))
    {
      this.env := env;
      apiEndpoint := OrElse(endpoint, BaseUrl(env));
      authToken := token;
      useActualAPI := Truthy(token) && env.useActualApi == Some("true");
      authHeader := if Truthy(token) then Some("Bearer " + token.value) else None;
    }

    /** `setAuthToken`: the token is stored as given; a falsy token removes
        the header and turns live mode off, a truthy one sets the header and
        turns live mode on exactly when the flag is `'true'`. */
    method SetAuthToken(token: Option<string>)
      modifies this
      ensures Valid()
      ensures authToken == token
      ensures !Truthy(token) ==> !useActualAPI && authHeader == None
      ensures Truthy(token) ==> useActualAPI == LiveApiEnabled(env)
    {
      authToken := token;
      if Truthy(token) {
        authHeader := Some("Bearer " + token.value);
        useActualAPI := env.useActualApi == Some("true");
      } else {
        authHeader := None;
        useActualAPI := false;
      }
    }

    /** `processQuery`, with `live` the outcome the live API call would have.
        The live answer is returned only in live mode when the call succeeds;
        otherwise the simulation answers, so a failing API never reaches the
        caller. */
    method ProcessQuery(prompt: string, live: Result<QueryResult, string>, timestamp: string)
      returns (r: QueryResult)
      requires Valid()
      ensures UsesLiveApi(authToken, env) && live.Ok? ==> r == live.value
      ensures !(UsesLiveApi(authToken, env) && live.Ok?) ==> r == SimulateAIResponse(prompt, timestamp)
    {
      if useActualAPI {
        match live
        case Ok(answer) =>
          r := answer;
        case Err(_) =>
          r := SimulateAIResponse(prompt, timestamp);
      } else {
        r := SimulateAIResponse(prompt, timestamp);
      }
    }

    /** `analyzeData`, with `live` the outcome of the live analysis call and
        `draw` the random draw of the simulation. */
    method AnalyzeData(serialized: string, live: Result<AnalysisResult, string>, draw: Draw, timestamp: string)
      returns (r: AnalysisResult)
      requires Valid()
      ensures UsesLiveApi(authToken, env) && live.Ok? ==> r == live.value
      ensures !(UsesLiveApi(authToken, env) && live.Ok?) ==> r == SimulateDataAnalysis(serialized, draw, timestamp)
    {
      if useActualAPI {
        match live
        case Ok(answer) =>
          r := answer;
        case Err(_) =>
          r := SimulateDataAnalysis(serialized, draw, timestamp);
      } else {
        r := SimulateDataAnalysis(serialized, draw, timestamp);
      }
    }

    /** `getModels`, with `live` the outcome of the models request (its
        `models` field, absent when the body has none). Outside live mode the
        list is the single simulation descriptor; in live mode an error of the
        request is passed on. */
    method GetModels(live: Result<Option<seq<ModelDescriptor>>, string>)
      returns (r: Result<seq<ModelDescriptor>, string>)
      requires Valid()
      ensures !UsesLiveApi(authToken, env) ==> r == Ok([SimulationModel])
      ensures UsesLiveApi(authToken, env) && live.Err? ==> r == Err(live.error)
      ensures UsesLiveApi(authToken, env) && live.Ok? ==>
        r == Ok(if live.value.Some? then live.value.value else [])
    {
      if !useActualAPI {
        r := Ok([SimulationModel]);
      } else {
        match live
        case Ok(models) =>
          r := Ok(if models.Some? then models.value else []);
        case Err(e) =>
          r := Err(e);
      }
    }
  }

  /** After `setAuthToken` with no token, every query is simulated whatever
      the live flag and whatever the live API would answer. */
  method ClearedTokenSimulates(engine: AIUtils, prompt: string, live: Result<QueryResult, string>, timestamp: string)
    returns (r: QueryResult)
    modifies engine
    ensures r == SimulateAIResponse(prompt, timestamp)
  {
    engine.SetAuthToken(None);
    r := engine.ProcessQuery(prompt, live, timestamp);
  }
}
