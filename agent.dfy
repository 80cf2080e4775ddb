/** The agent façade of src/services/agentService.js: start-up that never
    fails and derives the AI mode, auth-token provisioning, the closed action
    dispatch, the simulated transaction receipt and the status report. */
module Agent {
  import opened Common
  import opened Config
  import AI
  import NearAuth

  /** An open NEAR connection; its contents are not read by the core. */
  datatype Connection = Connection(networkId: string)

  /** The fields of an action's `params` object that the handlers read;
      `data` is the analysed object already serialised with `JSON.stringify`. */
  datatype ActionParams = ActionParams(
    prompt: string,
    contractId: Option<string>,
    methodName: Option<string>,
    args: string,
    data: string)

  /** The TypeError a handler throws when it destructures the first
      property `field` of an absent `params`. */
  function DestructureError(field: string): (e: string)
    ensures StartsWith(e, "TypeError: Cannot destructure property '")
  {
    "TypeError: Cannot destructure property '" + field + "' of 'undefined' as it is undefined."
  }

  datatype TxReceipt = TxReceipt(success: bool, txHash: string, gasUsed: nat, status: string, note: string)

  datatype Status = Status(
    version: string,
    agentStatus: string,
    network: string,
    connected: bool,
    accountConfigured: bool,
    mode: string,
    apiConfigured: bool,
    model: string,
    authConfigured: bool,
    availableModels: seq<string>,
    accountId: string,
    timestamp: string)

  datatype ActionResult =
    | Answer(query: AI.QueryResult)
    | Receipt(receipt: TxReceipt)
    | Analysis(analysis: AI.AnalysisResult)
    | Report(status: Status)

  /** What one action call receives from the outside: the clock, a random
      draw, and the outcomes the live AI calls would have. */
  datatype Effects = Effects(
    timestamp: string,
    nowMs: nat,
    draw: Draw,
    liveQuery: Result<AI.QueryResult, string>,
    liveAnalysis: Result<AI.AnalysisResult, string>)

  /** The closed action vocabulary. */
  const Actions: set<string> := {"query", "transact", "analyze", "status"}

  const TxHashPrefix := "simulated_tx_"
  const SimulatedTxNote := "This is a simulated transaction. To execute real transactions, configure NEAR_ACCOUNT_ID and NEAR_PRIVATE_KEY"

  /** `handleTransaction`: always a successful simulated receipt whose hash
      is the time in base 36 after `simulated_tx_`; the configured
      credentials change nothing. */
  function HandleTransaction(nowMs: nat, draw: Draw): (r: TxReceipt)
    ensures r.success && r.status == "SuccessValue" && r.note == SimulatedTxNote
    ensures StartsWith(r.txHash, TxHashPrefix)
    ensures StringToNat(r.txHash[|TxHashPrefix|..], 36) == nowMs
    ensures r.gasUsed < 10000000
  {
    var hash := TxHashPrefix + NatToString(nowMs, 36);
    assert hash[|TxHashPrefix|..] == NatToString(nowMs, 36);
    NatToStringRoundTrip(nowMs, 36);
    TxReceipt(true, hash, Scale(draw, 10000000), "SuccessValue", SimulatedTxNote)
  }

  /** The token `initializeNearAIAuth` leaves in the agent: a pre-configured
      token first; otherwise one generated from the account credentials
      (null when generation gives null); otherwise the token is left as it
      was. */
  function AuthStep(previous: Option<string>, env: Env, codec: JsonCodec,
                    signer: NearAuth.Signer, nowMs: nat): (t: Option<string>)
    ensures NearAuth.HasPreConfiguredAuthToken(env, codec) ==> t == env.nearAiAuthToken && Truthy(t)
    ensures !NearAuth.HasPreConfiguredAuthToken(env, codec) && !NearAuth.HasValidNearCredentials(env) ==> t == previous
    ensures !NearAuth.HasPreConfiguredAuthToken(env, codec) && NearAuth.HasValidNearCredentials(env) ==>
      t == NearAuth.TokenText(NearAuth.GenerateAuthToken(env.nearAccountId, env.nearPrivateKey,
                                                         env.nearAiAuthToken, nowMs, signer, codec), codec)
  {
    if NearAuth.HasPreConfiguredAuthToken(env, codec) then env.nearAiAuthToken
    else if NearAuth.HasValidNearCredentials(env) then
      NearAuth.TokenText(NearAuth.GenerateAuthToken(env.nearAccountId, env.nearPrivateKey,
                                                    env.nearAiAuthToken, nowMs, signer, codec), codec)
    else previous
  }

  /** `NearUtils.initializeNear` as the source calls it: NearUtils
      (src/blockchain/nearUtils.js) declares no such static method, so the
      call throws a TypeError every time. */
  function NearUtilsInitializeNear(config: NearConfig): (r: Result<Connection, string>)
    ensures r.Err?
  {
    Err("TypeError: NearUtils.initializeNear is not a function")
  }

  /** An `AgentService` object. */
  class AgentService {
    const nearConfig: NearConfig
    const env: Env
    const codec: JsonCodec
    const aiUtils: AI.AIUtils
    var nearConnection: Option<Connection>
    var authToken: Option<string>
    var isUsingRealAI: bool

    /** The engine starts with no token (so in simulation), the agent with
        no connection, no token and `isUsingRealAI` false. */
    constructor (nearConfig: NearConfig, env: Env, codec: JsonCodec)
      ensures this.nearConfig == nearConfig && this.env == env && this.codec == codec
      ensures nearConnection == None && authToken == None && !isUsingRealAI
      ensures fresh(aiUtils) && aiUtils.Valid() && aiUtils.env == env
      ensures aiUtils.authToken == None && !aiUtils.useActualAPI
    {
      this.nearConfig := nearConfig;
      this.env := env;
      this.codec := codec;
      aiUtils := new AI.AIUtils(env.nearAiApiUrl, None, env);
      nearConnection := None;
      authToken := None;
      isUsingRealAI := false;
    }

    /** `initializeNearAIAuth`. It never throws: the pre-configured token is
        taken and handed to the engine; otherwise a generated token is taken,
        and handed to the engine only when truthy. */
    method InitializeNearAIAuth(signer: NearAuth.Signer, nowMs: nat)
      requires aiUtils.Valid() && aiUtils.env == env
      modifies this, aiUtils
      ensures aiUtils.Valid() && aiUtils.env == env
      ensures nearConnection == old(nearConnection) && isUsingRealAI == old(isUsingRealAI)
      ensures authToken == AuthStep(old(authToken), env, codec, signer, nowMs)
      ensures NearAuth.HasPreConfiguredAuthToken(env, codec) ==> aiUtils.authToken == env.nearAiAuthToken
      ensures !NearAuth.HasPreConfiguredAuthToken(env, codec) ==>
        aiUtils.authToken == if NearAuth.HasValidNearCredentials(env) && Truthy(authToken) then authToken
                             else old(aiUtils.authToken)
    {
      if Truthy(env.nearAiAuthToken) && codec.parse(env.nearAiAuthToken.value).Some? {
        authToken := env.nearAiAuthToken;
        aiUtils.SetAuthToken(authToken);
        return;
      }
      if Truthy(env.nearAccountId) && Truthy(env.nearPrivateKey) {
        var decision := NearAuth.GenerateAuthToken(env.nearAccountId, env.nearPrivateKey,
                                                   env.nearAiAuthToken, nowMs, signer, codec);
        authToken := NearAuth.TokenText(decision, codec);
        if Truthy(authToken) {
          aiUtils.SetAuthToken(authToken);
        }
      }
    }

    /** `initialize`, with `connect` the outcome of the connection step. It
        never throws. When the connection step throws, nothing changes, so
        `isUsingRealAI` keeps its value (false after construction). Otherwise
        auth is attempted only when the live flag is `'true'`, and the agent
        is in live mode exactly when it then holds a truthy token and the
        flag is `'true'`. */
    method Initialize(connect: Result<Connection, string>, signer: NearAuth.Signer, nowMs: nat)
      requires aiUtils.Valid() && aiUtils.env == env
      modifies this, aiUtils
      ensures aiUtils.Valid() && aiUtils.env == env
      ensures connect.Err? ==>
        nearConnection == old(nearConnection) && authToken == old(authToken) &&
        isUsingRealAI == old(isUsingRealAI) && aiUtils.authToken == old(aiUtils.authToken)
      ensures connect.Ok? ==> nearConnection == Some(connect.value)
      ensures connect.Ok? && !LiveApiEnabled(env) ==>
        authToken == old(authToken) && aiUtils.authToken == old(aiUtils.authToken)
      ensures connect.Ok? && LiveApiEnabled(env) ==>
        authToken == AuthStep(old(authToken), env, codec, signer, nowMs)
      ensures connect.Ok? ==> isUsingRealAI == (Truthy(authToken) && LiveApiEnabled(env))
      ensures old(authToken) == None && old(aiUtils.authToken) == None && !old(isUsingRealAI) ==>
        isUsingRealAI == aiUtils.useActualAPI
    {
      match connect
      case Err(_) =>
        // caught and logged: the agent continues with limited functionality
      case Ok(connection) =>
        nearConnection := Some(connection);
        if env.useActualApi == Some("true") {
          InitializeNearAIAuth(signer, nowMs);
        }
        isUsingRealAI := Truthy(authToken) && env.useActualApi == Some("true");
    }

    /** `getStatus`: the mode is `'api'` exactly in live mode, both
        configured flags say whether a token is held, and the model list is
        always `['simulation']` (the background refresh in the source only
        rebinds a local after the object is returned). */
    function GetStatus(timestamp: string): (s: Status)
      reads this
      ensures s.mode == (if isUsingRealAI then "api" else "simulation")
      ensures s.apiConfigured == Truthy(authToken) && s.authConfigured == Truthy(authToken)
      ensures s.availableModels == ["simulation"]
      ensures s.connected == nearConnection.Some? && s.network == nearConfig.networkId
      ensures s.accountConfigured == Truthy(env.nearAccountId)
      ensures s.accountId == OrElse(env.nearAccountId, "none")
      ensures s.version == OrElse(env.npmPackageVersion, "1.0.0") && s.agentStatus == "operational"
      ensures s.model == OrElse(env.nearAiModel, "simulation")
    {
      Status(OrElse(env.npmPackageVersion, "1.0.0"), "operational",
        nearConfig.networkId, nearConnection.Some?, Truthy(env.nearAccountId),
        if isUsingRealAI then "api" else "simulation",
        Truthy(authToken), OrElse(env.nearAiModel, "simulation"), Truthy(authToken),
        ["simulation"], OrElse(env.nearAccountId, "none"), timestamp)
    }

    /** `processAction`: exactly the four known actions are served; any
        other string fails with `Unknown action: <action>`. Queries and
        analyses go to the engine, transactions are simulated, `status`
        reports. `params` is None when the request carries none: the three
        handlers that destructure it then throw a TypeError, and `status`,
        which never reads it, still reports. */
    method ProcessAction(action: string, params: Option<ActionParams>, fx: Effects)
      returns (r: Result<ActionResult, string>)
      requires aiUtils.Valid()
      ensures r.Err? <==> action !in Actions || (action != "status" && params.None?)
      ensures action !in Actions ==> r == Err("Unknown action: " + action)
      ensures action in Actions && action != "status" && params.None? ==>
        r == Err(DestructureError(if action == "query" then "prompt"
                                  else if action == "transact" then "contractId"
                                  else "data"))
      ensures action == "query" && params.Some? ==>
        r == Ok(Answer(if AI.UsesLiveApi(aiUtils.authToken, aiUtils.env) && fx.liveQuery.Ok?
                       then fx.liveQuery.value
                       else AI.SimulateAIResponse(params.value.prompt, fx.timestamp)))
      ensures action == "analyze" && params.Some? ==>
        r == Ok(Analysis(if AI.UsesLiveApi(aiUtils.authToken, aiUtils.env) && fx.liveAnalysis.Ok?
                         then fx.liveAnalysis.value
                         else AI.SimulateDataAnalysis(params.value.data, fx.draw, fx.timestamp)))
      ensures action == "transact" && params.Some? ==> r == Ok(Receipt(HandleTransaction(fx.nowMs, fx.draw)))
      ensures action == "status" ==> r == Ok(Report(GetStatus(fx.timestamp)))
    {
      if action == "status" {
        r := Ok(Report(GetStatus(fx.timestamp)));
      } else if action !in Actions {
        r := Err("Unknown action: " + action);
      } else if params.None? {
        var field := if action == "query" then "prompt" else if action == "transact" then "contractId" else "data";
        r := Err(DestructureError(field));
      } else if action == "query" {
        var answer := aiUtils.ProcessQuery(params.value.prompt, fx.liveQuery, fx.timestamp);
        r := Ok(Answer(answer));
      } else if action == "transact" {
        r := Ok(Receipt(HandleTransaction(fx.nowMs, fx.draw)));
      } else {
        var analysis := aiUtils.AnalyzeData(params.value.data, fx.liveAnalysis, fx.draw, fx.timestamp);
        r := Ok(Analysis(analysis));
      }
    }
  }

  /** Process start-up as index.js does it: build the agent, initialise it
      (which never fails), report its status. The reported mode is the
      engine's actual mode, and it is `'api'` only after a successful
      connection with the live flag on and a truthy token. */
  method StartAgent(nearConfig: NearConfig, env: Env, codec: JsonCodec,
                    connect: Result<Connection, string>, signer: NearAuth.Signer,
                    nowMs: nat, timestamp: string)
    returns (agent: AgentService, status: Status)
    ensures agent.env == env && agent.nearConfig == nearConfig && agent.codec == codec
    ensures connect.Ok? && LiveApiEnabled(env) ==> agent.authToken == AuthStep(None, env, codec, signer, nowMs)
    ensures status.apiConfigured == Truthy(agent.authToken)
    ensures status.mode == (if agent.aiUtils.useActualAPI then "api" else "simulation")
    ensures status.mode == "api" <==> connect.Ok? && LiveApiEnabled(env) && Truthy(agent.authToken)
    ensures connect.Err? ==> status.mode == "simulation" && !status.apiConfigured && !status.connected
    ensures status.availableModels == ["simulation"]
  {
    agent := new AgentService(nearConfig, env, codec);
    agent.Initialize(connect, signer, nowMs);
    status := agent.GetStatus(timestamp);
  }

  /** The start-up as written: the connection step always throws, so the
      agent reports simulation mode even with the live flag on and a valid
      pre-configured token. */
  method StartAgentAsWritten(nearConfig: NearConfig, env: Env, codec: JsonCodec,
                             signer: NearAuth.Signer, nowMs: nat, timestamp: string)
    returns (agent: AgentService, status: Status)
    ensures status.mode == "simulation" && !agent.aiUtils.useActualAPI
    ensures !status.connected && !status.apiConfigured
  {
    agent, status := StartAgent(nearConfig, env, codec, NearUtilsInitializeNear(nearConfig), signer, nowMs, timestamp);
  }

  /** With a working connection step, the live flag on and a pre-configured
      token that parses, the agent does reach live mode. */
  method StartAgentLive(nearConfig: NearConfig, env: Env, codec: JsonCodec, connection: Connection,
                        signer: NearAuth.Signer, nowMs: nat, timestamp: string)
    returns (agent: AgentService, status: Status)
    requires LiveApiEnabled(env) && NearAuth.HasPreConfiguredAuthToken(env, codec)
    ensures status.mode == "api" && agent.aiUtils.useActualAPI
    ensures agent.authToken == env.nearAiAuthToken && status.apiConfigured
  {
    agent, status := StartAgent(nearConfig, env, codec, Ok(connection), signer, nowMs, timestamp);
  }
}
