/** NEAR intent construction from src/blockchain/nearIntentsUtils.js: the
    wallet state set up by `initialize`, the receiver table, the three
    create-intent operations (signed-in check, then parameter check, then
    exactly one `create_intent` call submitted) and the simulated status
    query. `utils.format.parseNearAmount` is the parameter `parseNear`: the
    yoctoNEAR text of an amount, or the error it throws for text it cannot
    read (more than one `.`, too many fractional digits); the submission's outcome is `send` (the transaction
    hash, or the error it throws), and the random `toString(36)` part of an
    intent id is `idSuffix`. */
module Intents {
  import opened Common

  const SignInRequired := "User must be signed in"
  const BridgeParamsRequired := "Amount and receiver address are required"
  const SwapParamsRequired := "From token, to token, and amount are required"
  const IntentIdRequired := "Intent ID is required"

  /** Gas attached to every submitted `create_intent` call: 100 TGas. */
  const IntentGas: nat := 100000000000000

  /** `intentReceivers`: the contract each kind of intent is sent to. */
  const IntentReceivers: map<string, string> :=
    map["transfer" := "transfer.intent.near", "swap" := "swap.intent.near",
        "bridge" := "bridge.intent.near", "private" := "private.intent.near"]

  /** The keys a caller may pass to the constructor (None: not passed). */
  datatype IntentsConfig = IntentsConfig(networkId: Option<string>, nodeUrl: Option<string>,
                                         walletUrl: Option<string>, helperUrl: Option<string>,
                                         explorerUrl: Option<string>, bridgeContractId: Option<string>,
                                         secretBridgeContractId: Option<string>)

  /** The connection `connect` returns; not read by the core. */
  datatype NearHandle = NearHandle(networkId: string)

  datatype Wallet = Wallet(appKey: string)

  datatype Account = Account(accountId: string)

  /** The arguments of a `create_intent` call. */
  datatype IntentArgs =
    | BridgeArgs(intentType: string, targetChain: string, receiverAddress: string, amount: string,
                 flagName: string, flag: bool)
    | SwapArgs(intentType: string, fromToken: string, toToken: string, amount: string,
               minAmountOut: string, privacyLevel: string)

  datatype FunctionCall = FunctionCall(methodName: string, args: IntentArgs, gas: nat, deposit: string)

  datatype Transaction = Transaction(receiverId: string, actions: seq<FunctionCall>)

  /** The parameters as passed; `flag` is the `shielded` or `encrypted`
      value, None when absent. */
  datatype BridgeParams = BridgeParams(amount: Option<string>, receiverAddress: Option<string>, flag: Option<bool>)

  datatype SwapParams = SwapParams(fromToken: Option<string>, toToken: Option<string>, amount: Option<string>,
                                   minAmountOut: Option<string>, privacyLevel: Option<string>)

  /** The parameters echoed in a receipt. */
  datatype EchoedParams =
    | BridgeEcho(amount: string, receiverAddress: string, flag: bool)
    | SwapEcho(fromToken: string, toToken: string, amount: string, minAmountOut: string, privacyLevel: string)

  datatype IntentReceipt = IntentReceipt(transactionHash: string, status: string, kind: string,
                                         params: EchoedParams, intentId: string)

  /** What a create call submitted, and what it returned or threw. */
  datatype Creation = Creation(sent: seq<Transaction>, outcome: Result<IntentReceipt, string>)

  datatype IntentDetails = IntentDetails(finalAmount: real, fee: real, completedAt: string)

  datatype IntentStatus = IntentStatus(intentId: string, status: string, lastUpdated: string,
                                       details: Option<IntentDetails>)

  /** `!!value` for a flag that is a boolean or absent. */
  predicate Coerced(flag: Option<bool>)
  {
    flag == Some(true)
  }

  /** `${Date.now()}-${suffix}`. */
  function IntentId(nowMs: nat, idSuffix: string): (id: string)
    ensures StartsWith(id, NatToString(nowMs, 10) + "-")
    ensures StringToNat(id[..|NatToString(nowMs, 10)|], 10) == nowMs
  {
    var digits := NatToString(nowMs, 10);
    var id := digits + "-" + idSuffix;
    assert id[..|digits|] == digits;
    NatToStringRoundTrip(nowMs, 10);
    id
  }

  /** Submits `tx` with outcome `send` and builds the receipt on success. */
  function Submit(tx: Transaction, send: Result<string, string>, kind: string, echoed: EchoedParams,
                  nowMs: nat, idSuffix: string): (c: Creation)
    ensures c.sent == [tx]
    ensures c.outcome.Ok? <==> send.Ok?
    ensures send.Err? ==> c.outcome == Err(send.error)
    ensures c.outcome.Ok? ==> c.outcome.value == IntentReceipt(send.value, "intent_created", kind, echoed,
                                                               IntentId(nowMs, idSuffix))
  {
    match send
    case Err(e) => Creation([tx], Err(e))
    case Ok(hash) => Creation([tx], Ok(IntentReceipt(hash, "intent_created", kind, echoed, IntentId(nowMs, idSuffix))))
  }

  /** A submission of one `create_intent` call to `receiver`. */
  predicate SingleCreateIntent(sent: seq<Transaction>, receiver: string)
  {
    |sent| == 1 && sent[0].receiverId == receiver && |sent[0].actions| == 1 &&
    sent[0].actions[0].methodName == "create_intent" && sent[0].actions[0].gas == IntentGas
  }

  /** `queryIntentStatus`: an id is required; the status is drawn uniformly
      from the four statuses, and details exist exactly for a completed
      intent. */
  function QueryIntentStatus(intentId: Option<string>, rand: Random, start: nat, isoNow: string)
    : (r: Result<IntentStatus, string>)
    ensures r.Err? <==> !Truthy(intentId)
    ensures r.Err? ==> r.error == IntentIdRequired
    ensures r.Ok? ==> r.value.intentId == intentId.value && r.value.lastUpdated == isoNow
    ensures r.Ok? ==> r.value.status in {"pending", "processing", "completed", "failed"}
    ensures r.Ok? ==> (r.value.details.Some? <==> r.value.status == "completed")
    ensures r.Ok? && r.value.details.Some? ==>
      0.0 <= r.value.details.value.finalAmount < 10.0 && 0.0 <= r.value.details.value.fee < 0.1 &&
      r.value.details.value.completedAt == isoNow
  {
    if !Truthy(intentId) then Err(IntentIdRequired)
    else
      var statuses := ["pending", "processing", "completed", "failed"];
      var status := statuses[Scale(rand(start), 4)];
      var details := if status == "completed"
                     then Some(IntentDetails(rand(start + 1) * 10.0, rand(start + 2) * 0.1, isoNow))
                     else None;
      Ok(IntentStatus(intentId.value, status, isoNow, details))
  }

  /** A `NearIntentsUtils` object. */
  class NearIntentsUtils {
    const networkId: string
    const nodeUrl: string
    const walletUrl: string
    const helperUrl: string
    const explorerUrl: string
    const bridgeContractId: string
    const secretBridgeContractId: string
    var near: Option<NearHandle>
    var wallet: Option<Wallet>
    var account: Option<Account>

    /** Nothing is connected or signed in at first; the connection settings
        are the passed keys or their defaults, the two bridge contracts the
        truthy passed value or its default. */
    constructor (config: IntentsConfig)
      ensures near == None && wallet == None && account == None
      ensures networkId == Setting(config.networkId, "testnet")
      ensures nodeUrl == Setting(config.nodeUrl, "https://rpc.testnet.near.org")
      ensures walletUrl == Setting(config.walletUrl, "https://wallet.testnet.near.org")
      ensures helperUrl == Setting(config.helperUrl, "https://helper.testnet.near.org")
      ensures explorerUrl == Setting(config.explorerUrl, "https://explorer.testnet.near.org")
      ensures bridgeContractId == OrElse(config.bridgeContractId, "zcash-bridge.testnet")
      ensures secretBridgeContractId == OrElse(config.secretBridgeContractId, "secret-bridge.testnet")
    {
      networkId := Setting(config.networkId, "testnet");
      nodeUrl := Setting(config.nodeUrl, "https://rpc.testnet.near.org");
      walletUrl := Setting(config.walletUrl, "https://wallet.testnet.near.org");
      helperUrl := Setting(config.helperUrl, "https://helper.testnet.near.org");
      explorerUrl := Setting(config.explorerUrl, "https://explorer.testnet.near.org");
      bridgeContractId := OrElse(config.bridgeContractId, "zcash-bridge.testnet");
      secretBridgeContractId := OrElse(config.secretBridgeContractId, "secret-bridge.testnet");
      near := None;
      wallet := None;
      account := None;
    }

    /** `initialize` as written, with `connect` the outcome of `connect` and
        `inBrowser` whether `window` is defined. A failing connection is
        rethrown. In a browser the wallet is built with `WalletConnection`,
        which the file never imports, so the call throws after `near` is
        set; outside a browser nothing more happens. Either way the account
        is never set. */
    method Initialize(connect: Result<NearHandle, string>, inBrowser: bool) returns (r: Result<bool, string>)
      modifies this
      ensures wallet == old(wallet) && account == old(account)
      ensures connect.Err? ==> r == Err(connect.error) && near == old(near)
      ensures connect.Ok? ==> near == Some(connect.value)
      ensures connect.Ok? && inBrowser ==> r == Err("ReferenceError: WalletConnection is not defined")
      ensures connect.Ok? && !inBrowser ==> r == Ok(true)
    {
      match connect
      case Err(e) =>
        return Err(e);
      case Ok(handle) =>
        near := Some(handle);
        if inBrowser {
          return Err("ReferenceError: WalletConnection is not defined");
        }
        return Ok(true);
    }

    /** `initialize` as evidently intended: in a browser the wallet is
        created and, when its user is signed in (`signedIn` is their
        account), the account is set. */
    method InitializeIntended(connect: Result<NearHandle, string>, inBrowser: bool, signedIn: Option<Account>)
      returns (r: Result<bool, string>)
      modifies this
      ensures connect.Err? ==>
        r == Err(connect.error) && near == old(near) && wallet == old(wallet) && account == old(account)
      ensures connect.Ok? ==> r == Ok(true) && near == Some(connect.value)
      ensures connect.Ok? && inBrowser ==>
        wallet == Some(Wallet("zecret-banker")) && account == (if signedIn.Some? then signedIn else old(account))
      ensures connect.Ok? && !inBrowser ==> wallet == old(wallet) && account == old(account)
    {
      match connect
      case Err(e) =>
        return Err(e);
      case Ok(handle) =>
        near := Some(handle);
        if inBrowser {
          wallet := Some(Wallet("zecret-banker"));
          if signedIn.Some? {
            account := signedIn;
          }
        }
        return Ok(true);
    }

    /** `createBridgeToZcashIntent`: signed-in check, then amount and receiver,
        then the amount and the 0.01 NEAR fee converted (either conversion
        may throw, and then nothing is sent), then one `create_intent` call
        (bridge to `zcash`) sent to the bridge receiver. The
        `bridge_to_zcash` call the source also builds is never submitted. */
    function CreateBridgeToZcashIntent(p: BridgeParams, parseNear: string -> Result<string, string>,
                                       send: Result<string, string>, nowMs: nat, idSuffix: string): (c: Creation)
      reads this
      ensures account.None? ==> c == Creation([], Err(SignInRequired))
      ensures account.Some? && !(Truthy(p.amount) && Truthy(p.receiverAddress)) ==>
        c == Creation([], Err(BridgeParamsRequired))
      ensures account.Some? && Truthy(p.amount) && Truthy(p.receiverAddress) && parseNear(p.amount.value).Err? ==>
        c == Creation([], Err(parseNear(p.amount.value).error))
      ensures c.sent != [] <==>
        account.Some? && Truthy(p.amount) && Truthy(p.receiverAddress) &&
        parseNear(p.amount.value).Ok? && parseNear("0.01").Ok?
      ensures c.outcome.Ok? <==> c.sent != [] && send.Ok?
      ensures c.sent != [] ==>
        SingleCreateIntent(c.sent, IntentReceivers["bridge"]) &&
        c.sent[0].actions[0].args ==
          BridgeArgs("bridge", "zcash", p.receiverAddress.value, parseNear(p.amount.value).value, "shielded", Coerced(p.flag)) &&
        c.sent[0].actions[0].deposit == parseNear("0.01").value
      ensures c.outcome.Ok? ==>
        c.outcome.value.status == "intent_created" && c.outcome.value.kind == "bridge_to_zcash" &&
        c.outcome.value.transactionHash == send.value &&
        c.outcome.value.params == BridgeEcho(p.amount.value, p.receiverAddress.value, Coerced(p.flag)) &&
        c.outcome.value.intentId == IntentId(nowMs, idSuffix)
    {
      if account.None? then Creation([], Err(SignInRequired))
      else if !Truthy(p.amount) || !Truthy(p.receiverAddress) then Creation([], Err(BridgeParamsRequired))
      else
        match parseNear(p.amount.value)
        case Err(e) => Creation([], Err(e))
        case Ok(amountInYocto) =>
          match parseNear("0.01")
          case Err(e) => Creation([], Err(e))
          case Ok(fee) =>
            var intent := FunctionCall("create_intent",
              BridgeArgs("bridge", "zcash", p.receiverAddress.value, amountInYocto, "shielded", Coerced(p.flag)),
              IntentGas, fee);
            Submit(Transaction(IntentReceivers["bridge"], [intent]), send, "bridge_to_zcash",
                   BridgeEcho(p.amount.value, p.receiverAddress.value, Coerced(p.flag)), nowMs, idSuffix)
    }

    /** `createBridgeToSecretIntent`: signed-in check, then amount and receiver,
        then the amount and the 0.01 NEAR fee converted (either conversion
        may throw, and then nothing is sent), then one `create_intent` call
        (bridge to `secret`) sent to the bridge receiver. The flag
        is `encrypted`. */
    function CreateBridgeToSecretIntent(p: BridgeParams, parseNear: string -> Result<string, string>,
                                        send: Result<string, string>, nowMs: nat, idSuffix: string): (c: Creation)
      reads this
      ensures account.None? ==> c == Creation([], Err(SignInRequired))
      ensures account.Some? && !(Truthy(p.amount) && Truthy(p.receiverAddress)) ==>
        c == Creation([], Err(BridgeParamsRequired))
      ensures account.Some? && Truthy(p.amount) && Truthy(p.receiverAddress) && parseNear(p.amount.value).Err? ==>
        c == Creation([], Err(parseNear(p.amount.value).error))
      ensures c.sent != [] <==>
        account.Some? && Truthy(p.amount) && Truthy(p.receiverAddress) &&
        parseNear(p.amount.value).Ok? && parseNear("0.01").Ok?
      ensures c.outcome.Ok? <==> c.sent != [] && send.Ok?
      ensures c.sent != [] ==>
        SingleCreateIntent(c.sent, IntentReceivers["bridge"]) &&
        c.sent[0].actions[0].args ==
          BridgeArgs("bridge", "secret", p.receiverAddress.value, parseNear(p.amount.value).value, "encrypted", Coerced(p.flag)) &&
        c.sent[0].actions[0].deposit == parseNear("0.01").value
      ensures c.outcome.Ok? ==>
        c.outcome.value.status == "intent_created" && c.outcome.value.kind == "bridge_to_secret" &&
        c.outcome.value.transactionHash == send.value &&
        c.outcome.value.params == BridgeEcho(p.amount.value, p.receiverAddress.value, Coerced(p.flag)) &&
        c.outcome.value.intentId == IntentId(nowMs, idSuffix)
    {
      if account.None? then Creation([], Err(SignInRequired))
      else if !Truthy(p.amount) || !Truthy(p.receiverAddress) then Creation([], Err(BridgeParamsRequired))
      else
        match parseNear(p.amount.value)
        case Err(e) => Creation([], Err(e))
        case Ok(amountInYocto) =>
          match parseNear("0.01")
          case Err(e) => Creation([], Err(e))
          case Ok(fee) =>
            var intent := FunctionCall("create_intent",
              BridgeArgs("bridge", "secret", p.receiverAddress.value, amountInYocto, "encrypted", Coerced(p.flag)),
              IntentGas, fee);
            Submit(Transaction(IntentReceivers["bridge"], [intent]), send, "bridge_to_secret",
                   BridgeEcho(p.amount.value, p.receiverAddress.value, Coerced(p.flag)), nowMs, idSuffix)
    }

    /** `createPrivateSwapIntent`: signed-in check, then both tokens and the
        amount, then one `create_intent` swap call sent to the swap
        receiver. Only an amount of NEAR is converted, and then it is also
        the deposit; any other token sends the amount as passed and attaches
        the 0.01 NEAR fee. A conversion that throws sends nothing. The
        minimum output defaults to `'0'` and the privacy level to
        `'standard'`, in the call and in the receipt alike. */
    function CreatePrivateSwapIntent(p: SwapParams, parseNear: string -> Result<string, string>,
                                     send: Result<string, string>, nowMs: nat, idSuffix: string): (c: Creation)
      reads this
      ensures account.None? ==> c == Creation([], Err(SignInRequired))
      ensures account.Some? && !(Truthy(p.fromToken) && Truthy(p.toToken) && Truthy(p.amount)) ==>
        c == Creation([], Err(SwapParamsRequired))
      ensures account.Some? && Truthy(p.fromToken) && Truthy(p.toToken) && Truthy(p.amount) &&
              p.fromToken.value == "NEAR" && parseNear(p.amount.value).Err? ==>
        c == Creation([], Err(parseNear(p.amount.value).error))
      ensures c.sent != [] <==>
        account.Some? && Truthy(p.fromToken) && Truthy(p.toToken) && Truthy(p.amount) &&
        (if p.fromToken.value == "NEAR" then parseNear(p.amount.value).Ok? else parseNear("0.01").Ok?)
      ensures c.outcome.Ok? <==> c.sent != [] && send.Ok?
      ensures c.sent != [] ==>
        SingleCreateIntent(c.sent, IntentReceivers["swap"]) &&
        var converted := if p.fromToken.value == "NEAR" then parseNear(p.amount.value).value else p.amount.value;
        c.sent[0].actions[0].args ==
          SwapArgs("swap", p.fromToken.value, p.toToken.value, converted,
                   OrElse(p.minAmountOut, "0"), OrElse(p.privacyLevel, "standard")) &&
        c.sent[0].actions[0].deposit == (if p.fromToken.value == "NEAR" then converted else parseNear("0.01").value)
      ensures c.outcome.Ok? ==>
        c.outcome.value.status == "intent_created" && c.outcome.value.kind == "private_swap" &&
        c.outcome.value.transactionHash == send.value &&
        c.outcome.value.params == SwapEcho(p.fromToken.value, p.toToken.value, p.amount.value,
                                           OrElse(p.minAmountOut, "0"), OrElse(p.privacyLevel, "standard")) &&
        c.outcome.value.intentId == IntentId(nowMs, idSuffix)
    {
      if account.None? then Creation([], Err(SignInRequired))
      else if !Truthy(p.fromToken) || !Truthy(p.toToken) || !Truthy(p.amount) then Creation([], Err(SwapParamsRequired))
      else
        var fromNear := p.fromToken.value == "NEAR";
        var converted := if fromNear then parseNear(p.amount.value) else Ok(p.amount.value);
        var deposit := if fromNear then converted else parseNear("0.01");
        if converted.Err? then Creation([], Err(converted.error))
        else if deposit.Err? then Creation([], Err(deposit.error))
        else
          var intent := FunctionCall("create_intent",
            SwapArgs("swap", p.fromToken.value, p.toToken.value, converted.value,
                     OrElse(p.minAmountOut, "0"), OrElse(p.privacyLevel, "standard")),
            IntentGas, deposit.value);
          Submit(Transaction(IntentReceivers["swap"], [intent]), send, "private_swap",
                 SwapEcho(p.fromToken.value, p.toToken.value, p.amount.value,
                          OrElse(p.minAmountOut, "0"), OrElse(p.privacyLevel, "standard")), nowMs, idSuffix)
    }
  }

  /** As written, no sequence of construction and initialisation lets a
      user create an intent: every create call fails with the sign-in error
      and submits nothing. */
  method AsWrittenNeverSignsIn(config: IntentsConfig, connect: Result<NearHandle, string>, inBrowser: bool,
                               p: BridgeParams, parseNear: string -> Result<string, string>,
                               send: Result<string, string>, nowMs: nat, idSuffix: string)
    returns (c: Creation)
    ensures c == Creation([], Err(SignInRequired))
  {
    var utils := new NearIntentsUtils(config);
    var _ := utils.Initialize(connect, inBrowser);
    c := utils.CreateBridgeToZcashIntent(p, parseNear, send, nowMs, idSuffix);
  }

  /** With the intended initialisation, a signed-in browser user with valid
      parameters gets the intent created when the submission succeeds.
      Valid parameters include an amount the converter reads (and the fee
      text `0.01`, which near-api-js always reads). */
  method IntendedSignInCreates(config: IntentsConfig, handle: NearHandle, user: Account,
                               p: BridgeParams, parseNear: string -> Result<string, string>,
                               hash: string, nowMs: nat, idSuffix: string)
    returns (c: Creation)
    requires Truthy(p.amount) && Truthy(p.receiverAddress)
    requires parseNear(p.amount.value).Ok? && parseNear("0.01").Ok?
    ensures c.outcome.Ok? && c.outcome.value.transactionHash == hash
    ensures SingleCreateIntent(c.sent, "bridge.intent.near")
  {
    var utils := new NearIntentsUtils(config);
    var _ := utils.InitializeIntended(Ok(handle), true, Some(user));
    c := utils.CreateBridgeToZcashIntent(p, parseNear, Ok(hash), nowMs, idSuffix);
  }

  /** Swapping NEAR attaches exactly the converted amount; any other token
      attaches the 0.01 NEAR fee. */
  lemma SwapDeposit(utils: NearIntentsUtils, p: SwapParams, parseNear: string -> Result<string, string>,
                    send: Result<string, string>, nowMs: nat, idSuffix: string)
    requires utils.account.Some? && Truthy(p.fromToken) && Truthy(p.toToken) && Truthy(p.amount)
    requires if p.fromToken == Some("NEAR") then parseNear(p.amount.value).Ok? else parseNear("0.01").Ok?
    ensures var c := utils.CreatePrivateSwapIntent(p, parseNear, send, nowMs, idSuffix);
      c.sent != [] &&
      c.sent[0].actions[0].deposit ==
        (if p.fromToken == Some("NEAR") then parseNear(p.amount.value).value else parseNear("0.01").value)
  {
  }
}
