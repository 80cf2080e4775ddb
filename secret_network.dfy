/** The Secret Network executor of src/services/secretNetworkService.js: an
    initialisation gate, the status report, viewing keys, private swaps,
    computations in the trusted execution environment, encrypted contract
    queries and the viewing-key-protected history. Time arrives as `nowMs`
    and its ISO rendering `isoOf`, `Math.random()` as the draw stream
    `rand`, and `Math.random().toString(36).substring(2, 15)` as
    `randomKey` applied to a draw: at most thirteen base-36 digits. */
module SecretNetwork {
  import opened Common

  const NotInitialized := "Secret Network service not initialized"
  const InvalidAmount := "Invalid amount"
  const RecipientRequired := "Recipient address is required"
  const ComputationTypeRequired := "Computation type is required"
  const ContractAddressRequired := "Contract address is required"
  const QueryRequired := "Query is required"
  const InvalidViewingKey := "Invalid viewing key"
  const ViewingKeyPrefix := "api_key_"

  /** The keys a caller may pass to the constructor (None: not passed). */
  datatype SecretConfig = SecretConfig(secretNodeUrl: Option<string>, secretNetwork: Option<string>,
                                       bridgeContractAddress: Option<string>, chainId: Option<string>)

  datatype ServiceStatus = ServiceStatus(isInitialized: bool, network: string, nodeUrl: string,
                                         bridgeStatus: string, privacyStatus: string, teeStatus: string)

  datatype ViewingKey = ViewingKey(address: Option<string>, viewingKey: string, created: string)

  datatype SwapParams = SwapParams(fromChain: Option<string>, toChain: Option<string>, amount: Option<Amount>,
                                   fromAddress: Option<string>, toAddress: Option<string>, usePrivacy: bool)

  datatype SwapReceipt = SwapReceipt(
    success: bool, transactionId: string, fromChain: Option<string>, toChain: Option<string>,
    amount: Amount, fromAddress: Option<string>, toAddress: string, privacyLevel: string,
    status: string, estimatedCompletionTime: string, timestamp: string)

  /** `gasLimit` is None when absent or not a number. */
  datatype ComputationParams = ComputationParams(computationType: Option<string>, gasLimit: Option<int>)

  /** The per-type result of a computation; amounts are the drawn values
      before `toFixed`. */
  datatype ComputationOutput =
    | ZeroKnowledgeProof(proof: string, verified: bool, encryptedResult: bool)
    | PrivateAnalytics(totalTransactions: nat, averageAmount: real, topDestinations: seq<string>,
                       privacyPreserving: bool)
    | ConfidentialBridge(bridgeStatus: string, encryptedTransfers: nat, completionTime: string)
    | Sealed(status: string, encryptedOutput: string)

  datatype ComputationReceipt = ComputationReceipt(
    success: bool, computationType: string, transactionId: string, executedInTEE: bool,
    gasUsed: int, result: ComputationOutput, timestamp: string)

  datatype QueryParams = QueryParams(contractAddress: Option<string>, query: Option<string>,
                                     viewingKey: Option<string>)

  datatype PrivateTx = PrivateTx(id: string, amount: real, timestamp: string, status: string)

  datatype QueryResponse =
    | Balance(balance: real, denom: string, viewingKeyValid: bool)
    | BridgeState(isActive: bool, totalLocked: real, supportedTokens: seq<string>, lastBridgeOperation: string)
    | PrivateTransactions(transactions: seq<PrivateTx>, encryptedData: bool, viewableWithKey: bool)
    | Processed(status: string, data: string)

  datatype QueryReceipt = QueryReceipt(success: bool, contractAddress: string, queryType: string,
                                       result: QueryResponse, executedInTEE: bool, timestamp: string)

  datatype PrivateEntry =
    | Transfer(date: string, kind: string, amount: real, from: Option<string>, to: Option<string>,
               status: string, encrypted: bool, txId: string)
    | Computation(date: string, kind: string, computationType: string, gasFee: real,
                  status: string, encrypted: bool, txId: string)

  datatype PrivateHistory =
    | Denied(success: bool, error: string, transactionCount: nat, lastTransaction: string)
    | Listed(success: bool, transactions: seq<PrivateEntry>, filterType: string, address: Option<string>,
             viewingKeyValid: bool, privacyLevel: string)

  // ---------------------------------------------------------------------
  // Viewing keys.
  // ---------------------------------------------------------------------

  /** `viewingKey && viewingKey.startsWith('api_key_')`. */
  predicate ViewingKeyValid(viewingKey: Option<string>)
  {
    Truthy(viewingKey) && StartsWith(viewingKey.value, ViewingKeyPrefix)
  }

  /** The key text the generator produces from two random parts. */
  function ViewingKeyText(part1: string, part2: string): (key: string)
    ensures StartsWith(key, ViewingKeyPrefix) && key[|ViewingKeyPrefix|..] == part1 + part2
  {
    ViewingKeyPrefix + part1 + part2
  }

  /** A generated key always unlocks the history, whatever its random parts. */
  lemma GeneratedKeyIsValid(part1: string, part2: string)
    ensures ViewingKeyValid(Some(ViewingKeyText(part1, part2)))
  {
  }

  /** The text `Math.random().toString(36).substring(2, 15)` can give: the
      base-36 digits after `0.`, at most thirteen of them. */
  type RandomPart = s: string | |s| <= 13 && forall i :: 0 <= i < |s| ==> IsDigitOf(s[i], 36)
    witness ""

  /** A generated key is the prefix followed by at most 26 base-36 digits. */
  lemma GeneratedKeyShape(part1: RandomPart, part2: RandomPart)
    ensures var key := ViewingKeyText(part1, part2);
      |key| <= |ViewingKeyPrefix| + 26 &&
      forall i :: |ViewingKeyPrefix| <= i < |key| ==> IsDigitOf(key[i], 36)
  {
    var key := ViewingKeyText(part1, part2);
    forall i | |ViewingKeyPrefix| <= i < |key|
      ensures IsDigitOf(key[i], 36)
    {
      var k := i - |ViewingKeyPrefix|;
      if k < |part1| {
        assert key[i] == part1[k];
      } else {
        assert key[i] == part2[k - |part1|];
      }
    }
  }

  /** The history's check is only a prefix test: it accepts `api_key_!`,
      which no generated key is, so it does not tell generated keys from
      forged ones. */
  lemma {:induction false} CheckAcceptsUngeneratedKeys(part1: RandomPart, part2: RandomPart)
    ensures ViewingKeyValid(Some("api_key_!"))
    ensures ViewingKeyText(part1, part2) != "api_key_!"
  {
    assert "api_key_!"[..|ViewingKeyPrefix|] == ViewingKeyPrefix;
    var key := ViewingKeyText(part1, part2);
    GeneratedKeyShape(part1, part2);
    if |key| == 9 {
      assert IsDigitOf(key[8], 36);
      assert key[8] != "api_key_!"[8];
    }
  }

  // ---------------------------------------------------------------------
  // Computations.
  // ---------------------------------------------------------------------

  /** `Math.floor(Math.random() * gasLimit) || 50000`: a zero or a missing
      (NaN) product falls back to 50000. */
  function GasUsed(gasLimit: Option<int>, r: Draw): (gas: int)
    ensures gas != 0
    ensures gasLimit.None? ==> gas == 50000
    ensures gasLimit.Some? && gasLimit.value > 0 ==> gas == 50000 || 1 <= gas < gasLimit.value
  {
    match gasLimit
    case None => 50000
    case Some(limit) =>
      var g := if limit > 0 then Scale(r, limit) else (r * (limit as real)).Floor;
      if g == 0 then 50000 else g
  }

  /** How many draws each computation type takes before the gas draw. */
  function OutputDraws(computationType: string): (n: nat)
    ensures n <= 2
  {
    if computationType == "zero-knowledge-proof" then 1
    else if computationType == "private-analytics" then 2
    else if computationType == "confidential-bridge" then 1
    else 0
  }

  /** The result of the `switch`: three known types, and a sealed-data
      result for every other type. */
  function ComputationOutputFor(computationType: string, nowMs: nat, rand: Random, start: nat,
                                randomKey: Draw -> RandomPart): (out: ComputationOutput)
    ensures computationType == "zero-knowledge-proof" <==> out.ZeroKnowledgeProof?
    ensures computationType == "private-analytics" <==> out.PrivateAnalytics?
    ensures computationType == "confidential-bridge" <==> out.ConfidentialBridge?
    ensures out.ZeroKnowledgeProof? ==> StartsWith(out.proof, "proof_") && out.verified && out.encryptedResult
    ensures out.PrivateAnalytics? ==> out.totalTransactions < 1000 && out.privacyPreserving &&
                                      out.topDestinations == ["NEAR", "Zcash", "Ethereum"]
    ensures out.ConfidentialBridge? ==> 1 <= out.encryptedTransfers <= 5 && out.bridgeStatus == "success"
    ensures out.Sealed? ==> out.status == "completed" && out.encryptedOutput == "sealed_data_" + NatToString(nowMs, 10)
  {
    if computationType == "zero-knowledge-proof" then
      ZeroKnowledgeProof("proof_" + randomKey(rand(start)), true, true)
    else if computationType == "private-analytics" then
      PrivateAnalytics(Scale(rand(start), 1000), rand(start + 1) * 100.0, ["NEAR", "Zcash", "Ethereum"], true)
    else if computationType == "confidential-bridge" then
      ConfidentialBridge("success", Scale(rand(start), 5) + 1, "3.2 seconds")
    else
      Sealed("completed", "sealed_data_" + NatToString(nowMs, 10))
  }

  // ---------------------------------------------------------------------
  // Encrypted contract queries.
  // ---------------------------------------------------------------------

  const PrivateTxStatuses := ["completed", "pending", "completed", "completed", "failed"]

  /** The five private transactions of the `getPrivateTransactions` reply:
      the i-th is `i` hundred seconds and `i` hours back. */
  function PrivateTxs(nowMs: nat, isoOf: int -> string, rand: Random, start: nat): (txs: seq<PrivateTx>)
    ensures |txs| == 5
    ensures forall i :: 0 <= i < 5 ==>
      txs[i].status == PrivateTxStatuses[i] && txs[i].id == "tx_" + IntToString(nowMs - i * 100000) && 0.0 <= txs[i].amount < 10.0
  {
    seq(5, i requires 0 <= i < 5 =>
      PrivateTx("tx_" + IntToString(nowMs - i * 100000), rand(start + i) * 10.0,
                isoOf(nowMs - i * 3600000), PrivateTxStatuses[i]))
  }

  /** The reply table; all three replies are built (and draw) before the
      lookup. */
  function Responses(nowMs: nat, isoNow: string, isoOf: int -> string, rand: Random, start: nat): (table: map<string, QueryResponse>)
    ensures table.Keys == {"getBalance", "getBridgeStatus", "getPrivateTransactions"}
    ensures table["getBalance"].Balance? && table["getBalance"].denom == "SCRT"
    ensures table["getBridgeStatus"].BridgeState? && table["getBridgeStatus"].isActive
    ensures table["getPrivateTransactions"].PrivateTransactions? &&
            |table["getPrivateTransactions"].transactions| == 5
  {
    map["getBalance" := Balance(rand(start) * 100.0, "SCRT", true),
        "getBridgeStatus" := BridgeState(true, rand(start + 1) * 10000.0, ["SCRT", "NEAR", "sZEC", "ETH"], isoNow),
        "getPrivateTransactions" := PrivateTransactions(PrivateTxs(nowMs, isoOf, rand, start + 2), true, true)]
  }

  const DefaultResponse := Processed("query_processed", "encrypted_data_returned")

  // ---------------------------------------------------------------------
  // The private history catalogue.
  // ---------------------------------------------------------------------

  const NearToSecret := "NEAR \U{2192} Secret"
  const SecretToZcash := "Secret \U{2192} Zcash"
  const TeeComputation := "TEE Computation"

  const Catalog: seq<(string, string)> :=
    [(NearToSecret, "near-to-secret"), (SecretToZcash, "secret-to-zcash"), (TeeComputation, "private-computation")]

  function HistoryKinds(filter: string): seq<string>
  {
    SelectKinds(Catalog, filter)
  }

  /** The catalogue walked entry by entry. */
  lemma {:induction false} HistoryKindsSpelled(filter: string)
    ensures HistoryKinds(filter) ==
      (if filter == "all" || filter == "near-to-secret" then [NearToSecret] else []) +
      (if filter == "all" || filter == "secret-to-zcash" then [SecretToZcash] else []) +
      (if filter == "all" || filter == "private-computation" then [TeeComputation] else [])
  {
    var c := Catalog;
    assert SelectKinds(c[3..], filter) == [];
    assert SelectKinds(c[2..], filter) == (if filter == "all" || filter == "private-computation" then [TeeComputation] else []) + SelectKinds(c[2..][1..], filter);
    assert c[2..][1..] == c[3..];
    assert SelectKinds(c[1..], filter) == (if filter == "all" || filter == "secret-to-zcash" then [SecretToZcash] else []) + SelectKinds(c[1..][1..], filter);
    assert c[1..][1..] == c[2..];
    assert SelectKinds(c, filter) == (if filter == "all" || filter == "near-to-secret" then [NearToSecret] else []) + SelectKinds(c[1..], filter);
  }

  /** `'all'` lists the three kinds in order, each specific filter lists its
      one kind, and any other value lists nothing. */
  lemma HistoryKindsByFilter(filter: string)
    ensures HistoryKinds("all") == [NearToSecret, SecretToZcash, TeeComputation]
    ensures HistoryKinds("near-to-secret") == [NearToSecret]
    ensures HistoryKinds("secret-to-zcash") == [SecretToZcash]
    ensures HistoryKinds("private-computation") == [TeeComputation]
    ensures filter !in {"all", "near-to-secret", "secret-to-zcash", "private-computation"} ==> HistoryKinds(filter) == []
  {
    HistoryKindsSpelled(filter);
    HistoryKindsSpelled("all");
    HistoryKindsSpelled("near-to-secret");
    HistoryKindsSpelled("secret-to-zcash");
    HistoryKindsSpelled("private-computation");
  }

  /** The kinds of `entries`, in order. */
  function Kinds(entries: seq<PrivateEntry>): seq<string>
  {
    Map(entries, (e: PrivateEntry) => e.kind)
  }

  /** Every listed entry is completed and encrypted; the address is the
      receiver of NEAR-to-Secret and the sender of Secret-to-Zcash
      transfers; the computation entry is a zero-knowledge proof. */
  predicate WellFormedEntry(e: PrivateEntry, address: Option<string>)
  {
    e.status == "Completed" && e.encrypted &&
    (e.kind == NearToSecret ==> e.Transfer? && e.from == Some("near-address") && e.to == address &&
                                0.0 <= e.amount < 5.0 && StartsWith(e.txId, "secret_")) &&
    (e.kind == SecretToZcash ==> e.Transfer? && e.from == address && e.to == Some("zs1...") &&
                                 0.0 <= e.amount < 3.0 && StartsWith(e.txId, "secret_")) &&
    (e.kind == TeeComputation ==> e.Computation? && e.computationType == "Zero-Knowledge Proof" &&
                                  0.0 <= e.gasFee < 0.01 && StartsWith(e.txId, "compute_"))
  }

  function NearToSecretEntry(address: Option<string>, nowMs: nat, isoOf: int -> string, r: Draw): (e: PrivateEntry)
    ensures e.kind == NearToSecret && WellFormedEntry(e, address)
  {
    Transfer(isoOf(nowMs - 3600000), NearToSecret, r * 5.0, Some("near-address"), address, "Completed", true,
             "secret_" + IntToString(nowMs - 3600000))
  }

  function SecretToZcashEntry(address: Option<string>, nowMs: nat, isoOf: int -> string, r: Draw): (e: PrivateEntry)
    ensures e.kind == SecretToZcash && WellFormedEntry(e, address)
  {
    Transfer(isoOf(nowMs - 7200000), SecretToZcash, r * 3.0, address, Some("zs1..."), "Completed", true,
             "secret_" + IntToString(nowMs - 7200000))
  }

  function ComputationEntry(address: Option<string>, nowMs: nat, isoOf: int -> string, r: Draw): (e: PrivateEntry)
    ensures e.kind == TeeComputation && WellFormedEntry(e, address)
  {
    Computation(isoOf(nowMs - 10800000), TeeComputation, "Zero-Knowledge Proof", r * 0.01, "Completed", true,
                "compute_" + IntToString(nowMs - 10800000))
  }

  /** A `SecretNetworkService` object. */
  class SecretNetworkService {
    const secretNodeUrl: string
    const secretNetwork: string
    const bridgeContractAddress: string
    const chainId: string
    var isInitialized: bool

    /** The service starts closed; each setting is the passed key or its
        default. */
    constructor (config: SecretConfig)
      ensures !isInitialized
      ensures secretNodeUrl == Setting(config.secretNodeUrl, "https://lcd-secret.scrt.network")
      ensures secretNetwork == Setting(config.secretNetwork, "pulsar-2")
      ensures bridgeContractAddress == Setting(config.bridgeContractAddress, "secret1abc...")
      ensures chainId == Setting(config.chainId, "pulsar-2")
    {
      secretNodeUrl := Setting(config.secretNodeUrl, "https://lcd-secret.scrt.network");
      secretNetwork := Setting(config.secretNetwork, "pulsar-2");
      bridgeContractAddress := Setting(config.bridgeContractAddress, "secret1abc...");
      chainId := Setting(config.chainId, "pulsar-2");
      isInitialized := false;
    }

    /** `initialize`: opens the gate and reports true. */
    method Initialize() returns (ok: bool)
      modifies this
      ensures isInitialized && ok
    {
      isInitialized := true;
      ok := true;
    }

    /** `getStatus`, available in every state. */
    function GetStatus(): (s: ServiceStatus)
      reads this
      ensures s.isInitialized == isInitialized && s.network == secretNetwork && s.nodeUrl == secretNodeUrl
      ensures s.bridgeStatus == "operational" && s.privacyStatus == "active" && s.teeStatus == "operational"
    {
      ServiceStatus(isInitialized, secretNetwork, secretNodeUrl, "operational", "active", "operational")
    }

    /** `generateViewingKey`: behind the gate, a key made of the prefix and
        two random parts, which the history check accepts. */
    function GenerateViewingKey(address: Option<string>, rand: Random, start: nat,
                                randomKey: Draw -> RandomPart, isoNow: string): (r: Result<ViewingKey, string>)
      reads this
      ensures r.Err? <==> !isInitialized
      ensures r.Err? ==> r.error == NotInitialized
      ensures r.Ok? ==>
        r.value.address == address && r.value.created == isoNow &&
        r.value.viewingKey == ViewingKeyText(randomKey(rand(start)), randomKey(rand(start + 1))) &&
        ViewingKeyValid(Some(r.value.viewingKey))
    {
      if !isInitialized then Err(NotInitialized)
      else
        var key := ViewingKeyText(randomKey(rand(start)), randomKey(rand(start + 1)));
        GeneratedKeyIsValid(randomKey(rand(start)), randomKey(rand(start + 1)));
        Ok(ViewingKey(address, key, isoNow))
    }

    /** `executePrivateSwap`: the gate, then the amount, then the recipient;
        maximum privacy exactly when requested. */
    function ExecutePrivateSwap(p: SwapParams, nowMs: nat, isoNow: string): (r: Result<SwapReceipt, string>)
      reads this
      ensures !isInitialized ==> r == Err(NotInitialized)
      ensures isInitialized && !AmountAccepted(p.amount) ==> r == Err(InvalidAmount)
      ensures isInitialized && AmountAccepted(p.amount) && !Truthy(p.toAddress) ==> r == Err(RecipientRequired)
      ensures r.Ok? <==> isInitialized && AmountAccepted(p.amount) && Truthy(p.toAddress)
      ensures r.Ok? ==>
        r.value.success && r.value.status == "pending" && r.value.estimatedCompletionTime == "2-5 minutes" &&
        (r.value.privacyLevel == "maximum" <==> p.usePrivacy) &&
        (r.value.privacyLevel == "standard" <==> !p.usePrivacy) &&
        r.value.transactionId == "secret_tx_" + NatToString(nowMs, 10) && r.value.timestamp == isoNow &&
        Some(r.value.amount) == p.amount && Some(r.value.toAddress) == p.toAddress &&
        r.value.fromAddress == p.fromAddress && r.value.fromChain == p.fromChain && r.value.toChain == p.toChain
    {
      if !isInitialized then Err(NotInitialized)
      else if !AmountAccepted(p.amount) then Err(InvalidAmount)
      else if !Truthy(p.toAddress) then Err(RecipientRequired)
      else Ok(SwapReceipt(true, "secret_tx_" + NatToString(nowMs, 10), p.fromChain, p.toChain, p.amount.value,
                          p.fromAddress, p.toAddress.value, if p.usePrivacy then "maximum" else "standard",
                          "pending", "2-5 minutes", isoNow))
    }

    /** `executePrivateComputation`: the gate, then a computation type; any
        type is accepted, the unknown ones with a sealed-data result; the
        receipt always reports success in the enclave, and the gas draw
        follows the result's draws. */
    function ExecutePrivateComputation(p: ComputationParams, nowMs: nat, isoNow: string, rand: Random, start: nat,
                                       randomKey: Draw -> RandomPart): (r: Result<ComputationReceipt, string>)
      reads this
      ensures !isInitialized ==> r == Err(NotInitialized)
      ensures isInitialized && !Truthy(p.computationType) ==> r == Err(ComputationTypeRequired)
      ensures r.Ok? <==> isInitialized && Truthy(p.computationType)
      ensures r.Ok? ==>
        r.value.success && r.value.executedInTEE && r.value.computationType == p.computationType.value &&
        r.value.transactionId == "compute_" + NatToString(nowMs, 10) && r.value.timestamp == isoNow &&
        r.value.result == ComputationOutputFor(p.computationType.value, nowMs, rand, start, randomKey) &&
        r.value.gasUsed == GasUsed(p.gasLimit, rand(start + OutputDraws(p.computationType.value))) &&
        r.value.gasUsed != 0
    {
      if !isInitialized then Err(NotInitialized)
      else if !Truthy(p.computationType) then Err(ComputationTypeRequired)
      else
        var kind := p.computationType.value;
        var output := ComputationOutputFor(kind, nowMs, rand, start, randomKey);
        Ok(ComputationReceipt(true, kind, "compute_" + NatToString(nowMs, 10), true,
                              GasUsed(p.gasLimit, rand(start + OutputDraws(kind))), output, isoNow))
    }

    /** `queryEncryptedContract`: the gate, then the contract address, then
        the query; the reply is the table entry for the query, or the
        default reply for any other query. */
    function QueryEncryptedContract(p: QueryParams, nowMs: nat, isoNow: string, isoOf: int -> string,
                                    rand: Random, start: nat): (r: Result<QueryReceipt, string>)
      reads this
      ensures !isInitialized ==> r == Err(NotInitialized)
      ensures isInitialized && !Truthy(p.contractAddress) ==> r == Err(ContractAddressRequired)
      ensures isInitialized && Truthy(p.contractAddress) && !Truthy(p.query) ==> r == Err(QueryRequired)
      ensures r.Ok? <==> isInitialized && Truthy(p.contractAddress) && Truthy(p.query)
      ensures r.Ok? ==>
        r.value.success && r.value.executedInTEE && r.value.timestamp == isoNow &&
        r.value.contractAddress == p.contractAddress.value && r.value.queryType == p.query.value &&
        r.value.result == (var table := Responses(nowMs, isoNow, isoOf, rand, start);
                           if p.query.value in table then table[p.query.value] else DefaultResponse)
    {
      if !isInitialized then Err(NotInitialized)
      else if !Truthy(p.contractAddress) then Err(ContractAddressRequired)
      else if !Truthy(p.query) then Err(QueryRequired)
      else
        var table := Responses(nowMs, isoNow, isoOf, rand, start);
        var reply := if p.query.value in table then table[p.query.value] else DefaultResponse;
        Ok(QueryReceipt(true, p.contractAddress.value, p.query.value, reply, true, isoNow))
    }

    /** `getPrivateTransactionHistory`: behind the gate; without a valid
        viewing key only public data and the error; with one, the entries
        the filter selects (`'all'` when none is passed), appended one by one
        in catalogue order, at maximum privacy. */
    method GetPrivateTransactionHistory(filterType: Option<string>, address: Option<string>,
                                        viewingKey: Option<string>, nowMs: nat, isoNow: string,
                                        isoOf: int -> string, rand: Random, start: nat)
      returns (r: Result<PrivateHistory, string>)
      ensures !isInitialized ==> r == Err(NotInitialized)
      ensures isInitialized ==> r.Ok?
      ensures r.Ok? ==> (r.value.Denied? <==> !ViewingKeyValid(viewingKey))
      ensures r.Ok? && r.value.Denied? ==>
        !r.value.success && r.value.error == InvalidViewingKey && r.value.transactionCount < 50
      ensures r.Ok? && r.value.Listed? ==>
        r.value.success && r.value.viewingKeyValid && r.value.privacyLevel == "maximum" &&
        r.value.filterType == Setting(filterType, "all") && r.value.address == address &&
        Kinds(r.value.transactions) == HistoryKinds(Setting(filterType, "all")) &&
        forall e :: e in r.value.transactions ==> WellFormedEntry(e, address)
    {
      if !isInitialized {
        return Err(NotInitialized);
      }
      if !ViewingKeyValid(viewingKey) {
        return Ok(Denied(false, InvalidViewingKey, Scale(rand(start), 50), isoNow));
      }
      var filter := Setting(filterType, "all");
      var transactions: seq<PrivateEntry> := [];
      var next := start;
      if filter == "all" || filter == "near-to-secret" {
        transactions := transactions + [NearToSecretEntry(address, nowMs, isoOf, rand(next))];
        next := next + 1;
      }
      if filter == "all" || filter == "secret-to-zcash" {
        transactions := transactions + [SecretToZcashEntry(address, nowMs, isoOf, rand(next))];
        next := next + 1;
      }
      if filter == "all" || filter == "private-computation" {
        transactions := transactions + [ComputationEntry(address, nowMs, isoOf, rand(next))];
        next := next + 1;
      }
      HistoryKindsSpelled(filter);
      r := Ok(Listed(true, transactions, filter, address, true, "maximum"));
    }
  }

  /** Any query outside the table gets the default reply, and a balance
      query gets a balance in SCRT. */
  lemma {:induction false} QueryTableDefault(nowMs: nat, isoNow: string, isoOf: int -> string, rand: Random, start: nat,
                                             query: string)
    ensures var table := Responses(nowMs, isoNow, isoOf, rand, start);
      (query !in {"getBalance", "getBridgeStatus", "getPrivateTransactions"} <==> query !in table) &&
      (query == "getBalance" ==> table[query].denom == "SCRT")
  {
  }

  /** A key generated by an initialised service unlocks its history:
      the round trip from `generateViewingKey` to
      `getPrivateTransactionHistory`. */
  method GeneratedKeyUnlocksHistory(config: SecretConfig, address: Option<string>, filterType: Option<string>,
                                    nowMs: nat, isoNow: string, isoOf: int -> string, rand: Random,
                                    randomKey: Draw -> RandomPart)
    returns (history: Result<PrivateHistory, string>)
    ensures history.Ok? && history.value.Listed? && history.value.viewingKeyValid
  {
    var service := new SecretNetworkService(config);
    var _ := service.Initialize();
    var key := service.GenerateViewingKey(address, rand, 0, randomKey, isoNow);
    history := service.GetPrivateTransactionHistory(filterType, address, Some(key.value.viewingKey), nowMs, isoNow,
                                                    isoOf, rand, 2);
  }
}
