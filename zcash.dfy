/** The Zcash executor of src/services/zcashService.js: an initialisation
    gate, the status report, simulated shielded addresses, cross-chain
    transfers, shielded operations and the filtered transaction history.
    Time arrives as `nowMs` (`Date.now()`), its ISO rendering as `isoOf`,
    and `Math.random()` as the draw stream `rand`. */
module Zcash {
  import opened Common

  const NotInitialized := "Zcash service not initialized"
  const InvalidAmount := "Invalid amount"
  const RecipientRequired := "Recipient address is required"
  const RecipientRequiredForOperation := "Recipient address is required for this operation type"
  const DefaultAccount := "example.near"

  /** The keys a caller may pass to the constructor (None: not passed). */
  datatype ZcashConfig = ZcashConfig(zcashApiUrl: Option<string>, zcashNetwork: Option<string>,
                                     bridgeContractId: Option<string>)

  datatype ServiceStatus = ServiceStatus(isInitialized: bool, network: string, bridgeStatus: string,
                                         apiEndpoint: string, bridgeContract: string)

  datatype ShieldedAddress = ShieldedAddress(address: string, kind: string)

  datatype TransferParams = TransferParams(fromChain: Option<string>, toChain: Option<string>,
                                           amount: Option<Amount>, fromAddress: Option<string>,
                                           toAddress: Option<string>)

  datatype TransferReceipt = TransferReceipt(
    success: bool, transactionId: string, fromChain: Option<string>, toChain: Option<string>,
    amount: Amount, fromAddress: Option<string>, toAddress: string, status: string,
    estimatedCompletionTime: string, timestamp: string)

  datatype ShieldParams = ShieldParams(operationType: Option<string>, amount: Option<Amount>,
                                       fromAddress: Option<string>, toAddress: Option<string>,
                                       memo: Option<string>)

  datatype ShieldReceipt = ShieldReceipt(
    success: bool, operationType: Option<string>, transactionId: string, amount: Amount,
    fromAddress: Option<string>, toAddress: Option<string>, memo: string, status: string,
    timestamp: string)

  /** One mock history entry; `amount` is the drawn value before `toFixed(4)`. */
  datatype HistoryEntry = HistoryEntry(date: string, kind: string, amount: real, from: string,
                                       to: string, status: string, txId: string)

  datatype History = History(success: bool, transactions: seq<HistoryEntry>, filterType: string,
                             accountId: Option<string>)

  // ---------------------------------------------------------------------
  // The history catalogue: each entry kind and the filter that selects it.
  // ---------------------------------------------------------------------

  const NearToZcash := "NEAR \U{2192} Zcash"
  const ZcashToNear := "Zcash \U{2192} NEAR"
  const ShieldKind := "Zcash Shield"
  const DeshieldKind := "Zcash Deshield"

  /** Every kind the history knows, in listing order, with the filter value
      that selects it besides `'all'`. */
  const Catalog: seq<(string, string)> :=
    [(NearToZcash, "near-to-zcash"), (ZcashToNear, "zcash-to-near"),
     (ShieldKind, "shield"), (DeshieldKind, "shield")]

  /** The kinds a history request lists for `filter`. */
  function HistoryKinds(filter: string): seq<string>
  {
    SelectKinds(Catalog, filter)
  }

  /** What each filter value lists: all four kinds in order for `'all'`, one
      kind for each direction, both shield kinds for `'shield'`, and nothing
      for any other value. */
  lemma HistoryKindsByFilter(filter: string)
    ensures HistoryKinds("all") == [NearToZcash, ZcashToNear, ShieldKind, DeshieldKind]
    ensures HistoryKinds("near-to-zcash") == [NearToZcash]
    ensures HistoryKinds("zcash-to-near") == [ZcashToNear]
    ensures HistoryKinds("shield") == [ShieldKind, DeshieldKind]
    ensures filter !in {"all", "near-to-zcash", "zcash-to-near", "shield"} ==> HistoryKinds(filter) == []
  {
    HistoryKindsSpelled(filter);
    HistoryKindsSpelled("all");
    HistoryKindsSpelled("near-to-zcash");
    HistoryKindsSpelled("zcash-to-near");
    HistoryKindsSpelled("shield");
  }

  /** The catalogue walked entry by entry. */
  lemma {:induction false} HistoryKindsSpelled(filter: string)
    ensures HistoryKinds(filter) ==
      (if filter == "all" || filter == "near-to-zcash" then [NearToZcash] else []) +
      (if filter == "all" || filter == "zcash-to-near" then [ZcashToNear] else []) +
      (if filter == "all" || filter == "shield" then [ShieldKind, DeshieldKind] else [])
  {
    var c := Catalog;
    assert SelectKinds(c[4..], filter) == [];
    assert SelectKinds(c[3..], filter) == (if filter == "all" || filter == "shield" then [DeshieldKind] else []) + SelectKinds(c[3..][1..], filter);
    assert c[3..][1..] == c[4..];
    assert SelectKinds(c[2..], filter) == (if filter == "all" || filter == "shield" then [ShieldKind] else []) + SelectKinds(c[2..][1..], filter);
    assert c[2..][1..] == c[3..];
    assert SelectKinds(c[1..], filter) == (if filter == "all" || filter == "zcash-to-near" then [ZcashToNear] else []) + SelectKinds(c[1..][1..], filter);
    assert c[1..][1..] == c[2..];
    assert SelectKinds(c, filter) == (if filter == "all" || filter == "near-to-zcash" then [NearToZcash] else []) + SelectKinds(c[1..], filter);
  }

  /** The kinds of `entries`, in order. */
  function Kinds(entries: seq<HistoryEntry>): seq<string>
  {
    Map(entries, (e: HistoryEntry) => e.kind)
  }

  /** The shape an entry of each kind has for the account `account`: the
      account is the sender of NEAR-to-Zcash and the receiver of
      Zcash-to-NEAR transfers, whose other side is an abbreviated `zs1`
      address; shield and deshield move between the transparent and the
      shielded pool. */
  predicate WellFormedEntry(e: HistoryEntry, account: string)
  {
    e.status == "Completed" && 0.0 <= e.amount &&
    (e.kind == NearToZcash ==>
       e.from == account && StartsWith(e.to, "zs1") && |e.to| == 16 && e.amount < 5.0 && StartsWith(e.txId, "tx_")) &&
    (e.kind == ZcashToNear ==>
       e.to == account && StartsWith(e.from, "zs1") && |e.from| == 16 && e.amount < 3.0 && StartsWith(e.txId, "tx_")) &&
    (e.kind == ShieldKind ==>
       e.from == "Transparent" && e.to == "Shielded" && e.amount < 2.0 && StartsWith(e.txId, "zec_")) &&
    (e.kind == DeshieldKind ==>
       e.from == "Shielded" && e.to == "Transparent" && e.amount < 1.0 && StartsWith(e.txId, "zec_"))
  }

  /** Every entry of `entries` is well formed for `account`. */
  predicate AllWellFormed(entries: seq<HistoryEntry>, account: string)
  {
    forall e :: e in entries ==> WellFormedEntry(e, account)
  }

  /** Appending one well-formed entry extends the kinds by its kind and keeps
      every entry well formed. */
  lemma Appended(entries: seq<HistoryEntry>, e: HistoryEntry, account: string)
    requires AllWellFormed(entries, account) && WellFormedEntry(e, account)
    ensures Kinds(entries + [e]) == Kinds(entries) + [e.kind]
    ensures AllWellFormed(entries + [e], account)
  {
  }

  /** `'zs1'` + ten drawn hex digits + `'...'`. */
  function AbbreviatedAddress(rand: Random, start: nat): (a: string)
    ensures StartsWith(a, "zs1") && |a| == 16
  {
    "zs1" + HexDigits(rand, start, 10) + "..."
  }

  /** The NEAR-to-Zcash entry, drawing its amount and then ten hex digits. */
  function NearToZcashEntry(account: string, nowMs: nat, isoOf: int -> string, rand: Random, next: nat): (e: HistoryEntry)
    ensures e.kind == NearToZcash && WellFormedEntry(e, account)
  {
    HistoryEntry(isoOf(nowMs - 3600000), NearToZcash, rand(next) * 5.0, account, AbbreviatedAddress(rand, next + 1),
                 "Completed", "tx_" + IntToString(nowMs - 3600000))
  }

  /** The Zcash-to-NEAR entry, drawing its amount and then ten hex digits. */
  function ZcashToNearEntry(account: string, nowMs: nat, isoOf: int -> string, rand: Random, next: nat): (e: HistoryEntry)
    ensures e.kind == ZcashToNear && WellFormedEntry(e, account)
  {
    HistoryEntry(isoOf(nowMs - 7200000), ZcashToNear, rand(next) * 3.0, AbbreviatedAddress(rand, next + 1), account,
                 "Completed", "tx_" + IntToString(nowMs - 7200000))
  }

  function ShieldEntry(account: string, nowMs: nat, isoOf: int -> string, rand: Random, next: nat): (e: HistoryEntry)
    ensures e.kind == ShieldKind && WellFormedEntry(e, account)
  {
    HistoryEntry(isoOf(nowMs - 10800000), ShieldKind, rand(next) * 2.0, "Transparent", "Shielded",
                 "Completed", "zec_" + IntToString(nowMs - 10800000))
  }

  function DeshieldEntry(account: string, nowMs: nat, isoOf: int -> string, rand: Random, next: nat): (e: HistoryEntry)
    ensures e.kind == DeshieldKind && WellFormedEntry(e, account)
  {
    HistoryEntry(isoOf(nowMs - 14400000), DeshieldKind, rand(next) * 1.0, "Shielded", "Transparent",
                 "Completed", "zec_" + IntToString(nowMs - 14400000))
  }

  /** A `ZcashService` object. */
  class ZcashService {
    const zcashApiUrl: string
    const zcashNetwork: string
    const bridgeContractId: string
    var isInitialized: bool

    /** The service starts closed; each setting is the passed key or its
        default. */
    constructor (config: ZcashConfig)
      ensures !isInitialized
      ensures zcashApiUrl == Setting(config.zcashApiUrl, "https://api.lightwalletd.com")
      ensures zcashNetwork == Setting(config.zcashNetwork, "testnet")
      ensures bridgeContractId == Setting(config.bridgeContractId, "zcash-bridge.testnet")
    {
      zcashApiUrl := Setting(config.zcashApiUrl, "https://api.lightwalletd.com");
      zcashNetwork := Setting(config.zcashNetwork, "testnet");
      bridgeContractId := Setting(config.bridgeContractId, "zcash-bridge.testnet");
      isInitialized := false;
    }

    /** `initialize`: opens the gate and reports true. */
    method Initialize() returns (ok: bool)
      modifies this
      ensures isInitialized && ok
    {
      isInitialized := true;
      ok := true;
    }

    /** `getStatus`, available in every state. */
    function GetStatus(): (s: ServiceStatus)
      reads this
      ensures s.isInitialized == isInitialized && s.bridgeStatus == "operational"
      ensures s.network == zcashNetwork && s.apiEndpoint == zcashApiUrl && s.bridgeContract == bridgeContractId
    {
      ServiceStatus(isInitialized, zcashNetwork, "operational", zcashApiUrl, bridgeContractId)
    }

    /** `generateAddress`: a shielded address, `zs1` followed by thirty hex
        digits, one per draw `rand(start)`, `rand(start + 1)`, .... */
    function GenerateAddress(rand: Random, start: nat): (r: Result<ShieldedAddress, string>)
      reads this
      ensures r.Err? <==> !isInitialized
      ensures r.Err? ==> r.error == NotInitialized
      ensures r.Ok? ==> r.value.kind == "shielded" && |r.value.address| == 33 && StartsWith(r.value.address, "zs1")
      ensures r.Ok? ==> forall i :: 3 <= i < 33 ==>
        IsDigitOf(r.value.address[i], 16) && DigitValue(r.value.address[i]) == Scale(rand(start + i - 3), 16)
    {
      if !isInitialized then Err(NotInitialized)
      else
        var digits := HexDigits(rand, start, 30);
        var address := "zs1" + digits;
        assert forall i :: 3 <= i < 33 ==> address[i] == digits[i - 3];
        Ok(ShieldedAddress(address, "shielded"))
    }

    /** `transferAssets`: the gate, then the amount, then the recipient; a
        pending receipt whose id is `tx_` and the time. */
    function TransferAssets(p: TransferParams, nowMs: nat, isoNow: string): (r: Result<TransferReceipt, string>)
      reads this
      ensures !isInitialized ==> r == Err(NotInitialized)
      ensures isInitialized && !AmountAccepted(p.amount) ==> r == Err(InvalidAmount)
      ensures isInitialized && AmountAccepted(p.amount) && !Truthy(p.toAddress) ==> r == Err(RecipientRequired)
      ensures r.Ok? <==> isInitialized && AmountAccepted(p.amount) && Truthy(p.toAddress)
      ensures r.Ok? ==>
        r.value.success && r.value.status == "pending" &&
        r.value.estimatedCompletionTime == "10-30 minutes" &&
        r.value.transactionId == "tx_" + NatToString(nowMs, 10) && r.value.timestamp == isoNow &&
        Some(r.value.amount) == p.amount && Some(r.value.toAddress) == p.toAddress &&
        r.value.fromAddress == p.fromAddress && r.value.fromChain == p.fromChain && r.value.toChain == p.toChain
    {
      if !isInitialized then Err(NotInitialized)
      else if !AmountAccepted(p.amount) then Err(InvalidAmount)
      else if !Truthy(p.toAddress) then Err(RecipientRequired)
      else Ok(TransferReceipt(true, "tx_" + NatToString(nowMs, 10), p.fromChain, p.toChain, p.amount.value,
                              p.fromAddress, p.toAddress.value, "pending", "10-30 minutes", isoNow))
    }

    /** `executeShieldedTransaction`: the gate, then the amount, then a
        recipient for `'deshield'` and `'private'` only; a confirmed receipt
        whose recipient falls back to the sender and whose memo is only
        reported as present or absent. */
    function ExecuteShieldedTransaction(p: ShieldParams, nowMs: nat, isoNow: string): (r: Result<ShieldReceipt, string>)
      reads this
      ensures !isInitialized ==> r == Err(NotInitialized)
      ensures isInitialized && !AmountAccepted(p.amount) ==> r == Err(InvalidAmount)
      ensures isInitialized && AmountAccepted(p.amount) && NeedsRecipient(p.operationType) && !Truthy(p.toAddress) ==>
        r == Err(RecipientRequiredForOperation)
      ensures r.Ok? <==> isInitialized && AmountAccepted(p.amount) &&
                          (NeedsRecipient(p.operationType) ==> Truthy(p.toAddress))
      ensures r.Ok? ==>
        r.value.success && r.value.status == "confirmed" &&
        r.value.transactionId == "zec_" + NatToString(nowMs, 10) && r.value.timestamp == isoNow &&
        Some(r.value.amount) == p.amount && r.value.operationType == p.operationType &&
        r.value.fromAddress == p.fromAddress &&
        r.value.toAddress == (if Truthy(p.toAddress) then p.toAddress else p.fromAddress) &&
        r.value.memo == (if Truthy(p.memo) then "Encrypted" else "None")
    {
      if !isInitialized then Err(NotInitialized)
      else if !AmountAccepted(p.amount) then Err(InvalidAmount)
      else if NeedsRecipient(p.operationType) && !Truthy(p.toAddress) then Err(RecipientRequiredForOperation)
      else Ok(ShieldReceipt(true, p.operationType, "zec_" + NatToString(nowMs, 10), p.amount.value,
                            p.fromAddress, if Truthy(p.toAddress) then p.toAddress else p.fromAddress,
                            if Truthy(p.memo) then "Encrypted" else "None", "confirmed", isoNow))
    }

    /** `getTransactionHistory`: behind the gate, the mock entries the
        filter selects (`'all'` when no filter is passed), appended one by
        one in catalogue order, each well formed for the account (or
        `example.near`). The draws are consumed from `rand(start)` on, in
        the order the entries evaluate them. */
    method GetTransactionHistory(filterType: Option<string>, accountId: Option<string>,
                                 nowMs: nat, isoOf: int -> string, rand: Random, start: nat)
      returns (r: Result<History, string>)
      ensures !isInitialized ==> r == Err(NotInitialized)
      ensures isInitialized ==> r.Ok?
      ensures r.Ok? ==>
        r.value.success && r.value.filterType == Setting(filterType, "all") &&
        r.value.accountId == accountId
      ensures r.Ok? ==> Kinds(r.value.transactions) == HistoryKinds(Setting(filterType, "all"))
      ensures r.Ok? ==> AllWellFormed(r.value.transactions, OrElse(accountId, DefaultAccount))
    {
      if !isInitialized {
        return Err(NotInitialized);
      }
      var filter := Setting(filterType, "all");
      var account := OrElse(accountId, DefaultAccount);
      var transactions: seq<HistoryEntry> := [];
      ghost var kinds: seq<string> := [];
      var next := start;
      if filter == "all" || filter == "near-to-zcash" {
        var e := NearToZcashEntry(account, nowMs, isoOf, rand, next);
        Appended(transactions, e, account);
        transactions, kinds := transactions + [e], kinds + [NearToZcash];
        next := next + 11;
      }
      assert Kinds(transactions) == kinds && AllWellFormed(transactions, account);
      if filter == "all" || filter == "zcash-to-near" {
        var e := ZcashToNearEntry(account, nowMs, isoOf, rand, next);
        Appended(transactions, e, account);
        transactions, kinds := transactions + [e], kinds + [ZcashToNear];
        next := next + 11;
      }
      assert Kinds(transactions) == kinds && AllWellFormed(transactions, account);
      if filter == "all" || filter == "shield" {
        var e := ShieldEntry(account, nowMs, isoOf, rand, next);
        Appended(transactions, e, account);
        transactions, kinds := transactions + [e], kinds + [ShieldKind];
        e := DeshieldEntry(account, nowMs, isoOf, rand, next + 1);
        Appended(transactions, e, account);
        transactions, kinds := transactions + [e], kinds + [DeshieldKind];
        next := next + 2;
      }
      assert Kinds(transactions) == kinds && AllWellFormed(transactions, account);
      HistoryKindsSpelled(filter);
      r := Ok(History(true, transactions, filter, accountId));
    }
  }

  /** `'deshield'` and `'private'` need a recipient. */
  predicate NeedsRecipient(operationType: Option<string>)
  {
    operationType == Some("deshield") || operationType == Some("private")
  }

  /** A freshly built service refuses every gated operation, and after
      `initialize` a valid transfer goes through. */
  method GateOpensOnlyOnInitialize(config: ZcashConfig, p: TransferParams, nowMs: nat, isoNow: string)
    returns (before: Result<TransferReceipt, string>, after: Result<TransferReceipt, string>)
    requires AmountAccepted(p.amount) && Truthy(p.toAddress)
    ensures before == Err(NotInitialized)
    ensures after.Ok? && after.value.status == "pending"
  {
    var service := new ZcashService(config);
    before := service.TransferAssets(p, nowMs, isoNow);
    var _ := service.Initialize();
    after := service.TransferAssets(p, nowMs, isoNow);
  }
}
