# Zecret Banker: a Dafny model of the agent's decision layer

Zecret Banker is a Node.js service that fronts an AI agent and three
cross-chain back-ends: NEAR intents, a Zcash bridge and Secret Network. This
project models the part of it that decides things. The network, chain and
signing calls themselves are not modelled. What is modelled:

- the AI engine (`AIUtils`): its live/simulated mode flag, the fall-back from
  a failing live call to the simulation, and the keyword classifiers that
  produce simulated answers and insights;
- the agent façade (`AgentService`): start-up that never fails, auth-token
  provisioning, the closed action dispatch, the simulated transaction
  receipt and the status report;
- the Zcash and Secret Network executors: the initialisation gate, the
  order in which parameters are validated, result records, filtered mock
  histories, viewing keys, the computation switch and the contract-query
  table;
- NEAR intent construction (`NearIntentsUtils`): signed-in check, then
  validation, then exactly one `create_intent` call; the receiver table;
  defaults and deposits;
- auth-token generation and cookie parsing (`NearAuthHelper`).

Everything outside the process is an explicit input:

- `Date.now()` is `nowMs`, and ISO time strings are `isoNow` or `isoOf`.
- `Math.random()` is a stream of draws in [0, 1).
- `process.env` is an immutable `Env` record.
- `JSON.parse`/`JSON.stringify` and `decodeURIComponent` are supplied
  functions.
- Each near-api-js call and each live HTTP call is an outcome value: the
  result, or the error it throws.

Files:

| file | module | models |
|---|---|---|
| common.dfy | `Common` | JavaScript truthiness and `\|\|` defaults, `includes`/`startsWith`/`toLowerCase` (ASCII), `toString(base)` with its inverse, `padStart`, JSON values, draws, amount checks, config spreading |
| config.dfy | `Config` | the environment record and the fixed NEAR AI constants |
| ai.dfy | `AI` | src/ai/aiUtils.js |
| near_auth.dfy | `NearAuth` | src/ai/nearAuthHelper.js (and the token check of index.js) |
| agent.dfy | `Agent` | src/services/agentService.js |
| zcash.dfy | `Zcash` | src/services/zcashService.js |
| secret_network.dfy | `SecretNetwork` | src/services/secretNetworkService.js |
| intents.dfy | `Intents` | src/blockchain/nearIntentsUtils.js |

Where the code and its documentation disagree, the model follows the code:

- A non-numeric amount such as `"abc"` passes the services' amount check,
  because `parseFloat` gives NaN and `NaN <= 0` is false (`Common.AmountAccepted`).
- A configuration key passed to a service constructor overrides the default
  even when it is empty, because `...config` is spread after the defaults
  (`Common.Setting`).
- `availableModels` is always `['simulation']`.
- `generateAuthToken` connects and loads the account *before* it looks at a
  pre-configured token, so a connection failure gives null even when a valid
  token is configured.

## Model

| member | source | states |
|---|---|---|
| AI.AIUtils.constructor | src/ai/aiUtils.js:8-28 | the engine is live iff the token is truthy and `USE_ACTUAL_API` is exactly `'true'`; the endpoint defaults to the NEAR AI base URL; the header and the flag are consistent with the token (`Valid`) |
| AI.AIUtils.SetAuthToken | src/ai/aiUtils.js:34-43 | the token is stored as given; a falsy token turns live mode off and removes the header whatever the flag; a truthy one makes live mode equal to the flag |
| AI.AIUtils.ProcessQuery | src/ai/aiUtils.js:50-68 | the live answer only in live mode when the call succeeds; otherwise exactly `simulateAIResponse(prompt)`, so a failing live call never reaches the caller |
| AI.AIUtils.AnalyzeData | src/ai/aiUtils.js:112-131 | the same fall-back for analyses, to exactly `simulateDataAnalysis(data)` |
| AI.AIUtils.GetModels | src/ai/aiUtils.js:173-189 | outside live mode the single `simulation` descriptor; in live mode the `models` list, `[]` when absent, and a request error passed on |
| AI.ClearedTokenSimulates | src/ai/aiUtils.js:34-56 | after `setAuthToken` with no token every query is answered by the simulation, whatever the flag and the live outcome |
| AI.FirstMatchIsFirst | src/ai/aiUtils.js:203-235 | in a keyword classifier the first rule that matches decides, whatever later rules say |
| AI.FirstMatchNone | src/ai/aiUtils.js:227-235 | when no rule matches the classifier gives its fall-back answer |
| AI.PromptBranch | src/ai/aiUtils.js:203-227 | the if-chain over the lower-cased prompt takes the branch of the first matching rule of the rule table (near/blockchain, price/value, help/capabilities, else echo) |
| AI.SimulateAIResponse | src/ai/aiUtils.js:197-238 | every simulated answer is of type text from model `simulation`; its confidence and content are those of the prompt's topic in the rule table |
| AI.NearPromptsGetProtocolAnswer | src/ai/aiUtils.js:203-210 | any prompt containing `near` in any letter case gets the protocol answer with confidence 0.92 |
| AI.PricePromptsGetDisclaimer | src/ai/aiUtils.js:211-218 | a price or value prompt without `near` or `blockchain` gets the no-price-data answer with confidence 0.85 |
| AI.EchoExactlyWithoutKeywords | src/ai/aiUtils.js:227-234 | the confidence is 0.70 exactly when none of the six keywords occurs, and then the answer contains the prompt |
| AI.CaseInsensitive | src/ai/aiUtils.js:203-219 | prompts that lower-case alike get the same topic and confidence |
| AI.TellMeAboutNear | scripts/test-agent.js:23-28 | the query `Tell me about NEAR Protocol` gets the NEAR answer with confidence 0.92 |
| AI.InsightFor | src/ai/aiUtils.js:272-308 | every insight set has exactly two insights and two recommendations |
| AI.DataBranch | src/ai/aiUtils.js:270-296 | the if-chain over the lower-cased serialised data takes the branch of the first matching rule (transaction/tx, user/account, else general) |
| AI.GenerateInsight | src/ai/aiUtils.js:268-309 | the insight set of the data's topic in the rule table, always two insights and two recommendations |
| AI.TransactionDataFirst | src/ai/aiUtils.js:272-283 | data mentioning `transaction` or `tx` is a transaction-pattern analysis even when it also mentions users or accounts |
| AI.SimulateDataAnalysis | src/ai/aiUtils.js:246-260 | for any draw the confidence lies in [0.65, 0.95); the model is `simulation`; the summary, insights and recommendations are those of `generateInsight` |
| NearAuth.NormalizeKey | src/ai/nearAuthHelper.js:29-34 | the parsed key always carries `ed25519:`; it is prepended exactly when missing |
| NearAuth.NormalizeKeyIdempotent | src/ai/nearAuthHelper.js:29-34 | normalising a key twice is normalising it once |
| NearAuth.Nonce | src/ai/nearAuthHelper.js:49 | the nonce is all decimal digits, of length max(32, digits of the time), and reads back as the time |
| NearAuth.NonceInjective | src/ai/nearAuthHelper.js:49 | different times give different nonces |
| NearAuth.PreConfiguredStep | src/ai/nearAuthHelper.js:62-76 | an unparseable token falls through; an object already naming the account is returned verbatim; any other object or array is rebound |
| NearAuth.ReboundKeepsSignature | src/ai/nearAuthHelper.js:66-69 | rebinding overwrites only `account_id` and keeps every other field, the signature included (no re-signing) |
| NearAuth.GenerateAuthToken | src/ai/nearAuthHelper.js:16-122 | which outcome each input gives, in priority order: missing credentials give null; a failing key parse or connection gives null, even when a valid pre-configured token is set; otherwise a pre-configured token that parses as an object or array decides; otherwise a good signature gives a signed token over the normalised key and the nonce, and a failed signature gives the placeholder token |
| NearAuth.MatchingPreConfiguredIsVerbatim | src/ai/nearAuthHelper.js:62-72 | a pre-configured token that already names the account comes back exactly as configured |
| NearAuth.BuiltTokenIsStructurallyValid | index.js:286-289 | a generated token, signed or with the placeholder signature, passes the token check (truthy `account_id`, `public_key`, `signature`, `message`) |
| NearAuth.PlaceholderDiffersOnlyInSignature | src/ai/nearAuthHelper.js:89-113 | the placeholder token has the same fields as a signed one and differs only in `signature` |
| NearAuth.UpToSemicolon | src/ai/nearAuthHelper.js:157 | the captured value is the longest prefix without `;` |
| NearAuth.AuthCookieMatch | src/ai/nearAuthHelper.js:157-158 | the capture of `/auth:([^;]+)/` is non-empty and holds no `;` |
| NearAuth.StripQuotesInverse | src/ai/nearAuthHelper.js:164 | a value wrapped in double quotes loses exactly those quotes; an unquoted value is unchanged |
| NearAuth.ExtractAuthTokenFromCookie | src/ai/nearAuthHelper.js:154-174 | null for an empty cookie, for no `auth:` value and for a decoding failure; otherwise the decoded capture without its quotes |
| NearAuth.CookieRoundTrip | src/ai/nearAuthHelper.js:154-174 | a cookie `auth:<v>` or `auth:<v>;<rest>` yields the decoded `v`, whatever follows |
| NearAuth.UpToSemicolonPrefix | src/ai/nearAuthHelper.js:157 | the capture stops exactly at the first `;` after the value |
| Agent.HandleTransaction | src/services/agentService.js:111-131 | every transaction gives a successful `SuccessValue` receipt whatever the credentials; the hash is `simulated_tx_` and the time in base 36, which reads back as the time; the gas is below 10 000 000 |
| Agent.AuthStep | src/services/agentService.js:46-80 | a pre-configured token is taken first; otherwise the credentials generate one (null when generation fails); otherwise the token is unchanged |
| Agent.NearUtilsInitializeNear | src/services/agentService.js:23 | the connection step as written always throws (see Findings) |
| Agent.AgentService.constructor | src/services/agentService.js:8-18 | no connection, no token, not live; the engine is built with no token |
| Agent.AgentService.InitializeNearAIAuth | src/services/agentService.js:46-80 | the new token is `AuthStep`'s; the engine receives a pre-configured token, or a generated token only when it is truthy |
| Agent.AgentService.Initialize | src/services/agentService.js:20-40 | never fails; when the connection step throws nothing changes (so not live); otherwise auth runs only with the flag `'true'`, and the agent is live iff it then holds a truthy token and the flag is `'true'`, in agreement with the engine |
| Agent.AgentService.GetStatus | src/services/agentService.js:156-190 | mode `api` iff live; both configured flags iff a truthy token; `availableModels` is always `['simulation']`; account and model fall back to `none` and `simulation` |
| Agent.AgentService.ProcessAction | src/services/agentService.js:82-150 | exactly `query`, `transact`, `analyze` and `status` succeed when `params` is present, each with its handler's result; without `params` the first three fail with the destructuring TypeError and `status` still reports; any other action fails with `Unknown action: <action>` |
| Agent.DestructureError | src/services/agentService.js:97 | the error of a handler destructuring an absent `params` is a TypeError |
| Agent.StartAgent | src/services/agentService.js:20-40 | with a working connection step the reported mode is the engine's, `api` iff connected, flag `'true'` and a truthy token |
| Agent.StartAgentAsWritten | src/services/agentService.js:23 | as written the agent always reports simulation mode, unconnected and unconfigured |
| Agent.StartAgentLive | src/services/agentService.js:27-34 | with a working connection step, the flag `'true'` and a parseable pre-configured token, the agent reports `api` mode |
| Zcash.ZcashService.constructor | src/services/zcashService.js:12-22 | the service starts uninitialised; each setting is the passed key or its default |
| Zcash.ZcashService.Initialize | src/services/zcashService.js:27-41 | opens the gate and returns true |
| Zcash.ZcashService.GetStatus | src/services/zcashService.js:46-54 | available in every state; reports the gate and the settings; bridge status `operational` |
| Zcash.ZcashService.GenerateAddress | src/services/zcashService.js:59-73 | fails with `Zcash service not initialized` iff closed; otherwise a shielded address of 33 characters: `zs1` and thirty hex digits, one per draw |
| Zcash.ZcashService.TransferAssets | src/services/zcashService.js:78-110 | the gate, then `Invalid amount`, then `Recipient address is required`; succeeds iff all pass; a pending receipt `tx_<time>` echoing the parameters |
| Zcash.ZcashService.ExecuteShieldedTransaction | src/services/zcashService.js:115-146 | the gate, then the amount, then a recipient required only for `deshield` and `private`; the recipient falls back to the sender; memo `Encrypted` or `None`; status `confirmed` |
| Zcash.ZcashService.GetTransactionHistory | src/services/zcashService.js:151-217 | behind the gate; the kinds listed are exactly those the filter selects from the catalogue, in order; every entry is completed and well formed, with the account (default `example.near`) on the NEAR side |
| Zcash.HistoryKindsByFilter | src/services/zcashService.js:165-209 | `all` lists 4 kinds in the order NEAR→Zcash, Zcash→NEAR, shield, deshield; each direction 1; `shield` 2; any other filter 0 |
| Zcash.HistoryKindsSpelled | src/services/zcashService.js:165-209 | the catalogue selection equals the three filter tests of the source in order |
| Zcash.AbbreviatedAddress | src/services/zcashService.js:171 | the other side of a transfer entry is `zs1`, ten hex digits and `...` |
| Zcash.GateOpensOnlyOnInitialize | src/services/zcashService.js:20-36 | a fresh service refuses a transfer and accepts the same valid transfer after `initialize` |
| SecretNetwork.SecretNetworkService.constructor | src/services/secretNetworkService.js:12-23 | the service starts uninitialised; each setting is the passed key or its default |
| SecretNetwork.SecretNetworkService.Initialize | src/services/secretNetworkService.js:28-42 | opens the gate and returns true |
| SecretNetwork.SecretNetworkService.GetStatus | src/services/secretNetworkService.js:47-56 | available in every state; privacy `active`, enclave `operational` |
| SecretNetwork.SecretNetworkService.GenerateViewingKey | src/services/secretNetworkService.js:61-76 | fails iff closed; the key is `api_key_` and two random parts, and it passes the history's key check |
| SecretNetwork.GeneratedKeyIsValid | src/services/secretNetworkService.js:69 | every generated key passes the history's key check |
| SecretNetwork.GeneratedKeyShape | src/services/secretNetworkService.js:68-69 | a generated key is `api_key_` followed by at most 26 base-36 digits |
| SecretNetwork.CheckAcceptsUngeneratedKeys | src/services/secretNetworkService.js:252 | the history's key check is only a prefix test: it accepts `api_key_!`, which no generated key equals |
| SecretNetwork.SecretNetworkService.ExecutePrivateSwap | src/services/secretNetworkService.js:81-114 | the gate, then the amount, then the recipient; privacy `maximum` iff requested, else `standard`; a pending receipt `secret_tx_<time>` |
| SecretNetwork.GasUsed | src/services/secretNetworkService.js:174 | gas is never 0: a zero or missing product gives 50000; for a positive limit it is 50000 or in [1, limit) |
| SecretNetwork.ComputationOutputFor | src/services/secretNetworkService.js:136-167 | three known types with their result shapes; every other type gets `completed` with `sealed_data_<time>` |
| SecretNetwork.SecretNetworkService.ExecutePrivateComputation | src/services/secretNetworkService.js:119-178 | the gate, then a required type; any type succeeds, always with `success` and `executedInTEE`; result and gas as above |
| SecretNetwork.PrivateTxs | src/services/secretNetworkService.js:216-222 | five private transactions with statuses completed, pending, completed, completed, failed |
| SecretNetwork.Responses | src/services/secretNetworkService.js:204-226 | the reply table has exactly three queries; the balance reply is in `SCRT` |
| SecretNetwork.SecretNetworkService.QueryEncryptedContract | src/services/secretNetworkService.js:183-236 | the gate, then the contract address, then the query; the reply is the table entry, or the default `query_processed` reply for any other query |
| SecretNetwork.QueryTableDefault | src/services/secretNetworkService.js:204-232 | exactly the queries outside the three table keys get the default reply |
| SecretNetwork.SecretNetworkService.GetPrivateTransactionHistory | src/services/secretNetworkService.js:241-316 | behind the gate; without a valid key only `Invalid viewing key`, `success` false and public data; with one, the kinds the filter selects in order, each completed and encrypted, at privacy `maximum` |
| SecretNetwork.HistoryKindsByFilter | src/services/secretNetworkService.js:270-306 | `all` lists 3 kinds; each of the three specific filters 1; any other filter 0 |
| SecretNetwork.HistoryKindsSpelled | src/services/secretNetworkService.js:270-306 | the catalogue selection equals the three filter tests of the source in order |
| SecretNetwork.GeneratedKeyUnlocksHistory | src/services/secretNetworkService.js:61-264 | a key generated by an initialised service unlocks that service's history |
| Intents.IntentId | src/blockchain/nearIntentsUtils.js:136 | an intent id starts with the time in decimal and `-`, and that prefix reads back as the time |
| Intents.Submit | src/blockchain/nearIntentsUtils.js:122-137 | exactly the one transaction is sent; the receipt exists iff the submission succeeds and carries its hash and status `intent_created` |
| Intents.NearIntentsUtils.constructor | src/blockchain/nearIntentsUtils.js:11-35 | nothing connected or signed in; settings are the passed keys or defaults; bridge contracts fall back when falsy |
| Intents.NearIntentsUtils.Initialize | src/blockchain/nearIntentsUtils.js:40-69 | as written the account is never set: a failing connection is rethrown, and in a browser the wallet construction throws (see Findings) |
| Intents.NearIntentsUtils.InitializeIntended | src/blockchain/nearIntentsUtils.js:52-61 | corrected: in a browser the wallet is created and a signed-in user's account is set |
| Intents.NearIntentsUtils.CreateBridgeToZcashIntent | src/blockchain/nearIntentsUtils.js:79-138 | sign-in, then amount and receiver, then the amount conversion (an unreadable amount throws its error), all before anything is sent; something is sent iff all pass; then exactly one `create_intent` (bridge to zcash, the converted amount, 100 TGas, 0.01 NEAR) to `bridge.intent.near`; the receipt echoes the parameters with `!!shielded` |
| Intents.NearIntentsUtils.CreateBridgeToSecretIntent | src/blockchain/nearIntentsUtils.js:148-196 | the same order, conversion error and shape, bridging to secret with `!!encrypted` |
| Intents.NearIntentsUtils.CreatePrivateSwapIntent | src/blockchain/nearIntentsUtils.js:208-264 | sign-in, then tokens and amount, then for NEAR the amount conversion, whose error sends nothing; one `create_intent` swap to `swap.intent.near`; the amount is converted only from NEAR; `minAmountOut` defaults to `'0'` and `privacyLevel` to `'standard'` in the call and the receipt |
| Intents.SwapDeposit | src/blockchain/nearIntentsUtils.js:221-242 | swapping NEAR attaches the converted amount; any other token attaches 0.01 NEAR |
| Intents.QueryIntentStatus | src/blockchain/nearIntentsUtils.js:271-298 | an id is required; the status is one of the four; details exist iff the status is `completed` |
| Intents.AsWrittenNeverSignsIn | src/blockchain/nearIntentsUtils.js:40-82 | as written, after construction and initialisation every create call fails with `User must be signed in` and sends nothing |
| Intents.IntendedSignInCreates | src/blockchain/nearIntentsUtils.js:52-137 | with the corrected initialisation a signed-in user's bridge intent with a readable amount is created, as one `create_intent` to the bridge receiver |

## Left out

- Network, chain and signing calls are not modelled: axios requests, near-api-js `connect`, key stores, `KeyPair.fromString`/`sign`, `signAndSendTransaction` and `parseNearAmount`. Each is an outcome parameter (`Ok` value or the error thrown). Which texts `parseNearAmount` rejects (more than one `.`, more than 24 fractional digits) is near-api-js's rule and is not spelled out; any rejection is modelled.
- The `setTimeout` delays, console logging and `async` scheduling are left out: each operation is one step.
- Randomness is a stream of draws. The exact draw order follows the source. The rendering of drawn numbers is not modelled: `toFixed`, and `Math.random().toString(36).substring(...)`, which is a parameter `randomKey`/`idSuffix`. Amounts in mock entries are the drawn reals before `toFixed`.
- Several `Date.now()` calls within one operation are assumed to see the same time. ISO rendering is a supplied function.
- `toLowerCase` is modelled on ASCII letters only.
- A missing prompt or data (`undefined`) inside a present `params` would make the simulation throw a TypeError inside the engine. The model takes a string, so that path is not modelled. An absent `params` is modelled.
- AI.SimulateDataAnalysis: the confidence `Math.random() * 0.3 + 0.65` is computed over reals, where it stays below 0.95. In doubles the largest draw, 1 - 2^-53, rounds to exactly 0.95, so the source can reach the bound that the model excludes.
- Randomly generated key parts are any text of at most thirteen base-36 digits; which digits `toString(36)` gives for a particular double is not modelled.
- `JSON.stringify(data)` is the caller's: `AnalyzeData` receives the serialised text.
- The live-call helpers `callNearAIQuery` and `callNearAIAnalysis` are not modelled; each is an outcome parameter.
- The background model refresh in `getStatus` is not modelled, because it only reassigns a local after the object has been returned.
- The agent's catch blocks at agentService.js:76-79 and 97-150 are not modelled. Every callee in the model is total, so they cannot fire.
- `queryEncryptedContract` looks up an own table entry only. A query equal to an `Object.prototype` key such as `constructor` would find that inherited property in JavaScript.
- Amounts are a text plus what `parseFloat` reads (None for NaN). `gasLimit` is an integer, or None for absent or non-numeric.
- A config key passed explicitly as `undefined` would also override a default. The model treats it as not passed.
- Flags such as `shielded`, `encrypted` and `usePrivacy` are booleans or absent. Other truthy values are not modelled.
- `NearUtils` (src/blockchain/nearUtils.js), `nearAuthClient.js`, `index.js` routing and `simple-server.js` are not part of this model. The one exception is the token check of index.js:286-289 (`NearAuth.StructurallyValid`).
- `NearIntentsUtils` keeps a key store (`keyStore`). It is not modelled, because it only feeds `connect`.

## Findings

| source | as written | input that shows it | evidently intended | confidence | as-written member | corrected member |
|---|---|---|---|---|---|---|
| src/services/agentService.js:23 | calls `NearUtils.initializeNear`, a static method that `NearUtils` does not have (it has only instance methods), so the call always throws a TypeError and `initialize` always ends in its catch | `USE_ACTUAL_API='true'` and a valid JSON `NEAR_AI_AUTH_TOKEN`: the agent still reports mode `simulation`, `connected: false`, no token | connect, then provision the token, then derive live mode | high, not executed | Agent.StartAgentAsWritten | Agent.StartAgentLive |
| src/blockchain/nearIntentsUtils.js:54 | uses `WalletConnection`, which the file never imports, so in a browser `initialize` throws after `near` is set; outside a browser nothing sets the account | any `initialize` followed by `createBridgeToZcashIntent` with valid parameters: always `User must be signed in` | create the wallet and set the signed-in user's account | high, not executed | Intents.AsWrittenNeverSignsIn | Intents.IntendedSignInCreates |
