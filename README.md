# Carbon-credit registry on XRPL: the mock backend and the mock wallet

This project models the in-memory core of a carbon-credit tokenization demo
that runs on the XRP Ledger. The core has three parts:

- **The mock backend.** It keeps six tables: batches, dynamic projects,
  the audit log, retirements, pre-authorised orders and tokenization
  requests. It offers the registry operations (initialise, create, save
  a project, change a batch's state, the double-issuance check), a
  hash-chained audit log, retirement anchoring with a one-leaf "merkle
  root", a holding area for pre-authorised orders, and a queue of
  tokenization requests.
- **The mock mode of the XRPL client.** This is the mock wallet (XRP
  balance, assets, trustlines, transactions, open orders) and the
  operations that change it: setting a trustline, AMM swaps, retiring
  tokens, cancelling an order, saving a draft, issuing a batch, and
  submitting and approving a tokenization request. It also covers the
  check of a scanned certificate.
- **The record and enum types** both parts use.

Modules, one per concern:

- `Types` (types.dfy): the enums and records of types.ts. It adds an
  `Error` datatype with one constructor per thrown message, plus `Option`
  and `Result`.
- `Js` (js.dfy): the JavaScript built-ins the code relies on.
  - Number formatting in template literals.
  - `slice(-n)` and `substring(0, n)`.
  - `findIndex`.
  - The `||` default idiom.
  - `parseInt`.
  - How `JSON.stringify` quotes a string.
- `AuditChain` (audit_chain.dfy): the chain invariant of the audit log, and
  the tamper-evidence theorem. For a collision-free hash, the head hash
  determines the length of the log and, for every entry, its event type,
  entity id, description and hashed ISO time. The entry `id` and the display
  `timestamp` are not hashed, so the chain does not protect them.
- `MockBackend` (mock_backend.dfy): the tables as fields of the class
  `Backend`. Its methods change them in place. The pure queries and the
  effects of the backend operations are specification functions.
- `WalletLedger` (wallet_ledger.dfy): what the wallet operations do to the
  asset list, as functions: `Credit`, `Debit`, `Swap`, `Refund`. It also
  holds their conservation and round-trip lemmas.
- `XrplApi` (xrpl_api.dfy): the configured `MOCK_PROJECTS`, and the class
  `Api`. `Api` owns the mock wallet's fields and the backend the module
  starts up with.

Conventions:

- **Money is integral.** XRP amounts and prices are in drops; one XRP is
  1,000,000 drops. So the trustline fee of 0.000012 XRP is exactly 12 drops
  and the demo price of 14.50 XRP is 14,500,000 drops. Token amounts are
  whole numbers.
- **Outside inputs are parameters.**
  - `sha256` is an arbitrary deterministic function `H: string -> string`,
    fixed when the backend is made.
  - Each operation reads the clock once: `Clock(millis, iso)` is
    `Date.now()` together with `toISOString()`.
  - Each random string (`Math.random().toString(36)...`) is a parameter.
- **The audit hash is an abstract digest.** `D` is fixed by the backend's
  constructor, which proves `HashesPayload(D, H)`: every stored hash is
  `H` of the JSON payload `{"eventType":…,"entityId":…,"description":…,"prevHash":…,"ts":…}`.
- **Ghost log timestamps.** An audit entry does not keep the timestamp text
  its payload hashed. The backend keeps those texts in the ghost field
  `stamps`, and `Backend.Valid()` states the chain over the entries and
  their stamps together.

How the model follows the code where it departs from the design:

- `updateBatchState` accepts any target state. There is no transition
  check.
- `fillPreAuth` and `approveRequest` do not look at the current status. A
  second fill or approval runs again; approving twice also mints twice.
- `PreAuthOrder.status` has no EXPIRED value.
- `checkDuplication`'s vintage clause is subsumed by its ticker clause. The
  answer is therefore "some batch has this ticker", whatever the vintage
  (`DuplicationIgnoresVintage`).
- `createBatch` uses `||` defaults, so an empty ticker becomes `TKN` and a
  zero tonnage stays 0.
- Cancelling a SELL order when the wallet has no entry for its ticker
  returns nothing to the wallet: the tokens are lost.
- The third configured project carries the second one's description. The
  model keeps it.

## Model

| member | source | states |
|---|---|---|
| Types.TokenStateHasSevenValues | types.ts:27-35 | the lifecycle has exactly seven distinct states, every state is one of them, and their string values are distinct |
| Js.NatToStringInjective | services/mockBackend.ts:155 | distinct clock readings give distinct `log-<now>` ids: decimal printing is injective |
| Js.IntToStringInjective | services/mockBackend.ts:179 | the amount printed into a retirement leaf determines the amount |
| Js.SliceLast | services/mockBackend.ts:174 | `slice(-n)` for `n > 0`, used as `slice(-6)`: the last six characters, or all of a shorter text |
| Js.Prefix | services/mockBackend.ts:195 | `substring(0,10)` keeps the first ten characters, or all of a shorter text |
| Js.IndexOf | services/mockBackend.ts:221 | `findIndex` answers the first position holding the key, and -1 (None) exactly when the key is absent |
| Js.OrString | services/mockBackend.ts:79-85 | `x \|\| d` on a string yields `x` when it is present and non-empty, and `d` otherwise |
| Js.OrNumber | services/mockBackend.ts:82 | `x \|\| d` on a number yields `x` when it is present and non-zero, and `d` otherwise |
| Js.ParseInt | services/xrplApi.ts:391 | the decimal reading of `parseInt`: a number exactly when decimal digits follow the optional sign; its magnitude is the value of the longest run of those digits, and it is negative only after a '-' and never positive after one |
| Js.DigitRunMaximal | services/xrplApi.ts:391 | `parseInt` reads the longest run of leading digits |
| Js.ParseIntOfNatToString | services/xrplApi.ts:391 | `parseInt` reads back every printed natural number |
| Js.ParseIntMinus | services/xrplApi.ts:391 | a '-' before decimal digits negates the value they read as |
| Js.ParseIntOfIntToString | services/xrplApi.ts:391 | `parseInt` reads back every printed integer, negative ones included |
| Js.UnescapeEscapeChar | services/mockBackend.ts:151 | each character's JSON escape reads back as that character, whatever follows |
| Js.EscapeCharPrefixFree | services/mockBackend.ts:151 | JSON character escapes form a prefix-free code |
| Js.EscapeThenQuote | services/mockBackend.ts:151 | a JSON-quoted string is recovered up to its closing quote |
| Js.MemberInjective | services/mockBackend.ts:151 | a JSON member determines its value and what follows it |
| AuditChain.PayloadInjective | services/mockBackend.ts:151 | the payload text determines eventType, entityId, description, prevHash and ts |
| AuditChain.PayloadDigestInjective | services/mockBackend.ts:150-152 | with a collision-free `sha256`, the stored hash determines all five payload fields |
| AuditChain.Append | services/mockBackend.ts:149-164 | the new entry is put in front and the older entries are unchanged; it carries the event's type, id and text, and its hash is the digest over the head's hash, or `GENESIS_HASH` for an empty log |
| AuditChain.AppendLinked | services/mockBackend.ts:150-163 | appending an entry keeps the hash chain |
| AuditChain.LinkedSuffix | services/mockBackend.ts:163 | the log as it stood before later appends is still a well-formed chain |
| AuditChain.ChainDetermined | services/mockBackend.ts:150-163 | for a collision-free digest that never yields the genesis constant, the head hash determines the length, events and timestamps of the whole chain |
| AuditChain.HashChainDetermined | services/mockBackend.ts:150-163 | the same tamper-evidence for the digest the log uses, `sha256` of the JSON payload |
| AuditChain.ChainAgreesOrCollides | services/mockBackend.ts:150-163 | without assuming `sha256` collision-free: two chains with the same head hash agree in length, events and timestamps, or the lemma returns two different payloads with equal hashes, or a payload hashing to the genesis constant |
| AuditChain.LinkedSameHash | services/mockBackend.ts:150-152 | the chain property depends on the digest only through the hash of the payload |
| MockBackend.BackendLogsDetermined | services/mockBackend.ts:149-163 | two valid backends with the same collision-free `sha256` and the same head hash hold the same events and hashed times |
| MockBackend.InitialBatches | services/mockBackend.ts:48-62 | one AUTHORIZED batch `<ticker>-2024-A` per configured project, in order, carrying its id, ticker and supply, with nothing issued |
| MockBackend.Backend.InitBatches | services/mockBackend.ts:48-62 | a non-empty batch table is left as it is; otherwise it is filled from the projects; nothing else changes |
| MockBackend.IsDuplicate | services/mockBackend.ts:67-75 | the double-issuance check is true exactly when some batch has the ticker |
| MockBackend.DuplicationIgnoresVintage | services/mockBackend.ts:67-75 | the check's answer does not depend on the vintage |
| MockBackend.Backend.CheckDuplication | services/mockBackend.ts:67-75 | true exactly when some batch has the ticker |
| MockBackend.NewBatch | services/mockBackend.ts:77-89 | the `\|\|` defaults `NEW-<now>`, `proj-new`, `TKN`, 0 and ISSUED; no tons issued; no MRV reports |
| MockBackend.Backend.CreateBatch | services/mockBackend.ts:77-93 | the new batch is put in front, the ticker then counts as a duplicate, and exactly one ISSUANCE entry is logged |
| MockBackend.Upsert | services/mockBackend.ts:97-103 | the entry for the project id is replaced, or appended when there is none; every other entry is kept; nothing else is added; one entry per id is preserved |
| MockBackend.PublicProjects | services/mockBackend.ts:122-126 | the public list holds exactly the projects of non-DRAFT entries |
| MockBackend.PublicProjectsInOrder | services/mockBackend.ts:122-126 | the public list keeps the table's order: it is taken entry by entry, so a concatenation's list is the concatenation of the lists |
| MockBackend.PublicProjectsSingle | services/mockBackend.ts:122-126 | a single entry is listed exactly when it is not a DRAFT |
| MockBackend.PublicProjectsExcludeDrafts | services/mockBackend.ts:122-126 | with one entry per id, a project stored as DRAFT is never public |
| MockBackend.UpsertPublic | services/mockBackend.ts:96-126 | after `saveProject`, the project is public exactly when it was saved in a state other than DRAFT |
| MockBackend.SaveBatchesSetsState | services/mockBackend.ts:105-118 | after `saveProject`, the first batch with the project's ticker is in the saved state, and at most one entry was logged |
| MockBackend.SaveBatches | services/mockBackend.ts:105-118 | a batch is created, and one ISSUANCE entry logged, exactly when no batch has the ticker: the new batch goes in front with the project's id, ticker, supply and state; otherwise only the first batch with the ticker changes, and only in its state, with the log unchanged |
| MockBackend.Backend.SaveProject | services/mockBackend.ts:96-119 | the project table becomes the upsert by id and the batch table and log become `SaveBatches`; the other tables are unchanged and the invariant is kept |
| MockBackend.SetProjectStateByTicker | services/mockBackend.ts:136-139 | the first project with the ticker takes the new state and keeps its project, every other entry is unchanged; with no such ticker the list stays as it is |
| MockBackend.Backend.UpdateBatchState | services/mockBackend.ts:128-145 | an unknown id fails with "Batch not found" and changes nothing; otherwise the first batch with the id and the first project with its ticker take the new state, and one STATE_CHANGE entry is logged |
| MockBackend.Backend.LogEvent | services/mockBackend.ts:149-164 | exactly one entry is put in front of the log, chained to the previous head; the chain invariant is kept |
| MockBackend.Retirement | services/mockBackend.ts:172-192 | recomputing `ar://` + hash of `txHash:batchId:amount:holder` from the record's own fields reproduces its root; the record keeps the inputs, `CERT-` plus the last six digits of the clock, and `ipfs://` + hash of the certificate id |
| MockBackend.LeafInjective | services/mockBackend.ts:179 | the leaf determines the transaction hash, batch, amount and holder when the hash and the batch id contain no ':' |
| MockBackend.LeafAmbiguousWithColons | services/mockBackend.ts:179 | with ':' inside the fields, two different retirements can share a leaf |
| MockBackend.Backend.AnchorRetirement | services/mockBackend.ts:172-198 | the record is put in front of the retirements and exactly one RETIREMENT_ANCHORED entry is logged |
| MockBackend.Backend.SubmitPreAuth | services/mockBackend.ts:202-211 | the order is appended as ACTIVE with id `preauth-<now>`, and PREAUTH_RECEIVED is logged |
| MockBackend.Backend.FillPreAuth | services/mockBackend.ts:220-226 | an unknown id changes nothing and logs nothing; otherwise the first order with the id becomes FILLED, whatever its status, and one SETTLEMENT_EXECUTED entry is logged |
| MockBackend.Backend.SaveTokenizationRequest | services/mockBackend.ts:230-234 | the request is appended unchanged and TOKEN_REQUEST is logged |
| MockBackend.RequestsOf | services/mockBackend.ts:236-238 | exactly the requests from the address |
| MockBackend.RequestsOfInOrder | services/mockBackend.ts:236-238 | the filter keeps the table's order: a concatenation's requests are the concatenation of the requests, and a single request is kept exactly when it is from the address |
| MockBackend.Backend.ApproveRequest | services/mockBackend.ts:245-254 | an unknown id fails with "Request not found" and changes nothing; otherwise that request becomes APPROVED, whatever its status, the others are untouched, and TOKEN_APPROVED is logged |
| MockBackend.Backend.constructor | services/mockBackend.ts:17-24 | the six tables start empty, and the audit digest is `sha256` of the JSON payload |
| WalletLedger.Credit | services/xrplApi.ts:650-652 | the holding of the ticker rises by exactly the amount; a new entry is appended only for a ticker not yet held |
| WalletLedger.CreditOthers | services/xrplApi.ts:650-652 | crediting one ticker leaves every other holding unchanged |
| WalletLedger.CreditKeepsInvariant | services/xrplApi.ts:650-652 | crediting keeps one entry per ticker, and positive amounts when the credit is positive |
| WalletLedger.Debit | services/xrplApi.ts:654-657 | the debit fails exactly when the ticker is missing or held below the amount |
| WalletLedger.DebitHolding | services/xrplApi.ts:654-657 | a successful debit lowers the ticker's holding by exactly the amount; an entry emptied by it leaves the list, an entry left positive keeps every ticker in the list |
| WalletLedger.DebitOthers | services/xrplApi.ts:654-657 | debiting one ticker leaves every other holding unchanged |
| WalletLedger.DebitKeepsInvariant | services/xrplApi.ts:654-657 | debiting keeps one entry per ticker and positive amounts |
| WalletLedger.Swap | services/xrplApi.ts:645-659 | BUY fails with "Insufficient XRP" exactly when the balance is below amount*price, otherwise the balance drops by it; SELL fails with "Insufficient funds" exactly when the holding is missing or short, otherwise the balance rises by amount*price |
| WalletLedger.SwapHoldings | services/xrplApi.ts:645-659 | a swap moves the ticker's holding by exactly the amount, leaves the other tickers alone, and keeps one entry per ticker |
| WalletLedger.SwapConservesValue | services/xrplApi.ts:645-659 | XRP plus the swapped holding valued at the trade price is the same before and after a swap |
| WalletLedger.BuyThenSellRestores | services/xrplApi.ts:645-659 | selling what was just bought, at the same price, restores the balance and the asset list exactly |
| WalletLedger.Refund | services/xrplApi.ts:450-455 | a BUY refunds remaining*price XRP; a SELL returns `remaining` to an existing entry, or nothing when the ticker is not held; the tickers are unchanged |
| XrplApi.ParseVintageReadsYear | services/xrplApi.ts:391 | a printed year is read back as that year; a missing or empty vintage is 2024 |
| XrplApi.DraftNotListed | services/xrplApi.ts:378-403 | a saved draft is never among the public projects |
| XrplApi.IssueMakesTickerIssued | services/xrplApi.ts:406-444 | after issuance the ticker's first batch is ISSUED, the log is unchanged or has exactly one entry put in front of the old log, ids stay unique, and a named project is public |
| XrplApi.VerifyQr | services/xrplApi.ts:762-780 | a non-XRPL payload is an "Invalid Certificate Chain" error; otherwise it verifies exactly when a listed project has the ticker, and then reports the first listed project with that ticker and the payload's status, transaction and amount |
| XrplApi.ConfiguredTickerWins | services/xrplApi.ts:766-768 | a ticker of a configured project is always answered with a configured project, whatever public dynamic project shares the ticker |
| XrplApi.Api.Projects | services/xrplApi.ts:130-135 | `getProjects` lists the configured projects first, and beyond them exactly the projects of non-DRAFT dynamic entries |
| XrplApi.Api.VerifyQrData | services/xrplApi.ts:762-780 | a non-XRPL payload is an error; otherwise it verifies exactly when a project `getProjects` lists has the ticker, and reports such a project |
| XrplApi.IssuedTokenVerifies | services/xrplApi.ts:762-780 | a certificate for a token issued under a project name verifies once issuance has run |
| XrplApi.Api.constructor | services/xrplApi.ts:72-93 | a fresh backend with the configured batches, and the wallet with 2450 XRP, 100 MCO2, 50 TCO2 and trustlines for both |
| XrplApi.Api.CreditAsset | services/xrplApi.ts:650-652 | the asset list becomes `Credit` of the old one; the rest of the wallet is unchanged |
| XrplApi.Api.DebitAsset | services/xrplApi.ts:654-657 | the asset list becomes `Debit` of the old one; the rest of the wallet is unchanged |
| XrplApi.Api.SetTrustline | services/xrplApi.ts:353-375 | true exactly when the ticker was not trusted; then the ticker is trusted once, one TRUSTLINE_SET transaction is put in front, 12 drops are paid and one TRUSTLINE event is logged; otherwise nothing changes |
| XrplApi.Api.RetireToken | services/xrplApi.ts:538-579 | a missing or short holding fails with "Insufficient balance to retire" before any change; otherwise the holding is debited, one RETIRE transaction is put in front, and the retirement is anchored on `<ticker>-2024-A` |
| XrplApi.Api.ExecuteTrade | services/xrplApi.ts:645-676 | the wallet moves as `Swap` says, and a success puts exactly one transaction with the side, ticker, amount and price in front; a failure changes nothing |
| XrplApi.Api.CancelOrder | services/xrplApi.ts:446-460 | an unknown id answers false and changes nothing; otherwise the order is refunded as `Refund` says, it is removed, and the answer is true |
| XrplApi.Api.SaveDraftProject | services/xrplApi.ts:378-404 | `saveProject` of the draft project as DRAFT, answering true |
| XrplApi.Api.IssueBatchOnChain | services/xrplApi.ts:406-444 | with a project name, `saveProject` as ISSUED and that project returned; without one, a batch `<ticker>-<vintage or GEN>-A` in state ISSUED |
| XrplApi.Api.SubmitTokenizationRequest | services/xrplApi.ts:680-703 | a PENDING request `REQ-<now>` is saved with TOKEN_REQUEST logged |
| XrplApi.Api.MintDeposit | services/xrplApi.ts:735-756 | the wallet is credited with exactly the amount (average price 0, value 10 XRP) and one RECEIVE transaction is put in front |
| XrplApi.Api.ApproveTokenizationRequest | services/xrplApi.ts:716-759 | an unknown id fails with "Request not found" and changes nothing; otherwise the request is approved, its batch is issued under its project name, the wallet gains exactly the requested amount, and one RECEIVE transaction is recorded |

## Left out

- The real-mode branches of services/xrplApi.ts are left out: `connectRealWallet`, `generateFundedWallet`, the real `getWalletInfo`, and the `simulatedRealBalances` paths. They talk to an XRPL network client.
- `getCurrency` and `parseCurrency` depend on the foreign `window.xrpl` hex conversion.
- `uploadToIPFS` hashes the current time, so its result cannot be predicted.
- `enableMockMode`, `disconnect`, `getOrderBook` and `generateMockOrders` are about wallet mode switching and random display data.
- services/geminiService.ts and the React components are not part of this model.
- The artificial `delay`s are left out. The 3-second timer with which `submitPreAuth` fills its own order is also left out; `FillPreAuth` is a separate method that the caller invokes.
- The `get*` copy functions (`getBatches`, `getAuditLog`, `getRetirements`, `getAllTokenizationRequests`, `getWalletInfo`) are the tables themselves, read through fields or `Api.Info()`. The model works on values, so it does not capture the sharing of mutable objects between the tables and the callers: `getWalletInfo`'s shallow copy; `getBatches` and `getAllTokenizationRequests`, whose copied arrays hold the stored objects; `getTokenizationRequests`, whose filtered list holds them too; and `submitPreAuth`, `saveTokenizationRequest`, `approveRequest` and `updateBatchState`, which return the stored object itself. In the source a later write in place, such as `batch.state = newState` (services/mockBackend.ts:133), `preAuthOrders[idx].status = 'FILLED'` (services/mockBackend.ts:224, on the object `submitPreAuth` returned) or `tokenizationRequests[reqIndex].status = 'APPROVED'` (services/mockBackend.ts:249), is seen through what the caller holds; in the model the returned value keeps its state at return time.
- Floating point is left out. Balances and prices are whole drops, so the model has no rounding, such as that of `0.000012`.
- `sha256` is an arbitrary function. Collision-freedom is a premise of `ChainDetermined`, `HashChainDetermined` and `BackendLogsDetermined`; `ChainAgreesOrCollides` states the same evidence without it, by exhibiting the collision.
- Each operation reads the clock once. Where the source reads it twice, as in `retireToken`'s `tx-` and `req-` ids, the model uses the same value for both.
- `setTrustline` does not await its `logEvent`. The model appends the TRUSTLINE entry before the operation returns. The `Linked` invariant is about this sequential order only: the un-awaited `logEvent` and the 3-second fill timer of `submitPreAuth` (services/mockBackend.ts:202-218) can each interleave with another `logEvent` at its `await sha256`, so two entries can read the same previous hash and fork the chain, which the model does not capture.
- A memo is the structured value that `createJsonMemo` serializes, not its JSON text.
- `OpenOrder.type` is called `side`. No mock operation creates open orders, so an order list only changes by cancellation.
- The `orderType` parameter of `executeTrade` is left out: the mock swap ignores it.
- Js.ParseInt: only the optional sign and the decimal digits are modelled. Leading whitespace is not skipped, and the `0x`/`0X` hex prefix is not read: the model gives `ParseInt("0x1A") == Some(0)` and `ParseInt("0x") == Some(0)`, where JavaScript gives 26 and NaN. The vintages the source parses are years or the default `'2024'`.
- Js.UnescapeEscapeChar: JSON's `\uXXXX` escapes for lone surrogates are not modelled, because strings are sequences of Unicode scalar values.
- XrplApi.VerifyQr: the listed projects are a parameter; `Api.VerifyQrData` passes it the list `getProjects` returns. The model does not re-check the claimed transaction on the ledger, and neither does the source.
