/** The mock mode of services/xrplApi.ts: the configured marketplace projects,
    the mock wallet (`mockWallet`), and the operations that update it and the
    mock backend. The artificial delays are left out; every clock reading,
    random hash and random suffix is a parameter. Amounts of XRP and prices
    are in drops. */
module XrplApi {
  import opened Types
  import opened Js
  import opened AuditChain
  import opened MockBackend
  import opened WalletLedger

  /** One XRP in drops. */
  const XRP: int := 1_000_000

  /** The 0.000012 XRP a trustline costs, in drops. */
  const TRUSTLINE_FEE: int := 12

  /** The address of the mock wallet, also the issuer of projects minted here. */
  const GENESIS_ADDRESS := "rHb9CJAWyB4rj91VRWn96DkukG4bwdtyTh"

  /** `MOCK_PROJECTS`. */
  const MockProjects: seq<CarbonProject> := [
    CarbonProject("1", "Amazonas Rainforest Conservation",
                  "REDD+ project avoiding unplanned deforestation in the Amazon basin.", "Brazil", Some(2021),
                  Verra, Moss, "rPT1Sjq2YGrBMTttX4GZHjKu9dyfzbpAYe", "MCO2", 14_500_000, 500000,
                  "https://picsum.photos/seed/rainforest/400/300", true),
    CarbonProject("2", "Gujarat Wind Power Project",
                  "Renewable energy generation via wind power in Gujarat, India.", "India", Some(2022),
                  GoldStandard, Toucan, GENESIS_ADDRESS, "TCO2", 8_200_000, 120000,
                  "https://picsum.photos/seed/wind/400/300", true),
    CarbonProject("3", "Clean Cookstoves in Kenya",
                  "Renewable energy generation via wind power in Gujarat, India.", "Kenya", Some(2023),
                  GoldStandard, Flowcarbon, "rU6K7V3Po4snVhBBaU29sesqs2qTQJWDw1", "GNT", 22_000_000, 50000,
                  "https://picsum.photos/seed/fire/400/300", true),
    CarbonProject("4", "Delta Blue Carbon Mangrove",
                  "Restoration of mangrove forests in the Indus Delta.", "Pakistan", Some(2020),
                  Verra, Klima, "rLHzPsX6oXkzU2qL12kHCH8G8cnZv1rBJh", "BCT", 35_000_000, 15000,
                  "https://picsum.photos/seed/water/400/300", true)
  ]

  /** The mock wallet's starting portfolio. */
  const InitialAssets: seq<PortfolioItem> :=
    [PortfolioItem("MCO2", 100, 14_500_000, 14_500_000), PortfolioItem("TCO2", 50, 8_200_000, 8_200_000)]

  const InitialTrustlines: seq<string> := ["MCO2", "TCO2"]

  /** The value a minted deposit is given (10 XRP). */
  const MINT_VALUE: int := 10 * XRP

  function CatalogTickers(ps: seq<CarbonProject>): seq<string> {
    seq(|ps|, i requires 0 <= i < |ps| => ps[i].tokenTicker)
  }

  function OpenOrderIds(os: seq<OpenOrder>): seq<string> {
    seq(|os|, i requires 0 <= i < |os| => os[i].id)
  }

  // --- Issuance ---

  /** `parseInt(vintage || '2024')`. */
  function ParseVintage(vintage: Option<string>): Option<int> {
    ParseInt(OrString(vintage, "2024"))
  }

  /** A printed year reads back as that year; a missing or empty vintage is 2024. */
  lemma ParseVintageReadsYear(year: nat)
    ensures ParseVintage(Some(NatToString(year))) == Some(year)
    ensures ParseVintage(None) == Some(2024) && ParseVintage(Some("")) == Some(2024)
  {
    ParseIntOfNatToString(year);
    ParseIntOfNatToString(2024);
    DefaultYearText();
  }

  lemma DefaultYearText()
    ensures NatToString(2024) == "2024"
  {
    assert NatToString(2) == [Digit(2)] == "2";
    assert NatToString(20) == NatToString(2) + [Digit(0)] == "20";
    assert NatToString(202) == NatToString(20) + [Digit(2)] == "202";
    assert NatToString(2024) == NatToString(202) + [Digit(4)] == "2024";
  }

  /** The project `saveDraftProject` saves as DRAFT. */
  function DraftProject(ticker: string, totalTons: int, projectName: string, vintage: string, clock: Clock)
    : CarbonProject
  {
    CarbonProject("draft-" + NatToString(clock.millis), projectName, "Draft Project (Vintage: " + vintage + ")",
                  "Global", ParseVintage(Some(vintage)), Verra, Celo, GENESIS_ADDRESS, ticker, 10 * XRP,
                  totalTons, "https://picsum.photos/seed/draft/400/300", true)
  }

  /** The project `issueBatchOnChain` saves as ISSUED when given a project name. */
  function IssuedProject(ticker: string, totalTons: int, projectName: string, vintage: Option<string>,
                         clock: Clock): CarbonProject
  {
    CarbonProject("dyn-" + NatToString(clock.millis), projectName,
                  "Minted via Issuer Portal. Vintage: " + OptionalText(vintage), "Global", ParseVintage(vintage),
                  Verra, Celo, GENESIS_ADDRESS, ticker, 10 * XRP, totalTons,
                  "https://picsum.photos/seed/new/400/300", true)
  }

  /** The batch `issueBatchOnChain` asks `createBatch` for without a project name. */
  function LegacyBatchSpec(ticker: string, totalTons: int, metadataCid: string, vintage: Option<string>)
    : BatchSpec
  {
    BatchSpec(Some(ticker + "-" + OrString(vintage, "GEN") + "-A"), None, Some(ticker), Some(totalTons),
              Some(Issued), Some(metadataCid), None)
  }

  /** `issueBatchOnChain`'s effect on the batch table, the dynamic projects
      and the audit log: `saveProject(project, ISSUED)` when a project name is
      given, otherwise `createBatch` of the legacy batch. */
  function IssueTables(D: EventDigest, batches: seq<Batch>, projects: seq<ProjectEntry>, log: seq<AuditLogEntry>,
                       ticker: string, totalTons: int, metadataCid: string, projectName: Option<string>,
                       vintage: Option<string>, clock: Clock, nonce: string)
    : (r: (seq<Batch>, seq<ProjectEntry>, seq<AuditLogEntry>))
  {
    if Truthy(projectName) then
      var p := IssuedProject(ticker, totalTons, projectName.value, vintage, clock);
      var (bs, l) := SaveBatches(D, batches, log, p, Issued, clock, nonce);
      (bs, Upsert(projects, p, Issued), l)
    else
      var b := NewBatch(LegacyBatchSpec(ticker, totalTons, metadataCid, vintage), clock, nonce);
      ([b] + batches, projects, Append(D, log, "ISSUANCE", b.batchId, IssuanceText(b), clock))
  }

  /** After issuance the ticker's first batch is ISSUED; a named project is
      then public, and it is the only entry with its id. */
  lemma IssueMakesTickerIssued(D: EventDigest, batches: seq<Batch>, projects: seq<ProjectEntry>,
                               log: seq<AuditLogEntry>, ticker: string, totalTons: int, metadataCid: string,
                               projectName: Option<string>, vintage: Option<string>, clock: Clock, nonce: string)
    requires ticker != "" && UniqueIds(projects)
    ensures var (bs, ps, l) :=
        IssueTables(D, batches, projects, log, ticker, totalTons, metadataCid, projectName, vintage, clock, nonce);
      (match IndexOf(BatchTickers(bs), ticker) case None => false case Some(j) => bs[j].state == Issued) &&
      (l == log || (|l| == |log| + 1 && l[1..] == log)) && UniqueIds(ps) &&
      (Truthy(projectName) ==> IssuedProject(ticker, totalTons, projectName.value, vintage, clock) in PublicProjects(ps))
  {
    if Truthy(projectName) {
      var p := IssuedProject(ticker, totalTons, projectName.value, vintage, clock);
      SaveBatchesSetsState(D, batches, log, p, Issued, clock, nonce);
      UpsertPublic(projects, p, Issued);
    } else {
      var b := NewBatch(LegacyBatchSpec(ticker, totalTons, metadataCid, vintage), clock, nonce);
      assert BatchTickers([b] + batches)[0] == ticker;
      IndexOfIs(BatchTickers([b] + batches), ticker, 0);
    }
  }

  /** A draft is never listed: after `saveDraftProject` its project is not
      among the public ones. */
  lemma DraftNotListed(projects: seq<ProjectEntry>, ticker: string, totalTons: int, projectName: string,
                       vintage: string, clock: Clock)
    requires UniqueIds(projects)
    ensures DraftProject(ticker, totalTons, projectName, vintage, clock) !in
      PublicProjects(Upsert(projects, DraftProject(ticker, totalTons, projectName, vintage, clock), Draft))
  {
    UpsertPublic(projects, DraftProject(ticker, totalTons, projectName, vintage, clock), Draft);
  }

  // --- Wallet transactions (`createJsonMemo` gives the structured memo) ---

  function TrustlineText(ticker: string): string {
    "Trustline established for " + ticker
  }

  /** The batch a mock retirement is anchored to. */
  function RetireBatchId(ticker: string): string {
    ticker + "-2024-A"
  }

  function TrustlineTx(ticker: string, clock: Clock, hash: string): Transaction {
    Transaction("tx-" + NatToString(clock.millis), TrustlineSet, ticker, None, None, hash, clock.millis, Completed,
                Some(TrustSetMemo(ticker)))
  }

  function RetireTx(ticker: string, amount: int, purpose: string, clock: Clock, hash: string): Transaction {
    Transaction("tx-" + NatToString(clock.millis), Retire, ticker, Some(amount), None, hash, clock.millis, Completed,
                Some(RetireMemo(RetireBatchId(ticker), amount, purpose, "req-" + NatToString(clock.millis))))
  }

  function TradeTx(ticker: string, side: Side, amount: int, price: int, clock: Clock, hash: string): Transaction {
    Transaction("tx-" + NatToString(clock.millis), Trade(side), ticker, Some(amount), Some(price), hash,
                clock.millis, Completed, Some(SwapMemo(ticker, side, amount, price)))
  }

  function MintTx(requestId: string, ticker: string, amount: int, clock: Clock, hash: string): Transaction {
    Transaction("tx-mint-" + NatToString(clock.millis), Receive, ticker, Some(amount), None, hash, clock.millis,
                Completed, Some(MintDepositMemo(requestId)))
  }

  // --- Certificate scanning ---

  /** What `verifyQrData` answers when it does not throw. */
  datatype QrVerdict =
    | Verified(status: QrStatus, project: CarbonProject, tx: string, amount: int)
    | Unverified(message: string)

  /** `verifyQrData` against the listed projects: a payload not for XRPL is an
      error; otherwise it verifies exactly when some project has its ticker,
      and then reports the first such project and the payload's own data. */
  function VerifyQr(projects: seq<CarbonProject>, data: QrPayload): (r: Result<QrVerdict>)
    ensures r.Err? <==> data.contract != "XRPL"
    ensures r.Err? ==> r.error == InvalidCertificateChain
    ensures r.Ok? ==> (r.value.Unverified? <==> data.data.tokenId !in CatalogTickers(projects))
    ensures r.Ok? && r.value.Unverified? ==> r.value.message == "Project/Asset not found on Ledger"
    ensures r.Ok? && r.value.Verified? ==>
      (exists k :: 0 <= k < |projects| && projects[k] == r.value.project &&
        forall m :: 0 <= m < k ==> projects[m].tokenTicker != data.data.tokenId) &&
      r.value.project in projects && r.value.project.tokenTicker == data.data.tokenId &&
      r.value.status == data.data.status && r.value.tx == data.data.txHash && r.value.amount == data.data.amount
  {
    if data.contract != "XRPL" then Err(InvalidCertificateChain)
    else match IndexOf(CatalogTickers(projects), data.data.tokenId)
      case None => Ok(Unverified("Project/Asset not found on Ledger"))
      case Some(i) =>
        assert forall m :: 0 <= m < i ==> CatalogTickers(projects)[..i][m] == projects[m].tokenTicker;
        assert forall m :: 0 <= m < i ==> projects[m].tokenTicker != data.data.tokenId;
        Ok(Verified(data.data.status, projects[i], data.data.txHash, data.data.amount))
  }

  /** A project's ticker is among the catalogue's tickers. */
  lemma CatalogHas(ps: seq<CarbonProject>, p: CarbonProject)
    requires p in ps
    ensures p.tokenTicker in CatalogTickers(ps)
  {
    var i :| 0 <= i < |ps| && ps[i] == p;
    assert CatalogTickers(ps)[i] == p.tokenTicker;
  }

  /** `find` reports the first match, so a ticker of a configured project is
      always answered with a configured project, whatever dynamic project has
      taken the same ticker. */
  lemma ConfiguredTickerWins(ps: seq<ProjectEntry>, data: QrPayload)
    requires data.contract == "XRPL" && data.data.tokenId in CatalogTickers(MockProjects)
    ensures var r := VerifyQr(MockProjects + PublicProjects(ps), data);
      r.Ok? && r.value.Verified? && r.value.project in MockProjects
  {
    var all := MockProjects + PublicProjects(ps);
    var j :| 0 <= j < |MockProjects| && CatalogTickers(MockProjects)[j] == data.data.tokenId;
    assert all[j].tokenTicker == data.data.tokenId;
    CatalogHas(all, all[j]);
  }

  /** A certificate for a token issued under a project name verifies against
      the listed projects once issuance has run. */
  lemma IssuedTokenVerifies(D: EventDigest, batches: seq<Batch>, projects: seq<ProjectEntry>,
                            log: seq<AuditLogEntry>, ticker: string, totalTons: int, metadataCid: string,
                            projectName: string, vintage: Option<string>, clock: Clock, nonce: string,
                            data: QrPayload)
    requires ticker != "" && projectName != "" && UniqueIds(projects)
    requires data.contract == "XRPL" && data.data.tokenId == ticker
    ensures var (_, ps, _) := IssueTables(D, batches, projects, log, ticker, totalTons, metadataCid,
                                          Some(projectName), vintage, clock, nonce);
      VerifyQr(MockProjects + PublicProjects(ps), data).Ok? &&
      VerifyQr(MockProjects + PublicProjects(ps), data).value.Verified?
  {
    IssueMakesTickerIssued(D, batches, projects, log, ticker, totalTons, metadataCid, Some(projectName), vintage,
                           clock, nonce);
    var (_, ps, _) := IssueTables(D, batches, projects, log, ticker, totalTons, metadataCid, Some(projectName),
                                  vintage, clock, nonce);
    CatalogHas(MockProjects + PublicProjects(ps), IssuedProject(ticker, totalTons, projectName, vintage, clock));
  }

  /** The mock wallet, and the mock backend it reports to. */
  class Api {
    const backend: Backend
    const address: string
    var xrpBalance: int
    var assets: seq<PortfolioItem>
    var trustlines: seq<string>
    var transactions: seq<Transaction>
    var openOrders: seq<OpenOrder>

    /** The backend's audit chain holds, the wallet has one entry per ticker
        and trusts each ticker once. */
    ghost predicate Valid()
      reads this, backend
    {
      backend.Valid() && UniqueTickers(assets) && Distinct(trustlines)
    }

    /** Module start: `initBatches(MOCK_PROJECTS)` on an empty backend, and the
        mock wallet with 2450 XRP, 100 MCO2 and 50 TCO2. */
    constructor (hash: string -> string, clock: Clock, rand: nat -> string)
      ensures Valid() && fresh(backend)
      ensures backend.H == hash && HashesPayload(backend.D, hash)
      ensures backend.batches == InitialBatches(MockProjects, clock, rand)
      ensures backend.dynamicProjects == [] && backend.auditLog == [] && backend.retirements == []
      ensures backend.preAuthOrders == [] && backend.tokenizationRequests == []
      ensures address == GENESIS_ADDRESS && xrpBalance == 2450 * XRP && assets == InitialAssets
      ensures trustlines == InitialTrustlines && transactions == [] && openOrders == []
    {
      var b := new Backend(hash);
      b.InitBatches(MockProjects, clock, rand);
      backend := b;
      address := GENESIS_ADDRESS;
      xrpBalance := 2450 * XRP;
      assets := InitialAssets;
      trustlines := InitialTrustlines;
      transactions := [];
      openOrders := [];
      assert Tickers(InitialAssets) == InitialTrustlines;
    }

    /** `getProjects`: the configured projects, then the public dynamic ones. */
    function Projects(): (r: seq<CarbonProject>)
      reads this, backend
      ensures |r| >= |MockProjects| && r[..|MockProjects|] == MockProjects
      ensures forall p :: p in r <==>
        p in MockProjects || exists e :: e in backend.dynamicProjects && e.state != Draft && e.project == p
    {
      MockProjects + PublicProjects(backend.dynamicProjects)
    }

    /** `verifyQrData` against the projects `getProjects` lists. */
    function VerifyQrData(data: QrPayload): (r: Result<QrVerdict>)
      reads this, backend
      ensures r.Ok? <==> data.contract == "XRPL"
      ensures r.Ok? ==> (r.value.Verified? <==> data.data.tokenId in CatalogTickers(Projects()))
      ensures r.Ok? && r.value.Verified? ==>
        r.value.project in Projects() && r.value.project.tokenTicker == data.data.tokenId
    {
      VerifyQr(Projects(), data)
    }

    /** `getWalletInfo` in mock mode. */
    function Info(): WalletInfo
      reads this
    {
      WalletInfo(address, xrpBalance, assets, trustlines, transactions, openOrders)
    }

    /** `find` the ticker's entry and add `n` to it, or push a new entry. */
    method CreditAsset(ticker: string, n: int, avgBuyPrice: int, currentValue: int)
      requires Valid()
      modifies this
      ensures Valid()
      ensures assets == Credit(old(assets), ticker, n, avgBuyPrice, currentValue)
      ensures xrpBalance == old(xrpBalance) && trustlines == old(trustlines)
      ensures transactions == old(transactions) && openOrders == old(openOrders)
    {
      CreditKeepsInvariant(assets, ticker, n, avgBuyPrice, currentValue);
      var found := IndexOf(Tickers(assets), ticker);
      if found.Some? {
        var i := found.value;
        assets := assets[i := assets[i].(amount := assets[i].amount + n)];
      } else {
        assets := assets + [PortfolioItem(ticker, n, avgBuyPrice, currentValue)];
      }
    }

    /** Subtract `n` from the ticker's entry and `splice` it out once it is empty. */
    method DebitAsset(ticker: string, n: int)
      requires Valid() && Debit(assets, ticker, n).Some?
      modifies this
      ensures Valid()
      ensures assets == Debit(old(assets), ticker, n).value
      ensures xrpBalance == old(xrpBalance) && trustlines == old(trustlines)
      ensures transactions == old(transactions) && openOrders == old(openOrders)
    {
      DebitKeepsInvariant(assets, ticker, n);
      var i := IndexOf(Tickers(assets), ticker).value;
      var before := assets;
      assets := assets[i := assets[i].(amount := assets[i].amount - n)];
      if assets[i].amount <= 0 {
        RemoveAtUpdate(before, i, assets[i]);
        assets := RemoveAt(assets, i);
      }
    }

    /** `setTrustline`: a ticker already trusted changes nothing; otherwise it
        is trusted, a TRUSTLINE_SET transaction is recorded, the fee is paid
        and one TRUSTLINE event is logged. */
    method SetTrustline(ticker: string, clock: Clock, hash: string) returns (added: bool)
      requires Valid()
      modifies this, backend
      ensures Valid()
      ensures added <==> ticker !in old(trustlines)
      ensures if added then
          trustlines == old(trustlines) + [ticker] &&
          transactions == [TrustlineTx(ticker, clock, hash)] + old(transactions) &&
          xrpBalance == old(xrpBalance) - TRUSTLINE_FEE &&
          backend.auditLog == Append(backend.D, old(backend.auditLog), "TRUSTLINE", address, TrustlineText(ticker), clock)
        else
          trustlines == old(trustlines) && transactions == old(transactions) &&
          xrpBalance == old(xrpBalance) && backend.auditLog == old(backend.auditLog)
      ensures assets == old(assets) && openOrders == old(openOrders)
      ensures backend.batches == old(backend.batches) && backend.dynamicProjects == old(backend.dynamicProjects)
      ensures backend.retirements == old(backend.retirements) && backend.preAuthOrders == old(backend.preAuthOrders)
      ensures backend.tokenizationRequests == old(backend.tokenizationRequests)
    {
      if ticker in trustlines {
        return false;
      }
      DistinctAppend(trustlines, ticker);
      trustlines := trustlines + [ticker];
      transactions := [TrustlineTx(ticker, clock, hash)] + transactions;
      xrpBalance := xrpBalance - TRUSTLINE_FEE;
      backend.LogEvent("TRUSTLINE", address, TrustlineText(ticker), clock);
      added := true;
    }

    /** `retireToken` in mock mode: too small a holding is an error before any
        change; otherwise the tokens are debited, a RETIRE transaction is
        recorded and the retirement is anchored on batch `<ticker>-2024-A`. */
    method RetireToken(ticker: string, amount: int, purpose: string, clock: Clock, hash: string)
      returns (r: Result<RetirementRecord>)
      requires Valid()
      modifies this, backend
      ensures Valid()
      ensures match Debit(old(assets), ticker, amount)
        case None =>
          r == Err(InsufficientBalanceToRetire) && assets == old(assets) && transactions == old(transactions) &&
          backend.retirements == old(backend.retirements) && backend.auditLog == old(backend.auditLog)
        case Some(rest) =>
          var rec := Retirement(backend.H, hash, RetireBatchId(ticker), amount, address, purpose, clock);
          r == Ok(rec) && assets == rest &&
          transactions == [RetireTx(ticker, amount, purpose, clock, hash)] + old(transactions) &&
          backend.retirements == [rec] + old(backend.retirements) &&
          backend.auditLog ==
            Append(backend.D, old(backend.auditLog), "RETIREMENT_ANCHORED", rec.certificateId, RetirementText(rec), clock)
      ensures xrpBalance == old(xrpBalance) && trustlines == old(trustlines) && openOrders == old(openOrders)
      ensures backend.batches == old(backend.batches) && backend.dynamicProjects == old(backend.dynamicProjects)
      ensures backend.preAuthOrders == old(backend.preAuthOrders)
      ensures backend.tokenizationRequests == old(backend.tokenizationRequests)
    {
      var found := IndexOf(Tickers(assets), ticker);
      if found.None? || assets[found.value].amount < amount {
        return Err(InsufficientBalanceToRetire);
      }
      DebitAsset(ticker, amount);
      transactions := [RetireTx(ticker, amount, purpose, clock, hash)] + transactions;
      var rec := backend.AnchorRetirement(hash, RetireBatchId(ticker), amount, address, purpose, clock);
      r := Ok(rec);
    }

    /** `executeTrade` in mock mode: the swap `Swap` describes, and on success
        one transaction with the trade's side, ticker, amount and price. */
    method ExecuteTrade(ticker: string, side: Side, amount: int, price: int, clock: Clock, hash: string)
      returns (r: Result<Transaction>)
      requires Valid()
      modifies this
      ensures Valid()
      ensures match Swap(old(xrpBalance), old(assets), ticker, side, amount, price)
        case Err(e) =>
          r == Err(e) && xrpBalance == old(xrpBalance) && assets == old(assets) && transactions == old(transactions)
        case Ok(after) =>
          r == Ok(TradeTx(ticker, side, amount, price, clock, hash)) &&
          xrpBalance == after.0 && assets == after.1 && transactions == [r.value] + old(transactions)
      ensures trustlines == old(trustlines) && openOrders == old(openOrders)
    {
      if side == Buy {
        var cost := amount * price;
        if xrpBalance < cost {
          return Err(InsufficientXrp);
        }
        xrpBalance := xrpBalance - cost;
        CreditAsset(ticker, amount, price, price);
      } else {
        var found := IndexOf(Tickers(assets), ticker);
        if found.None? || assets[found.value].amount < amount {
          return Err(InsufficientFunds);
        }
        DebitAsset(ticker, amount);
        xrpBalance := xrpBalance + amount * price;
      }
      var tx := TradeTx(ticker, side, amount, price, clock, hash);
      transactions := [tx] + transactions;
      r := Ok(tx);
    }

    /** `cancelOrder`: an unknown id changes nothing; otherwise the order's
        unfilled part is refunded as `Refund` describes and the order is removed. */
    method CancelOrder(orderId: string) returns (cancelled: bool)
      requires Valid()
      modifies this
      ensures Valid()
      ensures match IndexOf(OpenOrderIds(old(openOrders)), orderId)
        case None =>
          !cancelled && xrpBalance == old(xrpBalance) && assets == old(assets) && openOrders == old(openOrders)
        case Some(i) =>
          cancelled && (xrpBalance, assets) == Refund(old(xrpBalance), old(assets), old(openOrders)[i]) &&
          openOrders == RemoveAt(old(openOrders), i)
      ensures trustlines == old(trustlines) && transactions == old(transactions)
    {
      var index := IndexOf(OpenOrderIds(openOrders), orderId);
      if index.None? {
        return false;
      }
      var order := openOrders[index.value];
      if order.side == Buy {
        xrpBalance := xrpBalance + order.remaining * order.price;
      } else {
        if order.ticker in Tickers(assets) {
          CreditAsset(order.ticker, order.remaining, 0, 0);
        }
      }
      openOrders := RemoveAt(openOrders, index.value);
      cancelled := true;
    }

    /** `saveDraftProject`: `saveProject` of the draft project as DRAFT. */
    method SaveDraftProject(ticker: string, totalTons: int, metadataCid: string, projectName: string,
                            vintage: string, clock: Clock, nonce: string) returns (saved: bool)
      requires Valid()
      modifies backend
      ensures Valid() && saved
      ensures var p := DraftProject(ticker, totalTons, projectName, vintage, clock);
        backend.dynamicProjects == Upsert(old(backend.dynamicProjects), p, Draft) &&
        (backend.batches, backend.auditLog) ==
          SaveBatches(backend.D, old(backend.batches), old(backend.auditLog), p, Draft, clock, nonce)
      ensures backend.retirements == old(backend.retirements) && backend.preAuthOrders == old(backend.preAuthOrders)
      ensures backend.tokenizationRequests == old(backend.tokenizationRequests)
    {
      backend.SaveProject(DraftProject(ticker, totalTons, projectName, vintage, clock), Draft, clock, nonce);
      saved := true;
    }

    /** `issueBatchOnChain`: returns the random transaction hash and, when a
        project name is given, the project saved as ISSUED. */
    method IssueBatchOnChain(ticker: string, totalTons: int, metadataCid: string, projectName: Option<string>,
                             vintage: Option<string>, clock: Clock, txHash: string, nonce: string)
      returns (hash: string, project: Option<CarbonProject>)
      requires Valid()
      modifies backend
      ensures Valid()
      ensures hash == txHash
      ensures project ==
        if Truthy(projectName) then Some(IssuedProject(ticker, totalTons, projectName.value, vintage, clock)) else None
      ensures (backend.batches, backend.dynamicProjects, backend.auditLog) ==
        IssueTables(backend.D, old(backend.batches), old(backend.dynamicProjects), old(backend.auditLog),
                    ticker, totalTons, metadataCid, projectName, vintage, clock, nonce)
      ensures backend.retirements == old(backend.retirements) && backend.preAuthOrders == old(backend.preAuthOrders)
      ensures backend.tokenizationRequests == old(backend.tokenizationRequests)
    {
      hash := txHash;
      if Truthy(projectName) {
        var p := IssuedProject(ticker, totalTons, projectName.value, vintage, clock);
        backend.SaveProject(p, Issued, clock, nonce);
        project := Some(p);
      } else {
        var _ := backend.CreateBatch(LegacyBatchSpec(ticker, totalTons, metadataCid, vintage), clock, nonce);
        project := None;
      }
    }

    /** `submitTokenizationRequest`: a PENDING request `REQ-<now>`, saved by the backend. */
    method SubmitTokenizationRequest(requesterAddress: string, issuerName: IssuerName, projectName: string,
                                     vintage: string, amount: int, tokenTicker: string, documentsCid: string,
                                     clock: Clock)
      returns (req: TokenizationRequest)
      requires Valid()
      modifies backend
      ensures Valid()
      ensures req == TokenizationRequest("REQ-" + NatToString(clock.millis), requesterAddress, issuerName,
                                         projectName, vintage, amount, tokenTicker, documentsCid, RequestStatus.Pending,
                                         clock.millis)
      ensures backend.tokenizationRequests == old(backend.tokenizationRequests) + [req]
      ensures backend.auditLog == Append(backend.D, old(backend.auditLog), "TOKEN_REQUEST", req.id, RequestText(req), clock)
      ensures backend.batches == old(backend.batches) && backend.dynamicProjects == old(backend.dynamicProjects)
      ensures backend.retirements == old(backend.retirements) && backend.preAuthOrders == old(backend.preAuthOrders)
    {
      var q := TokenizationRequest("REQ-" + NatToString(clock.millis), requesterAddress, issuerName, projectName,
                                   vintage, amount, tokenTicker, documentsCid, RequestStatus.Pending, clock.millis);
      req := backend.SaveTokenizationRequest(q, clock);
    }

    /** The mock deposit of freshly minted tokens: the wallet is credited
        (at average price 0, current value 10 XRP) and one RECEIVE transaction
        is recorded. */
    method MintDeposit(requestId: string, ticker: string, amount: int, clock: Clock, hash: string)
      requires Valid()
      modifies this
      ensures Valid()
      ensures assets == Credit(old(assets), ticker, amount, 0, MINT_VALUE)
      ensures transactions == [MintTx(requestId, ticker, amount, clock, hash)] + old(transactions)
      ensures xrpBalance == old(xrpBalance) && trustlines == old(trustlines) && openOrders == old(openOrders)
    {
      CreditAsset(ticker, amount, 0, MINT_VALUE);
      transactions := [MintTx(requestId, ticker, amount, clock, hash)] + transactions;
    }

    /** `approveTokenizationRequest` in mock mode: an unknown id is an error
        with no effect; otherwise the request is approved, its batch issued
        under the request's project name, and the wallet credited with exactly
        the requested amount, with one RECEIVE transaction. */
    method ApproveTokenizationRequest(requestId: string, clock: Clock, txHash: string, mintHash: string,
                                      nonce: string)
      returns (r: Result<bool>)
      requires Valid()
      modifies this, backend
      ensures Valid()
      ensures match IndexOf(RequestIds(old(backend.tokenizationRequests)), requestId)
        case None =>
          r == Err(RequestNotFound) && backend.tokenizationRequests == old(backend.tokenizationRequests) &&
          backend.batches == old(backend.batches) && backend.dynamicProjects == old(backend.dynamicProjects) &&
          backend.auditLog == old(backend.auditLog) && assets == old(assets) && transactions == old(transactions)
        case Some(i) =>
          var q := old(backend.tokenizationRequests)[i].(status := Approved);
          r == Ok(true) && backend.tokenizationRequests == old(backend.tokenizationRequests)[i := q] &&
          (backend.batches, backend.dynamicProjects, backend.auditLog) ==
            IssueTables(backend.D, old(backend.batches), old(backend.dynamicProjects),
                        Append(backend.D, old(backend.auditLog), "TOKEN_APPROVED", q.id, ApprovalText(q), clock),
                        q.tokenTicker, q.amount, q.documentsCid, Some(q.projectName), Some(q.vintage), clock, nonce) &&
          assets == Credit(old(assets), q.tokenTicker, q.amount, 0, MINT_VALUE) &&
          transactions == [MintTx(requestId, q.tokenTicker, q.amount, clock, mintHash)] + old(transactions)
      ensures xrpBalance == old(xrpBalance) && trustlines == old(trustlines) && openOrders == old(openOrders)
      ensures backend.retirements == old(backend.retirements) && backend.preAuthOrders == old(backend.preAuthOrders)
    {
      ghost var batches0, projects0 := backend.batches, backend.dynamicProjects;
      var approved := backend.ApproveRequest(requestId, clock);
      if approved.Err? {
        return Err(approved.error);
      }
      var req := approved.value;
      ghost var log1 := backend.auditLog;
      var _, _ := IssueBatchOnChain(req.tokenTicker, req.amount, req.documentsCid, Some(req.projectName),
                                    Some(req.vintage), clock, txHash, nonce);
      assert (backend.batches, backend.dynamicProjects, backend.auditLog) ==
        IssueTables(backend.D, batches0, projects0, log1, req.tokenTicker, req.amount, req.documentsCid,
                    Some(req.projectName), Some(req.vintage), clock, nonce);
      MintDeposit(requestId, req.tokenTicker, req.amount, clock, mintHash);
      r := Ok(true);
    }
  }
}
