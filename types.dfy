/** The enums and record shapes of the carbon-credit registry (types.ts).
    Dates are milliseconds since the epoch (`int`); money and token amounts
    are integers: XRP amounts and prices are in drops (1 XRP = 1,000,000
    drops), token amounts in whole tons. */
module Types {

  /** An optional value; models the `?` fields of the records. */
  datatype Option<T> = None | Some(value: T)

  /** The errors the core throws, one constructor per message. */
  datatype Error =
    | BatchNotFound
    | RequestNotFound
    | InsufficientXrp
    | InsufficientFunds
    | InsufficientBalanceToRetire
    | InvalidCertificateChain

  /** The text of the thrown `Error`. */
  function Message(e: Error): string {
    match e
    case BatchNotFound => "Batch not found"
    case RequestNotFound => "Request not found"
    case InsufficientXrp => "Insufficient XRP"
    case InsufficientFunds => "Insufficient funds"
    case InsufficientBalanceToRetire => "Insufficient balance to retire"
    case InvalidCertificateChain => "Invalid Certificate Chain"
  }

  /** A value, or the error an operation throws instead. */
  datatype Result<T> = Ok(value: T) | Err(error: Error)

  // --- Token lifecycle states ---

  datatype TokenState = Draft | Issued | Authorized | Suspended | Locked | Retired | Revoked

  /** The enum's string value, as it appears in audit descriptions. */
  function TokenStateName(s: TokenState): string {
    match s
    case Draft => "DRAFT"
    case Issued => "ISSUED"
    case Authorized => "AUTHORIZED"
    case Suspended => "SUSPENDED"
    case Locked => "LOCKED"
    case Retired => "RETIRED"
    case Revoked => "REVOKED"
  }

  const AllTokenStates: seq<TokenState> :=
    [Draft, Issued, Authorized, Suspended, Locked, Retired, TokenState.Revoked]

  /** The enum has exactly seven values, and their string values differ. */
  lemma TokenStateHasSevenValues(s: TokenState)
    ensures |AllTokenStates| == 7 && s in AllTokenStates
    ensures forall i, j :: 0 <= i < j < 7 ==> AllTokenStates[i] != AllTokenStates[j]
    ensures forall i, j :: 0 <= i < j < 7 ==> TokenStateName(AllTokenStates[i]) != TokenStateName(AllTokenStates[j])
  {
  }

  // --- Small string-valued unions ---

  datatype Side = Buy | Sell

  function SideName(s: Side): string {
    match s
    case Buy => "BUY"
    case Sell => "SELL"
  }

  /** `PreAuthOrder.status`: there is no EXPIRED value. */
  datatype OrderStatus = Active | Filled | Revoked

  /** `TokenizationRequest.status`. */
  datatype RequestStatus = Pending | Approved | Rejected

  /** `Transaction.type`: a BUY or SELL trade, or one of the four other kinds. */
  datatype TxType = Trade(side: Side) | Retire | TrustlineSet | Receive | CancelOrder

  datatype TxStatus = Completed | Pending | Failed

  datatype VerificationStandard = Verra | GoldStandard | Gcc | Acr

  datatype IssuerName = Toucan | Flowcarbon | Klima | Moss | Celo

  /** The enum's string value. */
  function IssuerNameText(i: IssuerName): string {
    match i
    case Toucan => "Toucan Protocol"
    case Flowcarbon => "Flowcarbon"
    case Klima => "KlimaDAO"
    case Moss => "Moss.Earth"
    case Celo => "Celo Carbon"
  }

  // --- Records ---

  /** A minted or draft issuance unit; only the chain hash is optional. */
  datatype Batch = Batch(
    batchId: string,
    projectId: string,
    tokenTicker: string,
    totalTons: int,
    issuedTons: int,
    state: TokenState,
    metadataCid: string,
    mrvReports: seq<string>,
    created: int,
    txHash: Option<string>)

  /** `vintage` is a JavaScript number produced by `parseInt`; `None` is NaN. */
  datatype CarbonProject = CarbonProject(
    id: string,
    name: string,
    description: string,
    location: string,
    vintage: Option<int>,
    standard: VerificationStandard,
    issuer: IssuerName,
    issuerAddress: string,
    tokenTicker: string,
    pricePerTon: int,
    availableSupply: int,
    imageUrl: string,
    trustlineRequired: bool)

  datatype PortfolioItem = PortfolioItem(ticker: string, amount: int, avgBuyPrice: int, currentValue: int)

  datatype OpenOrder = OpenOrder(
    id: string, ticker: string, side: Side, price: int, amount: int, remaining: int, timestamp: int)

  datatype PreAuthOrder = PreAuthOrder(
    id: string,
    userId: string,
    ticker: string,
    side: Side,
    amount: int,
    limitPrice: int,
    expiry: int,
    signature: string,
    status: OrderStatus)

  datatype RetirementRecord = RetirementRecord(
    certificateId: string,
    txHash: string,
    batchId: string,
    holderAddress: string,
    amount: int,
    purpose: string,
    timestamp: int,
    merkleRoot: string,
    ipfsCid: string)

  /** An audit entry keeps its own hash but not the hash it was chained to:
      the link is implicit in the order of the log. */
  datatype AuditLogEntry = AuditLogEntry(
    id: string,
    timestamp: int,
    eventType: string,
    entityId: string,
    payloadHash: string,
    description: string)

  /** The structured content of a transaction's JSON memo. */
  datatype Memo =
    | TrustSetMemo(ticker: string)
    | RetireMemo(batchId: string, amount: int, purpose: string, requestId: string)
    | SwapMemo(swapTicker: string, side: Side, swapAmount: int, price: int)
    | MintDepositMemo(mintRequestId: string)

  datatype Transaction = Transaction(
    id: string,
    txType: TxType,
    ticker: string,
    amount: Option<int>,
    price: Option<int>,
    hash: string,
    timestamp: int,
    status: TxStatus,
    memo: Option<Memo>)

  datatype WalletInfo = WalletInfo(
    address: string,
    xrpBalance: int,
    assets: seq<PortfolioItem>,
    trustlines: seq<string>,
    transactions: seq<Transaction>,
    openOrders: seq<OpenOrder>)

  datatype TokenizationRequest = TokenizationRequest(
    id: string,
    requesterAddress: string,
    issuerName: IssuerName,
    projectName: string,
    vintage: string,
    amount: int,
    tokenTicker: string,
    documentsCid: string,
    status: RequestStatus,
    timestamp: int)

  datatype QrType = MintCert | RetirementCert

  datatype QrStatus = QrIssued | QrRetired

  datatype QrData = QrData(
    tokenId: string,
    batchId: Option<string>,
    amount: int,
    txHash: string,
    timestamp: string,
    status: QrStatus)

  /** A scanned certificate payload; `contract` and `network` are read from
      untrusted JSON, so they are kept as strings. */
  datatype QrPayload = QrPayload(
    qrType: QrType, version: string, contract: string, network: string, data: QrData)
}
