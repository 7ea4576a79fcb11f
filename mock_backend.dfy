/** services/mockBackend.ts: the in-memory registry (batches, dynamic
    projects), the audit chain, retirement anchoring, the pre-auth order
    holding area and the tokenization request queue. The module-level tables
    are the fields of class `Backend`; `sha256` is its constant `H`, an
    arbitrary deterministic function. The pure functions before the class
    state what each table operation computes. */
module MockBackend {
  import opened Types
  import opened Js
  import opened AuditChain

  /** An entry of `dynamicProjects`. */
  datatype ProjectEntry = ProjectEntry(project: CarbonProject, state: TokenState)

  /** `Partial<Batch>` as `createBatch` reads it. */
  datatype BatchSpec = BatchSpec(
    batchId: Option<string>,
    projectId: Option<string>,
    tokenTicker: Option<string>,
    totalTons: Option<int>,
    state: Option<TokenState>,
    metadataCid: Option<string>,
    txHash: Option<string>)

  /** `Omit<PreAuthOrder, 'id' | 'status'>`. */
  datatype PreAuthRequest = PreAuthRequest(
    userId: string, ticker: string, side: Side, amount: int, limitPrice: int, expiry: int, signature: string)

  // --- Keys of the tables ---

  function BatchIds(bs: seq<Batch>): seq<string> {
    seq(|bs|, i requires 0 <= i < |bs| => bs[i].batchId)
  }

  function BatchTickers(bs: seq<Batch>): seq<string> {
    seq(|bs|, i requires 0 <= i < |bs| => bs[i].tokenTicker)
  }

  function ProjectIds(ps: seq<ProjectEntry>): seq<string> {
    seq(|ps|, i requires 0 <= i < |ps| => ps[i].project.id)
  }

  function ProjectTickers(ps: seq<ProjectEntry>): seq<string> {
    seq(|ps|, i requires 0 <= i < |ps| => ps[i].project.tokenTicker)
  }

  function OrderIds(os: seq<PreAuthOrder>): seq<string> {
    seq(|os|, i requires 0 <= i < |os| => os[i].id)
  }

  function RequestIds(rs: seq<TokenizationRequest>): seq<string> {
    seq(|rs|, i requires 0 <= i < |rs| => rs[i].id)
  }

  /** At most one dynamic project per id. */
  predicate UniqueIds(ps: seq<ProjectEntry>) {
    forall i, j :: 0 <= i < j < |ps| ==> ps[i].project.id != ps[j].project.id
  }

  // --- Registry ---

  /** The batch `initBatches` derives from a configured project. */
  function InitialBatch(p: CarbonProject, clock: Clock, nonce: string): Batch {
    Batch(p.tokenTicker + "-2024-A", p.id, p.tokenTicker, p.availableSupply, 0, Authorized,
          "QmMockHash" + p.id, ["https://registry.verra.org/" + p.id + "/report.pdf"], clock.millis,
          Some("E5C38" + nonce + "..."))
  }

  /** `initBatches`' table: one AUTHORIZED batch `<ticker>-2024-A` per project, in order. */
  function InitialBatches(projects: seq<CarbonProject>, clock: Clock, rand: nat -> string): (r: seq<Batch>)
    ensures |r| == |projects|
    ensures forall i :: 0 <= i < |r| ==>
      r[i].batchId == projects[i].tokenTicker + "-2024-A" && r[i].projectId == projects[i].id &&
      r[i].tokenTicker == projects[i].tokenTicker && r[i].totalTons == projects[i].availableSupply &&
      r[i].issuedTons == 0 && r[i].state == Authorized
  {
    var r := seq(|projects|, i requires 0 <= i < |projects| => InitialBatch(projects[i], clock, rand(i)));
    assert forall i | 0 <= i < |r| :: r[i] == InitialBatch(projects[i], clock, rand(i));
    r
  }

  /** `checkDuplication`: the source's test, whose second disjunct is subsumed
      by the first, so the answer is "some batch has this ticker" whatever the vintage. */
  function IsDuplicate(bs: seq<Batch>, ticker: string, vintage: string): (r: bool)
    ensures r <==> ticker in BatchTickers(bs)
  {
    assert forall i | 0 <= i < |bs| :: BatchTickers(bs)[i] == bs[i].tokenTicker;
    exists i | 0 <= i < |bs| ::
      bs[i].tokenTicker == ticker || (Includes(bs[i].batchId, vintage) && bs[i].tokenTicker == ticker)
  }

  lemma DuplicationIgnoresVintage(bs: seq<Batch>, ticker: string, v1: string, v2: string)
    ensures IsDuplicate(bs, ticker, v1) == IsDuplicate(bs, ticker, v2)
  {
  }

  /** The batch `createBatch` builds from `Partial<Batch>`: `||` defaults (an
      empty string or zero counts as absent), no tons issued, no MRV reports. */
  function NewBatch(spec: BatchSpec, clock: Clock, nonce: string): (b: Batch)
    ensures b.batchId == OrString(spec.batchId, "NEW-" + NatToString(clock.millis))
    ensures b.projectId == OrString(spec.projectId, "proj-new")
    ensures b.tokenTicker == OrString(spec.tokenTicker, "TKN")
    ensures b.totalTons == OrNumber(spec.totalTons, 0)
    ensures b.state == (if spec.state.Some? then spec.state.value else Issued)
    ensures b.issuedTons == 0 && b.mrvReports == [] && b.created == clock.millis
    ensures b.txHash.Some?
  {
    Batch(OrString(spec.batchId, "NEW-" + NatToString(clock.millis)),
          OrString(spec.projectId, "proj-new"),
          OrString(spec.tokenTicker, "TKN"),
          OrNumber(spec.totalTons, 0),
          0,
          if spec.state.Some? then spec.state.value else Issued,
          OrString(spec.metadataCid, ""),
          [],
          clock.millis,
          Some(OrString(spec.txHash, "MINT-" + nonce)))
  }

  function IssuanceText(b: Batch): string {
    "Created new batch " + b.batchId + " [" + TokenStateName(b.state) + "]"
  }

  /** The batch `saveProject` asks `createBatch` for. */
  function ProjectBatchSpec(project: CarbonProject, state: TokenState): BatchSpec {
    BatchSpec(None, Some(project.id), Some(project.tokenTicker), Some(project.availableSupply),
              Some(state), Some("CID-" + project.id), None)
  }

  /** `saveProject`'s effect on the batch table and the audit log: when no
      batch has the project's ticker, `createBatch` adds one and logs
      ISSUANCE; otherwise the first such batch takes the state, unlogged. */
  function SaveBatches(D: EventDigest, batches: seq<Batch>, log: seq<AuditLogEntry>, project: CarbonProject,
                       state: TokenState, clock: Clock, nonce: string): (r: (seq<Batch>, seq<AuditLogEntry>))
    ensures project.tokenTicker in BatchTickers(batches) <==> |r.0| == |batches|
    ensures project.tokenTicker in BatchTickers(batches) <==> r.1 == log
    ensures match IndexOf(BatchTickers(batches), project.tokenTicker)
      case Some(i) =>
        BatchTickers(r.0) == BatchTickers(batches) && r.0[i].state == state &&
        r.0[i].(state := batches[i].state) == batches[i] &&
        forall j :: 0 <= j < |r.0| && j != i ==> r.0[j] == batches[j]
      case None =>
        |r.0| == |batches| + 1 && |r.1| == |log| + 1 &&
        r.0[1..] == batches && r.0[0].state == state && r.0[0].projectId == OrString(Some(project.id), "proj-new") &&
        r.0[0].tokenTicker == OrString(Some(project.tokenTicker), "TKN") &&
        r.0[0].totalTons == project.availableSupply && r.0[0].issuedTons == 0 &&
        r.1[1..] == log && r.1[0].eventType == "ISSUANCE" && r.1[0].entityId == r.0[0].batchId
  {
    match IndexOf(BatchTickers(batches), project.tokenTicker)
    case None =>
      var b := NewBatch(ProjectBatchSpec(project, state), clock, nonce);
      ([b] + batches, Append(D, log, "ISSUANCE", b.batchId, IssuanceText(b), clock))
    case Some(i) =>
      (batches[i := batches[i].(state := state)], log)
  }

  /** After `saveProject` the project's ticker has a batch, and the first one
      is in the requested state; at most one entry is logged. (An empty
      ticker would fall back to 'TKN' in a new batch.) */
  lemma SaveBatchesSetsState(D: EventDigest, batches: seq<Batch>, log: seq<AuditLogEntry>, project: CarbonProject,
                             state: TokenState, clock: Clock, nonce: string)
    requires project.tokenTicker != ""
    ensures var (bs, l) := SaveBatches(D, batches, log, project, state, clock, nonce);
      match IndexOf(BatchTickers(bs), project.tokenTicker)
      case None => false
      case Some(j) => bs[j].state == state && (l == log || l[1..] == log)
  {
    var (bs, l) := SaveBatches(D, batches, log, project, state, clock, nonce);
    var t := BatchTickers(batches);
    match IndexOf(t, project.tokenTicker)
    case None =>
      assert BatchTickers(bs) == [bs[0].tokenTicker] + t;
      IndexOfIs(BatchTickers(bs), project.tokenTicker, 0);
    case Some(i) =>
      assert BatchTickers(bs) == t;
  }

  /** `saveProject`'s upsert of `dynamicProjects` by project id: the first entry
      with that id is replaced, or the entry is pushed when there is none. */
  function Upsert(ps: seq<ProjectEntry>, project: CarbonProject, state: TokenState): (r: seq<ProjectEntry>)
    ensures ProjectIds(r) == if project.id in ProjectIds(ps) then ProjectIds(ps) else ProjectIds(ps) + [project.id]
    ensures ProjectEntry(project, state) in r
    ensures forall e :: e in ps && e.project.id != project.id ==> e in r
    ensures forall e :: e in r ==> e in ps || e == ProjectEntry(project, state)
    ensures UniqueIds(ps) ==> UniqueIds(r)
    ensures UniqueIds(ps) ==> forall e :: e in r && e.project.id == project.id ==> e == ProjectEntry(project, state)
  {
    match IndexOf(ProjectIds(ps), project.id)
    case Some(i) =>
      var r := ps[i := ProjectEntry(project, state)];
      assert ProjectIds(r) == ProjectIds(ps);
      assert forall e :: e in ps && e != ps[i] ==> e in r by {
        forall e | e in ps && e != ps[i] ensures e in r {
          var j :| 0 <= j < |ps| && ps[j] == e;
          assert r[j] == e;
        }
      }
      r
    case None =>
      var r := ps + [ProjectEntry(project, state)];
      assert forall i | 0 <= i < |ps| :: ProjectIds(ps)[i] == ps[i].project.id;
      assert ProjectIds(r) == ProjectIds(ps) + [project.id];
      r
  }

  /** `getPublicProjects`: the projects of the entries that are not DRAFT, in order. */
  function PublicProjects(ps: seq<ProjectEntry>): (r: seq<CarbonProject>)
    ensures |r| <= |ps|
    ensures forall p :: p in r <==> exists e :: e in ps && e.state != Draft && e.project == p
  {
    if ps == [] then []
    else
      var rest := PublicProjects(ps[1..]);
      assert forall e :: e in ps <==> e == ps[0] || e in ps[1..];
      if ps[0].state != Draft then [ps[0].project] + rest else rest
  }

  /** `filter` keeps the order: the public list of a concatenation is the
      concatenation of the public lists. */
  lemma {:induction false} PublicProjectsInOrder(a: seq<ProjectEntry>, b: seq<ProjectEntry>)
    ensures PublicProjects(a + b) == PublicProjects(a) + PublicProjects(b)
    decreases |a|
  {
    if a == [] {
      assert a + b == b;
    } else {
      var c := a + b;
      assert c[0] == a[0] && c[1..] == a[1..] + b;
      PublicProjectsInOrder(a[1..], b);
      assert PublicProjects(c) == (if a[0].state != Draft then [a[0].project] else []) + PublicProjects(c[1..]);
    }
  }

  /** A single entry is listed exactly when it is not a DRAFT. */
  lemma PublicProjectsSingle(e: ProjectEntry)
    ensures PublicProjects([e]) == if e.state != Draft then [e.project] else []
  {
    assert [e][1..] == [];
  }

  /** With one entry per id, a project saved as DRAFT is never public. */
  lemma PublicProjectsExcludeDrafts(ps: seq<ProjectEntry>, e: ProjectEntry)
    requires UniqueIds(ps) && e in ps && e.state == Draft
    ensures e.project !in PublicProjects(ps)
  {
  }

  /** With one entry per id, a project saved in a state other than DRAFT is
      public afterwards, and one saved as DRAFT is not. */
  lemma UpsertPublic(ps: seq<ProjectEntry>, project: CarbonProject, state: TokenState)
    requires UniqueIds(ps)
    ensures project in PublicProjects(Upsert(ps, project, state)) <==> state != Draft
  {
    var r := Upsert(ps, project, state);
    if state == Draft {
      PublicProjectsExcludeDrafts(r, ProjectEntry(project, state));
    }
  }

  /** `getTokenizationRequests(address)`: the requests from `address`, in order. */
  function RequestsOf(rs: seq<TokenizationRequest>, address: string): (r: seq<TokenizationRequest>)
    ensures |r| <= |rs|
    ensures forall q :: q in r <==> q in rs && q.requesterAddress == address
  {
    if rs == [] then []
    else
      var rest := RequestsOf(rs[1..], address);
      assert forall q :: q in rs <==> q == rs[0] || q in rs[1..];
      if rs[0].requesterAddress == address then [rs[0]] + rest else rest
  }

  /** `filter` keeps the order: the requests of a concatenation are the
      concatenation of the requests, and a single request is kept exactly
      when it is from the address. */
  lemma {:induction false} RequestsOfInOrder(a: seq<TokenizationRequest>, b: seq<TokenizationRequest>, address: string)
    ensures RequestsOf(a + b, address) == RequestsOf(a, address) + RequestsOf(b, address)
    ensures forall q :: RequestsOf([q], address) == if q.requesterAddress == address then [q] else []
    decreases |a|
  {
    if a == [] {
      assert a + b == b;
    } else {
      assert (a + b)[0] == a[0] && (a + b)[1..] == a[1..] + b;
      RequestsOfInOrder(a[1..], b, address);
    }
    forall q ensures RequestsOf([q], address) == if q.requesterAddress == address then [q] else [] {
      assert [q][1..] == [];
    }
  }

  /** The first dynamic project with this ticker takes the new state. */
  function SetProjectStateByTicker(ps: seq<ProjectEntry>, ticker: string, state: TokenState): (r: seq<ProjectEntry>)
    ensures ProjectIds(r) == ProjectIds(ps) && |r| == |ps|
    ensures match IndexOf(ProjectTickers(ps), ticker)
      case None => r == ps
      case Some(i) =>
        r[i].state == state && r[i].project == ps[i].project &&
        forall j :: 0 <= j < |r| && j != i ==> r[j] == ps[j]
  {
    match IndexOf(ProjectTickers(ps), ticker)
    case None => ps
    case Some(i) =>
      var r := ps[i := ps[i].(state := state)];
      assert ProjectIds(r) == ProjectIds(ps);
      r
  }

  function StateChangeText(batchId: string, from: TokenState, to: TokenState, reason: string): string {
    "Batch " + batchId + " moved from " + TokenStateName(from) + " to " + TokenStateName(to) + ". Reason: " + reason
  }

  // --- Retirement anchoring ---

  /** The single leaf of the "merkle tree": `${txHash}:${batchId}:${amount}:${holder}`. */
  function Leaf(txHash: string, batchId: string, amount: int, holder: string): string {
    txHash + ":" + batchId + ":" + IntToString(amount) + ":" + holder
  }

  function MerkleRoot(H: string -> string, txHash: string, batchId: string, amount: int, holder: string): string {
    "ar://" + H(Leaf(txHash, batchId, amount, holder))
  }

  /** Recomputing the root from a record's own fields reproduces its `merkleRoot`. */
  predicate RootMatches(H: string -> string, r: RetirementRecord) {
    r.merkleRoot == MerkleRoot(H, r.txHash, r.batchId, r.amount, r.holderAddress)
  }

  /** `CERT-` followed by the last six digits of the clock. */
  function CertificateId(clock: Clock): string {
    "CERT-" + SliceLast(NatToString(clock.millis), 6)
  }

  /** The record `anchorRetirement` returns. */
  function Retirement(H: string -> string, txHash: string, batchId: string, amount: int, holder: string,
                      purpose: string, clock: Clock): (r: RetirementRecord)
    ensures RootMatches(H, r)
    ensures r.txHash == txHash && r.batchId == batchId && r.amount == amount &&
            r.holderAddress == holder && r.purpose == purpose
    ensures r.certificateId == CertificateId(clock) && r.timestamp == clock.millis
    ensures r.ipfsCid == "ipfs://" + H(r.certificateId)
  {
    var certId := CertificateId(clock);
    RetirementRecord(certId, txHash, batchId, holder, amount, purpose, clock.millis,
                     MerkleRoot(H, txHash, batchId, amount, holder), "ipfs://" + H(certId))
  }

  function RetirementText(r: RetirementRecord): string {
    "Retirement of " + IntToString(r.amount) + " tons anchored to Arweave. Root: " + Prefix(r.merkleRoot, 10) + "..."
  }

  lemma ColonPosition(x: string, r: string)
    requires ':' !in x
    ensures IndexOf(x + ":" + r, ':') == Some(|x|)
  {
    var s := x + ":" + r;
    assert s[|x|] == ':';
    var k := IndexOf(s, ':');
    assert k.Some?;
  }

  lemma ColonSplit(x: string, y: string, r1: string, r2: string)
    requires ':' !in x && ':' !in y && x + ":" + r1 == y + ":" + r2
    ensures x == y && r1 == r2
  {
    ColonPosition(x, r1);
    ColonPosition(y, r2);
    assert |x| == |y|;
    assert x == (x + ":" + r1)[..|x|] == (y + ":" + r2)[..|y|] == y;
    assert r1 == (x + ":" + r1)[|x| + 1..] == (y + ":" + r2)[|y| + 1..] == r2;
  }

  /** The leaf commits to the four fields, provided the transaction hash and
      the batch id contain no ':' (with a ':' two different records can share a leaf). */
  lemma LeafInjective(tx1: string, b1: string, a1: int, h1: string,
                      tx2: string, b2: string, a2: int, h2: string)
    requires ':' !in tx1 && ':' !in tx2 && ':' !in b1 && ':' !in b2
    requires Leaf(tx1, b1, a1, h1) == Leaf(tx2, b2, a2, h2)
    ensures tx1 == tx2 && b1 == b2 && a1 == a2 && h1 == h2
  {
    var n1, n2 := IntToString(a1), IntToString(a2);
    assert Leaf(tx1, b1, a1, h1) == tx1 + ":" + (b1 + ":" + (n1 + ":" + h1));
    assert Leaf(tx2, b2, a2, h2) == tx2 + ":" + (b2 + ":" + (n2 + ":" + h2));
    ColonSplit(tx1, tx2, b1 + ":" + (n1 + ":" + h1), b2 + ":" + (n2 + ":" + h2));
    ColonSplit(b1, b2, n1 + ":" + h1, n2 + ":" + h2);
    ColonSplit(n1, n2, h1, h2);
    IntToStringInjective(a1, a2);
  }

  lemma LeafAmbiguousWithColons()
    ensures Leaf("A:B", "C", 1, "r") == Leaf("A", "B:C", 1, "r")
  {
  }

  // --- Pre-auth orders and tokenization requests ---

  function PreAuthId(clock: Clock): string {
    "preauth-" + NatToString(clock.millis)
  }

  function PreAuthText(o: PreAuthRequest): string {
    "Received delegated auth for " + SideName(o.side) + " " + IntToString(o.amount) + " " + o.ticker
  }

  function SettlementText(id: string): string {
    "Pre-Auth Order " + id + " successfully settled on XRPL via Settlement Service."
  }

  function RequestText(q: TokenizationRequest): string {
    "Received tokenization request for " + IntToString(q.amount) + " " + q.tokenTicker + " from " + q.requesterAddress
  }

  function ApprovalText(q: TokenizationRequest): string {
    "Issuer " + IssuerNameText(q.issuerName) + " approved tokenization. Ready for minting."
  }

  /** Tamper evidence for the backend: two valid backends hashing with the same
      collision-free `sha256`, which never yields the genesis constant, whose
      logs have the same head hash, hold the same events and timestamps. */
  lemma BackendLogsDetermined(b1: Backend, b2: Backend)
    requires b1.Valid() && b2.Valid() && b1.H == b2.H
    requires forall x, y :: b1.H(x) == b1.H(y) ==> x == y
    requires forall x :: b1.H(x) != GENESIS_HASH
    requires PrevHash(b1.auditLog) == PrevHash(b2.auditLog)
    ensures |b1.auditLog| == |b2.auditLog| && b1.stamps == b2.stamps
    ensures forall i :: 0 <= i < |b1.auditLog| ==> SameEvent(b1.auditLog[i], b2.auditLog[i])
  {
    LinkedSameHash(b2.D, b1.D, b1.H, b2.auditLog, b2.stamps);
    HashChainDetermined(b1.D, b1.H, b1.auditLog, b1.stamps, b2.auditLog, b2.stamps);
  }

  class Backend {
    const H: string -> string
    /** The audit digest: `H` of the JSON payload (see the constructor). */
    const D: EventDigest
    var batches: seq<Batch>
    var dynamicProjects: seq<ProjectEntry>
    var auditLog: seq<AuditLogEntry>
    /** The timestamp text each audit entry's payload hashed, newest first. */
    ghost var stamps: seq<string>
    var retirements: seq<RetirementRecord>
    var preAuthOrders: seq<PreAuthOrder>
    var tokenizationRequests: seq<TokenizationRequest>

    /** The digest is `sha256` of the JSON payload, the audit log is a chain,
        and the dynamic projects have one entry per id. */
    ghost predicate Valid()
      reads this
    {
      HashesPayload(D, H) && Linked(D, auditLog, stamps) && UniqueIds(dynamicProjects)
    }

    /** The tables as the module starts them: all empty. */
    constructor (hash: string -> string)
      ensures Valid() && H == hash && HashesPayload(D, H)
      ensures batches == [] && dynamicProjects == [] && auditLog == [] && retirements == []
      ensures preAuthOrders == [] && tokenizationRequests == []
    {
      H := hash;
      D := (e, i, d, p, t) => hash(Payload(e, i, d, p, t));
      batches, dynamicProjects, auditLog, stamps := [], [], [], [];
      retirements, preAuthOrders, tokenizationRequests := [], [], [];
    }

    /** `logEvent`: puts a new entry, chained to the current head, in front of the log. */
    method LogEvent(eventType: string, entityId: string, description: string, clock: Clock)
      requires Valid()
      modifies this
      ensures Valid()
      ensures auditLog == Append(D, old(auditLog), eventType, entityId, description, clock)
      ensures stamps == [clock.iso] + old(stamps)
      ensures batches == old(batches) && dynamicProjects == old(dynamicProjects)
      ensures retirements == old(retirements) && preAuthOrders == old(preAuthOrders)
      ensures tokenizationRequests == old(tokenizationRequests)
    {
      var prevHash := if |auditLog| > 0 then auditLog[0].payloadHash else GENESIS_HASH;
      var entry := AuditLogEntry("log-" + NatToString(clock.millis), clock.millis, eventType, entityId,
                                 D(eventType, entityId, description, prevHash, clock.iso), description);
      AppendLinked(D, auditLog, stamps, eventType, entityId, description, clock);
      auditLog := [entry] + auditLog;
      stamps := [clock.iso] + stamps;
    }

    /** `initBatches`: fills the batch table from the configured projects,
        unless it already holds a batch. Nothing is logged. */
    method InitBatches(projects: seq<CarbonProject>, clock: Clock, rand: nat -> string)
      requires Valid()
      modifies this
      ensures Valid()
      ensures batches == if old(batches) != [] then old(batches) else InitialBatches(projects, clock, rand)
      ensures dynamicProjects == old(dynamicProjects) && auditLog == old(auditLog) && stamps == old(stamps)
      ensures retirements == old(retirements) && preAuthOrders == old(preAuthOrders)
      ensures tokenizationRequests == old(tokenizationRequests)
    {
      if |batches| > 0 {
        return;
      }
      batches := InitialBatches(projects, clock, rand);
    }

    /** `checkDuplication`. */
    method CheckDuplication(ticker: string, vintage: string) returns (duplicate: bool)
      ensures duplicate <==> ticker in BatchTickers(batches)
    {
      duplicate := IsDuplicate(batches, ticker, vintage);
    }

    /** `createBatch`: puts the new batch in front and logs one ISSUANCE entry. */
    method CreateBatch(spec: BatchSpec, clock: Clock, nonce: string) returns (b: Batch)
      requires Valid()
      modifies this
      ensures Valid()
      ensures b == NewBatch(spec, clock, nonce)
      ensures batches == [b] + old(batches)
      ensures forall vintage :: IsDuplicate(batches, b.tokenTicker, vintage)
      ensures auditLog == Append(D, old(auditLog), "ISSUANCE", b.batchId, IssuanceText(b), clock)
      ensures dynamicProjects == old(dynamicProjects)
      ensures retirements == old(retirements) && preAuthOrders == old(preAuthOrders)
      ensures tokenizationRequests == old(tokenizationRequests)
    {
      b := NewBatch(spec, clock, nonce);
      batches := [b] + batches;
      assert BatchTickers(batches)[0] == b.tokenTicker;
      LogEvent("ISSUANCE", b.batchId, IssuanceText(b), clock);
    }

    /** `saveProject`: upserts the project by id, then creates a batch for its
        ticker if none exists, or else sets the first such batch's state
        (without an audit entry). */
    method SaveProject(project: CarbonProject, state: TokenState, clock: Clock, nonce: string)
      requires Valid()
      modifies this
      ensures Valid()
      ensures dynamicProjects == Upsert(old(dynamicProjects), project, state)
      ensures (batches, auditLog) == SaveBatches(D, old(batches), old(auditLog), project, state, clock, nonce)
      ensures retirements == old(retirements) && preAuthOrders == old(preAuthOrders)
      ensures tokenizationRequests == old(tokenizationRequests)
    {
      dynamicProjects := Upsert(dynamicProjects, project, state);
      var found := IndexOf(BatchTickers(batches), project.tokenTicker);
      if found.None? {
        var _ := CreateBatch(ProjectBatchSpec(project, state), clock, nonce);
      } else {
        var i := found.value;
        batches := batches[i := batches[i].(state := state)];
      }
    }

    /** `updateBatchState`: any target state is accepted. An unknown id is an
        error with no effect; otherwise the first batch with that id and the
        first dynamic project with its ticker take the new state, and one
        STATE_CHANGE entry is logged. */
    method UpdateBatchState(batchId: string, newState: TokenState, reason: string, clock: Clock)
      returns (r: Result<Batch>)
      requires Valid()
      modifies this
      ensures Valid()
      ensures match IndexOf(BatchIds(old(batches)), batchId)
        case None =>
          r == Err(BatchNotFound) && batches == old(batches) &&
          dynamicProjects == old(dynamicProjects) && auditLog == old(auditLog)
        case Some(i) =>
          var b := old(batches)[i];
          r == Ok(b.(state := newState)) &&
          batches == old(batches)[i := b.(state := newState)] &&
          dynamicProjects == SetProjectStateByTicker(old(dynamicProjects), b.tokenTicker, newState) &&
          auditLog == Append(D, old(auditLog), "STATE_CHANGE", batchId,
                             StateChangeText(batchId, b.state, newState, reason), clock)
      ensures retirements == old(retirements) && preAuthOrders == old(preAuthOrders)
      ensures tokenizationRequests == old(tokenizationRequests)
    {
      var found := IndexOf(BatchIds(batches), batchId);
      if found.None? {
        return Err(BatchNotFound);
      }
      var i := found.value;
      var oldState := batches[i].state;
      var batch := batches[i].(state := newState);
      batches := batches[i := batch];
      dynamicProjects := SetProjectStateByTicker(dynamicProjects, batch.tokenTicker, newState);
      LogEvent("STATE_CHANGE", batchId, StateChangeText(batchId, oldState, newState, reason), clock);
      r := Ok(batch);
    }

    /** `anchorRetirement`: builds the certificate, puts it in front of the
        retirements and logs one RETIREMENT_ANCHORED entry. */
    method AnchorRetirement(txHash: string, batchId: string, amount: int, holder: string, purpose: string,
                            clock: Clock)
      returns (rec: RetirementRecord)
      requires Valid()
      modifies this
      ensures Valid()
      ensures rec == Retirement(H, txHash, batchId, amount, holder, purpose, clock)
      ensures retirements == [rec] + old(retirements)
      ensures auditLog == Append(D, old(auditLog), "RETIREMENT_ANCHORED", rec.certificateId, RetirementText(rec), clock)
      ensures batches == old(batches) && dynamicProjects == old(dynamicProjects)
      ensures preAuthOrders == old(preAuthOrders) && tokenizationRequests == old(tokenizationRequests)
    {
      var certId := CertificateId(clock);
      var leafData := Leaf(txHash, batchId, amount, holder);
      var merkleRoot := "ar://" + H(leafData);
      rec := RetirementRecord(certId, txHash, batchId, holder, amount, purpose, clock.millis, merkleRoot,
                              "ipfs://" + H(certId));
      retirements := [rec] + retirements;
      LogEvent("RETIREMENT_ANCHORED", certId, RetirementText(rec), clock);
    }

    /** `submitPreAuth`: appends the order as ACTIVE and logs PREAUTH_RECEIVED. */
    method SubmitPreAuth(order: PreAuthRequest, clock: Clock) returns (o: PreAuthOrder)
      requires Valid()
      modifies this
      ensures Valid()
      ensures o == PreAuthOrder(PreAuthId(clock), order.userId, order.ticker, order.side, order.amount,
                                order.limitPrice, order.expiry, order.signature, Active)
      ensures preAuthOrders == old(preAuthOrders) + [o]
      ensures auditLog == Append(D, old(auditLog), "PREAUTH_RECEIVED", o.id, PreAuthText(order), clock)
      ensures batches == old(batches) && dynamicProjects == old(dynamicProjects)
      ensures retirements == old(retirements) && tokenizationRequests == old(tokenizationRequests)
    {
      o := PreAuthOrder(PreAuthId(clock), order.userId, order.ticker, order.side, order.amount,
                        order.limitPrice, order.expiry, order.signature, Active);
      preAuthOrders := preAuthOrders + [o];
      LogEvent("PREAUTH_RECEIVED", o.id, PreAuthText(order), clock);
    }

    /** `fillPreAuth`: an unknown id changes nothing; otherwise the first order
        with that id becomes FILLED, whatever its status, and one
        SETTLEMENT_EXECUTED entry is logged. */
    method FillPreAuth(id: string, clock: Clock)
      requires Valid()
      modifies this
      ensures Valid()
      ensures match IndexOf(OrderIds(old(preAuthOrders)), id)
        case None => preAuthOrders == old(preAuthOrders) && auditLog == old(auditLog)
        case Some(i) =>
          preAuthOrders == old(preAuthOrders)[i := old(preAuthOrders)[i].(status := Filled)] &&
          auditLog == Append(D, old(auditLog), "SETTLEMENT_EXECUTED", id, SettlementText(id), clock)
      ensures batches == old(batches) && dynamicProjects == old(dynamicProjects)
      ensures retirements == old(retirements) && tokenizationRequests == old(tokenizationRequests)
    {
      var found := IndexOf(OrderIds(preAuthOrders), id);
      if found.None? {
        return;
      }
      var i := found.value;
      preAuthOrders := preAuthOrders[i := preAuthOrders[i].(status := Filled)];
      LogEvent("SETTLEMENT_EXECUTED", id, SettlementText(id), clock);
    }

    /** `saveTokenizationRequest`: appends the request as given and logs TOKEN_REQUEST. */
    method SaveTokenizationRequest(req: TokenizationRequest, clock: Clock) returns (saved: TokenizationRequest)
      requires Valid()
      modifies this
      ensures Valid()
      ensures saved == req
      ensures tokenizationRequests == old(tokenizationRequests) + [req]
      ensures auditLog == Append(D, old(auditLog), "TOKEN_REQUEST", req.id, RequestText(req), clock)
      ensures batches == old(batches) && dynamicProjects == old(dynamicProjects)
      ensures retirements == old(retirements) && preAuthOrders == old(preAuthOrders)
    {
      tokenizationRequests := tokenizationRequests + [req];
      LogEvent("TOKEN_REQUEST", req.id, RequestText(req), clock);
      saved := req;
    }

    /** `approveRequest`: an unknown id is an error with no effect; otherwise the
        first request with that id becomes APPROVED whatever its status, the
        others are untouched, and one TOKEN_APPROVED entry is logged. */
    method ApproveRequest(requestId: string, clock: Clock) returns (r: Result<TokenizationRequest>)
      requires Valid()
      modifies this
      ensures Valid()
      ensures match IndexOf(RequestIds(old(tokenizationRequests)), requestId)
        case None =>
          r == Err(RequestNotFound) &&
          tokenizationRequests == old(tokenizationRequests) && auditLog == old(auditLog)
        case Some(i) =>
          var q := old(tokenizationRequests)[i].(status := Approved);
          r == Ok(q) && tokenizationRequests == old(tokenizationRequests)[i := q] &&
          auditLog == Append(D, old(auditLog), "TOKEN_APPROVED", q.id, ApprovalText(q), clock)
      ensures batches == old(batches) && dynamicProjects == old(dynamicProjects)
      ensures retirements == old(retirements) && preAuthOrders == old(preAuthOrders)
    {
      var found := IndexOf(RequestIds(tokenizationRequests), requestId);
      if found.None? {
        return Err(RequestNotFound);
      }
      var i := found.value;
      var q := tokenizationRequests[i].(status := Approved);
      tokenizationRequests := tokenizationRequests[i := q];
      LogEvent("TOKEN_APPROVED", q.id, ApprovalText(q), clock);
      r := Ok(q);
    }
  }
}
