/** The ledger's state and what posting does to it: validation, hash linking and commit. */
module Ledger {
  import opened Text
  import opened Sums
  import opened Posting
  import opened HashChain
  import opened Chart

  const MAX_ENTRIES_PER_POSTING: nat := 64

  datatype AuditEvent = AuditEvent(
    eventId: string, postingId: string, entryIds: seq<string>, hashHead: string, createdAt: string)

  datatype HashChainAnchor = HashChainAnchor(
    postingId: string, headHash: string, globalSequenceHead: string, createdAt: string)

  datatype BalanceSnapshot = BalanceSnapshot(
    accountId: string, asset: string, balance: int, asOfTs: string, lastEntryId: string, lastSequence: nat)

  datatype LedgerState = LedgerState(
    accounts: map<string, Account>,
    postings: map<string, PostingRecord>,
    entries: seq<EntryRecord>,
    sequence: nat,
    auditEvents: seq<AuditEvent>,
    anchors: map<string, HashChainAnchor>,
    globalChainHead: string,
    snapshots: seq<BalanceSnapshot>)

  function EmptyState(): LedgerState {
    LedgerState(map[], map[], [], 0, [], map[], Genesis(), [])
  }

  // ---------- Validation ----------

  /** An entry of a request once its direction has been parsed. */
  datatype Line = Line(accountId: string, dir: Direction, amount: nat, asset: string)

  datatype Rejection =
    | NoEntries | TooManyEntries
    | ZeroAmount | UnknownAsset | OverAssetMax | OverMaxAmount | BadDirection
    | AccountNotFound | AccountNotActive | UnknownType | DirectionRefused

  datatype PostError = Validation(why: Rejection) | Unbalanced

  /** The first complaint, going through the list in order. */
  function FirstError<T>(s: seq<T>, check: T -> Option<Rejection>): (r: Option<Rejection>)
    ensures r.None? <==> forall t :: t in s ==> check(t).None?
  {
    if s == [] then None
    else if check(s[0]).Some? then check(s[0])
    else FirstError(s[1..], check)
  }

  function CheckAmount(e: EntryInput): Option<Rejection> {
    if e.amount == 0 then Some(ZeroAmount)
    else if FindAsset(e.asset).None? then Some(UnknownAsset)
    else if e.amount > FindAsset(e.asset).value then Some(OverAssetMax)
    else if e.amount > MAX_AMOUNT then Some(OverMaxAmount)
    else None
  }

  function CheckDirection(e: EntryInput): Option<Rejection> {
    if ParseDirection(e.direction).None? then Some(BadDirection) else None
  }

  function ParseLine(e: EntryInput): Line
    requires ParseDirection(e.direction).Some?
  {
    Line(e.accountId, ParseDirection(e.direction).value, e.amount, e.asset)
  }

  function ParseLines(es: seq<EntryInput>): (lines: seq<Line>)
    requires forall e :: e in es ==> ParseDirection(e.direction).Some?
    ensures |lines| == |es| && forall i :: 0 <= i < |es| ==> lines[i] == ParseLine(es[i])
  {
    seq(|es|, i requires 0 <= i < |es| && es[i] in es => ParseLine(es[i]))
  }

  function OneSide(dir: Direction, asset: string): Line -> int {
    (l: Line) => if l.dir == dir && l.asset == asset then l.amount else 0
  }

  function Total(lines: seq<Line>, dir: Direction, asset: string): int {
    Sum(lines, OneSide(dir, asset))
  }

  /** Debits equal credits, asset by asset. */
  ghost predicate Balanced(lines: seq<Line>) {
    forall asset :: Total(lines, Debit, asset) == Total(lines, Credit, asset)
  }

  datatype Checked = Good(lines: seq<Line>) | Bad(error: PostError)

  /** The checks made before any state is read. */
  ghost function Validate(req: PostingRequest): (r: Checked)
    ensures r.Good? ==> |r.lines| == |req.entries|
  {
    if req.entries == [] then Bad(Validation(NoEntries))
    else if |req.entries| > MAX_ENTRIES_PER_POSTING then Bad(Validation(TooManyEntries))
    else if FirstError(req.entries, CheckAmount).Some? then
      Bad(Validation(FirstError(req.entries, CheckAmount).value))
    else if FirstError(req.entries, CheckDirection).Some? then
      Bad(Validation(FirstError(req.entries, CheckDirection).value))
    else if !Balanced(ParseLines(req.entries)) then Bad(Unbalanced)
    else Good(ParseLines(req.entries))
  }

  function CheckStatus(accounts: map<string, Account>): Line -> Option<Rejection> {
    (l: Line) =>
      if l.accountId !in accounts then Some(AccountNotFound)
      else if accounts[l.accountId].status != "ACTIVE" then Some(AccountNotActive)
      else None
  }

  function CheckType(accounts: map<string, Account>): Line -> Option<Rejection> {
    (l: Line) =>
      if l.accountId !in accounts then Some(AccountNotFound)
      else
        match FindType(accounts[l.accountId].typeName)
        case None => Some(UnknownType)
        case Some(t) => if DirectionAllowed(t, l.dir) then None else Some(DirectionRefused)
  }

  /** The account checks: first every status, then every type and direction. */
  function CheckAccounts(accounts: map<string, Account>, lines: seq<Line>): Option<Rejection> {
    if FirstError(lines, CheckStatus(accounts)).Some? then FirstError(lines, CheckStatus(accounts))
    else FirstError(lines, CheckType(accounts))
  }

  // ---------- Linking and committing ----------

  /** What one posting appends: its lines with their new ids, the hash it links after and the
      last sequence number before it. */
  datatype RawBatch = Batch(
    prev: string, sequence: nat, postingId: string, createdAt: string, lines: seq<Line>, ids: seq<string>)

  type Batch = b: RawBatch | |b.lines| == |b.ids| witness Batch("", 0, "", "", [], [])

  /** The entry written for line `i` when it follows the hash `prev`. */
  function MakeEntry(env: Env, b: Batch, prev: string, i: nat): EntryRecord
    requires i < |b.lines|
  {
    var l, id := b.lines[i], b.ids[i];
    EntryRecord(id, b.postingId, l.accountId, DirText(l.dir), l.amount, l.asset, b.sequence + 1 + i, prev,
      ComputeHash(env, prev, Canonical(Fields(prev, id, l.accountId, l.dir, l.amount, l.asset, b.createdAt))),
      b.createdAt)
  }

  /** The first `n` entries of a batch, each linked to the one before it. */
  function LinkUpTo(env: Env, b: Batch, n: nat): (es: seq<EntryRecord>)
    requires n <= |b.lines|
    ensures |es| == n
  {
    if n == 0 then []
    else
      var es := LinkUpTo(env, b, n - 1);
      es + [MakeEntry(env, b, HeadFrom(b.prev, es), n - 1)]
  }

  function Link(env: Env, b: Batch): (es: seq<EntryRecord>)
    ensures |es| == |b.lines|
  {
    LinkUpTo(env, b, |b.lines|)
  }

  /** A posting request with what the environment supplies while it runs: one new entry id
      for each entry, an event id and the clock reading in seconds. */
  datatype RawJob = Job(req: PostingRequest, ids: seq<string>, eventId: string, clock: nat)

  type Job = j: RawJob | |j.ids| == |j.req.entries|
    witness Job(PostingRequest("", [], None, None), [], "", 0)

  datatype Outcome = Accepted(response: PostingResponse, replay: bool) | Rejected(error: PostError)

  function EntryIds(es: seq<EntryRecord>): (ids: seq<string>)
    ensures |ids| == |es| && forall i :: 0 <= i < |es| ==> ids[i] == es[i].entryId
  {
    seq(|es|, i requires 0 <= i < |es| => es[i].entryId)
  }

  function Respond(p: PostingRecord): PostingResponse {
    PostingResponse(p.postingId, p.status, EntryIds(p.entries), p.hashHead)
  }

  function BatchOf(prev: string, sequence: nat, job: Job, lines: seq<Line>): Batch
    requires |lines| == |job.ids|
  {
    Batch(prev, sequence, job.req.postingId, Decimal(job.clock), lines, job.ids)
  }

  /** The posting a job creates when its lines are linked as the batch `b`. */
  function NewPosting(env: Env, b: Batch, job: Job): (p: PostingRecord)
    ensures p.postingId == job.req.postingId && p.entries == Link(env, b)
  {
    PostingRecord(job.req.postingId, job.req.refTxId, job.req.memo, "POSTED",
                  HeadFrom(b.prev, Link(env, b)), Link(env, b), Decimal(job.clock))
  }

  function AnchorOf(p: PostingRecord): HashChainAnchor {
    HashChainAnchor(p.postingId, p.hashHead, p.hashHead, p.createdAt)
  }

  function EventOf(eventId: string, p: PostingRecord): AuditEvent {
    AuditEvent(eventId, p.postingId, EntryIds(p.entries), p.hashHead, p.createdAt)
  }

  /** The state after a posting is recorded everywhere it is kept. */
  function Record(s: LedgerState, eventId: string, p: PostingRecord): LedgerState {
    s.(postings := s.postings[p.postingId := p],
       entries := s.entries + p.entries,
       sequence := s.sequence + |p.entries|,
       auditEvents := s.auditEvents + [EventOf(eventId, p)],
       anchors := s.anchors[p.postingId := AnchorOf(p)],
       globalChainHead := p.hashHead)
  }

  /** `post` on an in-memory store. */
  ghost function Post(env: Env, s: LedgerState, job: Job): (LedgerState, Outcome) {
    match Validate(job.req)
    case Bad(error) => (s, Rejected(error))
    case Good(lines) => PostLines(env, s, job, lines)
  }

  function PostLines(env: Env, s: LedgerState, job: Job, lines: seq<Line>): (LedgerState, Outcome)
    requires |lines| == |job.ids|
  {
    if job.req.postingId in s.postings then (s, Accepted(Respond(s.postings[job.req.postingId]), true))
    else if CheckAccounts(s.accounts, lines).Some? then
      (s, Rejected(Validation(CheckAccounts(s.accounts, lines).value)))
    else
      var p := NewPosting(env, BatchOf(s.globalChainHead, s.sequence, job, lines), job);
      (Record(s, job.eventId, p), Accepted(Respond(p), false))
  }

  /** `create_account`; `freshId` is used when the request names no id. */
  function CreateAccount(s: LedgerState, req: CreateAccountRequest, freshId: string, clock: nat)
    : (LedgerState, Option<AccountError>)
  {
    var id := match req.accountId case Some(i) => i case None => freshId;
    if ValidateAccount(req).Some? then (s, ValidateAccount(req))
    else if id in s.accounts then (s, Some(AlreadyExists))
    else
      var a := Account(id, req.typeName, req.assetClass, req.caption, req.parentId, "ACTIVE", Decimal(clock));
      (s.(accounts := s.accounts[id := a]), None)
  }

  // ---------- Balances ----------

  /** The signed amount of an entry: debits add, credits subtract, anything else counts nothing. */
  function Delta(e: EntryRecord): int {
    var amount: int := e.amount;
    if e.direction == "DEBIT" then amount
    else if e.direction == "CREDIT" then -amount
    else 0
  }

  predicate Matches(e: EntryRecord, accountId: string, asset: string) {
    e.accountId == accountId && (asset == "" || e.asset == asset)
  }

  function Contribution(accountId: string, asset: string): EntryRecord -> int {
    (e: EntryRecord) => if Matches(e, accountId, asset) then Delta(e) else 0
  }

  /** `compute_balance`; the empty asset means every asset. */
  function Balance(log: seq<EntryRecord>, accountId: string, asset: string): int {
    Sum(log, Contribution(accountId, asset))
  }

  function AssetDelta(asset: string): EntryRecord -> int {
    (e: EntryRecord) => if asset == "" || e.asset == asset then Delta(e) else 0
  }
}
