/** The Postgres posting path as a transition system: shared tables, any number of processes with
    their in-memory copies, and any number of posting runs that advance one database call at a
    time in any order. */
module Database {
  import opened Text
  import opened Posting
  import opened HashChain
  import opened Chart
  import opened Ledger
  import opened Invariant
  import opened Statement

  // ---------- Tables ----------

  datatype PostingRow = PostingRow(
    postingId: string, refTxId: Option<string>, memo: Option<string>, status: string,
    hashChainHead: string, createdAt: string)

  /** `entries` is in the order of commit; `chain` is the table of anchors. */
  datatype Tables = Tables(
    accounts: map<string, Account>,
    postings: map<string, PostingRow>,
    entries: seq<EntryRecord>,
    chain: map<string, HashChainAnchor>)

  function RowOf(p: PostingRecord): PostingRow {
    PostingRow(p.postingId, p.refTxId, p.memo, p.status, p.hashHead, p.createdAt)
  }

  /** The entries of a posting, ordered by sequence number. */
  function FindRows(log: seq<EntryRecord>, postingId: string): seq<EntryRecord> {
    SortBySequence(Rows(log, postingId))
  }

  /** Row `i` may be returned when the latest row is asked for: no row has a larger number. */
  predicate IsLatest(log: seq<EntryRecord>, i: nat) {
    i < |log| && forall j :: 0 <= j < |log| ==> log[j].sequenceNumber <= log[i].sequenceNumber
  }

  function MaxSequence(log: seq<EntryRecord>): nat {
    if log == [] then 0
    else
      var m, last := MaxSequence(log[..|log| - 1]), log[|log| - 1].sequenceNumber;
      if m < last then last else m
  }

  // ---------- Hydration ----------

  /** A stored snapshot; its last sequence number is not stored. */
  datatype SnapshotRow = SnapshotRow(accountId: string, asset: string, balance: int, asOfTs: string,
    lastEntryId: string)

  /** An answer to a query for all rows ordered by sequence number; ties may come in any order. */
  ghost predicate OrderedRows(rows: seq<EntryRecord>, table: seq<EntryRecord>) {
    && multiset(rows) == multiset(table)
    && forall i, j :: 0 <= i < j < |rows| ==> rows[i].sequenceNumber <= rows[j].sequenceNumber
  }

  function RecordOf(row: PostingRow, entries: seq<EntryRecord>): PostingRecord {
    PostingRecord(row.postingId, row.refTxId, row.memo, row.status, row.hashChainHead, entries, row.createdAt)
  }

  /** Each posting of the table with its rows. */
  function Attached(table: map<string, PostingRow>, rows: seq<EntryRecord>): map<string, PostingRecord> {
    map id | id in table :: RecordOf(table[id], Rows(rows, id))
  }

  function FindEntry(log: seq<EntryRecord>, entryId: string): (r: Option<EntryRecord>)
    ensures r.Some? ==> r.value in log && r.value.entryId == entryId
    ensures r.None? ==> forall e :: e in log ==> e.entryId != entryId
  {
    if log == [] then None
    else if log[0].entryId == entryId then Some(log[0])
    else FindEntry(log[1..], entryId)
  }

  /** A snapshot read back: its last entry is looked up for its sequence number. */
  function LoadSnapshot(log: seq<EntryRecord>, row: SnapshotRow): BalanceSnapshot {
    var last := FindEntry(log, row.lastEntryId);
    BalanceSnapshot(row.accountId, row.asset, row.balance, row.asOfTs,
                    if last.Some? then row.lastEntryId else "",
                    if last.Some? then last.value.sequenceNumber else 0)
  }

  function LoadSnapshots(log: seq<EntryRecord>, stored: seq<SnapshotRow>): (snaps: seq<BalanceSnapshot>)
    ensures |snaps| == |stored|
    ensures forall i :: 0 <= i < |stored| ==> snaps[i] == LoadSnapshot(log, stored[i])
  {
    seq(|stored|, i requires 0 <= i < |stored| => LoadSnapshot(log, stored[i]))
  }

  /** The widths the columns are parsed to: 64 bits for amounts, 128 bits for balances. */
  predicate AmountsFit(rows: seq<EntryRecord>) {
    forall i :: 0 <= i < |rows| ==> rows[i].amount < 0x1_0000_0000_0000_0000
  }

  predicate BalancesFit(stored: seq<SnapshotRow>) {
    forall i :: 0 <= i < |stored| ==>
      -0x8000_0000_0000_0000_0000_0000_0000_0000 <= stored[i].balance < 0x8000_0000_0000_0000_0000_0000_0000_0000
  }

  /** What `hydrate` makes of the tables; the audit events are not touched. */
  function Rebuild(db: Tables, rows: seq<EntryRecord>, stored: seq<SnapshotRow>, before: LedgerState): LedgerState {
    before.(accounts := db.accounts,
            postings := Attached(db.postings, rows),
            entries := rows,
            anchors := db.chain,
            snapshots := LoadSnapshots(db.entries, stored),
            sequence := MaxSequence(rows),
            globalChainHead := Head(rows))
  }

  // ---------- Runs ----------

  /** Where a run stands; each constructor is the next thing it will do. */
  datatype Stage =
    | CheckExisting
    | FetchRows(row: PostingRow)
    | LookUpStatus(k: nat)
    | LookUpType(k: nat)
    | ReadHead
    | InsertPosting(base: string)
    | RefetchPosting
    | ReadSequence(base: string)
    | Committing(b: Batch)
    | UpdateCache(b: Batch)
    | EmitAudit(b: Batch)
    | Finished(outcome: Outcome)
    | Broken

  datatype RawRun = Run(job: Job, replica: nat, lines: seq<Line>, stage: Stage)

  type Run = r: RawRun | |r.lines| == |r.job.ids|
    witness Run(Job(PostingRequest("", [], None, None), [], "", 0), 0, [], CheckExisting)

  /** A transaction that went through: what it linked, and for which request. */
  datatype Commit = Commit(b: Batch, job: Job)

  /** `history` only records the commits in order; no step reads it. */
  datatype System = System(
    db: Tables, caches: map<nat, LedgerState>, runs: map<nat, Run>, history: seq<Commit>)

  function Initial(): System {
    System(Tables(map[], map[], [], map[]), map[], map[], [])
  }

  function Cache(sys: System, replica: nat): LedgerState {
    if replica in sys.caches then sys.caches[replica] else EmptyState()
  }

  datatype Event =
    | OpenAccount(owner: nat, req: CreateAccountRequest, freshId: string, clock: nat)
    | Start(pid: nat, replica: nat, job: Job)
    | Advance(pid: nat, pick: nat)
    | CallFails(pid: nat)
    | HeadReadFails(pid: nat)
    | CommitUnacknowledged(pid: nat)
    | Restart(owner: nat)
    | Hydrate(owner: nat, rows: seq<EntryRecord>, stored: seq<SnapshotRow>)

  function Move(r: Run, stage: Stage): (r': Run)
    ensures r'.stage == stage && r'.job == r.job && r'.lines == r.lines && r'.replica == r.replica
  {
    r.(stage := stage)
  }

  function At(sys: System, pid: nat, stage: Stage): System
    requires pid in sys.runs
  {
    sys.(runs := sys.runs[pid := Move(sys.runs[pid], stage)])
  }

  /** What the schema demands of a commit: a new posting id, new entry ids, known accounts. */
  ghost predicate Admissible(db: Tables, b: Batch) {
    && b.postingId !in db.postings
    && Distinct(b.ids)
    && (forall e :: e in db.entries ==> e.entryId !in b.ids)
    && (forall l :: l in b.lines ==> l.accountId in db.accounts)
  }

  function CommitTables(db: Tables, p: PostingRecord): Tables {
    db.(postings := db.postings[p.postingId := RowOf(p)],
        entries := db.entries + p.entries,
        chain := if p.postingId in db.chain then db.chain else db.chain[p.postingId := AnchorOf(p)])
  }

  /** The transaction's effect on the tables; it appears to other runs all at once. */
  function CommitRun(env: Env, sys: System, job: Job, b: Batch): System {
    sys.(db := CommitTables(sys.db, NewPosting(env, b, job)), history := sys.history + [Commit(b, job)])
  }

  function CacheCommitted(m: LedgerState, p: PostingRecord, sequence: nat): LedgerState {
    m.(postings := m.postings[p.postingId := p],
       entries := m.entries + p.entries,
       anchors := m.anchors[p.postingId := AnchorOf(p)],
       globalChainHead := p.hashHead,
       sequence := sequence)
  }

  /** The answer a replay gives: the stored posting and its rows. */
  function StoredResponse(row: PostingRow, rows: seq<EntryRecord>): PostingResponse {
    PostingResponse(row.postingId, row.status, EntryIds(rows), row.hashChainHead)
  }

  function NextCheck(error: Option<Rejection>, next: Stage): Stage {
    match error
    case Some(e) => Finished(Rejected(Validation(e)))
    case None => next
  }

  /** The stages that only read the tables: what the run does next after a call that succeeds. */
  function NextStage(db: Tables, r: Run, pick: nat): Stage {
    var id := r.job.req.postingId;
    match r.stage
    case CheckExisting => if id in db.postings then FetchRows(db.postings[id]) else LookUpStatus(0)
    case FetchRows(row) => Finished(Accepted(StoredResponse(row, FindRows(db.entries, id)), true))
    case LookUpStatus(k) =>
      if k >= |r.lines| then LookUpType(0)
      else NextCheck(CheckStatus(db.accounts)(r.lines[k]), LookUpStatus(k + 1))
    case LookUpType(k) =>
      if k >= |r.lines| then ReadHead
      else NextCheck(CheckType(db.accounts)(r.lines[k]), LookUpType(k + 1))
    case ReadHead =>
      if db.entries == [] then InsertPosting(Genesis())
      else if IsLatest(db.entries, pick) then InsertPosting(db.entries[pick].thisHash)
      else ReadHead
    case InsertPosting(base) => if id in db.postings then RefetchPosting else ReadSequence(base)
    case RefetchPosting => if id in db.postings then FetchRows(db.postings[id]) else Broken
    case ReadSequence(base) => Committing(BatchOf(base, MaxSequence(db.entries), r.job, r.lines))
    case _ => r.stage
  }

  /** The transaction goes through if the schema admits it, and is rolled back otherwise. */
  ghost function CommitStep(env: Env, sys: System, pid: nat, b: Batch, stage: Stage): System
    requires pid in sys.runs
  {
    if Admissible(sys.db, b) then At(CommitRun(env, sys, sys.runs[pid].job, b), pid, stage)
    else At(sys, pid, Broken)
  }

  function WithCache(sys: System, pid: nat, m: LedgerState, stage: Stage): System
    requires pid in sys.runs
  {
    At(sys.(caches := sys.caches[sys.runs[pid].replica := m]), pid, stage)
  }

  function Filled(env: Env, m: LedgerState, job: Job, b: Batch): LedgerState {
    CacheCommitted(m, NewPosting(env, b, job), b.sequence + |b.lines|)
  }

  /** The process's own copy takes in a committed posting. */
  function FillCache(env: Env, sys: System, pid: nat, b: Batch): System
    requires pid in sys.runs
  {
    var r := sys.runs[pid];
    WithCache(sys, pid, Filled(env, Cache(sys, r.replica), r.job, b), EmitAudit(b))
  }

  function CacheEvent(m: LedgerState, ev: AuditEvent): LedgerState {
    m.(auditEvents := m.auditEvents + [ev])
  }

  function Emit(env: Env, sys: System, pid: nat, b: Batch): System
    requires pid in sys.runs
  {
    var r, p := sys.runs[pid], NewPosting(env, b, sys.runs[pid].job);
    WithCache(sys, pid, CacheEvent(Cache(sys, r.replica), EventOf(r.job.eventId, p)),
              Finished(Accepted(Respond(p), false)))
  }

  /** One database call, or one step on the process's own copy, that succeeds. */
  ghost function Proceed(env: Env, sys: System, pid: nat, pick: nat): System
    requires pid in sys.runs
  {
    var stage := sys.runs[pid].stage;
    if stage.Committing? then CommitStep(env, sys, pid, stage.b, UpdateCache(stage.b))
    else if stage.UpdateCache? then FillCache(env, sys, pid, stage.b)
    else if stage.EmitAudit? then Emit(env, sys, pid, stage.b)
    else At(sys, pid, NextStage(sys.db, sys.runs[pid], pick))
  }

  /** `create_account` with a database: insert the row, then the process's own copy. */
  function OpenRow(sys: System, owner: nat, req: CreateAccountRequest, freshId: string, clock: nat): System {
    var id := match req.accountId case Some(i) => i case None => freshId;
    if ValidateAccount(req).Some? || id in sys.db.accounts then sys
    else
      var a := Account(id, req.typeName, req.assetClass, req.caption, req.parentId, "ACTIVE", Decimal(clock));
      var m := Cache(sys, owner);
      sys.(db := sys.db.(accounts := sys.db.accounts[id := a]),
           caches := sys.caches[owner := if id in m.accounts then m else m.(accounts := m.accounts[id := a])])
  }

  /** A request that fails validation never reaches the database. */
  ghost function StartRun(sys: System, pid: nat, replica: nat, job: Job): System {
    if pid in sys.runs || Validate(job.req).Bad? then sys
    else sys.(runs := sys.runs[pid := Run(job, replica, Validate(job.req).lines, CheckExisting)])
  }

  function SetCache(sys: System, owner: nat, m: LedgerState): System {
    sys.(caches := sys.caches[owner := m])
  }

  ghost function Apply(env: Env, sys: System, ev: Event): System {
    match ev
    case OpenAccount(owner, req, freshId, clock) => OpenRow(sys, owner, req, freshId, clock)
    case Start(pid, replica, job) => StartRun(sys, pid, replica, job)
    case Advance(pid, pick) =>
      if pid in sys.runs then Proceed(env, sys, pid, pick) else sys
    case CallFails(pid) =>
      // An error or a crash ends the run, except that an error while reading the head is swallowed.
      if pid in sys.runs && !sys.runs[pid].stage.Finished? && !sys.runs[pid].stage.ReadHead? then At(sys, pid, Broken)
      else sys
    case HeadReadFails(pid) =>
      // A failed head read is taken for an empty table.
      if pid in sys.runs && sys.runs[pid].stage.ReadHead? then At(sys, pid, InsertPosting(Genesis()))
      else sys
    case CommitUnacknowledged(pid) =>
      // The transaction goes through but the run only sees an error.
      if pid in sys.runs && sys.runs[pid].stage.Committing? then
        CommitStep(env, sys, pid, sys.runs[pid].stage.b, Broken)
      else sys
    case Restart(owner) =>
      // The process loses its copy; a run it does not resume has no further events.
      SetCache(sys, owner, EmptyState())
    case Hydrate(owner, rows, stored) =>
      if OrderedRows(rows, sys.db.entries) && AmountsFit(rows) && BalancesFit(stored) then
        SetCache(sys, owner, Rebuild(sys.db, rows, stored, Cache(sys, owner)))
      else sys
  }

  ghost function Play(env: Env, sys: System, evs: seq<Event>): System {
    if evs == [] then sys else Apply(env, Play(env, sys, evs[..|evs| - 1]), evs[|evs| - 1])
  }
}
