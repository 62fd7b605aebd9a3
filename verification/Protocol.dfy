/** What every interleaving of posting runs preserves. */
module Protocol {
  import opened Text
  import opened Posting
  import opened Chart
  import opened Ledger
  import opened Links
  import opened Invariant
  import opened Statement
  import opened Database

  // ---------- The tables as a function of the commits ----------

  function Log(env: Env, history: seq<Commit>): seq<EntryRecord> {
    if history == [] then []
    else Log(env, history[..|history| - 1]) + Link(env, history[|history| - 1].b)
  }

  function PostingTable(env: Env, history: seq<Commit>): map<string, PostingRow> {
    if history == [] then map[]
    else
      var c := history[|history| - 1];
      PostingTable(env, history[..|history| - 1])[c.b.postingId := RowOf(NewPosting(env, c.b, c.job))]
  }

  function ChainTable(env: Env, history: seq<Commit>): map<string, HashChainAnchor> {
    if history == [] then map[]
    else
      var c := history[|history| - 1];
      ChainTable(env, history[..|history| - 1])[c.b.postingId := AnchorOf(NewPosting(env, c.b, c.job))]
  }

  /** A hash that may be linked after: the genesis hash or that of a committed entry. */
  ghost predicate BaseOk(log: seq<EntryRecord>, base: string) {
    base == Genesis() || exists e :: e in log && e.thisHash == base
  }

  /** The lines are those of the job's request. */
  ghost predicate Asked(job: Job, lines: seq<Line>) {
    Validate(job.req) == Good(lines)
  }

  ghost predicate CommitOk(log: seq<EntryRecord>, c: Commit) {
    && |c.b.lines| == |c.job.ids| && c.b == BatchOf(c.b.prev, c.b.sequence, c.job, c.b.lines)
    && Asked(c.job, c.b.lines) && GoodLines(c.b.lines)
    && BaseOk(log, c.b.prev)
    && Distinct(c.b.ids)
    && forall e :: e in log ==> e.entryId !in c.b.ids && e.postingId != c.b.postingId
  }

  ghost predicate HistoryOk(env: Env, history: seq<Commit>) {
    history == [] ||
      (HistoryOk(env, history[..|history| - 1])
       && CommitOk(Log(env, history[..|history| - 1]), history[|history| - 1]))
  }

  ghost predicate TablesAre(env: Env, db: Tables, history: seq<Commit>) {
    && db.entries == Log(env, history)
    && db.postings == PostingTable(env, history)
    && db.chain == ChainTable(env, history)
  }

  // ---------- What each run knows ----------

  ghost predicate Stored(db: Tables, id: string, resp: PostingResponse) {
    id in db.postings && resp == StoredResponse(db.postings[id], FindRows(db.entries, id))
  }

  /** The response a run gives, or will give once it has finished its own bookkeeping. */
  function Vouched(env: Env, r: Run): Option<PostingResponse> {
    match r.stage
    case UpdateCache(b) => Some(Respond(NewPosting(env, b, r.job)))
    case EmitAudit(b) => Some(Respond(NewPosting(env, b, r.job)))
    case Finished(Accepted(resp, _)) => Some(resp)
    case _ => None
  }

  /** The hash a run has read to link its posting after. */
  function BaseRead(r: Run): Option<string> {
    match r.stage
    case InsertPosting(base) => Some(base)
    case ReadSequence(base) => Some(base)
    case Committing(b) => Some(b.prev)
    case _ => None
  }

  ghost predicate StageOk(env: Env, db: Tables, r: Run) {
    var id := r.job.req.postingId;
    && (Vouched(env, r).Some? ==> Stored(db, id, Vouched(env, r).value))
    && (BaseRead(r).Some? ==> BaseOk(db.entries, BaseRead(r).value))
    && (r.stage.FetchRows? ==> id in db.postings && db.postings[id] == r.stage.row)
    && (r.stage.Committing? ==> var b := r.stage.b; b == BatchOf(b.prev, b.sequence, r.job, r.lines))
  }

  ghost predicate RunOk(env: Env, db: Tables, r: Run) {
    Validate(r.job.req) == Good(r.lines) && StageOk(env, db, r)
  }

  /** The run's own transaction went through and it knows. */
  predicate Won(r: Run) {
    r.stage.UpdateCache? || r.stage.EmitAudit?
    || (r.stage.Finished? && r.stage.outcome.Accepted? && !r.stage.outcome.replay)
  }

  ghost predicate AllRunsOk(env: Env, db: Tables, runs: map<nat, Run>) {
    forall pid :: pid in runs ==> RunOk(env, db, runs[pid])
  }

  /** No two runs have both won with the same posting id. */
  ghost predicate OneWinner(runs: map<nat, Run>) {
    forall p, q :: p in runs && q in runs && p != q && Won(runs[p]) && Won(runs[q]) ==>
      runs[p].job.req.postingId != runs[q].job.req.postingId
  }

  ghost predicate SysInv(env: Env, sys: System) {
    && AccountsOk(sys.db.accounts)
    && HistoryOk(env, sys.history)
    && TablesAre(env, sys.db, sys.history)
    && AllRunsOk(env, sys.db, sys.runs)
    && OneWinner(sys.runs)
  }

  // ---------- Commits ----------

  lemma {:induction false} SameKeys(env: Env, history: seq<Commit>)
    ensures PostingTable(env, history).Keys == ChainTable(env, history).Keys
  {
    if history != [] {
      SameKeys(env, history[..|history| - 1]);
    }
  }

  /** A posting id has rows exactly when it is in the table of postings. */
  lemma {:induction false} LoggedIffPosted(env: Env, history: seq<Commit>, id: string)
    requires HistoryOk(env, history)
    ensures id in PostingTable(env, history) <==> exists e :: e in Log(env, history) && e.postingId == id
  {
    hide CommitOk, Link, NewPosting, RowOf;
    if history != [] {
      var front, c := history[..|history| - 1], history[|history| - 1];
      LoggedIffPosted(env, front, id);
      BatchIds(env, Log(env, front), c, id);
    }
  }

  lemma BatchIds(env: Env, log: seq<EntryRecord>, c: Commit, id: string)
    requires CommitOk(log, c)
    ensures (exists e :: e in Link(env, c.b) && e.postingId == id) <==> id == c.b.postingId
  {
    hide Link, Balanced, GoodLine, BaseOk, Asked;
    forall i | 0 <= i < |c.b.lines| ensures Link(env, c.b)[i].postingId == c.b.postingId {
      LinkedFields(env, c.b, i);
    }
    assert Link(env, c.b)[0] in Link(env, c.b);
  }

  lemma CommitKeepsTables(env: Env, db: Tables, history: seq<Commit>, b: Batch, job: Job, lines: seq<Line>)
    requires HistoryOk(env, history) && TablesAre(env, db, history) && Admissible(db, b)
    requires |lines| == |job.ids| && b == BatchOf(b.prev, b.sequence, job, lines)
    requires Asked(job, lines) && GoodLines(lines) && BaseOk(db.entries, b.prev)
    ensures HistoryOk(env, history + [Commit(b, job)])
    ensures TablesAre(env, CommitTables(db, NewPosting(env, b, job)), history + [Commit(b, job)])
  {
    hide Link, GoodLines, BaseOk, Decimal, NewPosting, Log, PostingTable, ChainTable, Asked;
    var longer := history + [Commit(b, job)];
    assert longer[..|longer| - 1] == history;
    LoggedIffPosted(env, history, b.postingId);
    TablesExtend(env, db, history, b, job);
  }

  lemma TablesExtend(env: Env, db: Tables, history: seq<Commit>, b: Batch, job: Job)
    requires TablesAre(env, db, history) && b.postingId == job.req.postingId && b.postingId !in db.postings
    ensures TablesAre(env, CommitTables(db, NewPosting(env, b, job)), history + [Commit(b, job)])
  {
    hide Link, RowOf, AnchorOf, NewPosting;
    var longer := history + [Commit(b, job)];
    assert longer[..|longer| - 1] == history;
    SameKeys(env, history);
  }

  /** Whatever the table's order, a posting's rows are found ordered by sequence number, all of them and
      no others. */
  lemma RowsFound(log: seq<EntryRecord>, id: string)
    ensures InOrder(FindRows(log, id))
    ensures forall e :: e in FindRows(log, id) <==> e in log && e.postingId == id
  {
    hide InOrder, SortBySequence, Rows;
    SortOrders(Rows(log, id));
    forall e ensures e in FindRows(log, id) <==> e in Rows(log, id) {
      assert e in multiset(FindRows(log, id)) <==> e in multiset(Rows(log, id));
    }
  }

  /** A batch's rows are found in the order they were linked, and other postings' rows stay. */
  lemma FindAfterCommit(env: Env, log: seq<EntryRecord>, b: Batch, id: string)
    ensures id != b.postingId ==> FindRows(log + Link(env, b), id) == FindRows(log, id)
    ensures id == b.postingId && (forall e :: e in log ==> e.postingId != id) ==>
      FindRows(log + Link(env, b), id) == Link(env, b)
  {
    hide Link, Rows, SortBySequence;
    RowsAppend(env, log, b, id);
    assert Rows(log, id) + [] == Rows(log, id) && [] + Link(env, b) == Link(env, b);
    if id == b.postingId && (forall e :: e in log ==> e.postingId != id) {
      RowsNone(log, id);
      LinkAscending(env, b);
      SortedAlready(Link(env, b));
    }
  }

  /** The response stored for a posting when its batch commits. */
  lemma CommitStores(env: Env, db: Tables, b: Batch, job: Job)
    requires b.postingId == job.req.postingId
    requires forall e :: e in db.entries ==> e.postingId != b.postingId
    ensures Stored(CommitTables(db, NewPosting(env, b, job)), b.postingId, Respond(NewPosting(env, b, job)))
  {
    hide Link, FindRows, EntryIds, NewPosting, AnchorOf;
    FindAfterCommit(env, db.entries, b, b.postingId);
  }

  lemma LinkAscending(env: Env, b: Batch)
    ensures Ascending(Link(env, b))
  {
    hide Link;
    forall i, j | 0 <= i < j < |b.lines|
      ensures Link(env, b)[i].sequenceNumber < Link(env, b)[j].sequenceNumber
    {
      LinkedFields(env, b, i);
      LinkedFields(env, b, j);
    }
  }

  lemma StoredStable(env: Env, db: Tables, id: string, resp: PostingResponse, b: Batch, job: Job)
    requires Stored(db, id, resp)
    requires b.postingId == job.req.postingId && b.postingId !in db.postings
    ensures Stored(CommitTables(db, NewPosting(env, b, job)), id, resp)
  {
    hide Link, FindRows, EntryIds, RowOf, AnchorOf, NewPosting;
    FindAfterCommit(env, db.entries, b, id);
  }

  /** What a run knows stays true when another posting commits. */
  lemma StageStable(env: Env, db: Tables, r: Run, b: Batch, job: Job)
    requires StageOk(env, db, r)
    requires b.postingId == job.req.postingId && b.postingId !in db.postings
    ensures StageOk(env, CommitTables(db, NewPosting(env, b, job)), r)
  {
    hide Link, RowOf, AnchorOf, NewPosting, Stored, BaseOk, Vouched, BaseRead, BatchOf;
    if Vouched(env, r).Some? {
      StoredStable(env, db, r.job.req.postingId, Vouched(env, r).value, b, job);
    }
    BaseGrows(db.entries, Link(env, b));
  }

  lemma BaseGrows(log: seq<EntryRecord>, es: seq<EntryRecord>)
    ensures forall base :: BaseOk(log, base) ==> BaseOk(log + es, base)
  {
    forall base | BaseOk(log, base) ensures BaseOk(log + es, base) {
      if base != Genesis() {
        var e :| e in log && e.thisHash == base;
        assert e in log + es;
      }
    }
  }

  lemma RunsAfterCommit(env: Env, db: Tables, runs: map<nat, Run>, b: Batch, job: Job, pid: nat, r: Run)
    requires AllRunsOk(env, db, runs)
    requires b.postingId == job.req.postingId && b.postingId !in db.postings
    requires RunOk(env, CommitTables(db, NewPosting(env, b, job)), r)
    ensures AllRunsOk(env, CommitTables(db, NewPosting(env, b, job)), runs[pid := r])
  {
    hide StageOk, Validate, NewPosting, CommitTables;
    forall q | q in runs ensures RunOk(env, CommitTables(db, NewPosting(env, b, job)), runs[q]) {
      assert RunOk(env, db, runs[q]);
      StageStable(env, db, runs[q], b, job);
    }
  }

  /** A posting id that is not in the table has no winner yet. */
  lemma NewWinner(env: Env, db: Tables, runs: map<nat, Run>, pid: nat, r: Run)
    requires AllRunsOk(env, db, runs) && OneWinner(runs)
    requires Won(r) ==> r.job.req.postingId !in db.postings
    ensures OneWinner(runs[pid := r])
  {
    hide StageOk, Validate, Won;
    forall q | q in runs && Won(runs[q]) ensures runs[q].job.req.postingId in db.postings {
      assert RunOk(env, db, runs[q]);
      WonIsStored(env, db, runs[q]);
    }
  }

  lemma SameWinner(runs: map<nat, Run>, pid: nat, r: Run)
    requires OneWinner(runs) && pid in runs && r.job == runs[pid].job && (Won(r) ==> Won(runs[pid]))
    ensures OneWinner(runs[pid := r])
  {
    hide Won;
  }

  /** Every run stays consistent when `pid` commits its batch, acknowledged or not. */
  lemma CommitKeepsRuns(env: Env, sys: System, pid: nat, b: Batch, stage: Stage)
    requires SysInv(env, sys) && pid in sys.runs
    requires sys.runs[pid].stage == Committing(b) && Admissible(sys.db, b)
    requires stage == Broken || stage == UpdateCache(b)
    ensures SysInv(env, At(CommitRun(env, sys, sys.runs[pid].job, b), pid, stage))
  {
    hide BatchOf, GoodLines, HistoryOk, TablesAre, Admissible, StageOk, NewPosting, AllRunsOk, OneWinner, Stored,
      AccountsOk, BaseOk, Validate, Won, Respond;
    var r := sys.runs[pid];
    CommitFacts(env, sys, pid, b);
    CommitKeepsTables(env, sys.db, sys.history, b, r.job, r.lines);
    CommitStores(env, sys.db, b, r.job);
    if stage == Broken {
      BrokenStage(env, CommitTables(sys.db, NewPosting(env, b, r.job)), r);
    } else {
      CommittedStage(env, CommitTables(sys.db, NewPosting(env, b, r.job)), r, b);
    }
    RunsAfterCommit(env, sys.db, sys.runs, b, r.job, pid, Move(r, stage));
    NewWinner(env, sys.db, sys.runs, pid, Move(r, stage));
  }

  lemma BrokenStage(env: Env, db: Tables, r: Run)
    ensures StageOk(env, db, Move(r, Broken)) && !Won(Move(r, Broken))
  {
    hide Stored, BaseOk, BatchOf, Respond, NewPosting;
  }

  lemma CommittedStage(env: Env, db: Tables, r: Run, b: Batch)
    requires Stored(db, r.job.req.postingId, Respond(NewPosting(env, b, r.job)))
    ensures StageOk(env, db, Move(r, UpdateCache(b)))
  {
    hide Stored, BaseOk, BatchOf, Respond, NewPosting, Vouched, BaseRead;
    NoBaseWhileFinishing(Move(r, UpdateCache(b)));
    VouchesWhileFinishing(env, Move(r, UpdateCache(b)), b);
  }

  lemma WonIsStored(env: Env, db: Tables, r: Run)
    requires StageOk(env, db, r) && Won(r)
    ensures r.job.req.postingId in db.postings
  {
  }

  lemma CommitFacts(env: Env, sys: System, pid: nat, b: Batch)
    requires SysInv(env, sys) && pid in sys.runs
    requires sys.runs[pid].stage == Committing(b) && Admissible(sys.db, b)
    ensures var r := sys.runs[pid];
      && b == BatchOf(b.prev, b.sequence, r.job, r.lines) && b.postingId == r.job.req.postingId
      && Asked(r.job, r.lines) && GoodLines(r.lines) && BaseOk(sys.db.entries, b.prev)
      && b.postingId !in sys.db.postings
      && forall e :: e in sys.db.entries ==> e.postingId != b.postingId
  {
    hide GoodLines, HistoryOk, Validate, BatchOf, BaseOk, AccountsOk, StageOk, Distinct, OneWinner;
    var r := sys.runs[pid];
    RunFacts(env, sys, pid);
    CommittingFacts(env, sys.db, r, b);
    ValidatedLines(r.job.req);
    LoggedIffPosted(env, sys.history, b.postingId);
  }

  lemma CommittingFacts(env: Env, db: Tables, r: Run, b: Batch)
    requires StageOk(env, db, r) && r.stage == Committing(b)
    ensures b == BatchOf(b.prev, b.sequence, r.job, r.lines) && b.postingId == r.job.req.postingId
      && BaseOk(db.entries, b.prev)
  {
    hide Stored, BaseOk, Vouched, Decimal;
  }

  // ---------- Every other step ----------

  /** A stage that promises nothing and has read nothing. */
  predicate Quiet(stage: Stage) {
    stage.CheckExisting? || stage.LookUpStatus? || stage.LookUpType? || stage.ReadHead? || stage.RefetchPosting?
    || stage.Broken? || (stage.Finished? && stage.outcome.Rejected?)
  }

  lemma QuietOk(env: Env, db: Tables, r: Run)
    requires Quiet(r.stage)
    ensures StageOk(env, db, r) && !Won(r)
  {
    hide Stored, BaseOk, BatchOf, Respond, NewPosting;
  }

  lemma BaseStageOk(env: Env, db: Tables, r: Run, base: string)
    requires BaseOk(db.entries, base)
    requires r.stage == InsertPosting(base) || r.stage == ReadSequence(base)
    ensures StageOk(env, db, r) && !Won(r)
  {
    hide Stored, BaseOk, BatchOf, Respond, NewPosting;
  }

  lemma CommittingOk(env: Env, db: Tables, r: Run, base: string, sequence: nat)
    requires BaseOk(db.entries, base)
    requires r.stage == Committing(BatchOf(base, sequence, r.job, r.lines))
    ensures StageOk(env, db, r) && !Won(r)
  {
    hide Stored, BaseOk, Respond, NewPosting, Decimal;
  }

  lemma FetchOk(env: Env, db: Tables, r: Run)
    requires r.job.req.postingId in db.postings && r.stage == FetchRows(db.postings[r.job.req.postingId])
    ensures StageOk(env, db, r) && !Won(r)
  {
    hide Stored, BaseOk, BatchOf, Respond, NewPosting;
  }

  lemma AcceptedOk(env: Env, db: Tables, r: Run, resp: PostingResponse)
    requires Stored(db, r.job.req.postingId, resp)
    requires r.stage.Finished? && r.stage.outcome.Accepted? && r.stage.outcome.response == resp
    ensures StageOk(env, db, r)
  {
    hide Stored, BaseOk, BatchOf, Respond, NewPosting;
  }

  lemma EmitOk(env: Env, db: Tables, r: Run, b: Batch)
    requires Stored(db, r.job.req.postingId, Respond(NewPosting(env, b, r.job))) && r.stage == EmitAudit(b)
    ensures StageOk(env, db, r)
  {
    hide Stored, BaseOk, BatchOf, Respond, NewPosting, Vouched, BaseRead;
    VouchesWhileFinishing(env, r, b);
    NoBaseWhileFinishing(r);
  }

  lemma NoBaseWhileFinishing(r: Run)
    requires r.stage.UpdateCache? || r.stage.EmitAudit?
    ensures BaseRead(r).None?
  {
  }

  /** A step that only moves its own run keeps the invariant if the new stage is consistent. */
  lemma MoveInv(env: Env, sys: System, pid: nat, stage: Stage, caches: map<nat, LedgerState>)
    requires SysInv(env, sys) && pid in sys.runs
    requires StageOk(env, sys.db, Move(sys.runs[pid], stage))
    requires Won(Move(sys.runs[pid], stage)) ==> Won(sys.runs[pid])
    ensures SysInv(env, At(sys.(caches := caches), pid, stage))
  {
    hide StageOk, Won, HistoryOk, TablesAre, AccountsOk, Validate, OneWinner;
    var r := Move(sys.runs[pid], stage);
    assert RunOk(env, sys.db, sys.runs[pid]);
    SameWinner(sys.runs, pid, r);
    assert forall q :: q in sys.runs ==> RunOk(env, sys.db, sys.runs[q]);
  }

  lemma RunFacts(env: Env, sys: System, pid: nat)
    requires SysInv(env, sys) && pid in sys.runs
    ensures StageOk(env, sys.db, sys.runs[pid]) && Validate(sys.runs[pid].job.req) == Good(sys.runs[pid].lines)
  {
    assert RunOk(env, sys.db, sys.runs[pid]);
  }

  lemma HeadIsBase(log: seq<EntryRecord>, i: nat)
    requires i < |log|
    ensures BaseOk(log, log[i].thisHash)
  {
    assert log[i] in log;
  }

  lemma ReplayOk(env: Env, db: Tables, r: Run, pick: nat)
    requires StageOk(env, db, r) && r.stage.FetchRows?
    ensures StageOk(env, db, Move(r, NextStage(db, r, pick))) && !Won(Move(r, NextStage(db, r, pick)))
  {
    hide FindRows, EntryIds, Vouched, BaseRead, BatchOf, Won, StageOk;
    var resp := StoredResponse(r.stage.row, FindRows(db.entries, r.job.req.postingId));
    FetchedRow(env, db, r);
    AcceptedOk(env, db, Move(r, NextStage(db, r, pick)), resp);
    ReplayNotWon(Move(r, NextStage(db, r, pick)));
  }

  lemma ReplayNotWon(r: Run)
    requires r.stage.Finished? && r.stage.outcome.Accepted? && r.stage.outcome.replay
    ensures !Won(r)
  {
  }

  lemma FetchedRow(env: Env, db: Tables, r: Run)
    requires StageOk(env, db, r) && r.stage.FetchRows?
    ensures r.job.req.postingId in db.postings && db.postings[r.job.req.postingId] == r.stage.row
  {
    hide Vouched, BaseRead, BaseOk, Stored;
  }

  /** A reading step leads to a consistent stage. */
  lemma NextStageOk(env: Env, db: Tables, r: Run, pick: nat)
    requires StageOk(env, db, r)
    requires !r.stage.Committing? && !r.stage.UpdateCache? && !r.stage.EmitAudit? && !r.stage.Finished?
    ensures StageOk(env, db, Move(r, NextStage(db, r, pick))) && !Won(Move(r, NextStage(db, r, pick)))
  {
    hide StageOk, NextStage, Won;
    if r.stage.FetchRows? {
      ReplayOk(env, db, r, pick);
    } else if r.stage.ReadSequence? {
      SequenceOk(env, db, r, pick);
    } else if r.stage.ReadHead? || r.stage.InsertPosting? {
      HeadStepOk(env, db, r, pick);
    } else {
      LookUpOk(env, db, r, pick);
    }
  }

  lemma HeadStepOk(env: Env, db: Tables, r: Run, pick: nat)
    requires StageOk(env, db, r) && (r.stage.ReadHead? || r.stage.InsertPosting?)
    ensures StageOk(env, db, Move(r, NextStage(db, r, pick))) && !Won(Move(r, NextStage(db, r, pick)))
  {
    hide StageOk, BaseOk, Won, IsLatest, Genesis;
    var next := Move(r, NextStage(db, r, pick));
    if next.stage.InsertPosting? || next.stage.ReadSequence? {
      NextBase(env, db, r, pick);
      BaseStageOk(env, db, next, next.stage.base);
    } else {
      QuietOk(env, db, next);
    }
  }

  lemma LookUpOk(env: Env, db: Tables, r: Run, pick: nat)
    requires r.stage.CheckExisting? || r.stage.LookUpStatus? || r.stage.LookUpType? || r.stage.RefetchPosting?
      || r.stage.Broken?
    ensures StageOk(env, db, Move(r, NextStage(db, r, pick))) && !Won(Move(r, NextStage(db, r, pick)))
  {
    hide StageOk, CheckStatus, CheckType, Won;
    var next := Move(r, NextStage(db, r, pick));
    if next.stage.FetchRows? {
      FetchOk(env, db, next);
    } else {
      QuietOk(env, db, next);
    }
  }

  lemma SequenceOk(env: Env, db: Tables, r: Run, pick: nat)
    requires StageOk(env, db, r) && r.stage.ReadSequence?
    ensures StageOk(env, db, Move(r, NextStage(db, r, pick))) && !Won(Move(r, NextStage(db, r, pick)))
  {
    hide StageOk, BaseOk, BatchOf, MaxSequence, Won;
    ReadBase(env, db, r);
    CommittingOk(env, db, Move(r, NextStage(db, r, pick)), r.stage.base, MaxSequence(db.entries));
  }

  lemma NextBase(env: Env, db: Tables, r: Run, pick: nat)
    requires StageOk(env, db, r)
    ensures var next := NextStage(db, r, pick);
      next.InsertPosting? || (r.stage.InsertPosting? && next.ReadSequence?) ==> BaseOk(db.entries, next.base)
  {
    hide StageOk, CheckStatus, CheckType, BatchOf, StoredResponse, FindRows, MaxSequence, BaseOk;
    ReadBase(env, db, r);
    GenesisIsBase(db.entries);
    if r.stage.ReadHead? && pick < |db.entries| { HeadIsBase(db.entries, pick); }
  }

  lemma CacheMove(env: Env, sys: System, pid: nat, b: Batch, stage: Stage, m: LedgerState)
    requires SysInv(env, sys) && pid in sys.runs
    requires (sys.runs[pid].stage == UpdateCache(b) && stage == EmitAudit(b))
          || (sys.runs[pid].stage == EmitAudit(b)
              && stage == Finished(Accepted(Respond(NewPosting(env, b, sys.runs[pid].job)), false)))
    ensures SysInv(env, WithCache(sys, pid, m, stage))
  {
    hide SysInv, StageOk, Stored, Respond, NewPosting;
    RunFacts(env, sys, pid);
    var r := sys.runs[pid];
    VouchedStored(env, sys.db, r, b);
    if stage == EmitAudit(b) {
      EmitOk(env, sys.db, Move(r, stage), b);
    } else {
      AcceptedOk(env, sys.db, Move(r, stage), Respond(NewPosting(env, b, r.job)));
    }
    MoveInv(env, sys, pid, stage, sys.caches[r.replica := m]);
  }

  lemma VouchesWhileFinishing(env: Env, r: Run, b: Batch)
    requires r.stage == UpdateCache(b) || r.stage == EmitAudit(b)
    ensures Vouched(env, r) == Some(Respond(NewPosting(env, b, r.job)))
  {
    hide Respond, NewPosting;
    match r.stage
    case UpdateCache(c) => assert c == b;
    case EmitAudit(c) => assert c == b;
  }

  lemma VouchedStored(env: Env, db: Tables, r: Run, b: Batch)
    requires StageOk(env, db, r) && (r.stage == UpdateCache(b) || r.stage == EmitAudit(b))
    ensures Stored(db, r.job.req.postingId, Respond(NewPosting(env, b, r.job)))
  {
    hide Stored, Respond, NewPosting, BaseOk, Vouched, BaseRead;
    VouchesWhileFinishing(env, r, b);
  }

  lemma ReadBase(env: Env, db: Tables, r: Run)
    requires StageOk(env, db, r)
    ensures r.stage.InsertPosting? || r.stage.ReadSequence? ==> BaseOk(db.entries, r.stage.base)
  {
    hide Stored, Respond, NewPosting, BaseOk, BatchOf;
  }

  lemma SameStage(sys: System, pid: nat)
    requires pid in sys.runs
    ensures At(sys, pid, sys.runs[pid].stage) == sys
  {
  }

  lemma CommitStepInv(env: Env, sys: System, pid: nat, b: Batch, stage: Stage)
    requires SysInv(env, sys) && pid in sys.runs && sys.runs[pid].stage == Committing(b)
    requires stage == Broken || stage == UpdateCache(b)
    ensures SysInv(env, CommitStep(env, sys, pid, b, stage))
  {
    hide SysInv, NewPosting, Respond, Admissible, CommitRun, At;
    if Admissible(sys.db, b) {
      CommitKeepsRuns(env, sys, pid, b, stage);
    } else {
      BreakMove(env, sys, pid);
    }
  }

  lemma FillCacheInv(env: Env, sys: System, pid: nat, b: Batch)
    requires SysInv(env, sys) && pid in sys.runs && sys.runs[pid].stage == UpdateCache(b)
    ensures SysInv(env, FillCache(env, sys, pid, b))
  {
    hide SysInv, NewPosting, Filled, WithCache, Respond, Cache;
    var r := sys.runs[pid];
    CacheMove(env, sys, pid, b, EmitAudit(b), Filled(env, Cache(sys, r.replica), r.job, b));
  }

  lemma EmitInv(env: Env, sys: System, pid: nat, b: Batch)
    requires SysInv(env, sys) && pid in sys.runs && sys.runs[pid].stage == EmitAudit(b)
    ensures SysInv(env, Emit(env, sys, pid, b))
  {
    hide SysInv, NewPosting, Respond, EventOf, WithCache, Cache, CacheEvent;
    var r, p := sys.runs[pid], NewPosting(env, b, sys.runs[pid].job);
    CacheMove(env, sys, pid, b, Finished(Accepted(Respond(p), false)),
      CacheEvent(Cache(sys, r.replica), EventOf(r.job.eventId, p)));
  }

  lemma ReadStepInv(env: Env, sys: System, pid: nat, pick: nat)
    requires SysInv(env, sys) && pid in sys.runs
    requires var stage := sys.runs[pid].stage; !stage.Committing? && !stage.UpdateCache? && !stage.EmitAudit?
    ensures SysInv(env, At(sys, pid, NextStage(sys.db, sys.runs[pid], pick)))
  {
    hide SysInv, StageOk, NextStage, At, Validate, Won;
    var r := sys.runs[pid];
    RunFacts(env, sys, pid);
    if r.stage.Finished? {
      FinishedStays(sys.db, r, pick);
      SameStage(sys, pid);
    } else {
      NextStageOk(env, sys.db, r, pick);
      MoveInv(env, sys, pid, NextStage(sys.db, r, pick), sys.caches);
    }
  }

  lemma ProceedInv(env: Env, sys: System, pid: nat, pick: nat)
    requires SysInv(env, sys) && pid in sys.runs
    ensures SysInv(env, Proceed(env, sys, pid, pick))
  {
    hide SysInv, FillCache, Emit, NextStage, CommitStep, At;
    var stage := sys.runs[pid].stage;
    if stage.Committing? {
      CommitStepInv(env, sys, pid, stage.b, UpdateCache(stage.b));
    } else if stage.UpdateCache? {
      FillCacheInv(env, sys, pid, stage.b);
    } else if stage.EmitAudit? {
      EmitInv(env, sys, pid, stage.b);
    } else {
      ReadStepInv(env, sys, pid, pick);
    }
  }

  lemma FinishedStays(db: Tables, r: Run, pick: nat)
    requires r.stage.Finished?
    ensures NextStage(db, r, pick) == r.stage
  {
  }

  lemma BreakMove(env: Env, sys: System, pid: nat)
    requires SysInv(env, sys) && pid in sys.runs
    ensures SysInv(env, At(sys, pid, Broken))
  {
    hide SysInv, StageOk, Won;
    QuietOk(env, sys.db, Move(sys.runs[pid], Broken));
    MoveInv(env, sys, pid, Broken, sys.caches);
  }

  lemma GenesisMove(env: Env, sys: System, pid: nat)
    requires SysInv(env, sys) && pid in sys.runs
    ensures SysInv(env, At(sys, pid, InsertPosting(Genesis())))
  {
    hide SysInv, StageOk, Won, BaseOk;
    GenesisIsBase(sys.db.entries);
    BaseStageOk(env, sys.db, Move(sys.runs[pid], InsertPosting(Genesis())), Genesis());
    MoveInv(env, sys, pid, InsertPosting(Genesis()), sys.caches);
  }

  lemma GenesisIsBase(log: seq<EntryRecord>)
    ensures BaseOk(log, Genesis())
  {
  }

  lemma OpenedRow(sys: System, owner: nat, req: CreateAccountRequest, freshId: string, clock: nat)
    requires AccountsOk(sys.db.accounts)
    ensures var sys' := OpenRow(sys, owner, req, freshId, clock);
      && AccountsOk(sys'.db.accounts) && sys'.db == sys.db.(accounts := sys'.db.accounts)
      && sys'.runs == sys.runs && sys'.history == sys.history
  {
    hide FindType;
  }

  lemma OpenRowInv(env: Env, sys: System, owner: nat, req: CreateAccountRequest, freshId: string, clock: nat)
    requires SysInv(env, sys)
    ensures SysInv(env, OpenRow(sys, owner, req, freshId, clock))
  {
    hide HistoryOk, Vouched, BaseRead, OneWinner, Validate, BaseOk, OpenRow, AccountsOk, StoredResponse;
    OpenedRow(sys, owner, req, freshId, clock);
    var sys' := OpenRow(sys, owner, req, freshId, clock);
    forall pid | pid in sys.runs ensures RunOk(env, sys'.db, sys.runs[pid]) {
      assert RunOk(env, sys.db, sys.runs[pid]);
    }
  }

  lemma StartRunInv(env: Env, sys: System, pid: nat, replica: nat, job: Job)
    requires SysInv(env, sys)
    ensures SysInv(env, StartRun(sys, pid, replica, job))
  {
    hide HistoryOk, AccountsOk, TablesAre, OneWinner, Validate, StageOk, Won;
    if pid !in sys.runs && Validate(job.req).Good? {
      var r: Run := Run(job, replica, Validate(job.req).lines, CheckExisting);
      QuietOk(env, sys.db, r);
      NewWinner(env, sys.db, sys.runs, pid, r);
      assert forall q :: q in sys.runs ==> RunOk(env, sys.db, sys.runs[q]);
    }
  }

  lemma SetCacheInv(env: Env, sys: System, owner: nat, m: LedgerState)
    requires SysInv(env, sys)
    ensures SysInv(env, SetCache(sys, owner, m))
  {
    hide HistoryOk, TablesAre, AccountsOk, AllRunsOk, OneWinner;
  }

  lemma ApplyInv(env: Env, sys: System, ev: Event)
    requires SysInv(env, sys)
    ensures SysInv(env, Apply(env, sys, ev))
  {
    hide SysInv, Proceed, OpenRow, StartRun, CommitStep, At, BaseOk, Rebuild, EmptyState, OrderedRows, SetCache;
    match ev
    case OpenAccount(owner, req, freshId, clock) => OpenRowInv(env, sys, owner, req, freshId, clock);
    case Start(pid, replica, job) => StartRunInv(env, sys, pid, replica, job);
    case Advance(pid, pick) => if pid in sys.runs { ProceedInv(env, sys, pid, pick); }
    case CallFails(pid) => if pid in sys.runs { BreakMove(env, sys, pid); }
    case HeadReadFails(pid) => if pid in sys.runs { GenesisMove(env, sys, pid); }
    case CommitUnacknowledged(pid) =>
      if pid in sys.runs && sys.runs[pid].stage.Committing? {
        CommitStepInv(env, sys, pid, sys.runs[pid].stage.b, Broken);
      }
    case Restart(owner) => SetCacheInv(env, sys, owner, EmptyState());
    case Hydrate(owner, rows, stored) => SetCacheInv(env, sys, owner, Rebuild(sys.db, rows, stored, Cache(sys, owner)));
  }

  lemma InitialInv(env: Env)
    ensures SysInv(env, Initial())
  {
  }

  /** Every interleaving of any number of runs and processes, with failures at any point, keeps
      the invariant. */
  lemma {:induction false} PlayInv(env: Env, evs: seq<Event>)
    ensures SysInv(env, Play(env, Initial(), evs))
  {
    hide SysInv, Apply, Initial;
    if evs == [] {
      InitialInv(env);
    } else {
      PlayInv(env, evs[..|evs| - 1]);
      ApplyInv(env, Play(env, Initial(), evs[..|evs| - 1]), evs[|evs| - 1]);
    }
  }
}
