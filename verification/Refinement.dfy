/** A posting run that is not interrupted does to the tables, and to its process's own copy,
    exactly what the in-memory ledger does. */
module Refinement {
  import opened Text
  import opened Posting
  import opened HashChain
  import opened Chart
  import opened Ledger
  import opened Links
  import opened Invariant
  import opened Freshness
  import opened Statement
  import opened Database
  import opened Protocol
  import opened Linear

  // ---------- Tables and ledger state ----------

  function PostingRows(postings: map<string, PostingRecord>): map<string, PostingRow> {
    map id | id in postings :: RowOf(postings[id])
  }

  /** The tables hold what the in-memory ledger `m` holds. */
  ghost predicate Mirrors(db: Tables, m: LedgerState) {
    && db.accounts == m.accounts
    && db.entries == m.entries
    && db.postings == PostingRows(m.postings)
    && db.chain == m.anchors
  }

  /** What posting relies on: the books without audit events and snapshots. */
  ghost predicate BooksOk(m: LedgerState) {
    && m.sequence == |m.entries| && Numbered(m.entries) && m.globalChainHead == Head(m.entries)
    && PostingsOk(m.postings, m.entries) && AnchorsOk(m.anchors, m.postings)
  }

  lemma InvBooks(env: Env, m: LedgerState)
    requires Inv(env, m)
    ensures BooksOk(m)
  {
    hide Chained, EntriesOk, AccountsOk, PostingsOk, AnchorsOk, Partitioned, TrialBalance, SnapshotsOk, Head, Numbered;
  }

  /** A process's copy holds the ledger's books; it may lack audit events and differ in snapshots. */
  predicate SameBooks(copy: LedgerState, m: LedgerState) {
    copy == m.(auditEvents := copy.auditEvents, snapshots := copy.snapshots)
  }

  /** The row that answers a run's read of the head in a numbered log. */
  function LatestRow(log: seq<EntryRecord>): nat {
    if log == [] then 0 else |log| - 1
  }

  // ---------- Uninterrupted steps ----------

  function Steps(pid: nat, pick: nat, n: nat): (evs: seq<Event>)
    ensures |evs| == n
  {
    seq(n, _ => Advance(pid, pick))
  }

  ghost function Walk(env: Env, sys: System, pid: nat, pick: nat, n: nat): System
    decreases n
  {
    if n == 0 then sys else Walk(env, Apply(env, sys, Advance(pid, pick)), pid, pick, n - 1)
  }

  lemma {:induction false} PlayConcat(env: Env, sys: System, a: seq<Event>, b: seq<Event>)
    ensures Play(env, sys, a + b) == Play(env, Play(env, sys, a), b)
  {
    hide Apply;
    if b == [] {
      assert a + b == a;
    } else {
      assert (a + b)[..|a + b| - 1] == a + b[..|b| - 1];
      PlayConcat(env, sys, a, b[..|b| - 1]);
    }
  }

  lemma PlayOne(env: Env, sys: System, ev: Event)
    ensures Play(env, sys, [ev]) == Apply(env, sys, ev)
  {
    hide Apply;
    assert [ev][..0] == [];
  }

  lemma {:induction false} WalkIsPlay(env: Env, sys: System, pid: nat, pick: nat, n: nat)
    ensures Walk(env, sys, pid, pick, n) == Play(env, sys, Steps(pid, pick, n))
    decreases n
  {
    hide Apply;
    if n > 0 {
      var ev := Advance(pid, pick);
      WalkIsPlay(env, Apply(env, sys, ev), pid, pick, n - 1);
      assert Steps(pid, pick, n) == [ev] + Steps(pid, pick, n - 1);
      PlayConcat(env, sys, [ev], Steps(pid, pick, n - 1));
      PlayOne(env, sys, ev);
    }
  }

  lemma {:induction false} WalkAdd(env: Env, sys: System, pid: nat, pick: nat, m: nat, n: nat)
    ensures Walk(env, sys, pid, pick, m + n) == Walk(env, Walk(env, sys, pid, pick, m), pid, pick, n)
    decreases m
  {
    hide Apply;
    if m > 0 {
      WalkAdd(env, Apply(env, sys, Advance(pid, pick)), pid, pick, m - 1, n);
    }
  }

  predicate Reading(stage: Stage) {
    !stage.Committing? && !stage.UpdateCache? && !stage.EmitAudit?
  }

  lemma AtAt(sys: System, pid: nat, a: Stage, b: Stage)
    requires pid in sys.runs
    ensures pid in At(sys, pid, a).runs && At(At(sys, pid, a), pid, b) == At(sys, pid, b)
    ensures At(sys, pid, a).db == sys.db && At(sys, pid, a).runs[pid] == Move(sys.runs[pid], a)
  {
    var r := sys.runs[pid];
    assert Move(Move(r, a), b) == Move(r, b);
    assert sys.runs[pid := Move(r, a)][pid := Move(r, b)] == sys.runs[pid := Move(r, b)];
  }

  lemma ReadStep(env: Env, sys: System, pid: nat, pick: nat, stage: Stage)
    requires pid in sys.runs && Reading(stage)
    ensures Apply(env, At(sys, pid, stage), Advance(pid, pick))
         == At(sys, pid, NextStage(sys.db, Move(sys.runs[pid], stage), pick))
  {
    hide At, NextStage, Move, CommitStep, FillCache, Emit;
    AtAt(sys, pid, stage, NextStage(sys.db, Move(sys.runs[pid], stage), pick));
    MoveStage(sys.runs[pid], stage);
  }

  lemma MoveStage(r: Run, stage: Stage)
    ensures Move(r, stage).stage == stage
  {
  }

  lemma {:induction false} FinishedWalk(env: Env, sys: System, pid: nat, pick: nat, outcome: Outcome, n: nat)
    requires pid in sys.runs
    ensures Walk(env, At(sys, pid, Finished(outcome)), pid, pick, n) == At(sys, pid, Finished(outcome))
    decreases n
  {
    hide At, Apply;
    if n > 0 {
      ReadStep(env, sys, pid, pick, Finished(outcome));
      FinishedStays(sys.db, Move(sys.runs[pid], Finished(outcome)), pick);
      FinishedWalk(env, sys, pid, pick, outcome, n - 1);
    }
  }

  // ---------- The account checks ----------

  lemma StatusStep(db: Tables, r: Run, pick: nat, k: nat)
    requires r.stage == LookUpStatus(k)
    ensures NextStage(db, r, pick) == if k >= |r.lines| then LookUpType(0)
      else NextCheck(CheckStatus(db.accounts)(r.lines[k]), LookUpStatus(k + 1))
  {
    hide CheckStatus;
  }

  lemma TypeStep(db: Tables, r: Run, pick: nat, k: nat)
    requires r.stage == LookUpType(k)
    ensures NextStage(db, r, pick) == if k >= |r.lines| then ReadHead
      else NextCheck(CheckType(db.accounts)(r.lines[k]), LookUpType(k + 1))
  {
    hide CheckType;
  }

  lemma FirstErrorFrom(lines: seq<Line>, k: nat, check: Line -> Option<Rejection>)
    requires k < |lines|
    ensures FirstError(lines[k..], check)
      == if check(lines[k]).Some? then check(lines[k]) else FirstError(lines[k + 1..], check)
  {
    assert lines[k..][0] == lines[k] && lines[k..][1..] == lines[k + 1..];
  }

  /** The status look-ups reach the first complaint about a status, or pass to the types. */
  lemma StatusNext(env: Env, sys: System, pid: nat, pick: nat, k: nat)
    requires pid in sys.runs
    ensures var r := sys.runs[pid];
      Apply(env, At(sys, pid, LookUpStatus(k)), Advance(pid, pick))
      == At(sys, pid, if k >= |r.lines| then LookUpType(0)
                      else NextCheck(CheckStatus(sys.db.accounts)(r.lines[k]), LookUpStatus(k + 1)))
  {
    hide At, Apply, CheckStatus, NextStage;
    ReadStep(env, sys, pid, pick, LookUpStatus(k));
    StatusStep(sys.db, Move(sys.runs[pid], LookUpStatus(k)), pick, k);
  }

  lemma {:induction false} StatusWalk(env: Env, sys: System, pid: nat, pick: nat, k: nat)
    requires pid in sys.runs && k <= |sys.runs[pid].lines|
    ensures var r := sys.runs[pid];
      Walk(env, At(sys, pid, LookUpStatus(k)), pid, pick, |r.lines| - k + 1)
      == At(sys, pid, NextCheck(FirstError(r.lines[k..], CheckStatus(sys.db.accounts)), LookUpType(0)))
    decreases |sys.runs[pid].lines| - k
  {
    hide At, Apply, CheckStatus, FirstError;
    var r, check := sys.runs[pid], CheckStatus(sys.db.accounts);
    StatusNext(env, sys, pid, pick, k);
    if k < |r.lines| {
      FirstErrorFrom(r.lines, k, check);
      match check(r.lines[k])
      case Some(e) => FinishedWalk(env, sys, pid, pick, Rejected(Validation(e)), |r.lines| - k);
      case None => StatusWalk(env, sys, pid, pick, k + 1);
    } else {
      NothingLeft(r.lines, check);
    }
  }

  lemma TypeNext(env: Env, sys: System, pid: nat, pick: nat, k: nat)
    requires pid in sys.runs
    ensures var r := sys.runs[pid];
      Apply(env, At(sys, pid, LookUpType(k)), Advance(pid, pick))
      == At(sys, pid, if k >= |r.lines| then ReadHead
                      else NextCheck(CheckType(sys.db.accounts)(r.lines[k]), LookUpType(k + 1)))
  {
    hide At, Apply, CheckType, NextStage;
    ReadStep(env, sys, pid, pick, LookUpType(k));
    TypeStep(sys.db, Move(sys.runs[pid], LookUpType(k)), pick, k);
  }

  lemma {:induction false} TypeWalk(env: Env, sys: System, pid: nat, pick: nat, k: nat)
    requires pid in sys.runs && k <= |sys.runs[pid].lines|
    ensures var r := sys.runs[pid];
      Walk(env, At(sys, pid, LookUpType(k)), pid, pick, |r.lines| - k + 1)
      == At(sys, pid, NextCheck(FirstError(r.lines[k..], CheckType(sys.db.accounts)), ReadHead))
    decreases |sys.runs[pid].lines| - k
  {
    hide At, Apply, CheckType, FirstError;
    var r, check := sys.runs[pid], CheckType(sys.db.accounts);
    TypeNext(env, sys, pid, pick, k);
    if k < |r.lines| {
      FirstErrorFrom(r.lines, k, check);
      match check(r.lines[k])
      case Some(e) => FinishedWalk(env, sys, pid, pick, Rejected(Validation(e)), |r.lines| - k);
      case None => TypeWalk(env, sys, pid, pick, k + 1);
    } else {
      NothingLeft(r.lines, check);
    }
  }

  lemma NothingLeft(lines: seq<Line>, check: Line -> Option<Rejection>)
    ensures FirstError(lines[|lines|..], check).None?
  {
  }

  /** Both passes together make the in-memory account check. */
  lemma ChecksWalk(env: Env, sys: System, pid: nat, pick: nat)
    requires pid in sys.runs
    ensures var r := sys.runs[pid];
      Walk(env, At(sys, pid, LookUpStatus(0)), pid, pick, 2 * |r.lines| + 2)
      == At(sys, pid, NextCheck(CheckAccounts(sys.db.accounts, r.lines), ReadHead))
  {
    hide At, Apply, CheckStatus, CheckType, Walk, FirstError;
    var r, n := sys.runs[pid], |sys.runs[pid].lines|;
    assert r.lines[0..] == r.lines;
    StatusWalk(env, sys, pid, pick, 0);
    WalkAdd(env, At(sys, pid, LookUpStatus(0)), pid, pick, n + 1, n + 1);
    match FirstError(r.lines, CheckStatus(sys.db.accounts))
    case Some(e) => FinishedWalk(env, sys, pid, pick, Rejected(Validation(e)), n + 1);
    case None => TypeWalk(env, sys, pid, pick, 0);
  }

  // ---------- From the head read to the commit ----------

  lemma HeadNext(env: Env, sys: System, pid: nat, pick: nat)
    requires pid in sys.runs && Numbered(sys.db.entries) && pick == LatestRow(sys.db.entries)
    ensures Apply(env, At(sys, pid, ReadHead), Advance(pid, pick)) == At(sys, pid, InsertPosting(Head(sys.db.entries)))
  {
    hide At, Apply, NextStage, Head, Numbered;
    ReadStep(env, sys, pid, pick, ReadHead);
    HeadStage(sys.db, Move(sys.runs[pid], ReadHead), pick);
  }

  lemma InsertNext(env: Env, sys: System, pid: nat, pick: nat, base: string)
    requires pid in sys.runs && sys.runs[pid].job.req.postingId !in sys.db.postings
    ensures Apply(env, At(sys, pid, InsertPosting(base)), Advance(pid, pick)) == At(sys, pid, ReadSequence(base))
  {
    hide At, Apply, NextStage;
    ReadStep(env, sys, pid, pick, InsertPosting(base));
    InsertStage(sys.db, Move(sys.runs[pid], InsertPosting(base)), pick, base);
  }

  lemma SequenceNext(env: Env, sys: System, pid: nat, pick: nat, base: string)
    requires pid in sys.runs && Numbered(sys.db.entries)
    ensures var r := sys.runs[pid];
      Apply(env, At(sys, pid, ReadSequence(base)), Advance(pid, pick))
      == At(sys, pid, Committing(BatchOf(base, |sys.db.entries|, r.job, r.lines)))
  {
    hide At, Apply, NextStage, BatchOf, Numbered;
    ReadStep(env, sys, pid, pick, ReadSequence(base));
    SequenceStage(sys.db, Move(sys.runs[pid], ReadSequence(base)), pick, base);
  }

  lemma ReadsToCommit(env: Env, sys: System, pid: nat, pick: nat)
    requires pid in sys.runs && Numbered(sys.db.entries) && pick == LatestRow(sys.db.entries)
    requires sys.runs[pid].job.req.postingId !in sys.db.postings
    ensures var r := sys.runs[pid];
      Walk(env, At(sys, pid, ReadHead), pid, pick, 3)
      == At(sys, pid, Committing(BatchOf(Head(sys.db.entries), |sys.db.entries|, r.job, r.lines)))
  {
    hide At, BatchOf, Apply, Head, Walk, Numbered;
    WalkThree(env, At(sys, pid, ReadHead), pid, pick);
    HeadNext(env, sys, pid, pick);
    InsertNext(env, sys, pid, pick, Head(sys.db.entries));
    SequenceNext(env, sys, pid, pick, Head(sys.db.entries));
  }

  lemma WalkThree(env: Env, sys: System, pid: nat, pick: nat)
    ensures var ev := Advance(pid, pick);
      Walk(env, sys, pid, pick, 3) == Apply(env, Apply(env, Apply(env, sys, ev), ev), ev)
  {
    hide Apply;
    var ev := Advance(pid, pick);
    var one := Apply(env, sys, ev);
    var two := Apply(env, one, ev);
    assert Walk(env, two, pid, pick, 1) == Apply(env, two, ev);
    assert Walk(env, one, pid, pick, 2) == Walk(env, two, pid, pick, 1);
  }

  lemma HeadStage(db: Tables, r: Run, pick: nat)
    requires r.stage == ReadHead && Numbered(db.entries) && pick == if db.entries == [] then 0 else |db.entries| - 1
    ensures NextStage(db, r, pick) == InsertPosting(Head(db.entries))
  {
    hide Genesis;
  }

  lemma InsertStage(db: Tables, r: Run, pick: nat, base: string)
    requires r.stage == InsertPosting(base) && r.job.req.postingId !in db.postings
    ensures NextStage(db, r, pick) == ReadSequence(base)
  {
  }

  lemma SequenceStage(db: Tables, r: Run, pick: nat, base: string)
    requires r.stage == ReadSequence(base) && Numbered(db.entries)
    ensures NextStage(db, r, pick) == Committing(BatchOf(base, |db.entries|, r.job, r.lines))
  {
    hide BatchOf;
    MaxOfNumbered(db.entries);
  }

  lemma FoundNext(env: Env, sys: System, pid: nat, pick: nat)
    requires pid in sys.runs && sys.runs[pid].job.req.postingId in sys.db.postings
    ensures Apply(env, At(sys, pid, CheckExisting), Advance(pid, pick))
         == At(sys, pid, FetchRows(sys.db.postings[sys.runs[pid].job.req.postingId]))
  {
    hide At, Apply, NextStage;
    ReadStep(env, sys, pid, pick, CheckExisting);
    FoundStage(sys.db, Move(sys.runs[pid], CheckExisting), pick);
  }

  lemma FetchNext(env: Env, sys: System, pid: nat, pick: nat, row: PostingRow)
    requires pid in sys.runs
    ensures var rows := FindRows(sys.db.entries, sys.runs[pid].job.req.postingId);
      Apply(env, At(sys, pid, FetchRows(row)), Advance(pid, pick))
      == At(sys, pid, Finished(Accepted(StoredResponse(row, rows), true)))
  {
    hide At, Apply, NextStage, StoredResponse, FindRows;
    ReadStep(env, sys, pid, pick, FetchRows(row));
    FetchStage(sys.db, Move(sys.runs[pid], FetchRows(row)), pick, row);
  }

  lemma ExistingStages(env: Env, sys: System, pid: nat, pick: nat, n: nat)
    requires pid in sys.runs && sys.runs[pid].job.req.postingId in sys.db.postings
    ensures var id := sys.runs[pid].job.req.postingId;
      Walk(env, At(sys, pid, CheckExisting), pid, pick, n + 2)
      == At(sys, pid, Finished(Accepted(StoredResponse(sys.db.postings[id], FindRows(sys.db.entries, id)), true)))
  {
    hide At, Apply, StoredResponse, FindRows, Walk;
    var id := sys.runs[pid].job.req.postingId;
    var row := sys.db.postings[id];
    FirstStep(env, At(sys, pid, CheckExisting), pid, pick, n + 1);
    FoundNext(env, sys, pid, pick);
    FirstStep(env, At(sys, pid, FetchRows(row)), pid, pick, n);
    FetchNext(env, sys, pid, pick, row);
    FinishedWalk(env, sys, pid, pick, Accepted(StoredResponse(row, FindRows(sys.db.entries, id)), true), n);
  }

  lemma FoundStage(db: Tables, r: Run, pick: nat)
    requires r.stage == CheckExisting
    ensures NextStage(db, r, pick) ==
      if r.job.req.postingId in db.postings then FetchRows(db.postings[r.job.req.postingId]) else LookUpStatus(0)
  {
  }

  lemma FetchStage(db: Tables, r: Run, pick: nat, row: PostingRow)
    requires r.stage == FetchRows(row)
    ensures NextStage(db, r, pick)
      == Finished(Accepted(StoredResponse(row, FindRows(db.entries, r.job.req.postingId)), true))
  {
    hide StoredResponse, FindRows;
  }

  lemma ChecksThenReads(env: Env, sys: System, pid: nat, pick: nat)
    requires pid in sys.runs && Numbered(sys.db.entries) && pick == LatestRow(sys.db.entries)
    requires sys.runs[pid].job.req.postingId !in sys.db.postings
    ensures var r, check := sys.runs[pid], CheckAccounts(sys.db.accounts, sys.runs[pid].lines);
      Walk(env, At(sys, pid, NextCheck(check, ReadHead)), pid, pick, 3)
      == At(sys, pid, NextCheck(check, Committing(BatchOf(Head(sys.db.entries), |sys.db.entries|, r.job, r.lines))))
  {
    hide At, Apply, BatchOf, CheckAccounts, Walk, Numbered, Head;
    match CheckAccounts(sys.db.accounts, sys.runs[pid].lines)
    case Some(e) => FinishedWalk(env, sys, pid, pick, Rejected(Validation(e)), 3);
    case None => ReadsToCommit(env, sys, pid, pick);
  }

  /** Up to its commit, an uninterrupted run of a new posting makes the in-memory checks and then
      holds the batch the in-memory ledger would link. */
  lemma WalkToCommit(env: Env, sys: System, pid: nat, pick: nat)
    requires pid in sys.runs && sys.runs[pid].stage == CheckExisting
    requires Numbered(sys.db.entries) && pick == LatestRow(sys.db.entries)
    requires sys.runs[pid].job.req.postingId !in sys.db.postings
    ensures var r := sys.runs[pid];
      Walk(env, sys, pid, pick, 2 * |r.lines| + 6)
      == At(sys, pid, NextCheck(CheckAccounts(sys.db.accounts, r.lines),
           Committing(BatchOf(Head(sys.db.entries), |sys.db.entries|, r.job, r.lines))))
  {
    hide At, Apply, BatchOf, CheckAccounts, Walk, Numbered, Head, NextCheck;
    var n := 2 * |sys.runs[pid].lines|;
    EntersChecks(env, sys, pid, pick);
    FirstStep(env, sys, pid, pick, n + 5);
    ChecksWalk(env, sys, pid, pick);
    WalkAdd(env, At(sys, pid, LookUpStatus(0)), pid, pick, n + 2, 3);
    ChecksThenReads(env, sys, pid, pick);
  }

  lemma EntersChecks(env: Env, sys: System, pid: nat, pick: nat)
    requires pid in sys.runs && sys.runs[pid].stage == CheckExisting
    requires sys.runs[pid].job.req.postingId !in sys.db.postings
    ensures Apply(env, sys, Advance(pid, pick)) == At(sys, pid, LookUpStatus(0))
  {
    hide At, Apply, NextStage;
    SameStage(sys, pid);
    ReadStep(env, sys, pid, pick, CheckExisting);
    FoundStage(sys.db, Move(sys.runs[pid], CheckExisting), pick);
  }

  lemma FirstStep(env: Env, sys: System, pid: nat, pick: nat, n: nat)
    ensures Walk(env, sys, pid, pick, n + 1) == Walk(env, Apply(env, sys, Advance(pid, pick)), pid, pick, n)
  {
    hide Apply;
  }

  // ---------- The commit and after ----------

  lemma AdvanceProceeds(env: Env, sys: System, pid: nat, pick: nat)
    requires pid in sys.runs
    ensures Apply(env, sys, Advance(pid, pick)) == Proceed(env, sys, pid, pick)
  {
    hide Proceed;
  }

  lemma CommitApplies(env: Env, sys: System, pid: nat, pick: nat, b: Batch)
    requires pid in sys.runs && sys.runs[pid].stage == Committing(b) && Admissible(sys.db, b)
    ensures Apply(env, sys, Advance(pid, pick)) == At(CommitRun(env, sys, sys.runs[pid].job, b), pid, UpdateCache(b))
  {
    hide Admissible, CommitRun, At, Apply;
    AdvanceProceeds(env, sys, pid, pick);
  }

  lemma FillApplies(env: Env, sys: System, pid: nat, pick: nat, b: Batch)
    requires pid in sys.runs && sys.runs[pid].stage == UpdateCache(b)
    ensures Apply(env, sys, Advance(pid, pick)) == FillCache(env, sys, pid, b)
  {
    hide FillCache, Apply;
    AdvanceProceeds(env, sys, pid, pick);
  }

  lemma EmitApplies(env: Env, sys: System, pid: nat, pick: nat, b: Batch)
    requires pid in sys.runs && sys.runs[pid].stage == EmitAudit(b)
    ensures Apply(env, sys, Advance(pid, pick)) == Emit(env, sys, pid, b)
  {
    hide Emit, Apply;
    AdvanceProceeds(env, sys, pid, pick);
  }

  lemma WithCacheFacts(sys: System, pid: nat, m: LedgerState, stage: Stage)
    requires pid in sys.runs
    ensures var sys' := WithCache(sys, pid, m, stage);
      && sys'.db == sys.db && pid in sys'.runs && sys'.runs[pid] == Move(sys.runs[pid], stage)
      && Cache(sys', sys.runs[pid].replica) == m
  {
  }

  lemma CommitRunFacts(env: Env, sys: System, pid: nat, b: Batch, stage: Stage)
    requires pid in sys.runs
    ensures var r := sys.runs[pid];
      var sys' := At(CommitRun(env, sys, r.job, b), pid, stage);
      && sys'.db == CommitTables(sys.db, NewPosting(env, b, r.job)) && sys'.caches == sys.caches
      && pid in sys'.runs && sys'.runs[pid] == Move(r, stage)
  {
    hide CommitTables, NewPosting;
  }

  lemma FillFacts(env: Env, sys: System, pid: nat, b: Batch)
    requires pid in sys.runs
    ensures var r, sys' := sys.runs[pid], FillCache(env, sys, pid, b);
      && sys'.db == sys.db && pid in sys'.runs && sys'.runs[pid] == Move(r, EmitAudit(b))
      && Cache(sys', r.replica) == Filled(env, Cache(sys, r.replica), r.job, b)
  {
    hide WithCache, Filled, Cache;
    var r := sys.runs[pid];
    WithCacheFacts(sys, pid, Filled(env, Cache(sys, r.replica), r.job, b), EmitAudit(b));
  }

  lemma EmitFacts(env: Env, sys: System, pid: nat, b: Batch)
    requires pid in sys.runs
    ensures var r, p, sys' := sys.runs[pid], NewPosting(env, b, sys.runs[pid].job), Emit(env, sys, pid, b);
      && sys'.db == sys.db && pid in sys'.runs && sys'.runs[pid] == Move(r, Finished(Accepted(Respond(p), false)))
      && Cache(sys', r.replica) == CacheEvent(Cache(sys, r.replica), EventOf(r.job.eventId, p))
  {
    hide WithCache, CacheEvent, EventOf, NewPosting, Respond, Cache;
    var r, p := sys.runs[pid], NewPosting(env, b, sys.runs[pid].job);
    WithCacheFacts(sys, pid, CacheEvent(Cache(sys, r.replica), EventOf(r.job.eventId, p)),
      Finished(Accepted(Respond(p), false)));
  }

  /** The three last steps record the posting in the tables and in the process's own copy. */
  lemma FinishWalk(env: Env, sys: System, pid: nat, pick: nat, b: Batch)
    requires pid in sys.runs && sys.runs[pid].stage == Committing(b) && Admissible(sys.db, b)
    ensures var r := sys.runs[pid];
      var p := NewPosting(env, b, r.job);
      var sys' := Walk(env, sys, pid, pick, 3);
      && sys'.db == CommitTables(sys.db, p)
      && pid in sys'.runs && sys'.runs[pid].stage == Finished(Accepted(Respond(p), false))
      && Cache(sys', r.replica) == CacheEvent(Filled(env, Cache(sys, r.replica), r.job, b), EventOf(r.job.eventId, p))
  {
    hide Admissible, NewPosting, CommitTables, Filled, CacheEvent, EventOf, Respond, Walk, Apply, At, CommitRun,
      FillCache, Emit;
    var r := sys.runs[pid];
    WalkThree(env, sys, pid, pick);
    CommitApplies(env, sys, pid, pick, b);
    CommitRunFacts(env, sys, pid, b, UpdateCache(b));
    var one := Apply(env, sys, Advance(pid, pick));
    FillApplies(env, one, pid, pick, b);
    FillFacts(env, one, pid, b);
    var two := Apply(env, one, Advance(pid, pick));
    EmitApplies(env, two, pid, pick, b);
    EmitFacts(env, two, pid, b);
  }

  // ---------- One whole run ----------

  /** The events of one posting run that nothing interrupts; `pick` answers its read of the head. */
  function Script(pid: nat, replica: nat, job: Job, pick: nat): seq<Event> {
    [Start(pid, replica, job)] + Steps(pid, pick, 2 * |job.ids| + 9)
  }

  lemma StartApplies(env: Env, sys: System, pid: nat, replica: nat, job: Job)
    ensures Apply(env, sys, Start(pid, replica, job)) == StartRun(sys, pid, replica, job)
  {
    hide StartRun;
  }

  lemma ScriptWalk(env: Env, sys: System, pid: nat, replica: nat, job: Job, pick: nat)
    ensures Play(env, sys, Script(pid, replica, job, pick))
         == Walk(env, StartRun(sys, pid, replica, job), pid, pick, 2 * |job.ids| + 9)
  {
    hide StartRun, Steps, Walk, Play, Apply;
    var start := Start(pid, replica, job);
    PlayConcat(env, sys, [start], Steps(pid, pick, 2 * |job.ids| + 9));
    PlayOne(env, sys, start);
    StartApplies(env, sys, pid, replica, job);
    WalkIsPlay(env, StartRun(sys, pid, replica, job), pid, pick, 2 * |job.ids| + 9);
  }

  lemma Started(sys: System, pid: nat, replica: nat, job: Job)
    requires pid !in sys.runs && Validate(job.req).Good?
    ensures var sys' := StartRun(sys, pid, replica, job);
      && sys'.db == sys.db && sys'.caches == sys.caches && pid in sys'.runs
      && sys'.runs[pid].job == job && sys'.runs[pid].replica == replica
      && sys'.runs[pid].lines == Validate(job.req).lines && sys'.runs[pid].stage == CheckExisting
  {
    hide Validate;
  }

  /** The outcome, and the state the tables and the process's own copy are left in. */
  ghost predicate Leaves(sys: System, pid: nat, replica: nat, m: LedgerState, outcome: Outcome) {
    && Mirrors(sys.db, m) && Cache(sys, replica) == m
    && pid in sys.runs && sys.runs[pid].stage == Finished(outcome)
  }

  /** Rows found for a posting are the entries its in-memory record holds. */
  lemma MirroredRows(db: Tables, m: LedgerState, id: string)
    requires BooksOk(m) && Mirrors(db, m) && id in m.postings
    ensures id in db.postings
    ensures StoredResponse(db.postings[id], FindRows(db.entries, id)) == Respond(m.postings[id])
  {
    hide AnchorsOk, SortBySequence, Rows, Numbered, Head, EntryIds;
    assert PostingOk(m.entries, id, m.postings[id]);
    RowsAscend(m.entries, id);
    SortedAlready(Rows(m.entries, id));
  }

  lemma {:induction false} RowsAscend(log: seq<EntryRecord>, id: string)
    requires Numbered(log)
    ensures Ascending(Rows(log, id))
    ensures forall i :: 0 <= i < |Rows(log, id)| ==> Rows(log, id)[i].sequenceNumber <= |log|
  {
    if log != [] {
      RowsAscend(log[..|log| - 1], id);
    }
  }

  lemma ReplayRefines(env: Env, sys: System, m: LedgerState, pid: nat, pick: nat)
    requires BooksOk(m) && Mirrors(sys.db, m) && pid in sys.runs && sys.runs[pid].stage == CheckExisting
    requires Cache(sys, sys.runs[pid].replica) == m && sys.runs[pid].job.req.postingId in m.postings
    ensures var r := sys.runs[pid];
      Leaves(Walk(env, sys, pid, pick, 2 * |r.job.ids| + 9), pid, r.replica, m,
             Accepted(Respond(m.postings[r.job.req.postingId]), true))
  {
    hide BooksOk, StoredResponse, FindRows, Respond, Walk, Mirrors, Cache, Move, At;
    var r, outcome := sys.runs[pid], Accepted(Respond(m.postings[sys.runs[pid].job.req.postingId]), true);
    MirroredRows(sys.db, m, r.job.req.postingId);
    ReplayWalk(env, sys, pid, pick, outcome);
    AtFacts(sys, pid, Finished(outcome));
  }

  lemma ReplayWalk(env: Env, sys: System, pid: nat, pick: nat, outcome: Outcome)
    requires pid in sys.runs && sys.runs[pid].stage == CheckExisting
    requires var id := sys.runs[pid].job.req.postingId;
      && id in sys.db.postings
      && outcome == Accepted(StoredResponse(sys.db.postings[id], FindRows(sys.db.entries, id)), true)
    ensures Walk(env, sys, pid, pick, 2 * |sys.runs[pid].job.ids| + 9) == At(sys, pid, Finished(outcome))
  {
    hide StoredResponse, FindRows, Walk, Move, At;
    SameStage(sys, pid);
    ExistingStages(env, sys, pid, pick, 2 * |sys.runs[pid].job.ids| + 7);
  }

  lemma MirrorFacts(db: Tables, m: LedgerState)
    requires BooksOk(m) && Mirrors(db, m)
    ensures db.entries == m.entries && db.accounts == m.accounts && db.postings.Keys == m.postings.Keys
    ensures Numbered(db.entries) && m.sequence == |db.entries| && m.globalChainHead == Head(db.entries)
    ensures m.anchors.Keys == m.postings.Keys && db.chain == m.anchors
  {
    hide PostingsOk, Head, Numbered;
  }

  /** Recording a posting in the tables keeps them in step with recording it in memory. */
  lemma CommitMirrors(db: Tables, m: LedgerState, eventId: string, p: PostingRecord)
    requires Mirrors(db, m) && p.postingId !in m.anchors
    ensures Mirrors(CommitTables(db, p), Record(m, eventId, p))
  {
    hide RowOf, AnchorOf, EventOf;
  }

  lemma CacheMirrors(env: Env, m: LedgerState, job: Job, b: Batch)
    requires b.sequence == m.sequence
    ensures var p := NewPosting(env, b, job);
      CacheEvent(Filled(env, m, job, b), EventOf(job.eventId, p)) == Record(m, job.eventId, p)
  {
    hide EventOf, AnchorOf, Link;
  }

  lemma WillCommit(env: Env, db: Tables, m: LedgerState, job: Job, lines: seq<Line>)
    requires Mirrors(db, m) && |lines| == |job.ids|
    requires job.req.postingId !in m.postings && CheckAccounts(m.accounts, lines).None?
    requires NewIds(m.entries, job.ids)
    ensures Admissible(db, BatchOf(m.globalChainHead, m.sequence, job, lines))
  {
    hide RowOf, Distinct, Decimal;
    AccountsExact(m.accounts, lines);
  }

  lemma RejectRefines(env: Env, sys: System, m: LedgerState, pid: nat, pick: nat)
    requires JustStarted(sys, m, pid)
    requires pick == LatestRow(sys.db.entries)
    requires CheckAccounts(m.accounts, sys.runs[pid].lines).Some?
    ensures var r := sys.runs[pid];
      Leaves(Walk(env, sys, pid, pick, 2 * |r.job.ids| + 9), pid, r.replica, m,
             Rejected(Validation(CheckAccounts(m.accounts, r.lines).value)))
  {
    hide BooksOk, Mirrors, NewIds, CheckAccounts, Walk, BatchOf, At, Head, Numbered, Cache;
    var r := sys.runs[pid];
    var outcome := Rejected(Validation(CheckAccounts(m.accounts, r.lines).value));
    MirrorFacts(sys.db, m);
    WalkToCommit(env, sys, pid, pick);
    WalkAdd(env, sys, pid, pick, 2 * |r.lines| + 6, 3);
    FinishedWalk(env, sys, pid, pick, outcome, 3);
    AtFacts(sys, pid, Finished(outcome));
  }

  lemma ReachesCommit(env: Env, sys: System, m: LedgerState, pid: nat, pick: nat)
    requires BooksOk(m) && Mirrors(sys.db, m) && pid in sys.runs && sys.runs[pid].stage == CheckExisting
    requires sys.runs[pid].job.req.postingId !in m.postings
    requires pick == LatestRow(sys.db.entries)
    requires CheckAccounts(m.accounts, sys.runs[pid].lines).None?
    ensures var r := sys.runs[pid];
      Walk(env, sys, pid, pick, 2 * |r.lines| + 6)
      == At(sys, pid, Committing(BatchOf(m.globalChainHead, m.sequence, r.job, r.lines)))
  {
    hide BooksOk, Mirrors, CheckAccounts, Walk, BatchOf, At, Head, Numbered;
    MirrorFacts(sys.db, m);
    WalkToCommit(env, sys, pid, pick);
  }

  /** A run about to commit what the in-memory ledger would record. */
  ghost predicate AboutToCommit(sys: System, m: LedgerState, pid: nat) {
    && Mirrors(sys.db, m) && pid in sys.runs && m.anchors.Keys == m.postings.Keys
    && var r := sys.runs[pid];
      && Cache(sys, r.replica) == m && r.job.req.postingId !in m.postings
      && CheckAccounts(m.accounts, r.lines).None? && NewIds(m.entries, r.job.ids)
      && r.stage == Committing(BatchOf(m.globalChainHead, m.sequence, r.job, r.lines))
  }

  function PostingFor(env: Env, m: LedgerState, r: Run): PostingRecord {
    NewPosting(env, BatchOf(m.globalChainHead, m.sequence, r.job, r.lines), r.job)
  }

  /** From the point of committing on. */
  lemma CommitLeaves(env: Env, sys: System, m: LedgerState, pid: nat, pick: nat)
    requires AboutToCommit(sys, m, pid)
    ensures var r, p := sys.runs[pid], PostingFor(env, m, sys.runs[pid]);
      Leaves(Walk(env, sys, pid, pick, 3), pid, r.replica, Record(m, r.job.eventId, p), Accepted(Respond(p), false))
  {
    hide Mirrors, NewIds, CheckAccounts, Walk, NewPosting, Record, Respond, BatchOf, Admissible, Cache, CommitTables,
      Filled, CacheEvent;
    var r := sys.runs[pid];
    var b := BatchOf(m.globalChainHead, m.sequence, r.job, r.lines);
    BatchFacts(m.globalChainHead, m.sequence, r.job, r.lines);
    WillCommit(env, sys.db, m, r.job, r.lines);
    FinishWalk(env, sys, pid, pick, b);
    assert r.job.req.postingId !in m.anchors.Keys;
    CommitMirrors(sys.db, m, r.job.eventId, NewPosting(env, b, r.job));
    CacheMirrors(env, m, r.job, b);
  }

  /** A run that has just started on a posting the ledger does not have. */
  ghost predicate JustStarted(sys: System, m: LedgerState, pid: nat) {
    && BooksOk(m) && Mirrors(sys.db, m) && pid in sys.runs
    && var r := sys.runs[pid];
      && r.stage == CheckExisting && Cache(sys, r.replica) == m
      && r.job.req.postingId !in m.postings && NewIds(m.entries, r.job.ids)
  }

  lemma CommitRefines(env: Env, sys: System, m: LedgerState, pid: nat, pick: nat)
    requires JustStarted(sys, m, pid)
    requires pick == LatestRow(sys.db.entries)
    requires CheckAccounts(m.accounts, sys.runs[pid].lines).None?
    ensures var r, p := sys.runs[pid], PostingFor(env, m, sys.runs[pid]);
      Leaves(Walk(env, sys, pid, pick, 2 * |r.job.ids| + 9), pid, r.replica, Record(m, r.job.eventId, p),
        Accepted(Respond(p), false))
  {
    hide BooksOk, Mirrors, NewIds, CheckAccounts, Walk, PostingFor, Record, Respond, BatchOf, At, Leaves, AboutToCommit;
    var r, n := sys.runs[pid], 2 * |sys.runs[pid].lines| + 6;
    ReachesCommit(env, sys, m, pid, pick);
    WalkAdd(env, sys, pid, pick, n, 3);
    var stage := Committing(BatchOf(m.globalChainHead, m.sequence, r.job, r.lines));
    ReadyToCommit(sys, m, pid);
    CommitLeaves(env, At(sys, pid, stage), m, pid, pick);
  }

  lemma ReadyToCommit(sys: System, m: LedgerState, pid: nat)
    requires JustStarted(sys, m, pid) && CheckAccounts(m.accounts, sys.runs[pid].lines).None?
    ensures var r := sys.runs[pid];
      var ready := At(sys, pid, Committing(BatchOf(m.globalChainHead, m.sequence, r.job, r.lines)));
      && AboutToCommit(ready, m, pid)
      && ready.runs[pid].job == r.job && ready.runs[pid].replica == r.replica
      && forall env :: PostingFor(env, m, ready.runs[pid]) == PostingFor(env, m, r)
  {
    hide BooksOk, Mirrors, NewIds, CheckAccounts, BatchOf, At, NewPosting, Cache;
    MirrorFacts(sys.db, m);
    var r := sys.runs[pid];
    AtFacts(sys, pid, Committing(BatchOf(m.globalChainHead, m.sequence, r.job, r.lines)));
  }

  lemma FreshRefines(env: Env, sys: System, m: LedgerState, pid: nat, pick: nat)
    requires JustStarted(sys, m, pid)
    requires pick == LatestRow(sys.db.entries)
    ensures var r := sys.runs[pid];
      var post := PostLines(env, m, r.job, r.lines);
      Leaves(Walk(env, sys, pid, pick, 2 * |r.job.ids| + 9), pid, r.replica, post.0, post.1)
  {
    hide BooksOk, Mirrors, NewIds, CheckAccounts, Walk, NewPosting, Record, Respond, BatchOf, Leaves, Cache;
    if CheckAccounts(m.accounts, sys.runs[pid].lines).Some? {
      RejectRefines(env, sys, m, pid, pick);
    } else {
      CommitRefines(env, sys, m, pid, pick);
    }
  }

  lemma BatchFacts(prev: string, sequence: nat, job: Job, lines: seq<Line>)
    requires |lines| == |job.ids|
    ensures var b := BatchOf(prev, sequence, job, lines); b.sequence == sequence && b.prev == prev && b.lines == lines
  {
  }

  lemma AtFacts(sys: System, pid: nat, stage: Stage)
    requires pid in sys.runs
    ensures var sys' := At(sys, pid, stage);
      && sys'.db == sys.db && sys'.caches == sys.caches && pid in sys'.runs
        && sys'.runs[pid] == Move(sys.runs[pid], stage)
      && Cache(sys', sys.runs[pid].replica) == Cache(sys, sys.runs[pid].replica)
  {
  }

  lemma PostByLines(env: Env, m: LedgerState, job: Job)
    requires Validate(job.req).Good?
    ensures Post(env, m, job) == PostLines(env, m, job, Validate(job.req).lines)
  {
    hide PostLines, Validate;
  }

  lemma PostReplays(env: Env, m: LedgerState, job: Job, lines: seq<Line>)
    requires |lines| == |job.ids| && job.req.postingId in m.postings
    ensures PostLines(env, m, job, lines) == (m, Accepted(Respond(m.postings[job.req.postingId]), true))
  {
    hide Respond;
  }

  lemma SameCache(sys: System, sys': System, replica: nat)
    requires sys'.caches == sys.caches
    ensures Cache(sys', replica) == Cache(sys, replica)
  {
  }

  /** A run that starts from a copy equal to the ledger. */
  lemma CurrentRun(env: Env, sys: System, m: LedgerState, pid: nat, replica: nat, job: Job)
    requires BooksOk(m) && Mirrors(sys.db, m) && Cache(sys, replica) == m
    requires pid !in sys.runs && Validate(job.req).Good? && NewIds(m.entries, job.ids)
    ensures var post := Post(env, m, job);
      Leaves(Play(env, sys, Script(pid, replica, job, LatestRow(m.entries))), pid, replica, post.0, post.1)
  {
    hide BooksOk, NewIds, Walk, Leaves, PostLines, Validate, StartRun, Respond, Post, Mirrors, Script, Play, Cache,
      Numbered, Head;
    var pick := LatestRow(m.entries);
    ScriptWalk(env, sys, pid, replica, job, pick);
    Started(sys, pid, replica, job);
    PostByLines(env, m, job);
    MirrorFacts(sys.db, m);
    var started := StartRun(sys, pid, replica, job);
    SameCache(sys, started, replica);
    if job.req.postingId in m.postings {
      ReplayRefines(env, started, m, pid, pick);
      PostReplays(env, m, job, Validate(job.req).lines);
    } else {
      FreshRefines(env, started, m, pid, pick);
    }
  }

  // ---------- Copies do not matter ----------

  /** Everything but the processes' copies is equal. */
  predicate SameTables(sys: System, sys': System) {
    sys'.db == sys.db && sys'.runs == sys.runs && sys'.history == sys.history
  }

  lemma AtSame(sys: System, sys': System, pid: nat, stage: Stage)
    requires SameTables(sys, sys') && pid in sys.runs
    ensures SameTables(At(sys, pid, stage), At(sys', pid, stage))
  {
  }

  lemma CommitStepSame(env: Env, sys: System, sys': System, pid: nat, b: Batch, stage: Stage)
    requires SameTables(sys, sys') && pid in sys.runs
    ensures SameTables(CommitStep(env, sys, pid, b, stage), CommitStep(env, sys', pid, b, stage))
  {
    hide Admissible, CommitTables, NewPosting, At;
    if Admissible(sys.db, b) {
      AtSame(CommitRun(env, sys, sys.runs[pid].job, b), CommitRun(env, sys', sys.runs[pid].job, b), pid, stage);
    } else {
      AtSame(sys, sys', pid, Broken);
    }
  }

  lemma WithCacheSame(sys: System, sys': System, pid: nat, m: LedgerState, m': LedgerState, stage: Stage)
    requires SameTables(sys, sys') && pid in sys.runs
    ensures SameTables(WithCache(sys, pid, m, stage), WithCache(sys', pid, m', stage))
  {
  }

  lemma ProceedSame(env: Env, sys: System, sys': System, pid: nat, pick: nat)
    requires SameTables(sys, sys') && pid in sys.runs
    ensures SameTables(Proceed(env, sys, pid, pick), Proceed(env, sys', pid, pick))
  {
    hide CommitStep, NextStage, Filled, CacheEvent, EventOf, NewPosting, Respond, Cache, WithCache, At;
    var r := sys.runs[pid];
    var c, c' := Cache(sys, r.replica), Cache(sys', r.replica);
    if r.stage.Committing? {
      CommitStepSame(env, sys, sys', pid, r.stage.b, UpdateCache(r.stage.b));
    } else if r.stage.UpdateCache? {
      var b := r.stage.b;
      WithCacheSame(sys, sys', pid, Filled(env, c, r.job, b), Filled(env, c', r.job, b), EmitAudit(b));
    } else if r.stage.EmitAudit? {
      var p := NewPosting(env, r.stage.b, r.job);
      var ev := EventOf(r.job.eventId, p);
      WithCacheSame(sys, sys', pid, CacheEvent(c, ev), CacheEvent(c', ev), Finished(Accepted(Respond(p), false)));
    } else {
      AtSame(sys, sys', pid, NextStage(sys.db, r, pick));
    }
  }

  lemma StartOrOpenSame(env: Env, sys: System, sys': System, ev: Event)
    requires SameTables(sys, sys') && (ev.OpenAccount? || ev.Start? || ev.Restart? || ev.Hydrate?)
    ensures SameTables(Apply(env, sys, ev), Apply(env, sys', ev))
  {
    hide ValidateAccount, Validate, Rebuild, OrderedRows, Cache;
  }

  lemma ApplySame(env: Env, sys: System, sys': System, ev: Event)
    requires SameTables(sys, sys')
    ensures SameTables(Apply(env, sys, ev), Apply(env, sys', ev))
  {
    hide Proceed, CommitStep, OpenRow, StartRun, At, Genesis, Rebuild, OrderedRows;
    match ev
    case Advance(pid, pick) => if pid in sys.runs { ProceedSame(env, sys, sys', pid, pick); }
    case CallFails(pid) => if pid in sys.runs { AtSame(sys, sys', pid, Broken); }
    case HeadReadFails(pid) => if pid in sys.runs { AtSame(sys, sys', pid, InsertPosting(Genesis())); }
    case CommitUnacknowledged(pid) =>
      if pid in sys.runs && sys.runs[pid].stage.Committing? {
        CommitStepSame(env, sys, sys', pid, sys.runs[pid].stage.b, Broken);
      }
    case _ => StartOrOpenSame(env, sys, sys', ev);
  }

  /** No table, answer or commit depends on what any process has in memory. */
  lemma {:induction false} PlaySame(env: Env, sys: System, sys': System, evs: seq<Event>)
    requires SameTables(sys, sys')
    ensures SameTables(Play(env, sys, evs), Play(env, sys', evs))
  {
    hide Apply, SameTables;
    if evs != [] {
      var n := |evs| - 1;
      PlaySame(env, sys, sys', evs[..n]);
      ApplySame(env, Play(env, sys, evs[..n]), Play(env, sys', evs[..n]), evs[n]);
    }
  }

  // ---------- Copies without audit events ----------

  /** What `post` leaves when it starts from books that have lost audit events: the same, short of
      the lost events. */
  function Posted(before: LedgerState, copy: LedgerState, after: LedgerState): LedgerState
    requires |before.auditEvents| <= |after.auditEvents|
  {
    after.(auditEvents := copy.auditEvents + after.auditEvents[|before.auditEvents|..], snapshots := copy.snapshots)
  }

  lemma PostSameBooks(env: Env, copy: LedgerState, m: LedgerState, job: Job)
    requires SameBooks(copy, m)
    ensures m.auditEvents <= Post(env, m, job).0.auditEvents
    ensures Post(env, copy, job) == (Posted(m, copy, Post(env, m, job).0), Post(env, m, job).1)
  {
    hide Validate, CheckAccounts, NewPosting, Respond, EventOf, AnchorOf, BatchOf, Record;
    if Validate(job.req).Good? {
      var p := NewPosting(env, BatchOf(m.globalChainHead, m.sequence, job, Validate(job.req).lines), job);
      RecordSameBooks(copy, m, job.eventId, p);
    }
    assert m.auditEvents[|m.auditEvents|..] == [] && copy.auditEvents + [] == copy.auditEvents;
  }

  lemma RecordSameBooks(copy: LedgerState, m: LedgerState, eventId: string, p: PostingRecord)
    requires SameBooks(copy, m)
    ensures m.auditEvents <= Record(m, eventId, p).auditEvents
    ensures Record(copy, eventId, p) == Posted(m, copy, Record(m, eventId, p))
  {
    hide EventOf, AnchorOf;
  }

  lemma BooksOnly(db: Tables, copy: LedgerState, m: LedgerState)
    requires SameBooks(copy, m)
    ensures BooksOk(m) ==> BooksOk(copy)
    ensures Mirrors(db, m) ==> Mirrors(db, copy)
    ensures copy.entries == m.entries
  {
    hide Numbered, Head, PostingsOk, AnchorsOk, PostingRows;
  }

  /** In tables that hold the in-memory ledger `m`, a run that nothing interrupts gives the answer
      of `post` on `m` and leaves the tables holding what `post` leaves, in whatever process it runs
      and whatever that process has in memory. If its copy has the ledger's books, it has them
      afterwards too, with the audit event of this posting added and snapshots left alone. */
  lemma RunRefinesPost(env: Env, sys: System, m: LedgerState, pid: nat, replica: nat, job: Job)
    requires BooksOk(m) && Mirrors(sys.db, m)
    requires pid !in sys.runs && Validate(job.req).Good? && NewIds(m.entries, job.ids)
    ensures var post := Post(env, m, job);
      var copy, sys' := Cache(sys, replica), Play(env, sys, Script(pid, replica, job, LatestRow(m.entries)));
      && Mirrors(sys'.db, post.0)
      && pid in sys'.runs && sys'.runs[pid].stage == Finished(post.1)
      && m.auditEvents <= post.0.auditEvents
      && (SameBooks(copy, m) ==> Cache(sys', replica) == Posted(m, copy, post.0))
  {
    hide BooksOk, NewIds, Post, Mirrors, Script, Play, Validate, SameBooks, Posted;
    var copy, script := Cache(sys, replica), Script(pid, replica, job, LatestRow(m.entries));
    var replaced := SetCache(sys, replica, m);
    CacheAfterSet(sys, replica, m);
    CurrentRun(env, replaced, m, pid, replica, job);
    PlaySame(env, sys, replaced, script);
    SameAsItself(m);
    PostSameBooks(env, m, m, job);
    if SameBooks(copy, m) {
      BooksOnly(sys.db, copy, m);
      CurrentRun(env, sys, copy, pid, replica, job);
      PostSameBooks(env, copy, m, job);
    }
  }

  lemma SameAsItself(m: LedgerState)
    ensures SameBooks(m, m)
  {
  }

  lemma CacheAfterSet(sys: System, replica: nat, m: LedgerState)
    ensures Cache(SetCache(sys, replica, m), replica) == m && SameTables(sys, SetCache(sys, replica, m))
  {
  }
}
