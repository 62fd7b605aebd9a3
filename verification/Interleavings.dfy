/** What the tables and the answers of the runs look like after any interleaving. */
module Interleavings {
  import opened Text
  import opened Sums
  import opened Posting
  import opened HashChain
  import opened Ledger
  import opened Links
  import opened Invariant
  import opened Database
  import opened Protocol
  import opened Traces

  // ---------- One commit inside the whole history ----------

  /** Commit `k` wrote one contiguous block of the log, and the tables still say what it wrote. */
  ghost predicate Intact(env: Env, history: seq<Commit>, k: nat)
    requires k < |history|
  {
    var c, log, before := history[k], Log(env, history), Log(env, history[..k]);
    var es, id := Link(env, c.b), c.b.postingId;
    && before + es <= log
    && Rows(log, id) == es
    && id in PostingTable(env, history) && PostingTable(env, history)[id] == RowOf(NewPosting(env, c.b, c.job))
    && id in ChainTable(env, history) && ChainTable(env, history)[id] == AnchorOf(NewPosting(env, c.b, c.job))
  }

  lemma TablesSnoc(env: Env, front: seq<Commit>, c: Commit)
    ensures Log(env, front + [c]) == Log(env, front) + Link(env, c.b)
    ensures PostingTable(env, front + [c])
      == PostingTable(env, front)[c.b.postingId := RowOf(NewPosting(env, c.b, c.job))]
    ensures ChainTable(env, front + [c])
      == ChainTable(env, front)[c.b.postingId := AnchorOf(NewPosting(env, c.b, c.job))]
  {
    hide Link, RowOf, AnchorOf, NewPosting;
    assert (front + [c])[..|front + [c]| - 1] == front;
  }

  lemma IntactLast(env: Env, front: seq<Commit>, c: Commit)
    requires CommitOk(Log(env, front), c)
    ensures Intact(env, front + [c], |front|)
  {
    hide Link, Rows, RowOf, AnchorOf, NewPosting, CommitOk, Log, PostingTable, ChainTable;
    CommitIsNew(Log(env, front), c);
    assert (front + [c])[..|front|] == front;
    TablesSnoc(env, front, c);
    RowsAppend(env, Log(env, front), c.b, c.b.postingId);
    RowsNone(Log(env, front), c.b.postingId);
    assert [] + Link(env, c.b) == Link(env, c.b);
  }

  lemma CommitIsNew(log: seq<EntryRecord>, c: Commit)
    requires CommitOk(log, c)
    ensures c.b.postingId == c.job.req.postingId && forall e :: e in log ==> e.postingId != c.b.postingId
  {
    hide Asked, GoodLines, BaseOk, Distinct, Decimal;
  }

  lemma IntactStays(env: Env, front: seq<Commit>, c: Commit, k: nat)
    requires k < |front| && Intact(env, front, k) && front[k].b.postingId != c.b.postingId
    ensures Intact(env, front + [c], k)
  {
    hide Link, Rows, RowOf, AnchorOf, NewPosting, Log, PostingTable, ChainTable;
    var history := front + [c];
    assert history[..k] == front[..k];
    TablesSnoc(env, front, c);
    RowsAppend(env, Log(env, front), c.b, front[k].b.postingId);
    assert Link(env, front[k].b) + [] == Link(env, front[k].b);
  }

  lemma CommitAt(env: Env, history: seq<Commit>, k: nat)
    requires HistoryOk(env, history) && k < |history|
    ensures HistoryOk(env, history[..k]) && CommitOk(Log(env, history[..k]), history[k])
  {
    hide CommitOk, Log;
    var front := history[..|history| - 1];
    if k < |front| {
      CommitAt(env, front, k);
      assert front[..k] == history[..k];
    }
  }

  lemma {:induction false} AllIntact(env: Env, history: seq<Commit>, k: nat)
    requires HistoryOk(env, history) && k < |history|
    ensures Intact(env, history, k)
  {
    hide CommitOk, Log, Intact;
    var front, c := history[..|history| - 1], history[|history| - 1];
    assert front + [c] == history;
    if k < |front| {
      AllIntact(env, front, k);
      OtherId(env, front, c, k);
      IntactStays(env, front, c, k);
    } else {
      IntactLast(env, front, c);
    }
  }

  lemma OtherId(env: Env, front: seq<Commit>, c: Commit, k: nat)
    requires HistoryOk(env, front) && CommitOk(Log(env, front), c) && k < |front| && Intact(env, front, k)
    ensures front[k].b.postingId != c.b.postingId
  {
    hide Link, GoodLines, BaseOk, Distinct;
    CommitAt(env, front, k);
    BatchIds(env, Log(env, front[..k]), front[k], front[k].b.postingId);
    var e :| e in Link(env, front[k].b) && e.postingId == front[k].b.postingId;
    assert e in Rows(Log(env, front), front[k].b.postingId);
  }

  /** Every posting in the table was written by some commit. */
  lemma {:induction false} PostedBy(env: Env, history: seq<Commit>, id: string) returns (k: nat)
    requires id in PostingTable(env, history)
    ensures k < |history| && history[k].b.postingId == id
  {
    hide NewPosting, RowOf, Log, Link;
    k := |history| - 1;
    if history[k].b.postingId != id {
      k := PostedBy(env, history[..|history| - 1], id);
    }
  }

  // ---------- The tables ----------

  /** A posting is all there: a contiguous block of the log, chained from a base that is the
      genesis hash or the hash of an entry committed before, balanced, with a matching head. */
  ghost predicate WholePosting(env: Env, db: Tables, id: string, n: nat) {
    var rows := Rows(db.entries, id);
    && id in db.postings && id in db.chain
    && rows != [] && n + |rows| <= |db.entries| && db.entries[n..n + |rows|] == rows
    && BaseOk(db.entries[..n], rows[0].prevHash)
    && ChainedFrom(env, rows[0].prevHash, rows)
    && db.postings[id].hashChainHead == rows[|rows| - 1].thisHash
    && db.chain[id].headHash == rows[|rows| - 1].thisHash
    && TrialBalance(rows)
  }

  /** What a batch is by itself. */
  lemma BatchAlone(env: Env, c: Commit)
    requires |c.b.lines| == |c.job.ids| && c.b == BatchOf(c.b.prev, c.b.sequence, c.job, c.b.lines)
    requires GoodLines(c.b.lines)
    ensures var es := Link(env, c.b);
      && es != [] && es[0].prevHash == c.b.prev && ChainedFrom(env, c.b.prev, es) && TrialBalance(es)
      && RowOf(NewPosting(env, c.b, c.job)).hashChainHead == es[|es| - 1].thisHash
      && AnchorOf(NewPosting(env, c.b, c.job)).headHash == es[|es| - 1].thisHash
  {
    hide Link, Balanced, GoodLine, ChainedFrom, TrialBalance, Decimal;
    var es := Link(env, c.b);
    LinkedChain(env, c.b);
    FirstPrev(env, c.b);
    EmptyTrial();
    RecordTrial(env, [], c.b);
    assert [] + es == es;
  }

  lemma WholeFromCommit(env: Env, db: Tables, history: seq<Commit>, k: nat)
    requires TablesAre(env, db, history) && k < |history|
    requires Intact(env, history, k) && CommitOk(Log(env, history[..k]), history[k])
    ensures WholePosting(env, db, history[k].b.postingId, |Log(env, history[..k])|)
  {
    hide Log, Rows, Link, GoodLines, BaseOk, ChainedFrom, Distinct, TrialBalance, RowOf, AnchorOf, NewPosting, BatchOf,
      PostingTable, ChainTable;
    BatchAlone(env, history[k]);
    Block(db.entries, Log(env, history[..k]), Link(env, history[k].b));
  }

  lemma Block(log: seq<EntryRecord>, before: seq<EntryRecord>, es: seq<EntryRecord>)
    requires before + es <= log
    ensures |before| + |es| <= |log|
    ensures log[..|before|] == before && log[|before|..|before| + |es|] == es
  {
    assert log[..|before| + |es|] == before + es;
  }

  lemma EmptyTrial()
    ensures TrialBalance([])
  {
  }

  lemma FirstPrev(env: Env, b: Batch)
    requires b.lines != []
    ensures Link(env, b)[0].prevHash == b.prev
  {
    hide MakeEntry;
    LinkedEntries(env, b, |b.lines|);
    assert MadeAt(env, b, Link(env, b), 0);
    MadePrev(env, b, b.prev, 0);
  }

  lemma MadePrev(env: Env, b: Batch, prev: string, i: nat)
    requires i < |b.lines|
    ensures MakeEntry(env, b, prev, i).prevHash == prev && MakeEntry(env, b, prev, i).entryId == b.ids[i]
  {
  }

  /** Row by row and column by column, the posting is what the job asked for. */
  ghost predicate WrittenFor(db: Tables, id: string, job: Job) {
    var rows, req := Rows(db.entries, id), job.req;
    && id in db.postings && req.postingId == id && WellFormed(req) && |rows| == |req.entries|
    && (forall i :: 0 <= i < |rows| ==> RowAsAsked(rows[i], job, i))
    && db.postings[id].memo == req.memo && db.postings[id].refTxId == req.refTxId
    && db.postings[id].status == "POSTED" && db.postings[id].createdAt == Decimal(job.clock)
  }

  predicate RowAsAsked(e: EntryRecord, job: Job, i: nat)
    requires i < |job.req.entries|
  {
    var asked := job.req.entries[i];
    && e.entryId == job.ids[i] && e.postingId == job.req.postingId && e.createdAt == Decimal(job.clock)
    && e.accountId == asked.accountId && e.direction == asked.direction
    && e.amount == asked.amount && e.asset == asked.asset
  }

  lemma LinkedAsAsked(env: Env, c: Commit, i: nat)
    requires |c.b.lines| == |c.job.ids| && c.b == BatchOf(c.b.prev, c.b.sequence, c.job, c.b.lines)
    requires Asked(c.job, c.b.lines) && i < |c.b.lines|
    ensures RowAsAsked(Link(env, c.b)[i], c.job, i)
  {
    hide Link, Validate, Decimal;
    LinkedFields(env, c.b, i);
    assert c.job.req.entries[i] in c.job.req.entries;
    GoodDirections(c.job.req);
  }

  lemma WrittenFromCommit(env: Env, db: Tables, history: seq<Commit>, k: nat)
    requires TablesAre(env, db, history) && k < |history|
    requires Intact(env, history, k) && CommitOk(Log(env, history[..k]), history[k])
    ensures WrittenFor(db, history[k].b.postingId, history[k].job)
  {
    hide Log, Rows, Link, GoodLines, BaseOk, Distinct, PostingTable, ChainTable, WellFormed,
      RowAsAsked, Validate, Decimal;
    var c := history[k];
    ValidateExact(c.job.req);
    forall i | 0 <= i < |c.b.lines| ensures RowAsAsked(Link(env, c.b)[i], c.job, i) {
      LinkedAsAsked(env, c, i);
    }
  }

  /** All or nothing, whatever the interleaving: every posting in the table was requested, is
      whole and is what the request asked for; every row of the log belongs to one, and anchors and
      postings correspond. */
  lemma AllOrNothing(env: Env, evs: seq<Event>)
    ensures var db := Play(env, Initial(), evs).db;
      && (forall id :: id in db.postings ==> exists n, job ::
           Requested(evs, job) && WholePosting(env, db, id, n) && WrittenFor(db, id, job))
      && (forall e :: e in db.entries ==> e.postingId in db.postings)
      && db.chain.Keys == db.postings.Keys
  {
    hide Initial, Play, WholePosting, WrittenFor, Requested, Committed, AllRunsOk, OneWinner, AccountsOk, HistoryOk,
      Log, PostingTable, ChainTable;
    PlayInv(env, evs);
    OnlyRequested(env, evs);
    var sys := Play(env, Initial(), evs);
    forall id | id in sys.db.postings
      ensures exists n, job :: Requested(evs, job) && WholePosting(env, sys.db, id, n) && WrittenFor(sys.db, id, job)
    {
      var k := PostedBy(env, sys.history, id);
      CommitWritten(env, evs, sys, k);
    }
    forall e | e in sys.db.entries ensures e.postingId in sys.db.postings {
      LoggedIffPosted(env, sys.history, e.postingId);
    }
    SameKeys(env, sys.history);
  }

  lemma CommitWritten(env: Env, evs: seq<Event>, sys: System, k: nat)
    requires SysInv(env, sys) && k < |sys.history|
    ensures var c := sys.history[k];
      && WholePosting(env, sys.db, c.b.postingId, |Log(env, sys.history[..k])|)
      && WrittenFor(sys.db, c.b.postingId, c.job)
  {
    hide WholePosting, WrittenFor, AllRunsOk, OneWinner, AccountsOk, HistoryOk, Log, TablesAre, CommitOk, Intact;
    AllIntact(env, sys.history, k);
    CommitAt(env, sys.history, k);
    WholeFromCommit(env, sys.db, sys.history, k);
    WrittenFromCommit(env, sys.db, sys.history, k);
  }

  /** A run that answers that it has created its posting has: the rows are those its own request
      asked for, under the ids it generated. */
  lemma CreatorWrote(env: Env, evs: seq<Event>, p: nat)
    requires var sys := Play(env, Initial(), evs);
      p in sys.runs && sys.runs[p].stage.Finished? && sys.runs[p].stage.outcome.Accepted?
        && !sys.runs[p].stage.outcome.replay
    ensures var sys := Play(env, Initial(), evs);
      WrittenFor(sys.db, sys.runs[p].job.req.postingId, sys.runs[p].job)
  {
    hide Initial, Play, WrittenFor, Requested, WholePosting, SysInv, Log;
    PlayInv(env, evs);
    OnlyRequested(env, evs);
    var sys := Play(env, Initial(), evs);
    var k :| 0 <= k < |sys.history| && sys.history[k].job == sys.runs[p].job;
    CommitWritten(env, evs, sys, k);
    CommitId(env, sys, k);
  }

  lemma CommitId(env: Env, sys: System, k: nat)
    requires SysInv(env, sys) && k < |sys.history|
    ensures sys.history[k].b.postingId == sys.history[k].job.req.postingId
  {
    hide AllRunsOk, OneWinner, AccountsOk, HistoryOk, Log, TablesAre, GoodLines, BaseOk, Asked, Distinct, Decimal;
    CommitAt(env, sys.history, k);
  }

  /** Committed debits equal committed credits in every asset. */
  lemma {:induction false} HistoryBalances(env: Env, history: seq<Commit>)
    requires HistoryOk(env, history)
    ensures TrialBalance(Log(env, history))
  {
    hide Link, Balanced, BaseOk, Distinct, TrialBalance;
    EmptyTrial();
    if history != [] {
      HistoryBalances(env, history[..|history| - 1]);
      RecordTrial(env, Log(env, history[..|history| - 1]), history[|history| - 1].b);
    }
  }

  ghost predicate DistinctIds(log: seq<EntryRecord>) {
    forall i, j :: 0 <= i < j < |log| ==> log[i].entryId != log[j].entryId
  }

  lemma AppendIds(log: seq<EntryRecord>, es: seq<EntryRecord>, ids: seq<string>)
    requires DistinctIds(log) && Distinct(ids) && |es| == |ids|
    requires forall i :: 0 <= i < |es| ==> es[i].entryId == ids[i]
    requires forall e :: e in log ==> e.entryId !in ids
    ensures DistinctIds(log + es)
  {
    forall i, j | 0 <= i < j < |log + es| ensures (log + es)[i].entryId != (log + es)[j].entryId {
      if i < |log| && j >= |log| {
        assert log[i] in log && ids[j - |log|] in ids;
      }
    }
  }

  lemma {:induction false} HistoryIds(env: Env, history: seq<Commit>)
    requires HistoryOk(env, history)
    ensures DistinctIds(Log(env, history))
  {
    hide Link, GoodLines, BaseOk, BatchOf, Distinct, DistinctIds;
    if history == [] {
      EmptyIds();
    } else {
      var front, c := Log(env, history[..|history| - 1]), history[|history| - 1];
      HistoryIds(env, history[..|history| - 1]);
      forall i | 0 <= i < |c.b.ids| ensures Link(env, c.b)[i].entryId == c.b.ids[i] { LinkedFields(env, c.b, i); }
      AppendIds(front, Link(env, c.b), c.b.ids);
    }
  }

  lemma EmptyIds()
    ensures DistinctIds([])
  {
  }

  /** Conservation and distinct entry ids, under every interleaving. */
  lemma CommittedLedgerBalances(env: Env, evs: seq<Event>)
    ensures TrialBalance(Play(env, Initial(), evs).db.entries)
    ensures DistinctIds(Play(env, Initial(), evs).db.entries)
  {
    hide Initial, Play, TrialBalance, DistinctIds, AllRunsOk, OneWinner, AccountsOk, HistoryOk,
      Log, PostingTable, ChainTable;
    PlayInv(env, evs);
    HistoryBalances(env, Play(env, Initial(), evs).history);
    HistoryIds(env, Play(env, Initial(), evs).history);
  }

  // ---------- The answers ----------

  /** Any two accepting runs for one posting id, in any processes, gave the same answer, it is the
      one the tables hold, and at most one of them claims to have created the posting. */
  lemma AnswersAgree(env: Env, evs: seq<Event>, p: nat, q: nat)
    ensures var sys := Play(env, Initial(), evs);
      p in sys.runs && sys.runs[p].stage.Finished? && sys.runs[p].stage.outcome.Accepted? ==>
      && Stored(sys.db, sys.runs[p].job.req.postingId, sys.runs[p].stage.outcome.response)
      && (q in sys.runs && q != p && sys.runs[q].job.req.postingId == sys.runs[p].job.req.postingId
          && sys.runs[q].stage.Finished? && sys.runs[q].stage.outcome.Accepted? ==>
            && sys.runs[q].stage.outcome.response == sys.runs[p].stage.outcome.response
            && (sys.runs[p].stage.outcome.replay || sys.runs[q].stage.outcome.replay))
  {
    hide Initial, Play, StoredResponse, HistoryOk, TablesAre, AccountsOk;
    PlayInv(env, evs);
    var sys := Play(env, Initial(), evs);
    if p in sys.runs && sys.runs[p].stage.Finished? && sys.runs[p].stage.outcome.Accepted? {
      FinishedStored(env, sys, p);
      if q in sys.runs && sys.runs[q].stage.Finished? && sys.runs[q].stage.outcome.Accepted? {
        FinishedStored(env, sys, q);
      }
    }
  }

  lemma FinishedStored(env: Env, sys: System, p: nat)
    requires SysInv(env, sys) && p in sys.runs
    requires sys.runs[p].stage.Finished? && sys.runs[p].stage.outcome.Accepted?
    ensures Stored(sys.db, sys.runs[p].job.req.postingId, sys.runs[p].stage.outcome.response)
  {
    hide StageOk, HistoryOk, TablesAre, AccountsOk, Validate, OneWinner, Stored;
    assert RunOk(env, sys.db, sys.runs[p]);
    AcceptedStored(env, sys.db, sys.runs[p]);
  }

  lemma AcceptedStored(env: Env, db: Tables, r: Run)
    requires StageOk(env, db, r) && r.stage.Finished? && r.stage.outcome.Accepted?
    ensures Stored(db, r.job.req.postingId, r.stage.outcome.response)
  {
    hide Stored, BaseOk, BaseRead, BatchOf;
  }

  /** A stored answer stays the answer whatever happens next. */
  lemma ApplyKeepsStored(env: Env, sys: System, ev: Event, id: string, resp: PostingResponse)
    requires SysInv(env, sys) && Stored(sys.db, id, resp)
    ensures Stored(Apply(env, sys, ev).db, id, resp)
    ensures sys.db.entries <= Apply(env, sys, ev).db.entries
  {
    hide Stored, Apply, SysInv, OwnStep, OnlyRun;
    ApplyShape(env, sys, ev);
    var sys' := Apply(env, sys, ev);
    if Pid(ev).Some? && Pid(ev).value in sys.runs {
      OwnKeepsStored(env, sys, sys', Pid(ev).value, id, resp);
    } else {
      StoredAlike(sys.db, sys'.db, id, resp);
    }
  }

  lemma OwnKeepsStored(env: Env, sys: System, sys': System, pid: nat, id: string, resp: PostingResponse)
    requires SysInv(env, sys) && Stored(sys.db, id, resp) && OwnStep(env, sys, sys', pid)
    ensures Stored(sys'.db, id, resp) && sys.db.entries <= sys'.db.entries
  {
    hide Stored, SysInv, CommitTables, NewPosting, OnlyRun, Admissible, Won;
    if NoCommit(sys, sys') {
      StoredAlike(sys.db, sys'.db, id, resp);
    } else {
      CommitKeepsStored(env, sys, pid, sys.runs[pid].stage.b, id, resp);
    }
  }

  lemma StoredAlike(db: Tables, db': Tables, id: string, resp: PostingResponse)
    requires Stored(db, id, resp) && db'.postings == db.postings && db'.entries == db.entries
    ensures Stored(db', id, resp)
  {
    hide StoredResponse;
  }

  lemma CommitKeepsStored(env: Env, sys: System, pid: nat, b: Batch, id: string, resp: PostingResponse)
    requires SysInv(env, sys) && pid in sys.runs && sys.runs[pid].stage == Committing(b) && Stored(sys.db, id, resp)
    requires Admissible(sys.db, b)
    ensures var db' := CommitTables(sys.db, NewPosting(env, b, sys.runs[pid].job));
      Stored(db', id, resp) && sys.db.entries <= db'.entries
  {
    hide Stored, NewPosting, SysInv, Admissible, BatchOf, BaseOk, GoodLines, Asked, CommitTables;
    CommitFacts(env, sys, pid, b);
    StoredStable(env, sys.db, id, resp, b, sys.runs[pid].job);
    CommittedEntries(env, sys.db, b, sys.runs[pid].job);
  }

  /** Once a run has answered, the same answer is stored after any further events, and rows are
      only ever added at the end. */
  lemma {:induction false} AnswersLast(env: Env, evs: seq<Event>, more: seq<Event>, id: string, resp: PostingResponse)
    requires Stored(Play(env, Initial(), evs).db, id, resp)
    ensures Stored(Play(env, Initial(), evs + more).db, id, resp)
    ensures Play(env, Initial(), evs).db.entries <= Play(env, Initial(), evs + more).db.entries
  {
    hide Stored, Initial, Apply;
    if more == [] {
      assert evs + more == evs;
    } else {
      var front := more[..|more| - 1];
      assert (evs + more)[..|evs + more| - 1] == evs + front;
      AnswersLast(env, evs, front, id, resp);
      PlayInv(env, evs + front);
      ApplyKeepsStored(env, Play(env, Initial(), evs + front), more[|more| - 1], id, resp);
    }
  }

  // ---------- When the chain stays linear ----------

  /** Commit `k` linked after the entry that was last when it committed. */
  ghost predicate UpToDate(env: Env, history: seq<Commit>, k: nat)
    requires k < |history|
  {
    history[k].b.prev == Head(Log(env, history[..k]))
  }

  lemma StartUnique(env: Env, x: string, y: string, es: seq<EntryRecord>)
    requires es != [] && ChainedFrom(env, x, es) && ChainedFrom(env, y, es)
    ensures x == y
  {
    assert LinkAt(env, x, es, 0) && LinkAt(env, y, es, 0);
  }

  lemma LinearStep(env: Env, log: seq<EntryRecord>, b: Batch)
    requires b.lines != []
    ensures Chained(env, log + Link(env, b)) <==> Chained(env, log) && b.prev == Head(log)
  {
    hide Link, ChainedFrom;
    LinkedChain(env, b);
    ChainConcat(env, Genesis(), log, Link(env, b));
    if Chained(env, log + Link(env, b)) {
      StartUnique(env, b.prev, Head(log), Link(env, b));
    }
  }

  /** The log in commit order verifies exactly when no commit was linked after a stale head. */
  lemma {:induction false} LinearExactly(env: Env, history: seq<Commit>)
    requires HistoryOk(env, history)
    ensures Chained(env, Log(env, history)) <==> AllUpToDate(env, history)
  {
    hide Link, Chained, CommitOk, Head, AllUpToDate;
    if history == [] {
      EmptyChained(env);
      NothingStale(env);
    } else {
      var n := |history| - 1;
      CommitHasLines(Log(env, history[..n]), history[n]);
      LinearExactly(env, history[..n]);
      LinearStep(env, Log(env, history[..n]), history[n].b);
      UpToDateSplit(env, history);
    }
  }

  lemma NothingStale(env: Env)
    ensures AllUpToDate(env, [])
  {
  }

  ghost predicate AllUpToDate(env: Env, history: seq<Commit>) {
    forall k :: 0 <= k < |history| ==> UpToDate(env, history, k)
  }

  lemma UpToDateSplit(env: Env, history: seq<Commit>)
    requires history != []
    ensures var n := |history| - 1;
      AllUpToDate(env, history) <==>
        AllUpToDate(env, history[..n]) && history[n].b.prev == Head(Log(env, history[..n]))
  {
    hide Log, Head;
    var n := |history| - 1;
    forall k | 0 <= k < n ensures UpToDate(env, history, k) <==> UpToDate(env, history[..n], k) {
      assert history[..k] == history[..n][..k];
    }
    assert UpToDate(env, history, n) <==> history[n].b.prev == Head(Log(env, history[..n]));
  }

  lemma CommitHasLines(log: seq<EntryRecord>, c: Commit)
    requires CommitOk(log, c)
    ensures c.b.lines != []
  {
  }

  lemma EmptyChained(env: Env)
    ensures Chained(env, [])
  {
  }

  ghost function PreimageAt(env: Env, log: seq<EntryRecord>, i: nat): string
    requires i < |log|
  {
    if ParseDirection(log[i].direction).None? then ""
    else Preimage(env.salt, Before(Genesis(), log, i), log[i])
  }

  /** The hash defect behind two entries with the same predecessor: the last two texts that differ,
      going back from them side by side, or a text before the first entry. */
  ghost function ForkDefect(env: Env, log: seq<EntryRecord>, i: nat, j: nat): (v: Verdict)
    requires i < j < |log|
    ensures !v.Agree?
  {
    if i == 0 then GenesisPreimage(PreimageAt(env, log, j - 1))
    else if PreimageAt(env, log, i - 1) != PreimageAt(env, log, j - 1) then
      Collision(PreimageAt(env, log, i - 1), PreimageAt(env, log, j - 1))
    else ForkDefect(env, log, i - 1, j - 1)
  }

  /** In whatever order rows are read back, two entries linked after the same hash cannot both
      verify without a hash defect. */
  lemma {:induction false} ForkDetected(env: Env, log: seq<EntryRecord>, i: nat, j: nat)
    requires Chained(env, log) && i < j < |log| && log[i].prevHash == log[j].prevHash
    ensures Genuine(env, ForkDefect(env, log, i, j))
  {
    hide PreimageAt, Chained, Genuine, ForkDefect, IsHash, Genesis;
    DefectAt(env, log, i, j);
    if i == 0 {
      StartDefect(env, log, j);
    } else if PreimageAt(env, log, i - 1) != PreimageAt(env, log, j - 1) {
      LaterDefect(env, log, i, j);
    } else {
      SameBefore(env, log, i - 1, j - 1);
      ForkDetected(env, log, i - 1, j - 1);
    }
  }

  lemma StartDefect(env: Env, log: seq<EntryRecord>, j: nat)
    requires Chained(env, log) && 0 < j < |log| && log[0].prevHash == log[j].prevHash
    ensures Genuine(env, GenesisPreimage(PreimageAt(env, log, j - 1)))
  {
    hide PreimageAt, Chained, Genesis, IsHash;
    PrevText(env, log, 0);
    PrevText(env, log, j);
  }

  lemma LaterDefect(env: Env, log: seq<EntryRecord>, i: nat, j: nat)
    requires Chained(env, log) && 0 < i < j < |log| && log[i].prevHash == log[j].prevHash
    requires PreimageAt(env, log, i - 1) != PreimageAt(env, log, j - 1)
    ensures Genuine(env, Collision(PreimageAt(env, log, i - 1), PreimageAt(env, log, j - 1)))
  {
    hide PreimageAt, Chained, Genesis, IsHash;
    PrevText(env, log, i);
    PrevText(env, log, j);
  }

  lemma DefectAt(env: Env, log: seq<EntryRecord>, i: nat, j: nat)
    requires i < j < |log|
    ensures ForkDefect(env, log, i, j) ==
      if i == 0 then GenesisPreimage(PreimageAt(env, log, j - 1))
      else if PreimageAt(env, log, i - 1) != PreimageAt(env, log, j - 1) then
        Collision(PreimageAt(env, log, i - 1), PreimageAt(env, log, j - 1))
      else ForkDefect(env, log, i - 1, j - 1)
  {
    hide PreimageAt;
  }

  /** An entry's predecessor is the hash of the text before it. */
  lemma PrevText(env: Env, log: seq<EntryRecord>, i: nat)
    requires Chained(env, log) && i < |log|
    ensures log[i].prevHash == if i == 0 then Genesis() else env.hash(PreimageAt(env, log, i - 1))
  {
    hide PreimageAt, Chained, IsHash, Genesis;
    LinkFacts(env, log, i);
    if i > 0 {
      LinkFacts(env, log, i - 1);
    }
  }

  lemma SameBefore(env: Env, log: seq<EntryRecord>, i: nat, j: nat)
    requires Chained(env, log) && i < j < |log| && PreimageAt(env, log, i) == PreimageAt(env, log, j)
    ensures log[i].prevHash == log[j].prevHash
  {
    hide Preimage, IsHash, Chained;
    LinkFacts(env, log, i);
    LinkFacts(env, log, j);
    BeforeIsHash(env, log, i);
    BeforeIsHash(env, log, j);
    SamePreimage(env.salt, Before(Genesis(), log, i), Before(Genesis(), log, j), log[i], log[j]);
  }

  lemma LinkFacts(env: Env, log: seq<EntryRecord>, i: nat)
    requires Chained(env, log) && i < |log|
    ensures ParseDirection(log[i].direction).Some? && log[i].prevHash == Before(Genesis(), log, i)
    ensures log[i].thisHash == env.hash(PreimageAt(env, log, i))
  {
    hide Preimage;
    assert LinkAt(env, Genesis(), log, i);
  }

  /** Two rows keep two places in any order. */
  lemma OtherPositions(log: seq<EntryRecord>, rows: seq<EntryRecord>, i: nat, j: nat) returns (a: nat, b: nat)
    requires multiset(rows) == multiset(log) && i < j < |log| && log[i].prevHash == log[j].prevHash
    ensures a < b < |rows| && rows[a].prevHash == rows[b].prevHash
  {
    b := Locate(rows, log[j]) by { assert log[j] in multiset(log); }
    SameWithout(log, rows, j, b);
    a := Locate(Without(rows, b), log[i]) by { assert Without(log, j)[i] == log[i]; }
    if a < b {
      return a, b;
    } else {
      return b, a + 1;
    }
  }

  /** Two rows follow the same hash, and the defect behind them is there. */
  ghost predicate ForkShown(env: Env, rows: seq<EntryRecord>) {
    exists a, b ::
      0 <= a < b < |rows| && rows[a].prevHash == rows[b].prevHash && Genuine(env, ForkDefect(env, rows, a, b))
  }

  /** Hence no order of the rows verifies, unless two of the texts hashed along it collide or one
      hashes to the genesis hash. */
  lemma ForkBreaksEveryOrder(env: Env, log: seq<EntryRecord>, rows: seq<EntryRecord>, i: nat, j: nat)
    requires multiset(rows) == multiset(log) && i < j < |log| && log[i].prevHash == log[j].prevHash
    ensures Chained(env, rows) ==> ForkShown(env, rows)
  {
    hide Chained, Genuine, ForkDefect;
    if Chained(env, rows) {
      var a, b := OtherPositions(log, rows, i, j);
      ForkDetected(env, rows, a, b);
    }
  }
}
