/** What overlapping runs can do: two processes that both read the head before either commits. */
module Fork {
  import opened Text
  import opened Posting
  import opened HashChain
  import opened Ledger
  import opened Links
  import opened Invariant
  import opened Freshness
  import opened Database
  import opened Interleavings
  import opened Refinement

  /** A new run whose posting the tables would admit. */
  ghost predicate CanPost(sys: System, pid: nat, job: Job) {
    && pid !in sys.runs && Validate(job.req).Good?
    && CheckAccounts(sys.db.accounts, Validate(job.req).lines).None?
    && job.req.postingId !in sys.db.postings && NewIds(sys.db.entries, job.ids)
  }

  /** The events that take a run from its start to the point of committing. */
  function UpToCommit(pid: nat, replica: nat, job: Job, pick: nat): seq<Event> {
    [Start(pid, replica, job)] + Steps(pid, pick, 2 * |job.ids| + 6)
  }

  /** Both runs reach the point of committing, then both commit. */
  function Overlapping(p: nat, q: nat, first: Job, second: Job, pick: nat): seq<Event> {
    UpToCommit(p, 0, first, pick) + UpToCommit(q, 1, second, pick) + [Advance(p, 0), Advance(q, 0)]
  }

  /** The batch a job links when it reads the tables as they are now. */
  ghost function BatchNow(sys: System, job: Job): Batch
    requires Validate(job.req).Good?
  {
    BatchOf(Head(sys.db.entries), |sys.db.entries|, job, Validate(job.req).lines)
  }

  lemma UpToCommitWalk(env: Env, sys: System, pid: nat, replica: nat, job: Job, pick: nat)
    ensures Play(env, sys, UpToCommit(pid, replica, job, pick))
         == Walk(env, StartRun(sys, pid, replica, job), pid, pick, 2 * |job.ids| + 6)
  {
    hide StartRun, Walk, Play, Apply, Steps;
    var start := Start(pid, replica, job);
    PlayConcat(env, sys, [start], Steps(pid, pick, 2 * |job.ids| + 6));
    PlayOne(env, sys, start);
    StartApplies(env, sys, pid, replica, job);
    WalkIsPlay(env, StartRun(sys, pid, replica, job), pid, pick, 2 * |job.ids| + 6);
  }

  lemma PlayUpToCommit(env: Env, sys: System, pid: nat, replica: nat, job: Job, pick: nat)
    requires CanPost(sys, pid, job) && Numbered(sys.db.entries) && pick == LatestRow(sys.db.entries)
    ensures var sys' := Play(env, sys, UpToCommit(pid, replica, job, pick));
      && sys'.db == sys.db
      && sys'.runs.Keys == sys.runs.Keys + {pid}
      && (forall k :: k in sys.runs ==> sys'.runs[k] == sys.runs[k])
      && sys'.runs[pid].stage == Committing(BatchNow(sys, job)) && sys'.runs[pid].job == job
  {
    hide Validate, CheckAccounts, NewIds, Numbered, StartRun, Walk, Play, Head, BatchOf, UpToCommit, At, Steps;
    UpToCommitWalk(env, sys, pid, replica, job, pick);
    Started(sys, pid, replica, job);
    StartedRuns(sys, pid, replica, job);
    ReadyBatch(env, sys, pid, replica, job, pick);
    AtRuns(StartRun(sys, pid, replica, job), pid, Committing(BatchNow(sys, job)));
  }

  lemma ReadyBatch(env: Env, sys: System, pid: nat, replica: nat, job: Job, pick: nat)
    requires CanPost(sys, pid, job) && Numbered(sys.db.entries) && pick == LatestRow(sys.db.entries)
    requires var started := StartRun(sys, pid, replica, job);
      && pid in started.runs && started.db == sys.db && started.runs[pid].job == job
      && started.runs[pid].lines == Validate(job.req).lines && started.runs[pid].stage == CheckExisting
    ensures var started := StartRun(sys, pid, replica, job);
      Walk(env, started, pid, pick, 2 * |job.ids| + 6) == At(started, pid, Committing(BatchNow(sys, job)))
  {
    hide Validate, CheckAccounts, NewIds, Numbered, StartRun, Walk, Head, BatchOf, At;
    WalkToCommit(env, StartRun(sys, pid, replica, job), pid, pick);
  }

  lemma AtRuns(sys: System, pid: nat, stage: Stage)
    requires pid in sys.runs
    ensures var sys' := At(sys, pid, stage);
      && sys'.db == sys.db && sys'.runs.Keys == sys.runs.Keys
      && (forall k :: k in sys.runs && k != pid ==> sys'.runs[k] == sys.runs[k])
      && sys'.runs[pid].stage == stage && sys'.runs[pid].job == sys.runs[pid].job
  {
  }

  lemma StartedRuns(sys: System, pid: nat, replica: nat, job: Job)
    requires pid !in sys.runs && Validate(job.req).Good?
    ensures var sys' := StartRun(sys, pid, replica, job);
      sys'.runs.Keys == sys.runs.Keys + {pid} && forall k :: k in sys.runs ==> sys'.runs[k] == sys.runs[k]
  {
    hide Validate;
  }

  lemma CommitNow(env: Env, sys: System, pid: nat, b: Batch)
    requires pid in sys.runs && sys.runs[pid].stage == Committing(b) && b.postingId == sys.runs[pid].job.req.postingId
    requires Admissible(sys.db, b)
    ensures var sys' := Apply(env, sys, Advance(pid, 0));
      && sys'.db.entries == sys.db.entries + Link(env, b)
      && sys'.db.accounts == sys.db.accounts
      && sys'.db.postings.Keys == sys.db.postings.Keys + {b.postingId}
      && (forall k :: k in sys.runs && k != pid ==> k in sys'.runs && sys'.runs[k] == sys.runs[k])
  {
    hide Admissible, Link, Apply, At, CommitRun, NewPosting;
    var job := sys.runs[pid].job;
    CommitApplies(env, sys, pid, 0, b);
    CommitTablesNow(env, sys, job, b);
    AtRuns(CommitRun(env, sys, job, b), pid, UpdateCache(b));
  }

  lemma CommitTablesNow(env: Env, sys: System, job: Job, b: Batch)
    requires b.postingId == job.req.postingId
    ensures var sys' := CommitRun(env, sys, job, b);
      && sys'.db.entries == sys.db.entries + Link(env, b) && sys'.db.accounts == sys.db.accounts
      && sys'.db.postings.Keys == sys.db.postings.Keys + {b.postingId} && sys'.runs == sys.runs
  {
    hide Link, RowOf, AnchorOf, NewPosting;
  }

  lemma NewAdmissible(sys: System, pid: nat, job: Job, base: string)
    requires CanPost(sys, pid, job)
    ensures var b := BatchOf(base, |sys.db.entries|, job, Validate(job.req).lines);
      Admissible(sys.db, b) && b.postingId == job.req.postingId
  {
    hide Validate, Decimal, Distinct;
    AccountsExact(sys.db.accounts, Validate(job.req).lines);
  }

  lemma NowAdmissible(sys: System, pid: nat, job: Job)
    requires CanPost(sys, pid, job)
    ensures Admissible(sys.db, BatchNow(sys, job))
    ensures BatchNow(sys, job).postingId == job.req.postingId
  {
    hide CanPost, Admissible, Head, BatchOf;
    NewAdmissible(sys, pid, job, Head(sys.db.entries));
  }

  lemma LinkedId(env: Env, b: Batch, e: EntryRecord)
    requires e in Link(env, b)
    ensures e.entryId in b.ids
  {
    hide Link;
    var i :| 0 <= i < |b.lines| && Link(env, b)[i] == e;
    LinkedFields(env, b, i);
    assert b.ids[i] in b.ids;
  }

  lemma StillAdmissible(env: Env, db: Tables, db': Tables, b: Batch, other: Batch)
    requires Admissible(db, b) && b.postingId != other.postingId
    requires db'.entries == db.entries + Link(env, other) && db'.accounts == db.accounts
    requires db'.postings.Keys == db.postings.Keys + {other.postingId}
    requires forall id :: id in other.ids ==> id !in b.ids
    ensures Admissible(db', b)
  {
    hide Link, Distinct;
    assert b.postingId !in db'.postings.Keys;
    forall e | e in db'.entries ensures e.entryId !in b.ids {
      if e !in db.entries {
        LinkedId(env, other, e);
      }
    }
  }

  /** For any two postings that could each be made, the overlapping schedule commits both, in
      full, linked after the same head and numbered from the same number. */
  lemma BothLinkAfterTheSameHead(env: Env, sys: System, p: nat, q: nat, first: Job, second: Job)
    requires Numbered(sys.db.entries) && p != q && CanPost(sys, p, first) && CanPost(sys, q, second)
    requires first.req.postingId != second.req.postingId && forall id :: id in first.ids ==> id !in second.ids
    ensures var sys' := Play(env, sys, Overlapping(p, q, first, second, LatestRow(sys.db.entries)));
      sys'.db.entries == sys.db.entries + Link(env, BatchNow(sys, first)) + Link(env, BatchNow(sys, second))
  {
    hide Play, Numbered, Apply, Validate, CheckAccounts, NewIds, BatchNow, Link, UpToCommit, Admissible, Overlapping;
    var pick, a, b := LatestRow(sys.db.entries), BatchNow(sys, first), BatchNow(sys, second);
    var one := Play(env, sys, UpToCommit(p, 0, first, pick));
    PlayUpToCommit(env, sys, p, 0, first, pick);
    StillCanPost(sys, one, q, second);
    var two := Play(env, one, UpToCommit(q, 1, second, pick));
    PlayUpToCommit(env, one, q, 1, second, pick);
    NowAdmissible(sys, p, first);
    NowAdmissible(sys, q, second);
    NowIds(sys, first);
    NowIds(sys, second);
    assert p in one.runs.Keys;
    CommitNow(env, two, p, a);
    var three := Apply(env, two, Advance(p, 0));
    StillAdmissible(env, sys.db, three.db, b, a);
    CommitNow(env, three, q, b);
    PlayOverlapping(env, sys, p, q, first, second, pick);
  }

  lemma NowIds(sys: System, job: Job)
    requires Validate(job.req).Good?
    ensures BatchNow(sys, job).ids == job.ids
  {
    hide Validate, Head;
  }

  lemma StillCanPost(sys: System, sys': System, pid: nat, job: Job)
    requires CanPost(sys, pid, job) && sys'.db == sys.db && pid !in sys'.runs
    ensures CanPost(sys', pid, job) && BatchNow(sys', job) == BatchNow(sys, job)
      && LatestRow(sys'.db.entries) == LatestRow(sys.db.entries)
  {
    hide Validate, CheckAccounts, NewIds, Head;
  }

  lemma PlayOverlapping(env: Env, sys: System, p: nat, q: nat, first: Job, second: Job, pick: nat)
    ensures var two := Play(env, Play(env, sys, UpToCommit(p, 0, first, pick)), UpToCommit(q, 1, second, pick));
      Play(env, sys, Overlapping(p, q, first, second, pick))
        == Apply(env, Apply(env, two, Advance(p, 0)), Advance(q, 0))
  {
    hide UpToCommit, Apply, Play;
    var a, b := UpToCommit(p, 0, first, pick), UpToCommit(q, 1, second, pick);
    PlayConcat(env, sys, a, b);
    PlayConcat(env, sys, a + b, [Advance(p, 0), Advance(q, 0)]);
    assert [Advance(p, 0), Advance(q, 0)] == [Advance(p, 0)] + [Advance(q, 0)];
    PlayConcat(env, Play(env, sys, a + b), [Advance(p, 0)], [Advance(q, 0)]);
    PlayOne(env, Play(env, sys, a + b), Advance(p, 0));
    PlayOne(env, Apply(env, Play(env, sys, a + b), Advance(p, 0)), Advance(q, 0));
  }

  /** So the chain forks: two rows repeat both a predecessor and a sequence number. */
  lemma OverlapForks(env: Env, sys: System, p: nat, q: nat, first: Job, second: Job)
    requires Numbered(sys.db.entries) && p != q && CanPost(sys, p, first) && CanPost(sys, q, second)
    requires first.req.postingId != second.req.postingId && forall id :: id in first.ids ==> id !in second.ids
    ensures var forked := Play(env, sys, Overlapping(p, q, first, second, LatestRow(sys.db.entries)));
      var log, i, j := forked.db.entries, |sys.db.entries|, |sys.db.entries| + |first.ids|;
      && i < j < |log| && log[i].prevHash == log[j].prevHash == Head(sys.db.entries)
      && log[i].sequenceNumber == log[j].sequenceNumber == i + 1
  {
    hide Play, Numbered, Link, Overlapping, Head, Decimal, CheckAccounts, NewIds, Validate, Balanced, GoodLine;
    BothLinkAfterTheSameHead(env, sys, p, q, first, second);
    FirstOfBatch(env, sys, first);
    FirstOfBatch(env, sys, second);
  }

  /** In whatever order the forked rows are read back, they do not verify unless two of the texts
      hashed along them collide or one hashes to the genesis hash. */
  lemma OverlapBreaksTheChain(env: Env, sys: System, p: nat, q: nat, first: Job, second: Job, rows: seq<EntryRecord>)
    requires Numbered(sys.db.entries) && p != q && CanPost(sys, p, first) && CanPost(sys, q, second)
    requires first.req.postingId != second.req.postingId && forall id :: id in first.ids ==> id !in second.ids
    requires var pick := LatestRow(sys.db.entries);
      multiset(rows) == multiset(Play(env, sys, Overlapping(p, q, first, second, pick)).db.entries)
    ensures Chained(env, rows) ==> ForkShown(env, rows)
  {
    hide Play, Numbered, CanPost, Chained, Overlapping, Head, ForkShown, LatestRow;
    var log := Play(env, sys, Overlapping(p, q, first, second, LatestRow(sys.db.entries))).db.entries;
    OverlapForks(env, sys, p, q, first, second);
    ForkBreaksEveryOrder(env, log, rows, |sys.db.entries|, |sys.db.entries| + |first.ids|);
  }

  lemma FirstOfBatch(env: Env, sys: System, job: Job)
    requires Validate(job.req).Good?
    ensures var es := Link(env, BatchNow(sys, job));
      |es| == |job.ids| > 0 && es[0].prevHash == Head(sys.db.entries) && es[0].sequenceNumber == |sys.db.entries| + 1
  {
    hide Link, Head, Decimal, Validate, Balanced, GoodLine;
    ValidatedLines(job.req);
    var b := BatchNow(sys, job);
    FirstPrev(env, b);
    LinkedFields(env, b, 0);
  }

  // ---------- A head read that fails ----------

  /** A batch linked after the genesis hash on a non-empty log breaks the chain, unless the last
      entry's preimage is a preimage of the genesis hash. */
  lemma GenesisLinkBreaks(env: Env, log: seq<EntryRecord>, b: Batch)
    requires Chained(env, log) && log != [] && b.lines != [] && b.prev == Genesis()
    ensures Chained(env, log + Link(env, b)) ==> Genuine(env, GenesisPreimage(PreimageAt(env, log, |log| - 1)))
  {
    hide Link, Chained, PreimageAt;
    LinkFacts(env, log, |log| - 1);
    LinearStep(env, log, b);
  }

  /** A run that makes its checks, fails to read the head, and carries on to its commit. */
  function WithoutHead(pid: nat, replica: nat, job: Job): seq<Event> {
    [Start(pid, replica, job)] + Steps(pid, 0, 2 * |job.ids| + 3) + [HeadReadFails(pid)] + Steps(pid, 0, 3)
  }

  ghost function GenesisBatch(sys: System, job: Job): Batch
    requires Validate(job.req).Good?
  {
    BatchOf(Genesis(), |sys.db.entries|, job, Validate(job.req).lines)
  }

  /** Any posting that could be made is committed even so, linked after the genesis hash. If the
      log was a valid non-empty chain it is one no longer, unless its last entry's text hashes to
      the genesis hash. */
  lemma HeadFailureBreaks(env: Env, sys: System, pid: nat, replica: nat, job: Job)
    requires CanPost(sys, pid, job) && Numbered(sys.db.entries) && Chained(env, sys.db.entries) && sys.db.entries != []
    ensures var log, before := Play(env, sys, WithoutHead(pid, replica, job)).db.entries, sys.db.entries;
      && log == before + Link(env, GenesisBatch(sys, job))
      && (Chained(env, log) ==> Genuine(env, GenesisPreimage(PreimageAt(env, before, |before| - 1))))
  {
    hide CheckAccounts, NewIds, Numbered, Chained, Play, Link, Genuine, PreimageAt, Validate, WithoutHead, GenesisBatch,
      Apply, StartRun, Walk, At, Steps;
    WithoutHeadWalk(env, sys, pid, replica, job);
    ReachesHeadRead(env, sys, pid, replica, job);
    CommitsAfterGenesis(env, sys, pid, replica, job);
    GenesisBatchLines(sys, pid, job);
    GenesisLinkBreaks(env, sys.db.entries, GenesisBatch(sys, job));
  }

  lemma WithoutHeadWalk(env: Env, sys: System, pid: nat, replica: nat, job: Job)
    ensures var read := Walk(env, StartRun(sys, pid, replica, job), pid, 0, 2 * |job.ids| + 3);
      Play(env, sys, WithoutHead(pid, replica, job)) == Walk(env, Apply(env, read, HeadReadFails(pid)), pid, 0, 3)
  {
    hide StartRun, Walk, Play, Apply, Steps;
    var start, fails, n := Start(pid, replica, job), HeadReadFails(pid), 2 * |job.ids| + 3;
    var started := StartRun(sys, pid, replica, job);
    var read := Walk(env, started, pid, 0, n);
    PlayConcat(env, sys, [start] + Steps(pid, 0, n) + [fails], Steps(pid, 0, 3));
    PlayConcat(env, sys, [start] + Steps(pid, 0, n), [fails]);
    PlayConcat(env, sys, [start], Steps(pid, 0, n));
    PlayOne(env, sys, start);
    StartApplies(env, sys, pid, replica, job);
    WalkIsPlay(env, started, pid, 0, n);
    PlayOne(env, read, fails);
    WalkIsPlay(env, Apply(env, read, fails), pid, 0, 3);
  }

  lemma ReachesHeadRead(env: Env, sys: System, pid: nat, replica: nat, job: Job)
    requires CanPost(sys, pid, job)
    ensures var started := StartRun(sys, pid, replica, job);
      && pid in started.runs && started.db == sys.db
      && started.runs[pid].job == job && started.runs[pid].lines == Validate(job.req).lines
      && Walk(env, started, pid, 0, 2 * |job.ids| + 3) == At(started, pid, ReadHead)
  {
    hide Validate, CheckAccounts, NewIds, StartRun, Walk, Apply, At;
    Started(sys, pid, replica, job);
    var started := StartRun(sys, pid, replica, job);
    EntersChecks(env, started, pid, 0);
    FirstStep(env, started, pid, 0, 2 * |job.ids| + 2);
    ChecksWalk(env, started, pid, 0);
  }

  /** The failed read is taken for an empty table. */
  lemma GenesisInstead(env: Env, sys: System, pid: nat)
    requires pid in sys.runs
    ensures Apply(env, At(sys, pid, ReadHead), HeadReadFails(pid)) == At(sys, pid, InsertPosting(Genesis()))
  {
    hide Genesis, At, Move, Proceed, CommitStep, OpenRow, StartRun, Rebuild, OrderedRows, SetCache;
    AtAt(sys, pid, ReadHead, InsertPosting(Genesis()));
  }

  lemma CommitsAfterGenesis(env: Env, sys: System, pid: nat, replica: nat, job: Job)
    requires CanPost(sys, pid, job) && Numbered(sys.db.entries)
    requires var started := StartRun(sys, pid, replica, job);
      && pid in started.runs && started.db == sys.db
      && started.runs[pid].job == job && started.runs[pid].lines == Validate(job.req).lines
    ensures var failed := Apply(env, At(StartRun(sys, pid, replica, job), pid, ReadHead), HeadReadFails(pid));
      Walk(env, failed, pid, 0, 3).db.entries == sys.db.entries + Link(env, GenesisBatch(sys, job))
  {
    hide Validate, NewIds, CheckAccounts, Numbered, StartRun, Walk, Apply, At, BatchOf, Link, Admissible, Genesis;
    var started, b := StartRun(sys, pid, replica, job), GenesisBatch(sys, job);
    GenesisInstead(env, started, pid);
    WalkThree(env, At(started, pid, InsertPosting(Genesis())), pid, 0);
    InsertNext(env, started, pid, 0, Genesis());
    SequenceNext(env, started, pid, 0, Genesis());
    AtRuns(started, pid, Committing(b));
    NewAdmissible(sys, pid, job, Genesis());
    CommitNow(env, At(started, pid, Committing(b)), pid, b);
  }

  lemma GenesisBatchLines(sys: System, pid: nat, job: Job)
    requires CanPost(sys, pid, job)
    ensures GenesisBatch(sys, job).lines != [] && GenesisBatch(sys, job).prev == Genesis()
  {
    hide Validate, Genesis, CheckAccounts, NewIds, Balanced, GoodLine, Decimal;
    ValidatedLines(job.req);
  }
}
