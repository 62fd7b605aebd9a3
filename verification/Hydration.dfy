/** Rebuilding the in-memory ledger from the tables, and processes that serve requests in turn. */
module Hydration {
  import opened Text
  import opened Sums
  import opened Posting
  import opened HashChain
  import opened Chart
  import opened Ledger
  import opened Invariant
  import opened Snapshots
  import opened Acceleration
  import opened Runs
  import opened Freshness
  import opened Database
  import opened Traces
  import opened Linear
  import opened Refinement

  /** Numbered rows have only one order. */
  lemma {:induction false} OneOrder(rows: seq<EntryRecord>, table: seq<EntryRecord>)
    requires OrderedRows(rows, table) && Numbered(table)
    ensures rows == table
    decreases |table|
  {
    hide OrderedRows, Numbered;
    SameLength(rows, table);
    if table != [] {
      LastRow(rows, table);
      DropLast(rows, table);
      OneOrder(rows[..|rows| - 1], table[..|table| - 1]);
      assert rows == rows[..|rows| - 1] + [rows[|rows| - 1]] && table == table[..|table| - 1] + [table[|table| - 1]];
    }
  }

  lemma SameLength(rows: seq<EntryRecord>, table: seq<EntryRecord>)
    requires OrderedRows(rows, table)
    ensures |rows| == |table|
  {
    assert |multiset(rows)| == |rows| && |multiset(table)| == |table|;
  }

  lemma LastRow(rows: seq<EntryRecord>, table: seq<EntryRecord>)
    requires OrderedRows(rows, table) && Numbered(table) && table != [] && |rows| == |table|
    ensures rows[|rows| - 1] == table[|table| - 1]
  {
    var n := |table| - 1;
    assert rows[n] in multiset(rows) && table[n] in multiset(rows);
    var i := Locate(table, rows[n]);
    var j := Locate(rows, table[n]);
    assert table[i].sequenceNumber == i + 1 && table[n].sequenceNumber == n + 1;
    assert rows[j].sequenceNumber <= rows[n].sequenceNumber;
  }

  lemma DropLast(rows: seq<EntryRecord>, table: seq<EntryRecord>)
    requires OrderedRows(rows, table) && Numbered(table) && |rows| == |table| > 0
    requires rows[|rows| - 1] == table[|table| - 1]
    ensures OrderedRows(rows[..|rows| - 1], table[..|table| - 1]) && Numbered(table[..|table| - 1])
  {
    var a, b, e := rows[..|rows| - 1], table[..|table| - 1], rows[|rows| - 1];
    assert rows == a + [e] && table == b + [e];
    assert multiset(a) + multiset{e} == multiset(b) + multiset{e};
    CancelOne(multiset(a), multiset(b), e);
  }

  lemma RecordOfRow(p: PostingRecord)
    ensures RecordOf(RowOf(p), p.entries) == p
  {
  }

  lemma RebuiltPostings(postings: map<string, PostingRecord>, log: seq<EntryRecord>)
    requires PostingsOk(postings, log)
    ensures Attached(PostingRows(postings), log) == postings
  {
    hide Rows, RecordOf, RowOf;
    var rebuilt := Attached(PostingRows(postings), log);
    forall id | id in postings ensures rebuilt[id] == postings[id] {
      assert PostingOk(log, id, postings[id]);
      RecordOfRow(postings[id]);
    }
    assert rebuilt.Keys == postings.Keys;
  }

  /** Tables that mirror a ledger rebuild exactly that ledger, except for its audit events, which
      are not stored, and its snapshots, which have a table of their own. */
  lemma RebuildMirror(db: Tables, m: LedgerState, rows: seq<EntryRecord>, stored: seq<SnapshotRow>, before: LedgerState)
    requires BooksOk(m) && Mirrors(db, m) && OrderedRows(rows, db.entries)
    ensures Rebuild(db, rows, stored, before)
         == m.(auditEvents := before.auditEvents, snapshots := LoadSnapshots(m.entries, stored))
  {
    hide Numbered, OrderedRows, AnchorsOk, Head, MaxSequence, PostingsOk, Attached, PostingRows, LoadSnapshots;
    OneOrder(rows, db.entries);
    MaxOfNumbered(db.entries);
    RebuiltPostings(m.postings, m.entries);
  }

  function StoredSnapshot(s: BalanceSnapshot): SnapshotRow {
    SnapshotRow(s.accountId, s.asset, s.balance, s.asOfTs, s.lastEntryId)
  }

  /** A snapshot that was stored is loaded as it was, however the log has grown since. */
  lemma SnapshotReloads(log: seq<EntryRecord>, n: nat, accountId: string, asset: string, asOfTs: string)
    requires IdsOk(log) && n <= |log|
    ensures var snap := BuildSnapshot(log[..n], accountId, asset, asOfTs);
      LoadSnapshot(log, StoredSnapshot(snap)) == snap
  {
    hide Balance, Matches;
    var i := LastMatchAt(log[..n], accountId, asset);
    var found := FindEntry(log, BuildSnapshot(log[..n], accountId, asset, asOfTs).lastEntryId);
    if found.Some? {
      var k :| 0 <= k < |log| && log[k] == found.value;
    }
    if i != -1 {
      assert log[i] in log;
    }
  }

  /** A snapshot read back keeps what was stored; its last entry gives the sequence number, and if
      that entry is gone the id and the number are empty. */
  lemma LoadExact(log: seq<EntryRecord>, row: SnapshotRow)
    ensures var snap := LoadSnapshot(log, row);
      && snap.accountId == row.accountId && snap.asset == row.asset && snap.balance == row.balance
      && snap.asOfTs == row.asOfTs
      && (forall i :: 0 <= i < |log| && FirstWith(log, row.lastEntryId, i) ==>
            snap.lastEntryId == row.lastEntryId && snap.lastSequence == log[i].sequenceNumber)
      && ((forall i :: 0 <= i < |log| ==> log[i].entryId != row.lastEntryId) ==>
            snap.lastEntryId == "" && snap.lastSequence == 0)
  {
    forall i | 0 <= i < |log| && FirstWith(log, row.lastEntryId, i)
      ensures FindEntry(log, row.lastEntryId) == Some(log[i])
    {
      FoundFirst(log, row.lastEntryId, i);
    }
  }

  lemma {:induction false} FoundFirst(log: seq<EntryRecord>, id: string, i: nat)
    requires i < |log| && log[i].entryId == id && forall j :: 0 <= j < i ==> log[j].entryId != id
    ensures FindEntry(log, id) == Some(log[i])
  {
    if i > 0 {
      FoundFirst(log[1..], id, i - 1);
    }
  }

  // ---------- Any number of processes, one request at a time ----------

  /** A request is served to its end by one process, or a process is started anew and hydrates. */
  datatype Request =
    | Serve(replica: nat, op: Op)
    | Reboot(replica: nat, rows: seq<EntryRecord>, stored: seq<SnapshotRow>)

  /** What the requests ask of the ledger, whoever serves them. */
  function Ops(reqs: seq<Request>): seq<Op> {
    if reqs == [] then []
    else
      var front, last := Ops(reqs[..|reqs| - 1]), reqs[|reqs| - 1];
      if last.Serve? then front + [last.op] else front
  }

  ghost function LedgerAfter(env: Env, reqs: seq<Request>): LedgerState {
    Exec(env, EmptyState(), Ops(reqs))
  }

  ghost function ServedEvents(env: Env, reqs: seq<Request>): seq<Event> {
    if reqs == [] then []
    else
      var n := |reqs| - 1;
      var evs := ServedEvents(env, reqs[..n]);
      evs + NextEvents(Play(env, Initial(), evs), n, reqs[n])
  }

  function NextEvents(sys: System, n: nat, request: Request): seq<Event> {
    match request
    case Serve(replica, Open(req, freshId, clock)) => [OpenAccount(replica, req, freshId, clock)]
    case Serve(replica, Submit(job)) => Script(n, replica, job, LatestRow(sys.db.entries))
    case Serve(_, TakeSnapshots(_)) => []
    case Reboot(replica, rows, stored) => [Restart(replica), Hydrate(replica, rows, stored)]
  }

  ghost function SystemAfter(env: Env, reqs: seq<Request>): System {
    Play(env, Initial(), ServedEvents(env, reqs))
  }

  ghost predicate PostsOnly(reqs: seq<Request>) {
    forall i :: 0 <= i < |reqs| && reqs[i].Serve? ==> !reqs[i].op.TakeSnapshots?
  }

  /** The process has seen everything: it has served every request since it was last hydrated, or
      since the beginning. */
  ghost predicate UpToDate(env: Env, reqs: seq<Request>, replica: nat) {
    reqs == [] ||
      var front, last := reqs[..|reqs| - 1], reqs[|reqs| - 1];
      match last
      case Serve(r, _) => r == replica && UpToDate(env, front, replica)
      case Reboot(r, rows, stored) =>
        if r == replica then OrderedRows(rows, LedgerAfter(env, front).entries) && BalancesFit(stored)
        else UpToDate(env, front, replica)
  }

  lemma {:induction false} ServedPids(env: Env, reqs: seq<Request>)
    ensures forall i :: 0 <= i < |ServedEvents(env, reqs)| ==>
      Pid(ServedEvents(env, reqs)[i]).Some? ==> Pid(ServedEvents(env, reqs)[i]).value < |reqs|
  {
    hide Play, Initial;
    if reqs != [] {
      ServedPids(env, reqs[..|reqs| - 1]);
    }
  }

  lemma FreshPid(env: Env, reqs: seq<Request>)
    ensures |reqs| !in SystemAfter(env, reqs).runs
  {
    hide Play, ServedEvents;
    var evs := ServedEvents(env, reqs);
    ServedPids(env, reqs);
    if |reqs| in Play(env, Initial(), evs).runs {
      StartedBy(env, evs, |reqs|);
    }
  }

  // ---------- One request ----------

  lemma OpenMirrors(sys: System, m: LedgerState, owner: nat, req: CreateAccountRequest, freshId: string, clock: nat)
    requires Mirrors(sys.db, m)
    ensures var sys', m' := OpenRow(sys, owner, req, freshId, clock), CreateAccount(m, req, freshId, clock).0;
      Mirrors(sys'.db, m') && (SameBooks(Cache(sys, owner), m) ==> SameBooks(Cache(sys', owner), m'))
  {
    hide ValidateAccount, RowOf, Decimal;
  }

  lemma OpenApplies(env: Env, sys: System, owner: nat, req: CreateAccountRequest, freshId: string, clock: nat)
    ensures Apply(env, sys, OpenAccount(owner, req, freshId, clock)) == OpenRow(sys, owner, req, freshId, clock)
  {
    hide OpenRow;
  }

  lemma RefusedPost(env: Env, m: LedgerState, job: Job)
    requires Validate(job.req).Bad?
    ensures Post(env, m, job) == (m, Rejected(Validate(job.req).error))
  {
    hide Validate;
  }

  lemma RefusedRun(env: Env, sys: System, pid: nat, replica: nat, job: Job, pick: nat)
    requires Validate(job.req).Bad? && pid !in sys.runs
    ensures Play(env, sys, Script(pid, replica, job, pick)) == sys
  {
    hide Validate, Script, Play;
    ScriptWalk(env, sys, pid, replica, job, pick);
    IdleWalk(env, sys, pid, pick, 2 * |job.ids| + 9);
  }

  lemma {:induction false} IdleWalk(env: Env, sys: System, pid: nat, pick: nat, n: nat)
    requires pid !in sys.runs
    ensures Walk(env, sys, pid, pick, n) == sys
    decreases n
  {
    hide Proceed;
    if n > 0 {
      IdleWalk(env, sys, pid, pick, n - 1);
    }
  }

  lemma PostedBooks(before: LedgerState, copy: LedgerState, after: LedgerState)
    requires |before.auditEvents| <= |after.auditEvents|
    ensures SameBooks(Posted(before, copy, after), after)
  {
  }

  /** Whichever process serves an operation, the tables follow the ledger and so does that
      process's copy if it has seen everything; the answer is the ledger's. */
  lemma ServeOne(env: Env, sys: System, m: LedgerState, n: nat, replica: nat, op: Op)
    requires BooksOk(m) && Mirrors(sys.db, m) && n !in sys.runs && !op.TakeSnapshots?
    requires op.Submit? ==> NewIds(m.entries, op.job.ids)
    ensures var sys' := Play(env, sys, NextEvents(sys, n, Serve(replica, op)));
      && Mirrors(sys'.db, Step(env, m, op))
      && (SameBooks(Cache(sys, replica), m) ==> SameBooks(Cache(sys', replica), Step(env, m, op)))
      && (op.Submit? && Validate(op.job.req).Good? ==>
           n in sys'.runs && sys'.runs[n].stage == Finished(Post(env, m, op.job).1))
  {
    hide BooksOk, NewIds, CreateAccount, Post, Validate, Cache, Play, Script, Mirrors, SameBooks, Posted;
    match op
    case Open(req, freshId, clock) =>
      PlayOne(env, sys, OpenAccount(replica, req, freshId, clock));
      OpenApplies(env, sys, replica, req, freshId, clock);
      OpenMirrors(sys, m, replica, req, freshId, clock);
    case Submit(job) =>
      MirrorFacts(sys.db, m);
      if Validate(job.req).Good? {
        RunRefinesPost(env, sys, m, n, replica, job);
        PostedBooks(m, Cache(sys, replica), Post(env, m, job).0);
      } else {
        RefusedRun(env, sys, n, replica, job, LatestRow(sys.db.entries));
        RefusedPost(env, m, job);
      }
  }

  lemma SmallAmounts(env: Env, m: LedgerState, rows: seq<EntryRecord>)
    requires Inv(env, m) && OrderedRows(rows, m.entries)
    ensures AmountsFit(rows)
  {
    hide Chained, AccountsOk, PostingsOk, AnchorsOk, Partitioned, TrialBalance, SnapshotsOk, Numbered, FindAsset;
    forall i | 0 <= i < |rows| ensures rows[i].amount < 0x1_0000_0000_0000_0000 {
      assert rows[i] in multiset(rows);
      var k := Locate(m.entries, rows[i]);
      assert EntryOk(m.accounts, m.entries[k]);
    }
  }

  /** A process that is started anew has the ledger's books after hydrating. */
  lemma RebootOne(env: Env, sys: System, m: LedgerState, n: nat, replica: nat, rows: seq<EntryRecord>,
                  stored: seq<SnapshotRow>)
    requires Inv(env, m) && Mirrors(sys.db, m)
    ensures var sys' := Play(env, sys, NextEvents(sys, n, Reboot(replica, rows, stored)));
      && sys'.db == sys.db && (forall r :: r != replica ==> Cache(sys', r) == Cache(sys, r))
      && (OrderedRows(rows, m.entries) && BalancesFit(stored) ==> SameBooks(Cache(sys', replica), m))
  {
    hide Inv, BooksOk, OrderedRows, Rebuild, AmountsFit, BalancesFit, Play, Mirrors, LoadSnapshots, Apply;
    RebootApplies(env, sys, replica, rows, stored);
    MirrorFacts(sys.db, m) by { InvBooks(env, m); }
    PlayTwo(env, sys, Restart(replica), Hydrate(replica, rows, stored));
    InvBooks(env, m);
    if OrderedRows(rows, m.entries) {
      SmallAmounts(env, m, rows);
      RebuildMirror(sys.db, m, rows, stored, EmptyState());
    }
  }

  lemma RebootApplies(env: Env, sys: System, replica: nat, rows: seq<EntryRecord>, stored: seq<SnapshotRow>)
    ensures var sys' := Apply(env, Apply(env, sys, Restart(replica)), Hydrate(replica, rows, stored));
      && sys'.db == sys.db && (forall r :: r != replica ==> Cache(sys', r) == Cache(sys, r))
      && (OrderedRows(rows, sys.db.entries) && AmountsFit(rows) && BalancesFit(stored) ==>
           Cache(sys', replica) == Rebuild(sys.db, rows, stored, EmptyState()))
  {
    hide OrderedRows, Rebuild, AmountsFit, BalancesFit, EmptyState, Cache, SetCache, Proceed, CommitStep, At, OpenRow,
      StartRun, Genesis;
    CacheSet(sys, replica, EmptyState());
    var gone := SetCache(sys, replica, EmptyState());
    CacheSet(gone, replica, Rebuild(sys.db, rows, stored, EmptyState()));
  }

  lemma CacheSet(sys: System, replica: nat, m: LedgerState)
    ensures var sys' := SetCache(sys, replica, m);
      && sys'.db == sys.db && Cache(sys', replica) == m
      && (forall r :: r != replica ==> Cache(sys', r) == Cache(sys, r))
  {
    hide EmptyState;
  }

  lemma PlayTwo(env: Env, sys: System, first: Event, second: Event)
    ensures Play(env, sys, [first, second]) == Apply(env, Apply(env, sys, first), second)
  {
    hide Play, Apply;
    assert [first, second] == [first] + [second];
    PlayConcat(env, sys, [first], [second]);
    PlayOne(env, sys, first);
    PlayOne(env, Apply(env, sys, first), second);
  }

  // ---------- All requests ----------

  /** The tables are where the ledger is, and so is every copy that has seen everything. */
  ghost predicate InStep(env: Env, reqs: seq<Request>) {
    var sys, m := SystemAfter(env, reqs), LedgerAfter(env, reqs);
    Mirrors(sys.db, m) && forall replica :: UpToDate(env, reqs, replica) ==> SameBooks(Cache(sys, replica), m)
  }

  /** The run of the last request has given the ledger's answer. */
  ghost predicate LastAnswered(env: Env, reqs: seq<Request>)
    requires reqs != []
  {
    var n, last := |reqs| - 1, reqs[|reqs| - 1];
    var sys := SystemAfter(env, reqs);
    last.Serve? && last.op.Submit? && Validate(last.op.job.req).Good? ==>
      n in sys.runs && sys.runs[n].stage == Finished(Post(env, LedgerAfter(env, reqs[..n]), last.op.job).1)
  }

  lemma InitialMirrors()
    ensures Mirrors(Initial().db, EmptyState()) && forall replica :: Cache(Initial(), replica) == EmptyState()
  {
    NoRows();
  }

  lemma NoRows()
    ensures PostingRows(map[]) == map[]
  {
  }

  lemma ServedNext(env: Env, reqs: seq<Request>)
    requires reqs != []
    ensures var n := |reqs| - 1;
      var sys := SystemAfter(env, reqs[..n]);
      SystemAfter(env, reqs) == Play(env, sys, NextEvents(sys, n, reqs[n]))
  {
    hide Play, NextEvents, Initial;
    var n := |reqs| - 1;
    var evs := ServedEvents(env, reqs[..n]);
    PlayConcat(env, Initial(), evs, NextEvents(Play(env, Initial(), evs), n, reqs[n]));
  }

  /** What the last request does to the ledger, and what its ids are. */
  lemma LedgerNext(env: Env, reqs: seq<Request>)
    requires reqs != [] && FreshRun(env, Ops(reqs)) && PostsOnly(reqs)
    ensures var n, last := |reqs| - 1, reqs[|reqs| - 1];
      var m := LedgerAfter(env, reqs[..n]);
      && FreshRun(env, Ops(reqs[..n])) && PostsOnly(reqs[..n]) && Inv(env, m)
      && LedgerAfter(env, reqs) == (if last.Serve? then Step(env, m, last.op) else m)
      && (last.Serve? ==> !last.op.TakeSnapshots? && (last.op.Submit? ==> NewIds(m.entries, last.op.job.ids)))
  {
    hide Step, Inv, EmptyState, NewIds;
    var ops, n := Ops(reqs), |reqs| - 1;
    if reqs[n].Serve? {
      assert ops[..|ops| - 1] == Ops(reqs[..n]);
    }
    EmptyInv(env);
    ExecInv(env, EmptyState(), Ops(reqs[..n]));
  }

  /** Served one after another by any processes, which may be restarted and hydrate in between,
      requests leave the tables exactly as the in-memory ledger would be, and get its answers; a
      process that has seen everything, from the beginning or since it last hydrated, has the
      ledger's books in memory. */
  lemma {:induction false} DatabaseRefinesMemory(env: Env, reqs: seq<Request>)
    requires FreshRun(env, Ops(reqs)) && PostsOnly(reqs)
    ensures InStep(env, reqs)
    ensures reqs != [] ==> LastAnswered(env, reqs)
  {
    hide Mirrors, Cache, FreshRun, PostsOnly, NextEvents, Step, Initial, Inv, Post, Validate, NewIds, SystemAfter,
      LedgerAfter, Ops, SameBooks, InStep, LastAnswered;
    if reqs == [] {
      ServedNothing(env);
    } else {
      var n := |reqs| - 1;
      LedgerNext(env, reqs);
      DatabaseRefinesMemory(env, reqs[..n]);
      FreshPid(env, reqs[..n]);
      ServedNext(env, reqs);
      RequestInStep(env, reqs);
    }
  }

  lemma ServedNothing(env: Env)
    ensures InStep(env, [])
  {
    hide Mirrors, Cache, EmptyState;
    InitialMirrors();
    SameAsItself(EmptyState());
  }

  lemma RequestInStep(env: Env, reqs: seq<Request>)
    requires reqs != [] && InStep(env, reqs[..|reqs| - 1])
    requires var n, last := |reqs| - 1, reqs[|reqs| - 1];
      var sys, m := SystemAfter(env, reqs[..n]), LedgerAfter(env, reqs[..n]);
      && n !in sys.runs && Inv(env, m)
      && SystemAfter(env, reqs) == Play(env, sys, NextEvents(sys, n, last))
      && LedgerAfter(env, reqs) == (if last.Serve? then Step(env, m, last.op) else m)
      && (last.Serve? ==> !last.op.TakeSnapshots? && (last.op.Submit? ==> NewIds(m.entries, last.op.job.ids)))
    ensures InStep(env, reqs) && LastAnswered(env, reqs)
  {
    hide Mirrors, Cache, NextEvents, Step, Inv, BooksOk, Post, Validate, NewIds, SystemAfter, LedgerAfter, SameBooks,
      Play, OrderedRows, BalancesFit;
    var n := |reqs| - 1;
    var sys, m := SystemAfter(env, reqs[..n]), LedgerAfter(env, reqs[..n]);
    match reqs[n]
    case Serve(replica, op) =>
      InvBooks(env, m);
      ServeOne(env, sys, m, n, replica, op);
    case Reboot(replica, rows, stored) =>
      RebootOne(env, sys, m, n, replica, rows, stored);
  }

  /** After any such run, hydrating gives any process the copy that a process which has seen
      everything maintains commit by commit: entries, postings with their entries in order, anchors,
      sequence and head. Snapshots come from their own table and audit events are kept. */
  lemma HydrateAgrees(env: Env, reqs: seq<Request>, replica: nat, rows: seq<EntryRecord>, stored: seq<SnapshotRow>,
                      before: LedgerState)
    requires FreshRun(env, Ops(reqs)) && PostsOnly(reqs) && UpToDate(env, reqs, replica)
    requires OrderedRows(rows, SystemAfter(env, reqs).db.entries)
    ensures var sys := SystemAfter(env, reqs);
      Rebuild(sys.db, rows, stored, before)
      == Cache(sys, replica).(auditEvents := before.auditEvents, snapshots := LoadSnapshots(sys.db.entries, stored))
  {
    hide Cache, FreshRun, PostsOnly, SystemAfter, Rebuild, Inv, BooksOk, EmptyState, OrderedRows, PostingRows, UpToDate,
      Ops, LoadSnapshots, Exec;
    DatabaseRefinesMemory(env, reqs);
    EmptyInv(env);
    ExecInv(env, EmptyState(), Ops(reqs));
    var sys, m := SystemAfter(env, reqs), LedgerAfter(env, reqs);
    InvBooks(env, m);
    RebuildMirror(sys.db, m, rows, stored, before);
  }
}
