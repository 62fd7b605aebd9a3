/** What overlapping runs do to the balances: exactly what the committed requests ask for. */
module Effects {
  import opened Text
  import opened Sums
  import opened Posting
  import opened Chart
  import opened Ledger
  import opened Links
  import opened Invariant
  import opened Runs
  import opened Orders
  import opened Database
  import opened Protocol
  import opened Traces
  import opened Interleavings

  // ---------- The accounts that commits name ----------

  predicate Named(accounts: map<string, Account>, b: Batch) {
    forall l :: l in b.lines ==> l.accountId in accounts
  }

  ghost predicate AllNamed(sys: System) {
    forall k :: 0 <= k < |sys.history| ==> Named(sys.db.accounts, sys.history[k].b)
  }

  lemma NamedStep(env: Env, sys: System, ev: Event)
    requires AllNamed(sys)
    ensures AllNamed(Apply(env, sys, ev))
  {
    hide Apply, OwnStep, NewRun, Named, NoCommit;
    var sys' := Apply(env, sys, ev);
    AccountsMove(env, sys, ev);
    ApplyShape(env, sys, ev);
    if Pid(ev).Some? && Pid(ev).value in sys.runs {
      OwnNamed(env, sys, sys', Pid(ev).value);
    } else {
      SameHistory(sys, sys', ev);
      NamedLater(sys, sys', sys.history);
    }
  }

  lemma SameHistory(sys: System, sys': System, ev: Event)
    requires NoCommit(sys, sys') || (exists pid :: NewRun(sys, sys', pid, ev))
    ensures sys'.history == sys.history
  {
    hide OnlyRun;
  }

  lemma NamedLater(sys: System, sys': System, history: seq<Commit>)
    requires Keeps(sys.db.accounts, sys'.db.accounts)
    requires forall k :: 0 <= k < |history| ==> Named(sys.db.accounts, history[k].b)
    ensures forall k :: 0 <= k < |history| ==> Named(sys'.db.accounts, history[k].b)
  {
  }

  lemma OwnNamed(env: Env, sys: System, sys': System, pid: nat)
    requires AllNamed(sys) && OwnStep(env, sys, sys', pid) && Keeps(sys.db.accounts, sys'.db.accounts)
    ensures AllNamed(sys')
  {
    hide OwnStep, OnlyRun, Named, Won, Admissible, Keeps, Link;
    NamedLater(sys, sys', sys.history);
    OwnHistory(env, sys, sys', pid);
    OwnCommit(env, sys, sys', pid);
    if sys'.history != sys.history {
      var c := Commit(sys.runs[pid].stage.b, sys.runs[pid].job);
      NamedByCommit(sys.db, sys'.db, c.b);
      OneMoreNamed(sys', sys.history, c);
    }
  }

  lemma OneMoreNamed(sys: System, history: seq<Commit>, c: Commit)
    requires forall k :: 0 <= k < |history| ==> Named(sys.db.accounts, history[k].b)
    requires Named(sys.db.accounts, c.b) && sys.history == history + [c]
    ensures AllNamed(sys)
  {
    hide Named;
  }

  lemma NamedByCommit(db: Tables, db': Tables, b: Batch)
    requires Admissible(db, b) && Keeps(db.accounts, db'.accounts)
    ensures Named(db'.accounts, b)
  {
    hide Distinct;
  }

  lemma {:induction false} AlwaysNamed(env: Env, evs: seq<Event>)
    ensures AllNamed(Play(env, Initial(), evs))
  {
    hide AllNamed, Apply;
    if evs == [] {
      NobodyNamed();
    } else {
      AlwaysNamed(env, evs[..|evs| - 1]);
      NamedStep(env, Play(env, Initial(), evs[..|evs| - 1]), evs[|evs| - 1]);
    }
  }

  lemma NobodyNamed()
    ensures AllNamed(Initial())
  {
  }

  // ---------- The committed jobs ----------

  /** The jobs of a history, in the order of their commits. */
  function Jobs(history: seq<Commit>): (jobs: seq<Job>)
    ensures |jobs| == |history| && forall k :: 0 <= k < |history| ==> jobs[k] == history[k].job
  {
    seq(|history|, k requires 0 <= k < |history| => history[k].job)
  }

  /** An empty ledger with the accounts of the tables. */
  function Unposted(accounts: map<string, Account>): LedgerState {
    EmptyState().(accounts := accounts)
  }

  /** A committed job is acceptable, and its rows have its effect. */
  lemma CommitEffect(env: Env, accounts: map<string, Account>, log: seq<EntryRecord>, c: Commit, accountId: string,
                     asset: string)
    requires AccountsOk(accounts) && CommitOk(log, c) && Named(accounts, c.b)
    ensures Acceptable(accounts, c.job)
    ensures Balance(Link(env, c.b), accountId, asset) == Effect(accounts, c.job, accountId, asset)
  {
    hide Link, GoodLines, BaseOk, Distinct, Validate, CheckAccounts, UsableAccount, Balance, Decimal, LineDelta;
    AccountsExact(accounts, c.b.lines);
    LinkedBalance(env, c.b, accountId, asset);
  }

  lemma {:induction false} HistoryEffect(env: Env, accounts: map<string, Account>, history: seq<Commit>,
                                         accountId: string, asset: string)
    requires AccountsOk(accounts) && HistoryOk(env, history)
    requires forall k :: 0 <= k < |history| ==> Named(accounts, history[k].b)
    ensures Balance(Log(env, history), accountId, asset) == Sum(Jobs(history), EffectOn(accounts, accountId, asset))
    ensures forall k :: 0 <= k < |history| ==> Acceptable(accounts, history[k].job)
  {
    hide CommitOk, Link, Named, Acceptable, EffectOn, AccountsOk, Sum, Balance, Jobs;
    if history == [] {
      NoEffect(accounts, accountId, asset);
    } else {
      var n, c := |history| - 1, history[|history| - 1];
      HistoryEffect(env, accounts, history[..n], accountId, asset);
      CommitEffect(env, accounts, Log(env, history[..n]), c, accountId, asset);
      BalanceConcat(Log(env, history[..n]), Link(env, c.b), accountId, asset);
      OneMoreJob(accounts, history, accountId, asset);
    }
  }

  lemma OneMoreJob(accounts: map<string, Account>, history: seq<Commit>, accountId: string, asset: string)
    requires history != []
    ensures var n, c := |history| - 1, history[|history| - 1];
      && Jobs(history) == Jobs(history[..n]) + [c.job]
      && Sum(Jobs(history), EffectOn(accounts, accountId, asset))
         == Sum(Jobs(history[..n]), EffectOn(accounts, accountId, asset)) + Effect(accounts, c.job, accountId, asset)
  {
    hide Effect, Sum;
    var n, c := |history| - 1, history[|history| - 1];
    assert Jobs(history) == Jobs(history[..n]) + [c.job];
    SumSnoc(Jobs(history[..n]), c.job, EffectOn(accounts, accountId, asset));
  }

  lemma NoEffect(accounts: map<string, Account>, accountId: string, asset: string)
    ensures Jobs([]) == []
    ensures Balance([], accountId, asset) == 0 && Sum<Job>([], EffectOn(accounts, accountId, asset)) == 0
  {
    hide Effect;
  }

  /** Every posting id is committed by one job. */
  lemma {:induction false} HistoryJobs(env: Env, history: seq<Commit>)
    requires HistoryOk(env, history)
    ensures JobIds(Jobs(history)) == PostingTable(env, history).Keys
    ensures forall i, j :: 0 <= i < j < |history| ==> history[i].job.req.postingId != history[j].job.req.postingId
  {
    hide CommitOk, Log, Jobs, JobIds, PostingTable;
    if history == [] {
      NoJobs(env);
    } else {
      var n, c := |history| - 1, history[|history| - 1];
      HistoryJobs(env, history[..n]);
      JobIdsNext(env, history);
      CommitIsNew(Log(env, history[..n]), c);
      LoggedIffPosted(env, history[..n], c.b.postingId);
      NotPosted(env, history[..n], c.b.postingId);
      DistinctNext(history);
    }
  }

  lemma DistinctNext(history: seq<Commit>)
    requires history != []
    requires var n := |history| - 1;
      && (forall i, j :: 0 <= i < j < n ==> history[..n][i].job.req.postingId != history[..n][j].job.req.postingId)
      && (forall i :: 0 <= i < n ==> history[..n][i].job.req.postingId != history[n].job.req.postingId)
    ensures forall i, j :: 0 <= i < j < |history| ==> history[i].job.req.postingId != history[j].job.req.postingId
  {
    var n := |history| - 1;
    forall i, j | 0 <= i < j < |history| ensures history[i].job.req.postingId != history[j].job.req.postingId {
      assert history[..n][i] == history[i];
      if j < n { assert history[..n][j] == history[j]; }
    }
  }

  lemma NoJobs(env: Env)
    ensures JobIds(Jobs([])) == PostingTable(env, []).Keys
  {
  }

  lemma JobIdsNext(env: Env, history: seq<Commit>)
    requires history != []
    ensures var n, c := |history| - 1, history[|history| - 1];
      && JobIds(Jobs(history)) == JobIds(Jobs(history[..n])) + {c.job.req.postingId}
      && PostingTable(env, history).Keys == PostingTable(env, history[..n]).Keys + {c.b.postingId}
  {
    hide NewPosting, RowOf;
    var n := |history| - 1;
    assert Jobs(history)[..n] == Jobs(history[..n]);
  }

  lemma NotPosted(env: Env, history: seq<Commit>, id: string)
    requires JobIds(Jobs(history)) == PostingTable(env, history).Keys && id !in PostingTable(env, history)
    ensures forall i :: 0 <= i < |history| ==> history[i].job.req.postingId != id
  {
    hide PostingTable;
    forall i | 0 <= i < |history| ensures history[i].job.req.postingId != id {
      AmongIds(Jobs(history), i);
    }
  }

  lemma {:induction false} AmongIds(jobs: seq<Job>, i: nat)
    requires i < |jobs|
    ensures jobs[i].req.postingId in JobIds(jobs)
  {
    if i < |jobs| - 1 {
      AmongIds(jobs[..|jobs| - 1], i);
    }
  }

  /** The tables are, balance by balance, what these jobs make of an empty ledger. */
  ghost predicate SumUp(env: Env, evs: seq<Event>, db: Tables, jobs: seq<Job>) {
    && (forall k :: 0 <= k < |jobs| ==> Requested(evs, jobs[k]) && Acceptable(db.accounts, jobs[k]))
    && FreshBatch(Unposted(db.accounts), jobs) && JobIds(jobs) == db.postings.Keys
    && forall accountId, asset ::
      && Balance(db.entries, accountId, asset) == Sum(jobs, EffectOn(db.accounts, accountId, asset))
      && Balance(db.entries, accountId, asset)
         == Balance(PostAll(env, Unposted(db.accounts), jobs).entries, accountId, asset)
  }

  /** What the jobs of a history make of one balance, in the tables and in memory. */
  lemma BalanceSumsUp(env: Env, sys: System, accountId: string, asset: string)
    requires AccountsOk(sys.db.accounts) && HistoryOk(env, sys.history) && AllNamed(sys)
    requires FreshBatch(Unposted(sys.db.accounts), Jobs(sys.history))
    ensures var accounts, jobs, log := sys.db.accounts, Jobs(sys.history), Log(env, sys.history);
      && Balance(log, accountId, asset) == Sum(jobs, EffectOn(accounts, accountId, asset))
      && Balance(log, accountId, asset) == Balance(PostAll(env, Unposted(accounts), jobs).entries, accountId, asset)
  {
    hide HistoryOk, AccountsOk, Log, Acceptable, Balance, PostAll, Named, EffectOn, Sum, FreshBatch, Jobs, JobIds;
    HistoryEffect(env, sys.db.accounts, sys.history, accountId, asset);
    PostAllEffect(env, Unposted(sys.db.accounts), Jobs(sys.history), accountId, asset);
    NothingPosted(sys.db.accounts, accountId, asset);
  }

  lemma JobsRequested(evs: seq<Event>, sys: System)
    requires AllRequested(evs, sys)
    ensures forall k :: 0 <= k < |sys.history| ==> Requested(evs, Jobs(sys.history)[k])
  {
    hide Requested, Committed, Won;
  }

  lemma JobsAcceptable(env: Env, sys: System)
    requires AccountsOk(sys.db.accounts) && HistoryOk(env, sys.history) && AllNamed(sys)
    ensures forall k :: 0 <= k < |sys.history| ==> Acceptable(sys.db.accounts, Jobs(sys.history)[k])
  {
    hide HistoryOk, AccountsOk, Log, Acceptable, Balance, Named, EffectOn, Sum;
    HistoryEffect(env, sys.db.accounts, sys.history, "", "");
  }

  lemma JobsFresh(env: Env, sys: System)
    requires HistoryOk(env, sys.history)
    ensures FreshBatch(Unposted(sys.db.accounts), Jobs(sys.history))
  {
    hide HistoryOk, PostingTable, JobIds;
    HistoryJobs(env, sys.history);
  }

  /** A consistent history sums up to its tables. */
  lemma HistorySumsUp(env: Env, evs: seq<Event>, sys: System)
    requires AccountsOk(sys.db.accounts) && HistoryOk(env, sys.history) && AllNamed(sys) && AllRequested(evs, sys)
    requires sys.db.entries == Log(env, sys.history) && sys.db.postings.Keys == PostingTable(env, sys.history).Keys
    ensures SumUp(env, evs, sys.db, Jobs(sys.history))
  {
    hide HistoryOk, AccountsOk, Log, PostingTable, AllRequested, AllNamed, Requested, Acceptable, Balance, PostAll,
      EffectOn, Sum, FreshBatch, Jobs, JobIds;
    JobsRequested(evs, sys);
    JobsAcceptable(env, sys);
    JobsFresh(env, sys);
    HistoryJobs(env, sys.history);
    forall accountId, asset
      ensures Balance(sys.db.entries, accountId, asset)
           == Sum(Jobs(sys.history), EffectOn(sys.db.accounts, accountId, asset))
      ensures Balance(sys.db.entries, accountId, asset)
           == Balance(PostAll(env, Unposted(sys.db.accounts), Jobs(sys.history)).entries, accountId, asset)
    {
      BalanceSumsUp(env, sys, accountId, asset);
    }
  }

  /** No update is lost or made twice: after any interleaving, although hashes and numbers may
      fork, every balance is the sum of what the committed requests ask for, one for each posting
      in the table; it is the balance that posting them one by one in memory leaves. */
  lemma NoLostUpdates(env: Env, evs: seq<Event>)
    ensures exists jobs :: SumUp(env, evs, Play(env, Initial(), evs).db, jobs)
  {
    hide Play, Initial, HistoryOk, AllRunsOk, OneWinner, AccountsOk, Log, PostingTable, ChainTable, AllRequested,
      AllNamed, SumUp, Jobs;
    PlayInv(env, evs);
    OnlyRequested(env, evs);
    AlwaysNamed(env, evs);
    HistorySumsUp(env, evs, Play(env, Initial(), evs));
  }

  lemma NothingPosted(accounts: map<string, Account>, accountId: string, asset: string)
    ensures Balance(Unposted(accounts).entries, accountId, asset) == 0
  {
  }
}
