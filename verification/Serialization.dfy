/** Schedules that keep the chain linear are serializable: whatever overlaps, the tables are those of
    the in-memory ledger after the openings and the commits in the order they took effect, and
    every run answers as the ledger does at one of the run's own steps. */
module Serialization {
  import opened Text
  import opened Posting
  import opened HashChain
  import opened Chart
  import opened Ledger
  import opened Links
  import opened Snapshots
  import opened Invariant
  import opened Runs
  import opened Database
  import opened Protocol
  import opened Traces
  import opened Linear
  import opened Schedules
  import opened Refinement
  import opened Hydration

  // ---------- The ledger that the schedule amounts to ----------

  /** The job whose transaction takes effect at event `i`. */
  ghost function JobAt(env: Env, evs: seq<Event>, i: nat): Option<Job>
    requires i < |evs|
  {
    var history := SysAt(env, evs, i + 1).history;
    if CommitsAt(env, evs, i) && history != [] then Some(history[|history| - 1].job) else None
  }

  /** What the first `n` events ask of the ledger: accounts opened and postings committed. */
  ghost function OpsUpTo(env: Env, evs: seq<Event>, n: nat): seq<Op>
    requires n <= |evs|
  {
    if n == 0 then []
    else
      var ops, ev := OpsUpTo(env, evs, n - 1), evs[n - 1];
      if ev.OpenAccount? then ops + [Open(ev.req, ev.freshId, ev.clock)]
      else if JobAt(env, evs, n - 1).Some? then ops + [Submit(JobAt(env, evs, n - 1).value)]
      else ops
  }

  ghost function LedgerAt(env: Env, evs: seq<Event>, n: nat): LedgerState
    requires n <= |evs|
  {
    Exec(env, EmptyState(), OpsUpTo(env, evs, n))
  }

  lemma LedgerStep(env: Env, evs: seq<Event>, n: nat)
    requires n < |evs|
    ensures var m, m', ev := LedgerAt(env, evs, n), LedgerAt(env, evs, n + 1), evs[n];
      && Inv(env, m)
      && m' == (if ev.OpenAccount? then CreateAccount(m, ev.req, ev.freshId, ev.clock).0
                else if JobAt(env, evs, n).Some? then Post(env, m, JobAt(env, evs, n).value).0
                else m)
  {
    hide Inv, Post, CreateAccount, JobAt, EmptyState, SnapshotAll;
    var ops, longer := OpsUpTo(env, evs, n), OpsUpTo(env, evs, n + 1);
    EmptyInv(env);
    ExecInv(env, EmptyState(), ops);
    if longer != ops {
      assert longer[..|longer| - 1] == ops;
    }
  }

  // ---------- The tables follow ----------

  /** The batch a run commits while its head is current is the one the ledger would link, and the
      ledger accepts the job. */
  lemma CommitIsPost(env: Env, sys: System, m: LedgerState, pid: nat, b: Batch)
    requires SysInv(env, sys) && Inv(env, m) && Mirrors(sys.db, m)
    requires pid in sys.runs && sys.runs[pid].stage == Committing(b) && Admissible(sys.db, b)
    requires b.prev == Head(sys.db.entries) && b.sequence == |sys.db.entries|
    ensures var job := sys.runs[pid].job;
      var p := NewPosting(env, b, job);
      && Post(env, m, job) == (Record(m, job.eventId, p), Accepted(Respond(p), false))
      && Mirrors(CommitTables(sys.db, p), Record(m, job.eventId, p))
  {
    hide SysInv, Inv, BooksOk, Mirrors, Admissible, NewPosting, Record, Respond, CommitTables, Validate, GoodLines,
      BaseOk, Head, CheckAccounts, Numbered;
    var r := sys.runs[pid];
    InvBooks(env, m);
    MirrorFacts(sys.db, m);
    CommitFacts(env, sys, pid, b);
    BatchIs(b, r.job, r.lines);
    AdmissibleAccounts(env, sys.db, m, b, r.job, r.lines);
    PostByLines(env, m, r.job);
    CommitsLines(env, m, r.job, r.lines);
    NewId(env, b, r.job);
    assert b.postingId !in m.anchors.Keys;
    CommitMirrors(sys.db, m, r.job.eventId, NewPosting(env, b, r.job));
  }

  lemma NewId(env: Env, b: Batch, job: Job)
    ensures NewPosting(env, b, job).postingId == job.req.postingId
  {
  }

  lemma BatchIs(b: Batch, job: Job, lines: seq<Line>)
    requires |lines| == |job.ids| && b == BatchOf(b.prev, b.sequence, job, lines)
    ensures b.lines == lines && b.postingId == job.req.postingId
  {
    hide Decimal;
  }

  lemma CommitsLines(env: Env, m: LedgerState, job: Job, lines: seq<Line>)
    requires |lines| == |job.ids| && job.req.postingId !in m.postings && CheckAccounts(m.accounts, lines).None?
    ensures var p := NewPosting(env, BatchOf(m.globalChainHead, m.sequence, job, lines), job);
      PostLines(env, m, job, lines) == (Record(m, job.eventId, p), Accepted(Respond(p), false))
  {
    hide CheckAccounts, NewPosting, Record, Respond, BatchOf;
  }

  lemma AdmissibleAccounts(env: Env, db: Tables, m: LedgerState, b: Batch, job: Job, lines: seq<Line>)
    requires Inv(env, m) && db.accounts == m.accounts && Admissible(db, b) && b.lines == lines
    ensures CheckAccounts(m.accounts, lines).None?
  {
    hide Chained, EntriesOk, PostingsOk, AnchorsOk, Partitioned, TrialBalance, SnapshotsOk, Numbered, Head,
      UsableAccount, CheckAccounts, Distinct;
    AccountsExact(m.accounts, lines);
  }

  /** A commit seen from the run that makes it. */
  lemma CommitSeen(env: Env, evs: seq<Event>, n: nat)
    requires n < |evs| && CommitsAt(env, evs, n)
    ensures Pid(evs[n]).Some? && Pid(evs[n]).value in SysAt(env, evs, n).runs
    ensures var sys, sys', pid := SysAt(env, evs, n), SysAt(env, evs, n + 1), Pid(evs[n]).value;
      && sys.runs[pid].stage.Committing? && OnlyRun(sys, sys', pid)
      && HasCommitted(env, sys, sys', pid, sys.runs[pid].stage.b)
      && JobAt(env, evs, n) == Some(sys.runs[pid].job)
  {
    hide SysAt, Apply, SysInv, OnlyRun, NewRun, NoCommit, OwnStep, HasCommitted, JobAt;
    var sys, sys' := SysAt(env, evs, n), SysAt(env, evs, n + 1);
    StepAt(env, evs, n);
    ApplyShape(env, sys, evs[n]);
    if Pid(evs[n]).Some? && Pid(evs[n]).value in sys.runs {
      CommitOfOwn(env, sys, sys', Pid(evs[n]).value);
      JobCommitted(env, evs, n, Pid(evs[n]).value);
    } else {
      NothingAppended(sys, sys', evs[n]);
    }
  }

  lemma JobCommitted(env: Env, evs: seq<Event>, n: nat, pid: nat)
    requires n < |evs| && CommitsAt(env, evs, n)
    requires var sys, sys' := SysAt(env, evs, n), SysAt(env, evs, n + 1);
      && pid in sys.runs && pid in sys'.runs && sys.runs[pid].stage.Committing?
      && HasCommitted(env, sys, sys', pid, sys.runs[pid].stage.b)
    ensures JobAt(env, evs, n) == Some(SysAt(env, evs, n).runs[pid].job)
  {
    hide SysAt, Admissible, CommitTables, NewPosting;
  }

  /** Where the tables are after `n` events. */
  ghost predicate TablesFollow(env: Env, evs: seq<Event>, n: nat)
    requires n <= |evs|
  {
    Mirrors(SysAt(env, evs, n).db, LedgerAt(env, evs, n))
  }

  lemma FollowCommit(env: Env, evs: seq<Event>, n: nat)
    requires n < |evs| && NoneOutdated(env, evs, n + 1) && TablesFollow(env, evs, n) && CommitsAt(env, evs, n)
    ensures TablesFollow(env, evs, n + 1)
    ensures Pid(evs[n]).Some? && Pid(evs[n]).value in SysAt(env, evs, n).runs
    ensures var r := SysAt(env, evs, n).runs[Pid(evs[n]).value];
      && r.stage.Committing?
      && Post(env, LedgerAt(env, evs, n), r.job).1 == Made(env, r.stage.b, r.job)
  {
    hide SysAt, LedgerAt, Inv, SysInv, Mirrors, Post, Record, Respond, NewPosting, CommitTables, Admissible, OnlyRun,
      KnowsHead, LinearHistory, JobAt, CommitsAt, OutdatedAt, CreateAccount;
    CommitSeen(env, evs, n);
    var sys, pid, m := SysAt(env, evs, n), Pid(evs[n]).value, LedgerAt(env, evs, n);
    AllLinear(env, evs, n);
    StillTheHead(env, evs, n, pid);
    StepAt(env, evs, n);
    LedgerStep(env, evs, n);
    CommitIsPost(env, sys, m, pid, sys.runs[pid].stage.b);
  }

  lemma FollowOther(env: Env, evs: seq<Event>, n: nat)
    requires n < |evs| && TablesFollow(env, evs, n) && !CommitsAt(env, evs, n)
    ensures TablesFollow(env, evs, n + 1)
  {
    hide SysAt, LedgerAt, Inv, SysInv, Mirrors, Post, CreateAccount, Apply, OpenRow, OwnStep, NewRun;
    var sys, ev := SysAt(env, evs, n), evs[n];
    StepAt(env, evs, n);
    LedgerStep(env, evs, n);
    if ev.OpenAccount? {
      OpenApplies(env, sys, ev.owner, ev.req, ev.freshId, ev.clock);
      OpenMirrors(sys, LedgerAt(env, evs, n), ev.owner, ev.req, ev.freshId, ev.clock);
    } else {
      SameDatabase(env, sys, ev);
    }
  }

  /** An event that neither opens an account nor commits leaves the tables alone. */
  lemma SameDatabase(env: Env, sys: System, ev: Event)
    requires !ev.OpenAccount? && Apply(env, sys, ev).history == sys.history
    ensures Apply(env, sys, ev).db == sys.db
  {
    hide Apply, OwnStep, NewRun, Keeps;
    AccountsMove(env, sys, ev);
    ApplyShape(env, sys, ev);
    if Pid(ev).Some? && Pid(ev).value in sys.runs {
      OwnNoCommit(env, sys, Apply(env, sys, ev), Pid(ev).value);
    } else {
      NewNoCommit(sys, Apply(env, sys, ev), ev);
    }
  }

  lemma OwnNoCommit(env: Env, sys: System, sys': System, pid: nat)
    requires OwnStep(env, sys, sys', pid) && sys'.history == sys.history
    ensures NoCommit(sys, sys')
  {
    hide OnlyRun, Admissible, CommitTables, NewPosting, Won;
  }

  lemma NewNoCommit(sys: System, sys': System, ev: Event)
    ensures forall pid :: NewRun(sys, sys', pid, ev) ==> NoCommit(sys, sys')
  {
    hide OnlyRun, NoCommit;
  }

  lemma {:induction false} AllFollow(env: Env, evs: seq<Event>, n: nat)
    requires n <= |evs| && NoneOutdated(env, evs, n)
    ensures TablesFollow(env, evs, n)
  {
    hide TablesFollow, OutdatedAt, CommitsAt;
    if n == 0 {
      NothingYet(env, evs);
    } else {
      AllFollow(env, evs, n - 1);
      if CommitsAt(env, evs, n - 1) {
        FollowCommit(env, evs, n - 1);
      } else {
        FollowOther(env, evs, n - 1);
      }
    }
  }

  lemma NothingYet(env: Env, evs: seq<Event>)
    ensures TablesFollow(env, evs, 0)
  {
    InitialMirrors();
  }

  // ---------- The answers follow ----------

  /** Event `t` is a step of the run: it comes after the run's start and before its end. */
  ghost predicate StepOf(env: Env, evs: seq<Event>, t: nat, pid: nat)
    requires t < |evs|
  {
    var runs := SysAt(env, evs, t).runs;
    Pid(evs[t]) == Some(pid) && pid in runs && !runs[pid].stage.Finished?
  }

  /** At event `t`, a step of the run, the ledger gives this answer. */
  ghost predicate Explains(env: Env, evs: seq<Event>, t: nat, pid: nat, job: Job, outcome: Outcome)
    requires t < |evs|
  {
    StepOf(env, evs, t, pid) && Post(env, LedgerAt(env, evs, t), job).1 == outcome
  }

  ghost predicate Explained(env: Env, evs: seq<Event>, n: nat, pid: nat, job: Job, outcome: Outcome)
    requires n <= |evs|
  {
    exists t :: 0 <= t < n && Explains(env, evs, t, pid, job, outcome)
  }

  /** At some step of the run the posting id was not taken. */
  ghost predicate WasFree(env: Env, evs: seq<Event>, n: nat, pid: nat, id: string)
    requires n <= |evs|
  {
    exists t :: 0 <= t < n && StepOf(env, evs, t, pid) && id !in SysAt(env, evs, t).db.postings
  }

  /** The answer of a run that has committed `b`. */
  function Made(env: Env, b: Batch, job: Job): Outcome {
    Accepted(Respond(NewPosting(env, b, job)), false)
  }

  /** The answer a run has given, or will give once it has done its bookkeeping. */
  function Answer(env: Env, r: Run): Option<Outcome> {
    match r.stage
    case UpdateCache(b) => Some(Made(env, b, r.job))
    case EmitAudit(b) => Some(Made(env, b, r.job))
    case Finished(outcome) => Some(outcome)
    case _ => None
  }

  predicate LooksUp(r: Run) {
    r.stage.LookUpStatus? || r.stage.LookUpType?
  }

  /** A run's answer is explained, and a run that looks up accounts has found its id free. */
  ghost predicate Tracked(env: Env, evs: seq<Event>, n: nat, pid: nat, r: Run)
    requires n <= |evs|
  {
    && (Answer(env, r).Some? ==> Explained(env, evs, n, pid, r.job, Answer(env, r).value))
    && (LooksUp(r) ==> WasFree(env, evs, n, pid, r.job.req.postingId))
  }

  /** What has been established stays so, whatever the next event is. */
  lemma TrackedLater(env: Env, evs: seq<Event>, n: nat, pid: nat, r: Run, r': Run)
    requires n < |evs| && Tracked(env, evs, n, pid, r) && r'.job == r.job
    requires Answer(env, r') == Answer(env, r) && (LooksUp(r') ==> LooksUp(r))
    ensures Tracked(env, evs, n + 1, pid, r')
  {
    hide Explains, StepOf, SysAt, Answer, LooksUp;
  }

  lemma ExplainedNow(env: Env, evs: seq<Event>, n: nat, pid: nat, job: Job, outcome: Outcome)
    requires n < |evs| && Explains(env, evs, n, pid, job, outcome)
    ensures Explained(env, evs, n + 1, pid, job, outcome)
  {
    hide Explains;
  }

  lemma SameAnswer(env: Env, r: Run, r': Run)
    requires r'.job == r.job && r'.stage == r.stage
    ensures Answer(env, r') == Answer(env, r) && LooksUp(r') == LooksUp(r)
  {
    hide Made;
  }

  lemma BookkeepingAnswer(env: Env, r: Run, r': Run, b: Batch)
    requires r'.job == r.job
    requires (r.stage == UpdateCache(b) && r'.stage == EmitAudit(b))
          || (r.stage == EmitAudit(b) && r'.stage == Finished(Made(env, b, r.job)))
    ensures Answer(env, r') == Answer(env, r) == Some(Made(env, b, r.job)) && !LooksUp(r')
  {
    hide Made;
  }

  // ---------- Rejections ----------

  /** Accounts are made active and of a known type, so only a missing one fails a look-up. */
  lemma OnlyMissing(accounts: map<string, Account>, l: Line)
    requires AccountsOk(accounts)
    ensures CheckStatus(accounts)(l) == if l.accountId in accounts then None else Some(AccountNotFound)
    ensures CheckType(accounts)(l) == if l.accountId in accounts then None else Some(AccountNotFound)
  {
    hide FindType, DirectionAllowed;
    if l.accountId in accounts {
      DirectionsAlwaysAllowed(accounts[l.accountId].typeName, l.dir);
    }
  }

  lemma {:induction false} ErrorIsOne<T>(s: seq<T>, check: T -> Option<Rejection>)
    ensures FirstError(s, check).Some? ==> exists t :: t in s && check(t) == FirstError(s, check)
  {
    if s != [] && check(s[0]).None? {
      ErrorIsOne(s[1..], check);
    } else if s != [] {
      assert s[0] in s;
    }
  }

  /** A line that names a missing account is refused for it, whatever else is missing. */
  lemma MissingRefused(accounts: map<string, Account>, lines: seq<Line>, l: Line)
    requires AccountsOk(accounts) && l in lines && l.accountId !in accounts
    ensures CheckAccounts(accounts, lines) == Some(AccountNotFound)
  {
    hide AccountsOk, CheckStatus, CheckType;
    OnlyMissing(accounts, l);
    ErrorIsOne(lines, CheckStatus(accounts));
    var t :| t in lines && CheckStatus(accounts)(t) == FirstError(lines, CheckStatus(accounts));
    OnlyMissing(accounts, t);
  }

  /** An account that is missing was missing before. */
  lemma {:induction false} MissingBefore(env: Env, evs: seq<Event>, t: nat, n: nat, id: string)
    requires t <= n <= |evs| && id !in SysAt(env, evs, n).db.accounts
    ensures id !in SysAt(env, evs, t).db.accounts
    decreases n
  {
    hide SysAt, Apply, SysInv;
    if t < n {
      StepAt(env, evs, n - 1);
      AccountsMove(env, SysAt(env, evs, n - 1), evs[n - 1]);
      MissingBefore(env, evs, t, n - 1, id);
    }
  }

  /** With the id free and an account missing, the ledger refuses the job as the run does. */
  lemma LedgerRefuses(env: Env, evs: seq<Event>, t: nat, job: Job, lines: seq<Line>, l: Line)
    requires t < |evs| && NoneOutdated(env, evs, t) && Validate(job.req) == Good(lines) && l in lines
    requires job.req.postingId !in SysAt(env, evs, t).db.postings && l.accountId !in SysAt(env, evs, t).db.accounts
    ensures Post(env, LedgerAt(env, evs, t), job).1 == Rejected(Validation(AccountNotFound))
  {
    hide SysAt, LedgerAt, NoneOutdated, Inv, Mirrors, Validate, CheckAccounts, NewPosting, Record, Respond, BooksOk;
    AllFollow(env, evs, t);
    LedgerStep(env, evs, t);
    var m := LedgerAt(env, evs, t);
    InvBooks(env, m);
    MirrorFacts(SysAt(env, evs, t).db, m);
    InvAccounts(env, m);
    MissingRefused(m.accounts, lines, l);
    assert job.req.postingId !in m.postings.Keys;
  }

  lemma InvAccounts(env: Env, m: LedgerState)
    requires Inv(env, m)
    ensures AccountsOk(m.accounts)
  {
    hide Chained, EntriesOk, AccountsOk, PostingsOk, AnchorsOk, Partitioned, TrialBalance, SnapshotsOk, Numbered, Head;
  }

  /** A run that is refused at a look-up is refused by the ledger at the step where the run found
      its id free, even if another run has committed the same id since. */
  lemma RejectionExplained(env: Env, evs: seq<Event>, n: nat, pid: nat, r: Run, l: Line)
    requires n < |evs| && NoneOutdated(env, evs, n) && WasFree(env, evs, n, pid, r.job.req.postingId)
    requires Validate(r.job.req) == Good(r.lines) && l in r.lines && l.accountId !in SysAt(env, evs, n).db.accounts
    ensures Explained(env, evs, n + 1, pid, r.job, Rejected(Validation(AccountNotFound)))
  {
    hide SysAt, LedgerAt, OutdatedAt, Validate, StepOf, Post;
    var t :| 0 <= t < n && StepOf(env, evs, t, pid) && r.job.req.postingId !in SysAt(env, evs, t).db.postings;
    MissingBefore(env, evs, t, n, l.accountId);
    LedgerRefuses(env, evs, t, r.job, r.lines, l);
    assert Explains(env, evs, t, pid, r.job, Rejected(Validation(AccountNotFound)));
  }

  // ---------- A run's own events ----------

  /** The circumstances of a run's own step that commits nothing. */
  ghost predicate OwnRead(env: Env, evs: seq<Event>, n: nat, pid: nat, r: Run, r': Run) {
    && n < |evs| && Pid(evs[n]) == Some(pid) && NoneOutdated(env, evs, n)
    && pid in SysAt(env, evs, n).runs && SysAt(env, evs, n).runs[pid] == r
    && Validate(r.job.req) == Good(r.lines) && r'.job == r.job && r'.lines == r.lines
    && AccountsOk(SysAt(env, evs, n).db.accounts)
  }

  lemma OwnReadFacts(env: Env, evs: seq<Event>, n: nat, pid: nat, r: Run, r': Run)
    requires OwnRead(env, evs, n, pid, r, r')
    ensures n < |evs| && r'.job == r.job && r'.lines == r.lines
    ensures !r.stage.Finished? ==> StepOf(env, evs, n, pid)
  {
    hide SysAt, NoneOutdated, Validate, AccountsOk;
  }

  /** A look-up goes on to the next stage or rejects a line whose account is missing. */
  lemma LookUpTracked(env: Env, evs: seq<Event>, n: nat, pid: nat, r: Run, r': Run, pick: nat)
    requires OwnRead(env, evs, n, pid, r, r') && LooksUp(r) && Tracked(env, evs, n, pid, r)
    requires r'.stage == NextStage(SysAt(env, evs, n).db, r, pick)
    ensures Tracked(env, evs, n + 1, pid, r')
  {
    hide SysAt, Explained, NoneOutdated, Validate, AccountsOk, WasFree, NextStage;
    var accounts, k := SysAt(env, evs, n).db.accounts, r.stage.k;
    NextOfLookUp(SysAt(env, evs, n).db, r, r', pick);
    if k < |r.lines| && r.lines[k].accountId !in accounts {
      RejectionExplained(env, evs, n, pid, r, r.lines[k]);
    } else {
      TrackedLater(env, evs, n, pid, r, r');
    }
  }

  lemma NextOfLookUp(db: Tables, r: Run, r': Run, pick: nat)
    requires AccountsOk(db.accounts) && LooksUp(r) && r'.stage == NextStage(db, r, pick)
    ensures if r.stage.k < |r.lines| && r.lines[r.stage.k].accountId !in db.accounts
            then r'.stage == Finished(Rejected(Validation(AccountNotFound)))
            else LooksUp(r') || r'.stage.ReadHead?
  {
    hide AccountsOk, CheckStatus, CheckType;
    if r.stage.k < |r.lines| {
      OnlyMissing(db.accounts, r.lines[r.stage.k]);
    }
  }

  /** A replay is the ledger's answer at the step that fetches the rows. */
  lemma ReplayExplained(env: Env, evs: seq<Event>, n: nat, pid: nat, r: Run)
    requires n < |evs| && StepOf(env, evs, n, pid) && NoneOutdated(env, evs, n)
    requires Validate(r.job.req) == Good(r.lines) && r.job.req.postingId in SysAt(env, evs, n).db.postings
    ensures var db, id := SysAt(env, evs, n).db, r.job.req.postingId;
      Explains(env, evs, n, pid, r.job, Accepted(StoredResponse(db.postings[id], FindRows(db.entries, id)), true))
  {
    hide SysAt, LedgerAt, Inv, BooksOk, Mirrors, Post, Validate, StoredResponse, FindRows, Respond, PostLines, StepOf,
      NoneOutdated;
    var m := LedgerAt(env, evs, n);
    AllFollow(env, evs, n);
    LedgerStep(env, evs, n);
    InvBooks(env, m);
    MirrorFacts(SysAt(env, evs, n).db, m);
    assert r.job.req.postingId in m.postings.Keys;
    MirroredRows(SysAt(env, evs, n).db, m, r.job.req.postingId);
    PostByLines(env, m, r.job);
    PostReplays(env, m, r.job, r.lines);
  }

  lemma FetchTracked(env: Env, evs: seq<Event>, n: nat, pid: nat, r: Run, r': Run, pick: nat)
    requires OwnRead(env, evs, n, pid, r, r') && r.stage.FetchRows? && StageOk(env, SysAt(env, evs, n).db, r)
    requires r'.stage == NextStage(SysAt(env, evs, n).db, r, pick)
    ensures Tracked(env, evs, n + 1, pid, r')
  {
    hide SysAt, Explains, Explained, NoneOutdated, Validate, StoredResponse, FindRows, StageOk, AccountsOk,
      Tracked, StepOf;
    var db := SysAt(env, evs, n).db;
    OwnReadFacts(env, evs, n, pid, r, r');
    FetchedRow(env, db, r);
    ReplayExplained(env, evs, n, pid, r);
    var rows := FindRows(db.entries, r.job.req.postingId);
    ExplainedNow(env, evs, n, pid, r.job, Accepted(StoredResponse(r.stage.row, rows), true));
    EndTracked(env, evs, n + 1, pid, r', Accepted(StoredResponse(r.stage.row, rows), true));
  }

  lemma EndTracked(env: Env, evs: seq<Event>, n: nat, pid: nat, r: Run, outcome: Outcome)
    requires n <= |evs| && r.stage == Finished(outcome) && Explained(env, evs, n, pid, r.job, outcome)
    ensures Tracked(env, evs, n, pid, r)
  {
    hide Explained;
  }

  /** Stages that say nothing about the answer. */
  lemma SilentTracked(env: Env, evs: seq<Event>, n: nat, pid: nat, r: Run)
    requires n <= |evs| && !LooksUp(r) && !r.stage.UpdateCache? && !r.stage.EmitAudit? && !r.stage.Finished?
    ensures Tracked(env, evs, n, pid, r)
  {
    hide Explained, WasFree;
  }

  /** A run that finds no posting has found its id free. */
  lemma CheckTracked(env: Env, evs: seq<Event>, n: nat, pid: nat, r: Run, r': Run, pick: nat)
    requires OwnRead(env, evs, n, pid, r, r') && r.stage.CheckExisting?
    requires r'.stage == NextStage(SysAt(env, evs, n).db, r, pick)
    ensures Tracked(env, evs, n + 1, pid, r')
  {
    hide SysAt, StepOf, NoneOutdated, Validate, AccountsOk;
    OwnReadFacts(env, evs, n, pid, r, r');
  }

  lemma ReadTracked(env: Env, evs: seq<Event>, n: nat, pid: nat, r: Run, r': Run, pick: nat)
    requires OwnRead(env, evs, n, pid, r, r') && Tracked(env, evs, n, pid, r) && StageOk(env, SysAt(env, evs, n).db, r)
    requires !r.stage.Committing? && !r.stage.UpdateCache? && !r.stage.EmitAudit? && !r.stage.Finished?
    requires r'.stage == NextStage(SysAt(env, evs, n).db, r, pick)
    ensures Tracked(env, evs, n + 1, pid, r')
  {
    hide SysAt, OwnRead, Tracked, StageOk, NextStage;
    OwnReadFacts(env, evs, n, pid, r, r');
    if LooksUp(r) {
      LookUpTracked(env, evs, n, pid, r, r', pick);
    } else if r.stage.FetchRows? {
      FetchTracked(env, evs, n, pid, r, r', pick);
    } else if r.stage.CheckExisting? {
      CheckTracked(env, evs, n, pid, r, r', pick);
    } else {
      NextIsSilent(SysAt(env, evs, n).db, r, r', pick);
      SilentTracked(env, evs, n + 1, pid, r');
    }
  }

  lemma NextIsSilent(db: Tables, r: Run, r': Run, pick: nat)
    requires r'.stage == NextStage(db, r, pick)
    requires r.stage.ReadHead? || r.stage.InsertPosting? || r.stage.RefetchPosting? || r.stage.ReadSequence?
      || r.stage.Broken?
    ensures !LooksUp(r') && !r'.stage.UpdateCache? && !r'.stage.EmitAudit? && !r'.stage.Finished?
  {
    hide IsLatest, MaxSequence, BatchOf, Genesis;
  }

  /** Where a run's own event can take it, apart from a commit. */
  ghost predicate OwnMove(env: Env, db: Tables, r: Run, r': Run) {
    || r'.stage == r.stage || r'.stage.Broken? || r'.stage.InsertPosting?
    || (r.stage.UpdateCache? && r'.stage == EmitAudit(r.stage.b))
    || (r.stage.EmitAudit? && r'.stage == Finished(Made(env, r.stage.b, r.job)))
    || (!r.stage.Committing? && !r.stage.UpdateCache? && !r.stage.EmitAudit?
        && exists pick :: r'.stage == NextStage(db, r, pick))
  }

  /** What a run's own event does to it: a move, or the commit of its batch. */
  ghost predicate OwnResult(env: Env, sys: System, sys': System, pid: nat) {
    && pid in sys.runs && pid in sys'.runs
    && sys'.runs[pid].job == sys.runs[pid].job && sys'.runs[pid].lines == sys.runs[pid].lines
    && (OwnMove(env, sys.db, sys.runs[pid], sys'.runs[pid])
        || (sys.runs[pid].stage.Committing? && sys'.runs[pid].stage == UpdateCache(sys.runs[pid].stage.b)))
  }

  lemma OwnMoves(env: Env, sys: System, ev: Event, pid: nat)
    requires Pid(ev) == Some(pid) && pid in sys.runs
    ensures OwnResult(env, sys, Apply(env, sys, ev), pid)
  {
    hide Proceed, CommitStep, Genesis, At, OwnResult, StartRun;
    SimpleMoves(env, sys, pid);
    match ev
    case Start(_, replica, job) => RunGoesOn(sys, pid, replica, job);
    case Advance(_, pick) => ProceedMoves(env, sys, pid, pick);
    case CallFails(_) =>
    case HeadReadFails(_) =>
    case CommitUnacknowledged(_) =>
      if sys.runs[pid].stage.Committing? {
        UnseenMoves(env, sys, pid, sys.runs[pid].stage.b);
      }
    case _ =>
  }

  lemma SimpleMoves(env: Env, sys: System, pid: nat)
    requires pid in sys.runs
    ensures OwnResult(env, sys, sys, pid) && OwnResult(env, sys, At(sys, pid, Broken), pid)
    ensures OwnResult(env, sys, At(sys, pid, InsertPosting(Genesis())), pid)
  {
    hide Genesis, At, NextStage, NewPosting, Respond;
    AtIs(sys, pid, Broken);
    AtIs(sys, pid, InsertPosting(Genesis()));
  }

  lemma UnseenMoves(env: Env, sys: System, pid: nat, b: Batch)
    requires pid in sys.runs
    ensures OwnResult(env, sys, CommitStep(env, sys, pid, b, Broken), pid)
  {
    hide CommitStep, NextStage, NewPosting, Respond;
    CommitMoves(env, sys, pid, b, Broken);
  }

  lemma CommitMoves(env: Env, sys: System, pid: nat, b: Batch, stage: Stage)
    requires pid in sys.runs
    ensures var sys' := CommitStep(env, sys, pid, b, stage);
      && pid in sys'.runs && sys'.runs[pid].job == sys.runs[pid].job && sys'.runs[pid].lines == sys.runs[pid].lines
      && (sys'.runs[pid].stage == stage || sys'.runs[pid].stage == Broken)
  {
    hide Admissible, CommitTables, NewPosting;
  }

  lemma ProceedMoves(env: Env, sys: System, pid: nat, pick: nat)
    requires pid in sys.runs
    ensures OwnResult(env, sys, Proceed(env, sys, pid, pick), pid)
  {
    hide CommitStep, At, NextStage, Respond, NewPosting, FillCache, Emit;
    var r := sys.runs[pid];
    if r.stage.Committing? {
      CommitMoves(env, sys, pid, r.stage.b, UpdateCache(r.stage.b));
    } else if r.stage.UpdateCache? {
      FillFacts(env, sys, pid, r.stage.b);
    } else if r.stage.EmitAudit? {
      EmitFacts(env, sys, pid, r.stage.b);
    } else {
      AtIs(sys, pid, NextStage(sys.db, r, pick));
    }
  }

  /** The bookkeeping after a commit changes nothing about the answer. */
  lemma BookkeepingTracked(env: Env, evs: seq<Event>, n: nat, pid: nat, r: Run, r': Run)
    requires OwnRead(env, evs, n, pid, r, r') && Tracked(env, evs, n, pid, r)
    requires (r.stage.UpdateCache? && r'.stage == EmitAudit(r.stage.b))
          || (r.stage.EmitAudit? && r'.stage == Finished(Made(env, r.stage.b, r.job)))
    ensures Tracked(env, evs, n + 1, pid, r')
  {
    hide SysAt, OwnRead, Tracked, Answer, Made, LooksUp;
    OwnReadFacts(env, evs, n, pid, r, r');
    BookkeepingAnswer(env, r, r', r.stage.b);
    TrackedLater(env, evs, n, pid, r, r');
  }

  lemma OwnMoveTracked(env: Env, evs: seq<Event>, n: nat, pid: nat, r: Run, r': Run)
    requires OwnRead(env, evs, n, pid, r, r') && Tracked(env, evs, n, pid, r) && StageOk(env, SysAt(env, evs, n).db, r)
    requires OwnMove(env, SysAt(env, evs, n).db, r, r')
    ensures Tracked(env, evs, n + 1, pid, r')
  {
    hide SysAt, OwnRead, Tracked, StageOk, Made, NextStage, Answer;
    OwnReadFacts(env, evs, n, pid, r, r');
    if r'.stage == r.stage {
      SameAnswer(env, r, r');
      TrackedLater(env, evs, n, pid, r, r');
    } else if r'.stage.Broken? || r'.stage.InsertPosting? {
      SilentTracked(env, evs, n + 1, pid, r');
    } else if r.stage.UpdateCache? || r.stage.EmitAudit? {
      BookkeepingTracked(env, evs, n, pid, r, r');
    } else {
      var pick :| r'.stage == NextStage(SysAt(env, evs, n).db, r, pick);
      NotFinished(SysAt(env, evs, n).db, r, r', pick);
      ReadTracked(env, evs, n, pid, r, r', pick);
    }
  }

  lemma NotFinished(db: Tables, r: Run, r': Run, pick: nat)
    requires r'.stage == NextStage(db, r, pick) && r'.stage != r.stage
    ensures !r.stage.Finished?
  {
    if r.stage.Finished? {
      FinishedStays(db, r, pick);
    }
  }

  /** A run's own commit: from here on its answer is the ledger's. */
  lemma CommitTracked(env: Env, evs: seq<Event>, n: nat, pid: nat)
    requires n < |evs| && NoneOutdated(env, evs, n + 1) && CommitsAt(env, evs, n) && Pid(evs[n]) == Some(pid)
    ensures pid in SysAt(env, evs, n + 1).runs && Tracked(env, evs, n + 1, pid, SysAt(env, evs, n + 1).runs[pid])
  {
    hide SysAt, OutdatedAt, TablesFollow, CommitsAt, LedgerAt, Post, Made, HasCommitted, OnlyRun, Tracked, JobAt,
      Explained, LooksUp;
    AllFollow(env, evs, n);
    FollowCommit(env, evs, n);
    CommitSeen(env, evs, n);
    CommitterIs(env, SysAt(env, evs, n), SysAt(env, evs, n + 1), pid);
    var r, r' := SysAt(env, evs, n).runs[pid], SysAt(env, evs, n + 1).runs[pid];
    if r'.stage.Broken? {
      SilentTracked(env, evs, n + 1, pid, r');
    } else {
      ExplainedNow(env, evs, n, pid, r.job, Made(env, r.stage.b, r.job));
      CommittedTracked(env, evs, n + 1, pid, r', r.stage.b);
    }
  }

  /** The run after its commit. */
  lemma CommitterIs(env: Env, sys: System, sys': System, pid: nat)
    requires pid in sys.runs && sys.runs[pid].stage.Committing? && OnlyRun(sys, sys', pid)
    requires HasCommitted(env, sys, sys', pid, sys.runs[pid].stage.b)
    ensures pid in sys'.runs && sys'.runs[pid].job == sys.runs[pid].job && !LooksUp(sys'.runs[pid])
    ensures sys'.runs[pid].stage == Broken || sys'.runs[pid].stage == UpdateCache(sys.runs[pid].stage.b)
  {
    hide OnlyRun, HasCommitted, Move;
    OnlyOwn(sys, sys', pid);
    AfterCommit(env, sys, sys', pid);
  }

  lemma AfterCommit(env: Env, sys: System, sys': System, pid: nat)
    requires pid in sys.runs && pid in sys'.runs && sys.runs[pid].stage.Committing?
    requires HasCommitted(env, sys, sys', pid, sys.runs[pid].stage.b)
    ensures sys'.runs[pid].stage == Broken || sys'.runs[pid].stage == UpdateCache(sys.runs[pid].stage.b)
  {
    hide Admissible, CommitTables, NewPosting;
  }

  lemma CommittedTracked(env: Env, evs: seq<Event>, n: nat, pid: nat, r: Run, b: Batch)
    requires n <= |evs| && r.stage == UpdateCache(b) && Explained(env, evs, n, pid, r.job, Made(env, b, r.job))
    ensures Tracked(env, evs, n, pid, r)
  {
    hide Explained, Made;
  }

  lemma OwnTracked(env: Env, evs: seq<Event>, n: nat, pid: nat)
    requires n < |evs| && NoneOutdated(env, evs, n + 1)
    requires Pid(evs[n]) == Some(pid) && pid in SysAt(env, evs, n).runs
    requires Tracked(env, evs, n, pid, SysAt(env, evs, n).runs[pid])
    ensures pid in SysAt(env, evs, n + 1).runs && Tracked(env, evs, n + 1, pid, SysAt(env, evs, n + 1).runs[pid])
  {
    hide SysAt, OutdatedAt, Tracked, OwnMove, StageOk, SysInv, Validate, Apply, AccountsOk;
    if CommitsAt(env, evs, n) {
      CommitTracked(env, evs, n, pid);
    } else {
      StepAt(env, evs, n);
      var sys, sys' := SysAt(env, evs, n), SysAt(env, evs, n + 1);
      OwnMoves(env, sys, evs[n], pid);
      RunFacts(env, sys, pid);
      KnownAccounts(env, sys);
      if OwnMove(env, sys.db, sys.runs[pid], sys'.runs[pid]) {
        OwnMoveTracked(env, evs, n, pid, sys.runs[pid], sys'.runs[pid]);
      } else {
        UpdateMeansCommit(env, sys, evs[n], pid);
      }
    }
  }

  lemma KnownAccounts(env: Env, sys: System)
    requires SysInv(env, sys)
    ensures AccountsOk(sys.db.accounts)
  {
    hide HistoryOk, TablesAre, AllRunsOk, OneWinner, AccountsOk;
  }

  /** Only a commit leads to the bookkeeping. */
  lemma UpdateMeansCommit(env: Env, sys: System, ev: Event, pid: nat)
    requires Pid(ev) == Some(pid) && pid in sys.runs && sys.runs[pid].stage.Committing?
    requires var sys' := Apply(env, sys, ev);
      pid in sys'.runs && sys'.runs[pid].stage == UpdateCache(sys.runs[pid].stage.b)
    ensures Apply(env, sys, ev).history != sys.history
  {
    hide Apply, OnlyRun, OwnStep;
    ApplyShape(env, sys, ev);
    OwnHistory(env, sys, Apply(env, sys, ev), pid);
  }

  // ---------- All runs, all along ----------

  ghost predicate AllTracked(env: Env, evs: seq<Event>, n: nat)
    requires n <= |evs|
  {
    var runs := SysAt(env, evs, n).runs;
    forall pid :: pid in runs ==> Tracked(env, evs, n, pid, runs[pid])
  }

  lemma TrackedNext(env: Env, evs: seq<Event>, n: nat)
    requires n < |evs| && NoneOutdated(env, evs, n + 1) && AllTracked(env, evs, n)
    ensures AllTracked(env, evs, n + 1)
  {
    hide SysAt, NoneOutdated, Tracked, Apply, SysInv, Answer, LooksUp;
    StepAt(env, evs, n);
    var sys, sys' := SysAt(env, evs, n), SysAt(env, evs, n + 1);
    forall pid | pid in sys'.runs ensures Tracked(env, evs, n + 1, pid, sys'.runs[pid]) {
      RunMoves(env, sys, evs[n], pid);
      if pid !in sys.runs {
        NewTracked(env, evs, n + 1, pid, sys'.runs[pid]);
      } else if Pid(evs[n]) == Some(pid) {
        OwnTracked(env, evs, n, pid);
      } else {
        TrackedLater(env, evs, n, pid, sys.runs[pid], sys'.runs[pid]);
      }
    }
  }

  lemma NewTracked(env: Env, evs: seq<Event>, n: nat, pid: nat, r: Run)
    requires n <= |evs| && r.stage == CheckExisting
    ensures Tracked(env, evs, n, pid, r)
  {
    hide Tracked;
    SilentTracked(env, evs, n, pid, r);
  }

  lemma {:induction false} TrackedAll(env: Env, evs: seq<Event>, n: nat)
    requires n <= |evs| && NoneOutdated(env, evs, n)
    ensures AllTracked(env, evs, n)
  {
    hide AllTracked, OutdatedAt;
    if n == 0 {
      NobodyYet(env, evs);
    } else {
      TrackedAll(env, evs, n - 1);
      TrackedNext(env, evs, n - 1);
    }
  }

  lemma NobodyYet(env: Env, evs: seq<Event>)
    ensures AllTracked(env, evs, 0)
  {
  }

  // ---------- The main results ----------

  /** Under every schedule in which no run commits after a head that is out of date, whatever
      overlaps, fails or stops, the tables hold at every moment what the in-memory ledger holds
      after the openings and the commits so far, in the order they took effect. */
  lemma TablesSerialize(env: Env, evs: seq<Event>, n: nat)
    requires n <= |evs| && NoneOutdated(env, evs, |evs|)
    ensures Mirrors(Play(env, Initial(), evs[..n]).db, LedgerAt(env, evs, n)) && Reachable(env, LedgerAt(env, evs, n))
  {
    hide OutdatedAt, Exec, OpsUpTo, Mirrors, Play, Initial;
    AllFollow(env, evs, n);
  }

  /** And every run that has answered gave exactly the answer that `post` gives on that ledger at
      one of the run's own steps, after its start and before its end. */
  lemma AnswersSerialize(env: Env, evs: seq<Event>, pid: nat)
    requires NoneOutdated(env, evs, |evs|)
    requires var sys := Play(env, Initial(), evs); pid in sys.runs && sys.runs[pid].stage.Finished?
    ensures var r := Play(env, Initial(), evs).runs[pid];
      exists t ::
        0 <= t < |evs| && StepOf(env, evs, t, pid) && Post(env, LedgerAt(env, evs, t), r.job).1 == r.stage.outcome
  {
    hide SysAt, NoneOutdated, Tracked, Play, Initial, StepOf, LedgerAt, Post;
    TrackedAll(env, evs, |evs|);
    LastSys(env, evs);
    FinishedTracked(env, evs, |evs|, pid, Play(env, Initial(), evs).runs[pid]);
  }

  lemma FinishedTracked(env: Env, evs: seq<Event>, n: nat, pid: nat, r: Run)
    requires n <= |evs| && Tracked(env, evs, n, pid, r) && r.stage.Finished?
    ensures exists t ::
      0 <= t < n && StepOf(env, evs, t, pid) && Post(env, LedgerAt(env, evs, t), r.job).1 == r.stage.outcome
  {
    hide LedgerAt, Post, StepOf, WasFree;
    var t :| 0 <= t < n && Explains(env, evs, t, pid, r.job, r.stage.outcome);
  }

  /** In particular when runs do not overlap, with accounts opened at any time, even inside a run. */
  lemma SerialAnswers(env: Env, evs: seq<Event>, pid: nat)
    requires NoOverlap(evs) && HeadsAnswered(evs)
    requires var sys := Play(env, Initial(), evs); pid in sys.runs && sys.runs[pid].stage.Finished?
    ensures var r := Play(env, Initial(), evs).runs[pid];
      exists t ::
        0 <= t < |evs| && StepOf(env, evs, t, pid) && Post(env, LedgerAt(env, evs, t), r.job).1 == r.stage.outcome
  {
    hide OutdatedAt, Play, Initial, NoOverlap, HeadsAnswered, LedgerAt, Post, StepOf;
    forall c | 0 <= c < |evs| ensures !OutdatedAt(env, evs, c) {
      SerialIsCurrent(env, evs, c);
    }
    AnswersSerialize(env, evs, pid);
  }
}
