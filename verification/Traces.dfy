/** What one event can change, and what the requests of a run of events are. */
module Traces {
  import opened Text
  import opened Posting
  import opened Chart
  import opened Ledger
  import opened Runs
  import opened Database
  import opened Protocol

  /** The run an event belongs to. */
  function Pid(ev: Event): Option<nat> {
    match ev
    case OpenAccount(_, _, _, _) => None
    case Start(pid, _, _) => Some(pid)
    case Advance(pid, _) => Some(pid)
    case CallFails(pid) => Some(pid)
    case HeadReadFails(pid) => Some(pid)
    case CommitUnacknowledged(pid) => Some(pid)
    case Restart(_) => None
    case Hydrate(_, _, _) => None
  }

  // ---------- One event ----------

  /** Only run `pid` may differ, and it keeps its request. */
  ghost predicate OnlyRun(sys: System, sys': System, pid: nat) {
    && (forall q :: q != pid ==> (q in sys'.runs <==> q in sys.runs))
    && (forall q :: q in sys.runs && q != pid ==> sys'.runs[q] == sys.runs[q])
    && (pid in sys.runs ==> pid in sys'.runs && sys'.runs[pid] == Move(sys.runs[pid], sys'.runs[pid].stage))
  }

  /** Nothing is committed: at most the table of accounts differs. */
  predicate NoCommit(sys: System, sys': System) {
    sys'.history == sys.history && sys'.db == sys.db.(accounts := sys'.db.accounts)
  }

  /** The run has just committed `b`. */
  ghost predicate HasCommitted(env: Env, sys: System, sys': System, pid: nat, b: Batch)
    requires pid in sys.runs && pid in sys'.runs
  {
    && sys.runs[pid].stage == Committing(b)
    && (sys'.runs[pid].stage == UpdateCache(b) || sys'.runs[pid].stage == Broken)
    && Admissible(sys.db, b)
    && sys'.history == sys.history + [Commit(b, sys.runs[pid].job)]
    && sys'.db == CommitTables(sys.db, NewPosting(env, b, sys.runs[pid].job))
  }

  lemma CommittedEntries(env: Env, db: Tables, b: Batch, job: Job)
    ensures CommitTables(db, NewPosting(env, b, job)).entries == db.entries + Link(env, b)
  {
    hide Link, AnchorOf, RowOf;
  }

  lemma AtOnlyRun(sys: System, pid: nat, stage: Stage)
    requires pid in sys.runs
    ensures OnlyRun(sys, At(sys, pid, stage), pid) && NoCommit(sys, At(sys, pid, stage))
    ensures pid in At(sys, pid, stage).runs && At(sys, pid, stage).runs[pid].stage == stage
    ensures At(sys, pid, stage).db == sys.db && At(sys, pid, stage).history == sys.history
  {
  }

  lemma CommitRunOnly(env: Env, sys: System, job: Job, b: Batch)
    ensures var sys' := CommitRun(env, sys, job, b);
      sys'.runs == sys.runs && sys'.history == sys.history + [Commit(b, job)]
      && sys'.db == CommitTables(sys.db, NewPosting(env, b, job))
  {
    hide CommitTables, NewPosting;
  }

  lemma CommitStepOnly(env: Env, sys: System, pid: nat, b: Batch, stage: Stage)
    requires pid in sys.runs && sys.runs[pid].stage == Committing(b) && (stage == UpdateCache(b) || stage == Broken)
    ensures var sys' := CommitStep(env, sys, pid, b, stage);
      && OnlyRun(sys, sys', pid)
      && (HasCommitted(env, sys, sys', pid, b) || (NoCommit(sys, sys') && sys'.runs[pid].stage == Broken))
  {
    hide Admissible, CommitRun, CommitTables, NewPosting, At, OnlyRun, NoCommit, Move;
    AtOnlyRun(sys, pid, Broken);
    var committed := CommitRun(env, sys, sys.runs[pid].job, b);
    CommitRunOnly(env, sys, sys.runs[pid].job, b);
    AtOnlyRun(committed, pid, stage);
    SameRuns(sys, committed, At(committed, pid, stage), pid);
  }

  lemma SameRuns(sys: System, mid: System, sys': System, pid: nat)
    requires mid.runs == sys.runs && OnlyRun(mid, sys', pid)
    ensures OnlyRun(sys, sys', pid)
  {
  }

  /** What a run's own step does: commit its batch, or leave the tables as they are. */
  ghost predicate OwnStep(env: Env, sys: System, sys': System, pid: nat) {
    && pid in sys.runs && OnlyRun(sys, sys', pid)
    && ((sys.runs[pid].stage.Committing? && HasCommitted(env, sys, sys', pid, sys.runs[pid].stage.b))
        || (NoCommit(sys, sys') && (Won(sys'.runs[pid]) ==> Won(sys.runs[pid]))))
  }

  lemma ProceedOnly(env: Env, sys: System, pid: nat, pick: nat)
    requires pid in sys.runs
    ensures OwnStep(env, sys, Proceed(env, sys, pid, pick), pid)
  {
    hide NextStage, CommitStep, FillCache, Emit, HasCommitted, Move, At, OnlyRun, Won;
    var stage := sys.runs[pid].stage;
    if stage.Committing? {
      CommitStepOnly(env, sys, pid, stage.b, UpdateCache(stage.b));
      BrokenNotWon(env, sys, pid, UpdateCache(stage.b), stage.b);
    } else if stage.UpdateCache? || stage.EmitAudit? {
      FillOnly(env, sys, pid);
    } else {
      AtOnlyRun(sys, pid, NextStage(sys.db, sys.runs[pid], pick));
      ReadsWinNothing(sys.db, sys.runs[pid], pick);
      AtIs(sys, pid, NextStage(sys.db, sys.runs[pid], pick));
    }
  }

  lemma AtIs(sys: System, pid: nat, stage: Stage)
    requires pid in sys.runs
    ensures pid in At(sys, pid, stage).runs && At(sys, pid, stage).runs[pid] == Move(sys.runs[pid], stage)
  {
  }

  lemma BrokenNotWon(env: Env, sys: System, pid: nat, stage: Stage, b: Batch)
    requires pid in sys.runs
    ensures var sys' := CommitStep(env, sys, pid, b, stage);
      pid in sys'.runs && (sys'.runs[pid].stage.Broken? ==> !Won(sys'.runs[pid]))
  {
    hide Admissible, CommitTables, NewPosting;
  }

  lemma WithCacheOnly(sys: System, pid: nat, m: LedgerState, stage: Stage)
    requires pid in sys.runs
    ensures OnlyRun(sys, WithCache(sys, pid, m, stage), pid) && NoCommit(sys, WithCache(sys, pid, m, stage))
  {
    hide At, OnlyRun;
    var filled := sys.(caches := sys.caches[sys.runs[pid].replica := m]);
    AtOnlyRun(filled, pid, stage);
    SameRuns(sys, filled, At(filled, pid, stage), pid);
  }

  /** The two steps after a commit only touch the process's copy. */
  lemma FillOnly(env: Env, sys: System, pid: nat)
    requires pid in sys.runs && (sys.runs[pid].stage.UpdateCache? || sys.runs[pid].stage.EmitAudit?)
    ensures var b := sys.runs[pid].stage.b;
      var sys' := if sys.runs[pid].stage.UpdateCache? then FillCache(env, sys, pid, b) else Emit(env, sys, pid, b);
      OnlyRun(sys, sys', pid) && NoCommit(sys, sys') && Won(sys.runs[pid])
  {
    hide Filled, CacheEvent, EventOf, NewPosting, Respond, Cache, Move, WithCache, OnlyRun;
    var r, m, b := sys.runs[pid], Cache(sys, sys.runs[pid].replica), sys.runs[pid].stage.b;
    if r.stage.UpdateCache? {
      WithCacheOnly(sys, pid, Filled(env, m, r.job, b), EmitAudit(b));
    } else {
      var p := NewPosting(env, b, r.job);
      WithCacheOnly(sys, pid, CacheEvent(m, EventOf(r.job.eventId, p)), Finished(Accepted(Respond(p), false)));
    }
  }

  lemma ReadsWinNothing(db: Tables, r: Run, pick: nat)
    ensures Won(Move(r, NextStage(db, r, pick))) ==> Won(r)
  {
    hide FindRows, IsLatest, CheckStatus, CheckType, MaxSequence, StoredResponse, Genesis;
  }

  /** Nothing happens to a run that does not exist, except that it may be started. */
  ghost predicate NewRun(sys: System, sys': System, pid: nat, ev: Event) {
    && OnlyRun(sys, sys', pid) && NoCommit(sys, sys')
    && (pid in sys'.runs ==> ev.Start? && sys'.runs[pid].job == ev.job && sys'.runs[pid].stage == CheckExisting)
  }

  /** Every event belongs to one run or to none, and commits at most that run's batch. */
  lemma ApplyShape(env: Env, sys: System, ev: Event)
    ensures var sys' := Apply(env, sys, ev);
      match Pid(ev)
      case None => sys'.runs == sys.runs && NoCommit(sys, sys')
      case Some(pid) => if pid in sys.runs then OwnStep(env, sys, sys', pid) else NewRun(sys, sys', pid, ev)
  {
    hide Apply, NoCommit, OwnStep, NewRun;
    if Pid(ev).None? {
      NoRunMoves(env, sys, ev);
    } else if Pid(ev).value in sys.runs {
      OwnEvent(env, sys, ev, Pid(ev).value);
    } else {
      FirstEvent(env, sys, ev, Pid(ev).value);
    }
  }

  lemma NoRunMoves(env: Env, sys: System, ev: Event)
    requires Pid(ev).None?
    ensures Apply(env, sys, ev).runs == sys.runs && NoCommit(sys, Apply(env, sys, ev))
  {
    hide Rebuild, OrderedRows, OpenRow;
    if ev.OpenAccount? {
      OpenOnly(sys, ev.owner, ev.req, ev.freshId, ev.clock);
    }
  }

  lemma FirstEvent(env: Env, sys: System, ev: Event, pid: nat)
    requires Pid(ev) == Some(pid) && pid !in sys.runs
    ensures NewRun(sys, Apply(env, sys, ev), pid, ev)
  {
    hide Validate, Proceed, CommitStep, OpenRow, Rebuild, OrderedRows, SetCache, At, Genesis;
  }

  /** What an event of an existing run does, event by event. */
  lemma OwnApplies(env: Env, sys: System, ev: Event, pid: nat)
    requires Pid(ev) == Some(pid) && pid in sys.runs
    ensures var sys', stage := Apply(env, sys, ev), sys.runs[pid].stage;
      match ev
      case Advance(_, pick) => sys' == Proceed(env, sys, pid, pick)
      case CallFails(_) => sys' == sys || sys' == At(sys, pid, Broken)
      case HeadReadFails(_) => sys' == if stage.ReadHead? then At(sys, pid, InsertPosting(Genesis())) else sys
      case CommitUnacknowledged(_) =>
        sys' == if stage.Committing? then CommitStep(env, sys, pid, stage.b, Broken) else sys
      case _ => sys' == sys
  {
    hide Proceed, CommitStep, Genesis, At, StartRun, OpenRow, Rebuild, OrderedRows, SetCache;
    if ev.Start? {
      RunGoesOn(sys, pid, ev.replica, ev.job);
    }
  }

  lemma OwnEvent(env: Env, sys: System, ev: Event, pid: nat)
    requires Pid(ev) == Some(pid) && pid in sys.runs
    ensures OwnStep(env, sys, Apply(env, sys, ev), pid)
  {
    hide Proceed, CommitStep, Genesis, At, OwnStep, StartRun, OpenRow, Rebuild, OrderedRows, SetCache;
    match ev
    case Start(_, replica, job) => RunGoesOn(sys, pid, replica, job); MoveOnly(env, sys, pid, Broken);
    case Advance(_, pick) => ProceedOnly(env, sys, pid, pick);
    case CallFails(_) => MoveOnly(env, sys, pid, Broken);
    case HeadReadFails(_) => MoveOnly(env, sys, pid, InsertPosting(Genesis()));
    case CommitUnacknowledged(_) =>
      MoveOnly(env, sys, pid, Broken);
      if sys.runs[pid].stage.Committing? {
        UnseenCommit(env, sys, pid, sys.runs[pid].stage.b);
      }
    case _ =>
  }

  lemma RunGoesOn(sys: System, pid: nat, replica: nat, job: Job)
    requires pid in sys.runs
    ensures StartRun(sys, pid, replica, job) == sys
  {
    hide Validate;
  }

  lemma UnseenCommit(env: Env, sys: System, pid: nat, b: Batch)
    requires pid in sys.runs && sys.runs[pid].stage == Committing(b)
    ensures OwnStep(env, sys, CommitStep(env, sys, pid, b, Broken), pid)
  {
    hide CommitStep, OnlyRun, HasCommitted, NoCommit, Won;
    CommitStepOnly(env, sys, pid, b, Broken);
    BrokenNotWon(env, sys, pid, Broken, b);
  }

  lemma OpenOnly(sys: System, owner: nat, req: CreateAccountRequest, freshId: string, clock: nat)
    ensures var sys' := OpenRow(sys, owner, req, freshId, clock); sys'.runs == sys.runs && NoCommit(sys, sys')
  {
    hide ValidateAccount, Cache;
  }

  lemma MoveOnly(env: Env, sys: System, pid: nat, stage: Stage)
    requires pid in sys.runs && (stage.Broken? || stage.InsertPosting?)
    ensures OwnStep(env, sys, At(sys, pid, stage), pid) && OwnStep(env, sys, sys, pid)
  {
    hide HasCommitted;
    AtOnlyRun(sys, pid, stage);
  }

  /** Only openings change the table of accounts, and they only add to it. */
  lemma AccountsMove(env: Env, sys: System, ev: Event)
    ensures !ev.OpenAccount? ==> Apply(env, sys, ev).db.accounts == sys.db.accounts
    ensures Keeps(sys.db.accounts, Apply(env, sys, ev).db.accounts)
  {
    hide Proceed, CommitStep, StartRun, OpenRow, Rebuild, OrderedRows, Genesis, At, Keeps;
    SameAccounts(sys.db.accounts);
    if ev.OpenAccount? {
      OpenAdds(sys, ev.owner, ev.req, ev.freshId, ev.clock);
    } else if ev.Start? {
      StartAccounts(sys, ev.pid, ev.replica, ev.job);
    } else if Pid(ev).Some? && Pid(ev).value in sys.runs {
      RunAccounts(env, sys, ev, Pid(ev).value);
    }
  }

  lemma RunAccounts(env: Env, sys: System, ev: Event, pid: nat)
    requires Pid(ev) == Some(pid) && pid in sys.runs && !ev.Start?
    ensures Apply(env, sys, ev).db.accounts == sys.db.accounts
  {
    hide Proceed, CommitStep, Genesis, At, OpenRow, StartRun, Rebuild, OrderedRows, SetCache;
    AtTables(sys, pid, Broken);
    AtTables(sys, pid, InsertPosting(Genesis()));
    if ev.Advance? {
      ProceedAccounts(env, sys, pid, ev.pick);
    } else if ev.CommitUnacknowledged? && sys.runs[pid].stage.Committing? {
      CommitAccounts(env, sys, pid, sys.runs[pid].stage.b, Broken);
    }
  }

  lemma AtTables(sys: System, pid: nat, stage: Stage)
    requires pid in sys.runs
    ensures At(sys, pid, stage).db == sys.db
  {
  }

  lemma SameAccounts(accounts: map<string, Account>)
    ensures Keeps(accounts, accounts)
  {
  }

  lemma OpenAdds(sys: System, owner: nat, req: CreateAccountRequest, freshId: string, clock: nat)
    ensures Keeps(sys.db.accounts, OpenRow(sys, owner, req, freshId, clock).db.accounts)
  {
    hide ValidateAccount, Cache, Decimal;
  }

  lemma StartAccounts(sys: System, pid: nat, replica: nat, job: Job)
    ensures StartRun(sys, pid, replica, job).db == sys.db
  {
    hide Validate;
  }

  lemma CommitAccounts(env: Env, sys: System, pid: nat, b: Batch, stage: Stage)
    requires pid in sys.runs
    ensures CommitStep(env, sys, pid, b, stage).db.accounts == sys.db.accounts
  {
    hide Admissible, CommitRun, At;
    var job := sys.runs[pid].job;
    CommitRunAccounts(env, sys, job, b);
    CommitRunOnly(env, sys, job, b);
    AtTables(CommitRun(env, sys, job, b), pid, stage);
    AtTables(sys, pid, Broken);
  }

  lemma CommitRunAccounts(env: Env, sys: System, job: Job, b: Batch)
    ensures CommitRun(env, sys, job, b).db.accounts == sys.db.accounts
  {
    hide NewPosting, AnchorOf, RowOf;
  }

  lemma ProceedAccounts(env: Env, sys: System, pid: nat, pick: nat)
    requires pid in sys.runs
    ensures Proceed(env, sys, pid, pick).db.accounts == sys.db.accounts
  {
    hide CommitStep, NextStage, Filled, CacheEvent, EventOf, NewPosting, Respond, Cache;
    if sys.runs[pid].stage.Committing? {
      CommitAccounts(env, sys, pid, sys.runs[pid].stage.b, UpdateCache(sys.runs[pid].stage.b));
    }
  }

  // ---------- Where postings come from ----------

  /** Some event starts a run for the job. */
  ghost predicate Requested(evs: seq<Event>, job: Job) {
    exists i :: 0 <= i < |evs| && evs[i].Start? && evs[i].job == job
  }

  ghost predicate Committed(history: seq<Commit>, job: Job) {
    exists k :: 0 <= k < |history| && history[k].job == job
  }

  /** Every commit and every run is for a request that was made, and a run that knows that its own
      transaction went through is right. */
  ghost predicate AllRequested(evs: seq<Event>, sys: System) {
    && (forall k :: 0 <= k < |sys.history| ==> Requested(evs, sys.history[k].job))
    && (forall pid :: pid in sys.runs ==> Requested(evs, sys.runs[pid].job))
    && (forall pid :: pid in sys.runs && Won(sys.runs[pid]) ==> Committed(sys.history, sys.runs[pid].job))
  }

  lemma RequestedLater(evs: seq<Event>, ev: Event)
    ensures forall job :: Requested(evs, job) ==> Requested(evs + [ev], job)
    ensures ev.Start? ==> Requested(evs + [ev], ev.job)
  {
    forall job | Requested(evs, job) ensures Requested(evs + [ev], job) {
      var i :| 0 <= i < |evs| && evs[i].Start? && evs[i].job == job;
      assert (evs + [ev])[i] == evs[i];
    }
    assert (evs + [ev])[|evs|] == ev;
  }

  lemma CommittedLater(history: seq<Commit>, c: Commit)
    ensures forall job :: Committed(history, job) ==> Committed(history + [c], job)
    ensures Committed(history + [c], c.job)
  {
    forall job | Committed(history, job) ensures Committed(history + [c], job) {
      var k :| 0 <= k < |history| && history[k].job == job;
      assert (history + [c])[k] == history[k];
    }
    assert (history + [c])[|history|] == c;
  }

  lemma RequestedStep(env: Env, evs: seq<Event>, sys: System, ev: Event)
    requires AllRequested(evs, sys)
    ensures AllRequested(evs + [ev], Apply(env, sys, ev))
  {
    hide Apply, OwnStep, NewRun, AllRequested, NoCommit;
    var sys' := Apply(env, sys, ev);
    ApplyShape(env, sys, ev);
    RequestedMore(evs, sys, ev);
    if Pid(ev).None? {
      SameRequests(evs + [ev], sys, sys');
    } else if Pid(ev).value in sys.runs {
      OwnRequest(env, evs + [ev], sys, sys', Pid(ev).value);
    } else {
      FirstRequest(evs + [ev], sys, sys', ev, Pid(ev).value);
    }
  }

  lemma RequestedMore(evs: seq<Event>, sys: System, ev: Event)
    requires AllRequested(evs, sys)
    ensures AllRequested(evs + [ev], sys) && (ev.Start? ==> Requested(evs + [ev], ev.job))
  {
    hide Requested, Committed, Won;
    RequestedLater(evs, ev);
  }

  lemma SameRequests(evs: seq<Event>, sys: System, sys': System)
    requires AllRequested(evs, sys) && sys'.runs == sys.runs && NoCommit(sys, sys')
    ensures AllRequested(evs, sys')
  {
    hide Requested, Committed, Won;
  }

  lemma FirstRequest(evs: seq<Event>, sys: System, sys': System, ev: Event, pid: nat)
    requires AllRequested(evs, sys) && pid !in sys.runs && NewRun(sys, sys', pid, ev)
    requires ev.Start? ==> Requested(evs, ev.job)
    ensures AllRequested(evs, sys')
  {
    hide Requested, Committed, Won;
    if pid in sys'.runs {
      NotWonYet(sys'.runs[pid]);
    }
  }

  lemma NotWonYet(r: Run)
    requires r.stage == CheckExisting
    ensures !Won(r)
  {
  }

  lemma OwnHistory(env: Env, sys: System, sys': System, pid: nat)
    requires OwnStep(env, sys, sys', pid)
    ensures pid in sys.runs && OnlyRun(sys, sys', pid)
    ensures sys'.history == sys.history ==> (Won(sys'.runs[pid]) ==> Won(sys.runs[pid]))
    ensures sys'.history != sys.history ==>
      sys.runs[pid].stage.Committing?
        && sys'.history == sys.history + [Commit(sys.runs[pid].stage.b, sys.runs[pid].job)]
  {
    hide OnlyRun, Admissible, CommitTables, NewPosting, Won, Move;
    assert |sys.history + [Commit(Batch("", 0, "", "", [], []), sys.runs[pid].job)]| != |sys.history|;
  }

  /** A step that commits, seen from the tables and from the run. */
  lemma OwnCommit(env: Env, sys: System, sys': System, pid: nat)
    requires OwnStep(env, sys, sys', pid)
    ensures pid in sys.runs && pid in sys'.runs
    ensures sys'.history == sys.history ==> sys'.db.entries == sys.db.entries
    ensures sys'.history != sys.history ==>
      && sys.runs[pid].stage.Committing? && Admissible(sys.db, sys.runs[pid].stage.b)
      && sys'.db.entries == sys.db.entries + Link(env, sys.runs[pid].stage.b)
      && (sys'.runs[pid].stage.UpdateCache? || sys'.runs[pid].stage.Broken?)
  {
    hide OnlyRun, Admissible, CommitTables, NewPosting, Won, Link;
    OwnHistory(env, sys, sys', pid);
    OnlyOwn(sys, sys', pid);
    if sys'.history != sys.history {
      CommittedEntries(env, sys.db, sys.runs[pid].stage.b, sys.runs[pid].job);
    }
  }

  lemma CommitOfOwn(env: Env, sys: System, sys': System, pid: nat)
    requires OwnStep(env, sys, sys', pid) && sys'.history != sys.history
    ensures OnlyRun(sys, sys', pid) && pid in sys'.runs && sys.runs[pid].stage.Committing?
    ensures HasCommitted(env, sys, sys', pid, sys.runs[pid].stage.b)
  {
    hide OnlyRun, HasCommitted, Won;
    OnlyOwn(sys, sys', pid);
  }

  lemma OnlyOwn(sys: System, sys': System, pid: nat)
    requires OnlyRun(sys, sys', pid) && pid in sys.runs
    ensures pid in sys'.runs && sys'.runs[pid] == Move(sys.runs[pid], sys'.runs[pid].stage)
  {
    hide Move;
  }

  lemma OwnRequest(env: Env, evs: seq<Event>, sys: System, sys': System, pid: nat)
    requires AllRequested(evs, sys) && OwnStep(env, sys, sys', pid)
    ensures AllRequested(evs, sys')
  {
    hide Requested, Committed, OwnStep, OnlyRun, Won;
    OwnHistory(env, sys, sys', pid);
    if sys'.history == sys.history {
      SameCommits(evs, sys, sys', pid);
    } else {
      MoreCommits(evs, sys, sys', pid, sys.runs[pid].stage.b);
    }
  }

  lemma SameCommits(evs: seq<Event>, sys: System, sys': System, pid: nat)
    requires AllRequested(evs, sys) && OnlyRun(sys, sys', pid) && pid in sys.runs && sys'.history == sys.history
    requires pid in sys'.runs && Won(sys'.runs[pid]) ==> Won(sys.runs[pid])
    ensures AllRequested(evs, sys')
  {
    hide Requested, Committed, OnlyRun, Won;
    SameJob(sys, sys', pid);
    forall q | q in sys'.runs && Won(sys'.runs[q]) ensures Committed(sys'.history, sys'.runs[q].job) {
      assert q in sys.runs && Won(sys.runs[q]);
    }
  }

  lemma MoreCommits(evs: seq<Event>, sys: System, sys': System, pid: nat, b: Batch)
    requires AllRequested(evs, sys) && OnlyRun(sys, sys', pid) && pid in sys.runs
    requires sys'.history == sys.history + [Commit(b, sys.runs[pid].job)]
    ensures AllRequested(evs, sys')
  {
    hide Requested, Committed, OnlyRun, Won;
    SameJob(sys, sys', pid);
    CommittedLater(sys.history, Commit(b, sys.runs[pid].job));
    forall q | q in sys'.runs && Won(sys'.runs[q]) ensures Committed(sys'.history, sys'.runs[q].job) {
      assert q in sys.runs;
    }
  }

  lemma SameJob(sys: System, sys': System, pid: nat)
    requires OnlyRun(sys, sys', pid)
    ensures forall q :: q in sys.runs ==> q in sys'.runs && sys'.runs[q].job == sys.runs[q].job
    ensures forall q :: q in sys'.runs && q != pid ==> q in sys.runs && sys'.runs[q] == sys.runs[q]
    ensures pid in sys.runs ==> forall q :: q in sys'.runs ==> q in sys.runs
  {
  }

  lemma {:induction false} OnlyRequested(env: Env, evs: seq<Event>)
    ensures AllRequested(evs, Play(env, Initial(), evs))
  {
    hide Apply, AllRequested;
    if evs == [] {
      NothingRequested();
    } else {
      var n := |evs| - 1;
      OnlyRequested(env, evs[..n]);
      RequestedStep(env, evs[..n], Play(env, Initial(), evs[..n]), evs[n]);
      assert evs[..n] + [evs[n]] == evs;
    }
  }

  lemma NothingRequested()
    ensures AllRequested([], Initial())
  {
  }

  /** Every run in the system was started by one of the events. */
  lemma {:induction false} StartedBy(env: Env, evs: seq<Event>, pid: nat)
    requires pid in Play(env, Initial(), evs).runs
    ensures exists k :: 0 <= k < |evs| && Pid(evs[k]) == Some(pid)
  {
    hide Apply, HasCommitted, NoCommit, Won;
    if evs != [] {
      var n := |evs| - 1;
      if pid in Play(env, Initial(), evs[..n]).runs {
        StartedBy(env, evs[..n], pid);
        var k :| 0 <= k < n && Pid(evs[..n][k]) == Some(pid);
        assert evs[k] == evs[..n][k];
      } else {
        ApplyShape(env, Play(env, Initial(), evs[..n]), evs[n]);
        assert Pid(evs[n]) == Some(pid);
      }
    }
  }
}
