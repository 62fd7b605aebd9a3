/** Runs for a posting that is already there: losers of a race, and retries after a lost answer. */
module Retries {
  import opened Text
  import opened Posting
  import opened Ledger
  import opened Links
  import opened Database
  import opened Protocol
  import opened Traces
  import opened Interleavings
  import opened Refinement

  /** A run that finds its posting inserted by another one, when it inserts it itself, answers with
      what is stored. */
  lemma LoserReplays(env: Env, sys: System, pid: nat, pick: nat, base: string)
    requires pid in sys.runs && sys.runs[pid].stage == InsertPosting(base)
    requires sys.runs[pid].job.req.postingId in sys.db.postings
    ensures var id := sys.runs[pid].job.req.postingId;
      Walk(env, sys, pid, pick, 3)
      == At(sys, pid, Finished(Accepted(StoredResponse(sys.db.postings[id], FindRows(sys.db.entries, id)), true)))
  {
    hide At, Apply, StoredResponse, FindRows, Walk, NextStage;
    var id := sys.runs[pid].job.req.postingId;
    SameStage(sys, pid);
    WalkThree(env, sys, pid, pick);
    LostInsert(env, sys, pid, pick, base);
    Refetched(env, sys, pid, pick);
    FetchNext(env, sys, pid, pick, sys.db.postings[id]);
  }

  lemma LostInsert(env: Env, sys: System, pid: nat, pick: nat, base: string)
    requires pid in sys.runs && sys.runs[pid].job.req.postingId in sys.db.postings
    ensures Apply(env, At(sys, pid, InsertPosting(base)), Advance(pid, pick)) == At(sys, pid, RefetchPosting)
  {
    hide At, Apply;
    ReadStep(env, sys, pid, pick, InsertPosting(base));
  }

  lemma Refetched(env: Env, sys: System, pid: nat, pick: nat)
    requires pid in sys.runs && sys.runs[pid].job.req.postingId in sys.db.postings
    ensures Apply(env, At(sys, pid, RefetchPosting), Advance(pid, pick))
         == At(sys, pid, FetchRows(sys.db.postings[sys.runs[pid].job.req.postingId]))
  {
    hide At, Apply;
    ReadStep(env, sys, pid, pick, RefetchPosting);
  }

  /** A call that fails stops its run, except while the head is read, and leaves tables, copies and
      other runs as they were. */
  lemma FailureStops(env: Env, sys: System, pid: nat)
    requires pid in sys.runs
    ensures var sys' := Apply(env, sys, CallFails(pid));
      && sys'.db == sys.db && sys'.caches == sys.caches && sys'.history == sys.history
      && sys'.runs.Keys == sys.runs.Keys && (forall q :: q in sys.runs && q != pid ==> sys'.runs[q] == sys.runs[q])
      && sys'.runs[pid].stage == (if sys.runs[pid].stage.ReadHead? || sys.runs[pid].stage.Finished?
                                  then sys.runs[pid].stage else Broken)
  {
    hide Apply, At, Cache, Move, OnlyRun;
    FailureMoves(env, sys, pid);
    AtOnlyRun(sys, pid, Broken);
    AtFacts(sys, pid, Broken);
    SameRunKeys(sys, At(sys, pid, Broken), pid);
  }

  lemma FailureMoves(env: Env, sys: System, pid: nat)
    requires pid in sys.runs
    ensures Apply(env, sys, CallFails(pid))
         == if sys.runs[pid].stage.ReadHead? || sys.runs[pid].stage.Finished? then sys else At(sys, pid, Broken)
  {
    hide Proceed, CommitStep, OpenRow, StartRun, Rebuild, OrderedRows, Genesis, At;
  }

  lemma SameRunKeys(sys: System, sys': System, pid: nat)
    requires OnlyRun(sys, sys', pid) && pid in sys.runs
    ensures sys'.runs.Keys == sys.runs.Keys
    ensures forall q :: q in sys.runs && q != pid ==> sys'.runs[q] == sys.runs[q]
  {
    hide Move;
  }

  /** And a run that has stopped never answers and never writes. */
  lemma StoppedStays(env: Env, sys: System, pid: nat, ev: Event)
    requires pid in sys.runs && sys.runs[pid].stage == Broken && Pid(ev) == Some(pid)
    ensures var sys' := Apply(env, sys, ev);
      sys'.db == sys.db && pid in sys'.runs && sys'.runs[pid].stage == Broken
  {
    hide Apply, At, Move;
    StoppedMoves(env, sys, pid, ev);
    AtTables(sys, pid, Broken);
    AtIs(sys, pid, Broken);
  }

  lemma StoppedMoves(env: Env, sys: System, pid: nat, ev: Event)
    requires pid in sys.runs && sys.runs[pid].stage == Broken && Pid(ev) == Some(pid)
    ensures Apply(env, sys, ev) == sys || Apply(env, sys, ev) == At(sys, pid, Broken)
  {
    hide CommitStep, FillCache, Emit, StartRun, OpenRow, Rebuild, OrderedRows, Genesis, At, Proceed;
    if ev.Start? {
      RunGoesOn(sys, pid, ev.replica, ev.job);
    } else if ev.Advance? {
      StoppedProceeds(env, sys, pid, ev.pick);
    }
  }

  lemma StoppedProceeds(env: Env, sys: System, pid: nat, pick: nat)
    requires pid in sys.runs && sys.runs[pid].stage == Broken
    ensures Proceed(env, sys, pid, pick) == At(sys, pid, Broken)
  {
    hide CommitStep, FillCache, Emit, At;
  }

  /** A commit whose acknowledgement is lost stands: the answer that was never given is stored. */
  lemma CommitStands(env: Env, sys: System, pid: nat, b: Batch)
    requires SysInv(env, sys) && pid in sys.runs && sys.runs[pid].stage == Committing(b) && Admissible(sys.db, b)
    ensures var sys', job := Apply(env, sys, CommitUnacknowledged(pid)), sys.runs[pid].job;
      && Stored(sys'.db, job.req.postingId, Respond(NewPosting(env, b, job)))
      && pid in sys'.runs && sys'.runs[pid].stage == Broken
  {
    hide SysInv, Admissible, CommitTables, NewPosting, Respond, Stored, BatchOf, GoodLines, Asked, BaseOk, Apply;
    var job := sys.runs[pid].job;
    CommitFacts(env, sys, pid, b);
    CommitStores(env, sys.db, b, job);
    UnseenApplies(env, sys, pid, b);
  }

  lemma UnseenApplies(env: Env, sys: System, pid: nat, b: Batch)
    requires pid in sys.runs && sys.runs[pid].stage == Committing(b) && Admissible(sys.db, b)
    ensures var sys' := Apply(env, sys, CommitUnacknowledged(pid));
      && sys'.db == CommitTables(sys.db, NewPosting(env, b, sys.runs[pid].job))
      && pid in sys'.runs && sys'.runs[pid].stage == Broken
  {
    hide Admissible, CommitTables, NewPosting, At, CommitRun, Apply;
    var job := sys.runs[pid].job;
    UnseenIsStep(env, sys, pid, b);
    CommitRunOnly(env, sys, job, b);
    AtTables(CommitRun(env, sys, job, b), pid, Broken);
    AtIs(CommitRun(env, sys, job, b), pid, Broken);
  }

  lemma UnseenIsStep(env: Env, sys: System, pid: nat, b: Batch)
    requires pid in sys.runs && sys.runs[pid].stage == Committing(b)
    ensures Apply(env, sys, CommitUnacknowledged(pid)) == CommitStep(env, sys, pid, b, Broken)
  {
    hide CommitStep, Proceed, OpenRow, StartRun, Rebuild, OrderedRows, Genesis, At;
  }

  /** Whatever happens in between, a later request with that id, in any process, is answered with
      the posting that was committed, as a replay. */
  lemma RetryIsReplay(env: Env, evs: seq<Event>, pid: nat, b: Batch, more: seq<Event>, q: nat, replica: nat,
                      again: Job, pick: nat)
    requires var sys := Play(env, Initial(), evs);
      && pid in sys.runs && sys.runs[pid].stage == Committing(b) && Admissible(sys.db, b)
      && again.req.postingId == sys.runs[pid].job.req.postingId
    requires WellFormed(again.req) && q !in Play(env, Initial(), evs + [CommitUnacknowledged(pid)] + more).runs
    ensures var job := Play(env, Initial(), evs).runs[pid].job;
      var sys' := Play(env, Initial(), evs + [CommitUnacknowledged(pid)] + more + Script(q, replica, again, pick));
      q in sys'.runs && sys'.runs[q].stage == Finished(Accepted(Respond(NewPosting(env, b, job)), true))
  {
    hide Initial, Play, Apply, SysInv, Admissible, Respond, NewPosting, Stored, Script, WellFormed;
    var sys, lost := Play(env, Initial(), evs), CommitUnacknowledged(pid);
    var resp := Respond(NewPosting(env, b, sys.runs[pid].job));
    PlayInv(env, evs);
    CommitStands(env, sys, pid, b);
    PlayConcat(env, Initial(), evs, [lost]);
    PlayOne(env, sys, lost);
    AnswersLast(env, evs + [lost], more, again.req.postingId, resp);
    PlayConcat(env, Initial(), evs + [lost] + more, Script(q, replica, again, pick));
    AnswersStored(env, Play(env, Initial(), evs + [lost] + more), q, replica, again, pick, resp);
  }

  /** A run that nothing interrupts answers with what is stored. */
  lemma AnswersStored(env: Env, sys: System, q: nat, replica: nat, again: Job, pick: nat, resp: PostingResponse)
    requires Stored(sys.db, again.req.postingId, resp) && WellFormed(again.req) && q !in sys.runs
    ensures var sys' := Play(env, sys, Script(q, replica, again, pick));
      q in sys'.runs && sys'.runs[q].stage == Finished(Accepted(resp, true))
  {
    hide Play, Stored, Script, Validate, WellFormed, StartRun, Walk, Apply, At, Move;
    ValidateExact(again.req);
    ScriptWalk(env, sys, q, replica, again, pick);
    Started(sys, q, replica, again);
    StartedReplays(env, StartRun(sys, q, replica, again), q, pick, resp);
  }

  lemma StartedReplays(env: Env, sys: System, q: nat, pick: nat, resp: PostingResponse)
    requires q in sys.runs && sys.runs[q].stage == CheckExisting
    requires Stored(sys.db, sys.runs[q].job.req.postingId, resp)
    ensures var sys' := Walk(env, sys, q, pick, 2 * |sys.runs[q].job.ids| + 9);
      q in sys'.runs && sys'.runs[q].stage == Finished(Accepted(resp, true))
  {
    hide Stored, Walk, At, Move, StoredResponse, FindRows;
    StoredAnswer(sys.db, sys.runs[q].job.req.postingId, resp);
    ReplayWalk(env, sys, q, pick, Accepted(resp, true));
    AtFacts(sys, q, Finished(Accepted(resp, true)));
  }

  lemma StoredAnswer(db: Tables, id: string, resp: PostingResponse)
    requires Stored(db, id, resp)
    ensures id in db.postings && resp == StoredResponse(db.postings[id], FindRows(db.entries, id))
  {
    hide StoredResponse, FindRows;
  }
}
