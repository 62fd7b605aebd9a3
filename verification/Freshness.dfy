/** Runs whose generated entry ids are unique, as UUIDs are. */
module Freshness {
  import opened Posting
  import opened HashChain
  import opened Chart
  import opened Ledger
  import opened Links
  import opened Invariant
  import opened Acceleration
  import opened Runs

  ghost predicate NewIds(log: seq<EntryRecord>, ids: seq<string>) {
    && Distinct(ids)
    && (forall id :: id in ids ==> id != "" && '|' !in id)
    && (forall e :: e in log ==> e.entryId !in ids)
  }

  ghost predicate FreshRun(env: Env, ops: seq<Op>) {
    ops == [] ||
      (FreshRun(env, ops[..|ops| - 1])
       && (ops[|ops| - 1].Submit? ==>
            NewIds(Exec(env, EmptyState(), ops[..|ops| - 1]).entries, ops[|ops| - 1].job.ids)))
  }

  lemma IdsAppend(env: Env, log: seq<EntryRecord>, b: Batch)
    requires IdsOk(log) && NewIds(log, b.ids)
    ensures IdsOk(log + Link(env, b))
  {
    hide Link;
    var es := Link(env, b);
    forall i | 0 <= i < |es| ensures es[i].entryId == b.ids[i] && es[i].entryId in b.ids {
      LinkedFields(env, b, i);
    }
    forall i, j | 0 <= i < j < |log + es| ensures (log + es)[i].entryId != (log + es)[j].entryId {
      if i < |log| && j >= |log| {
        assert log[i] in log;
      }
    }
  }

  lemma PostIds(env: Env, s: LedgerState, job: Job)
    requires IdsOk(s.entries) && NewIds(s.entries, job.ids)
    ensures IdsOk(Post(env, s, job).0.entries)
  {
    hide IdsOk, NewIds, Post, Link, Respond, Validate, Fresh;
    if Post(env, s, job).1.Accepted? && !Post(env, s, job).1.replay {
      PostFresh(env, s, job);
      IdsAppend(env, s.entries, BatchOf(s.globalChainHead, s.sequence, job, Validate(job.req).lines));
    } else {
      PostUnchanged(env, s, job);
    }
  }

  lemma StepIds(env: Env, s: LedgerState, op: Op)
    requires IdsOk(s.entries) && (op.Submit? ==> NewIds(s.entries, op.job.ids))
    ensures IdsOk(Step(env, s, op).entries)
  {
    hide IdsOk, NewIds, Post, ValidateAccount;
    if op.Submit? {
      PostIds(env, s, op.job);
    }
  }

  /** With fresh ids, entry ids are distinct and free of separators in every reachable state. */
  lemma {:induction false} FreshRunIds(env: Env, ops: seq<Op>)
    requires FreshRun(env, ops)
    ensures IdsOk(Exec(env, EmptyState(), ops).entries)
  {
    hide IdsOk, NewIds, Step, EmptyState;
    if ops == [] {
      EmptyIds();
    } else {
      FreshRunIds(env, ops[..|ops| - 1]);
      StepIds(env, Exec(env, EmptyState(), ops[..|ops| - 1]), ops[|ops| - 1]);
    }
  }

  lemma EmptyIds()
    ensures IdsOk(EmptyState().entries)
  {
  }

  lemma AssetPipeFree(code: string)
    requires FindAsset(code).Some?
    ensures '|' !in code
  {
  }

  /** Hence every log a run can produce meets the conditions of the tamper-evidence theorem. */
  lemma ReachablePipeFree(env: Env, ops: seq<Op>)
    requires FreshRun(env, ops)
    ensures var log := Exec(env, EmptyState(), ops).entries; Chained(env, log) && PipeFreeLog(log)
  {
    hide Chained, PostingsOk, Partitioned, AnchorsOk, SnapshotsOk, AccountsOk, Numbered, TrialBalance, FreshRun, Exec,
      FindAsset, EmptyState;
    FreshRunIds(env, ops);
    EmptyInv(env);
    ExecInv(env, EmptyState(), ops);
    var s := Exec(env, EmptyState(), ops);
    forall e | e in s.entries ensures PipeFreeEntry(e) {
      var i :| 0 <= i < |s.entries| && s.entries[i] == e;
      assert EntryOk(s.accounts, s.entries[i]);
      AssetPipeFree(e.asset);
    }
  }

  /** Two runs of a deployment that end with the same head have recorded the same history, unless
      comparing their logs exhibits a hash collision or a preimage of the genesis hash. */
  lemma SameHeadSameHistory(env: Env, ops: seq<Op>, ops': seq<Op>)
    requires FreshRun(env, ops) && FreshRun(env, ops')
    requires Exec(env, EmptyState(), ops).globalChainHead == Exec(env, EmptyState(), ops').globalChainHead
    ensures var a, b := Exec(env, EmptyState(), ops).entries, Exec(env, EmptyState(), ops').entries;
      && Chained(env, a) && Chained(env, b) && Genuine(env, Compare(env, a, b))
      && (Compare(env, a, b).Agree? ==> SameLog(a, b))
  {
    hide Chained, PostingsOk, Partitioned, AnchorsOk, SnapshotsOk, AccountsOk, Numbered, TrialBalance, EntriesOk,
      FreshRun, Exec, PipeFreeLog, Compare, SameLog, Genuine, EmptyState;
    ReachablePipeFree(env, ops);
    ReachablePipeFree(env, ops');
    EmptyInv(env);
    ExecInv(env, EmptyState(), ops);
    ExecInv(env, EmptyState(), ops');
    TamperEvident(env, Exec(env, EmptyState(), ops).entries, Exec(env, EmptyState(), ops').entries);
  }

  /** With separator-free account ids, a deployment's head is evidence against any other log at all:
      one that verifies with the same head records the same history, or exhibits a hash defect. */
  lemma HeadIsEvidence(env: Env, ops: seq<Op>, other: seq<EntryRecord>)
    requires FreshRun(env, ops) && Chained(env, other)
    requires forall id :: id in Exec(env, EmptyState(), ops).accounts ==> '|' !in id
    requires Head(other) == Exec(env, EmptyState(), ops).globalChainHead
    ensures var log := Exec(env, EmptyState(), ops).entries;
      && Chained(env, log) && Genuine(env, Compare(env, log, other))
      && (Compare(env, log, other).Agree? ==> SameLog(log, other))
  {
    hide Chained, PostingsOk, Partitioned, AnchorsOk, SnapshotsOk, AccountsOk, Numbered, TrialBalance, FreshRun, Exec,
      FindAsset, EmptyState, Compare, SameLog, Genuine, Head, PipeFreeEntry;
    ReachablePipeFree(env, ops);
    EmptyInv(env);
    ExecInv(env, EmptyState(), ops);
    var s := Exec(env, EmptyState(), ops);
    forall i | 0 <= i < |s.entries| ensures PlainEntry(s.entries[i]) {
      assert s.entries[i] in s.entries && EntryOk(s.accounts, s.entries[i]);
    }
    TamperEvident(env, s.entries, other);
  }
}
