/** Batches of postings in any order, and postings that undo each other. */
module Orders {
  import opened Text
  import opened Sums
  import opened Posting
  import opened Chart
  import opened Ledger
  import opened Links
  import opened Invariant
  import opened Runs

  // ---------- The effect of one posting ----------

  /** Whether a job with a new posting id is accepted; only the accounts matter. */
  ghost predicate Acceptable(accounts: map<string, Account>, job: Job) {
    Validate(job.req).Good? && CheckAccounts(accounts, Validate(job.req).lines).None?
  }

  /** What an accepted job adds to a balance. */
  ghost function Effect(accounts: map<string, Account>, job: Job, accountId: string, asset: string): int {
    if Acceptable(accounts, job) then Sum(Validate(job.req).lines, LineDelta(accountId, asset)) else 0
  }

  lemma PostEffect(env: Env, s: LedgerState, job: Job, accountId: string, asset: string)
    requires job.req.postingId !in s.postings
    ensures var (s', out) := Post(env, s, job);
      && (out.Accepted? <==> Acceptable(s.accounts, job)) && (out.Accepted? ==> !out.replay)
      && Balance(s'.entries, accountId, asset)
        == Balance(s.entries, accountId, asset) + Effect(s.accounts, job, accountId, asset)
      && s'.accounts == s.accounts
      && s'.postings.Keys == s.postings.Keys + (if Acceptable(s.accounts, job) then {job.req.postingId} else {})
  {
    hide Validate, CheckAccounts, Balance, Respond, BatchOf, LineDelta, NewPosting, Record;
    if Acceptable(s.accounts, job) {
      var b := BatchOf(s.globalChainHead, s.sequence, job, Validate(job.req).lines);
      BatchLines(s.globalChainHead, s.sequence, job, Validate(job.req).lines);
      RecordEffect(env, s, b, job, accountId, asset);
    }
  }

  lemma RecordEffect(env: Env, s: LedgerState, b: Batch, job: Job, accountId: string, asset: string)
    ensures var s' := Record(s, job.eventId, NewPosting(env, b, job));
      && Balance(s'.entries, accountId, asset)
        == Balance(s.entries, accountId, asset) + Sum(b.lines, LineDelta(accountId, asset))
      && s'.accounts == s.accounts && s'.postings.Keys == s.postings.Keys + {job.req.postingId}
  {
    hide Link, Balance, EventOf, AnchorOf, LineDelta, Decimal;
    LinkedBalance(env, b, accountId, asset);
    BalanceConcat(s.entries, Link(env, b), accountId, asset);
  }

  lemma BatchLines(prev: string, sequence: nat, job: Job, lines: seq<Line>)
    requires |lines| == |job.ids|
    ensures BatchOf(prev, sequence, job, lines).lines == lines
  {
  }

  lemma BalanceConcat(a: seq<EntryRecord>, b: seq<EntryRecord>, accountId: string, asset: string)
    ensures Balance(a + b, accountId, asset) == Balance(a, accountId, asset) + Balance(b, accountId, asset)
  {
    SumConcat(a, b, Contribution(accountId, asset));
  }

  // ---------- Batches ----------

  ghost function PostAll(env: Env, s: LedgerState, jobs: seq<Job>): LedgerState {
    if jobs == [] then s else Post(env, PostAll(env, s, jobs[..|jobs| - 1]), jobs[|jobs| - 1]).0
  }

  /** Distinct posting ids, none of them used yet. */
  ghost predicate FreshBatch(s: LedgerState, jobs: seq<Job>) {
    && (forall i :: 0 <= i < |jobs| ==> jobs[i].req.postingId !in s.postings)
    && (forall i, j :: 0 <= i < j < |jobs| ==> jobs[i].req.postingId != jobs[j].req.postingId)
  }

  ghost function EffectOn(accounts: map<string, Account>, accountId: string, asset: string): Job -> int {
    (job: Job) => Effect(accounts, job, accountId, asset)
  }

  function JobIds(jobs: seq<Job>): set<string> {
    if jobs == [] then {} else JobIds(jobs[..|jobs| - 1]) + {jobs[|jobs| - 1].req.postingId}
  }

  lemma {:induction false} NotAmong(jobs: seq<Job>, id: string)
    requires forall i :: 0 <= i < |jobs| ==> jobs[i].req.postingId != id
    ensures id !in JobIds(jobs)
  {
    if jobs != [] {
      NotAmong(jobs[..|jobs| - 1], id);
    }
  }

  /** What a batch does: to the accounts nothing, to the ids at most its own, to each balance the
      sum of its jobs' effects. */
  ghost predicate BatchDid(s: LedgerState, s': LedgerState, jobs: seq<Job>, accountId: string, asset: string) {
    && s'.accounts == s.accounts
    && s'.postings.Keys <= s.postings.Keys + JobIds(jobs)
    && Balance(s'.entries, accountId, asset)
       == Balance(s.entries, accountId, asset) + Sum(jobs, EffectOn(s.accounts, accountId, asset))
  }

  lemma BatchNext(env: Env, s: LedgerState, before: LedgerState, jobs: seq<Job>, accountId: string, asset: string)
    requires jobs != [] && FreshBatch(s, jobs) && BatchDid(s, before, jobs[..|jobs| - 1], accountId, asset)
    ensures jobs[|jobs| - 1].req.postingId !in before.postings
    ensures BatchDid(s, Post(env, before, jobs[|jobs| - 1]).0, jobs, accountId, asset)
  {
    hide Post, Balance, Effect, Acceptable;
    var n := |jobs| - 1;
    NotAmong(jobs[..n], jobs[n].req.postingId);
    assert jobs[n].req.postingId !in before.postings.Keys;
    PostEffect(env, before, jobs[n], accountId, asset);
  }

  lemma {:induction false} PostAllEffect(env: Env, s: LedgerState, jobs: seq<Job>, accountId: string, asset: string)
    requires FreshBatch(s, jobs)
    ensures BatchDid(s, PostAll(env, s, jobs), jobs, accountId, asset)
  {
    hide Post, BatchDid;
    if jobs == [] {
      NothingDone(s, accountId, asset);
    } else {
      PostAllEffect(env, s, jobs[..|jobs| - 1], accountId, asset);
      BatchNext(env, s, PostAll(env, s, jobs[..|jobs| - 1]), jobs, accountId, asset);
    }
  }

  lemma NothingDone(s: LedgerState, accountId: string, asset: string)
    ensures BatchDid(s, s, [], accountId, asset)
  {
  }

  /** Whether a job of a fresh batch is accepted does not depend on what was posted before it. */
  lemma AcceptedAnywhere(env: Env, s: LedgerState, jobs: seq<Job>, i: nat)
    requires FreshBatch(s, jobs) && i < |jobs|
    ensures Post(env, PostAll(env, s, jobs[..i]), jobs[i]).1.Accepted? <==> Acceptable(s.accounts, jobs[i])
  {
    hide Post, Acceptable, PostAll, Balance;
    var before, upTo := PostAll(env, s, jobs[..i]), jobs[..i + 1];
    PostAllEffect(env, s, jobs[..i], "", "");
    assert upTo[..i] == jobs[..i];
    BatchNext(env, s, before, upTo, "", "");
    PostEffect(env, before, jobs[i], "", "");
  }

  // ---------- Permutations ----------

  lemma PermutedBatch(s: LedgerState, jobs: seq<Job>, jobs': seq<Job>)
    requires FreshBatch(s, jobs) && multiset(jobs) == multiset(jobs')
    ensures FreshBatch(s, jobs')
  {
    forall i | 0 <= i < |jobs'| ensures jobs'[i].req.postingId !in s.postings {
      assert jobs'[i] in multiset(jobs);
      var k := Locate(jobs, jobs'[i]);
    }
    DistinctInAnyOrder(jobs, jobs', (job: Job) => job.req.postingId);
  }

  /** Posting a batch of fresh postings in another order leaves every balance the same. */
  lemma OrderIndependent(env: Env, s: LedgerState, jobs: seq<Job>, jobs': seq<Job>, accountId: string, asset: string)
    requires FreshBatch(s, jobs) && multiset(jobs) == multiset(jobs')
    ensures Balance(PostAll(env, s, jobs).entries, accountId, asset)
      == Balance(PostAll(env, s, jobs').entries, accountId, asset)
  {
    hide Post, PostAll, Balance, FreshBatch, Acceptable, Effect;
    PermutedBatch(s, jobs, jobs');
    PostAllEffect(env, s, jobs, accountId, asset);
    PostAllEffect(env, s, jobs', accountId, asset);
    SumPermute(jobs, jobs', EffectOn(s.accounts, accountId, asset));
  }

  /** And the same postings are accepted, wherever in the batch they stand. */
  lemma SameAnswersInAnyOrder(env: Env, s: LedgerState, jobs: seq<Job>, jobs': seq<Job>, i: nat, j: nat)
    requires FreshBatch(s, jobs) && multiset(jobs) == multiset(jobs')
    requires i < |jobs| && j < |jobs'| && jobs[i] == jobs'[j]
    ensures Post(env, PostAll(env, s, jobs[..i]), jobs[i]).1.Accepted?
       <==> Post(env, PostAll(env, s, jobs'[..j]), jobs'[j]).1.Accepted?
  {
    hide Post, PostAll, FreshBatch, Acceptable;
    PermutedBatch(s, jobs, jobs');
    AcceptedAnywhere(env, s, jobs, i);
    AcceptedAnywhere(env, s, jobs', j);
  }

  // ---------- Reversal ----------

  function FlipText(direction: string): string {
    if direction == "DEBIT" then "CREDIT" else if direction == "CREDIT" then "DEBIT" else direction
  }

  function FlipEntry(e: EntryInput): EntryInput {
    e.(direction := FlipText(e.direction))
  }

  function FlipEntries(es: seq<EntryInput>): (r: seq<EntryInput>)
    ensures |r| == |es| && forall i :: 0 <= i < |es| ==> r[i] == FlipEntry(es[i])
  {
    seq(|es|, i requires 0 <= i < |es| => FlipEntry(es[i]))
  }

  lemma FlipSides(es: seq<EntryInput>, asset: string)
    requires forall e :: e in es ==> e.direction in {"DEBIT", "CREDIT"}
    ensures Side(FlipEntries(es), "DEBIT", asset) == Side(es, "CREDIT", asset)
    ensures Side(FlipEntries(es), "CREDIT", asset) == Side(es, "DEBIT", asset)
  {
    var flipped := FlipEntries(es);
    forall i | 0 <= i < |es|
      ensures SideAmount("DEBIT", asset)(flipped[i]) == SideAmount("CREDIT", asset)(es[i])
      ensures SideAmount("CREDIT", asset)(flipped[i]) == SideAmount("DEBIT", asset)(es[i])
    {
      assert es[i] in es;
    }
    SumZip(flipped, SideAmount("DEBIT", asset), es, SideAmount("CREDIT", asset));
    SumZip(flipped, SideAmount("CREDIT", asset), es, SideAmount("DEBIT", asset));
  }

  lemma FlipWellFormed(req: PostingRequest, flipped: PostingRequest)
    requires WellFormed(req) && flipped.entries == FlipEntries(req.entries)
    ensures WellFormed(flipped)
  {
    hide Side;
    forall e | e in flipped.entries
      ensures 1 <= e.amount <= 1_000_000_000_000
        && e.asset in {"USD", "EUR", "GBP", "BTC", "ETH", "USDC"} && e.direction in {"DEBIT", "CREDIT"}
    {
      var i :| 0 <= i < |flipped.entries| && flipped.entries[i] == e;
      assert req.entries[i] in req.entries;
    }
    forall asset ensures Side(flipped.entries, "DEBIT", asset) == Side(flipped.entries, "CREDIT", asset) {
      FlipSides(req.entries, asset);
    }
  }

  lemma FlipDelta(es: seq<EntryInput>, accountId: string, asset: string)
    requires forall e :: e in es ==> ParseDirection(e.direction).Some?
    requires forall e :: e in FlipEntries(es) ==> ParseDirection(e.direction).Some?
    ensures Sum(ParseLines(FlipEntries(es)), LineDelta(accountId, asset))
      == -Sum(ParseLines(es), LineDelta(accountId, asset))
  {
    var lines, flipped := ParseLines(es), ParseLines(FlipEntries(es));
    var minus := (l: Line) => -LineDelta(accountId, asset)(l);
    forall i | 0 <= i < |lines| ensures LineDelta(accountId, asset)(flipped[i]) == minus(lines[i]) {
      assert es[i] in es && FlipEntries(es)[i] in FlipEntries(es);
    }
    SumZip(flipped, LineDelta(accountId, asset), lines, minus);
    SumNegate(lines, minus, LineDelta(accountId, asset));
  }

  /** The flipped copy of an acceptable posting is acceptable and has the opposite effect. */
  lemma FlipEffect(accounts: map<string, Account>, job: Job, undo: Job, accountId: string, asset: string)
    requires Acceptable(accounts, job) && undo.req.entries == FlipEntries(job.req.entries)
    ensures Acceptable(accounts, undo)
    ensures Effect(accounts, undo, accountId, asset) == -Effect(accounts, job, accountId, asset)
  {
    hide Validate, WellFormed, CheckAccounts, UsableAccount;
    ValidateExact(job.req);
    FlipWellFormed(job.req, undo.req);
    ValidateExact(undo.req);
    GoodDirections(job.req);
    GoodDirections(undo.req);
    AccountsExact(accounts, Validate(job.req).lines);
    AccountsExact(accounts, Validate(undo.req).lines);
    LinesNameAccounts(job.req.entries, accounts);
    LinesNameAccounts(undo.req.entries, accounts);
    FlipKeepsAccounts(job.req.entries, accounts);
    FlipDelta(job.req.entries, accountId, asset);
  }

  lemma FlipKeepsAccounts(es: seq<EntryInput>, accounts: map<string, Account>)
    requires forall e :: e in es ==> UsableAccount(accounts, e.accountId)
    ensures forall e :: e in FlipEntries(es) ==> UsableAccount(accounts, e.accountId)
  {
    hide UsableAccount;
    forall e | e in FlipEntries(es) ensures UsableAccount(accounts, e.accountId) {
      var i :| 0 <= i < |es| && FlipEntries(es)[i] == e;
      assert es[i] in es;
    }
  }

  lemma SubmitAccepted(env: Env, s: LedgerState, job: Job)
    requires Post(env, s, job).1.Accepted? && !Post(env, s, job).1.replay
    ensures job.req.postingId !in s.postings && Acceptable(s.accounts, job)
  {
    hide Validate, CheckAccounts, NewPosting, Record, Respond;
  }

  /** Corrections are reversing postings: after any further run, the direction-flipped copy of an
      accepted posting, under a fresh id, is accepted and takes back exactly what that posting had
      done to every balance. */
  lemma ReversalUndoes(env: Env, s: LedgerState, job: Job, ops: seq<Op>, undo: Job, accountId: string, asset: string)
    requires Inv(env, s) && Post(env, s, job).1.Accepted? && !Post(env, s, job).1.replay
    requires undo.req.entries == FlipEntries(job.req.entries)
    requires undo.req.postingId !in Exec(env, Post(env, s, job).0, ops).postings
    ensures var done := Post(env, s, job).0;
      var later := Exec(env, done, ops);
      var (undone, outcome) := Post(env, later, undo);
      && outcome.Accepted? && !outcome.replay
      && Balance(undone.entries, accountId, asset) - Balance(later.entries, accountId, asset)
         == Balance(s.entries, accountId, asset) - Balance(done.entries, accountId, asset)
  {
    hide Inv, Post, Exec, Balance, Effect, Acceptable, FlipEntries;
    SubmitAccepted(env, s, job);
    PostEffect(env, s, job, accountId, asset);
    PostInv(env, s, job);
    var later := Exec(env, Post(env, s, job).0, ops);
    ExecGrows(env, Post(env, s, job).0, ops);
    StillAcceptable(s.accounts, later.accounts, job, accountId, asset);
    FlipEffect(later.accounts, job, undo, accountId, asset);
    PostEffect(env, later, undo, accountId, asset);
  }

  /** More accounts do not make an acceptable posting unacceptable. */
  lemma StillAcceptable(accounts: map<string, Account>, accounts': map<string, Account>, job: Job, accountId: string,
                        asset: string)
    requires Acceptable(accounts, job) && Keeps(accounts, accounts')
    ensures Acceptable(accounts', job)
    ensures Effect(accounts', job, accountId, asset) == Effect(accounts, job, accountId, asset)
  {
    hide Validate, CheckAccounts, FindType;
    AccountsExact(accounts, Validate(job.req).lines);
    AccountsExact(accounts', Validate(job.req).lines);
  }
}
