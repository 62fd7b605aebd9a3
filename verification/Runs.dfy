/** Whole runs of the in-memory ledger: what holds in every reachable state, and what one
    operation's effect is guaranteed to be later in the run. */
module Runs {
  import opened Sums
  import opened Posting
  import opened HashChain
  import opened Chart
  import opened Ledger
  import opened Links
  import opened Snapshots
  import opened Invariant

  datatype Op =
    | Open(req: CreateAccountRequest, freshId: string, clock: nat)
    | Submit(job: Job)
    | TakeSnapshots(readings: nat -> nat)

  ghost function Step(env: Env, s: LedgerState, op: Op): LedgerState {
    match op
    case Open(req, freshId, clock) => CreateAccount(s, req, freshId, clock).0
    case Submit(job) => Post(env, s, job).0
    case TakeSnapshots(readings) => s.(snapshots := SnapshotAll(s.entries, readings))
  }

  ghost function Exec(env: Env, s: LedgerState, ops: seq<Op>): LedgerState {
    if ops == [] then s else Step(env, Exec(env, s, ops[..|ops| - 1]), ops[|ops| - 1])
  }

  lemma StepInv(env: Env, s: LedgerState, op: Op)
    requires Inv(env, s)
    ensures Inv(env, Step(env, s, op))
  {
    hide Inv, Post, CreateAccount, SnapshotAll;
    match op
    case Open(req, freshId, clock) => CreateAccountInv(env, s, req, freshId, clock);
    case Submit(job) => PostInv(env, s, job);
    case TakeSnapshots(readings) => SnapshotInv(env, s, readings);
  }

  /** The invariant holds after every run. */
  lemma {:induction false} ExecInv(env: Env, s: LedgerState, ops: seq<Op>)
    requires Inv(env, s)
    ensures Inv(env, Exec(env, s, ops))
  {
    hide Inv, Step;
    if ops != [] {
      ExecInv(env, s, ops[..|ops| - 1]);
      StepInv(env, Exec(env, s, ops[..|ops| - 1]), ops[|ops| - 1]);
    }
  }

  ghost predicate Reachable(env: Env, s: LedgerState) {
    exists ops :: s == Exec(env, EmptyState(), ops)
  }

  lemma ReachableInv(env: Env, s: LedgerState)
    requires Reachable(env, s)
    ensures Inv(env, s)
  {
    hide Inv, EmptyState, Exec;
    var ops :| s == Exec(env, EmptyState(), ops);
    EmptyInv(env);
    ExecInv(env, EmptyState(), ops);
  }

  /** The chain in every reachable state: it verifies, numbers and links run without a gap, and
      every cached head is the recomputed one. */
  lemma ReachableChain(env: Env, s: LedgerState)
    requires Reachable(env, s)
    ensures Chained(env, s.entries)
    ensures s.sequence == |s.entries| && s.globalChainHead == Head(s.entries)
    ensures forall i {:trigger s.entries[i].sequenceNumber} :: 0 <= i < |s.entries| ==>
      s.entries[i].sequenceNumber == i + 1 && s.entries[i].prevHash == Before(Genesis(), s.entries, i)
    ensures forall id :: id in s.postings ==>
      && id in s.anchors && s.anchors[id].headHash == s.postings[id].hashHead
      && Rows(s.entries, id) != [] && s.postings[id].hashHead == Head(Rows(s.entries, id))
  {
    hide LinkOk, Chained, Rows, EntriesOk, Partitioned, TrialBalance, SnapshotsOk, AccountsOk, Reachable, PostingsOk;
    ReachableInv(env, s);
    forall i | 0 <= i < |s.entries| ensures s.entries[i].prevHash == Before(Genesis(), s.entries, i) {
      ChainedPrev(env, s.entries, i);
    }
    forall id | id in s.postings
      ensures Rows(s.entries, id) != [] && s.postings[id].hashHead == Head(Rows(s.entries, id))
    {
      PostingHead(s.postings, s.entries, id);
    }
  }

  lemma PostingHead(postings: map<string, PostingRecord>, log: seq<EntryRecord>, id: string)
    requires PostingsOk(postings, log) && id in postings
    ensures Rows(log, id) != [] && postings[id].hashHead == Head(Rows(log, id))
  {
    hide Rows;
    assert PostingOk(log, id, postings[id]);
  }

  lemma ChainedPrev(env: Env, log: seq<EntryRecord>, i: nat)
    requires Chained(env, log) && i < |log|
    ensures log[i].prevHash == Before(Genesis(), log, i)
  {
    assert LinkAt(env, Genesis(), log, i);
  }

  // ---------- What later operations leave alone ----------

  ghost predicate Keeps<K(!new), V>(m: map<K, V>, m': map<K, V>) {
    forall k :: k in m ==> k in m' && m'[k] == m[k]
  }

  /** Append-only growth: everything recorded in `s` is recorded unchanged in `s'`. */
  ghost predicate Grows(s: LedgerState, s': LedgerState) {
    && s.entries <= s'.entries && s.auditEvents <= s'.auditEvents
    && Keeps(s.accounts, s'.accounts) && Keeps(s.postings, s'.postings) && Keeps(s.anchors, s'.anchors)
  }

  lemma PostGrows(env: Env, s: LedgerState, job: Job)
    requires Inv(env, s) && Post(env, s, job).1.Accepted? && !Post(env, s, job).1.replay
    ensures Grows(s, Post(env, s, job).0)
  {
    hide Validate, Inv, NewPosting, Record, Post, GoodLines, UsableAccount, Respond, Grows;
    AnchorKeys(env, s);
    PostFresh(env, s, job);
    var b := BatchOf(s.globalChainHead, s.sequence, job, Validate(job.req).lines);
    RecordGrows(s, job.eventId, NewPosting(env, b, job));
  }

  lemma PostUnchanged(env: Env, s: LedgerState, job: Job)
    requires Post(env, s, job).1.Rejected? || Post(env, s, job).1.replay
    ensures Post(env, s, job).0 == s
  {
    hide Validate, NewPosting, Record, CheckAccounts;
  }

  lemma OpenGrows(s: LedgerState, req: CreateAccountRequest, freshId: string, clock: nat)
    ensures Grows(s, CreateAccount(s, req, freshId, clock).0)
  {
    hide ValidateAccount;
  }

  lemma StepGrows(env: Env, s: LedgerState, op: Op)
    requires Inv(env, s)
    ensures Grows(s, Step(env, s, op))
  {
    hide Inv, Post, SnapshotAll, CreateAccount, Grows;
    match op
    case Open(req, freshId, clock) => OpenGrows(s, req, freshId, clock);
    case Submit(job) =>
      if Post(env, s, job).1.Accepted? && !Post(env, s, job).1.replay {
        PostGrows(env, s, job);
      } else {
        PostUnchanged(env, s, job);
        GrowsSame(s, s.snapshots);
      }
    case TakeSnapshots(readings) => GrowsSame(s, SnapshotAll(s.entries, readings));
  }

  lemma GrowsSame(s: LedgerState, snaps: seq<BalanceSnapshot>)
    ensures Grows(s, s) && Grows(s, s.(snapshots := snaps))
  {
  }

  lemma AnchorKeys(env: Env, s: LedgerState)
    requires Inv(env, s)
    ensures s.anchors.Keys == s.postings.Keys
  {
  }

  lemma RecordGrows(s: LedgerState, eventId: string, p: PostingRecord)
    requires p.postingId !in s.postings && s.anchors.Keys == s.postings.Keys
    ensures Grows(s, Record(s, eventId, p))
  {
    hide EventOf, AnchorOf;
    assert p.postingId !in s.anchors.Keys;
  }

  /** Over any run the log and the audit events only gain a suffix, and no account, posting or
      anchor ever changes. */
  lemma {:induction false} ExecGrows(env: Env, s: LedgerState, ops: seq<Op>)
    requires Inv(env, s)
    ensures Grows(s, Exec(env, s, ops))
  {
    hide Inv, Step, EmptyState;
    if ops != [] {
      var mid := Exec(env, s, ops[..|ops| - 1]);
      ExecInv(env, s, ops[..|ops| - 1]);
      ExecGrows(env, s, ops[..|ops| - 1]);
      StepGrows(env, mid, ops[|ops| - 1]);
    }
  }

  /** Once an id has been committed, then after any further run every well-formed request with
      that id gets the original response, flagged as a replay, and changes nothing. */
  lemma ReplayAfterCommit(env: Env, s: LedgerState, job: Job, ops: seq<Op>, again: Job)
    requires Inv(env, s)
    requires Post(env, s, job).1.Accepted? && !Post(env, s, job).1.replay
    requires again.req.postingId == job.req.postingId && WellFormed(again.req)
    ensures var s' := Exec(env, Post(env, s, job).0, ops);
      Post(env, s', again) == (s', Accepted(Post(env, s, job).1.response, true))
  {
    hide Inv, Validate, WellFormed, Fresh, Exec, Respond;
    PostFresh(env, s, job);
    PostInv(env, s, job);
    ExecGrows(env, Post(env, s, job).0, ops);
    ValidateExact(again.req);
  }

  // ---------- Balances over all accounts ----------

  function InAccounts(ids: set<string>, asset: string): EntryRecord -> int {
    (e: EntryRecord) => if e.accountId in ids && (asset == "" || e.asset == asset) then Delta(e) else 0
  }

  /** The balances of some accounts, added up in whatever order. */
  ghost function SumOver(ids: set<string>, log: seq<EntryRecord>, asset: string): int {
    if ids == {} then 0
    else
      var id :| id in ids;
      Balance(log, id, asset) + SumOver(ids - {id}, log, asset)
  }

  lemma AddAccount(log: seq<EntryRecord>, ids: set<string>, id: string, asset: string)
    requires id !in ids
    ensures Sum(log, InAccounts(ids + {id}, asset)) == Sum(log, InAccounts(ids, asset)) + Balance(log, id, asset)
  {
    SumSplit(log, InAccounts(ids + {id}, asset), InAccounts(ids, asset), Contribution(id, asset));
  }

  /** Adding up balances account by account is one pass over the log. */
  lemma {:induction false} OnePass(ids: set<string>, log: seq<EntryRecord>, asset: string)
    ensures SumOver(ids, log, asset) == Sum(log, InAccounts(ids, asset))
  {
    if ids == {} {
      SumZero(log, InAccounts(ids, asset));
    } else {
      var id :| id in ids && SumOver(ids, log, asset) == Balance(log, id, asset) + SumOver(ids - {id}, log, asset);
      OnePass(ids - {id}, log, asset);
      AddAccount(log, ids - {id}, id, asset);
      assert ids - {id} + {id} == ids;
    }
  }

  // ---------- All assets together ----------

  const REGISTERED: seq<string> := ["USD", "EUR", "GBP", "USDC", "BTC", "ETH"]

  function InAssets(codes: seq<string>): EntryRecord -> int {
    (e: EntryRecord) => if e.asset in codes then Delta(e) else 0
  }

  lemma {:induction false} SomeAssets(log: seq<EntryRecord>, codes: seq<string>)
    requires TrialBalance(log) && "" !in codes && Distinct(codes)
    ensures Sum(log, InAssets(codes)) == 0
  {
    hide Delta;
    if codes == [] {
      SumZero(log, InAssets(codes));
    } else {
      var front, last := codes[..|codes| - 1], codes[|codes| - 1];
      SomeAssets(log, front);
      assert codes == front + [last];
      assert last in codes && last !in front && Sum(log, AssetDelta(last)) == 0;
      SumSplit(log, InAssets(codes), InAssets(front), AssetDelta(last));
    }
  }

  lemma RegisteredCodes()
    ensures "" !in REGISTERED && Distinct(REGISTERED)
    ensures forall code :: FindAsset(code).Some? ==> code in REGISTERED
  {
    var r := REGISTERED;
    assert |r[3]| == 4 && r[0][0] != r[1][0] && r[0][0] != r[2][0] && r[0][0] != r[4][0] && r[0][0] != r[5][0];
    assert r[1][0] != r[2][0] && r[1][0] != r[4][0] && r[1][1] != r[5][1] && r[2][0] != r[4][0] && r[2][0] != r[5][0];
    assert r[4][0] != r[5][0];
    forall code | FindAsset(code).Some? ensures code in REGISTERED {
      assert code == r[0] || code == r[1] || code == r[2] || code == r[3] || code == r[4] || code == r[5];
    }
  }

  /** Nor do all assets together gain or lose anything: every entry is in a registered asset. */
  lemma NothingOverall(accounts: map<string, Account>, ids: set<string>, log: seq<EntryRecord>, asset: string)
    requires EntriesOk(accounts, ids, log) && TrialBalance(log)
    ensures Sum(log, AssetDelta(asset)) == 0
  {
    hide Delta, FindAsset, Distinct;
    if asset == "" {
      RegisteredCodes();
      SomeAssets(log, REGISTERED);
      forall i | 0 <= i < |log| ensures InAssets(REGISTERED)(log[i]) == AssetDelta("")(log[i]) {
        assert EntryOk(accounts, log[i]);
      }
      SumZip(log, InAssets(REGISTERED), log, AssetDelta(""));
    }
  }

  /** In every reachable state the balances of all accounts cancel, in each asset and, for the empty
      name, in all assets together. */
  lemma AccountsCancel(env: Env, s: LedgerState, asset: string)
    requires Inv(env, s)
    ensures SumOver(s.accounts.Keys, s.entries, asset) == 0
  {
    hide Chained, PostingsOk, AnchorsOk, Partitioned, SnapshotsOk, Numbered, AccountsOk, SumOver, EntriesOk,
      TrialBalance;
    OnePass(s.accounts.Keys, s.entries, asset);
    AllAccounts(s.accounts, s.postings.Keys, s.entries, asset);
    NothingOverall(s.accounts, s.postings.Keys, s.entries, asset);
  }

  /** Every entry belongs to some account. */
  lemma AllAccounts(accounts: map<string, Account>, ids: set<string>, log: seq<EntryRecord>, asset: string)
    requires EntriesOk(accounts, ids, log)
    ensures Sum(log, InAccounts(accounts.Keys, asset)) == Sum(log, AssetDelta(asset))
  {
    hide Delta, FindAsset;
    forall i | 0 <= i < |log| ensures InAccounts(accounts.Keys, asset)(log[i]) == AssetDelta(asset)(log[i]) {
      assert EntryOk(accounts, log[i]);
    }
    SumZip(log, InAccounts(accounts.Keys, asset), log, AssetDelta(asset));
  }

  function Custodial(accounts: map<string, Account>): set<string> {
    set id | id in accounts && accounts[id].typeName == "user_custodial"
  }

  /** The entries of accounts of one type. */
  function OfType(accounts: map<string, Account>, typeName: string, asset: string): EntryRecord -> int {
    (e: EntryRecord) =>
      if e.accountId in accounts && accounts[e.accountId].typeName == typeName && (asset == "" || e.asset == asset) then
        Delta(e)
      else 0
  }

  lemma CustodialType(accounts: map<string, Account>, log: seq<EntryRecord>, asset: string)
    ensures Sum(log, InAccounts(Custodial(accounts), asset)) == Sum(log, OfType(accounts, "user_custodial", asset))
  {
    hide Delta;
    SumZip(log, InAccounts(Custodial(accounts), asset), log, OfType(accounts, "user_custodial", asset));
  }

  /** What users are owed is exactly what all other accounts hold against it. */
  lemma CustodialLiability(env: Env, s: LedgerState, asset: string)
    requires Inv(env, s)
    ensures SumOver(Custodial(s.accounts), s.entries, asset)
         == -SumOver(s.accounts.Keys - Custodial(s.accounts), s.entries, asset)
  {
    hide Inv, SumOver;
    var users, all := Custodial(s.accounts), s.accounts.Keys;
    AccountsCancel(env, s, asset);
    OnePass(users, s.entries, asset);
    OnePass(all, s.entries, asset);
    OnePass(all - users, s.entries, asset);
    SumSplit(s.entries, InAccounts(all, asset), InAccounts(users, asset), InAccounts(all - users, asset));
  }

  /** Amounts are bounded, so no fold over entries of the log (a balance, a page scan, a custodial
      sum, or any part of one) can leave the 128-bit range while sequence numbers fit 64 bits. */
  lemma FoldBound(env: Env, s: LedgerState, es: seq<EntryRecord>, f: EntryRecord -> int)
    requires Inv(env, s) && |es| <= |s.entries| < 0x1_0000_0000_0000_0000
    requires forall i :: 0 <= i < |es| ==> es[i] in s.entries && (f(es[i]) == 0 || f(es[i]) == Delta(es[i]))
    ensures var sum := Sum(es, f);
      -(MAX_AMOUNT * |es|) <= sum <= MAX_AMOUNT * |es|
      && -0x8000_0000_0000_0000_0000_0000_0000_0000 <= sum < 0x8000_0000_0000_0000_0000_0000_0000_0000
  {
    hide Inv, Sum, Delta;
    forall i | 0 <= i < |es| ensures -(MAX_AMOUNT as int) <= f(es[i]) <= MAX_AMOUNT {
      DeltaBound(env, s, es[i]);
    }
    SumBound(es, f, MAX_AMOUNT);
  }

  lemma DeltaBound(env: Env, s: LedgerState, e: EntryRecord)
    requires Inv(env, s) && e in s.entries
    ensures -(MAX_AMOUNT as int) <= Delta(e) <= MAX_AMOUNT
  {
    hide Chained, PostingsOk, AnchorsOk, Partitioned, SnapshotsOk, Numbered, AccountsOk, TrialBalance, FindAsset;
    var k :| 0 <= k < |s.entries| && s.entries[k] == e;
    assert EntryOk(s.accounts, s.entries[k]);
  }

  /** The log of every reachable state is cut into the postings' entry lists: audit events and
      postings correspond one to one, and the lists follow each other in the log without gap or
      overlap; every entry names an account, a known asset and an amount in range. */
  lemma ReachablePartition(env: Env, s: LedgerState)
    requires Reachable(env, s)
    ensures Partitioned(s.auditEvents, s.postings, s.entries)
    ensures PostingsOk(s.postings, s.entries) && AnchorsOk(s.anchors, s.postings)
    ensures EntriesOk(s.accounts, s.postings.Keys, s.entries)
  {
    hide Chained, PostingsOk, AnchorsOk, Partitioned, SnapshotsOk, Numbered, AccountsOk,
      TrialBalance, EntriesOk, Reachable;
    ReachableInv(env, s);
  }
}
