/** Two ordinary runs: after one, the balance over all assets reads wrong through a snapshot; after
    the other, an entry can be moved to another account and the log still verifies. */
module Witness {
  import opened Text
  import opened Sums
  import opened Posting
  import opened HashChain
  import opened Chart
  import opened Ledger
  import opened Links
  import opened Snapshots
  import opened Invariant
  import opened Runs
  import opened Orders
  import opened Treasury

  function AccountNamed(id: string): Op {
    Open(CreateAccountRequest(Some(id), "user_custodial", "BOTH", "", None), "", 0)
  }

  function Deposit(postingId: string, asset: string, amount: nat): Op {
    Submit(Job(HedgeRequest(postingId, "a", "b", asset, amount), [postingId + "1", postingId + "2"], "", 0))
  }

  function Midnight(): nat -> nat {
    (k: nat) => 0
  }

  /** Two accounts; 5 units of one asset, then 7 of another; then snapshots. */
  function TwoDeposits(): seq<Op> {
    [AccountNamed("a"), AccountNamed("b"), Deposit("p", "USD", 5), Deposit("q", "BTC", 7), TakeSnapshots(Midnight())]
  }

  /** What matters of an entry here. */
  predicate Is(e: EntryRecord, accountId: string, direction: string, amount: nat, asset: string, sequence: nat) {
    e.accountId == accountId && e.direction == direction && e.amount == amount && e.asset == asset
      && e.sequenceNumber == sequence
  }

  predicate IsLog(log: seq<EntryRecord>) {
    && |log| == 4
    && Is(log[0], "a", "DEBIT", 5, "USD", 1) && Is(log[1], "b", "CREDIT", 5, "USD", 2)
    && Is(log[2], "a", "DEBIT", 7, "BTC", 3) && Is(log[3], "b", "CREDIT", 7, "BTC", 4)
  }

  lemma FourTerms<T>(s: seq<T>, f: T -> int)
    requires |s| == 4
    ensures Sum(s, f) == f(s[0]) + f(s[1]) + f(s[2]) + f(s[3])
  {
    TwoTerms(s[0], s[1], f);
    TwoTerms(s[2], s[3], f);
    SumConcat([s[0], s[1]], [s[2], s[3]], f);
    assert [s[0], s[1]] + [s[2], s[3]] == s;
  }

  lemma NewKey(log: seq<EntryRecord>, i: nat, ks: seq<(string, string)>, k: (string, string))
    requires i < |log| && KeyOf(log[i]) == k && k !in ks && Keys(log[..i]) == ks
    ensures Keys(log[..i + 1]) == ks + [k]
  {
    hide Keys;
    KeysSnoc(log, i);
  }

  lemma KeysOfLog(log: seq<EntryRecord>)
    requires IsLog(log)
    ensures Keys(log) == [("a", "USD"), ("b", "USD"), ("a", "BTC"), ("b", "BTC")]
  {
    hide Keys;
    var au, bu, ab, bb := ("a", "USD"), ("b", "USD"), ("a", "BTC"), ("b", "BTC");
    KeysEmpty();
    assert log[..0] == [] && log[..4] == log;
    DifferentKeys();
    NewKey(log, 0, [], au);
    NewKey(log, 1, [au], bu);
    NewKey(log, 2, [au, bu], ab);
    NewKey(log, 3, [au, bu, ab], bb);
  }

  lemma DifferentKeys()
    ensures ("b", "USD") !in [("a", "USD")] && ("a", "BTC") !in [("a", "USD"), ("b", "USD")]
    ensures ("b", "BTC") !in [("a", "USD"), ("b", "USD"), ("a", "BTC")]
  {
    assert "a"[0] != "b"[0] && "USD"[0] != "BTC"[0];
  }

  lemma LastOfLog(log: seq<EntryRecord>)
    requires IsLog(log)
    ensures LastMatch(log, "a", "BTC") == Some(log[2])
  {
    assert LastMatch(log, "a", "BTC") == LastMatch(log[..3], "a", "BTC");
  }

  lemma BuiltFor(log: seq<EntryRecord>, accountId: string, asset: string, asOfTs: string)
    ensures BuildSnapshot(log, accountId, asset, asOfTs).accountId == accountId
  {
  }

  /** The snapshot found for all assets is that of the second asset. */
  lemma FoundSnapshot(log: seq<EntryRecord>)
    requires IsLog(log)
    ensures FindSnapshot(SnapshotAll(log, Midnight()), "a", "") == Some(BuildSnapshot(log, "a", "BTC", Decimal(0)))
  {
    hide BuildSnapshot, Keys, Decimal;
    KeysOfLog(log);
    var snaps := SnapshotAll(log, Midnight());
    assert snaps[2] == BuildSnapshot(log, "a", "BTC", Decimal(0));
    assert snaps[3] == BuildSnapshot(log, "b", "BTC", Decimal(0));
    BuiltFor(log, "a", "BTC", Decimal(0));
    BuiltFor(log, "b", "BTC", Decimal(0));
    assert FindSnapshot(snaps, "a", "") == FindSnapshot(snaps[..3], "a", "");
  }

  lemma BalancesOfLog(log: seq<EntryRecord>)
    requires IsLog(log)
    ensures Balance(log, "a", "") == 12 && Balance(log, "a", "BTC") == 7
    ensures Sum(log, ContributionAfter("a", "", 3)) == 0
  {
    FourTerms(log, Contribution("a", ""));
    FourTerms(log, Contribution("a", "BTC"));
    FourTerms(log, ContributionAfter("a", "", 3));
  }

  lemma WrongBalance(s: LedgerState)
    requires IsLog(s.entries) && Ready(s.accounts) && s.snapshots == SnapshotAll(s.entries, Midnight())
    ensures BalanceViaSnapshot(s, "a", "") == Some(7) && Balance(s.entries, "a", "") == 12
  {
    hide SnapshotAll, FindSnapshot, LastMatch, Decimal, Sum, Balance, Contribution,
      ContributionAfter, FindType, Midnight;
    FoundSnapshot(s.entries);
    LastOfLog(s.entries);
    BalancesOfLog(s.entries);
  }

  // ---------- The run gets there ----------

  ghost predicate Ready(accounts: map<string, Account>) {
    UsableAccount(accounts, "a") && UsableAccount(accounts, "b")
  }

  lemma CustodialType()
    ensures FindType("user_custodial").Some? && AssetClassAllowed(FindType("user_custodial").value, Both)
  {
  }

  lemma CustodialValid(id: string)
    ensures FindType("user_custodial").Some? && ValidateAccount(AccountNamed(id).req).None?
  {
    hide FindType, AssetClassAllowed;
    CustodialType();
  }

  lemma AccountOpened(env: Env, s: LedgerState, id: string)
    requires id !in s.accounts
    ensures var s' := Step(env, s, AccountNamed(id));
      && s' == s.(accounts := s'.accounts) && s'.accounts.Keys == s.accounts.Keys + {id}
      && Keeps(s.accounts, s'.accounts) && UsableAccount(s'.accounts, id)
  {
    hide FindType, ValidateAccount, Decimal, Post, SnapshotAll, UsableAccount, Keeps;
    CustodialValid(id);
    AccountAdded(s.accounts, id);
  }

  function Custodian(id: string): Account {
    Account(id, "user_custodial", "BOTH", "", None, "ACTIVE", Decimal(0))
  }

  lemma AccountAdded(accounts: map<string, Account>, id: string)
    requires id !in accounts
    ensures var accounts' := accounts[id := Custodian(id)];
      accounts'.Keys == accounts.Keys + {id} && Keeps(accounts, accounts') && UsableAccount(accounts', id)
  {
    hide FindType, Decimal;
    CustodialType();
  }

  lemma AccountsOpened(env: Env)
    ensures var s := Exec(env, EmptyState(), TwoDeposits()[..2]);
      Ready(s.accounts) && s.entries == [] && s.postings == map[] && s.sequence == 0
  {
    hide Step, Exec, AccountNamed, FindType, Deposit;
    var ops := TwoDeposits();
    var s0 := EmptyState();
    NoSteps(env, ops);
    ExecStep(env, ops, 0);
    AccountOpened(env, s0, "a");
    ExecStep(env, ops, 1);
    assert "b" !in s0.accounts.Keys + {"a"};
    AccountOpened(env, Step(env, s0, AccountNamed("a")), "b");
  }

  lemma NoSteps(env: Env, ops: seq<Op>)
    ensures Exec(env, EmptyState(), ops[..0]) == EmptyState()
  {
  }

  /** `log'` is `log` with a debit and a credit after it. */
  predicate Extends(log: seq<EntryRecord>, log': seq<EntryRecord>, amount: nat, asset: string) {
    && |log'| == |log| + 2 && log'[..|log|] == log
    && Is(log'[|log|], "a", "DEBIT", amount, asset, |log| + 1)
    && Is(log'[|log| + 1], "b", "CREDIT", amount, asset, |log| + 2)
  }

  lemma DepositLinks(env: Env, s: LedgerState, job: Job, amount: nat, asset: string)
    requires s.sequence == |s.entries| && Validate(job.req).Good? && |job.ids| == 2
    requires Validate(job.req).lines == [Line("a", Debit, amount, asset), Line("b", Credit, amount, asset)]
    ensures var b := BatchOf(s.globalChainHead, s.sequence, job, Validate(job.req).lines);
      Extends(s.entries, s.entries + Link(env, b), amount, asset)
  {
    hide Link, Validate, Decimal;
    var b := BatchOf(s.globalChainHead, s.sequence, job, Validate(job.req).lines);
    LinkedFields(env, b, 0);
    LinkedFields(env, b, 1);
  }

  lemma DepositAccepted(env: Env, s: LedgerState, job: Job, amount: nat, asset: string)
    requires Ready(s.accounts) && job.req.postingId !in s.postings && 1 <= amount <= 10 && asset in {"USD", "BTC"}
    requires job.req == HedgeRequest(job.req.postingId, "a", "b", asset, amount)
    ensures Post(env, s, job).1.Accepted? && !Post(env, s, job).1.replay
    ensures Post(env, s, job).0.accounts == s.accounts
    ensures Post(env, s, job).0.postings.Keys == s.postings.Keys + {job.req.postingId}
  {
    hide Post, Balance, UsableAccount, Acceptable, Effect, Transfer;
    TransferMoves(env, s, job, "hedge:", "a", "b", asset, amount, "", "");
    PostEffect(env, s, job, "", "");
  }

  lemma DepositLines(req: PostingRequest, amount: nat, asset: string)
    requires req == HedgeRequest(req.postingId, "a", "b", asset, amount) && Validate(req).Good?
    ensures Validate(req).lines == [Line("a", Debit, amount, asset), Line("b", Credit, amount, asset)]
  {
    hide Validate;
    GoodDirections(req);
  }

  lemma DepositAppends(env: Env, s: LedgerState, postingId: string, asset: string, amount: nat)
    requires Ready(s.accounts) && postingId !in s.postings && 1 <= amount <= 10 && asset in {"USD", "BTC"}
    requires s.sequence == |s.entries|
    ensures var s' := Step(env, s, Deposit(postingId, asset, amount));
      && Extends(s.entries, s'.entries, amount, asset)
      && s'.accounts == s.accounts && s'.sequence == |s'.entries| && s'.postings.Keys == s.postings.Keys + {postingId}
  {
    hide Ready, Validate, Link, Respond, EventOf, AnchorOf, Extends, GoodLines, Post, BatchOf, Decimal, UsableAccount;
    var job := Deposit(postingId, asset, amount).job;
    DepositAccepted(env, s, job, amount, asset);
    PostFresh(env, s, job);
    DepositLines(job.req, amount, asset);
    DepositLinks(env, s, job, amount, asset);
  }

  lemma TwoExtensions(log: seq<EntryRecord>, log': seq<EntryRecord>)
    requires Extends([], log, 5, "USD") && Extends(log, log', 7, "BTC")
    ensures IsLog(log')
  {
    assert log'[0] == log'[..2][0] && log'[1] == log'[..2][1];
  }

  /** The state after the first deposit. */
  lemma OneDeposited(env: Env)
    ensures var s := Exec(env, EmptyState(), TwoDeposits()[..3]);
      && Extends([], s.entries, 5, "USD") && Ready(s.accounts) && s.sequence == |s.entries| && "q" !in s.postings
  {
    hide Step, Exec, EmptyState, Deposit, AccountNamed, Extends, UsableAccount;
    AccountsOpened(env);
    ExecStep(env, TwoDeposits(), 2);
    DepositAppends(env, Exec(env, EmptyState(), TwoDeposits()[..2]), "p", "USD", 5);
    assert "p"[0] != "q"[0];
  }

  lemma BothDeposited(env: Env)
    ensures var s := Exec(env, EmptyState(), TwoDeposits()[..4]); IsLog(s.entries) && Ready(s.accounts)
  {
    hide Step, Exec, EmptyState, Deposit, AccountNamed, Extends, IsLog, Ready;
    OneDeposited(env);
    var s := Exec(env, EmptyState(), TwoDeposits()[..3]);
    ExecStep(env, TwoDeposits(), 3);
    DepositAppends(env, s, "q", "BTC", 7);
    TwoExtensions(s.entries, Step(env, s, TwoDeposits()[3]).entries);
  }

  /** Reachable by an ordinary run: the account holds 5 of one asset and 7 of another, and its
      balance over all assets reads 7 through the snapshot instead of 12. */
  lemma ViaSnapshotAllAssetsFails(env: Env)
    ensures var s := Exec(env, EmptyState(), TwoDeposits());
      BalanceViaSnapshot(s, "a", "") == Some(7) && Balance(s.entries, "a", "") == 12
  {
    hide Step, Exec, EmptyState, BalanceViaSnapshot, Balance, Deposit, SnapshotAll, AccountNamed, IsLog, Ready;
    BothDeposited(env);
    var s := Exec(env, EmptyState(), TwoDeposits()[..4]);
    ExecStep(env, TwoDeposits(), 4);
    assert TwoDeposits()[..5] == TwoDeposits();
    SnapshotStep(env, s);
    WrongBalance(Step(env, s, TwoDeposits()[4]));
  }

  lemma SnapshotStep(env: Env, s: LedgerState)
    ensures Step(env, s, TakeSnapshots(Midnight())) == s.(snapshots := SnapshotAll(s.entries, Midnight()))
  {
    hide SnapshotAll;
  }

  lemma ExecStep(env: Env, ops: seq<Op>, n: nat)
    requires n < |ops|
    ensures Exec(env, EmptyState(), ops[..n + 1]) == Step(env, Exec(env, EmptyState(), ops[..n]), ops[n])
  {
    hide Step, EmptyState;
    assert ops[..n + 1][..n] == ops[..n];
  }

  // ---------- An entry moved to another account ----------

  /** An account whose id holds a separator receives 5 units. */
  function PipedDeposit(): seq<Op> {
    [AccountNamed("a|c"), AccountNamed("b"), Submit(PipedJob())]
  }

  function PipedJob(): Job {
    Job(HedgeRequest("p", "a|c", "b", "USD", 5), ["1", "2"], "", 0)
  }

  /** The entry as it would be in account "c". */
  function MovedEntry(e: EntryRecord): EntryRecord {
    e.(entryId := "1|a", accountId := "c")
  }

  /** The log of this run verifies just as well, with the same head, when its first entry is
      rewritten to belong to account "c". */
  lemma EntryMovesUnnoticed(env: Env)
    ensures var s := Exec(env, EmptyState(), PipedDeposit());
      && s.entries != [] && s.entries[0].accountId == "a|c" && s.entries[0].entryId == "1"
      && var other := s.entries[0 := MovedEntry(s.entries[0])];
        Chained(env, other) && Head(other) == s.globalChainHead
  {
    hide Exec, EmptyState, Chained, Head, PipedDeposit, MovedEntry;
    PipedRun(env);
    ChainedRun(env, PipedDeposit());
    MovesUnnoticed(env, Exec(env, EmptyState(), PipedDeposit()).entries);
  }

  lemma MovesUnnoticed(env: Env, log: seq<EntryRecord>)
    requires Chained(env, log) && log != [] && log[0].accountId == "a|c" && log[0].entryId == "1"
    ensures var other := log[0 := MovedEntry(log[0])]; Chained(env, other) && Head(other) == Head(log)
  {
    hide Chained, Head, RespellEntry, Compare, PlainEntry, SameLog, MovedEntry, IsHash;
    ChainedPrevHash(env, log, 0);
    PipedRespelled(log[0]);
    RewritingUnnoticed(env, log, 0);
  }

  lemma ChainedRun(env: Env, ops: seq<Op>)
    ensures var s := Exec(env, EmptyState(), ops); Chained(env, s.entries) && s.globalChainHead == Head(s.entries)
  {
    hide Exec, Chained, Head, EntriesOk, AccountsOk, PostingsOk, AnchorsOk, Partitioned, TrialBalance, SnapshotsOk,
      Numbered, EmptyState;
    EmptyInv(env);
    ExecInv(env, EmptyState(), ops);
  }

  lemma PipedRespelled(e: EntryRecord)
    requires e.accountId == "a|c" && e.entryId == "1" && ParseDirection(e.direction).Some?
    ensures !PlainEntry(e) && RespellEntry(e) == MovedEntry(e)
  {
    assert "a|c"[1] == '|';
    assert Join("a", '|', "c") == "a|c" && Join("1", '|', "a") == "1|a";
    SplitFirstUnique("a", "c", '|');
  }

  lemma PipedRun(env: Env)
    ensures var s := Exec(env, EmptyState(), PipedDeposit());
      && s.entries != [] && s.entries[0].accountId == "a|c" && s.entries[0].entryId == "1"
      && s.entries[0].direction == "DEBIT"
  {
    hide Step, Exec, AccountNamed, UsableAccount, PipedJob;
    var ops, s0 := PipedDeposit(), EmptyState();
    NoSteps(env, ops);
    ExecStep(env, ops, 0);
    AccountOpened(env, s0, "a|c");
    ExecStep(env, ops, 1);
    assert |"b"| != |"a|c"|;
    assert "b" !in s0.accounts.Keys + {"a|c"};
    var s1 := Step(env, s0, AccountNamed("a|c"));
    AccountOpened(env, s1, "b");
    ExecStep(env, ops, 2);
    assert ops[..3] == ops;
    StillUsable(s1.accounts, Step(env, s1, AccountNamed("b")).accounts, "a|c");
    PipedPost(env, Step(env, s1, AccountNamed("b")));
  }

  lemma StillUsable(accounts: map<string, Account>, accounts': map<string, Account>, id: string)
    requires UsableAccount(accounts, id) && Keeps(accounts, accounts')
    ensures UsableAccount(accounts', id)
  {
    hide FindType;
  }

  lemma PipedPost(env: Env, s: LedgerState)
    requires s.entries == [] && s.postings == map[]
    requires UsableAccount(s.accounts, "a|c") && UsableAccount(s.accounts, "b")
    ensures var s' := Step(env, s, Submit(PipedJob()));
      && s'.entries != [] && s'.entries[0].accountId == "a|c" && s'.entries[0].entryId == "1"
      && s'.entries[0].direction == "DEBIT"
  {
    hide Validate, Link, Respond, EventOf, AnchorOf, GoodLines, Post, BatchOf, Decimal, UsableAccount, PipedJob;
    PipedAccepted(env, s);
    PostFresh(env, s, PipedJob());
    FirstLinked(env, BatchOf(s.globalChainHead, s.sequence, PipedJob(), Validate(PipedJob().req).lines));
  }

  lemma PipedAccepted(env: Env, s: LedgerState)
    requires s.entries == [] && s.postings == map[]
    requires UsableAccount(s.accounts, "a|c") && UsableAccount(s.accounts, "b")
    ensures Post(env, s, PipedJob()).1.Accepted? && !Post(env, s, PipedJob()).1.replay
    ensures Validate(PipedJob().req).Good?
    ensures var b := BatchOf(s.globalChainHead, s.sequence, PipedJob(), Validate(PipedJob().req).lines);
      b.lines != [] && b.lines[0] == Line("a|c", Debit, 5, "USD") && b.ids[0] == "1"
  {
    hide Validate, Post, UsableAccount, Balance, Acceptable, Effect, Decimal;
    var job := PipedJob();
    TransferMoves(env, s, job, "hedge:", "a|c", "b", "USD", 5, "", "");
    PostEffect(env, s, job, "", "");
    PostFresh(env, s, job);
    GoodDirections(job.req);
  }

  lemma FirstLinked(env: Env, b: Batch)
    requires b.lines != [] && b.lines[0] == Line("a|c", Debit, 5, "USD") && b.ids[0] == "1"
    ensures var es := Link(env, b);
      es != [] && es[0].accountId == "a|c" && es[0].entryId == "1" && es[0].direction == "DEBIT"
  {
    hide Link;
    LinkedFields(env, b, 0);
  }
}
