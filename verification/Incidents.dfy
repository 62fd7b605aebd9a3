/** Schedules of the Postgres path, from empty tables on, that fork the chain or break it. */
module Incidents {
  import opened Text
  import opened Posting
  import opened HashChain
  import opened Chart
  import opened Ledger
  import opened Links
  import opened Invariant
  import opened Runs
  import opened Freshness
  import opened Database
  import opened Protocol
  import opened Traces
  import opened Interleavings
  import opened Schedules
  import opened Refinement
  import opened Hydration
  import opened Fork
  import opened Treasury
  import opened Witness

  function OpenNamed(id: string): Event {
    OpenAccount(0, CreateAccountRequest(Some(id), "user_custodial", "BOTH", "", None), "", 0)
  }

  function Opened(): seq<Event> {
    [OpenNamed("a"), OpenNamed("b")]
  }

  /** Deposits of 5 and of 7 units, with the ids their runs generate. */
  function First(): Job {
    Deposit("p", "USD", 5).job
  }

  function Second(): Job {
    Deposit("q", "BTC", 7).job
  }

  // ---------- Deposits can be made ----------

  lemma OneOpened(env: Env, sys: System, id: string)
    requires id !in sys.db.accounts
    ensures var sys' := Apply(env, sys, OpenNamed(id));
      && sys'.db == sys.db.(accounts := sys'.db.accounts) && sys'.runs == sys.runs
      && sys'.db.accounts.Keys == sys.db.accounts.Keys + {id}
      && Keeps(sys.db.accounts, sys'.db.accounts) && UsableAccount(sys'.db.accounts, id)
  {
    hide FindType, ValidateAccount, Decimal, Cache, UsableAccount, Keeps, Apply;
    var req := AccountNamed(id).req;
    CustodialValid(id);
    AccountAdded(sys.db.accounts, id);
    OpenApplies(env, sys, 0, req, "", 0);
  }

  /** Empty tables with both accounts. */
  ghost predicate Prepared(sys: System) {
    && sys.db.entries == [] && sys.db.postings == map[] && sys.runs == map[] && Ready(sys.db.accounts)
  }

  lemma OpenedSystem(env: Env)
    ensures Prepared(Play(env, Initial(), Opened()))
  {
    hide Apply, Play, FindType;
    var one := Apply(env, Initial(), OpenNamed("a"));
    PlayConcat(env, Initial(), [OpenNamed("a")], [OpenNamed("b")]);
    assert Opened() == [OpenNamed("a")] + [OpenNamed("b")];
    PlayOne(env, Initial(), OpenNamed("a"));
    PlayOne(env, one, OpenNamed("b"));
    OneOpened(env, Initial(), "a");
    assert "b" !in Initial().db.accounts.Keys + {"a"};
    OneOpened(env, one, "b");
  }

  lemma DepositIds(postingId: string)
    requires '|' !in postingId
    ensures var ids := Deposit(postingId, "", 0).job.ids;
      Distinct(ids) && forall id :: id in ids ==> id != "" && '|' !in id
  {
    assert (postingId + "1")[|postingId|] != (postingId + "2")[|postingId|];
  }

  lemma CanDeposit(sys: System, pid: nat, postingId: string, asset: string, amount: nat)
    requires pid !in sys.runs && Ready(sys.db.accounts) && postingId !in sys.db.postings && '|' !in postingId
    requires 1 <= amount <= 10 && asset in {"USD", "BTC"}
    requires forall e :: e in sys.db.entries ==> e.entryId !in Deposit(postingId, asset, amount).job.ids
    ensures CanPost(sys, pid, Deposit(postingId, asset, amount).job)
  {
    hide Validate, WellFormed, Distinct, UsableAccount, CheckAccounts;
    var job := Deposit(postingId, asset, amount).job;
    TransferWellFormed(postingId, "hedge:", "a", "b", asset, amount);
    ValidateExact(job.req);
    DepositLines(job.req, amount, asset);
    AccountsExact(sys.db.accounts, Validate(job.req).lines);
    DepositIds(postingId);
  }

  lemma DifferentIds()
    ensures First().req.postingId != Second().req.postingId
    ensures forall id :: id in First().ids ==> id !in Second().ids
    ensures |First().ids| == |Second().ids| == 2
  {
    assert "p"[0] != "q"[0];
    assert First().ids[0][0] == 'p' && First().ids[1][0] == 'p' && Second().ids[0][0] == 'q'
      && Second().ids[1][0] == 'q';
  }

  lemma NothingLogged()
    ensures Numbered([]) && PipeFreeLog([])
  {
  }

  // ---------- A fork ----------

  /** Two replicas deposit at the same time: both read the head of the empty log, both commit. */
  function Overlap(): seq<Event> {
    Opened() + Overlapping(0, 1, First(), Second(), 0)
  }

  /** Both deposits are in the log in full, linked after the genesis hash and numbered from 1. */
  lemma ForkHappens(env: Env)
    ensures var log := Play(env, Initial(), Overlap()).db.entries;
      && |log| == 4 && log[0].prevHash == log[2].prevHash == Genesis()
      && log[0].sequenceNumber == log[2].sequenceNumber == 1
      && log[0].entryId == "p1" && log[2].entryId == "q1"
  {
    hide Play, Overlapping, Link, CanPost, Prepared, First, Second, Opened, Genesis, BatchNow;
    var sys := Play(env, Initial(), Opened());
    OpenedSystem(env);
    BothCanPost(sys);
    DifferentIds();
    NothingLogged();
    PlayConcat(env, Initial(), Opened(), Overlapping(0, 1, First(), Second(), 0));
    BothLinkAfterTheSameHead(env, sys, 0, 1, First(), Second());
    RowOfDeposit(env, sys, First());
    RowOfDeposit(env, sys, Second());
    IdsAre();
  }

  /** So some run has committed after a head that was out of date. */
  lemma ForkIsOutdated(env: Env)
    ensures !NoneOutdated(env, Overlap(), |Overlap()|)
  {
    hide NoneOutdated, Play, Overlap, Chained;
    ForkHappens(env);
    if NoneOutdated(env, Overlap(), |Overlap()|) {
      CurrentCommitsChain(env, Overlap());
    }
  }

  lemma IdsAre()
    ensures First().ids == ["p1", "p2"] && Second().ids == ["q1", "q2"]
  {
    assert "p" + "1" == "p1" && "p" + "2" == "p2" && "q" + "1" == "q1" && "q" + "2" == "q2";
  }

  lemma BothCanPost(sys: System)
    requires Prepared(sys)
    ensures sys.db.entries == []
    ensures CanPost(sys, 0, First()) && CanPost(sys, 1, Second())
    ensures Validate(First().req).Good? && Validate(Second().req).Good?
  {
    hide CanPost, Deposit, Ready, Validate;
    CanDeposit(sys, 0, "p", "USD", 5);
    CanDeposit(sys, 1, "q", "BTC", 7);
    IsValid(sys, 0, First());
    IsValid(sys, 1, Second());
  }

  lemma IsValid(sys: System, pid: nat, job: Job)
    requires CanPost(sys, pid, job)
    ensures Validate(job.req).Good?
  {
    hide Validate, CheckAccounts, NewIds;
  }

  lemma RowOfDeposit(env: Env, sys: System, job: Job)
    requires Validate(job.req).Good? && sys.db.entries == []
    ensures var es := Link(env, BatchNow(sys, job));
      && |es| == |job.ids| > 0
      && es[0].prevHash == Genesis() && es[0].sequenceNumber == 1 && es[0].entryId == job.ids[0]
  {
    hide Link, Validate, Decimal, Genesis;
    FirstOfBatch(env, sys, job);
    LinkedFields(env, BatchNow(sys, job), 0);
  }

  // ---------- A failed read of the head ----------

  /** A deposit is made; the run of a second one fails to read the head. */
  function Misread(): seq<Event> {
    Opened() + UpToCommit(0, 0, First(), 0) + [Advance(0, 0)] + WithoutHead(1, 1, Second())
  }

  /** The second deposit is committed after the genesis hash, and the chain, which was valid, is so
      no longer unless the text of its second entry hashes to the genesis hash. */
  lemma HeadFailureHappens(env: Env)
    ensures var log := Play(env, Initial(), Misread()).db.entries;
      && |log| == 4 && Chained(env, log[..2])
      && log[2].entryId == "q1" && log[2].prevHash == Genesis()
      && (Chained(env, log) ==> Genuine(env, GenesisPreimage(PreimageAt(env, log[..2], 1))))
  {
    hide Play, UpToCommit, WithoutHead, Link, CanPost, First, Second, Opened, Genesis, BatchNow, GenesisBatch, Chained,
      Numbered, PreimageAt, Genuine;
    var two := Opened() + UpToCommit(0, 0, First(), 0) + [Advance(0, 0)];
    var sys := Play(env, Initial(), two);
    DifferentIds();
    IdsAre();
    FirstDeposited(env);
    PlayConcat(env, Initial(), two, WithoutHead(1, 1, Second()));
    HeadFailureBreaks(env, sys, 1, 1, Second());
    GenesisRow(env, sys, Second());
    var log := Play(env, Initial(), Misread()).db.entries;
    assert log[..2] == sys.db.entries;
  }

  lemma GenesisRow(env: Env, sys: System, job: Job)
    requires CanPost(sys, 1, job)
    ensures var es := Link(env, GenesisBatch(sys, job));
      |es| == |job.ids| > 0 && es[0].prevHash == Genesis() && es[0].entryId == job.ids[0]
  {
    hide Link, Validate, Decimal, Genesis, CheckAccounts, NewIds, Balanced, GoodLine;
    ValidatedLines(job.req);
    FirstPrev(env, GenesisBatch(sys, job));
    LinkedFields(env, GenesisBatch(sys, job), 0);
  }

  /** The first deposit is made in empty tables. */
  lemma FirstDeposit(env: Env, base: System)
    requires Prepared(base)
    ensures var sys := Apply(env, Play(env, base, UpToCommit(0, 0, First(), 0)), Advance(0, 0));
      && CanPost(base, 0, First()) && Validate(First().req).Good?
      && sys.db.entries == Link(env, BatchNow(base, First()))
      && sys.db.accounts == base.db.accounts && sys.db.postings.Keys == {First().req.postingId}
      && 1 !in sys.runs
  {
    hide Play, UpToCommit, Link, CanPost, First, Second, BatchNow, Numbered, Apply, Admissible, Ready, Validate;
    BothCanPost(base);
    NothingLogged();
    var ready := Play(env, base, UpToCommit(0, 0, First(), 0));
    PlayUpToCommit(env, base, 0, 0, First(), 0);
    assert 0 in ready.runs.Keys && 1 !in ready.runs.Keys;
    NowAdmissible(base, 0, First());
    CommitNow(env, ready, 0, BatchNow(base, First()));
    StillFree(env, ready);
    assert [] + Link(env, BatchNow(base, First())) == Link(env, BatchNow(base, First()));
  }

  /** After it the log is a valid chain of two entries, and the second deposit can be made. */
  lemma FirstDeposited(env: Env)
    ensures var sys := Play(env, Initial(), Opened() + UpToCommit(0, 0, First(), 0) + [Advance(0, 0)]);
      && |sys.db.entries| == 2 && Numbered(sys.db.entries) && Chained(env, sys.db.entries)
      && CanPost(sys, 1, Second())
  {
    hide Play, UpToCommit, Link, CanPost, First, Second, Opened, BatchNow, Chained, Numbered, Apply, Validate, Ready;
    var base := Play(env, Initial(), Opened());
    OpenedSystem(env);
    FirstDeposit(env, base);
    var ready := Play(env, base, UpToCommit(0, 0, First(), 0));
    PlayConcat(env, Initial(), Opened(), UpToCommit(0, 0, First(), 0));
    PlayConcat(env, Initial(), Opened() + UpToCommit(0, 0, First(), 0), [Advance(0, 0)]);
    PlayOne(env, ready, Advance(0, 0));
    DifferentIds();
    FirstChain(env, base, First());
    SecondCanPost(env, base, Apply(env, ready, Advance(0, 0)));
  }

  lemma StillFree(env: Env, sys: System)
    requires 0 in sys.runs && 1 !in sys.runs
    ensures 1 !in Apply(env, sys, Advance(0, 0)).runs
  {
    hide Apply, HasCommitted, NoCommit, Won;
    ApplyShape(env, sys, Advance(0, 0));
  }

  lemma FirstChain(env: Env, sys: System, job: Job)
    requires Validate(job.req).Good? && sys.db.entries == []
    ensures var es := Link(env, BatchNow(sys, job));
      |es| == |job.ids| && Numbered(es) && Chained(env, es)
  {
    hide Link, Validate, Decimal, Chained, Numbered, Genesis;
    NothingLogged();
    EmptyChained(env);
    RecordNumbers(env, [], BatchNow(sys, job));
    RecordChain(env, [], BatchNow(sys, job));
    assert [] + Link(env, BatchNow(sys, job)) == Link(env, BatchNow(sys, job));
  }

  lemma SecondCanPost(env: Env, base: System, sys: System)
    requires Validate(First().req).Good? && Ready(sys.db.accounts) && 1 !in sys.runs
    requires sys.db.entries == Link(env, BatchNow(base, First())) && sys.db.postings.Keys == {First().req.postingId}
    ensures CanPost(sys, 1, Second())
  {
    hide CanPost, Validate, Link, Ready, First, Deposit, BatchNow;
    DifferentIds();
    NowIds(base, First());
    PostingIds();
    assert "q" !in sys.db.postings.Keys;
    forall e | e in sys.db.entries ensures e.entryId !in Second().ids {
      LinkedId(env, BatchNow(base, First()), e);
    }
    CanDeposit(sys, 1, "q", "BTC", 7);
  }

  lemma PostingIds()
    ensures First().req.postingId == "p" && Second().req.postingId == "q" && "p" != "q"
  {
    assert "p"[0] != "q"[0];
  }
}
