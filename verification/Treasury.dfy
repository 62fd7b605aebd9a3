/** Treasury transfers on top of `post`. */
module Treasury {
  import opened Text
  import opened Sums
  import opened Posting
  import opened Chart
  import opened Ledger
  import opened Links
  import opened Invariant
  import opened Contents
  import opened Orders
  import opened LedgerStore

  /** A transfer of one amount: a debit of one account against a credit of another. */
  function Transfer(postingId: string, memo: string, debited: string, credited: string, asset: string,
                    amount: nat): PostingRequest {
    PostingRequest(postingId,
      [EntryInput(debited, "DEBIT", amount, asset), EntryInput(credited, "CREDIT", amount, asset)],
      Some(memo + postingId), Some(postingId))
  }

  function HedgeRequest(postingId: string, treasury: string, venue: string, asset: string,
                        amount: nat): PostingRequest {
    Transfer(postingId, "hedge:", treasury, venue, asset, amount)
  }

  function RebalanceRequest(postingId: string, from: string, to: string, asset: string, amount: nat): PostingRequest {
    Transfer(postingId, "rebalance:", to, from, asset, amount)
  }

  method HedgeEntry(store: Store, postingId: string, treasury: string, venue: string, asset: string, amount: nat,
                    ids: seq<string>, eventId: string, clock: nat) returns (error: Option<PostError>)
    requires store.Valid() && |ids| == 2
    modifies store
    ensures store.Valid()
    ensures var job := Job(HedgeRequest(postingId, treasury, venue, asset, amount), ids, eventId, clock);
      var post := Post(store.env, old(store.View()), job);
      store.View() == post.0 && error == (if post.1.Accepted? then None else Some(post.1.error))
  {
    hide Post, Store.Valid;
    var outcome := store.Post(Job(HedgeRequest(postingId, treasury, venue, asset, amount), ids, eventId, clock));
    error := if outcome.Accepted? then None else Some(outcome.error);
  }

  method Rebalance(store: Store, postingId: string, from: string, to: string, asset: string, amount: nat,
                   ids: seq<string>, eventId: string, clock: nat) returns (error: Option<PostError>)
    requires store.Valid() && |ids| == 2
    modifies store
    ensures store.Valid()
    ensures var job := Job(RebalanceRequest(postingId, from, to, asset, amount), ids, eventId, clock);
      var post := Post(store.env, old(store.View()), job);
      store.View() == post.0 && error == (if post.1.Accepted? then None else Some(post.1.error))
  {
    hide Post, Store.Valid;
    var outcome := store.Post(Job(RebalanceRequest(postingId, from, to, asset, amount), ids, eventId, clock));
    error := if outcome.Accepted? then None else Some(outcome.error);
  }

  /** What a transfer does to one balance. */
  function Moved(debited: string, credited: string, asset: string, amount: int, accountId: string, x: string): int {
    if x != "" && x != asset then 0
    else (if accountId == debited then amount else 0) - (if accountId == credited then amount else 0)
  }

  lemma TransferWellFormed(postingId: string, memo: string, debited: string, credited: string, asset: string,
                           amount: nat)
    ensures WellFormed(Transfer(postingId, memo, debited, credited, asset, amount)) <==>
      1 <= amount <= 1_000_000_000_000 && asset in {"USD", "EUR", "GBP", "BTC", "ETH", "USDC"}
  {
    var debit, credit := EntryInput(debited, "DEBIT", amount, asset), EntryInput(credited, "CREDIT", amount, asset);
    forall x ensures Side([debit, credit], "DEBIT", x) == Side([debit, credit], "CREDIT", x) {
      TwoTerms(debit, credit, SideAmount("DEBIT", x));
      TwoTerms(debit, credit, SideAmount("CREDIT", x));
    }
    assert debit in [debit, credit];
  }

  lemma TwoTerms<T>(a: T, b: T, f: T -> int)
    ensures Sum([a, b], f) == f(a) + f(b)
  {
    SumSnoc([a], b, f);
    SumSnoc([], a, f);
    assert [a] + [b] == [a, b] && [] + [a] == [a];
  }

  /** A transfer under a fresh id is accepted exactly when amount, asset and accounts are in order,
      and then moves the amount between its two accounts in its asset and nothing else. */
  lemma TransferMoves(env: Env, s: LedgerState, job: Job, memo: string, debited: string, credited: string,
                      asset: string,
                      amount: nat, accountId: string, x: string)
    requires job.req == Transfer(job.req.postingId, memo, debited, credited, asset, amount)
    requires job.req.postingId !in s.postings
    ensures var (s', out) := Post(env, s, job);
      && (out.Accepted? <==>
           1 <= amount <= 1_000_000_000_000 && asset in {"USD", "EUR", "GBP", "BTC", "ETH", "USDC"}
           && UsableAccount(s.accounts, debited) && UsableAccount(s.accounts, credited))
      && Balance(s'.entries, accountId, x)
         == Balance(s.entries, accountId, x) + (if out.Accepted? then Moved(debited, credited, asset, amount,
           accountId, x) else 0)
      && s'.accounts == s.accounts
  {
    hide Post, Balance, UsableAccount, WellFormed, Validate, CheckAccounts, Moved, LineDelta, Transfer;
    PostEffect(env, s, job, accountId, x);
    TransferWellFormed(job.req.postingId, memo, debited, credited, asset, amount);
    ValidateExact(job.req);
    if Validate(job.req).Good? {
      TransferLines(s.accounts, job.req, memo, debited, credited, asset, amount, accountId, x);
    }
  }

  lemma TransferLines(accounts: map<string, Account>, req: PostingRequest, memo: string, debited: string,
                      credited: string,
                      asset: string, amount: nat, accountId: string, x: string)
    requires req == Transfer(req.postingId, memo, debited, credited, asset, amount) && Validate(req).Good?
    ensures Sum(Validate(req).lines, LineDelta(accountId, x)) == Moved(debited, credited, asset, amount, accountId, x)
    ensures CheckAccounts(accounts, Validate(req).lines).None? <==>
      UsableAccount(accounts, debited) && UsableAccount(accounts, credited)
  {
    hide UsableAccount, Validate, CheckAccounts;
    var lines := Validate(req).lines;
    GoodDirections(req);
    assert lines == [Line(debited, Debit, amount, asset), Line(credited, Credit, amount, asset)];
    AccountsExact(accounts, lines);
    assert lines[0] in lines && lines[1] in lines;
    TwoTerms(lines[0], lines[1], LineDelta(accountId, x));
  }

  /** Both balances of a transfer between two accounts, and its record. */
  lemma TransferBoth(env: Env, s: LedgerState, job: Job, memo: string, debited: string, credited: string, asset: string,
                     amount: nat)
    requires Inv(env, s) && job.req == Transfer(job.req.postingId, memo, debited, credited, asset, amount)
    requires job.req.postingId !in s.postings && debited != credited
    ensures var (s', out) := Post(env, s, job);
      var id := job.req.postingId;
      && (out.Accepted? <==>
           1 <= amount <= 1_000_000_000_000 && asset in {"USD", "EUR", "GBP", "BTC", "ETH", "USDC"}
           && UsableAccount(s.accounts, debited) && UsableAccount(s.accounts, credited))
      && (out.Accepted? ==>
           && Balance(s'.entries, debited, asset) == Balance(s.entries, debited, asset) + amount
           && Balance(s'.entries, credited, asset) == Balance(s.entries, credited, asset) - amount
           && id in s'.postings && s'.postings[id].memo == Some(memo + id) && s'.postings[id].refTxId == Some(id))
  {
    hide Inv, Post, Balance, UsableAccount, Acceptable, Effect;
    TransferMoves(env, s, job, memo, debited, credited, asset, amount, debited, asset);
    TransferMoves(env, s, job, memo, debited, credited, asset, amount, credited, asset);
    PostEffect(env, s, job, "", "");
    if Post(env, s, job).1.Accepted? {
      PostRecords(env, s, job);
    }
  }

  /** A hedge under a fresh id debits the treasury account and credits the venue account; its record
      carries its memo and names itself as the reference. */
  lemma HedgeMoves(env: Env, s: LedgerState, job: Job, treasury: string, venue: string, asset: string, amount: nat)
    requires Inv(env, s) && job.req == HedgeRequest(job.req.postingId, treasury, venue, asset, amount)
    requires job.req.postingId !in s.postings && treasury != venue
    ensures var (s', out) := Post(env, s, job);
      var id := job.req.postingId;
      && (out.Accepted? <==>
           1 <= amount <= 1_000_000_000_000 && asset in {"USD", "EUR", "GBP", "BTC", "ETH", "USDC"}
           && UsableAccount(s.accounts, treasury) && UsableAccount(s.accounts, venue))
      && (out.Accepted? ==>
           && Balance(s'.entries, treasury, asset) == Balance(s.entries, treasury, asset) + amount
           && Balance(s'.entries, venue, asset) == Balance(s.entries, venue, asset) - amount
           && id in s'.postings && s'.postings[id].memo == Some("hedge:" + id) && s'.postings[id].refTxId == Some(id))
  {
    hide Inv, Post, Balance, UsableAccount, Transfer;
    TransferBoth(env, s, job, "hedge:", treasury, venue, asset, amount);
  }

  /** A rebalance under a fresh id debits the account it moves to and credits the one it moves from. */
  lemma RebalanceMoves(env: Env, s: LedgerState, job: Job, from: string, to: string, asset: string, amount: nat)
    requires Inv(env, s) && job.req == RebalanceRequest(job.req.postingId, from, to, asset, amount)
    requires job.req.postingId !in s.postings && from != to
    ensures var (s', out) := Post(env, s, job);
      var id := job.req.postingId;
      && (out.Accepted? <==>
           1 <= amount <= 1_000_000_000_000 && asset in {"USD", "EUR", "GBP", "BTC", "ETH", "USDC"}
           && UsableAccount(s.accounts, from) && UsableAccount(s.accounts, to))
      && (out.Accepted? ==>
           && Balance(s'.entries, to, asset) == Balance(s.entries, to, asset) + amount
           && Balance(s'.entries, from, asset) == Balance(s.entries, from, asset) - amount
           && id in s'.postings && s'.postings[id].memo == Some("rebalance:" + id)
           && s'.postings[id].refTxId == Some(id))
  {
    hide Inv, Post, Balance, UsableAccount, Transfer;
    TransferBoth(env, s, job, "rebalance:", to, from, asset, amount);
  }

  /** `rebalance(treasury, venue)` undoes `hedge_entry(treasury, venue)`: both balances return to
      what they were, and no other balance has moved at any point. */
  lemma RebalanceUndoesHedge(env: Env, s: LedgerState, hedge: Job, undo: Job, treasury: string, venue: string,
                             asset: string,
                             amount: nat, accountId: string, x: string)
    requires hedge.req == HedgeRequest(hedge.req.postingId, treasury, venue, asset, amount)
    requires undo.req == RebalanceRequest(undo.req.postingId, treasury, venue, asset, amount)
    requires hedge.req.postingId !in s.postings && undo.req.postingId !in s.postings
    requires hedge.req.postingId != undo.req.postingId
    ensures var (hedged, first) := Post(env, s, hedge);
      var (undone, second) := Post(env, hedged, undo);
      && first.Accepted? == second.Accepted?
      && Balance(undone.entries, accountId, x) == Balance(s.entries, accountId, x)
      && ((accountId != treasury && accountId != venue) || (x != "" && x != asset) ==>
           Balance(hedged.entries, accountId, x) == Balance(s.entries, accountId, x))
  {
    hide Post, Balance, UsableAccount, Transfer;
    TransferMoves(env, s, hedge, "hedge:", treasury, venue, asset, amount, accountId, x);
    UndoIsFresh(env, s, hedge, undo);
    TransferMoves(env, Post(env, s, hedge).0, undo, "rebalance:", venue, treasury, asset, amount, accountId, x);
  }

  lemma UndoIsFresh(env: Env, s: LedgerState, hedge: Job, undo: Job)
    requires hedge.req.postingId !in s.postings && undo.req.postingId !in s.postings
    requires hedge.req.postingId != undo.req.postingId
    ensures undo.req.postingId !in Post(env, s, hedge).0.postings
  {
    hide Post, Balance, Effect, Acceptable;
    PostEffect(env, s, hedge, "", "");
    assert undo.req.postingId !in Post(env, s, hedge).0.postings.Keys;
  }

  // ---------- Posting ids of saga steps ----------

  function DerivePostingId(sagaId: string, step: string): string {
    Join(sagaId, '_', step)
  }

  /** Distinct steps get distinct ids when the saga ids, or else the steps, contain no underscore. */
  lemma DerivedIdsDistinct(sagaId: string, step: string, sagaId': string, step': string)
    requires ('_' !in sagaId && '_' !in sagaId') || ('_' !in step && '_' !in step')
    requires DerivePostingId(sagaId, step) == DerivePostingId(sagaId', step')
    ensures sagaId == sagaId' && step == step'
  {
    if '_' !in sagaId && '_' !in sagaId' {
      SplitFirstUnique(sagaId, step, '_');
      SplitFirstUnique(sagaId', step', '_');
    } else {
      SplitLastUnique(sagaId, step, '_');
      SplitLastUnique(sagaId', step', '_');
    }
  }

  /** An underscore on either side can be moved to the other: the two steps share an id, and the
      second posting would be taken for a replay of the first. */
  lemma DerivedIdsClash(a: string, b: string, c: string)
    ensures DerivePostingId(Join(a, '_', b), c) == DerivePostingId(a, Join(b, '_', c))
    ensures Join(a, '_', b) != a
  {
    JoinAssociative(a, b, c, '_');
    assert |Join(a, '_', b)| > |a|;
  }

  /** A step shares its id with some other step exactly when its saga id or its name contains an
      underscore. */
  lemma DerivedIdShared(sagaId: string, step: string)
    ensures (exists sagaId', step' ::
               (sagaId' != sagaId || step' != step) && DerivePostingId(sagaId', step') == DerivePostingId(sagaId, step))
       <==> '_' in sagaId || '_' in step
  {
    if '_' in sagaId {
      var (a, b) := SplitFirst(sagaId, '_').value;
      DerivedIdsClash(a, b, step);
    } else if '_' in step {
      var (b, c) := SplitFirst(step, '_').value;
      DerivedIdsClash(sagaId, b, c);
    } else {
      forall sagaId', step' | DerivePostingId(sagaId', step') == DerivePostingId(sagaId, step)
        ensures sagaId' == sagaId && step' == step
      {
        NoUnderscores(sagaId, step, sagaId', step');
      }
    }
  }

  lemma NoUnderscores(sagaId: string, step: string, sagaId': string, step': string)
    requires '_' !in sagaId && '_' !in step && DerivePostingId(sagaId', step') == DerivePostingId(sagaId, step)
    ensures sagaId' == sagaId && step' == step
  {
    var s, s' := Join(sagaId, '_', step), Join(sagaId', '_', step');
    assert s'[|sagaId'|] == '_' && s[|sagaId|] == '_';
    assert |sagaId'| == |sagaId|;
    assert sagaId == s[..|sagaId|] && sagaId' == s'[..|sagaId|];
    assert step == s[|sagaId| + 1..] && step' == s'[|sagaId| + 1..];
  }
}
