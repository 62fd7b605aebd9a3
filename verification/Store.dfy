/** The in-memory store: its fields are updated in place, and every operation is proved against
    the specification on ledger states. */
module LedgerStore {
  import opened Text
  import opened Sums
  import opened Posting
  import opened HashChain
  import opened Chart
  import opened Ledger
  import opened Snapshots
  import opened Invariant
  import opened Runs
  import opened Database
  import opened Refinement
  import opened Hydration

  class Store {
    const env: Env
    var accounts: map<string, Account>
    var postings: map<string, PostingRecord>
    var entries: seq<EntryRecord>
    var sequence: nat
    var auditEvents: seq<AuditEvent>
    var anchors: map<string, HashChainAnchor>
    var globalChainHead: string
    var snapshots: seq<BalanceSnapshot>

    ghost function View(): LedgerState
      reads this
    {
      LedgerState(accounts, postings, entries, sequence, auditEvents, anchors, globalChainHead, snapshots)
    }

    /** The invariant holds, apart from audit events lost when the store was last started anew. */
    ghost predicate Valid()
      reads this
    {
      Sound(env, View())
    }

    constructor (env: Env)
      ensures this.env == env && View() == EmptyState() && Valid()
    {
      this.env := env;
      accounts, postings, entries, sequence := map[], map[], [], 0;
      auditEvents, anchors, globalChainHead, snapshots := [], map[], Genesis(), [];
      new;
      EmptyInv(env);
      SoundAsIs(env, EmptyState());
    }

    method CreateAccount(req: CreateAccountRequest, freshId: string, clock: nat) returns (error: Option<AccountError>)
      requires Valid()
      modifies this
      ensures Valid()
      ensures (View(), error) == Ledger.CreateAccount(old(View()), req, freshId, clock)
    {
      CreateAccountSound(env, View(), req, freshId, clock);
      hide Sound, FindType;
      error := ValidateAccount(req);
      if error.Some? {
        return;
      }
      var id := match req.accountId case Some(i) => i case None => freshId;
      var account := Account(id, req.typeName, req.assetClass, req.caption, req.parentId, "ACTIVE", Decimal(clock));
      if id in accounts {
        return Some(AlreadyExists);
      }
      accounts := accounts[id := account];
    }

    /** `post`: validation, then the in-memory path. */
    method Post(job: Job) returns (outcome: Outcome)
      requires Valid()
      modifies this
      ensures Valid()
      ensures (View(), outcome) == Ledger.Post(env, old(View()), job)
    {
      PostSound(env, View(), job);
      hide Sound, Validate, Ledger.PostLines;
      var checked := ValidateRequest(job.req);
      match checked {
        case Bad(error) => outcome := Rejected(error);
        case Good(lines) => outcome := PostViaMemory(job, lines);
      }
    }

    method PostViaMemory(job: Job, lines: seq<Line>) returns (outcome: Outcome)
      requires |lines| == |job.ids|
      modifies this
      ensures (View(), outcome) == PostLines(env, old(View()), job, lines)
    {
      hide NewPosting, Record, Respond, CheckAccounts, BatchOf;
      if job.req.postingId in postings {
        return Accepted(Respond(postings[job.req.postingId]), true);
      }
      var error := AccountErrors(lines);
      if error.Some? {
        return Rejected(Validation(error.value));
      }
      var p := CommitNew(job, lines);
      outcome := Accepted(Respond(p), false);
    }

    /** Links the lines and records the posting they make. */
    method CommitNew(job: Job, lines: seq<Line>) returns (p: PostingRecord)
      requires |lines| == |job.ids|
      modifies this
      ensures p == NewPosting(env, BatchOf(old(View()).globalChainHead, old(View()).sequence, job, lines), job)
      ensures View() == Record(old(View()), job.eventId, p)
    {
      hide NewPosting, Record, BatchOf, View;
      ghost var before := View();
      p := LinkLines(job, lines);
      StoreCommitted(p, job.eventId, before);
    }

    /** Writes a linked posting everywhere it is kept; its numbers are already taken. */
    method StoreCommitted(p: PostingRecord, eventId: string, ghost before: LedgerState)
      requires View() == before.(sequence := before.sequence + |p.entries|)
      modifies this
      ensures View() == Record(before, eventId, p)
    {
      hide EventOf, AnchorOf;
      postings := postings[p.postingId := p];
      entries := entries + p.entries;
      anchors := anchors[p.postingId := AnchorOf(p)];
      globalChainHead := p.hashHead;
      auditEvents := auditEvents + [EventOf(eventId, p)];
    }

    /** The account checks: every status first, then every type and direction. */
    method AccountErrors(lines: seq<Line>) returns (error: Option<Rejection>)
      ensures error == CheckAccounts(accounts, lines)
    {
      hide FindType, CheckStatus, CheckType;
      for i := 0 to |lines|
        invariant FirstError(lines, CheckStatus(accounts)) == FirstError(lines[i..], CheckStatus(accounts))
      {
        if CheckStatus(accounts)(lines[i]).Some? {
          return CheckStatus(accounts)(lines[i]);
        }
      }
      for i := 0 to |lines|
        invariant FirstError(lines, CheckType(accounts)) == FirstError(lines[i..], CheckType(accounts))
      {
        if CheckType(accounts)(lines[i]).Some? {
          return CheckType(accounts)(lines[i]);
        }
      }
      return None;
    }

    /** Links the lines one after another, taking a sequence number for each. */
    method LinkLines(job: Job, lines: seq<Line>) returns (p: PostingRecord)
      requires |lines| == |job.ids|
      modifies this`sequence
      ensures p == NewPosting(env, BatchOf(old(View()).globalChainHead, old(View()).sequence, job, lines), job)
      ensures View() == old(View()).(sequence := old(View()).sequence + |p.entries|)
    {
      hide MakeEntry, Canonical, ComputeHash;
      ghost var b := BatchOf(globalChainHead, sequence, job, lines);
      var now := Decimal(job.clock);
      var prevHash := globalChainHead;
      var created: seq<EntryRecord> := [];
      for i := 0 to |lines|
        invariant created == LinkUpTo(env, b, i)
        invariant prevHash == HeadFrom(b.prev, created)
        invariant sequence == old(sequence) + i
      {
        var l, id := lines[i], job.ids[i];
        sequence := sequence + 1;
        var canonical := Canonical(Fields(prevHash, id, l.accountId, l.dir, l.amount, l.asset, now));
        var thisHash := ComputeHash(env, prevHash, canonical);
        var entry := EntryRecord(id, job.req.postingId, l.accountId, DirText(l.dir), l.amount, l.asset, sequence,
                                 prevHash, thisHash, now);
        EntryIs(env, b, prevHash, i);
        created := created + [entry];
        prevHash := thisHash;
      }
      p := PostingRecord(job.req.postingId, job.req.refTxId, job.req.memo, "POSTED", prevHash, created, now);
    }

    /** Sums the balances of the custodial accounts, visiting the accounts in any order; the
        result is one pass over the log. */
    method UserCustodialSum(asset: string) returns (total: int)
      ensures total == SumOver(Custodial(accounts), entries, asset)
      ensures total == Sum(entries, OfType(accounts, "user_custodial", asset))
    {
      hide Contribution, SumOver, Sum;
      total := 0;
      var todo, done: set<string> := accounts.Keys, {};
      NoAccounts(entries, asset);
      while todo != {}
        invariant todo <= accounts.Keys && done == Custodial(accounts) - todo
        invariant total == Sum(entries, InAccounts(done, asset))
      {
        var id :| id in todo;
        if accounts[id].typeName == "user_custodial" {
          AddAccount(entries, done, id, asset);
          total := total + Balance(entries, id, asset);
          done := done + {id};
        }
        todo := todo - {id};
      }
      assert done == Custodial(accounts);
      OnePass(Custodial(accounts), entries, asset);
      Runs.CustodialType(accounts, entries, asset);
    }

    method WriteSnapshots(readings: nat -> nat) returns (snaps: seq<BalanceSnapshot>)
      requires Valid()
      modifies this`snapshots
      ensures Valid()
      ensures snaps == SnapshotAll(entries, readings)
      ensures View() == old(View()).(snapshots := snaps)
    {
      hide Sound, SnapshotAll;
      SnapshotSound(env, View(), readings);
      snaps := CollectSnapshots(entries, readings);
      snapshots := snaps;
    }

    method VerifyChain() returns (r: Option<ChainBreak>)
      ensures r.None? <==> Chained(env, entries)
      ensures r.Some? ==> exists i :: FirstBreak(env, entries, i) && r.value.entryId == entries[i].entryId
      ensures Valid() ==> r.None?
    {
      hide Chained, Inv;
      r := HashChain.VerifyChain(env, entries);
      if Valid() {
        SoundChain(env, View());
      }
    }

    /** `hydrate`: replaces the store's state by what the tables hold. `rows` is the answer to the
        query for all entries ordered by sequence number, `stored` that for all snapshots; a number
        too wide for its field leaves the store as it was. In a new store, tables that hold a sound
        ledger leave a valid store. */
    method Hydrate(db: Tables, rows: seq<EntryRecord>, stored: seq<SnapshotRow>) returns (ok: bool)
      requires OrderedRows(rows, db.entries)
      modifies this
      ensures ok <==>
        && (forall i :: 0 <= i < |rows| ==> rows[i].amount < 0x1_0000_0000_0000_0000)
        && (forall i :: 0 <= i < |stored| ==>
              && -0x8000_0000_0000_0000_0000_0000_0000_0000 <= stored[i].balance
              && stored[i].balance < 0x8000_0000_0000_0000_0000_0000_0000_0000)
      ensures View() == if ok then Rebuild(db, rows, stored, old(View())) else old(View())
      ensures ok && old(auditEvents) == [] && SnapshotsOk(LoadSnapshots(db.entries, stored), db.entries) ==>
        forall m :: Inv(env, m) && Mirrors(db, m) ==> Valid()
    {
      hide Head, MaxSequence, AttachRows, Attached, Inv, Sound, AmountsFit, BalancesFit, SnapshotsOk, OrderedRows,
        LoadSnapshots, Mirrors;
      ghost var before := View();
      Widths(rows, stored);
      var grouped, byPosting, newSequence := GroupRows(rows);
      if !grouped {
        return false;
      }
      var loaded, snaps := LoadRows(db.entries, stored);
      if !loaded {
        return false;
      }
      AttachGrouped(db.postings, byPosting, rows);
      accounts := db.accounts;
      postings := AttachRows(db.postings, byPosting);
      entries := rows;
      anchors := db.chain;
      snapshots := snaps;
      sequence := newSequence;
      HeadIs(rows);
      globalChainHead := if rows == [] then Genesis() else rows[|rows| - 1].thisHash;
      if before.auditEvents == [] && SnapshotsOk(LoadSnapshots(db.entries, stored), db.entries) {
        forall m | Inv(env, m) && Mirrors(db, m) ensures Sound(env, View()) {
          RebuiltSound(env, db, m, rows, stored, before);
        }
      }
      return true;
    }
  }

  lemma Widths(rows: seq<EntryRecord>, stored: seq<SnapshotRow>)
    ensures AmountsFit(rows) <==> forall i :: 0 <= i < |rows| ==> rows[i].amount < 0x1_0000_0000_0000_0000
    ensures BalancesFit(stored) <==> forall i :: 0 <= i < |stored| ==>
      -0x8000_0000_0000_0000_0000_0000_0000_0000 <= stored[i].balance < 0x8000_0000_0000_0000_0000_0000_0000_0000
  {
  }

  // ---------- Stores that have been started anew ----------

  function WithLost(s: LedgerState, lost: seq<AuditEvent>): LedgerState {
    s.(auditEvents := lost + s.auditEvents)
  }

  /** The invariant holds once the audit events lost at the last start are put back. */
  ghost predicate Sound(env: Env, s: LedgerState) {
    exists lost :: Inv(env, WithLost(s, lost))
  }

  lemma SoundAsIs(env: Env, s: LedgerState)
    requires Inv(env, s)
    ensures Sound(env, s)
  {
    hide Inv;
    assert [] + s.auditEvents == s.auditEvents;
    assert WithLost(s, []) == s;
  }

  lemma SoundChain(env: Env, s: LedgerState)
    requires Sound(env, s)
    ensures Chained(env, s.entries)
  {
    hide Chained, EntriesOk, AccountsOk, PostingsOk, AnchorsOk, Partitioned, TrialBalance, SnapshotsOk, Numbered, Head;
    var lost :| Inv(env, WithLost(s, lost));
  }

  lemma CreateAccountSound(env: Env, s: LedgerState, req: CreateAccountRequest, freshId: string, clock: nat)
    requires Sound(env, s)
    ensures Sound(env, Ledger.CreateAccount(s, req, freshId, clock).0)
  {
    hide Inv, ValidateAccount, Decimal;
    var lost :| Inv(env, WithLost(s, lost));
    CreateAccountInv(env, WithLost(s, lost), req, freshId, clock);
    var s' := Ledger.CreateAccount(s, req, freshId, clock).0;
    assert WithLost(s', lost) == Ledger.CreateAccount(WithLost(s, lost), req, freshId, clock).0;
  }

  lemma SnapshotSound(env: Env, s: LedgerState, readings: nat -> nat)
    requires Sound(env, s)
    ensures Sound(env, s.(snapshots := SnapshotAll(s.entries, readings)))
  {
    hide Inv, SnapshotAll;
    var lost :| Inv(env, WithLost(s, lost));
    SnapshotInv(env, WithLost(s, lost), readings);
    var s' := s.(snapshots := SnapshotAll(s.entries, readings));
    assert WithLost(s', lost) == WithLost(s, lost).(snapshots := SnapshotAll(s.entries, readings));
  }

  lemma PostSound(env: Env, s: LedgerState, job: Job)
    requires Sound(env, s)
    ensures Sound(env, Ledger.Post(env, s, job).0)
  {
    hide Inv, Ledger.Post, WithLost;
    var lost :| Inv(env, WithLost(s, lost));
    PostInv(env, WithLost(s, lost), job);
    PostWithLost(env, s, job, lost);
  }

  lemma PostWithLost(env: Env, s: LedgerState, job: Job, lost: seq<AuditEvent>)
    ensures Ledger.Post(env, WithLost(s, lost), job).0 == WithLost(Ledger.Post(env, s, job).0, lost)
  {
    hide Ledger.Post;
    var full := WithLost(s, lost);
    PostSameBooks(env, s, s, job);
    PostSameBooks(env, full, s, job);
    PostedWithLost(s, lost, Ledger.Post(env, s, job).0);
  }

  lemma PostedWithLost(before: LedgerState, lost: seq<AuditEvent>, after: LedgerState)
    requires before.auditEvents <= after.auditEvents && after.snapshots == before.snapshots
    ensures Posted(before, WithLost(before, lost), after) == WithLost(after, lost)
  {
    assert lost + before.auditEvents + after.auditEvents[|before.auditEvents|..] == lost + after.auditEvents;
  }

  /** What hydration restores of a sound ledger is sound. */
  lemma RebuiltSound(env: Env, db: Tables, m: LedgerState, rows: seq<EntryRecord>, stored: seq<SnapshotRow>,
                     before: LedgerState)
    requires Inv(env, m) && Mirrors(db, m) && OrderedRows(rows, db.entries) && before.auditEvents == []
    requires SnapshotsOk(LoadSnapshots(db.entries, stored), db.entries)
    ensures Sound(env, Rebuild(db, rows, stored, before))
  {
    hide Rebuild, OrderedRows, LoadSnapshots, Chained, EntriesOk, AccountsOk, PostingsOk, AnchorsOk, Partitioned,
      TrialBalance, SnapshotsOk, Numbered, Head, PostingRows, BooksOk;
    InvBooks(env, m);
    RebuildMirror(db, m, rows, stored, before);
    var rebuilt := Rebuild(db, rows, stored, before);
    assert m.auditEvents + [] == m.auditEvents;
    assert WithLost(rebuilt, m.auditEvents) == m.(snapshots := LoadSnapshots(m.entries, stored));
  }

  /** What has been grouped under an id is that posting's rows, in order. */
  ghost predicate GroupsOf(byPosting: map<string, seq<EntryRecord>>, rows: seq<EntryRecord>) {
    forall id :: Rows(rows, id) == if id in byPosting then byPosting[id] else []
  }

  /** Groups rows by posting, in order, and finds the largest sequence number; stops at an amount
      that is too wide. */
  method GroupRows(rows: seq<EntryRecord>)
    returns (ok: bool, byPosting: map<string, seq<EntryRecord>>, newSequence: nat)
    ensures ok <==> AmountsFit(rows)
    ensures ok ==> newSequence == MaxSequence(rows) && GroupsOf(byPosting, rows)
  {
    hide GroupsOf, MaxSequence, AmountsFit;
    byPosting, newSequence := map[], 0;
    NoRowsYet();
    assert rows[..0] == [];
    for i := 0 to |rows|
      invariant AmountsFit(rows[..i])
      invariant newSequence == MaxSequence(rows[..i])
      invariant GroupsOf(byPosting, rows[..i])
    {
      var record := rows[i];
      AmountsNext(rows, i);
      if record.amount >= 0x1_0000_0000_0000_0000 {
        return false, byPosting, newSequence;
      }
      MaxNext(rows, i);
      if record.sequenceNumber > newSequence {
        newSequence := record.sequenceNumber;
      }
      GroupNext(byPosting, rows, i);
      var sofar := if record.postingId in byPosting then byPosting[record.postingId] else [];
      byPosting := byPosting[record.postingId := sofar + [record]];
    }
    assert rows[..|rows|] == rows;
    return true, byPosting, newSequence;
  }

  lemma NoRowsYet()
    ensures MaxSequence([]) == 0 && GroupsOf(map[], []) && AmountsFit([])
  {
  }

  lemma AmountsNext(rows: seq<EntryRecord>, i: nat)
    requires i < |rows| && AmountsFit(rows[..i])
    ensures rows[i].amount >= 0x1_0000_0000_0000_0000 ==> !AmountsFit(rows)
    ensures rows[i].amount < 0x1_0000_0000_0000_0000 ==> AmountsFit(rows[..i + 1])
  {
    assert rows[..i + 1] == rows[..i] + [rows[i]];
  }

  lemma MaxNext(rows: seq<EntryRecord>, i: nat)
    requires i < |rows|
    ensures var before, e := MaxSequence(rows[..i]), rows[i];
      MaxSequence(rows[..i + 1]) == if e.sequenceNumber > before then e.sequenceNumber else before
  {
    assert rows[..i + 1][..i] == rows[..i];
  }

  lemma GroupNext(byPosting: map<string, seq<EntryRecord>>, rows: seq<EntryRecord>, i: nat)
    requires i < |rows| && GroupsOf(byPosting, rows[..i])
    ensures var id := rows[i].postingId;
      var sofar := if id in byPosting then byPosting[id] else [];
      GroupsOf(byPosting[id := sofar + [rows[i]]], rows[..i + 1])
  {
    hide Rows;
    var record := rows[i];
    var sofar := if record.postingId in byPosting then byPosting[record.postingId] else [];
    var longer := byPosting[record.postingId := sofar + [record]];
    forall id ensures Rows(rows[..i + 1], id) == if id in longer then longer[id] else [] {
      RowsNext(rows, i, id);
      assert Rows(rows[..i], id) == if id in byPosting then byPosting[id] else [];
    }
  }

  lemma RowsNext(rows: seq<EntryRecord>, i: nat, id: string)
    requires i < |rows|
    ensures Rows(rows[..i + 1], id)
         == if rows[i].postingId == id then Rows(rows[..i], id) + [rows[i]] else Rows(rows[..i], id)
  {
    assert rows[..i + 1][..i] == rows[..i];
  }

  /** Reads snapshots back, looking up the last entry of each; stops at a balance that is too wide. */
  method LoadRows(table: seq<EntryRecord>, stored: seq<SnapshotRow>) returns (ok: bool, snaps: seq<BalanceSnapshot>)
    ensures ok <==> BalancesFit(stored)
    ensures ok ==> snaps == LoadSnapshots(table, stored)
  {
    hide LoadSnapshot;
    snaps := [];
    for i := 0 to |stored|
      invariant BalancesFit(stored[..i])
      invariant |snaps| == i && forall k :: 0 <= k < i ==> snaps[k] == LoadSnapshot(table, stored[k])
    {
      var b := stored[i].balance;
      if !(-0x8000_0000_0000_0000_0000_0000_0000_0000 <= b < 0x8000_0000_0000_0000_0000_0000_0000_0000) {
        return false, snaps;
      }
      snaps := snaps + [LoadSnapshot(table, stored[i])];
    }
    return true, snaps;
  }

  /** Each posting with the rows grouped under its id. */
  function AttachRows(table: map<string, PostingRow>, byPosting: map<string, seq<EntryRecord>>)
    : map<string, PostingRecord>
  {
    map id | id in table :: RecordOf(table[id], if id in byPosting then byPosting[id] else [])
  }

  lemma AttachGrouped(table: map<string, PostingRow>, byPosting: map<string, seq<EntryRecord>>, rows: seq<EntryRecord>)
    requires GroupsOf(byPosting, rows)
    ensures AttachRows(table, byPosting) == Attached(table, rows)
  {
    hide Rows, RecordOf;
  }

  lemma EntryIs(env: Env, b: Batch, prev: string, i: nat)
    requires i < |b.lines|
    ensures var l, id := b.lines[i], b.ids[i];
      MakeEntry(env, b, prev, i)
      == EntryRecord(id, b.postingId, l.accountId, DirText(l.dir), l.amount, l.asset, b.sequence + 1 + i, prev,
           ComputeHash(env, prev, Canonical(Fields(prev, id, l.accountId, l.dir, l.amount, l.asset, b.createdAt))),
             b.createdAt)
  {
    hide Canonical, ComputeHash;
  }

  lemma HeadIs(rows: seq<EntryRecord>)
    ensures Head(rows) == if rows == [] then Genesis() else rows[|rows| - 1].thisHash
  {
  }

  lemma NoAccounts(log: seq<EntryRecord>, asset: string)
    ensures Sum(log, InAccounts({}, asset)) == 0
  {
    SumZero(log, InAccounts({}, asset));
  }

  // ---------- Validation ----------

  /** The amount of each entry, in order. */
  method AmountErrors(es: seq<EntryInput>) returns (error: Option<Rejection>)
    ensures error == FirstError(es, CheckAmount)
  {
    hide CheckAmount;
    for i := 0 to |es|
      invariant FirstError(es, CheckAmount) == FirstError(es[i..], CheckAmount)
    {
      if CheckAmount(es[i]).Some? {
        return CheckAmount(es[i]);
      }
    }
    return None;
  }

  /** Parses the direction of each entry, in order. */
  method ParseEntries(es: seq<EntryInput>) returns (error: Option<Rejection>, lines: seq<Line>)
    ensures error == FirstError(es, CheckDirection)
    ensures error.None? ==> (forall e :: e in es ==> ParseDirection(e.direction).Some?) && lines == ParseLines(es)
  {
    hide FirstError, ParseDirection, ParseLine;
    lines := [];
    NoneParsed(es);
    for i := 0 to |es|
      invariant FirstError(es, CheckDirection) == FirstError(es[i..], CheckDirection)
      invariant |lines| == i
      invariant forall k :: 0 <= k < i ==> ParseDirection(es[k].direction).Some? && lines[k] == ParseLine(es[k])
    {
      var e := es[i];
      DirectionNext(es, i);
      match ParseDirection(e.direction) {
        case None => return Some(BadDirection), lines;
        case Some(d) => lines := lines + [Line(e.accountId, d, e.amount, e.asset)];
      }
    }
    AllParsed(es, lines);
    error := None;
  }

  lemma NoneParsed(es: seq<EntryInput>)
    ensures FirstError(es[0..], CheckDirection) == FirstError(es, CheckDirection)
    ensures FirstError(es[|es|..], CheckDirection) == None
  {
    assert es[0..] == es;
  }

  lemma DirectionNext(es: seq<EntryInput>, i: nat)
    requires i < |es|
    ensures var d := ParseDirection(es[i].direction);
      && FirstError(es[i..], CheckDirection)
         == (if d.None? then Some(BadDirection) else FirstError(es[i + 1..], CheckDirection))
      && (d.Some? ==> ParseLine(es[i]) == Line(es[i].accountId, d.value, es[i].amount, es[i].asset))
  {
  }

  lemma AllParsed(es: seq<EntryInput>, lines: seq<Line>)
    requires |lines| == |es|
    requires forall k :: 0 <= k < |es| ==> ParseDirection(es[k].direction).Some? && lines[k] == ParseLine(es[k])
    ensures (forall e :: e in es ==> ParseDirection(e.direction).Some?) && lines == ParseLines(es)
  {
    hide ParseDirection, ParseLine;
  }

  /** The checks of `post` that read no state, in the order it makes them. */
  method ValidateRequest(req: PostingRequest) returns (r: Checked)
    ensures r == Validate(req)
  {
    hide CheckAmount, CheckDirection, Balanced, FirstError;
    if req.entries == [] {
      return Bad(Validation(NoEntries));
    }
    if |req.entries| > MAX_ENTRIES_PER_POSTING {
      return Bad(Validation(TooManyEntries));
    }
    var error := AmountErrors(req.entries);
    if error.Some? {
      return Bad(Validation(error.value));
    }
    var badDirection, lines := ParseEntries(req.entries);
    if badDirection.Some? {
      return Bad(Validation(badDirection.value));
    }
    var ok := CheckBalance(lines);
    return if ok then Good(lines) else Bad(Unbalanced);
  }

  /** What has been collected for an asset is what the lines add up to. */
  ghost predicate Collected(totals: map<string, (int, int)>, lines: seq<Line>, asset: string) {
    (Total(lines, Debit, asset), Total(lines, Credit, asset)) == if asset in totals then totals[asset] else (0, 0)
  }

  lemma CollectLine(totals: map<string, (int, int)>, lines: seq<Line>, l: Line, asset: string)
    requires Collected(totals, lines, asset)
    ensures var (debits, credits) := if l.asset in totals then totals[l.asset] else (0, 0);
      Collected(totals[l.asset := if l.dir.Debit? then (debits + l.amount, credits) else (debits, credits + l.amount)],
                lines + [l], asset)
  {
    SumSnoc(lines, l, OneSide(Debit, asset));
    SumSnoc(lines, l, OneSide(Credit, asset));
  }

  /** Collects debits and credits asset by asset and compares them. */
  method CheckBalance(lines: seq<Line>) returns (ok: bool)
    ensures ok <==> Balanced(lines)
  {
    hide Total;
    var totals: map<string, (int, int)> := map[];
    forall asset ensures Collected(totals, lines[..0], asset) { NothingCollected(asset); }
    for i := 0 to |lines|
      invariant forall asset :: Collected(totals, lines[..i], asset)
    {
      var l := lines[i];
      var (debits, credits) := if l.asset in totals then totals[l.asset] else (0, 0);
      ghost var before := totals;
      totals := totals[l.asset := if l.dir.Debit? then (debits + l.amount, credits) else (debits, credits + l.amount)];
      ghost var taken := lines[..i + 1];
      assert taken == lines[..i] + [l];
      forall asset ensures Collected(totals, taken, asset) {
        CollectLine(before, lines[..i], l, asset);
      }
    }
    assert lines[..|lines|] == lines;
    var todo := totals.Keys;
    while todo != {}
      invariant todo <= totals.Keys
      invariant forall asset :: asset in totals.Keys - todo ==> totals[asset].0 == totals[asset].1
    {
      var asset :| asset in todo;
      assert Collected(totals, lines, asset);
      if totals[asset].0 != totals[asset].1 {
        return false;
      }
      todo := todo - {asset};
    }
    CollectedBalances(totals, lines);
    return true;
  }

  lemma CollectedBalances(totals: map<string, (int, int)>, lines: seq<Line>)
    requires forall asset :: Collected(totals, lines, asset)
    requires forall asset :: asset in totals ==> totals[asset].0 == totals[asset].1
    ensures Balanced(lines)
  {
    hide Total;
    forall asset ensures Total(lines, Debit, asset) == Total(lines, Credit, asset) {
      assert Collected(totals, lines, asset);
    }
  }

  lemma NothingCollected(asset: string)
    ensures Collected(map[], [], asset)
  {
  }
}
