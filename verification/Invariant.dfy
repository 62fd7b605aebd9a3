/** The ledger's invariant and its preservation by every operation. */
module Invariant {
  import opened Text
  import opened Sums
  import opened Posting
  import opened HashChain
  import opened Chart
  import opened Ledger
  import opened Links
  import opened Snapshots

  // ---------- The invariant, part by part ----------

  /** Entry `i` carries sequence number `i + 1`. */
  ghost predicate Numbered(log: seq<EntryRecord>) {
    forall i :: 0 <= i < |log| ==> log[i].sequenceNumber == i + 1
  }

  ghost predicate EntryOk(accounts: map<string, Account>, e: EntryRecord) {
    && ParseDirection(e.direction).Some?
    && 1 <= e.amount <= MAX_AMOUNT
    && FindAsset(e.asset).Some?
    && e.accountId in accounts
    && '|' !in e.createdAt
  }

  ghost predicate EntriesOk(accounts: map<string, Account>, ids: set<string>, log: seq<EntryRecord>) {
    forall i :: 0 <= i < |log| ==> EntryOk(accounts, log[i]) && log[i].postingId in ids
  }

  ghost predicate AccountsOk(accounts: map<string, Account>) {
    forall id :: id in accounts ==> accounts[id].accountId == id && UsableAccount(accounts, id)
  }

  /** The log's entries of one posting, in order. */
  function Rows(log: seq<EntryRecord>, postingId: string): (rows: seq<EntryRecord>)
    ensures forall e :: e in rows <==> e in log && e.postingId == postingId
  {
    if log == [] then []
    else
      var rows, last := Rows(log[..|log| - 1], postingId), log[|log| - 1];
      if last.postingId == postingId then rows + [last] else rows
  }

  /** A posting's record holds exactly its entries of the log. */
  ghost predicate PostingOk(log: seq<EntryRecord>, id: string, p: PostingRecord) {
    && p.postingId == id && p.status == "POSTED"
    && p.entries != [] && p.entries == Rows(log, id)
    && p.hashHead == p.entries[|p.entries| - 1].thisHash
  }

  ghost predicate PostingsOk(postings: map<string, PostingRecord>, log: seq<EntryRecord>) {
    forall id :: id in postings ==> PostingOk(log, id, postings[id])
  }

  /** There is one anchor for each posting, and it repeats the posting's head. */
  ghost predicate AnchorsOk(anchors: map<string, HashChainAnchor>, postings: map<string, PostingRecord>) {
    anchors.Keys == postings.Keys && forall id :: id in postings ==> anchors[id] == AnchorOf(postings[id])
  }

  ghost predicate EventOk(ev: AuditEvent, postings: map<string, PostingRecord>) {
    ev.postingId in postings && ev == EventOf(ev.eventId, postings[ev.postingId])
  }

  function Concatenation(events: seq<AuditEvent>, postings: map<string, PostingRecord>): seq<EntryRecord> {
    if events == [] then []
    else
      var front, id := Concatenation(events[..|events| - 1], postings), events[|events| - 1].postingId;
      front + (if id in postings then postings[id].entries else [])
  }

  function EventIds(events: seq<AuditEvent>): (ids: seq<string>)
    ensures |ids| == |events| && forall i :: 0 <= i < |events| ==> ids[i] == events[i].postingId
  {
    seq(|events|, i requires 0 <= i < |events| => events[i].postingId)
  }

  ghost predicate Distinct<T(!new)>(s: seq<T>) {
    forall i, j :: 0 <= i < j < |s| ==> s[i] != s[j]
  }

  /** The audit events, one for each posting, list the postings in the order of the log; the
      postings' entries are the consecutive segments of the log. */
  ghost predicate Partitioned(events: seq<AuditEvent>, postings: map<string, PostingRecord>, log: seq<EntryRecord>) {
    && (forall i :: 0 <= i < |events| ==> EventOk(events[i], postings))
    && Distinct(EventIds(events))
    && (forall id :: id in postings ==> id in EventIds(events))
    && Concatenation(events, postings) == log
  }

  /** No asset is created or destroyed. */
  ghost predicate TrialBalance(log: seq<EntryRecord>) {
    forall asset :: asset != "" ==> Sum(log, AssetDelta(asset)) == 0
  }

  /** The snapshot was built from an earlier log. */
  ghost predicate TakenFrom(snap: BalanceSnapshot, log: seq<EntryRecord>) {
    snap.asset != "" &&
    exists n :: 0 <= n <= |log| && snap == BuildSnapshot(log[..n], snap.accountId, snap.asset, snap.asOfTs)
  }

  ghost predicate SnapshotsOk(snaps: seq<BalanceSnapshot>, log: seq<EntryRecord>) {
    forall k :: 0 <= k < |snaps| ==> TakenFrom(snaps[k], log)
  }

  ghost predicate Inv(env: Env, s: LedgerState) {
    && s.sequence == |s.entries| && Numbered(s.entries)
    && Chained(env, s.entries) && s.globalChainHead == Head(s.entries)
    && EntriesOk(s.accounts, s.postings.Keys, s.entries)
    && AccountsOk(s.accounts)
    && PostingsOk(s.postings, s.entries)
    && AnchorsOk(s.anchors, s.postings)
    && Partitioned(s.auditEvents, s.postings, s.entries)
    && TrialBalance(s.entries)
    && SnapshotsOk(s.snapshots, s.entries)
  }

  lemma EmptyInv(env: Env)
    ensures Inv(env, EmptyState())
  {
  }

  // ---------- A fresh posting ----------

  /** The circumstances in which `post` records the batch `b` for `job` in state `s`. */
  ghost predicate Fresh(s: LedgerState, b: Batch, job: Job) {
    && |b.lines| == |job.ids| && b == BatchOf(s.globalChainHead, s.sequence, job, b.lines)
    && GoodLines(b.lines)
    && job.req.postingId !in s.postings
    && forall l :: l in b.lines ==> UsableAccount(s.accounts, l.accountId)
  }

  lemma DecimalPipeFree(n: nat)
    ensures '|' !in Decimal(n)
  {
  }

  lemma RecordNumbers(env: Env, log: seq<EntryRecord>, b: Batch)
    requires Numbered(log) && b.sequence == |log|
    ensures Numbered(log + Link(env, b))
  {
    hide Link;
    var longer := log + Link(env, b);
    forall i | 0 <= i < |longer| ensures longer[i].sequenceNumber == i + 1 {
      if i >= |log| {
        LinkedFields(env, b, i - |log|);
      }
    }
  }

  lemma RecordChain(env: Env, log: seq<EntryRecord>, b: Batch)
    requires Chained(env, log) && b.prev == Head(log)
    ensures Chained(env, log + Link(env, b))
    ensures HeadFrom(b.prev, Link(env, b)) == Head(log + Link(env, b))
  {
    hide Link, ChainedFrom;
    LinkedChain(env, b);
    ChainConcat(env, Genesis(), log, Link(env, b));
  }

  lemma LinkedEntryOk(env: Env, accounts: map<string, Account>, b: Batch, i: nat)
    requires GoodLines(b.lines) && '|' !in b.createdAt && i < |b.lines|
    requires forall l :: l in b.lines ==> UsableAccount(accounts, l.accountId)
    ensures EntryOk(accounts, Link(env, b)[i])
  {
    hide Link, Balanced;
    LinkedFields(env, b, i);
    assert b.lines[i] in b.lines;
  }

  lemma RecordEntries(env: Env, accounts: map<string, Account>, ids: set<string>, log: seq<EntryRecord>, b: Batch)
    requires EntriesOk(accounts, ids, log)
    requires GoodLines(b.lines) && '|' !in b.createdAt
    requires forall l :: l in b.lines ==> UsableAccount(accounts, l.accountId)
    ensures EntriesOk(accounts, ids + {b.postingId}, log + Link(env, b))
  {
    hide Link, EntryOk, GoodLines, UsableAccount;
    var longer := log + Link(env, b);
    forall i | 0 <= i < |longer|
      ensures EntryOk(accounts, longer[i]) && longer[i].postingId in ids + {b.postingId}
    {
      if i >= |log| {
        LinkedEntryOk(env, accounts, b, i - |log|);
        LinkedFields(env, b, i - |log|);
      }
    }
  }

  lemma {:induction false} RowsConcat(a: seq<EntryRecord>, b: seq<EntryRecord>, id: string)
    ensures Rows(a + b, id) == Rows(a, id) + Rows(b, id)
  {
    if b == [] {
      assert a + b == a;
    } else {
      var n := |b| - 1;
      assert (a + b)[..|a| + n] == a + b[..n];
      RowsConcat(a, b[..n], id);
    }
  }

  lemma {:induction false} RowsAll(es: seq<EntryRecord>, id: string)
    requires forall i :: 0 <= i < |es| ==> es[i].postingId == id
    ensures Rows(es, id) == es
  {
    if es != [] {
      RowsAll(es[..|es| - 1], id);
      assert es == es[..|es| - 1] + [es[|es| - 1]];
    }
  }

  lemma {:induction false} RowsNone(es: seq<EntryRecord>, id: string)
    requires forall i :: 0 <= i < |es| ==> es[i].postingId != id
    ensures Rows(es, id) == []
  {
    if es != [] {
      RowsNone(es[..|es| - 1], id);
    }
  }

  /** Appending a batch adds its entries as the rows of its own posting, and no other rows. */
  lemma RowsAppend(env: Env, log: seq<EntryRecord>, b: Batch, id: string)
    ensures Rows(log + Link(env, b), id) == Rows(log, id) + (if id == b.postingId then Link(env, b) else [])
  {
    hide LinkUpTo, Rows;
    var es := Link(env, b);
    forall i | 0 <= i < |es| ensures es[i].postingId == b.postingId {
      LinkedFields(env, b, i);
    }
    RowsConcat(log, es, id);
    if id == b.postingId { RowsAll(es, id); } else { RowsNone(es, id); }
  }

  lemma NewPostingOk(env: Env, log: seq<EntryRecord>, b: Batch, job: Job)
    requires GoodLines(b.lines) && b.postingId == job.req.postingId
    requires forall i :: 0 <= i < |log| ==> log[i].postingId != b.postingId
    ensures PostingOk(log + Link(env, b), b.postingId, NewPosting(env, b, job))
  {
    hide Link, Balanced, GoodLine, Rows, Decimal;
    RowsNone(log, b.postingId);
    RowsAppend(env, log, b, b.postingId);
  }

  lemma RecordPostings(env: Env, postings: map<string, PostingRecord>, log: seq<EntryRecord>, b: Batch, job: Job)
    requires PostingsOk(postings, log) && GoodLines(b.lines)
    requires b.postingId == job.req.postingId && b.postingId !in postings
    requires forall i :: 0 <= i < |log| ==> log[i].postingId in postings
    ensures PostingsOk(postings[b.postingId := NewPosting(env, b, job)], log + Link(env, b))
  {
    hide Link, GoodLines, NewPosting, PostingOk;
    NewPostingOk(env, log, b, job);
    var postings' := postings[b.postingId := NewPosting(env, b, job)];
    forall id | id in postings' ensures PostingOk(log + Link(env, b), id, postings'[id]) {
      if id != b.postingId {
        OldPostingOk(env, log, b, id, postings[id]);
      }
    }
  }

  lemma OldPostingOk(env: Env, log: seq<EntryRecord>, b: Batch, id: string, p: PostingRecord)
    requires PostingOk(log, id, p) && id != b.postingId
    ensures PostingOk(log + Link(env, b), id, p)
  {
    RowsAppend(env, log, b, id);
  }

  lemma {:induction false} ConcatenationStable(events: seq<AuditEvent>, postings: map<string, PostingRecord>,
                                               p: PostingRecord)
    requires forall i :: 0 <= i < |events| ==> events[i].postingId in postings
    requires p.postingId !in postings
    ensures Concatenation(events, postings[p.postingId := p]) == Concatenation(events, postings)
  {
    if events != [] {
      ConcatenationStable(events[..|events| - 1], postings, p);
      assert events[|events| - 1].postingId in postings;
    }
  }

  lemma RecordPartition(events: seq<AuditEvent>, postings: map<string, PostingRecord>, log: seq<EntryRecord>,
                        eventId: string, p: PostingRecord)
    requires Partitioned(events, postings, log) && p.postingId !in postings
    ensures Partitioned(events + [EventOf(eventId, p)], postings[p.postingId := p], log + p.entries)
  {
    hide EventOf, Concatenation, EventIds;
    var events', postings' := events + [EventOf(eventId, p)], postings[p.postingId := p];
    NewEvent(eventId, p);
    assert EventIds(events') == EventIds(events) + [p.postingId];
    forall i | 0 <= i < |events'| ensures EventOk(events'[i], postings') {
      assert i < |events| ==> EventOk(events[i], postings);
    }
    forall i | 0 <= i < |events| ensures EventIds(events)[i] != p.postingId {
      assert EventOk(events[i], postings);
    }
    forall id | id in postings' ensures id in EventIds(events') {
      assert id in postings ==> id in EventIds(events);
    }
    forall i | 0 <= i < |events| ensures events[i].postingId in postings { assert EventOk(events[i], postings); }
    ConcatenationStable(events, postings, p);
    ConcatenationSnoc(events, EventOf(eventId, p), postings');
  }

  lemma NewEvent(eventId: string, p: PostingRecord)
    ensures EventOf(eventId, p).eventId == eventId && EventOf(eventId, p).postingId == p.postingId
  {
  }

  lemma ConcatenationSnoc(events: seq<AuditEvent>, ev: AuditEvent, postings: map<string, PostingRecord>)
    requires ev.postingId in postings
    ensures Concatenation(events + [ev], postings) == Concatenation(events, postings) + postings[ev.postingId].entries
  {
    assert (events + [ev])[..|events|] == events;
  }

  lemma RecordTrial(env: Env, log: seq<EntryRecord>, b: Batch)
    requires TrialBalance(log) && GoodLines(b.lines)
    ensures TrialBalance(log + Link(env, b))
  {
    hide Link, Balanced;
    forall asset | asset != "" ensures Sum(log + Link(env, b), AssetDelta(asset)) == 0 {
      LinkedAsset(env, b, asset);
      SumConcat(log, Link(env, b), AssetDelta(asset));
    }
  }

  lemma SnapshotsGrow(snaps: seq<BalanceSnapshot>, log: seq<EntryRecord>, es: seq<EntryRecord>)
    requires SnapshotsOk(snaps, log)
    ensures SnapshotsOk(snaps, log + es)
  {
    forall k | 0 <= k < |snaps| ensures TakenFrom(snaps[k], log + es) {
      assert TakenFrom(snaps[k], log);
      var s := snaps[k];
      var n :| 0 <= n <= |log| && s == BuildSnapshot(log[..n], s.accountId, s.asset, s.asOfTs);
      assert (log + es)[..n] == log[..n];
    }
  }

  lemma RecordLogInv(env: Env, s: LedgerState, b: Batch, job: Job)
    requires Inv(env, s) && Fresh(s, b, job)
    ensures var log := s.entries + Link(env, b);
      && Numbered(log) && Chained(env, log) && HeadFrom(b.prev, Link(env, b)) == Head(log)
      && EntriesOk(s.accounts, s.postings.Keys + {b.postingId}, log)
      && TrialBalance(log) && SnapshotsOk(s.snapshots, log)
  {
    hide Chained, PostingsOk, Partitioned, AnchorsOk, TrialBalance, SnapshotsOk, Numbered, Link, AccountsOk,
      UsableAccount, GoodLines, Head, HeadFrom, EntriesOk, Decimal;
    DecimalPipeFree(job.clock);
    RecordNumbers(env, s.entries, b);
    RecordChain(env, s.entries, b);
    RecordEntries(env, s.accounts, s.postings.Keys, s.entries, b);
    RecordTrial(env, s.entries, b);
    SnapshotsGrow(s.snapshots, s.entries, Link(env, b));
  }

  lemma RecordAnchors(anchors: map<string, HashChainAnchor>, postings: map<string, PostingRecord>, p: PostingRecord)
    requires AnchorsOk(anchors, postings)
    ensures AnchorsOk(anchors[p.postingId := AnchorOf(p)], postings[p.postingId := p])
  {
  }

  lemma LoggedIds(accounts: map<string, Account>, postings: map<string, PostingRecord>, log: seq<EntryRecord>)
    requires EntriesOk(accounts, postings.Keys, log)
    ensures forall i :: 0 <= i < |log| ==> log[i].postingId in postings
  {
  }

  lemma RecordIndexInv(env: Env, s: LedgerState, b: Batch, job: Job)
    requires Inv(env, s) && Fresh(s, b, job)
    ensures var p, log := NewPosting(env, b, job), s.entries + Link(env, b);
      var postings := s.postings[p.postingId := p];
      && PostingsOk(postings, log)
      && AnchorsOk(s.anchors[p.postingId := AnchorOf(p)], postings)
      && Partitioned(s.auditEvents + [EventOf(job.eventId, p)], postings, log)
  {
    hide Chained, PostingsOk, Partitioned, TrialBalance, SnapshotsOk, Numbered, Link, AccountsOk, UsableAccount,
      GoodLines, Head, EntriesOk, Decimal, EventOf, AnchorOf, NewPosting, AnchorsOk;
    LoggedIds(s.accounts, s.postings, s.entries);
    RecordPostings(env, s.postings, s.entries, b, job);
    RecordAnchors(s.anchors, s.postings, NewPosting(env, b, job));
    RecordPartition(s.auditEvents, s.postings, s.entries, job.eventId, NewPosting(env, b, job));
  }

  lemma RecordInv(env: Env, s: LedgerState, b: Batch, job: Job)
    requires Inv(env, s) && Fresh(s, b, job)
    ensures Inv(env, Record(s, job.eventId, NewPosting(env, b, job)))
  {
    hide Chained, PostingsOk, Partitioned, TrialBalance, SnapshotsOk, Numbered, Link, AccountsOk, UsableAccount,
      GoodLines, Head, HeadFrom, EntriesOk, AnchorsOk, Decimal, EventOf, AnchorOf;
    RecordLogInv(env, s, b, job);
    RecordIndexInv(env, s, b, job);
    var p := NewPosting(env, b, job);
    assert s.postings[p.postingId := p].Keys == s.postings.Keys + {b.postingId};
  }

  // ---------- Every operation ----------

  lemma PostFresh(env: Env, s: LedgerState, job: Job)
    requires Post(env, s, job).1.Accepted? && !Post(env, s, job).1.replay
    ensures Validate(job.req).Good?
    ensures var b := BatchOf(s.globalChainHead, s.sequence, job, Validate(job.req).lines);
      && Fresh(s, b, job)
      && Post(env, s, job)
         == (Record(s, job.eventId, NewPosting(env, b, job)), Accepted(Respond(NewPosting(env, b, job)), false))
  {
    hide Validate, Record, NewPosting, UsableAccount, GoodLines, CheckAccounts;
    ValidatedLines(job.req);
    AccountsExact(s.accounts, Validate(job.req).lines);
  }

  lemma PostInv(env: Env, s: LedgerState, job: Job)
    requires Inv(env, s)
    ensures Inv(env, Post(env, s, job).0)
  {
    hide Inv, Validate, Record, NewPosting, CheckAccounts;
    if Post(env, s, job).1.Accepted? && !Post(env, s, job).1.replay {
      PostFresh(env, s, job);
      RecordInv(env, s, BatchOf(s.globalChainHead, s.sequence, job, Validate(job.req).lines), job);
    }
  }

  lemma CreatedAccountOk(s: LedgerState, req: CreateAccountRequest, freshId: string, clock: nat)
    requires AccountsOk(s.accounts)
    ensures AccountsOk(CreateAccount(s, req, freshId, clock).0.accounts)
  {
    hide FindType;
  }

  lemma EntriesOkGrow(accounts: map<string, Account>, accounts': map<string, Account>, ids: set<string>,
                      log: seq<EntryRecord>)
    requires EntriesOk(accounts, ids, log) && accounts.Keys <= accounts'.Keys
    ensures EntriesOk(accounts', ids, log)
  {
    forall i | 0 <= i < |log| ensures EntryOk(accounts', log[i]) && log[i].postingId in ids {
      assert EntryOk(accounts, log[i]);
    }
  }

  lemma CreateAccountInv(env: Env, s: LedgerState, req: CreateAccountRequest, freshId: string, clock: nat)
    requires Inv(env, s)
    ensures Inv(env, CreateAccount(s, req, freshId, clock).0)
  {
    hide Chained, PostingsOk, Partitioned, TrialBalance, SnapshotsOk, Numbered, AccountsOk,
      EntriesOk, AnchorsOk, FindType;
    CreatedAccountOk(s, req, freshId, clock);
    EntriesOkGrow(s.accounts, CreateAccount(s, req, freshId, clock).0.accounts, s.postings.Keys, s.entries);
  }

  lemma KeysHaveAssets(accounts: map<string, Account>, ids: set<string>, log: seq<EntryRecord>, k: (string, string))
    requires EntriesOk(accounts, ids, log) && k in Keys(log)
    ensures FindAsset(k.1).Some? && k.1 != "" && k.0 in accounts
  {
    hide Keys;
    var i :| 0 <= i < |log| && KeyOf(log[i]) == k;
    assert EntryOk(accounts, log[i]);
  }

  lemma SnapshotsTaken(accounts: map<string, Account>, ids: set<string>, log: seq<EntryRecord>, clock: nat -> nat)
    requires EntriesOk(accounts, ids, log)
    ensures SnapshotsOk(SnapshotAll(log, clock), log)
  {
    hide EntriesOk, Keys, BuildSnapshot;
    var ks, snaps := Keys(log), SnapshotAll(log, clock);
    assert log[..|log|] == log;
    forall k | 0 <= k < |snaps| ensures TakenFrom(snaps[k], log) {
      assert ks[k] in ks;
      KeysHaveAssets(accounts, ids, log, ks[k]);
      BuiltAs(log, ks[k].0, ks[k].1, Decimal(clock(k)));
    }
  }

  lemma BuiltAs(log: seq<EntryRecord>, accountId: string, asset: string, asOfTs: string)
    requires asset != ""
    ensures var s := BuildSnapshot(log, accountId, asset, asOfTs);
      s.accountId == accountId && s.asset == asset && s.asOfTs == asOfTs
  {
  }

  lemma SnapshotInv(env: Env, s: LedgerState, clock: nat -> nat)
    requires Inv(env, s)
    ensures Inv(env, s.(snapshots := SnapshotAll(s.entries, clock)))
  {
    hide Chained, PostingsOk, Partitioned, TrialBalance, SnapshotsOk, Numbered, AccountsOk,
      EntriesOk, AnchorsOk, SnapshotAll;
    SnapshotsTaken(s.accounts, s.postings.Keys, s.entries, clock);
  }
}
