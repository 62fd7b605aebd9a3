/** What a posting leaves in the ledger, field by field. */
module Contents {
  import opened Text
  import opened Posting
  import opened HashChain
  import opened Ledger
  import opened Links
  import opened Invariant
  import opened Runs

  /** What entry `i` of the request fixes of the entry written for it. */
  ghost predicate WrittenAs(e: EntryRecord, job: Job, i: nat)
    requires i < |job.req.entries|
  {
    var asked := job.req.entries[i];
    && e.entryId == job.ids[i] && e.postingId == job.req.postingId && e.accountId == asked.accountId
    && e.direction == asked.direction && e.amount == asked.amount && e.asset == asked.asset
    && e.createdAt == Decimal(job.clock)
  }

  /** The entry written for entry `i` of the request, in its place in the log. */
  ghost predicate AppendedAs(s: LedgerState, s': LedgerState, job: Job, i: nat)
    requires i < |job.req.entries| && |s'.entries| == |s.entries| + |job.req.entries|
  {
    var n := |s.entries| + i;
    var e := s'.entries[n];
    && WrittenAs(e, job, i) && e.sequenceNumber == n + 1
    && e.prevHash == (if n == 0 then Genesis() else s'.entries[n - 1].thisHash)
  }

  /** The batch a fresh job links. */
  ghost function FreshBatchOf(s: LedgerState, job: Job): Batch
    requires Validate(job.req).Good?
  {
    BatchOf(s.globalChainHead, s.sequence, job, Validate(job.req).lines)
  }

  lemma FreshState(env: Env, s: LedgerState, job: Job)
    requires Inv(env, s) && Post(env, s, job).1.Accepted? && !Post(env, s, job).1.replay
    ensures Validate(job.req).Good? && job.req.entries != []
    ensures var b, s' := FreshBatchOf(s, job), Post(env, s, job).0;
      && s' == Record(s, job.eventId, NewPosting(env, b, job))
      && Post(env, s, job).1 == Accepted(Respond(NewPosting(env, b, job)), false)
      && s'.entries == s.entries + Link(env, b) && |b.lines| == |job.req.entries| && s.sequence == |s.entries|
  {
    hide Inv, Validate, Link, Respond, EventOf, AnchorOf, Fresh, Decimal;
    InvParts(env, s);
    PostFresh(env, s, job);
    HasLines(job.req);
  }

  /** The line of an entry of the request. */
  lemma AskedLine(req: PostingRequest, i: nat)
    requires Validate(req).Good? && i < |req.entries|
    ensures var l, asked := Validate(req).lines[i], req.entries[i];
      && l.accountId == asked.accountId && DirText(l.dir) == asked.direction
      && l.amount == asked.amount && l.asset == asked.asset
  {
    hide Validate;
    GoodDirections(req);
    assert req.entries[i] in req.entries;
  }

  lemma BatchFields(s: LedgerState, job: Job)
    requires Validate(job.req).Good?
    ensures var b := FreshBatchOf(s, job);
      && b.ids == job.ids && b.postingId == job.req.postingId && b.createdAt == Decimal(job.clock)
      && b.sequence == s.sequence && b.lines == Validate(job.req).lines
  {
    hide Validate, Decimal;
  }

  /** The fields of a linked entry, from the request. */
  lemma LinkedAsked(env: Env, s: LedgerState, job: Job, i: nat)
    requires Validate(job.req).Good? && i < |job.req.entries|
    ensures var e := Link(env, FreshBatchOf(s, job))[i];
      WrittenAs(e, job, i) && e.sequenceNumber == s.sequence + 1 + i
  {
    hide Validate, Link, Decimal, FreshBatchOf, DirText;
    BatchFields(s, job);
    AskedLine(job.req, i);
    LinkedFields(env, FreshBatchOf(s, job), i);
  }

  /** With its number and the hash before it, in a log that ends with the batch. */
  lemma EntryAppended(env: Env, s: LedgerState, s': LedgerState, job: Job, es: seq<EntryRecord>, i: nat)
    requires i < |job.req.entries| == |es| && s'.entries == s.entries + es && Chained(env, s'.entries)
    requires WrittenAs(es[i], job, i) && es[i].sequenceNumber == |s.entries| + 1 + i
    ensures AppendedAs(s, s', job, i)
  {
    hide Genesis, Chained, WrittenAs, IsHash;
    ChainedPrevHash(env, s'.entries, |s.entries| + i);
  }

  /** The entries a posting adds: one for each entry of the request, in order, numbered on, each
      naming the hash before it. (Their own hashes are those of the chain, see `LinkSpelledOut`.) */
  lemma PostAppends(env: Env, s: LedgerState, job: Job)
    requires Inv(env, s) && Post(env, s, job).1.Accepted? && !Post(env, s, job).1.replay
    ensures var s', n, k := Post(env, s, job).0, |s.entries|, |job.req.entries|;
      && |s'.entries| == n + k && s'.entries[..n] == s.entries && Chained(env, s'.entries) && k > 0
      && forall i :: 0 <= i < k ==> AppendedAs(s, s', job, i)
  {
    hide Inv, Validate, Link, Chained, Respond, EventOf, AnchorOf, Fresh, Decimal, Genesis, Post, Record,
      NewPosting, WrittenAs, AppendedAs, FreshBatchOf;
    PostInv(env, s, job);
    InvParts(env, Post(env, s, job).0);
    FreshState(env, s, job);
    forall i | 0 <= i < |job.req.entries| ensures AppendedAs(s, Post(env, s, job).0, job, i) {
      LinkedAsked(env, s, job, i);
      EntryAppended(env, s, Post(env, s, job).0, job, Link(env, FreshBatchOf(s, job)), i);
    }
  }

  lemma HasLines(req: PostingRequest)
    requires Validate(req).Good?
    ensures req.entries != []
  {
    hide Balanced, CheckAmount, CheckDirection;
  }

  lemma InvParts(env: Env, s: LedgerState)
    requires Inv(env, s)
    ensures s.sequence == |s.entries| && Chained(env, s.entries) && s.globalChainHead == Head(s.entries)
  {
    hide Chained, EntriesOk, AccountsOk, PostingsOk, AnchorsOk, Partitioned, TrialBalance, SnapshotsOk, Numbered, Head;
  }

  /** Everything else a posting leaves: its record, anchor and audit event repeat the request, the
      ids of its entries and the hash of the last one; the answer says the same. */
  lemma PostRecords(env: Env, s: LedgerState, job: Job)
    requires Inv(env, s) && Post(env, s, job).1.Accepted? && !Post(env, s, job).1.replay
    ensures var (s', outcome) := Post(env, s, job);
      var n, id, now := |s.entries|, job.req.postingId, Decimal(job.clock);
      && |s'.entries| > n
      && var es, head := s'.entries[n..], s'.entries[|s'.entries| - 1].thisHash;
        && s'.postings == s.postings[id :=
             PostingRecord(id, job.req.refTxId, job.req.memo, "POSTED", head, es, now)]
        && s'.anchors == s.anchors[id := HashChainAnchor(id, head, head, now)]
        && s'.auditEvents == s.auditEvents + [AuditEvent(job.eventId, id, job.ids, head, now)]
        && s'.globalChainHead == head && s'.sequence == |s'.entries|
        && s'.accounts == s.accounts && s'.snapshots == s.snapshots
        && outcome.response == PostingResponse(id, "POSTED", job.ids, head)
  {
    hide Inv, Validate, Link, Decimal, Post, Record, Respond, NewPosting, FreshBatchOf;
    FreshState(env, s, job);
    BatchRecords(env, s, FreshBatchOf(s, job), job);
    BatchFields(s, job);
  }

  lemma BatchRecords(env: Env, s: LedgerState, b: Batch, job: Job)
    requires b.lines != [] && s.sequence == |s.entries|
    ensures var p, s' := NewPosting(env, b, job), Record(s, job.eventId, NewPosting(env, b, job));
      var id, now := job.req.postingId, Decimal(job.clock);
      && |s'.entries| > |s.entries|
      && var es, head := s'.entries[|s.entries|..], s'.entries[|s'.entries| - 1].thisHash;
        && s'.postings == s.postings[id :=
             PostingRecord(id, job.req.refTxId, job.req.memo, "POSTED", head, es, now)]
        && s'.anchors == s.anchors[id := HashChainAnchor(id, head, head, now)]
        && s'.auditEvents == s.auditEvents + [AuditEvent(job.eventId, id, b.ids, head, now)]
        && s'.globalChainHead == head && s'.sequence == |s'.entries|
        && s'.accounts == s.accounts && s'.snapshots == s.snapshots
        && Respond(p) == PostingResponse(id, "POSTED", b.ids, head)
  {
    hide Link, Decimal, EntryIds;
    LinkedIds(env, b);
    var es := Link(env, b);
    assert (s.entries + es)[|s.entries|..] == es;
    assert (s.entries + es)[|s.entries| + |es| - 1] == es[|es| - 1];
  }

  lemma LinkedIds(env: Env, b: Batch)
    ensures EntryIds(Link(env, b)) == b.ids
  {
    hide Link;
    forall i | 0 <= i < |b.lines| ensures EntryIds(Link(env, b))[i] == b.ids[i] {
      LinkedFields(env, b, i);
    }
  }

  /** A refusal says what the check that failed found; a replay answers with the stored posting. */
  lemma PostAnswers(env: Env, s: LedgerState, job: Job)
    ensures Validate(job.req).Bad? ==> Post(env, s, job) == (s, Rejected(Validate(job.req).error))
    ensures Validate(job.req).Good? && job.req.postingId in s.postings ==>
      var p := s.postings[job.req.postingId];
      Post(env, s, job) == (s, Accepted(PostingResponse(p.postingId, p.status, EntryIds(p.entries), p.hashHead), true))
    ensures Validate(job.req).Good? && job.req.postingId !in s.postings ==>
      CheckAccounts(s.accounts, Validate(job.req).lines).Some? ==>
        Post(env, s, job) == (s, Rejected(Validation(CheckAccounts(s.accounts, Validate(job.req).lines).value)))
  {
    hide Validate, CheckAccounts, NewPosting, Record;
  }

  /** The event lists the ids of its posting's rows in order, the hash of the last one and the time
      of the posting. */
  ghost predicate EventTells(s: LedgerState, ev: AuditEvent) {
    var rows := Rows(s.entries, ev.postingId);
    && ev.postingId in s.postings && rows != []
    && |ev.entryIds| == |rows| && (forall k :: 0 <= k < |rows| ==> ev.entryIds[k] == rows[k].entryId)
    && ev.hashHead == rows[|rows| - 1].thisHash && ev.createdAt == s.postings[ev.postingId].createdAt
  }

  /** Both heads of the anchor are the hash of its posting's last row. */
  ghost predicate AnchorTells(s: LedgerState, id: string, a: HashChainAnchor) {
    var rows := Rows(s.entries, id);
    && id in s.postings && rows != [] && a.postingId == id
    && a.headHash == rows[|rows| - 1].thisHash && a.globalSequenceHead == rows[|rows| - 1].thisHash
    && a.createdAt == s.postings[id].createdAt
  }

  lemma EventIsOk(env: Env, s: LedgerState, i: nat)
    requires Inv(env, s) && i < |s.auditEvents|
    ensures EventOk(s.auditEvents[i], s.postings) && s.auditEvents[i].postingId in s.postings
  {
    hide Chained, EntriesOk, AccountsOk, PostingsOk, AnchorsOk, TrialBalance, SnapshotsOk, Numbered, Head,
      Concatenation, EventIds, Distinct, EventOf;
    assert EventOk(s.auditEvents[i], s.postings);
  }

  lemma PostingIsOk(env: Env, s: LedgerState, id: string)
    requires Inv(env, s) && id in s.postings
    ensures PostingOk(s.entries, id, s.postings[id])
  {
    hide Chained, EntriesOk, AccountsOk, Partitioned, AnchorsOk, TrialBalance, SnapshotsOk, Numbered, Head, PostingOk;
  }

  lemma EventTold(env: Env, s: LedgerState, i: nat)
    requires Inv(env, s) && i < |s.auditEvents|
    ensures EventTells(s, s.auditEvents[i])
  {
    hide Inv, Rows, EventOk, PostingOk;
    EventIsOk(env, s, i);
    PostingIsOk(env, s, s.auditEvents[i].postingId);
    OkTells(s, s.auditEvents[i]);
  }

  lemma OkTells(s: LedgerState, ev: AuditEvent)
    requires EventOk(ev, s.postings) && PostingOk(s.entries, ev.postingId, s.postings[ev.postingId])
    ensures EventTells(s, ev)
  {
    hide Rows;
  }

  lemma AnchorTold(env: Env, s: LedgerState, id: string)
    requires Inv(env, s) && id in s.anchors
    ensures AnchorTells(s, id, s.anchors[id])
  {
    hide Inv, Rows;
    AnchorIsOk(env, s, id);
    PostingIsOk(env, s, id);
  }

  lemma AnchorIsOk(env: Env, s: LedgerState, id: string)
    requires Inv(env, s) && id in s.anchors
    ensures id in s.postings && s.anchors[id] == AnchorOf(s.postings[id])
  {
    hide Chained, EntriesOk, AccountsOk, Partitioned, PostingsOk, TrialBalance, SnapshotsOk, Numbered, Head, AnchorOf;
    assert id in s.anchors.Keys;
  }

  /** In every reachable state audit events and anchors say what the log says. */
  lemma AuditTrail(env: Env, s: LedgerState)
    requires Reachable(env, s)
    ensures forall i :: 0 <= i < |s.auditEvents| ==> EventTells(s, s.auditEvents[i])
    ensures forall id :: id in s.anchors ==> AnchorTells(s, id, s.anchors[id])
  {
    hide Inv, EventTells, AnchorTells, Reachable;
    ReachableInv(env, s);
    forall i | 0 <= i < |s.auditEvents| ensures EventTells(s, s.auditEvents[i]) {
      EventTold(env, s, i);
    }
    forall id | id in s.anchors ensures AnchorTells(s, id, s.anchors[id]) {
      AnchorTold(env, s, id);
    }
  }
}
