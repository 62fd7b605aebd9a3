/** What account statements contain, in terms of the log alone. */
module Windows {
  import opened Text
  import opened Sums
  import opened Posting
  import opened Ledger
  import opened Invariant
  import opened Statement

  /** The entry is the account's and lies within the time window, both ends included. */
  ghost predicate InWindow(q: Query, e: EntryRecord) {
    && e.accountId == q.accountId
    && (q.from.Some? ==> NotAfter(q.from.value, e.createdAt))
    && (q.to.Some? ==> NotAfter(e.createdAt, q.to.value))
  }

  lemma WantedExactly(q: Query, e: EntryRecord)
    ensures Wanted(q, e) <==> InWindow(q, e)
  {
    hide TextLe, NotAfter;
    if q.from.Some? { TextLeExact(q.from.value, e.createdAt); }
    if q.to.Some? { TextLeExact(e.createdAt, q.to.value); }
  }

  lemma {:induction false} SelectedExactly(log: seq<EntryRecord>, q: Query, cursor: Option<nat>, e: EntryRecord)
    ensures e in Select(log, q, cursor) <==>
      e in log && InWindow(q, e) && (cursor.Some? ==> e.sequenceNumber > cursor.value)
  {
    hide Wanted, InWindow;
    if log != [] {
      var front, last := log[..|log| - 1], log[|log| - 1];
      SelectedExactly(front, q, cursor, e);
      WantedExactly(q, last);
      assert log == front + [last];
    }
  }

  /** One page: in order, the first entries in the window with numbers above the cursor, as many as
      asked for but at least one and at most 200; each with the sum of the page up to it. There is a
      next cursor, the number of the page's last entry, exactly when there are entries left. */
  lemma PageExact(s: LedgerState, q: Query, limit: nat, cursor: Option<nat>)
    requires Numbered(s.entries)
    ensures var p, cap := PageOf(s, q, limit, cursor), if limit < 1 then 1 else if limit > 200 then 200 else limit;
      var es, next := EntriesOf(p), p.nextCursor;
      && p.accountId == q.accountId && p.finalBalance == Balance(s.entries, q.accountId, "")
      && Ascending(es)
      && (forall e :: e in es <==>
           && e in s.entries && InWindow(q, e) && (cursor.Some? ==> e.sequenceNumber > cursor.value)
           && (next.Some? ==> e.sequenceNumber <= next.value))
      && (if next.Some? then |es| == cap && es[cap - 1].sequenceNumber == next.value else |es| <= cap)
      && (next.Some? ==> exists e :: e in s.entries && InWindow(q, e) && e.sequenceNumber > next.value)
      && forall i :: 0 <= i < |es| ==> p.entries[i].runningBalance == Sum(es[..i + 1], SignedAmount())
  {
    hide InWindow, Select, SortBySequence, Running, Sum, Balance, EntriesOf, Numbered;
    var es, n := Select(s.entries, q, cursor), Clamp(limit);
    FromZero(s.entries);
    SelectedAscending(s.entries, 0, q, cursor);
    SortedAlready(es);
    RunningEntries(s, q, limit, cursor);
    forall e ensures e in es <==>
      e in s.entries && InWindow(q, e) && (cursor.Some? ==> e.sequenceNumber > cursor.value)
    {
      SelectedExactly(s.entries, q, cursor, e);
    }
    PageCut(es, n);
    RunningSums(s, q, limit, cursor);
    if |es| > n {
      assert es[n] in es && es[n].sequenceNumber > es[n - 1].sequenceNumber;
    }
  }

  lemma FromZero(log: seq<EntryRecord>)
    requires Numbered(log)
    ensures NumberedFrom(log, 0)
  {
  }

  /** The first `n` of ascending entries are those up to the n-th number. */
  lemma PageCut(es: seq<EntryRecord>, n: nat)
    requires Ascending(es) && n > 0
    ensures |es| > n ==> Ascending(es[..n])
    ensures |es| > n ==> forall e :: e in es[..n] <==> e in es && e.sequenceNumber <= es[n - 1].sequenceNumber
  {
    if |es| > n {
      forall e ensures e in es[..n] <==> e in es && e.sequenceNumber <= es[n - 1].sequenceNumber {
        if e in es[..n] {
          var i :| 0 <= i < n && es[i] == e;
        } else if e in es {
          var i :| 0 <= i < |es| && es[i] == e;
          assert i >= n;
        }
      }
    }
  }

  lemma RunningSums(s: LedgerState, q: Query, limit: nat, cursor: Option<nat>)
    ensures var p := PageOf(s, q, limit, cursor);
      var es := EntriesOf(p);
      forall i :: 0 <= i < |es| ==> p.entries[i].runningBalance == Sum(es[..i + 1], SignedAmount())
  {
    hide Select, SortBySequence, Sum;
    var p := PageOf(s, q, limit, cursor);
    var es := EntriesOf(p);
    RunningEntries(s, q, limit, cursor);
    assert p.entries == Running(es);
  }

  // ---------- All pages ----------

  /** What a reader who follows cursors to the end has got: every entry of the account in the window
      that the log held at the last read, each once, in order, and nothing else. */
  lemma ReadExactly(visits: seq<Visit>, q: Query)
    requires Growing(visits) && visits != []
    requires Follow(visits, q).done && !Follow(visits[..|visits| - 1], q).done
    ensures Ascending(Follow(visits, q).entries)
    ensures forall e :: e in Follow(visits, q).entries <==>
      e in visits[|visits| - 1].state.entries && InWindow(q, e)
  {
    hide InWindow, Select, Follow, Numbered;
    NothingLost(visits, q);
    var log := visits[|visits| - 1].state.entries;
    FromZero(log);
    SelectedAscending(log, 0, q, None);
    forall e ensures e in Select(log, q, None) <==> e in log && InWindow(q, e) {
      SelectedExactly(log, q, None, e);
    }
  }

  /** The entries of pages, one page after another. */
  function Listed(pages: seq<LedgerPage>): seq<EntryRecord> {
    if pages == [] then [] else EntriesOf(pages[0]) + Listed(pages[1..])
  }

  lemma {:induction false} AllPages(s: LedgerState, q: Query, limit: nat, cursor: Option<nat>, c: nat)
    requires Numbered(s.entries) && c <= |s.entries|
    requires cursor == Some(c) || (cursor == None && c == 0)
    ensures Listed(ReadAll(s, q, limit, cursor, c)) == Select(s.entries[c..], q, None)
    decreases |s.entries| - c
  {
    hide Select, PageOf, Numbered, Wanted, EntriesOf;
    PageMeaning(s, q, limit, cursor, c);
    var page, pages := PageOf(s, q, limit, cursor), ReadAll(s, q, limit, cursor, c);
    assert pages[0] == page;
    if page.nextCursor.Some? {
      var next := page.nextCursor.value;
      AllPages(s, q, limit, page.nextCursor, next);
      assert pages[1..] == ReadAll(s, q, limit, page.nextCursor, next);
      assert s.entries[c..] == s.entries[c..next] + s.entries[next..];
      SelectConcat(s.entries[c..next], s.entries[next..], q, None);
    } else {
      assert pages[1..] == [];
    }
  }

  /** An entry is on the pages of a log that stands still exactly when it is in the log, belongs to
      the account and lies in the window; the pages hold each once and in order. */
  lemma PagesExactly(s: LedgerState, q: Query, limit: nat)
    requires Numbered(s.entries)
    ensures var got := Listed(ReadAll(s, q, limit, None, 0));
      Ascending(got) && forall e :: e in got <==> e in s.entries && InWindow(q, e)
  {
    hide InWindow, Select, ReadAll, Listed, Numbered;
    AllPages(s, q, limit, None, 0);
    assert s.entries[0..] == s.entries;
    FromZero(s.entries);
    SelectedAscending(s.entries, 0, q, None);
    forall e ensures e in Select(s.entries, q, None) <==> e in s.entries && InWindow(q, e) {
      SelectedExactly(s.entries, q, None, e);
    }
  }
}
