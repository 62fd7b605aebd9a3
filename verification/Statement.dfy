/** Account statements read page by page. */
module Statement {
  import opened Text
  import opened Sums
  import opened Posting
  import opened Ledger
  import opened HashChain
  import opened Invariant
  import opened Runs

  datatype LedgerEntryItem = Item(entry: EntryRecord, runningBalance: int)

  datatype LedgerPage = LedgerPage(
    accountId: string, entries: seq<LedgerEntryItem>, nextCursor: Option<nat>, finalBalance: int)

  datatype Query = Query(accountId: string, from: Option<string>, to: Option<string>)

  predicate Wanted(q: Query, e: EntryRecord) {
    && e.accountId == q.accountId
    && (q.from.Some? ==> TextLe(q.from.value, e.createdAt))
    && (q.to.Some? ==> TextLe(e.createdAt, q.to.value))
  }

  predicate Past(cursor: Option<nat>, e: EntryRecord) {
    cursor.Some? ==> e.sequenceNumber > cursor.value
  }

  /** The matching entries of the log after the cursor, in log order. */
  function Select(log: seq<EntryRecord>, q: Query, cursor: Option<nat>): seq<EntryRecord> {
    if log == [] then []
    else
      var front, last := Select(log[..|log| - 1], q, cursor), log[|log| - 1];
      if Wanted(q, last) && Past(cursor, last) then front + [last] else front
  }

  function Insert(e: EntryRecord, es: seq<EntryRecord>): (r: seq<EntryRecord>)
    ensures |r| == |es| + 1
  {
    if es == [] || es[|es| - 1].sequenceNumber <= e.sequenceNumber then es + [e]
    else Insert(e, es[..|es| - 1]) + [es[|es| - 1]]
  }

  /** Stable sort by sequence number. */
  function SortBySequence(es: seq<EntryRecord>): (r: seq<EntryRecord>)
    ensures |r| == |es|
  {
    if es == [] then [] else Insert(es[|es| - 1], SortBySequence(es[..|es| - 1]))
  }

  ghost predicate InOrder(es: seq<EntryRecord>) {
    forall i, j :: 0 <= i < j < |es| ==> es[i].sequenceNumber <= es[j].sequenceNumber
  }

  /** The sort orders by sequence number and neither loses nor adds an entry. */
  lemma {:induction false} SortOrders(es: seq<EntryRecord>)
    ensures InOrder(SortBySequence(es)) && multiset(SortBySequence(es)) == multiset(es)
  {
    hide InOrder;
    if es == [] {
      NothingToOrder();
    } else {
      SortOrders(es[..|es| - 1]);
      InsertOrders(es[|es| - 1], SortBySequence(es[..|es| - 1]));
      assert es == es[..|es| - 1] + [es[|es| - 1]];
    }
  }

  lemma NothingToOrder()
    ensures InOrder([])
  {
  }

  lemma {:induction false} InsertOrders(e: EntryRecord, es: seq<EntryRecord>)
    requires InOrder(es)
    ensures InOrder(Insert(e, es)) && multiset(Insert(e, es)) == multiset(es) + multiset{e}
  {
    if es != [] && es[|es| - 1].sequenceNumber > e.sequenceNumber {
      var front, last := es[..|es| - 1], es[|es| - 1];
      InsertOrders(e, front);
      assert es == front + [last];
      forall x | x in Insert(e, front) ensures x.sequenceNumber <= last.sequenceNumber {
        assert x in multiset(front) + multiset{e};
        if x in front { LastIsLargest(es, x); }
      }
      OneMoreInOrder(Insert(e, front), last);
    } else if es != [] {
      forall x | x in es ensures x.sequenceNumber <= e.sequenceNumber {
        LastIsLargest(es, x);
      }
      OneMoreInOrder(es, e);
    }
  }

  lemma LastIsLargest(es: seq<EntryRecord>, x: EntryRecord)
    requires InOrder(es) && x in es
    ensures x.sequenceNumber <= es[|es| - 1].sequenceNumber
  {
    var i :| 0 <= i < |es| && es[i] == x;
  }

  lemma OneMoreInOrder(es: seq<EntryRecord>, last: EntryRecord)
    requires InOrder(es) && forall x :: x in es ==> x.sequenceNumber <= last.sequenceNumber
    ensures InOrder(es + [last])
  {
  }

  function Clamp(limit: nat): nat {
    if limit < 1 then 1 else if limit > 200 then 200 else limit
  }

  function SignedAmount(): EntryRecord -> int {
    (e: EntryRecord) => Delta(e)
  }

  function Running(es: seq<EntryRecord>): (items: seq<LedgerEntryItem>)
    ensures |items| == |es|
    ensures forall i :: 0 <= i < |es| ==> items[i] == Item(es[i], Sum(es[..i + 1], SignedAmount()))
  {
    seq(|es|, i requires 0 <= i < |es| => Item(es[i], Sum(es[..i + 1], SignedAmount())))
  }

  /** One page: the first entries after the cursor, each with the sum of the page up to it. */
  function PageOf(s: LedgerState, q: Query, limit: nat, cursor: Option<nat>): LedgerPage {
    var es, n := SortBySequence(Select(s.entries, q, cursor)), Clamp(limit);
    LedgerPage(q.accountId, Running(if |es| > n then es[..n] else es),
      if |es| > n then Some(es[n - 1].sequenceNumber) else None,
      Balance(s.entries, q.accountId, ""))
  }

  /** `ledger`: `None` when the account does not exist. */
  method ReadPage(s: LedgerState, q: Query, limit: nat, cursor: Option<nat>) returns (r: Option<LedgerPage>)
    ensures r.None? <==> q.accountId !in s.accounts
    ensures r.Some? ==> r.value == PageOf(s, q, limit, cursor)
  {
    hide Delta;
    if q.accountId !in s.accounts {
      return None;
    }
    var found: seq<EntryRecord> := [];
    for i := 0 to |s.entries|
      invariant found == Select(s.entries[..i], q, cursor)
    {
      assert s.entries[..i + 1][..i] == s.entries[..i];
      var e := s.entries[i];
      if Wanted(q, e) && Past(cursor, e) {
        found := found + [e];
      }
    }
    assert s.entries[..|s.entries|] == s.entries;
    var es := SortBySequence(found);
    var n := Clamp(limit);
    var nextCursor := if |es| > n then Some(es[n - 1].sequenceNumber) else None;
    var taken := if |es| > n then es[..n] else es;
    var items := Scan(taken);
    return Some(LedgerPage(q.accountId, items, nextCursor, Balance(s.entries, q.accountId, "")));
  }

  /** The running scan of a page, which starts at zero. */
  method Scan(taken: seq<EntryRecord>) returns (items: seq<LedgerEntryItem>)
    ensures items == Running(taken)
  {
    hide Delta;
    items := [];
    var acc := 0;
    for i := 0 to |taken|
      invariant |items| == i && acc == Sum(taken[..i], SignedAmount())
      invariant forall k :: 0 <= k < i ==> items[k] == Item(taken[k], Sum(taken[..k + 1], SignedAmount()))
    {
      assert taken[..i + 1] == taken[..i] + [taken[i]];
      SumSnoc(taken[..i], taken[i], SignedAmount());
      acc := acc + Delta(taken[i]);
      items := items + [Item(taken[i], acc)];
    }
  }

  // ---------- Selection over a numbered log ----------

  ghost predicate NumberedFrom(log: seq<EntryRecord>, base: nat) {
    forall i :: 0 <= i < |log| ==> log[i].sequenceNumber == base + i + 1
  }

  /** Already in order, hence left alone by the sort. */
  ghost predicate Ascending(es: seq<EntryRecord>) {
    forall i, j :: 0 <= i < j < |es| ==> es[i].sequenceNumber < es[j].sequenceNumber
  }

  lemma {:induction false} SortedAlready(es: seq<EntryRecord>)
    requires Ascending(es)
    ensures SortBySequence(es) == es
  {
    if es != [] {
      SortedAlready(es[..|es| - 1]);
      assert es == es[..|es| - 1] + [es[|es| - 1]];
    }
  }

  lemma {:induction false} SelectedAscending(log: seq<EntryRecord>, base: nat, q: Query, cursor: Option<nat>)
    requires NumberedFrom(log, base)
    ensures var es := Select(log, q, cursor);
      Ascending(es) && forall i :: 0 <= i < |es| ==> base < es[i].sequenceNumber <= base + |log|
  {
    hide Wanted, Past;
    if log != [] {
      SelectedAscending(log[..|log| - 1], base, q, cursor);
    }
  }

  lemma {:induction false} SelectConcat(a: seq<EntryRecord>, b: seq<EntryRecord>, q: Query, cursor: Option<nat>)
    ensures Select(a + b, q, cursor) == Select(a, q, cursor) + Select(b, q, cursor)
  {
    hide Wanted, Past;
    if b == [] {
      assert a + b == a;
    } else {
      assert (a + b)[..|a + b| - 1] == a + b[..|b| - 1];
      SelectConcat(a, b[..|b| - 1], q, cursor);
    }
  }

  /** The cursor skips exactly the entries numbered up to it. */
  lemma {:induction false} SelectPast(log: seq<EntryRecord>, base: nat, q: Query, c: nat)
    requires NumberedFrom(log, base)
    ensures c <= base ==> Select(log, q, Some(c)) == Select(log, q, None)
    ensures base + |log| <= c ==> Select(log, q, Some(c)) == []
  {
    hide Wanted;
    if log != [] {
      SelectPast(log[..|log| - 1], base, q, c);
    }
  }

  lemma SelectAfter(log: seq<EntryRecord>, q: Query, c: nat)
    requires Numbered(log) && c <= |log|
    ensures Select(log, q, Some(c)) == Select(log[c..], q, None)
  {
    hide Wanted, Past;
    assert log == log[..c] + log[c..];
    SelectConcat(log[..c], log[c..], q, Some(c));
    SelectPast(log[..c], 0, q, c);
    SelectPast(log[c..], c, q, c);
  }

  /** Cutting the selection after its k-th entry is cutting the log at that entry's number. */
  lemma {:induction false} SelectTake(log: seq<EntryRecord>, base: nat, q: Query, k: nat)
    requires NumberedFrom(log, base) && 1 <= k <= |Select(log, q, None)|
    ensures var es := Select(log, q, None);
      var c := es[k - 1].sequenceNumber;
      base < c <= base + |log| && Select(log[..c - base], q, None) == es[..k]
    decreases |log|
  {
    hide Wanted;
    var front := log[..|log| - 1];
    if k <= |Select(front, q, None)| {
      SelectTake(front, base, q, k);
      var c := Select(front, q, None)[k - 1].sequenceNumber;
      assert log[..c - base] == front[..c - base];
    } else {
      assert log[..|log|] == log;
    }
  }

  function EntriesOf(p: LedgerPage): (es: seq<EntryRecord>)
    ensures |es| == |p.entries| && forall i :: 0 <= i < |es| ==> es[i] == p.entries[i].entry
  {
    seq(|p.entries|, i requires 0 <= i < |p.entries| => p.entries[i].entry)
  }

  /** What a page holds, when the reader has seen everything up to number `c`. */
  lemma PageMeaning(s: LedgerState, q: Query, limit: nat, cursor: Option<nat>, c: nat)
    requires Numbered(s.entries) && c <= |s.entries|
    requires cursor == Some(c) || (cursor == None && c == 0)
    ensures var p := PageOf(s, q, limit, cursor);
      match p.nextCursor
      case Some(next) => c < next <= |s.entries| && EntriesOf(p) == Select(s.entries[c..next], q, None)
      case None => EntriesOf(p) == Select(s.entries[c..], q, None)
  {
    hide Wanted, Past, Select, SortBySequence, Running, Sum;
    var rest, n := s.entries[c..], Clamp(limit);
    var es := Select(rest, q, None);
    if cursor == Some(c) { SelectAfter(s.entries, q, c); } else { assert s.entries[0..] == s.entries; }
    assert Select(s.entries, q, cursor) == es;
    SelectedAscending(rest, c, q, None);
    SortedAlready(es);
    RunningEntries(s, q, limit, cursor);
    if |es| > n {
      SelectTake(rest, c, q, n);
      var next := es[n - 1].sequenceNumber;
      assert rest[..next - c] == s.entries[c..next];
    }
  }

  lemma RunningEntries(s: LedgerState, q: Query, limit: nat, cursor: Option<nat>)
    ensures var es, n := SortBySequence(Select(s.entries, q, cursor)), Clamp(limit);
      EntriesOf(PageOf(s, q, limit, cursor)) == if |es| > n then es[..n] else es
  {
    hide Select, SortBySequence, Sum;
  }

  // ---------- Reading on while the log grows ----------

  datatype Visit = Visit(state: LedgerState, limit: nat)

  datatype Progress = Progress(entries: seq<EntryRecord>, cursor: Option<nat>, done: bool)

  /** A reader that starts without a cursor and follows each page's cursor in whatever state the
      store is in when it asks. */
  ghost function Follow(visits: seq<Visit>, q: Query): Progress {
    if visits == [] then Progress([], None, false)
    else
      var p, now := Follow(visits[..|visits| - 1], q), visits[|visits| - 1];
      if p.done then p
      else
        var page := PageOf(now.state, q, now.limit, p.cursor);
        Progress(p.entries + EntriesOf(page), page.nextCursor, page.nextCursor.None?)
  }

  ghost predicate Growing(visits: seq<Visit>) {
    && (forall i :: 0 <= i < |visits| ==> Numbered(visits[i].state.entries))
    && (forall i, j :: 0 <= i < j < |visits| ==> visits[i].state.entries <= visits[j].state.entries)
  }

  function LogAt(visits: seq<Visit>): seq<EntryRecord> {
    if visits == [] then [] else visits[|visits| - 1].state.entries
  }

  function Seen(p: Progress): nat {
    if p.cursor.Some? then p.cursor.value else 0
  }

  lemma {:induction false} FollowMeaning(visits: seq<Visit>, q: Query)
    requires Growing(visits)
    ensures var p, log := Follow(visits, q), LogAt(visits);
      !p.done ==> Seen(p) <= |log| && p.entries == Select(log[..Seen(p)], q, None)
    ensures var p := Follow(visits, q);
      p.done && !Follow(visits[..if visits == [] then 0 else |visits| - 1], q).done ==>
        p.entries == Select(LogAt(visits), q, None)
  {
    hide Select, PageOf, Wanted;
    if visits == [] {
      SelectNothing(q);
    } else {
      var before, now := visits[..|visits| - 1], visits[|visits| - 1];
      FollowMeaning(before, q);
      var p := Follow(before, q);
      if !p.done {
        var c, log := Seen(p), now.state.entries;
        assert LogAt(before) <= log;
        assert log[..c] == LogAt(before)[..c];
        PageMeaning(now.state, q, now.limit, p.cursor, c);
        var page := PageOf(now.state, q, now.limit, p.cursor);
        var upTo := if page.nextCursor.Some? then page.nextCursor.value else |log|;
        assert log[..upTo] == log[..c] + log[c..upTo];
        assert log[..|log|] == log;
        SelectConcat(log[..c], log[c..upTo], q, None);
      }
    }
  }

  lemma SelectNothing(q: Query)
    ensures Select([], q, None) == []
  {
  }

  /** Following cursors from the start until there is none loses nothing, repeats nothing and
      keeps the order: the pages together are the statement as of the last page read, however the
      log grew between reads and whatever limits were asked for. */
  lemma NothingLost(visits: seq<Visit>, q: Query)
    requires Growing(visits) && visits != []
    requires Follow(visits, q).done && !Follow(visits[..|visits| - 1], q).done
    ensures Follow(visits, q).entries == Select(visits[|visits| - 1].state.entries, q, None)
  {
    FollowMeaning(visits, q);
  }

  /** The states a store goes through while it executes operations, read at times that do not go
      back, are such a growing store. */
  lemma RunsGrow(env: Env, ops: seq<Op>, times: seq<nat>, visits: seq<Visit>)
    requires |visits| == |times| && forall i :: 0 <= i < |times| ==> times[i] <= |ops|
    requires forall i, j :: 0 <= i < j < |times| ==> times[i] <= times[j]
    requires forall i :: 0 <= i < |visits| ==> visits[i].state == Exec(env, EmptyState(), ops[..times[i]])
    ensures Growing(visits)
  {
    hide Exec, Inv, Numbered, EmptyState;
    forall i | 0 <= i < |visits| ensures Numbered(visits[i].state.entries) {
      RunNumbered(env, ops[..times[i]]);
    }
    forall i, j | 0 <= i < j < |visits| ensures visits[i].state.entries <= visits[j].state.entries {
      RunExtends(env, ops, times[i], times[j]);
    }
  }

  lemma RunNumbered(env: Env, ops: seq<Op>)
    ensures Inv(env, Exec(env, EmptyState(), ops)) && Numbered(Exec(env, EmptyState(), ops).entries)
  {
    hide Exec, Chained, EntriesOk, AccountsOk, PostingsOk, AnchorsOk, Partitioned, TrialBalance,
      SnapshotsOk, Numbered, EmptyState;
    EmptyInv(env);
    ExecInv(env, EmptyState(), ops);
  }

  lemma {:induction false} RunExtends(env: Env, ops: seq<Op>, m: nat, n: nat)
    requires m <= n <= |ops|
    ensures Exec(env, EmptyState(), ops[..m]).entries <= Exec(env, EmptyState(), ops[..n]).entries
    decreases n
  {
    hide Step, EmptyState, Inv;
    if m < n {
      RunExtends(env, ops, m, n - 1);
      assert ops[..n][..n - 1] == ops[..n - 1];
      RunNumbered(env, ops[..n - 1]);
      StepGrows(env, Exec(env, EmptyState(), ops[..n - 1]), ops[n - 1]);
    }
  }

  /** So a client of a running store misses nothing. */
  lemma NothingLostInRuns(env: Env, ops: seq<Op>, times: seq<nat>, visits: seq<Visit>, q: Query)
    requires |visits| == |times| && visits != [] && forall i :: 0 <= i < |times| ==> times[i] <= |ops|
    requires forall i, j :: 0 <= i < j < |times| ==> times[i] <= times[j]
    requires forall i :: 0 <= i < |visits| ==> visits[i].state == Exec(env, EmptyState(), ops[..times[i]])
    requires Follow(visits, q).done && !Follow(visits[..|visits| - 1], q).done
    ensures Follow(visits, q).entries == Select(Exec(env, EmptyState(), ops[..times[|times| - 1]]).entries, q, None)
  {
    hide Exec, Select, Follow, EmptyState, Growing;
    RunsGrow(env, ops, times, visits);
    NothingLost(visits, q);
  }

  // ---------- Reading a log that stands still ----------

  /** All pages from a cursor on; that this is a function is the proof that reading ends. */
  ghost function ReadAll(s: LedgerState, q: Query, limit: nat, cursor: Option<nat>, c: nat): seq<LedgerPage>
    requires Numbered(s.entries) && c <= |s.entries|
    requires cursor == Some(c) || (cursor == None && c == 0)
    decreases |s.entries| - c
  {
    PageMeaning(s, q, limit, cursor, c);
    var page := PageOf(s, q, limit, cursor);
    [page] + (if page.nextCursor.None? then []
              else ReadAll(s, q, limit, page.nextCursor, page.nextCursor.value))
  }

  function Closing(): LedgerPage -> int {
    (p: LedgerPage) => if p.entries == [] then 0 else p.entries[|p.entries| - 1].runningBalance
  }

  lemma ClosingIsPageSum(s: LedgerState, q: Query, limit: nat, cursor: Option<nat>)
    ensures var p := PageOf(s, q, limit, cursor);
      Closing()(p) == Sum(EntriesOf(p), SignedAmount())
  {
    hide Select, SortBySequence, Delta;
    var p := PageOf(s, q, limit, cursor);
    var es := EntriesOf(p);
    RunningEntries(s, q, limit, cursor);
    assert p.entries == Running(es);
    if es != [] { assert es[..|es|] == es; }
  }

  lemma SelectedSplit(log: seq<EntryRecord>, q: Query, c: nat, next: nat)
    requires c <= next <= |log|
    ensures Sum(Select(log[c..], q, None), SignedAmount())
         == Sum(Select(log[c..next], q, None), SignedAmount()) + Sum(Select(log[next..], q, None), SignedAmount())
  {
    hide Select, Delta;
    assert log[c..] == log[c..next] + log[next..];
    SelectConcat(log[c..next], log[next..], q, None);
    SumConcat(Select(log[c..next], q, None), Select(log[next..], q, None), SignedAmount());
  }

  lemma FirstPage(page: LedgerPage, rest: seq<LedgerPage>)
    ensures Sum([page] + rest, Closing()) == Closing()(page) + Sum(rest, Closing())
  {
    SumSnoc([], page, Closing());
    assert [] + [page] == [page];
    SumConcat([page], rest, Closing());
  }

  /** The pages' closing balances add up to the sum of all matching entries. */
  lemma {:induction false} ClosingsAddUp(s: LedgerState, q: Query, limit: nat, cursor: Option<nat>, c: nat)
    requires Numbered(s.entries) && c <= |s.entries|
    requires cursor == Some(c) || (cursor == None && c == 0)
    ensures Sum(ReadAll(s, q, limit, cursor, c), Closing()) == Sum(Select(s.entries[c..], q, None), SignedAmount())
    decreases |s.entries| - c
  {
    hide Select, PageOf, Numbered, Sum, Closing;
    PageMeaning(s, q, limit, cursor, c);
    ClosingIsPageSum(s, q, limit, cursor);
    var page := PageOf(s, q, limit, cursor);
    if page.nextCursor.Some? {
      var next := page.nextCursor.value;
      ClosingsAddUp(s, q, limit, page.nextCursor, next);
      FirstPage(page, ReadAll(s, q, limit, page.nextCursor, next));
      SelectedSplit(s.entries, q, c, next);
    } else {
      FirstPage(page, []);
      NoPages();
    }
  }

  lemma NoPages()
    ensures Sum([], Closing()) == 0
  {
  }

  lemma {:induction false} SelectedSum(log: seq<EntryRecord>, accountId: string)
    ensures Sum(Select(log, Query(accountId, None, None), None), SignedAmount()) == Balance(log, accountId, "")
  {
    hide Delta;
    if log != [] {
      var front, last := log[..|log| - 1], log[|log| - 1];
      SelectedSum(front, accountId);
      SumSnoc(Select(front, Query(accountId, None, None), None), last, SignedAmount());
    }
  }

  /** Without a time window, the closing balances of all pages sum to the final balance that every
      page reports, although each page starts its running balance at zero. */
  lemma ClosingsReachFinalBalance(s: LedgerState, accountId: string, limit: nat)
    requires Numbered(s.entries)
    ensures var q := Query(accountId, None, None);
      Sum(ReadAll(s, q, limit, None, 0), Closing()) == PageOf(s, q, limit, None).finalBalance
  {
    hide Select, ReadAll, SortBySequence;
    var q := Query(accountId, None, None);
    ClosingsAddUp(s, q, limit, None, 0);
    assert s.entries[0..] == s.entries;
    SelectedSum(s.entries, accountId);
  }
}
