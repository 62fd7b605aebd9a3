/** Snapshots against the log they summarise: the balance read through a snapshot, when a
    snapshot is stale, and what came after it. */
module Acceleration {
  import opened Text
  import opened Sums
  import opened Posting
  import opened HashChain
  import opened Ledger
  import opened Snapshots
  import opened Invariant
  import opened Runs

  // ---------- Where the last match is ----------

  ghost predicate LastAt(log: seq<EntryRecord>, accountId: string, asset: string, i: int) {
    && 0 <= i < |log| && Matches(log[i], accountId, asset)
    && forall j :: i < j < |log| ==> !Matches(log[j], accountId, asset)
  }

  lemma {:induction false} LastMatchAt(log: seq<EntryRecord>, accountId: string, asset: string) returns (i: int)
    ensures LastMatch(log, accountId, asset).None? ==> i == -1
    ensures LastMatch(log, accountId, asset).Some? ==>
      LastAt(log, accountId, asset, i) && log[i] == LastMatch(log, accountId, asset).value
  {
    if log == [] {
      i := -1;
    } else if Matches(log[|log| - 1], accountId, asset) {
      i := |log| - 1;
    } else {
      i := LastMatchAt(log[..|log| - 1], accountId, asset);
    }
  }

  /** The sequence number a snapshot stores is a position: matches lie at or before it. */
  lemma SnapshotPosition(log: seq<EntryRecord>, accountId: string, asset: string, asOfTs: string)
    requires Numbered(log)
    ensures var m := BuildSnapshot(log, accountId, asset, asOfTs).lastSequence;
      m <= |log| && forall j :: m <= j < |log| ==> !Matches(log[j], accountId, asset)
  {
    hide Balance;
    var i := LastMatchAt(log, accountId, asset);
    if i == -1 {
      forall j | 0 <= j < |log| ensures !Matches(log[j], accountId, asset) { assert log[j] in log; }
    }
  }

  // ---------- Snapshot plus delta ----------

  lemma NothingCounted(a: seq<EntryRecord>, m: nat, accountId: string, asset: string)
    requires forall j :: 0 <= j < |a| ==> !Matches(a[j], accountId, asset) || a[j].sequenceNumber <= m
    ensures Sum(a, ContributionAfter(accountId, asset, m)) == 0
  {
    hide Matches, Delta;
    SumZero(a, ContributionAfter(accountId, asset, m));
  }

  lemma AllCounted(b: seq<EntryRecord>, m: nat, accountId: string, asset: string)
    requires forall j :: 0 <= j < |b| ==> b[j].sequenceNumber > m
    ensures Sum(b, ContributionAfter(accountId, asset, m)) == Balance(b, accountId, asset)
  {
    hide Matches, Delta;
    SumZip(b, ContributionAfter(accountId, asset, m), b, Contribution(accountId, asset));
  }

  lemma DeltaAfter(log: seq<EntryRecord>, n: nat, m: nat, accountId: string, asset: string)
    requires Numbered(log) && m <= n <= |log|
    requires forall j :: m <= j < n ==> !Matches(log[j], accountId, asset)
    ensures Sum(log, ContributionAfter(accountId, asset, m)) == Balance(log[n..], accountId, asset)
  {
    hide Matches, ContributionAfter, Balance;
    var a, b := log[..n], log[n..];
    assert log == a + b;
    SumConcat(a, b, ContributionAfter(accountId, asset, m));
    NothingCounted(a, m, accountId, asset);
    AllCounted(b, m, accountId, asset);
  }

  /** Reading a balance through the latest snapshot gives the full scan's balance, for every
      account and every named asset, whatever was posted or snapshotted before. */
  lemma ViaSnapshotExact(env: Env, s: LedgerState, accountId: string, asset: string)
    requires Inv(env, s) && accountId in s.accounts && asset != ""
    ensures BalanceViaSnapshot(s, accountId, asset) == Some(Balance(s.entries, accountId, asset))
  {
    hide Chained, PostingsOk, Partitioned, AnchorsOk, TrialBalance, AccountsOk, EntriesOk, BuildSnapshot;
    var found := FindSnapshot(s.snapshots, accountId, asset);
    if found.Some? {
      FoundIsTaken(s.snapshots, s.entries, found.value);
      SnapshotOfPrefix(s.entries, found.value);
    }
  }

  lemma FoundIsTaken(snaps: seq<BalanceSnapshot>, log: seq<EntryRecord>, snap: BalanceSnapshot)
    requires SnapshotsOk(snaps, log) && snap in snaps
    ensures TakenFrom(snap, log)
  {
    hide TakenFrom;
    var k :| 0 <= k < |snaps| && snaps[k] == snap;
  }

  lemma SnapshotOfPrefix(log: seq<EntryRecord>, snap: BalanceSnapshot)
    requires Numbered(log) && TakenFrom(snap, log)
    ensures snap.balance + Sum(log, ContributionAfter(snap.accountId, snap.asset, snap.lastSequence))
         == Balance(log, snap.accountId, snap.asset)
  {
    hide Numbered, BuildSnapshot, Balance, ContributionAfter;
    var n :| 0 <= n <= |log| && snap == BuildSnapshot(log[..n], snap.accountId, snap.asset, snap.asOfTs);
    SnapshotPlusRest(log, n, snap.accountId, snap.asset, snap.asOfTs);
  }

  lemma SnapshotPlusRest(log: seq<EntryRecord>, n: nat, accountId: string, asset: string, asOfTs: string)
    requires Numbered(log) && n <= |log| && asset != ""
    ensures var snap := BuildSnapshot(log[..n], accountId, asset, asOfTs);
      snap.balance + Sum(log, ContributionAfter(accountId, asset, snap.lastSequence)) == Balance(log, accountId, asset)
  {
    hide Matches, Sum, ContributionAfter;
    var snap := BuildSnapshot(log[..n], accountId, asset, asOfTs);
    SnapshotPosition(log[..n], accountId, asset, asOfTs);
    forall j | snap.lastSequence <= j < n ensures !Matches(log[j], accountId, asset) {
      assert log[j] == log[..n][j];
    }
    DeltaAfter(log, n, snap.lastSequence, accountId, asset);
    assert log == log[..n] + log[n..];
    SumConcat(log[..n], log[n..], Contribution(accountId, asset));
  }

  /** Entries of the account in other assets, up to a sequence number. */
  function OtherAssets(accountId: string, asset: string, sequence: nat): EntryRecord -> int {
    (e: EntryRecord) =>
      if e.accountId == accountId && e.asset != asset && e.sequenceNumber <= sequence then Delta(e) else 0
  }

  /** Asked for every asset at once, the snapshot path starts from the snapshot of one asset. It is
      right exactly when the account's other assets net to zero up to that snapshot's position. */
  lemma ViaSnapshotAllAssets(env: Env, s: LedgerState, accountId: string)
    requires Inv(env, s) && accountId in s.accounts
    ensures BalanceViaSnapshot(s, accountId, "") == Some(Balance(s.entries, accountId, "")) <==>
      match FindSnapshot(s.snapshots, accountId, "")
      case None => true
      case Some(snap) => Sum(s.entries, OtherAssets(accountId, snap.asset, snap.lastSequence)) == 0
  {
    hide Chained, PostingsOk, Partitioned, AnchorsOk, TrialBalance, AccountsOk, EntriesOk, BuildSnapshot, Numbered,
      Balance, Head, ContributionAfter, OtherAssets, FindSnapshot;
    var found := FindSnapshot(s.snapshots, accountId, "");
    if found.Some? {
      var snap := found.value;
      FoundIsTaken(s.snapshots, s.entries, snap);
      SnapshotOfPrefix(s.entries, snap);
      AllAssetsSplit(s.entries, accountId, snap.asset, snap.lastSequence);
    }
  }

  /** The account's whole balance, split at one asset and one sequence number. */
  lemma AllAssetsSplit(log: seq<EntryRecord>, accountId: string, asset: string, m: nat)
    requires asset != ""
    ensures Balance(log, accountId, "") + Sum(log, ContributionAfter(accountId, asset, m))
         == Balance(log, accountId, asset) + Sum(log, ContributionAfter(accountId, "", m))
            + Sum(log, OtherAssets(accountId, asset, m))
  {
    var all, one := Contribution(accountId, ""), Contribution(accountId, asset);
    var allAfter, oneAfter := ContributionAfter(accountId, "", m), ContributionAfter(accountId, asset, m);
    var others := OtherAssets(accountId, asset, m);
    var left := (e: EntryRecord) => all(e) + oneAfter(e);
    var right := (e: EntryRecord) => one(e) + allAfter(e);
    SumSplit(log, left, all, oneAfter);
    SumSplit(log, right, one, allAfter);
    SumSplit(log, left, right, others);
  }

  // ---------- Staleness ----------

  /** Entry ids as generated: distinct, non-empty, without a separator. */
  ghost predicate IdsOk(log: seq<EntryRecord>) {
    && (forall i :: 0 <= i < |log| ==> log[i].entryId != "" && '|' !in log[i].entryId)
    && (forall i, j :: 0 <= i < j < |log| ==> log[i].entryId != log[j].entryId)
  }

  /** What `build_snapshot` says: the sum of the matching entries, and the id and number of the last
      of them. */
  lemma SnapshotExact(log: seq<EntryRecord>, accountId: string, asset: string, asOfTs: string)
    ensures var snap := BuildSnapshot(log, accountId, asset, asOfTs);
      && snap.accountId == accountId && snap.asset == (if asset == "" then "all" else asset) && snap.asOfTs == asOfTs
      && snap.balance == Sum(log, Contribution(accountId, asset))
      && (forall i :: LastAt(log, accountId, asset, i) ==>
            snap.lastEntryId == log[i].entryId && snap.lastSequence == log[i].sequenceNumber)
      && ((forall i :: 0 <= i < |log| ==> !Matches(log[i], accountId, asset)) ==>
            snap.lastEntryId == "" && snap.lastSequence == 0)
  {
    hide Matches, Contribution, Sum;
    var k := LastMatchAt(log, accountId, asset);
    forall i | LastAt(log, accountId, asset, i) ensures i == k {
      SomeMatch(log, accountId, asset, i);
    }
  }

  /** An unknown account has no balance, a known one always has. */
  lemma UnknownAccount(s: LedgerState, accountId: string, asset: string)
    ensures BalanceViaSnapshot(s, accountId, asset).None? <==> accountId !in s.accounts
  {
    hide FindSnapshot, Balance;
  }

  /** Whatever a snapshot says, it reconciles exactly when its balance is the sum of the log's matching
      entries and its last entry id is that of the last of them, or empty when there is none. */
  lemma ReconcileExact(log: seq<EntryRecord>, snap: BalanceSnapshot)
    ensures forall i :: LastAt(log, snap.accountId, snap.asset, i) ==>
      (ReconcileSnapshot(log, snap) <==>
        snap.balance == Sum(log, Contribution(snap.accountId, snap.asset)) && snap.lastEntryId == log[i].entryId)
    ensures (forall i :: 0 <= i < |log| ==> !Matches(log[i], snap.accountId, snap.asset)) ==>
      (ReconcileSnapshot(log, snap) <==> snap.balance == 0 && snap.lastEntryId == "")
  {
    hide Matches, Contribution, Sum;
    var k := LastMatchAt(log, snap.accountId, snap.asset);
    if forall i :: 0 <= i < |log| ==> !Matches(log[i], snap.accountId, snap.asset) {
      NoneMatching(log, snap.accountId, snap.asset);
    }
    forall i | LastAt(log, snap.accountId, snap.asset, i) ensures i == k {
      SomeMatch(log, snap.accountId, snap.asset, i);
    }
  }

  lemma SomeMatch(log: seq<EntryRecord>, accountId: string, asset: string, i: nat)
    requires LastAt(log, accountId, asset, i)
    ensures LastMatch(log, accountId, asset).Some?
  {
    hide Matches;
    assert log[i] in log;
  }

  lemma NoneMatching(log: seq<EntryRecord>, accountId: string, asset: string)
    requires forall i :: 0 <= i < |log| ==> !Matches(log[i], accountId, asset)
    ensures Sum(log, Contribution(accountId, asset)) == 0
  {
    hide Matches;
    SumZero(log, Contribution(accountId, asset));
  }

  /** So a snapshot that reconciles no longer does with any other balance. */
  lemma BalanceMatters(log: seq<EntryRecord>, snap: BalanceSnapshot, balance: int)
    requires ReconcileSnapshot(log, snap) && balance != snap.balance
    ensures !ReconcileSnapshot(log, snap.(balance := balance))
  {
    hide Balance, LastMatch;
  }

  /** A snapshot taken at an earlier point of the log still reconciles exactly when nothing has
      been appended for its account and asset. */
  lemma StaleExact(log: seq<EntryRecord>, n: nat, accountId: string, asset: string, asOfTs: string)
    requires IdsOk(log) && n <= |log| && asset != ""
    ensures ReconcileSnapshot(log, BuildSnapshot(log[..n], accountId, asset, asOfTs)) <==>
            forall j :: n <= j < |log| ==> !Matches(log[j], accountId, asset)
  {
    hide Balance, Matches, IdsOk;
    if forall j :: n <= j < |log| ==> !Matches(log[j], accountId, asset) {
      assert log == log[..n] + log[n..];
      SumConcatBalance(log[..n], log[n..], accountId, asset);
      NothingAfter(log, n, accountId, asset);
    } else {
      var j :| n <= j < |log| && Matches(log[j], accountId, asset);
      NewLastId(log, n, j, accountId, asset);
    }
  }

  /** A later match changes the id of the last match. */
  lemma NewLastId(log: seq<EntryRecord>, n: nat, j: nat, accountId: string, asset: string)
    requires IdsOk(log) && n <= j < |log| && Matches(log[j], accountId, asset)
    ensures LastMatch(log, accountId, asset).Some?
    ensures LastMatch(log, accountId, asset).value.entryId != ""
    ensures LastMatch(log[..n], accountId, asset).Some? ==>
      LastMatch(log[..n], accountId, asset).value.entryId != LastMatch(log, accountId, asset).value.entryId
  {
    hide Matches;
    var i := LastMatchAt(log, accountId, asset);
    var k := LastMatchAt(log[..n], accountId, asset);
    assert log[j] in log;
    assert n <= i;
    assert k != -1 ==> log[..n][k] == log[k];
  }

  /** A snapshot over all assets is stored under the asset name "all" and then looked up by it, so
      it never reconciles once its account has an entry. */
  lemma AllAssetsNeverReconciles(env: Env, s: LedgerState, accountId: string, asOfTs: string)
    requires Inv(env, s) && IdsOk(s.entries)
    ensures ReconcileSnapshot(s.entries, BuildSnapshot(s.entries, accountId, "", asOfTs)) <==>
            forall i :: 0 <= i < |s.entries| ==> s.entries[i].accountId != accountId
  {
    hide Inv, Delta, Sum;
    var log := s.entries;
    NoAssetNamedAll(env, s);
    var none := LastMatchAt(log, accountId, "all");
    var i := LastMatchAt(log, accountId, "");
    SumZero(log, Contribution(accountId, "all"));
    if i == -1 {
      forall k | 0 <= k < |log| ensures log[k].accountId != accountId { assert log[k] in log; }
      SumZero(log, Contribution(accountId, ""));
    }
  }

  lemma NoAssetNamedAll(env: Env, s: LedgerState)
    requires Inv(env, s)
    ensures forall i :: 0 <= i < |s.entries| ==> s.entries[i].asset != "all"
  {
    hide Chained, PostingsOk, Partitioned, AnchorsOk, TrialBalance, AccountsOk, SnapshotsOk, Numbered;
    forall i | 0 <= i < |s.entries| ensures s.entries[i].asset != "all" {
      assert EntryOk(s.accounts, s.entries[i]);
    }
  }

  lemma SumConcatBalance(a: seq<EntryRecord>, b: seq<EntryRecord>, accountId: string, asset: string)
    requires forall j :: 0 <= j < |b| ==> !Matches(b[j], accountId, asset)
    ensures Balance(a + b, accountId, asset) == Balance(a, accountId, asset)
  {
    SumConcat(a, b, Contribution(accountId, asset));
    SumZero(b, Contribution(accountId, asset));
  }

  lemma {:induction false} NothingAfter(log: seq<EntryRecord>, n: nat, accountId: string, asset: string)
    requires n <= |log| && forall j :: n <= j < |log| ==> !Matches(log[j], accountId, asset)
    ensures LastMatch(log, accountId, asset) == LastMatch(log[..n], accountId, asset)
    decreases |log|
  {
    if n < |log| {
      var front := log[..|log| - 1];
      NothingAfter(front, n, accountId, asset);
      assert front[..n] == log[..n];
    } else {
      assert log[..n] == log;
    }
  }

  // ---------- Entries since a snapshot ----------

  /** What follows the first entry with the given id; nothing when there is none. */
  function AfterId(log: seq<EntryRecord>, id: string): seq<EntryRecord> {
    if log == [] then []
    else if log[0].entryId == id then log[1..]
    else AfterId(log[1..], id)
  }

  function EntriesAfter(log: seq<EntryRecord>, id: string): seq<EntryRecord> {
    if id == "" then log else AfterId(log, id)
  }

  /** `entries_since`: one pass that starts collecting once the id has been seen. */
  method EntriesSince(log: seq<EntryRecord>, afterEntryId: string) returns (r: seq<EntryRecord>)
    ensures r == EntriesAfter(log, afterEntryId)
  {
    if afterEntryId == "" {
      return log;
    }
    var found := false;
    r := [];
    for k := 0 to |log|
      invariant !found ==> r == [] && AfterId(log[k..], afterEntryId) == AfterId(log, afterEntryId)
      invariant found ==> r + log[k..] == AfterId(log, afterEntryId)
    {
      assert log[k..] == [log[k]] + log[k + 1..];
      if found {
        r := r + [log[k]];
      } else if log[k].entryId == afterEntryId {
        found := true;
      }
    }
  }

  lemma {:induction false} AfterIdAt(log: seq<EntryRecord>, id: string, i: nat)
    requires i < |log| && log[i].entryId == id && forall j :: 0 <= j < i ==> log[j].entryId != id
    ensures AfterId(log, id) == log[i + 1..]
  {
    if i > 0 {
      AfterIdAt(log[1..], id, i - 1);
      assert log[1..][i..] == log[i + 1..];
    }
  }

  /** Entry `i` is the first with the id. */
  ghost predicate FirstWith(log: seq<EntryRecord>, id: string, i: nat)
    requires i < |log|
  {
    log[i].entryId == id && forall j :: 0 <= j < i ==> log[j].entryId != id
  }

  /** What `entries_since` returns: everything for the empty id, nothing for an unknown one, and
      otherwise what follows the first entry with the id. */
  lemma EntriesAfterExact(log: seq<EntryRecord>, id: string)
    ensures EntriesAfter(log, "") == log
    ensures id != "" && (forall i :: 0 <= i < |log| ==> log[i].entryId != id) ==> EntriesAfter(log, id) == []
    ensures forall i :: 0 <= i < |log| && FirstWith(log, id, i) && id != "" ==> EntriesAfter(log, id) == log[i + 1..]
  {
    if forall i :: 0 <= i < |log| ==> log[i].entryId != id {
      NothingFollows(log, id);
    }
    forall i | 0 <= i < |log| && FirstWith(log, id, i) && id != ""
      ensures EntriesAfter(log, id) == log[i + 1..]
    {
      AfterIdAt(log, id, i);
    }
  }

  lemma {:induction false} NothingFollows(log: seq<EntryRecord>, id: string)
    requires forall i :: 0 <= i < |log| ==> log[i].entryId != id
    ensures AfterId(log, id) == []
  {
    if log != [] {
      NothingFollows(log[1..], id);
    }
  }

  /** The entries numbered above a sequence number. */
  function Later(log: seq<EntryRecord>, sequence: nat): seq<EntryRecord> {
    if log == [] then []
    else
      var front, last := Later(log[..|log| - 1], sequence), log[|log| - 1];
      if last.sequenceNumber > sequence then front + [last] else front
  }

  lemma {:induction false} LaterIsSuffix(log: seq<EntryRecord>, m: nat)
    requires Numbered(log) && m <= |log|
    ensures Later(log, m) == log[m..]
  {
    if m < |log| {
      LaterIsSuffix(log[..|log| - 1], m);
      assert log[m..] == log[..|log| - 1][m..] + [log[|log| - 1]];
    } else {
      LaterNone(log, m);
    }
  }

  lemma {:induction false} LaterNone(log: seq<EntryRecord>, m: nat)
    requires forall i :: 0 <= i < |log| ==> log[i].sequenceNumber <= m
    ensures Later(log, m) == []
  {
    if log != [] {
      LaterNone(log[..|log| - 1], m);
    }
  }

  /** The two ways of asking for what came after a snapshot agree: by the id of its last entry,
      as `entries_since` does, and by its sequence number, as the balance path does. */
  lemma SinceSnapshot(log: seq<EntryRecord>, n: nat, accountId: string, asset: string, asOfTs: string)
    requires Numbered(log) && IdsOk(log) && n <= |log|
    ensures var snap := BuildSnapshot(log[..n], accountId, asset, asOfTs);
      EntriesAfter(log, snap.lastEntryId) == Later(log, snap.lastSequence)
  {
    hide Balance;
    var snap := BuildSnapshot(log[..n], accountId, asset, asOfTs);
    var i := LastMatchAt(log[..n], accountId, asset);
    if i == -1 {
      LaterIsSuffix(log, 0);
    } else {
      assert log[..n][i] == log[i];
      AfterIdAt(log, snap.lastEntryId, i);
      LaterIsSuffix(log, i + 1);
    }
  }

  // ---------- All snapshots together ----------

  function SnapshotIn(asset: string): BalanceSnapshot -> int {
    (s: BalanceSnapshot) => if asset == "" || s.asset == asset then s.balance else 0
  }

  function KeyBalance(log: seq<EntryRecord>, asset: string): ((string, string)) -> int {
    (k: (string, string)) => if asset == "" || k.1 == asset then Balance(log, k.0, k.1) else 0
  }

  function InKeys(ks: seq<(string, string)>, asset: string): EntryRecord -> int {
    (e: EntryRecord) => if (asset == "" || e.asset == asset) && KeyOf(e) in ks then Delta(e) else 0
  }

  lemma {:induction false} KeysOnePass(log: seq<EntryRecord>, ks: seq<(string, string)>, asset: string)
    requires forall i :: 0 <= i < |ks| ==> ks[i].1 != ""
    requires forall i, j :: 0 <= i < j < |ks| ==> ks[i] != ks[j]
    ensures Sum(ks, KeyBalance(log, asset)) == Sum(log, InKeys(ks, asset))
  {
    if ks == [] {
      SumZero(log, InKeys(ks, asset));
    } else {
      var front, k := ks[..|ks| - 1], ks[|ks| - 1];
      KeysOnePass(log, front, asset);
      KeyStep(log, front, k, asset);
      assert front + [k] == ks;
    }
  }

  lemma KeyStep(log: seq<EntryRecord>, ks: seq<(string, string)>, k: (string, string), asset: string)
    requires k.1 != "" && k !in ks
    ensures Sum(log, InKeys(ks + [k], asset)) == Sum(log, InKeys(ks, asset)) + KeyBalance(log, asset)(k)
  {
    if asset == "" || k.1 == asset {
      SumSplit(log, InKeys(ks + [k], asset), InKeys(ks, asset), Contribution(k.0, k.1));
    } else {
      SumZip(log, InKeys(ks + [k], asset), log, InKeys(ks, asset));
    }
  }

  /** `snapshot_all` covers each account and asset of the log once, and its balances cancel: in each
      asset and, for the empty name, in all assets together. */
  lemma SnapshotsCancel(env: Env, s: LedgerState, clock: nat -> nat, asset: string)
    requires Inv(env, s)
    ensures Sum(SnapshotAll(s.entries, clock), SnapshotIn(asset)) == 0
  {
    hide Chained, PostingsOk, Partitioned, AnchorsOk, SnapshotsOk, AccountsOk, Numbered, Keys, Balance, EntriesOk,
      TrialBalance;
    var log, ks := s.entries, Keys(s.entries);
    var snaps := SnapshotAll(log, clock);
    forall k | 0 <= k < |ks| ensures SnapshotIn(asset)(snaps[k]) == KeyBalance(log, asset)(ks[k]) && ks[k].1 != "" {
      assert ks[k] in ks;
      KeysHaveAssets(s.accounts, s.postings.Keys, log, ks[k]);
    }
    SumZip(snaps, SnapshotIn(asset), ks, KeyBalance(log, asset));
    NothingOverall(s.accounts, s.postings.Keys, log, asset);
    AllKeysCancel(log, asset);
  }

  lemma AllKeysCancel(log: seq<EntryRecord>, asset: string)
    requires Sum(log, AssetDelta(asset)) == 0 && forall i :: 0 <= i < |Keys(log)| ==> Keys(log)[i].1 != ""
    ensures Sum(Keys(log), KeyBalance(log, asset)) == 0
  {
    hide Balance, Delta;
    var ks := Keys(log);
    KeysOnePass(log, ks, asset);
    forall i | 0 <= i < |log| ensures InKeys(ks, asset)(log[i]) == AssetDelta(asset)(log[i]) {
      assert KeyOf(log[i]) in ks;
    }
    SumZip(log, InKeys(ks, asset), log, AssetDelta(asset));
  }
}
