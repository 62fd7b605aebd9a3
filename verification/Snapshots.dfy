/** Balance snapshots: how they are built, and the balance read through them. */
module Snapshots {
  import opened Text
  import opened Sums
  import opened Posting
  import opened Ledger

  /** The last entry of the log for an account and asset. */
  function LastMatch(log: seq<EntryRecord>, accountId: string, asset: string): (r: Option<EntryRecord>)
    ensures r.None? ==> forall e :: e in log ==> !Matches(e, accountId, asset)
    ensures r.Some? ==> r.value in log && Matches(r.value, accountId, asset)
  {
    if log == [] then None
    else if Matches(log[|log| - 1], accountId, asset) then Some(log[|log| - 1])
    else LastMatch(log[..|log| - 1], accountId, asset)
  }

  function BuildSnapshot(log: seq<EntryRecord>, accountId: string, asset: string, asOfTs: string): BalanceSnapshot {
    var last := LastMatch(log, accountId, asset);
    BalanceSnapshot(accountId, if asset == "" then "all" else asset, Balance(log, accountId, asset), asOfTs,
      if last.Some? then last.value.entryId else "",
      if last.Some? then last.value.sequenceNumber else 0)
  }

  function KeyOf(e: EntryRecord): (string, string) {
    (e.accountId, e.asset)
  }

  /** The (account, asset) pairs of the log, in order of first occurrence. */
  function Keys(log: seq<EntryRecord>): (ks: seq<(string, string)>)
    ensures forall k :: k in ks <==> exists i :: 0 <= i < |log| && KeyOf(log[i]) == k
    ensures forall i, j :: 0 <= i < j < |ks| ==> ks[i] != ks[j]
  {
    if log == [] then []
    else
      var ks, key := Keys(log[..|log| - 1]), KeyOf(log[|log| - 1]);
      if key in ks then ks else ks + [key]
  }

  /** Snapshots for the given keys; the k-th one is stamped with the k-th clock reading. */
  function SnapshotsFor(log: seq<EntryRecord>, ks: seq<(string, string)>,
                        clock: nat -> nat): (snaps: seq<BalanceSnapshot>)
    ensures |snaps| == |ks|
    ensures forall k :: 0 <= k < |ks| ==> snaps[k] == BuildSnapshot(log, ks[k].0, ks[k].1, Decimal(clock(k)))
  {
    seq(|ks|, k requires 0 <= k < |ks| => BuildSnapshot(log, ks[k].0, ks[k].1, Decimal(clock(k))))
  }

  function SnapshotAll(log: seq<EntryRecord>, clock: nat -> nat): seq<BalanceSnapshot> {
    SnapshotsFor(log, Keys(log), clock)
  }

  lemma KeysEmpty()
    ensures Keys([]) == []
  {
  }

  lemma SnapshotsSnoc(log: seq<EntryRecord>, ks: seq<(string, string)>, k: (string, string), clock: nat -> nat)
    ensures SnapshotsFor(log, ks + [k], clock)
         == SnapshotsFor(log, ks, clock) + [BuildSnapshot(log, k.0, k.1, Decimal(clock(|ks|)))]
  {
    hide BuildSnapshot, SnapshotsFor, Decimal;
    var some, all := SnapshotsFor(log, ks, clock), SnapshotsFor(log, ks + [k], clock);
    assert all[..|ks|] == some;
    assert all == all[..|ks|] + [all[|ks|]];
  }

  lemma KeysSnoc(log: seq<EntryRecord>, i: nat)
    requires i < |log|
    ensures Keys(log[..i + 1]) ==
      if KeyOf(log[i]) in Keys(log[..i]) then Keys(log[..i]) else Keys(log[..i]) + [KeyOf(log[i])]
  {
    assert log[..i + 1][..i] == log[..i];
  }

  /** `snapshot_all`: one pass over the log, a snapshot for each pair not seen before. */
  method CollectSnapshots(log: seq<EntryRecord>, clock: nat -> nat) returns (snaps: seq<BalanceSnapshot>)
    ensures snaps == SnapshotAll(log, clock)
  {
    hide BuildSnapshot, Keys, SnapshotsFor;
    KeysEmpty();
    assert log[..0] == [];
    var seen: set<(string, string)> := {};
    snaps := [];
    for i := 0 to |log|
      invariant forall k :: k in seen <==> k in Keys(log[..i])
      invariant snaps == SnapshotsFor(log, Keys(log[..i]), clock)
    {
      var e := log[i];
      KeysSnoc(log, i);
      SnapshotsSnoc(log, Keys(log[..i]), KeyOf(e), clock);
      var key := (e.accountId, e.asset);
      if key !in seen {
        seen := seen + {key};
        snaps := snaps + [BuildSnapshot(log, e.accountId, e.asset, Decimal(clock(|snaps|)))];
      }
    }
    assert log[..|log|] == log;
  }

  /** The last stored snapshot of the account for the asset (any asset when it is empty). */
  function FindSnapshot(snaps: seq<BalanceSnapshot>, accountId: string, asset: string): (r: Option<BalanceSnapshot>)
    ensures r.Some? ==> r.value in snaps && r.value.accountId == accountId && (asset == "" || r.value.asset == asset)
  {
    if snaps == [] then None
    else
      var s := snaps[|snaps| - 1];
      if s.accountId == accountId && (asset == "" || s.asset == asset) then Some(s)
      else FindSnapshot(snaps[..|snaps| - 1], accountId, asset)
  }

  function ContributionAfter(accountId: string, asset: string, sequence: nat): EntryRecord -> int {
    (e: EntryRecord) => if Matches(e, accountId, asset) && e.sequenceNumber > sequence then Delta(e) else 0
  }

  /** `balance_via_snapshot`: the stored balance plus what came after it. */
  function BalanceViaSnapshot(s: LedgerState, accountId: string, asset: string): Option<int> {
    if accountId !in s.accounts then None
    else
      match FindSnapshot(s.snapshots, accountId, asset)
      case None => Some(Balance(s.entries, accountId, asset))
      case Some(snap) =>
        Some(snap.balance + Sum(s.entries, ContributionAfter(accountId, asset, snap.lastSequence)))
  }

  function ReconcileSnapshot(log: seq<EntryRecord>, snap: BalanceSnapshot): bool {
    var computed := BuildSnapshot(log, snap.accountId, snap.asset, "");
    computed.balance == snap.balance && computed.lastEntryId == snap.lastEntryId
  }
}
