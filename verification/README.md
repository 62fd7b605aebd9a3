# Ledger: a Dafny model of the posting engine

This project models the ledger's posting engine and proves what it promises: an append-only
double-entry log with a hash chain, kept in memory by one store or in Postgres by any number of
replicas. `dafny verify dfyconfig.toml` checks every file.

## How the model is built

- `Text`, `Posting`, `HashChain`: the records, the canonical text of an entry with a decoder for it, the
  hash chain and its verifier. A hash is *any* function from text to 64 hexadecimal digits. Nothing else
  is assumed of it, so security results have the form "the logs agree, or here are two different texts
  with one hash, or here is a text that hashes to the 64 zeros".
- `Chart`, `Ledger`, `Links`: the account and asset tables, and `post` and `create_account` as functions
  on a ledger state (accounts, postings, log, sequence, audit events, anchors, chain head, snapshots).
- `Invariant`, `Runs`, `Contents`, `Freshness`: the ledger's invariant, its preservation, and what holds
  after every run of account openings, postings and snapshot writes. Entry ids, event ids, account ids
  and clock readings are inputs of each operation. `FreshRun` is used only where ids must be unique.
- `Snapshots`, `Acceleration`, `Statement`, `Windows`, `Orders`, `Treasury`, `Witness`: what is read
  from the log or built on `post` — snapshots and the balance read through them, statements page by
  page, batches in any order, reversals, treasury transfers.
- `Store`: the in-memory store as a class. Its methods update the fields in place, with the program's
  loops, and each is proved against the functions on ledger states; `Valid()` is the invariant, up to
  audit events lost at a restart.
- `Database`, `Protocol`, `Traces`, `Interleavings`, `Linear`, `Schedules`, `Refinement`, `Hydration`,
  `Retries`, `Serialization`, `Effects`, `Fork`, `Incidents`: the Postgres path as a transition system.
  A run advances one database call at a time; `Play` replays any list of events of any number of runs
  and replicas. Any call may fail, any run may stop for good, a commit may succeed without being
  acknowledged, and a replica may lose its copy and hydrate again. The tables promise only what the
  schema does: commits are atomic, posting and entry ids are primary keys, entries refer to existing
  accounts and are only appended. The `history` of a system records commits for the proofs and is read
  by no step.

Strings stand for the bytes that are hashed and stored.

## Where the code and its documentation differ

The model follows the code.

- Every posting is to have at least two entries; only the empty list is refused. `Links.TwoSided`
  shows that two then follow from the other checks.
- Runs are to be serializable and the chain linear. The head and the largest sequence number are
  read through the pool, outside the transaction (src/store.rs:760-761, 851), so isolation does not
  relate them to the commit. `Incidents.ForkHappens` is a schedule, from empty tables on, that forks the
  chain; `Schedules.CurrentCommitsChain` and `Schedules.OutdatedCommitBreaks` say for all schedules when
  the chain stays linear.
- An error while the head is read is taken for an empty table (src/store.rs:1514-1523), so the posting
  is linked after the genesis hash: `Fork.HeadFailureBreaks`, `Incidents.HeadFailureHappens`.
- An account's asset class is to limit what is posted to it; `post` never compares the two. Nor can
  the direction check reject, since every account type takes both (`Chart.DirectionsAlwaysAllowed`).
- The amount limit is the smaller of the asset's own maximum and 10^12, so 10^12 for every asset.
- The hash covers neither the posting id nor the sequence number (`HashChain.UncoveredFields`).
- The chain is to make tampering evident, and `create_account` accepts any account id. A `|` in one makes
  the hashed text ambiguous, and an entry can be moved to another account unnoticed
  (`Witness.EntryMovesUnnoticed`); without separators it cannot (`HashChain.TamperEvidentExactly`).
- A replay must itself be a well-formed request, but it may differ from the original and still be
  answered with the original response (`Runs.ReplayAfterCommit`).
- A snapshot over all assets is stored under the asset name "all" and then never reconciles; the
  balance over all assets read through a snapshot starts from a single asset's snapshot. The exact
  conditions are in `Acceleration.AllAssetsNeverReconciles` and `Acceleration.ViaSnapshotAllAssets`.
- Two different saga steps can derive the same posting id; `Treasury.DerivedIdShared` says exactly when.
- `hydrate` does not restore audit events, so after a restart a store holds fewer than its ledger had.

## Model

| member | source | states |
|---|---|---|
| Text.DecimalDigits | src/posting.rs:57-75 | Amounts are written as decimal numerals without leading zeros |
| Text.TextLeExact | src/store.rs:551-565 | Timestamps are compared as texts: one is at or before another if it begins it or has the smaller character at the first position where they differ |
| Text.TextLeNumerals | src/store.rs:551-565 | For numerals of equal length that is the order of the numbers |
| Posting.CanonicalText | src/posting.rs:57-75 | The encoding is the seven fields, in order, with a bar between each two |
| Posting.DecodeExact | src/posting.rs:57-75 | The decoder (last four separators, then first two, then a decimal amount) accepts a text exactly when it is the encoding of fields with no separator outside the account id, and returns those fields |
| Posting.CanonicalInjective | src/posting.rs:57-75 | Two such sets of seven fields with one encoding are equal |
| Posting.EncodingShared | src/posting.rs:57-75 | Seven fields share their encoding with some others if and only if a separator occurs in one of their texts, account id included |
| Posting.PlainUnique | src/posting.rs:57-75 | Fields without separators share their encoding with no others, whatever those hold |
| HashChain.VerifyChain | src/hashchain.rs:12-56 | The verifier's loop accepts exactly the logs in which every link is valid; otherwise it names the entry of the first bad link and reports its unknown direction, else the hash expected before it and the one it names, else the recomputed hash and its own |
| HashChain.LinkSpelledOut | src/hashchain.rs:12-56 | A link is valid if and only if the direction is known, the entry names the hash before it, and its own hash is that of the hash before, the salt and the seven fields |
| HashChain.ChainConcat | src/hashchain.rs:12-56 | Two logs joined form a chain exactly when the first is one and the second is one from the first's head |
| HashChain.SameHeadSameTexts | src/hashchain.rs:12-56 | Any two verified logs with the same head have equal length and were hashed from the same texts with the same hashes, entry by entry, or an explicit walk back finds a collision or a preimage of the genesis hash |
| HashChain.TamperEvident | src/hashchain.rs:12-56 | If one of them holds no separator in an id, asset or timestamp, whatever the other holds, or neither holds one outside its account ids, they agree on every hashed field, or the walk finds a hash defect |
| HashChain.RewritingUnnoticed | src/hashchain.rs:12-56 | An entry that holds a separator can be rewritten, for instance into another account's, so that the log verifies with the same head and no hash defect |
| HashChain.TamperEvidentExactly | src/hashchain.rs:12-56 | A head is evidence of its whole log against every other log, short of a hash defect, if and only if the log holds no separator in an entry id, account id, asset or timestamp |
| HashChain.UncoveredFields | src/posting.rs:57-75 | Posting ids and sequence numbers can be rewritten without the verifier noticing |
| HashChain.SaltMatters | src/posting.rs:77-87 | A non-empty log that verifies under two salts exhibits a collision at every one of its entries |
| Chart.DirectionsAlwaysAllowed | src/chart.rs:106-116 | No account type in the chart refuses a direction |
| LedgerStore.ValidateRequest | src/store.rs:610-667 | The loops of stateless validation return the first complaint in the program's order, or the parsed lines |
| LedgerStore.CheckBalance | src/store.rs:652-667 | The check that accumulates totals in a map accepts exactly when debits equal credits for every asset there is, in the map or not |
| Links.ValidateExact | src/store.rs:610-667 | Validation passes exactly the requests with 1 to 64 entries, amounts of 1 to 10^12, known assets, known directions and equal sides in every asset |
| Links.ListRefused | src/store.rs:610-621 | No entries, or more than 64, is the complaint before all others |
| Links.AmountRefused | src/store.rs:622-640 | A bad amount or asset is reported for the first entry that has one, as zero, unknown, above the asset's maximum or above 10^12, in this order |
| Links.DirectionOrSidesRefused | src/store.rs:641-667 | Only when all amounts are in order is an unknown direction reported, and only then unequal sides |
| Links.AccountsExact | src/store.rs:975-1006 | The two account loops together accept exactly when every account exists, is active and has a known type |
| Links.AccountRefused | src/store.rs:975-992 | The first line whose account is missing or not active is reported, as such |
| Links.TypeRefused | src/store.rs:993-1006 | If there is none, the first line whose account's type is unknown |
| Links.AcceptExact | src/store.rs:950-1006 | `post` writes new entries if and only if the request is well formed, its id is new and every account it names is usable |
| Links.CreateAccountExact | src/store.rs:325-378 | `create_account` opens exactly the account asked for, active, if its type is one of the eleven, its class one of three and fit for the type, and its id not taken; otherwise the first of these that fails is the error and nothing changes |
| Links.TypesSpelledOut | src/chart.rs:37-104 | The eleven types and the class of accounts each takes |
| Links.TwoSided | src/store.rs:652-667 | Every accepted line has a line against it in the same asset and the opposite direction; hence at least two entries |
| Links.LinkedEntries | src/store.rs:1014-1046 | Every entry made by the linking loop is the one for its line, id, position and predecessor's hash |
| Links.LinkedChain | src/store.rs:1014-1046 | The new entries form a valid chain starting from the hash they were linked after |
| Links.LinkedBalance | src/store.rs:1014-1046 | Linking keeps each line's effect on every balance |
| Invariant.RecordInv | src/store.rs:1008-1081 | Recording a fresh posting in log, postings, anchors, sequence, head and audit events keeps the whole ledger invariant |
| Invariant.PostInv | src/store.rs:950-1095 | `post`, whatever the request and whatever its outcome, keeps the invariant |
| Invariant.CreateAccountInv | src/store.rs:325-378 | `create_account` keeps the invariant, accepted or refused |
| Invariant.SnapshotInv | src/store.rs:1320-1325 | Replacing the snapshots keeps the invariant |
| Contents.PostAppends | src/store.rs:1008-1046 | A posting adds one entry for each entry of the request, in order, with its account, direction, amount and asset, the next number and the hash before it, and the log stays a chain |
| Contents.PostRecords | src/store.rs:1048-1095 | Its record, anchor and audit event carry the request's memo and reference, the ids of the new entries and the hash of the last one; so does the answer, and nothing else changes |
| Contents.PostAnswers | src/store.rs:957-1006 | A refusal gives the error of the check that failed, a replay the stored posting |
| Runs.ExecInv | src/store.rs:950-1095 | The invariant holds after every run, in any order of operations |
| Runs.ReachableChain | src/store.rs:1008-1072 | In every reachable state the log verifies, entry i is numbered i+1 and links to entry i-1, the cached head is the recomputed one, and each anchor and posting head is the last hash of its posting |
| Runs.ReachablePartition | src/store.rs:1048-1081 | In every reachable state audit events and postings correspond one to one and their entry lists are consecutive, disjoint segments that make up the log |
| Contents.AuditTrail | src/store.rs:1060-1081 | In every reachable state each audit event lists the ids of its posting's rows in order, the hash of the last one and the posting's time, and each anchor has that hash in both its heads |
| Runs.ExecGrows | src/store.rs:957-1095 | Over any run log and audit events only gain a suffix, and no account, posting or anchor changes |
| Runs.PostUnchanged | src/store.rs:957-1006 | A rejected request and a replay leave the entire state as it was |
| Runs.ReplayAfterCommit | src/store.rs:959-973 | Once an id is committed, after any further run every well-formed request with that id gets the original response, flagged as a replay, and changes nothing |
| Runs.OnePass | src/store.rs:1255-1264 | Adding up balances account by account, in any order, is one pass over the log |
| Runs.AccountsCancel | src/store.rs:652-667 | In every state that keeps the invariant the balances of all accounts sum to zero, in each asset and over all assets together |
| Runs.CustodialLiability | src/store.rs:1255-1264 | What users are owed is minus what all other accounts hold, in each asset and over all assets together |
| Runs.FoldBound | src/store.rs:1488-1499 | No fold over entries of the log, nor any part of one, exceeds 10^12 times their number, so none overflows 128 bits while sequence numbers fit 64 |
| Freshness.FreshRunIds | src/store.rs:1014-1046 | With unique generated ids, entry ids in the log are distinct and free of separators after every run |
| Freshness.ReachablePipeFree | src/store.rs:1014-1046 | Hence every log a run can produce meets the conditions of the tamper-evidence theorem |
| Freshness.SameHeadSameHistory | src/hashchain.rs:12-68 | Two runs that end with the same cached head recorded the same history, or comparing their logs exhibits a hash defect |
| Freshness.HeadIsEvidence | src/hashchain.rs:12-68 | If no account id contains a separator, any log at all that verifies with the head of a run records that run's history, or exhibits a hash defect |
| Witness.EntryMovesUnnoticed | src/hashchain.rs:12-56 | An ordinary run on an account whose id holds a separator; its log verifies with the same head when an entry is moved to another account |
| Snapshots.CollectSnapshots | src/snapshot.rs:44-55 | The loop over the log yields one snapshot for each account and asset that occurs, in order of first occurrence |
| Acceleration.ViaSnapshotExact | src/store.rs:1395-1426 | For every known account and named asset, the balance read through the latest snapshot is the full scan's balance |
| Acceleration.UnknownAccount | src/store.rs:1395-1400 | There is no balance exactly for an unknown account |
| Acceleration.SnapshotExact | src/snapshot.rs:16-42 | A snapshot holds the sum of the matching entries and the id and number of the last of them |
| Acceleration.ViaSnapshotAllAssets | src/store.rs:1395-1426 | For all assets at once it is the full scan's balance if and only if the account's other assets net to zero up to the position of the snapshot found |
| Witness.ViaSnapshotAllAssetsFails | src/store.rs:1399-1426 | A run of two deposits and a snapshot write after which an account holding 12 reads 7 |
| Acceleration.StaleExact | src/snapshot.rs:57-60 | A snapshot taken earlier still reconciles if and only if no entry for its account and asset was appended since |
| Acceleration.ReconcileExact | src/snapshot.rs:57-60 | Any snapshot reconciles if and only if its balance is the sum of the log's matching entries and its last entry id is that of the last of them, or empty when there is none |
| Acceleration.BalanceMatters | src/snapshot.rs:57-60 | A snapshot that reconciles does so with no other balance |
| Acceleration.AllAssetsNeverReconciles | src/snapshot.rs:30-60 | A snapshot over all assets reconciles, even at once, only for an account with no entries |
| Acceleration.EntriesSince | src/snapshot.rs:79-98 | The pass with the found flag returns the entries after the id |
| Acceleration.EntriesAfterExact | src/snapshot.rs:79-98 | That is what follows the first entry with the id, all for the empty id, nothing for an unknown one |
| Acceleration.SinceSnapshot | src/snapshot.rs:79-98 | Asking by a snapshot's last entry id and asking by its last sequence number give the same entries |
| Acceleration.SnapshotsCancel | src/snapshot.rs:44-55 | The balances of all snapshots taken together sum to zero, in each asset and over all assets together |
| Statement.ReadPage | src/store.rs:551-607 | The selection loop, sort, limit and scan give the page, or nothing for an unknown account |
| Statement.Scan | src/store.rs:574-585 | Each line of a page carries the sum of the page up to it, starting at zero |
| Statement.SortOrders | src/store.rs:566-567 | The sort orders by sequence number and neither loses nor adds an entry |
| Windows.PageExact | src/store.rs:538-607 | A page holds, in order, the first entries of the account that lie in the time window, both ends included, and have numbers above the cursor: exactly as many as asked for, at least 1 and at most 200, if it has a next cursor, which is its last number, and at most as many if nothing is left |
| Windows.ReadExactly | src/store.rs:551-607 | What a reader gets who follows cursors while the log grows is exactly the entries of the account in the window in the last state read, each once and in order |
| Windows.PagesExactly | src/store.rs:551-607 | On a log that stands still an entry is on the pages if and only if it is in the log, belongs to the account and lies in the window |
| Statement.PageMeaning | src/store.rs:551-607 | A page read after number c holds exactly the wanted entries numbered above c up to its cursor, or all the rest when it has none |
| Statement.NothingLost | src/store.rs:551-607 | Following cursors with any limits while the log grows, the pages together are the wanted entries of the last state read: in order, none lost, none repeated |
| Statement.NothingLostInRuns | src/store.rs:551-607 | The same for the states of a store between the operations of any run |
| Statement.ClosingsAddUp | src/store.rs:551-607 | On a log that stands still, reading ends and the pages' closing balances add up to the sum of the entries that match |
| Statement.ClosingsReachFinalBalance | src/store.rs:551-607 | Without a time window they add up to the final balance each page reports |
| Orders.PostEffect | src/store.rs:950-1095 | A request under a new id is accepted depending on the accounts alone, and changes every balance by the sum of its lines |
| Orders.OrderIndependent | src/store.rs:610-674 | Any permutation of a batch of fresh postings leaves every balance the same |
| Orders.SameAnswersInAnyOrder | src/store.rs:610-674 | And the same postings of it are accepted, wherever they stand |
| Orders.FlipEffect | src/store.rs:975-1046 | The direction-flipped copy of an acceptable posting is acceptable and has the opposite effect |
| Orders.ReversalUndoes | src/store.rs:610-674 | After any further run, the flipped copy of an accepted posting under a new id is accepted and takes back exactly what it did to every balance |
| Treasury.HedgeEntry | src/treasury.rs:12-40 | The store ends where posting the hedge transfer leads, with its error if it is refused |
| Treasury.Rebalance | src/treasury.rs:42-70 | The store ends where posting the opposite transfer leads, with its error if it is refused |
| Treasury.TransferMoves | src/treasury.rs:12-70 | A transfer under a new id is accepted exactly when amount, asset and both accounts are in order, and then moves the amount between the two accounts and nothing else |
| Treasury.HedgeMoves | src/treasury.rs:12-40 | A hedge adds the amount to the treasury account and takes it from the venue account, with its memo and itself as reference |
| Treasury.RebalanceMoves | src/treasury.rs:42-70 | A rebalance adds the amount to the account it moves to and takes it from the one it moves from, likewise |
| Treasury.RebalanceUndoesHedge | src/treasury.rs:12-70 | A rebalance of the same accounts is accepted if the hedge was and restores every balance; no other account or asset moves |
| Treasury.DerivedIdsDistinct | src/treasury.rs:72-74 | Derived posting ids differ for different steps when saga ids, or else step names, contain no underscore |
| Treasury.DerivedIdsClash | src/treasury.rs:72-74 | Moving an underscore from the saga id to the step name gives a different step with the same id |
| Treasury.DerivedIdShared | src/treasury.rs:72-74 | A step shares its id with some other step if and only if its saga id or its name contains an underscore |
| LedgerStore.Store.constructor | src/store.rs:57-69 | A new store is empty, its head is the genesis hash and it is valid |
| LedgerStore.Store.CreateAccount | src/store.rs:325-378 | Changes the store to the state `create_account` specifies, with the same error, and keeps the invariant |
| LedgerStore.Store.Post | src/store.rs:610-674 | Changes the store to the state `post` specifies, with the same outcome, and keeps the invariant |
| LedgerStore.Store.PostViaMemory | src/store.rs:950-1095 | Replay, account checks, linking and recording in place come to the specified state and outcome |
| LedgerStore.Store.AccountErrors | src/store.rs:975-1006 | The two loops return the first complaint: all statuses first, then types and directions |
| LedgerStore.Store.LinkLines | src/store.rs:1008-1046 | The loop that takes sequence numbers and carries the previous hash builds the specified posting and changes nothing but the sequence |
| LedgerStore.Store.CommitNew | src/store.rs:1008-1081 | Linking and recording together change the store to the recorded state |
| LedgerStore.Store.StoreCommitted | src/store.rs:1048-1081 | The five updates in place record the posting everywhere it is kept |
| LedgerStore.Store.UserCustodialSum | src/store.rs:1255-1264 | Visiting the accounts in any order, the total is both the sum of custodial balances and one pass over the entries of accounts of type user_custodial |
| LedgerStore.Store.WriteSnapshots | src/store.rs:1320-1325 | Stores one snapshot per account and asset of the log, changes nothing else and keeps the invariant |
| LedgerStore.Store.VerifyChain | src/store.rs:1231-1234 | Accepts exactly when the store's log is a valid chain, which it is while the store is valid, and otherwise names the entry of the first bad link |
| LedgerStore.Store.Hydrate | src/store.rs:166-323 | Replaces the store's state by what the tables hold, looks up each snapshot's last entry and keeps the audit events; a number too wide for its field changes nothing; in a new store, tables that hold a sound ledger leave a valid store |
| LedgerStore.GroupRows | src/store.rs:200-229 | One pass groups the rows by posting in order and finds the largest sequence number, or stops at an amount too wide for 64 bits |
| LedgerStore.LoadRows | src/store.rs:280-310 | One pass reads the snapshots back with the sequence numbers of their last entries, or stops at a balance too wide for 128 bits |
| Protocol.RowsFound | src/store.rs:700-711 | A posting's rows are found ordered by sequence number, all of them and no others, in whatever order they were written |
| Protocol.PlayInv | src/store.rs:676-948 | Every interleaving of any number of runs, with failures anywhere, keeps the tables, runs and answers consistent: the tables are the commits replayed, each commit holds the validated lines of its request, every base read is genesis or committed, one run at most wins an id |
| Interleavings.AllOrNothing | src/store.rs:803-893 | After any interleaving every posting is one that some run was started for, its rows are that request's entries one by one under the ids generated for them, in one contiguous, balanced block chained from genesis or from an entry committed before it, with matching head and anchor; no row is without its posting |
| Interleavings.CreatorWrote | src/store.rs:895-948 | A run that answers that it created its posting has: the rows are those its own request asked for |
| Interleavings.CommittedLedgerBalances | src/store.rs:803-893 | After any interleaving committed debits equal committed credits in each asset and entry ids are distinct |
| Interleavings.AnswersAgree | src/store.rs:819-849 | Any two accepting runs for one id gave the same response, the tables hold it, and at most one claims to have created the posting |
| Interleavings.AnswersLast | src/store.rs:684-711 | An answer stays the stored one after any further events, and the log only gains a suffix |
| Retries.LoserReplays | src/store.rs:819-849 | A run that finds its posting inserted by another one answers with what is stored, as a replay |
| Retries.FailureStops | src/store.rs:684-711 | A database call that fails stops its run, except for the read of the head, and leaves the tables, all copies and other runs as they were |
| Retries.StoppedStays | src/store.rs:684-711 | A run that has stopped writes nothing and gives no answer |
| Retries.CommitStands | src/store.rs:885-893 | A commit whose acknowledgement is lost stands |
| Retries.RetryIsReplay | src/store.rs:684-711 | After it, whatever happens in between, a later request with that id in any process is answered with the posting that was committed |
| Interleavings.ForkDetected | src/hashchain.rs:12-56 | Two entries with the same predecessor cannot both verify, in whatever order they stand, without a hash defect in that log |
| Schedules.CurrentCommitsChain | src/store.rs:759-893 | Under every schedule in which no run commits after another has committed since its read of the head, or after that read failed on a non-empty table, the committed log verifies and is numbered without gaps |
| Schedules.OutdatedCommitBreaks | src/store.rs:759-893 | Under every other schedule no order of the committed rows verifies, unless two texts hashed along it collide or one hashes to the genesis hash |
| Schedules.SerialChain | src/store.rs:759-893 | In particular, when runs do not overlap and head reads are answered, the committed log verifies and is numbered without gaps, even if runs fail, stop or lose their acknowledgement |
| Serialization.TablesSerialize | src/store.rs:676-948 | Under every schedule without such a commit, whatever else overlaps and whenever accounts are opened, the tables hold at every moment what the in-memory ledger holds after the openings and commits so far in the order they took effect |
| Serialization.AnswersSerialize | src/store.rs:676-948 | Every run that has answered gave exactly the answer of `post` on that ledger at one of its own steps, after its start and before its end |
| Serialization.SerialAnswers | src/store.rs:676-948 | In particular when runs do not overlap, with accounts opened at any time, even inside a run |
| Effects.NoLostUpdates | src/store.rs:803-893 | After any interleaving, forked or not, every balance is the sum of what the committed requests ask for, one for each posting, and the balance that posting them one by one in memory leaves |
| Refinement.ChecksWalk | src/store.rs:713-757 | The account checks made one database call at a time decide as the in-memory check does |
| Refinement.WalkToCommit | src/store.rs:676-804 | An undisturbed run of a new posting reaches its commit with the batch the in-memory path would link, or the same rejection |
| Refinement.PlaySame | src/store.rs:676-948 | No table, answer or commit depends on what any process has in memory |
| Refinement.RunRefinesPost | src/store.rs:676-948 | In whatever process and whatever that process has in memory, an undisturbed run gives the in-memory answer and leaves the tables equal to the in-memory state; a copy that has the ledger's books, with or without earlier audit events, has them afterwards: log, numbers, postings, anchors, head and the new audit event |
| Hydration.OneOrder | src/store.rs:200-229 | Rows read back by sequence number from a gapless table can only come in the order of the log |
| Hydration.RebuildMirror | src/store.rs:194-320 | Hydrating from tables that mirror a ledger rebuilds exactly that ledger but for audit events and snapshots |
| Hydration.SnapshotReloads | src/store.rs:280-310 | A snapshot that was stored is loaded as it was, however the log has grown since |
| Hydration.LoadExact | src/store.rs:280-310 | A snapshot read back keeps what was stored and takes its number from its last entry; if that is gone, id and number are empty |
| Hydration.DatabaseRefinesMemory | src/store.rs:676-948 | Requests served one after another by any processes, which may be restarted and hydrate in between, leave the tables equal to the in-memory ledger and get its answers; a process that has seen everything since it started or last hydrated has the ledger's books |
| Hydration.HydrateAgrees | src/store.rs:313-320 | After any such run, hydrating gives any process the copy that a process which has seen everything had maintained commit by commit |
| Fork.BothLinkAfterTheSameHead | src/store.rs:759-893 | Any two postings that could each be made can overlap so that both commit in full, linked and numbered from the same place |
| Fork.OverlapForks | src/store.rs:760-761 | Two rows then repeat both a predecessor and a sequence number |
| Fork.OverlapBreaksTheChain | src/store.rs:851-893 | And the forked rows verify in no order, unless two texts hashed along them collide or one hashes to the genesis hash |
| Incidents.ForkHappens | src/store.rs:760-761 | From empty tables on, two deposits that overlap are both committed after the genesis hash with sequence number 1 |
| Incidents.ForkIsOutdated | src/store.rs:760-761 | That schedule is one in which a run commits after a head that is out of date |
| Fork.HeadFailureBreaks | src/store.rs:759-893 | Any posting that could be made is committed even when its read of the head fails, linked after the genesis hash; a valid non-empty chain then no longer verifies, unless its last entry's text hashes to the genesis hash |
| Incidents.HeadFailureHappens | src/store.rs:1514-1523 | From empty tables on, a deposit whose head read fails is committed after the genesis hash behind a valid chain of two entries, which then no longer verifies unless the second one's text hashes to the genesis hash |
| Fork.GenesisLinkBreaks | src/store.rs:760-761 | A batch so linked on a non-empty log breaks the chain, unless the last entry's text hashes to the genesis hash |

## Left out

- REST and gRPC handlers, protobuf mapping, authentication, tracing, configuration and start-up: plumbing over the store.
- SHA-256, hexadecimal and UUID internals: an arbitrary hash function and ids given as inputs.
- SQL text, pooling, blocking, deadlocks and serialization failures: a call that fails, for whatever reason, ends its run.
- Migrations and the other tables of the schema: only accounts, postings, entries and the anchor table have steps.
- Balances, statements, single postings and snapshots read from or written to the database by SQL, apart from the snapshots that hydration reads.
- The round trip of timestamps through a seconds column, and casts to 64-bit columns.
- Kafka delivery of audit events, and `record_audit_event`, which lets a caller append any event.
- `list_accounts`, `list_postings`, `get_account`, `get_posting`: lookups and a sort.
- `validate_scale`, which always succeeds, and the texts of error messages. An unbalanced posting's error does not name the asset, because the order of a hash map decides which one is reported.
- `last_entry_id_before` and any claim that needs a clock that advances.
- The lock inside one store: each in-memory operation is one step. Opening an account with a database is one step as well.
- The sequence counter is an unbounded number; `Runs.FoldBound` assumes the log is shorter than 2^64.
- Hydration.HydrateAgrees: audit events are not stored and stay as they are; snapshots come from their own table, whose rows are given.
- Hydration.DatabaseRefinesMemory: snapshot writes through the database are not among the requests; requests are served one at a time, overlapping ones and openings inside a run are the subject of `Serialization`.
- Serialization.AnswersSerialize: compares kinds of rejection, not error texts; when several accounts are missing, an opening inside the run can change which of them the text names.
- LedgerStore.Store.Hydrate: the queries are taken as one read of the tables, and a query that fails, which leaves the store as it was, is not a case of the method.
