/** Which schedules of posting runs keep the chain linear: exactly those in which no run commits
    after a head that is out of date. */
module Schedules {
  import opened Text
  import opened Posting
  import opened HashChain
  import opened Ledger
  import opened Links
  import opened Invariant
  import opened Database
  import opened Protocol
  import opened Traces
  import opened Interleavings
  import opened Linear

  // ---------- What happens when ----------

  /** The system before event `i`. */
  ghost function SysAt(env: Env, evs: seq<Event>, i: nat): System
    requires i <= |evs|
  {
    Play(env, Initial(), evs[..i])
  }

  /** At event `i` a transaction takes effect. */
  ghost predicate CommitsAt(env: Env, evs: seq<Event>, i: nat)
    requires i < |evs|
  {
    SysAt(env, evs, i + 1).history != SysAt(env, evs, i).history
  }

  /** Event `i` ends the run's read of the head. */
  ghost predicate HeadReadAt(env: Env, evs: seq<Event>, i: nat, pid: nat)
    requires i < |evs|
  {
    var sys, sys' := SysAt(env, evs, i), SysAt(env, evs, i + 1);
    && Pid(evs[i]) == Some(pid)
    && pid in sys.runs && sys.runs[pid].stage.ReadHead?
    && pid in sys'.runs && !sys'.runs[pid].stage.ReadHead?
  }

  /** The last event before `n` that ended a read of the head by the run. */
  ghost function LastHeadRead(env: Env, evs: seq<Event>, n: nat, pid: nat): (h: Option<nat>)
    requires n <= |evs|
    ensures h.Some? ==> h.value < n && HeadReadAt(env, evs, h.value, pid)
  {
    if n == 0 then None
    else if HeadReadAt(env, evs, n - 1, pid) then Some(n - 1)
    else LastHeadRead(env, evs, n - 1, pid)
  }

  ghost predicate OtherCommitBetween(env: Env, evs: seq<Event>, h: nat, c: nat)
    requires h < c < |evs|
  {
    exists k :: h < k < c && CommitsAt(env, evs, k) && Pid(evs[k]) != Pid(evs[c])
  }

  /** The read was taken for that of an empty table, and the table was not empty. */
  ghost predicate ReadMisled(env: Env, evs: seq<Event>, h: nat)
    requires h < |evs|
  {
    evs[h].HeadReadFails? && SysAt(env, evs, h).db.entries != []
  }

  /** Event `c` commits a posting although, since its run read the head, another run has committed,
      or although that read failed. */
  ghost predicate OutdatedAt(env: Env, evs: seq<Event>, c: nat)
    requires c < |evs|
  {
    CommitsAt(env, evs, c) && Pid(evs[c]).Some? &&
    match LastHeadRead(env, evs, c, Pid(evs[c]).value)
    case None => false
    case Some(h) => OtherCommitBetween(env, evs, h, c) || ReadMisled(env, evs, h)
  }

  ghost predicate NoneOutdated(env: Env, evs: seq<Event>, n: nat)
    requires n <= |evs|
  {
    forall c :: 0 <= c < n ==> !OutdatedAt(env, evs, c)
  }

  // ---------- One event after another ----------

  lemma StepAt(env: Env, evs: seq<Event>, i: nat)
    requires i < |evs|
    ensures SysAt(env, evs, i + 1) == Apply(env, SysAt(env, evs, i), evs[i])
    ensures SysInv(env, SysAt(env, evs, i))
  {
    hide Apply, SysInv, Initial;
    assert evs[..i + 1][..i] == evs[..i];
    PlayInv(env, evs[..i]);
  }

  /** What the commit of a run's batch leaves. */
  ghost predicate Appends(env: Env, sys: System, sys': System, pid: nat) {
    && pid in sys.runs && pid in sys'.runs && sys.runs[pid].stage.Committing?
    && var r := sys.runs[pid];
      && r.stage.b.lines != []
      && sys'.history == sys.history + [Commit(r.stage.b, r.job)]
      && sys'.db.entries == sys.db.entries + Link(env, r.stage.b)
      && BaseRead(sys'.runs[pid]).None?
  }

  lemma ApplyAppends(env: Env, sys: System, ev: Event)
    requires SysInv(env, sys)
    ensures var sys' := Apply(env, sys, ev);
      if sys'.history == sys.history then sys'.db.entries == sys.db.entries
      else Pid(ev).Some? && Appends(env, sys, sys', Pid(ev).value)
  {
    hide Apply, SysInv, OwnStep, NewRun, NoCommit, Appends;
    ApplyShape(env, sys, ev);
    if Pid(ev).Some? && Pid(ev).value in sys.runs {
      OwnAppends(env, sys, Apply(env, sys, ev), Pid(ev).value);
    } else {
      NothingAppended(sys, Apply(env, sys, ev), ev);
    }
  }

  lemma OwnAppends(env: Env, sys: System, sys': System, pid: nat)
    requires SysInv(env, sys) && OwnStep(env, sys, sys', pid)
    ensures if sys'.history == sys.history then sys'.db.entries == sys.db.entries else Appends(env, sys, sys', pid)
  {
    hide SysInv, OwnStep, OnlyRun, Admissible, Link, BaseRead, Won;
    OwnCommit(env, sys, sys', pid);
    OwnHistory(env, sys, sys', pid);
    if sys'.history != sys.history {
      BatchHasLines(env, sys, pid, sys.runs[pid].stage.b);
      CommittedBase(sys'.runs[pid]);
    }
  }

  lemma CommittedBase(r: Run)
    requires r.stage.UpdateCache? || r.stage.Broken?
    ensures BaseRead(r).None?
  {
  }

  lemma NothingAppended(sys: System, sys': System, ev: Event)
    requires (exists pid :: NewRun(sys, sys', pid, ev)) || NoCommit(sys, sys')
    ensures sys'.history == sys.history && sys'.db.entries == sys.db.entries
  {
    hide OnlyRun;
  }

  /** A commit appends the rows of its batch, and there are some. */
  lemma CommitAppends(env: Env, evs: seq<Event>, i: nat)
    requires i < |evs|
    ensures var sys, sys' := SysAt(env, evs, i), SysAt(env, evs, i + 1);
      if CommitsAt(env, evs, i) then Pid(evs[i]).Some? && Appends(env, sys, sys', Pid(evs[i]).value)
      else sys'.history == sys.history && sys'.db.entries == sys.db.entries
  {
    hide SysAt, Apply, SysInv, Appends;
    StepAt(env, evs, i);
    ApplyAppends(env, SysAt(env, evs, i), evs[i]);
  }

  lemma BatchHasLines(env: Env, sys: System, pid: nat, b: Batch)
    requires SysInv(env, sys) && pid in sys.runs && sys.runs[pid].stage == Committing(b) && Admissible(sys.db, b)
    ensures b.lines != []
  {
    hide SysInv, Admissible, Balanced, GoodLine, Asked, BaseOk, Decimal;
    CommitFacts(env, sys, pid, b);
  }

  lemma GrowsAt(env: Env, evs: seq<Event>, i: nat)
    requires i < |evs|
    ensures SysAt(env, evs, i).history <= SysAt(env, evs, i + 1).history
    ensures SysAt(env, evs, i).db.entries <= SysAt(env, evs, i + 1).db.entries
  {
    hide SysAt, Link, BaseRead;
    CommitAppends(env, evs, i);
  }

  lemma {:induction false} OnlyGrows(env: Env, evs: seq<Event>, i: nat, j: nat)
    requires i <= j <= |evs|
    ensures SysAt(env, evs, i).history <= SysAt(env, evs, j).history
    ensures SysAt(env, evs, i).db.entries <= SysAt(env, evs, j).db.entries
    decreases j
  {
    hide SysAt;
    if i < j {
      OnlyGrows(env, evs, i, j - 1);
      GrowsAt(env, evs, j - 1);
    }
  }

  /** Without a commit nothing in the log changes. */
  lemma {:induction false} NothingBetween(env: Env, evs: seq<Event>, i: nat, j: nat)
    requires i <= j <= |evs| && forall k :: i <= k < j ==> !CommitsAt(env, evs, k)
    ensures SysAt(env, evs, i).history == SysAt(env, evs, j).history
    ensures SysAt(env, evs, i).db.entries == SysAt(env, evs, j).db.entries
    decreases j
  {
    hide SysAt, Link;
    if i < j {
      NothingBetween(env, evs, i, j - 1);
      CommitAppends(env, evs, j - 1);
    }
  }

  // ---------- What a run knows of the head ----------

  /** The base a run holds is the head as its read found it, and it has not committed since. */
  ghost predicate KnowsHead(env: Env, evs: seq<Event>, n: nat, pid: nat)
    requires n <= |evs| && pid in SysAt(env, evs, n).runs
  {
    var sys, r := SysAt(env, evs, n), SysAt(env, evs, n).runs[pid];
    BaseRead(r).Some? ==>
      match LastHeadRead(env, evs, n, pid)
      case None => false
      case Some(h) =>
        && BaseRead(r).value == (if evs[h].HeadReadFails? then Genesis() else Head(SysAt(env, evs, h).db.entries))
        && (forall k :: h < k < n && CommitsAt(env, evs, k) ==> Pid(evs[k]) != Some(pid))
        && (r.stage.Committing? && SysAt(env, evs, h).history == sys.history ==> r.stage.b.sequence == |sys.db.entries|)
  }

  ghost predicate LinearUpTo(env: Env, evs: seq<Event>, n: nat)
    requires n <= |evs|
  {
    && LinearHistory(env, SysAt(env, evs, n).history)
    && forall pid :: pid in SysAt(env, evs, n).runs ==> KnowsHead(env, evs, n, pid)
  }

  /** How a run comes to hold a base: it reads the head, or it held the base before. */
  ghost predicate BaseMoves(sys: System, r: Run, r': Run, ev: Event) {
    BaseRead(r').Some? ==>
      if r.stage.ReadHead? then
        && !r'.stage.Committing?
        && (if ev.HeadReadFails? || sys.db.entries == [] then BaseRead(r').value == Genesis()
            else exists i: nat :: IsLatest(sys.db.entries, i) && BaseRead(r').value == sys.db.entries[i].thisHash)
      else
        && BaseRead(r) == BaseRead(r')
        && (r'.stage.Committing? ==> r'.stage == r.stage || r'.stage.b.sequence == MaxSequence(sys.db.entries))
  }

  lemma ReadingBase(sys: System, r: Run, pick: nat, ev: Event)
    requires !ev.HeadReadFails?
    ensures BaseMoves(sys, r, Move(r, NextStage(sys.db, r, pick)), ev)
  {
    hide MaxSequence, CheckStatus, CheckType, FindRows, StoredResponse, IsLatest, Genesis, Decimal;
  }

  lemma BaseStep(env: Env, sys: System, ev: Event, pid: nat)
    requires Pid(ev) == Some(pid) && pid in sys.runs
    ensures pid in Apply(env, sys, ev).runs && BaseMoves(sys, sys.runs[pid], Apply(env, sys, ev).runs[pid], ev)
  {
    hide Apply, CommitStep, Genesis, Move, At, BaseMoves, Proceed;
    var r := sys.runs[pid];
    OwnApplies(env, sys, ev, pid);
    StayOk(sys, r, ev);
    AtIs(sys, pid, Broken);
    AtIs(sys, pid, InsertPosting(Genesis()));
    NoBase(sys, r, Move(r, Broken), ev);
    match ev
    case Advance(_, pick) => ProceedBase(env, sys, pid, pick);
    case HeadReadFails(_) => GenesisBase(sys, r, ev);
    case CommitUnacknowledged(_) => if r.stage.Committing? { UnseenBase(env, sys, ev, pid, r.stage.b); }
    case _ =>
  }

  lemma UnseenBase(env: Env, sys: System, ev: Event, pid: nat, b: Batch)
    requires pid in sys.runs
    ensures var sys' := CommitStep(env, sys, pid, b, Broken);
      pid in sys'.runs && BaseMoves(sys, sys.runs[pid], sys'.runs[pid], ev)
  {
    hide CommitStep, BaseMoves;
    CommitStepStage(env, sys, pid, b, Broken);
    NoBase(sys, sys.runs[pid], CommitStep(env, sys, pid, b, Broken).runs[pid], ev);
  }

  lemma StayOk(sys: System, r: Run, ev: Event)
    ensures BaseMoves(sys, r, r, ev)
  {
  }

  lemma NoBase(sys: System, r: Run, r': Run, ev: Event)
    requires r'.stage.Broken? || r'.stage.UpdateCache? || r'.stage.EmitAudit? || r'.stage.Finished?
    ensures BaseMoves(sys, r, r', ev)
  {
  }

  lemma GenesisBase(sys: System, r: Run, ev: Event)
    requires ev.HeadReadFails?
    ensures r.stage.ReadHead? ==> BaseMoves(sys, r, Move(r, InsertPosting(Genesis())), ev)
  {
    hide Genesis;
  }

  lemma CommitStepStage(env: Env, sys: System, pid: nat, b: Batch, stage: Stage)
    requires pid in sys.runs && (stage == Broken || stage == UpdateCache(b))
    ensures var sys' := CommitStep(env, sys, pid, b, stage);
      pid in sys'.runs && (sys'.runs[pid].stage == Broken || sys'.runs[pid].stage == UpdateCache(b))
  {
    hide Admissible, CommitTables, NewPosting;
  }

  lemma ProceedBase(env: Env, sys: System, pid: nat, pick: nat)
    requires pid in sys.runs
    ensures var sys' := Proceed(env, sys, pid, pick);
      pid in sys'.runs && BaseMoves(sys, sys.runs[pid], sys'.runs[pid], Advance(pid, pick))
  {
    hide NextStage, CommitStep, WithCache, Filled, CacheEvent, Move, At, BaseMoves, Cache, NewPosting, Respond, EventOf;
    var r, sys' := sys.runs[pid], Proceed(env, sys, pid, pick);
    if r.stage.Committing? {
      CommitStepStage(env, sys, pid, r.stage.b, UpdateCache(r.stage.b));
      NoBase(sys, r, sys'.runs[pid], Advance(pid, pick));
    } else if r.stage.UpdateCache? || r.stage.EmitAudit? {
      FillStage(env, sys, pid);
      NoBase(sys, r, sys'.runs[pid], Advance(pid, pick));
    } else {
      AtIs(sys, pid, NextStage(sys.db, r, pick));
      ReadingBase(sys, r, pick, Advance(pid, pick));
    }
  }

  lemma FillStage(env: Env, sys: System, pid: nat)
    requires pid in sys.runs && (sys.runs[pid].stage.UpdateCache? || sys.runs[pid].stage.EmitAudit?)
    ensures var sys' := Proceed(env, sys, pid, 0);
      pid in sys'.runs && (sys'.runs[pid].stage.EmitAudit? || sys'.runs[pid].stage.Finished?)
    ensures forall pick :: Proceed(env, sys, pid, pick) == Proceed(env, sys, pid, 0)
  {
    hide Filled, CacheEvent, Cache, NewPosting, Respond, EventOf, NextStage;
  }

  // ---------- Forward: no outdated commit, a linear chain ----------

  /** When nothing else was committed since the read, the base is still the head. */
  lemma StillTheHead(env: Env, evs: seq<Event>, n: nat, pid: nat)
    requires n < |evs| && Pid(evs[n]) == Some(pid) && CommitsAt(env, evs, n) && !OutdatedAt(env, evs, n)
    requires pid in SysAt(env, evs, n).runs && SysAt(env, evs, n).runs[pid].stage.Committing?
    requires KnowsHead(env, evs, n, pid)
    ensures var sys, b := SysAt(env, evs, n), SysAt(env, evs, n).runs[pid].stage.b;
      b.prev == Head(sys.db.entries) && b.sequence == |sys.db.entries|
  {
    hide SysAt, CommitsAt, HeadReadAt, KnowsHead, OutdatedAt, Head;
    var h := BaseKnown(env, evs, n, pid);
    ReadIsNoCommit(env, evs, h, pid);
    NotMisled(env, evs, n, h);
    NothingBetween(env, evs, h, n);
    EmptyHead();
  }

  /** What a run that is about to commit knows of its base. */
  lemma BaseKnown(env: Env, evs: seq<Event>, n: nat, pid: nat) returns (h: nat)
    requires n <= |evs| && pid in SysAt(env, evs, n).runs && SysAt(env, evs, n).runs[pid].stage.Committing?
    requires KnowsHead(env, evs, n, pid)
    ensures h < n && LastHeadRead(env, evs, n, pid) == Some(h) && HeadReadAt(env, evs, h, pid)
    ensures var b, before := SysAt(env, evs, n).runs[pid].stage.b, SysAt(env, evs, h).db.entries;
      && b.prev == (if evs[h].HeadReadFails? then Genesis() else Head(before))
      && (SysAt(env, evs, h).history == SysAt(env, evs, n).history ==> b.sequence == |SysAt(env, evs, n).db.entries|)
    ensures forall k :: h < k < n && CommitsAt(env, evs, k) ==> Pid(evs[k]) != Some(pid)
  {
    hide SysAt, CommitsAt, HeadReadAt, Head, Genesis, BaseRead;
    CommittingBase(SysAt(env, evs, n).runs[pid]);
    h := LastHeadRead(env, evs, n, pid).value;
  }

  lemma CommittingBase(r: Run)
    requires r.stage.Committing?
    ensures BaseRead(r) == Some(r.stage.b.prev)
  {
  }

  /** A commit that is not outdated was not misled, and no other commit came between. */
  lemma NotMisled(env: Env, evs: seq<Event>, n: nat, h: nat)
    requires n < |evs| && Pid(evs[n]).Some? && CommitsAt(env, evs, n) && !OutdatedAt(env, evs, n)
    requires LastHeadRead(env, evs, n, Pid(evs[n]).value) == Some(h) && h < n
    ensures !ReadMisled(env, evs, h)
    ensures forall k :: h < k < n && CommitsAt(env, evs, k) ==> Pid(evs[k]) == Pid(evs[n])
  {
    hide SysAt, CommitsAt, HeadReadAt, LastHeadRead, ReadMisled;
  }

  lemma ReadIsNoCommit(env: Env, evs: seq<Event>, h: nat, pid: nat)
    requires h < |evs| && HeadReadAt(env, evs, h, pid)
    ensures !CommitsAt(env, evs, h)
  {
    hide SysAt, Link;
    CommitAppends(env, evs, h);
  }

  /** The log of a linear history is numbered; its tables agree. */
  lemma LinearTables(env: Env, evs: seq<Event>, n: nat)
    requires n <= |evs| && LinearHistory(env, SysAt(env, evs, n).history)
    ensures var sys := SysAt(env, evs, n); Chained(env, sys.db.entries) && Numbered(sys.db.entries)
    ensures var sys := SysAt(env, evs, n); sys.db.entries == Log(env, sys.history)
  {
    hide LinearHistory, Chained, Numbered, Log, HistoryOk, AllRunsOk, OneWinner, AccountsOk, PostingTable, ChainTable,
      Play, Initial;
    PlayInv(env, evs[..n]);
    LinearChain(env, SysAt(env, evs, n).history);
  }

  lemma HistoryNext(env: Env, evs: seq<Event>, n: nat)
    requires n < |evs| && LinearUpTo(env, evs, n) && !OutdatedAt(env, evs, n)
    ensures LinearHistory(env, SysAt(env, evs, n + 1).history)
  {
    hide SysAt, LinearHistory, Chained, Numbered, OutdatedAt, KnowsHead, Link, CommitsAt, Head, Log;
    CommitAppends(env, evs, n);
    if CommitsAt(env, evs, n) {
      var pid := Pid(evs[n]).value;
      var sys := SysAt(env, evs, n);
      LinearTables(env, evs, n);
      StillTheHead(env, evs, n, pid);
      LinearExtends(env, sys.history, Commit(sys.runs[pid].stage.b, sys.runs[pid].job));
    }
  }

  /** Another run's event, or one of no run, changes nothing a run knows. */
  lemma KnowsStill(env: Env, evs: seq<Event>, n: nat, pid: nat)
    requires n < |evs| && Pid(evs[n]) != Some(pid)
    requires pid in SysAt(env, evs, n).runs && pid in SysAt(env, evs, n + 1).runs && KnowsHead(env, evs, n, pid)
    requires SysAt(env, evs, n + 1).runs[pid] == SysAt(env, evs, n).runs[pid]
    ensures KnowsHead(env, evs, n + 1, pid)
  {
    hide SysAt, CommitsAt, Head, Genesis, BaseRead, HeadReadAt;
    NotReadAt(env, evs, n, pid);
    if BaseRead(SysAt(env, evs, n).runs[pid]).Some? {
      var h := LastHeadRead(env, evs, n, pid).value;
      SameHistorySince(env, evs, h, n);
    }
  }

  lemma NotReadAt(env: Env, evs: seq<Event>, n: nat, pid: nat)
    requires n < |evs| && Pid(evs[n]) != Some(pid)
    ensures !HeadReadAt(env, evs, n, pid)
  {
    hide SysAt;
  }

  /** A history that is what it was at `h` has not changed at the last event either. */
  lemma SameHistorySince(env: Env, evs: seq<Event>, h: nat, n: nat)
    requires h <= n < |evs|
    ensures SysAt(env, evs, h).history == SysAt(env, evs, n + 1).history ==>
      && SysAt(env, evs, h).history == SysAt(env, evs, n).history
      && SysAt(env, evs, n + 1).db.entries == SysAt(env, evs, n).db.entries
  {
    hide SysAt, Link;
    OnlyGrows(env, evs, h, n);
    GrowsAt(env, evs, n);
    CommitAppends(env, evs, n);
  }

  lemma KnowsRead(env: Env, evs: seq<Event>, n: nat, pid: nat)
    requires n < |evs| && HeadReadAt(env, evs, n, pid) && Numbered(SysAt(env, evs, n).db.entries)
    requires var sys, sys' := SysAt(env, evs, n), SysAt(env, evs, n + 1);
      BaseMoves(sys, sys.runs[pid], sys'.runs[pid], evs[n])
    ensures KnowsHead(env, evs, n + 1, pid)
  {
    hide SysAt, Numbered, IsLatest, MaxSequence, CommitsAt, Head, Genesis;
    FoundHead(SysAt(env, evs, n).db.entries);
  }

  lemma KnowsOnward(env: Env, evs: seq<Event>, n: nat, pid: nat)
    requires n < |evs| && !HeadReadAt(env, evs, n, pid) && Numbered(SysAt(env, evs, n).db.entries)
    requires !CommitsAt(env, evs, n) && pid in SysAt(env, evs, n).runs && pid in SysAt(env, evs, n + 1).runs
    requires KnowsHead(env, evs, n, pid)
    requires var sys, sys' := SysAt(env, evs, n), SysAt(env, evs, n + 1);
      && BaseRead(sys'.runs[pid]).Some? && !sys.runs[pid].stage.ReadHead?
      && BaseMoves(sys, sys.runs[pid], sys'.runs[pid], evs[n])
    ensures KnowsHead(env, evs, n + 1, pid)
  {
    hide SysAt, Numbered, IsLatest, MaxSequence, CommitsAt, Head, Genesis, HeadReadAt, BaseRead;
    MaxOfNumbered(SysAt(env, evs, n).db.entries);
    SameHistorySince(env, evs, LastHeadRead(env, evs, n, pid).value, n);
  }

  /** The run's own event. */
  lemma KnowsOwn(env: Env, evs: seq<Event>, n: nat, pid: nat)
    requires n < |evs| && Pid(evs[n]) == Some(pid) && Numbered(SysAt(env, evs, n).db.entries)
    requires pid in SysAt(env, evs, n).runs && KnowsHead(env, evs, n, pid)
    ensures pid in SysAt(env, evs, n + 1).runs && KnowsHead(env, evs, n + 1, pid)
  {
    hide SysAt, Numbered, Apply, BaseMoves, CommitsAt, LastHeadRead, Link;
    var sys, sys' := SysAt(env, evs, n), SysAt(env, evs, n + 1);
    StepAt(env, evs, n);
    BaseStep(env, sys, evs[n], pid);
    CommitAppends(env, evs, n);
    if BaseRead(sys'.runs[pid]).Some? {
      if sys.runs[pid].stage.ReadHead? {
        KnowsRead(env, evs, n, pid);
      } else {
        KnowsOnward(env, evs, n, pid);
      }
    }
  }

  /** A numbered log has one latest row, and its hash is the head. */
  lemma FoundHead(log: seq<EntryRecord>)
    requires Numbered(log)
    ensures log == [] ==> Head(log) == Genesis()
    ensures forall i: nat :: IsLatest(log, i) ==> log[i].thisHash == Head(log)
  {
    hide Numbered, IsLatest, Genesis, Head;
    EmptyHead();
    forall i: nat | IsLatest(log, i) ensures i < |log| && log[i].thisHash == Head(log) {
      LatestOfNumbered(log, i);
    }
  }

  lemma EmptyHead()
    ensures Head([]) == Genesis()
  {
  }

  lemma LinearNext(env: Env, evs: seq<Event>, n: nat)
    requires n < |evs| && LinearUpTo(env, evs, n) && !OutdatedAt(env, evs, n)
    ensures LinearUpTo(env, evs, n + 1)
  {
    hide SysAt, LinearHistory, OutdatedAt, KnowsHead, Apply, Chained, Numbered, Log;
    HistoryNext(env, evs, n);
    LinearTables(env, evs, n);
    StepAt(env, evs, n);
    var sys, sys' := SysAt(env, evs, n), SysAt(env, evs, n + 1);
    forall pid | pid in sys'.runs ensures KnowsHead(env, evs, n + 1, pid) {
      RunMoves(env, sys, evs[n], pid);
      if pid !in sys.runs {
        KnowsNothing(env, evs, n + 1, pid);
      } else if Pid(evs[n]) == Some(pid) {
        KnowsOwn(env, evs, n, pid);
      } else {
        KnowsStill(env, evs, n, pid);
      }
    }
  }

  lemma RunMoves(env: Env, sys: System, ev: Event, pid: nat)
    requires pid in Apply(env, sys, ev).runs
    ensures pid !in sys.runs ==> Apply(env, sys, ev).runs[pid].stage == CheckExisting
    ensures pid in sys.runs && Pid(ev) != Some(pid) ==> Apply(env, sys, ev).runs[pid] == sys.runs[pid]
  {
    hide Apply, HasCommitted, NoCommit, Won;
    ApplyShape(env, sys, ev);
  }

  lemma KnowsNothing(env: Env, evs: seq<Event>, n: nat, pid: nat)
    requires n <= |evs| && pid in SysAt(env, evs, n).runs && SysAt(env, evs, n).runs[pid].stage == CheckExisting
    ensures KnowsHead(env, evs, n, pid)
  {
    hide SysAt;
  }

  lemma {:induction false} AllLinear(env: Env, evs: seq<Event>, n: nat)
    requires n <= |evs| && NoneOutdated(env, evs, n)
    ensures LinearUpTo(env, evs, n)
  {
    hide SysAt, OutdatedAt, LinearUpTo;
    if n == 0 {
      LinearAtFirst(env, evs);
    } else {
      AllLinear(env, evs, n - 1);
      LinearNext(env, evs, n - 1);
    }
  }

  lemma LinearAtFirst(env: Env, evs: seq<Event>)
    ensures LinearUpTo(env, evs, 0)
  {
  }

  // ---------- Backward: an outdated commit, a forked chain ----------

  /** Two rows were linked after the same hash. */
  ghost predicate Forked(log: seq<EntryRecord>, i: nat, j: nat) {
    i < j < |log| && log[i].prevHash == log[j].prevHash
  }

  lemma FirstOutdated(env: Env, evs: seq<Event>, n: nat) returns (c: nat)
    requires n <= |evs| && !NoneOutdated(env, evs, n)
    ensures c < n && OutdatedAt(env, evs, c) && NoneOutdated(env, evs, c)
  {
    hide OutdatedAt;
    if NoneOutdated(env, evs, n - 1) {
      c := n - 1;
    } else {
      c := FirstOutdated(env, evs, n - 1);
    }
  }

  /** How the base of an outdated commit came about. */
  lemma OutdatedBase(env: Env, evs: seq<Event>, c: nat, pid: nat) returns (h: nat)
    requires c < |evs| && Pid(evs[c]) == Some(pid) && OutdatedAt(env, evs, c)
    requires pid in SysAt(env, evs, c).runs && SysAt(env, evs, c).runs[pid].stage.Committing?
    requires KnowsHead(env, evs, c, pid)
    ensures h < c && (OtherCommitBetween(env, evs, h, c) || ReadMisled(env, evs, h))
    ensures var before := SysAt(env, evs, h).db.entries;
      SysAt(env, evs, c).runs[pid].stage.b.prev == if evs[h].HeadReadFails? then Genesis() else Head(before)
  {
    hide SysAt, CommitsAt, HeadReadAt, LastHeadRead, OtherCommitBetween, ReadMisled, KnowsHead, Head, Genesis;
    h := BaseKnown(env, evs, c, pid);
  }

  /** The row that already follows the hash an outdated commit links after. */
  lemma TakenPlace(env: Env, evs: seq<Event>, c: nat, pid: nat) returns (i: nat)
    requires c < |evs| && Pid(evs[c]) == Some(pid) && OutdatedAt(env, evs, c) && NoneOutdated(env, evs, c)
    requires pid in SysAt(env, evs, c).runs && SysAt(env, evs, c).runs[pid].stage.Committing?
    ensures var sys := SysAt(env, evs, c);
      i < |sys.db.entries| && sys.db.entries[i].prevHash == sys.runs[pid].stage.b.prev
  {
    hide SysAt, Chained, Numbered, LinearHistory, NoneOutdated, OutdatedAt, KnowsHead, OtherCommitBetween,
      Log, Genesis, Head;
    AllLinear(env, evs, c);
    LinearTables(env, evs, c);
    var h := OutdatedBase(env, evs, c, pid);
    var before, log := SysAt(env, evs, h).db.entries, SysAt(env, evs, c).db.entries;
    OnlyGrows(env, evs, h, c);
    if OtherCommitBetween(env, evs, h, c) {
      SomethingBetween(env, evs, h, c);
    }
    i := if evs[h].HeadReadFails? then 0 else |before|;
    HeadOfPrefix(before, log);
    ChainedAt(env, log, i);
  }

  lemma SomethingBetween(env: Env, evs: seq<Event>, h: nat, c: nat)
    requires h < c < |evs| && OtherCommitBetween(env, evs, h, c)
    ensures |SysAt(env, evs, h).db.entries| < |SysAt(env, evs, c).db.entries|
  {
    hide SysAt;
    var k :| h < k < c && CommitsAt(env, evs, k) && Pid(evs[k]) != Pid(evs[c]);
    OnlyGrows(env, evs, h, k);
    CommitAppends(env, evs, k);
    OnlyGrows(env, evs, k + 1, c);
  }

  lemma HeadOfPrefix(before: seq<EntryRecord>, log: seq<EntryRecord>)
    requires before <= log
    ensures Before(Genesis(), log, |before|) == Head(before)
  {
  }

  lemma ChainedAt(env: Env, log: seq<EntryRecord>, i: nat)
    requires Chained(env, log) && i < |log|
    ensures log[i].prevHash == Before(Genesis(), log, i)
  {
    assert LinkAt(env, Genesis(), log, i);
  }

  /** An outdated commit forks the log for good. */
  lemma OutdatedForks(env: Env, evs: seq<Event>) returns (i: nat, j: nat)
    requires !NoneOutdated(env, evs, |evs|)
    ensures Forked(Play(env, Initial(), evs).db.entries, i, j)
  {
    hide SysAt, OutdatedAt, NoneOutdated, Link, Play, Initial;
    var c := FirstOutdated(env, evs, |evs|);
    OutdatedFacts(env, evs, c);
    var pid, sys := Pid(evs[c]).value, SysAt(env, evs, c);
    CommitAppends(env, evs, c);
    i := TakenPlace(env, evs, c, pid);
    j := |sys.db.entries|;
    FirstPrev(env, sys.runs[pid].stage.b);
    OnlyGrows(env, evs, c + 1, |evs|);
    LastSys(env, evs);
  }

  lemma OutdatedFacts(env: Env, evs: seq<Event>, c: nat)
    requires c < |evs| && OutdatedAt(env, evs, c)
    ensures CommitsAt(env, evs, c) && Pid(evs[c]).Some?
  {
  }

  lemma LastSys(env: Env, evs: seq<Event>)
    ensures SysAt(env, evs, |evs|) == Play(env, Initial(), evs)
  {
    hide Play, Initial;
    assert evs[..|evs|] == evs;
  }

  // ---------- The exact condition ----------

  /** If no run commits after a head that is out of date, the log verifies and is numbered without
      gaps, whatever else overlaps, fails, stops or goes unacknowledged. */
  lemma CurrentCommitsChain(env: Env, evs: seq<Event>)
    requires NoneOutdated(env, evs, |evs|)
    ensures var log := Play(env, Initial(), evs).db.entries; Chained(env, log) && Numbered(log)
  {
    hide SysAt, NoneOutdated, LinearHistory, Chained, Numbered, KnowsHead, Log, Play, Initial;
    AllLinear(env, evs, |evs|);
    LinearTables(env, evs, |evs|);
    LastSys(env, evs);
  }

  /** And if one does, then no order of the rows verifies, unless two of the texts hashed along
      that order collide or one hashes to the genesis hash. */
  lemma OutdatedCommitBreaks(env: Env, evs: seq<Event>, rows: seq<EntryRecord>)
    requires !NoneOutdated(env, evs, |evs|)
    requires multiset(rows) == multiset(Play(env, Initial(), evs).db.entries)
    ensures Chained(env, rows) ==> ForkShown(env, rows)
  {
    hide NoneOutdated, Chained, ForkShown, Play, Initial;
    var i, j := OutdatedForks(env, evs);
    ForkBreaksEveryOrder(env, Play(env, Initial(), evs).db.entries, rows, i, j);
  }

  // ---------- Runs that do not overlap ----------

  /** Between two events of one run no other run has an event. Runs may fail or crash anywhere, be
      abandoned, and belong to any process; accounts may be opened at any time. */
  ghost predicate NoOverlap(evs: seq<Event>) {
    forall i, j, k :: 0 <= i < j < k < |evs| && Pid(evs[i]).Some? && Pid(evs[i]) == Pid(evs[k]) ==>
      Pid(evs[j]) == None || Pid(evs[j]) == Pid(evs[i])
  }

  /** No read of the head fails; such a failure is not noticed by the run. */
  ghost predicate HeadsAnswered(evs: seq<Event>) {
    forall i :: 0 <= i < |evs| ==> !evs[i].HeadReadFails?
  }

  /** When posting runs do not overlap, the committed log verifies and is numbered without gaps,
      even if runs fail, crash or lose the acknowledgement of their commit. */
  lemma SerialChain(env: Env, evs: seq<Event>)
    requires NoOverlap(evs) && HeadsAnswered(evs)
    ensures var log := Play(env, Initial(), evs).db.entries; Chained(env, log) && Numbered(log)
  {
    hide Chained, Numbered, Play, Initial;
    forall c | 0 <= c < |evs| ensures !OutdatedAt(env, evs, c) {
      SerialIsCurrent(env, evs, c);
    }
    CurrentCommitsChain(env, evs);
  }

  lemma SerialIsCurrent(env: Env, evs: seq<Event>, c: nat)
    requires NoOverlap(evs) && HeadsAnswered(evs) && c < |evs|
    ensures !OutdatedAt(env, evs, c)
  {
    hide SysAt, LastHeadRead;
    if OutdatedAt(env, evs, c) {
      var h := LastHeadRead(env, evs, c, Pid(evs[c]).value).value;
      var k :| h < k < c && CommitsAt(env, evs, k) && Pid(evs[k]) != Pid(evs[c]);
      CommitAppends(env, evs, k);
    }
  }
}
