/** Histories in which every commit follows the last entry and takes the next numbers. */
module Linear {
  import opened Posting
  import opened HashChain
  import opened Ledger
  import opened Invariant
  import opened Database
  import opened Protocol
  import opened Interleavings

  ghost predicate LinearAt(env: Env, history: seq<Commit>, k: nat)
    requires k < |history|
  {
    var log := Log(env, history[..k]);
    history[k].b.prev == Head(log) && history[k].b.sequence == |log|
  }

  ghost predicate LinearHistory(env: Env, history: seq<Commit>) {
    forall k :: 0 <= k < |history| ==> LinearAt(env, history, k)
  }

  lemma {:induction false} LinearNumbered(env: Env, history: seq<Commit>)
    requires LinearHistory(env, history)
    ensures Numbered(Log(env, history))
  {
    hide Link, Head, Numbered;
    if history == [] {
      NothingNumbered();
    } else {
      var n := |history| - 1;
      LinearPrefix(env, history, n);
      LinearNumbered(env, history[..n]);
      assert LinearAt(env, history, n);
      RecordNumbers(env, Log(env, history[..n]), history[n].b);
    }
  }

  lemma NothingNumbered()
    ensures Numbered([])
  {
  }

  lemma LinearPrefix(env: Env, history: seq<Commit>, n: nat)
    requires LinearHistory(env, history) && n <= |history|
    ensures LinearHistory(env, history[..n])
  {
    hide Log, Head;
    forall k | 0 <= k < n ensures LinearAt(env, history[..n], k) {
      assert LinearAt(env, history, k);
      assert history[..n][..k] == history[..k];
    }
  }

  lemma LinearExtends(env: Env, history: seq<Commit>, c: Commit)
    requires LinearHistory(env, history)
    requires c.b.prev == Head(Log(env, history)) && c.b.sequence == |Log(env, history)|
    ensures LinearHistory(env, history + [c])
  {
    hide Log, Head;
    var longer := history + [c];
    forall k | 0 <= k < |longer| ensures LinearAt(env, longer, k) {
      assert longer[..k] == history[..k];
      assert history[..|history|] == history;
      assert k < |history| ==> LinearAt(env, history, k);
    }
  }

  lemma LinearUpToDate(env: Env, history: seq<Commit>)
    requires LinearHistory(env, history)
    ensures AllUpToDate(env, history)
  {
    hide Log, Head;
    forall k | 0 <= k < |history| ensures UpToDate(env, history, k) {
      assert LinearAt(env, history, k);
    }
  }

  lemma {:induction false} MaxOfNumbered(log: seq<EntryRecord>)
    requires Numbered(log)
    ensures MaxSequence(log) == |log|
  {
    if log != [] {
      MaxOfNumbered(log[..|log| - 1]);
    }
  }

  lemma LatestOfNumbered(log: seq<EntryRecord>, i: nat)
    requires Numbered(log) && IsLatest(log, i)
    ensures i == |log| - 1 && log[i].thisHash == Head(log)
  {
    assert log[|log| - 1].sequenceNumber <= log[i].sequenceNumber;
  }

  /** Such a history leaves a log that verifies and is numbered without gaps. */
  lemma LinearChain(env: Env, history: seq<Commit>)
    requires HistoryOk(env, history) && LinearHistory(env, history)
    ensures Chained(env, Log(env, history)) && Numbered(Log(env, history))
  {
    hide HistoryOk, LinearHistory, Numbered, Chained, Log, AllUpToDate;
    LinearNumbered(env, history);
    LinearUpToDate(env, history);
    LinearExactly(env, history);
  }
}
