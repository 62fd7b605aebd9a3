/** The hash chain over the entry log: the verifier and what a verified log proves. */
module HashChain {
  import opened Text
  import opened Posting

  datatype Reason =
    | InvalidDirection(other: string)
    | PrevMismatch(expected: string, got: string)
    | ThisMismatch(expected: string, got: string)

  datatype ChainBreak = ChainBreak(entryId: string, reason: Reason)

  function FieldsAfter(prev: string, e: EntryRecord): Fields
    requires ParseDirection(e.direction).Some?
  {
    Fields(prev, e.entryId, e.accountId, ParseDirection(e.direction).value, e.amount, e.asset, e.createdAt)
  }

  /** The text whose hash entry `e` must carry when it follows `prev`. */
  function Preimage(salt: string, prev: string, e: EntryRecord): string
    requires ParseDirection(e.direction).Some?
  {
    prev + salt + Canonical(FieldsAfter(prev, e))
  }

  predicate LinkOk(env: Env, prev: string, e: EntryRecord) {
    && ParseDirection(e.direction).Some?
    && e.prevHash == prev
    && e.thisHash == env.hash(Preimage(env.salt, prev, e))
  }

  function HeadFrom(start: string, log: seq<EntryRecord>): string {
    if log == [] then start else log[|log| - 1].thisHash
  }

  function Head(log: seq<EntryRecord>): string {
    HeadFrom(Genesis(), log)
  }

  function Before(start: string, log: seq<EntryRecord>, i: nat): string
    requires i <= |log|
  {
    if i == 0 then start else log[i - 1].thisHash
  }

  predicate LinkAt(env: Env, start: string, log: seq<EntryRecord>, i: nat)
    requires i < |log|
  {
    LinkOk(env, Before(start, log, i), log[i])
  }

  ghost predicate ChainedFrom(env: Env, start: string, log: seq<EntryRecord>) {
    forall i :: 0 <= i < |log| ==> LinkAt(env, start, log, i)
  }

  ghost predicate Chained(env: Env, log: seq<EntryRecord>) {
    ChainedFrom(env, Genesis(), log)
  }

  /** A link written out: the direction is known, the entry names the hash before it, 64 zeros for
      the first, and its own hash is that of the hash before, the salt and the seven fields. */
  lemma LinkSpelledOut(env: Env, log: seq<EntryRecord>, i: nat)
    requires i < |log|
    ensures var e, prev := log[i], if i == 0 then Genesis() else log[i - 1].thisHash;
      LinkAt(env, Genesis(), log, i) <==>
        && (e.direction == "DEBIT" || e.direction == "CREDIT")
        && e.prevHash == prev
        && e.thisHash == env.hash(prev + env.salt + (prev + "|" + e.entryId + "|" + e.accountId + "|" + e.direction
             + "|" + Decimal(e.amount) + "|" + e.asset + "|" + e.createdAt))
  {
    hide Canonical, Genesis, IsHash;
    var e, prev := log[i], Before(Genesis(), log, i);
    if ParseDirection(e.direction).Some? {
      PreimageText(env.salt, prev, e);
    }
  }

  lemma PreimageText(salt: string, prev: string, e: EntryRecord)
    requires ParseDirection(e.direction).Some?
    ensures Preimage(salt, prev, e)
         == prev + salt + (prev + "|" + e.entryId + "|" + e.accountId + "|" + e.direction + "|" + Decimal(e.amount)
            + "|" + e.asset + "|" + e.createdAt)
  {
    hide Canonical, Decimal;
    CanonicalText(FieldsAfter(prev, e));
  }

  lemma ExpectedHash(env: Env, prev: string, e: EntryRecord, dir: Direction)
    requires ParseDirection(e.direction) == Some(dir)
    ensures ComputeHash(env, prev, Canonical(Fields(prev, e.entryId, e.accountId, dir, e.amount, e.asset, e.createdAt)))
         == env.hash(prev + env.salt + (prev + "|" + e.entryId + "|" + e.accountId + "|" + e.direction + "|"
            + Decimal(e.amount) + "|" + e.asset + "|" + e.createdAt))
         == env.hash(Preimage(env.salt, prev, e))
  {
    hide Canonical, Decimal, IsHash;
    CanonicalText(FieldsAfter(prev, e));
  }

  ghost predicate FirstBreak(env: Env, log: seq<EntryRecord>, i: int) {
    && 0 <= i < |log|
    && !LinkAt(env, Genesis(), log, i)
    && ChainedFrom(env, Genesis(), log[..i])
  }

  /** One more link decides whether the chain extends or breaks here. */
  lemma ChainStep(env: Env, log: seq<EntryRecord>, i: nat)
    requires i < |log| && ChainedFrom(env, Genesis(), log[..i])
    ensures LinkAt(env, Genesis(), log, i) ==> ChainedFrom(env, Genesis(), log[..i + 1])
    ensures !LinkAt(env, Genesis(), log, i) ==> FirstBreak(env, log, i) && !Chained(env, log)
  {
    hide LinkOk;
    var shorter, longer := log[..i], log[..i + 1];
    if LinkAt(env, Genesis(), log, i) {
      forall k | 0 <= k < i + 1 ensures LinkAt(env, Genesis(), longer, k) {
        assert k < i ==> LinkAt(env, Genesis(), shorter, k);
      }
    }
  }

  lemma FirstBefore(log: seq<EntryRecord>)
    ensures Before(Genesis(), log, 0) == Genesis()
  {
  }

  lemma NextBefore(log: seq<EntryRecord>, i: nat)
    requires i < |log|
    ensures Before(Genesis(), log, i + 1) == log[i].thisHash
  {
  }

  /** What the verifier compares decides the link. */
  lemma LinkDecided(env: Env, log: seq<EntryRecord>, i: nat)
    requires i < |log|
    ensures var e, prev := log[i], Before(Genesis(), log, i);
      && prev == (if i == 0 then Genesis() else log[i - 1].thisHash)
      && (ParseDirection(e.direction).None? <==> e.direction != "DEBIT" && e.direction != "CREDIT")
      && (LinkAt(env, Genesis(), log, i) <==>
           && ParseDirection(e.direction).Some? && e.prevHash == prev
           && e.thisHash == env.hash(Preimage(env.salt, prev, e)))
  {
    hide Canonical, Genesis, IsHash, Preimage;
  }

  lemma EmptyChain(env: Env)
    ensures ChainedFrom(env, Genesis(), [])
  {
  }

  /** The chain verifier: accepts exactly the chained logs, and otherwise names the entry of the
      first bad link and says what is wrong with it: an unknown direction, else the hash before it,
      else its own hash. */
  method VerifyChain(env: Env, log: seq<EntryRecord>) returns (r: Option<ChainBreak>)
    ensures r.None? <==> Chained(env, log)
    ensures r.Some? ==> exists i ::
      && FirstBreak(env, log, i)
      && var e, prev, reason := log[i], if i == 0 then Genesis() else log[i - 1].thisHash, r.value.reason;
        && r.value.entryId == e.entryId
        && (reason.InvalidDirection? <==> e.direction != "DEBIT" && e.direction != "CREDIT")
        && (reason.InvalidDirection? ==> reason.other == e.direction)
        && (reason.PrevMismatch? <==> (e.direction == "DEBIT" || e.direction == "CREDIT") && e.prevHash != prev)
        && (reason.PrevMismatch? ==> reason.expected == prev && reason.got == e.prevHash)
        && (reason.ThisMismatch? ==>
              && reason.expected == env.hash(prev + env.salt + (prev + "|" + e.entryId + "|" + e.accountId + "|"
                   + e.direction + "|" + Decimal(e.amount) + "|" + e.asset + "|" + e.createdAt))
              && reason.got == e.thisHash)
  {
    hide Canonical, Genesis, IsHash, Decimal, ComputeHash, Preimage, FieldsAfter, ChainedFrom, Head, LinkAt, LinkOk,
      ParseDirection, Before, FirstBreak;
    EmptyChain(env);
    var prevHash := Genesis();
    FirstBefore(log);
    for i := 0 to |log|
      invariant prevHash == Before(Genesis(), log, i)
      invariant ChainedFrom(env, Genesis(), log[..i])
    {
      ChainStep(env, log, i);
      LinkDecided(env, log, i);
      var e := log[i];
      var dir := ParseDirection(e.direction);
      if dir.None? {
        return Some(ChainBreak(e.entryId, InvalidDirection(e.direction)));
      }
      ExpectedHash(env, prevHash, e, dir.value);
      var canonical := Canonical(Fields(prevHash, e.entryId, e.accountId, dir.value, e.amount, e.asset, e.createdAt));
      var expected := ComputeHash(env, prevHash, canonical);
      if e.prevHash != prevHash {
        return Some(ChainBreak(e.entryId, PrevMismatch(prevHash, e.prevHash)));
      }
      if e.thisHash != expected {
        return Some(ChainBreak(e.entryId, ThisMismatch(expected, e.thisHash)));
      }
      prevHash := e.thisHash;
      NextBefore(log, i);
    }
    assert log[..|log|] == log;
    return None;
  }

  /** A link of a concatenation is a link of the part it falls in. */
  lemma LinkInConcat(env: Env, start: string, a: seq<EntryRecord>, b: seq<EntryRecord>, i: nat)
    requires i < |a| + |b|
    ensures LinkAt(env, start, a + b, i) <==>
      if i < |a| then LinkAt(env, start, a, i) else LinkAt(env, HeadFrom(start, a), b, i - |a|)
  {
    hide LinkOk;
  }

  /** Verification composes over concatenation. */
  lemma ChainConcat(env: Env, start: string, a: seq<EntryRecord>, b: seq<EntryRecord>)
    ensures ChainedFrom(env, start, a + b) <==>
            ChainedFrom(env, start, a) && ChainedFrom(env, HeadFrom(start, a), b)
  {
    hide LinkAt, HeadFrom;
    var c := a + b;
    if ChainedFrom(env, start, c) {
      forall i | 0 <= i < |a| ensures LinkAt(env, start, a, i) {
        LinkInConcat(env, start, a, b, i);
      }
      forall i | 0 <= i < |b| ensures LinkAt(env, HeadFrom(start, a), b, i) {
        LinkInConcat(env, start, a, b, |a| + i);
      }
    }
    if ChainedFrom(env, start, a) && ChainedFrom(env, HeadFrom(start, a), b) {
      forall i | 0 <= i < |c| ensures LinkAt(env, start, c, i) {
        LinkInConcat(env, start, a, b, i);
      }
    }
  }

  // ---------- Tamper evidence ----------

  predicate PipeFreeEntry(e: EntryRecord) {
    '|' !in e.entryId && '|' !in e.asset && '|' !in e.createdAt
  }

  predicate PipeFreeLog(log: seq<EntryRecord>) {
    forall e :: e in log ==> PipeFreeEntry(e)
  }

  /** Equal in every field the hash covers; posting id and sequence number are not covered. */
  predicate SameContent(a: EntryRecord, b: EntryRecord) {
    a.(postingId := b.postingId, sequenceNumber := b.sequenceNumber) == b
  }

  predicate SameLog(a: seq<EntryRecord>, b: seq<EntryRecord>) {
    |a| == |b| && forall i :: 0 <= i < |a| ==> SameContent(a[i], b[i])
  }

  datatype Verdict = Agree | Collision(x: string, y: string) | GenesisPreimage(x: string)

  ghost predicate Genuine(env: Env, v: Verdict) {
    match v
    case Agree => true
    case Collision(x, y) => x != y && env.hash(x) == env.hash(y)
    case GenesisPreimage(x) => env.hash(x) == Genesis()
  }

  function LastPreimage(env: Env, log: seq<EntryRecord>): string
    requires log != [] && ParseDirection(log[|log| - 1].direction).Some?
  {
    Preimage(env.salt, Before(Genesis(), log, |log| - 1), log[|log| - 1])
  }

  lemma InitChained(env: Env, log: seq<EntryRecord>)
    requires Chained(env, log)
    ensures log != [] ==> LinkAt(env, Genesis(), log, |log| - 1) && Chained(env, log[..|log| - 1])
  {
    hide LinkOk;
    if log != [] {
      assert log == log[..|log| - 1] + [log[|log| - 1]];
      ChainConcat(env, Genesis(), log[..|log| - 1], [log[|log| - 1]]);
    }
  }

  /** Walks two chained logs back from their ends and returns the first hash defect it needs. */
  ghost function Compare(env: Env, a: seq<EntryRecord>, b: seq<EntryRecord>): Verdict
    requires Chained(env, a) && Chained(env, b)
  {
    InitChained(env, a);
    InitChained(env, b);
    if a == [] && b == [] then Agree
    else if a == [] then GenesisPreimage(LastPreimage(env, b))
    else if b == [] then GenesisPreimage(LastPreimage(env, a))
    else if LastPreimage(env, a) != LastPreimage(env, b) then
      Collision(LastPreimage(env, a), LastPreimage(env, b))
    else
      Compare(env, a[..|a| - 1], b[..|b| - 1])
  }

  lemma BeforeIsHash(env: Env, log: seq<EntryRecord>, i: nat)
    requires Chained(env, log) && i <= |log|
    ensures IsHash(Before(Genesis(), log, i))
  {
    if i > 0 {
      assert LinkAt(env, Genesis(), log, i - 1);
    }
  }

  /** Equal preimages: the hashes before the entries are equal, and so are the encodings. */
  lemma SamePreimage(salt: string, p: string, q: string, a: EntryRecord, b: EntryRecord)
    requires ParseDirection(a.direction).Some? && ParseDirection(b.direction).Some?
    requires IsHash(p) && IsHash(q) && Preimage(salt, p, a) == Preimage(salt, q, b)
    ensures p == q && Canonical(FieldsAfter(p, a)) == Canonical(FieldsAfter(q, b))
  {
    hide Canonical;
    ConcatPrefix(p, q, salt, Canonical(FieldsAfter(p, a)), Canonical(FieldsAfter(q, b)));
  }

  lemma LastHash(env: Env, log: seq<EntryRecord>)
    requires Chained(env, log) && log != []
    ensures ParseDirection(log[|log| - 1].direction).Some?
    ensures Head(log) == env.hash(LastPreimage(env, log))
    ensures log[|log| - 1].thisHash == Head(log) && log[|log| - 1].prevHash == Head(log[..|log| - 1])
    ensures Before(Genesis(), log, |log| - 1) == Head(log[..|log| - 1])
  {
    hide Canonical;
    assert LinkAt(env, Genesis(), log, |log| - 1);
  }

  /** The same text was hashed for both entries, after the same hash. */
  predicate SameText(a: EntryRecord, b: EntryRecord) {
    && ParseDirection(a.direction).Some? && ParseDirection(b.direction).Some?
    && a.prevHash == b.prevHash && a.thisHash == b.thisHash
    && Canonical(FieldsAfter(a.prevHash, a)) == Canonical(FieldsAfter(b.prevHash, b))
  }

  predicate SameTexts(a: seq<EntryRecord>, b: seq<EntryRecord>) {
    |a| == |b| && forall i :: 0 <= i < |a| ==> SameText(a[i], b[i])
  }

  lemma SameTextsSnoc(a: seq<EntryRecord>, b: seq<EntryRecord>)
    requires a != [] && b != [] && SameText(a[|a| - 1], b[|b| - 1])
    ensures SameTexts(a[..|a| - 1], b[..|b| - 1]) ==> SameTexts(a, b)
  {
    hide SameText;
    var m, n := |a| - 1, |b| - 1;
    if SameTexts(a[..m], b[..n]) {
      forall i | 0 <= i < |a| ensures SameText(a[i], b[i]) {
        assert i < m ==> SameText(a[..m][i], b[..n][i]);
      }
    }
  }

  /** Equal preimages at the end: the last texts agree, and so do the heads before them. */
  lemma LastAgree(env: Env, a: seq<EntryRecord>, b: seq<EntryRecord>)
    requires Chained(env, a) && Chained(env, b) && a != [] && b != [] && Head(a) == Head(b)
    requires ParseDirection(a[|a| - 1].direction).Some? && ParseDirection(b[|b| - 1].direction).Some?
    requires LastPreimage(env, a) == LastPreimage(env, b)
    ensures SameText(a[|a| - 1], b[|b| - 1])
    ensures Head(a[..|a| - 1]) == Head(b[..|b| - 1])
    ensures SameTexts(a[..|a| - 1], b[..|b| - 1]) ==> SameTexts(a, b)
  {
    hide Canonical, Preimage, ChainedFrom, IsHash, SameTexts, Head;
    var m, n := |a| - 1, |b| - 1;
    LastHash(env, a);
    LastHash(env, b);
    BeforeIsHash(env, a, m);
    BeforeIsHash(env, b, n);
    SamePreimage(env.salt, Before(Genesis(), a, m), Before(Genesis(), b, n), a[m], b[n]);
    SameTextsSnoc(a, b);
  }

  /** Two verified logs with the same head were hashed from the same texts, entry by entry, or the
      walk above has found a hash collision or a preimage of the genesis hash. */
  lemma {:induction false} SameHeadSameTexts(env: Env, a: seq<EntryRecord>, b: seq<EntryRecord>)
    requires Chained(env, a) && Chained(env, b) && Head(a) == Head(b)
    ensures Genuine(env, Compare(env, a, b))
    ensures Compare(env, a, b).Agree? ==> SameTexts(a, b)
  {
    hide Chained, LastPreimage, SameText;
    if a != [] { LastHash(env, a); InitChained(env, a); }
    if b != [] { LastHash(env, b); InitChained(env, b); }
    if a != [] && b != [] && LastPreimage(env, a) == LastPreimage(env, b) {
      LastAgree(env, a, b);
      SameHeadSameTexts(env, a[..|a| - 1], b[..|b| - 1]);
    }
  }

  // ---------- From texts to fields ----------

  /** No separator in any text field, the account id included. */
  predicate PlainEntry(e: EntryRecord) {
    PipeFreeEntry(e) && '|' !in e.accountId
  }

  predicate PlainLog(log: seq<EntryRecord>) {
    forall i :: 0 <= i < |log| ==> PlainEntry(log[i])
  }

  lemma SameTextSameContent(a: EntryRecord, b: EntryRecord)
    requires SameText(a, b) && IsHash(a.prevHash)
    requires PlainEntry(a) || (PipeFreeEntry(a) && PipeFreeEntry(b))
    ensures SameContent(a, b)
  {
    hide Canonical;
    var f, g := FieldsAfter(a.prevHash, a), FieldsAfter(b.prevHash, b);
    if PlainEntry(a) {
      PlainUnique(f, g);
    } else {
      CanonicalInjective(f, g);
    }
  }

  lemma ChainedPrevHash(env: Env, log: seq<EntryRecord>, i: nat)
    requires Chained(env, log) && i < |log|
    ensures IsHash(log[i].prevHash) && log[i].prevHash == Before(Genesis(), log, i)
    ensures ParseDirection(log[i].direction).Some?
  {
    assert LinkAt(env, Genesis(), log, i);
    BeforeIsHash(env, log, i);
  }

  /** Two verified logs with the same head agree in everything hashed, or the walk has found a hash
      collision or a preimage of the genesis hash. It is enough that one of them, say the one that
      was kept, holds no separator; or that neither holds one outside its account ids. */
  lemma TamperEvident(env: Env, a: seq<EntryRecord>, b: seq<EntryRecord>)
    requires Chained(env, a) && Chained(env, b) && Head(a) == Head(b)
    requires PlainLog(a) || (PipeFreeLog(a) && PipeFreeLog(b))
    ensures Genuine(env, Compare(env, a, b))
    ensures Compare(env, a, b).Agree? ==> SameLog(a, b)
  {
    hide Chained, Compare, SameText, Head, SameContent, IsHash, PipeFreeEntry;
    SameHeadSameTexts(env, a, b);
    if Compare(env, a, b).Agree? {
      forall i | 0 <= i < |a| ensures SameContent(a[i], b[i]) {
        ChainedPrevHash(env, a, i);
        assert SameText(a[i], b[i]) && a[i] in a && b[i] in b;
        SameTextSameContent(a[i], b[i]);
      }
    }
  }

  // ---------- Rewriting that goes unnoticed ----------

  /** The entry with text moved across a separator. */
  function RespellEntry(e: EntryRecord): EntryRecord
    requires ParseDirection(e.direction).Some? && !PlainEntry(e)
  {
    var g := Respell(FieldsAfter(e.prevHash, e));
    e.(entryId := g.entryId, accountId := g.accountId, asset := g.asset, createdAt := g.createdAt)
  }

  lemma RespelledSameText(e: EntryRecord)
    requires ParseDirection(e.direction).Some? && !PlainEntry(e)
    ensures SameText(e, RespellEntry(e)) && !SameContent(e, RespellEntry(e))
  {
    hide Canonical, Respell;
    RespellShares(FieldsAfter(e.prevHash, e));
  }

  /** The verifier sees nothing of an entry but the hashed text and the two hashes. */
  lemma SameTextsSameVerdict(env: Env, a: seq<EntryRecord>, b: seq<EntryRecord>)
    requires SameTexts(a, b) && Chained(env, a)
    ensures Chained(env, b) && Head(b) == Head(a)
  {
    hide Canonical;
    forall i | 0 <= i < |b| ensures LinkAt(env, Genesis(), b, i) {
      assert LinkAt(env, Genesis(), a, i) && SameText(a[i], b[i]);
      if i > 0 { assert SameText(a[i - 1], b[i - 1]); }
    }
    if a != [] { assert SameText(a[|a| - 1], b[|b| - 1]); }
  }

  lemma {:induction false} SameTextsAgree(env: Env, a: seq<EntryRecord>, b: seq<EntryRecord>)
    requires Chained(env, a) && Chained(env, b) && SameTexts(a, b)
    ensures Compare(env, a, b).Agree?
  {
    hide Chained, SameText, LastPreimage, Preimage, IsHash, ParseDirection, LinkAt;
    if a != [] {
      InitChained(env, a);
      InitChained(env, b);
      SameLastPreimage(env, a, b);
      SameTextsAgree(env, a[..|a| - 1], b[..|b| - 1]);
    }
  }

  lemma SameLastPreimage(env: Env, a: seq<EntryRecord>, b: seq<EntryRecord>)
    requires Chained(env, a) && Chained(env, b) && SameTexts(a, b) && a != []
    ensures ParseDirection(a[|a| - 1].direction).Some? && ParseDirection(b[|b| - 1].direction).Some?
    ensures LastPreimage(env, a) == LastPreimage(env, b)
  {
    hide Chained, Canonical, FieldsAfter, IsHash, Before, Genesis;
    assert SameText(a[|a| - 1], b[|b| - 1]);
    ChainedPrevHash(env, a, |a| - 1);
    ChainedPrevHash(env, b, |b| - 1);
  }

  /** An entry that holds a separator can be rewritten, for instance moved to another account,
      and the log still verifies with the same head. */
  lemma RewritingUnnoticed(env: Env, log: seq<EntryRecord>, i: nat)
    requires Chained(env, log) && i < |log| && !PlainEntry(log[i])
    ensures ParseDirection(log[i].direction).Some?
    ensures var other := log[i := RespellEntry(log[i])];
      Chained(env, other) && Head(other) == Head(log) && Compare(env, log, other).Agree? && !SameLog(log, other)
  {
    hide Chained, SameText, SameContent, RespellEntry, Head, Compare;
    ChainedPrevHash(env, log, i);
    var other := log[i := RespellEntry(log[i])];
    forall k | 0 <= k < |log| ensures SameText(log[k], other[k]) {
      ChainedPrevHash(env, log, k);
      RespelledSameText(log[i]);
      SameTextAsItself(log[k]);
    }
    SameTextsSameVerdict(env, log, other);
    SameTextsAgree(env, log, other);
    RespelledSameText(log[i]);
    assert !SameContent(log[i], other[i]);
  }

  lemma SameTextAsItself(e: EntryRecord)
    requires ParseDirection(e.direction).Some?
    ensures SameText(e, e)
  {
    hide Canonical;
  }

  /** A head is evidence of the whole log, short of a hash defect, exactly when the log holds no
      separator in an entry id, account id, asset or timestamp. */
  lemma TamperEvidentExactly(env: Env, log: seq<EntryRecord>)
    requires Chained(env, log)
    ensures (forall other :: Chained(env, other) && Head(other) == Head(log) && Compare(env, log, other).Agree? ==>
               SameLog(log, other))
       <==> PlainLog(log)
  {
    hide Chained, Head, Compare, SameLog, PlainEntry, RespellEntry;
    if PlainLog(log) {
      forall other | Chained(env, other) && Head(other) == Head(log) && Compare(env, log, other).Agree?
        ensures SameLog(log, other)
      {
        TamperEvident(env, log, other);
      }
    } else {
      var i :| 0 <= i < |log| && !PlainEntry(log[i]);
      RewritingUnnoticed(env, log, i);
      var other := log[i := RespellEntry(log[i])];
      assert Chained(env, other) && Head(other) == Head(log) && Compare(env, log, other).Agree?;
    }
  }

  /** The limit of the evidence: posting ids and sequence numbers can be rewritten freely. */
  lemma UncoveredFields(env: Env, a: seq<EntryRecord>, b: seq<EntryRecord>)
    requires SameLog(a, b)
    ensures Chained(env, a) <==> Chained(env, b)
  {
    forall i | 0 <= i < |a|
      ensures LinkAt(env, Genesis(), a, i) <==> LinkAt(env, Genesis(), b, i)
    {
      assert SameContent(a[i], b[i]);
      if i > 0 { assert SameContent(a[i - 1], b[i - 1]); }
    }
  }

  /** A non-empty log verified under two different salts exhibits a collision at every entry. */
  lemma SaltMatters(env: Env, salt: string, log: seq<EntryRecord>, i: nat)
    requires Chained(env, log) && salt != env.salt && i < |log|
    requires Chained(env.(salt := salt), log)
    ensures var p := Before(Genesis(), log, i);
            ParseDirection(log[i].direction).Some?
            && Genuine(env, Collision(Preimage(env.salt, p, log[i]), Preimage(salt, p, log[i])))
  {
    var p, e := Before(Genesis(), log, i), log[i];
    assert LinkAt(env, Genesis(), log, i) && LinkAt(env.(salt := salt), Genesis(), log, i);
    var c := Canonical(FieldsAfter(p, e));
    var x, y := p + env.salt + c, p + salt + c;
    if x == y {
      ConcatCancel(p, env.salt, salt, c);
    }
  }
}
