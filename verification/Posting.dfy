/** Posting and entry records, the canonical encoding of an entry and its hash. */
module Posting {
  import opened Text

  datatype Direction = Debit | Credit

  function DirText(d: Direction): string {
    match d
    case Debit => "DEBIT"
    case Credit => "CREDIT"
  }

  function ParseDirection(s: string): (r: Option<Direction>)
    ensures r.Some? ==> DirText(r.value) == s
    ensures r.None? ==> forall d: Direction :: DirText(d) != s
  {
    if s == "DEBIT" then Some(Debit)
    else if s == "CREDIT" then Some(Credit)
    else None
  }

  function Opposite(d: Direction): Direction {
    if d.Debit? then Credit else Debit
  }

  datatype EntryInput = EntryInput(accountId: string, direction: string, amount: nat, asset: string)

  datatype PostingRequest = PostingRequest(
    postingId: string, entries: seq<EntryInput>, memo: Option<string>, refTxId: Option<string>)

  datatype PostingResponse = PostingResponse(
    postingId: string, status: string, entryIds: seq<string>, hashHead: string)

  datatype EntryRecord = EntryRecord(
    entryId: string, postingId: string, accountId: string, direction: string, amount: nat,
    asset: string, sequenceNumber: nat, prevHash: string, thisHash: string, createdAt: string)

  datatype PostingRecord = PostingRecord(
    postingId: string, refTxId: Option<string>, memo: Option<string>, status: string,
    hashHead: string, entries: seq<EntryRecord>, createdAt: string)

  // ---------- Canonical encoding ----------

  /** The seven fields that are hashed, in the order they are written. */
  datatype Fields = Fields(
    prevHash: string, entryId: string, accountId: string, direction: Direction,
    amount: nat, asset: string, createdAt: string)

  function Canonical(f: Fields): string {
    Join(Join(Join(Join(Names(f), '|', DirText(f.direction)), '|', Decimal(f.amount)), '|', f.asset), '|', f.createdAt)
  }

  /** The part before the direction: the hash before it, the entry id and the account id. */
  function Names(f: Fields): string {
    Join(Join(f.prevHash, '|', f.entryId), '|', f.accountId)
  }

  /** The encoding written out: seven fields with a bar between each two. */
  lemma CanonicalText(f: Fields)
    ensures Canonical(f) == f.prevHash + "|" + f.entryId + "|" + f.accountId + "|"
      + (if f.direction.Debit? then "DEBIT" else "CREDIT") + "|" + Decimal(f.amount) + "|" + f.asset + "|" + f.createdAt
  {
    hide Decimal;
  }

  /** No separator in any free-text field, except possibly in the account id. */
  predicate PipeFree(f: Fields) {
    '|' !in f.prevHash && '|' !in f.entryId && '|' !in f.asset && '|' !in f.createdAt
  }

  /** The text before the last four separators, and the four pieces between and after them. */
  function DecodeTail(x: string): (r: Option<(string, string, string, string, string)>)
    ensures r.Some? ==> var (front, d, n, a, t) := r.value;
      x == Join(Join(Join(Join(front, '|', d), '|', n), '|', a), '|', t) && '|' !in a && '|' !in t
  {
    match SplitLast(x, '|')
    case None => None
    case Some((x5, createdAt)) =>
    match SplitLast(x5, '|')
    case None => None
    case Some((x4, asset)) =>
    match SplitLast(x4, '|')
    case None => None
    case Some((x3, amount)) =>
    match SplitLast(x3, '|')
    case None => None
    case Some((front, direction)) => Some((front, direction, amount, asset, createdAt))
  }

  /** The pieces before, between and after the first two separators. */
  function DecodeNames(x: string): (r: Option<(string, string, string)>)
    ensures r.Some? ==> var (p, e, a) := r.value;
      x == Join(p, '|', Join(e, '|', a)) && '|' !in p && '|' !in e
  {
    match SplitFirst(x, '|')
    case None => None
    case Some((prevHash, rest)) =>
    match SplitFirst(rest, '|')
    case None => None
    case Some((entryId, accountId)) => Some((prevHash, entryId, accountId))
  }

  /** Reads the fields back: the last four separators, then the first two; the
      account id is what remains between them. */
  function Decode(x: string): Option<Fields> {
    match DecodeTail(x)
    case None => None
    case Some((front, direction, amount, asset, createdAt)) =>
    match DecodeNames(front)
    case None => None
    case Some((prevHash, entryId, accountId)) =>
      if ParseDirection(direction).None? || Decimal(ParseDecimal(amount)) != amount then None
      else Some(Fields(prevHash, entryId, accountId, ParseDirection(direction).value,
                       ParseDecimal(amount), asset, createdAt))
  }

  lemma DecodeTailUnique(x: string, d: string, n: string, a: string, t: string)
    requires '|' !in d && '|' !in n && '|' !in a && '|' !in t
    ensures DecodeTail(Join(Join(Join(Join(x, '|', d), '|', n), '|', a), '|', t)) == Some((x, d, n, a, t))
  {
    SplitLastUnique(Join(Join(Join(x, '|', d), '|', n), '|', a), t, '|');
    SplitLastUnique(Join(Join(x, '|', d), '|', n), a, '|');
    SplitLastUnique(Join(x, '|', d), n, '|');
    SplitLastUnique(x, d, '|');
  }

  lemma DecodeNamesUnique(p: string, e: string, a: string)
    requires '|' !in p && '|' !in e
    ensures DecodeNames(Join(Join(p, '|', e), '|', a)) == Some((p, e, a))
  {
    JoinAssociative(p, e, a, '|');
    SplitFirstUnique(p, Join(e, '|', a), '|');
    SplitFirstUnique(e, a, '|');
  }

  lemma DecodeCanonical(f: Fields)
    requires PipeFree(f)
    ensures Decode(Canonical(f)) == Some(f)
  {
    hide Join;
    DecodeTailUnique(Names(f), DirText(f.direction), Decimal(f.amount), f.asset, f.createdAt);
    DecodeNamesUnique(f.prevHash, f.entryId, f.accountId);
  }

  /** The decoder accepts exactly the encodings of separator-free fields, and inverts them. */
  lemma DecodeExact(x: string, f: Fields)
    ensures Decode(x) == Some(f) <==> PipeFree(f) && x == Canonical(f)
  {
    if PipeFree(f) && x == Canonical(f) {
      DecodeCanonical(f);
    }
    JoinAssociative(f.prevHash, f.entryId, f.accountId, '|');
  }

  lemma CanonicalInjective(f: Fields, g: Fields)
    requires PipeFree(f) && PipeFree(g) && Canonical(f) == Canonical(g)
    ensures f == g
  {
    DecodeCanonical(f);
    DecodeCanonical(g);
  }

  // ---------- When an encoding is shared ----------

  function Pipes(s: string): nat {
    if s == "" then 0 else Pipes(s[..|s| - 1]) + (if s[|s| - 1] == '|' then 1 else 0)
  }

  lemma {:induction false} PipesConcat(a: string, b: string)
    ensures Pipes(a + b) == Pipes(a) + Pipes(b)
  {
    if b == "" {
      assert a + b == a;
    } else {
      var front := b[..|b| - 1];
      assert (a + b)[..|a + b| - 1] == a + front;
      PipesConcat(a, front);
    }
  }

  lemma PipesJoin(a: string, b: string)
    ensures Pipes(Join(a, '|', b)) == Pipes(a) + 1 + Pipes(b)
  {
    PipesConcat(a, "|");
    PipesConcat(a + "|", b);
  }

  lemma {:induction false} NoPipes(s: string)
    ensures Pipes(s) == 0 <==> '|' !in s
  {
    if s != "" {
      NoPipes(s[..|s| - 1]);
      assert s == s[..|s| - 1] + [s[|s| - 1]];
    }
  }

  /** No separator in any text field, the account id included. */
  predicate PlainFields(f: Fields) {
    PipeFree(f) && '|' !in f.accountId
  }

  function FieldPipes(f: Fields): nat {
    Pipes(f.prevHash) + Pipes(f.entryId) + Pipes(f.accountId) + Pipes(f.asset) + Pipes(f.createdAt)
  }

  lemma PlainIsPipeless(f: Fields)
    ensures FieldPipes(f) == 0 <==> PlainFields(f)
  {
    NoPipes(f.prevHash);
    NoPipes(f.entryId);
    NoPipes(f.accountId);
    NoPipes(f.asset);
    NoPipes(f.createdAt);
  }

  lemma CanonicalPipes(f: Fields)
    ensures Pipes(Canonical(f)) == FieldPipes(f) + 6
  {
    hide Join, Pipes;
    var names := Names(f);
    var x := Join(names, '|', DirText(f.direction));
    var y := Join(x, '|', Decimal(f.amount));
    var z := Join(y, '|', f.asset);
    PipesJoin(f.prevHash, f.entryId);
    PipesJoin(Join(f.prevHash, '|', f.entryId), f.accountId);
    PipesJoin(names, DirText(f.direction));
    PipesJoin(x, Decimal(f.amount));
    PipesJoin(y, f.asset);
    PipesJoin(z, f.createdAt);
    NoPipes(DirText(f.direction));
    NoPipes(Decimal(f.amount));
  }

  /** Fields without separators share their encoding with no others, whatever those hold. */
  lemma PlainUnique(f: Fields, g: Fields)
    requires PlainFields(f) && Canonical(f) == Canonical(g)
    ensures f == g
  {
    hide Canonical;
    CanonicalPipes(f);
    CanonicalPipes(g);
    PlainIsPipeless(f);
    PlainIsPipeless(g);
    CanonicalInjective(f, g);
  }

  /** The same text read with one separator taken for another: text moves between two
      neighbouring fields. The previous hash is left alone. */
  function Respell(f: Fields): (g: Fields)
    requires '|' in f.entryId || '|' in f.accountId || '|' in f.asset || '|' in f.createdAt
  {
    if '|' in f.accountId then
      var (a, b) := SplitFirst(f.accountId, '|').value;
      f.(entryId := Join(f.entryId, '|', a), accountId := b)
    else if '|' in f.entryId then
      var (a, b) := SplitFirst(f.entryId, '|').value;
      f.(entryId := a, accountId := Join(b, '|', f.accountId))
    else if '|' in f.asset then
      var (a, b) := SplitFirst(f.asset, '|').value;
      f.(asset := a, createdAt := Join(b, '|', f.createdAt))
    else
      var (a, b) := SplitFirst(f.createdAt, '|').value;
      f.(asset := Join(f.asset, '|', a), createdAt := b)
  }

  lemma RespellShares(f: Fields)
    requires '|' in f.entryId || '|' in f.accountId || '|' in f.asset || '|' in f.createdAt
    ensures Respell(f) != f && Canonical(Respell(f)) == Canonical(f)
    ensures Respell(f).prevHash == f.prevHash && Respell(f).direction == f.direction && Respell(f).amount == f.amount
  {
    var g := Respell(f);
    if '|' in f.accountId {
      var (a, b) := SplitFirst(f.accountId, '|').value;
      MovedName(f.prevHash, f.entryId, a, b);
    } else if '|' in f.entryId {
      var (a, b) := SplitFirst(f.entryId, '|').value;
      MovedName(f.prevHash, a, b, f.accountId);
    } else {
      var x := Join(Join(Names(f), '|', DirText(f.direction)), '|', Decimal(f.amount));
      if '|' in f.asset {
        var (a, b) := SplitFirst(f.asset, '|').value;
        MovedName(x, a, b, f.createdAt);
      } else {
        var (a, b) := SplitFirst(f.createdAt, '|').value;
        MovedName(x, f.asset, a, b);
      }
    }
  }

  lemma MovedName(p: string, a: string, b: string, c: string)
    ensures Join(Join(p, '|', Join(a, '|', b)), '|', c) == Join(Join(p, '|', a), '|', Join(b, '|', c))
    ensures Join(a, '|', b) != a && Join(b, '|', c) != c
  {
    var s := Join(Join(p, '|', Join(a, '|', b)), '|', c);
    assert s == p + "|" + a + "|" + b + "|" + c;
    assert Join(Join(p, '|', a), '|', Join(b, '|', c)) == p + "|" + a + "|" + b + "|" + c;
    assert |Join(a, '|', b)| > |a| && |Join(b, '|', c)| > |c|;
  }

  /** Fields share their encoding with some others exactly when a separator occurs in one of
      their texts. */
  lemma EncodingShared(f: Fields)
    ensures (exists g :: g != f && Canonical(g) == Canonical(f)) <==> !PlainFields(f)
  {
    hide Canonical;
    if PlainFields(f) {
      forall g | Canonical(g) == Canonical(f) ensures g == f {
        PlainUnique(f, g);
      }
    } else if '|' in f.prevHash {
      MovedPrev(f);
    } else {
      RespellShares(f);
    }
  }

  lemma MovedPrev(f: Fields)
    requires '|' in f.prevHash
    ensures exists g :: g != f && Canonical(g) == Canonical(f)
  {
    var (a, b) := SplitFirst(f.prevHash, '|').value;
    var g := f.(prevHash := a, entryId := Join(b, '|', f.entryId));
    JoinAssociative(a, b, f.entryId, '|');
    assert |Join(b, '|', f.entryId)| > |f.entryId|;
    assert g != f && Canonical(g) == Canonical(f);
  }

  // ---------- Hashing ----------

  predicate IsHash(s: string) {
    |s| == 64 && forall c :: c in s ==> '0' <= c <= '9' || 'a' <= c <= 'f'
  }

  /** The hash before the first entry: 64 zeros. */
  function Genesis(): (s: string)
    ensures IsHash(s) && forall c :: c in s ==> c == '0'
  {
    seq(64, _ => '0')
  }

  /** Any function to 64 hexadecimal digits; nothing else is assumed of SHA-256. */
  type Hasher = h: string -> string | forall s :: IsHash(h(s)) witness (s: string) => Genesis()

  /** The deployment's hash function and salt. */
  datatype Env = Env(hash: Hasher, salt: string)

  function ComputeHash(env: Env, prevHash: string, canonical: string): string {
    env.hash(prevHash + env.salt + canonical)
  }
}
