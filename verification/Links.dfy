/** Facts about the validated lines of a request and the entries linked from them. */
module Links {
  import opened Text
  import opened Sums
  import opened Posting
  import opened HashChain
  import opened Chart
  import opened Ledger

  predicate GoodLine(l: Line) {
    1 <= l.amount <= MAX_AMOUNT && FindAsset(l.asset).Some?
  }

  /** What validation guarantees about the lines it passes on. */
  ghost predicate GoodLines(lines: seq<Line>) {
    lines != [] && Balanced(lines) && forall l :: l in lines ==> GoodLine(l)
  }

  lemma ValidatedLines(req: PostingRequest)
    requires Validate(req).Good?
    ensures GoodLines(Validate(req).lines)
  {
    hide Balanced;
    var lines := Validate(req).lines;
    assert FirstError(req.entries, CheckAmount).None?;
    forall l | l in lines ensures GoodLine(l) {
      var i :| 0 <= i < |lines| && lines[i] == l;
      assert req.entries[i] in req.entries;
      assert CheckAmount(req.entries[i]).None?;
    }
  }

  ghost predicate MadeAt(env: Env, b: Batch, es: seq<EntryRecord>, i: nat)
    requires i < |es| <= |b.lines|
  {
    es[i] == MakeEntry(env, b, Before(b.prev, es, i), i)
  }

  lemma MadeExtends(env: Env, b: Batch, es: seq<EntryRecord>, e: EntryRecord, i: nat)
    requires i < |es| < |b.lines| && MadeAt(env, b, es, i)
    ensures MadeAt(env, b, es + [e], i)
  {
    hide MakeEntry;
  }

  lemma MadeLast(env: Env, b: Batch, es: seq<EntryRecord>)
    requires |es| < |b.lines|
    ensures MadeAt(env, b, es + [MakeEntry(env, b, HeadFrom(b.prev, es), |es|)], |es|)
  {
    hide MakeEntry;
  }

  /** Every linked entry, field by field. */
  lemma {:induction false} LinkedEntries(env: Env, b: Batch, n: nat)
    requires n <= |b.lines|
    ensures forall i :: 0 <= i < n ==> MadeAt(env, b, LinkUpTo(env, b, n), i)
  {
    hide MakeEntry, MadeAt, HeadFrom;
    if n > 0 {
      LinkedEntries(env, b, n - 1);
      var es := LinkUpTo(env, b, n - 1);
      var e := MakeEntry(env, b, HeadFrom(b.prev, es), n - 1);
      MadeLast(env, b, es);
      forall i | 0 <= i < n - 1 ensures MadeAt(env, b, es + [e], i) {
        MadeExtends(env, b, es, e, i);
      }
    }
  }

  lemma MadeEntryLinks(env: Env, b: Batch, prev: string, i: nat)
    requires i < |b.lines|
    ensures LinkOk(env, prev, MakeEntry(env, b, prev, i))
  {
    hide Canonical;
  }

  /** A linked posting is a chained path starting at the hash it was linked after. */
  lemma LinkedChain(env: Env, b: Batch)
    ensures ChainedFrom(env, b.prev, Link(env, b))
  {
    hide LinkOk, MakeEntry;
    var es := Link(env, b);
    LinkedEntries(env, b, |b.lines|);
    forall i | 0 <= i < |es| ensures LinkAt(env, b.prev, es, i) {
      assert MadeAt(env, b, es, i);
      MadeEntryLinks(env, b, Before(b.prev, es, i), i);
    }
  }

  /** The fields of a linked entry that do not depend on hashes. */
  lemma LinkedFields(env: Env, b: Batch, i: nat)
    requires i < |b.lines|
    ensures var e, l := Link(env, b)[i], b.lines[i];
      && e.entryId == b.ids[i] && e.postingId == b.postingId && e.accountId == l.accountId
      && e.direction == DirText(l.dir) && e.amount == l.amount && e.asset == l.asset
      && e.sequenceNumber == b.sequence + 1 + i && e.createdAt == b.createdAt
  {
    hide ComputeHash;
    LinkedEntries(env, b, |b.lines|);
    assert MadeAt(env, b, Link(env, b), i);
  }

  function LineDelta(accountId: string, asset: string): Line -> int {
    (l: Line) => if l.accountId == accountId && (asset == "" || l.asset == asset) then Signed(l) else 0
  }

  function Signed(l: Line): int {
    var amount: int := l.amount;
    if l.dir.Debit? then amount else -amount
  }

  function LineAsset(asset: string): Line -> int {
    (l: Line) => if l.asset == asset then Signed(l) else 0
  }

  /** Linking keeps every balance effect of the lines. */
  lemma LinkedBalance(env: Env, b: Batch, accountId: string, asset: string)
    ensures Balance(Link(env, b), accountId, asset) == Sum(b.lines, LineDelta(accountId, asset))
  {
    hide LinkUpTo;
    var es := Link(env, b);
    forall i | 0 <= i < |es|
      ensures Contribution(accountId, asset)(es[i]) == LineDelta(accountId, asset)(b.lines[i])
    {
      LinkedFields(env, b, i);
    }
    SumZip(es, Contribution(accountId, asset), b.lines, LineDelta(accountId, asset));
  }

  /** Balanced lines make no net change to any asset. */
  lemma BalancedNet(lines: seq<Line>, asset: string)
    requires Balanced(lines)
    ensures Sum(lines, LineAsset(asset)) == 0
  {
    var credits := OneSide(Credit, asset);
    var minus := (l: Line) => -credits(l);
    SumSplit(lines, LineAsset(asset), OneSide(Debit, asset), minus);
    SumNegate(lines, minus, credits);
    assert Total(lines, Debit, asset) == Total(lines, Credit, asset);
  }

  lemma LinkedAsset(env: Env, b: Batch, asset: string)
    requires Balanced(b.lines) && asset != ""
    ensures Sum(Link(env, b), AssetDelta(asset)) == 0
  {
    hide LinkUpTo, Balanced;
    var es := Link(env, b);
    forall i | 0 <= i < |es| ensures AssetDelta(asset)(es[i]) == LineAsset(asset)(b.lines[i]) {
      LinkedFields(env, b, i);
    }
    SumZip(es, AssetDelta(asset), b.lines, LineAsset(asset));
    BalancedNet(b.lines, asset);
  }

  // ---------- What acceptance means ----------

  /** The acceptance conditions, written without any order of checking. */
  ghost predicate WellFormed(req: PostingRequest) {
    && 1 <= |req.entries| <= 64
    && (forall e :: e in req.entries ==>
         && 1 <= e.amount <= 1_000_000_000_000
         && e.asset in {"USD", "EUR", "GBP", "BTC", "ETH", "USDC"}
         && e.direction in {"DEBIT", "CREDIT"})
    && (forall asset :: Side(req.entries, "DEBIT", asset) == Side(req.entries, "CREDIT", asset))
  }

  function SideAmount(direction: string, asset: string): EntryInput -> int {
    (e: EntryInput) => if e.direction == direction && e.asset == asset then e.amount else 0
  }

  function Side(es: seq<EntryInput>, direction: string, asset: string): int {
    Sum(es, SideAmount(direction, asset))
  }

  ghost predicate UsableAccount(accounts: map<string, Account>, id: string) {
    id in accounts && accounts[id].status == "ACTIVE" && FindType(accounts[id].typeName).Some?
  }

  lemma SidesAreTotals(es: seq<EntryInput>, d: Direction, asset: string)
    requires forall e :: e in es ==> ParseDirection(e.direction).Some?
    ensures Side(es, DirText(d), asset) == Total(ParseLines(es), d, asset)
  {
    var lines := ParseLines(es);
    forall i | 0 <= i < |es| ensures SideAmount(DirText(d), asset)(es[i]) == OneSide(d, asset)(lines[i]) {
      assert es[i] in es && lines[i] == ParseLine(es[i]);
    }
    SumZip(es, SideAmount(DirText(d), asset), lines, OneSide(d, asset));
  }

  lemma BalancedSides(es: seq<EntryInput>)
    requires forall e :: e in es ==> ParseDirection(e.direction).Some?
    ensures Balanced(ParseLines(es)) <==> forall asset :: Side(es, "DEBIT", asset) == Side(es, "CREDIT", asset)
  {
    forall asset
      ensures Side(es, "DEBIT", asset) == Total(ParseLines(es), Debit, asset)
      ensures Side(es, "CREDIT", asset) == Total(ParseLines(es), Credit, asset)
    {
      SidesAreTotals(es, Debit, asset);
      SidesAreTotals(es, Credit, asset);
    }
  }

  lemma EntryChecks(e: EntryInput)
    ensures CheckAmount(e).None? && CheckDirection(e).None? <==>
      1 <= e.amount <= 1_000_000_000_000
      && e.asset in {"USD", "EUR", "GBP", "BTC", "ETH", "USDC"} && e.direction in {"DEBIT", "CREDIT"}
  {
  }

  /** Validation passes exactly the well-formed requests. */
  lemma ValidateExact(req: PostingRequest)
    ensures Validate(req).Good? <==> WellFormed(req)
  {
    hide Balanced, CheckAmount, CheckDirection, Side;
    forall e | e in req.entries
      ensures CheckAmount(e).None? && CheckDirection(e).None? <==>
        1 <= e.amount <= 1_000_000_000_000
        && e.asset in {"USD", "EUR", "GBP", "BTC", "ETH", "USDC"} && e.direction in {"DEBIT", "CREDIT"}
      ensures CheckDirection(e).None? <==> ParseDirection(e.direction).Some?
    {
      EntryChecks(e);
      DirectionCheck(e);
    }
    if forall e :: e in req.entries ==> ParseDirection(e.direction).Some? {
      BalancedSides(req.entries);
    }
  }

  lemma DirectionCheck(e: EntryInput)
    ensures CheckDirection(e).None? <==> ParseDirection(e.direction).Some?
  {
  }

  lemma AccountsExact(accounts: map<string, Account>, lines: seq<Line>)
    ensures CheckAccounts(accounts, lines).None? <==> forall l :: l in lines ==> UsableAccount(accounts, l.accountId)
  {
    hide FindType, DirectionAllowed;
    forall l | l in lines
      ensures CheckStatus(accounts)(l).None? && CheckType(accounts)(l).None? <==> UsableAccount(accounts, l.accountId)
    {
      if l.accountId in accounts && FindType(accounts[l.accountId].typeName).Some? {
        DirectionsAlwaysAllowed(accounts[l.accountId].typeName, l.dir);
      }
    }
  }

  lemma GoodDirections(req: PostingRequest)
    requires Validate(req).Good?
    ensures forall e :: e in req.entries ==> ParseDirection(e.direction).Some?
    ensures Validate(req).lines == ParseLines(req.entries)
  {
    hide Balanced;
    assert FirstError(req.entries, CheckDirection).None?;
    forall e | e in req.entries ensures ParseDirection(e.direction).Some? {
      DirectionCheck(e);
    }
  }

  lemma LinesNameAccounts(es: seq<EntryInput>, accounts: map<string, Account>)
    requires forall e :: e in es ==> ParseDirection(e.direction).Some?
    ensures (forall l :: l in ParseLines(es) ==> UsableAccount(accounts, l.accountId)) <==>
            (forall e :: e in es ==> UsableAccount(accounts, e.accountId))
  {
    hide UsableAccount;
    var lines := ParseLines(es);
    if forall l :: l in lines ==> UsableAccount(accounts, l.accountId) {
      forall e | e in es ensures UsableAccount(accounts, e.accountId) {
        var i :| 0 <= i < |es| && es[i] == e;
        assert lines[i] in lines;
      }
    }
    if forall e :: e in es ==> UsableAccount(accounts, e.accountId) {
      forall l | l in lines ensures UsableAccount(accounts, l.accountId) {
        var i :| 0 <= i < |lines| && lines[i] == l;
        assert es[i] in es;
      }
    }
  }

  /** `post` writes new entries exactly when the request is well formed, its id is new and every
      account it names is usable. */
  lemma AcceptExact(env: Env, s: LedgerState, job: Job)
    ensures Post(env, s, job).1.Accepted? && !Post(env, s, job).1.replay <==>
      && WellFormed(job.req)
      && job.req.postingId !in s.postings
      && forall e :: e in job.req.entries ==> UsableAccount(s.accounts, e.accountId)
  {
    hide WellFormed, UsableAccount, NewPosting, Record, CheckAccounts, Validate, Respond, BatchOf;
    ValidateExact(job.req);
    if Validate(job.req).Good? {
      AccountsExact(s.accounts, Validate(job.req).lines);
      GoodDirections(job.req);
      LinesNameAccounts(job.req.entries, s.accounts);
    }
  }

  /** The class of the type found, if one is found. */
  function ClassOf(typeName: string): Option<AssetClass> {
    match FindType(typeName)
    case None => None
    case Some(t) => Some(t.assetClass)
  }

  // ---------- Which complaint comes first ----------

  lemma {:induction false} FirstErrorAt<T>(s: seq<T>, i: nat, check: T -> Option<Rejection>)
    requires i < |s| && check(s[i]).Some? && forall j :: 0 <= j < i ==> check(s[j]).None?
    ensures FirstError(s, check) == check(s[i])
  {
    if i > 0 {
      assert check(s[0]).None?;
      FirstErrorAt(s[1..], i - 1, check);
    }
  }

  lemma ListRefused(req: PostingRequest)
    ensures req.entries == [] ==> Validate(req) == Bad(Validation(NoEntries))
    ensures |req.entries| > 64 ==> Validate(req) == Bad(Validation(TooManyEntries))
  {
    hide Balanced, CheckAmount, CheckDirection;
  }

  /** A bad amount or asset is reported for the first entry that has one: a zero, an unknown asset,
      more than the asset's own maximum, more than 10^12, in this order. */
  lemma AmountRefused(req: PostingRequest, i: nat)
    requires i < |req.entries| <= 64
    requires forall j :: 0 <= j < i ==>
      1 <= req.entries[j].amount <= 1_000_000_000_000
      && req.entries[j].asset in {"USD", "EUR", "GBP", "BTC", "ETH", "USDC"}
    requires var e := req.entries[i];
      e.amount == 0 || e.amount > 1_000_000_000_000 || e.asset !in {"USD", "EUR", "GBP", "BTC", "ETH", "USDC"}
    ensures var e := req.entries[i];
      Validate(req) == Bad(Validation(
        if e.amount == 0 then ZeroAmount
        else if e.asset !in {"USD", "EUR", "GBP", "BTC", "ETH", "USDC"} then UnknownAsset
        else if e.asset in {"USD", "EUR", "GBP", "USDC"} then OverAssetMax
        else if e.asset == "BTC" && e.amount > 21_000_000_000_000 then OverAssetMax
        else if e.asset == "ETH" && e.amount > 1_000_000_000_000_000_000 then OverAssetMax
        else OverMaxAmount))
  {
    hide Balanced, CheckDirection, CheckAmount;
    AmountComplaint(req.entries[i]);
    forall j | 0 <= j < i ensures CheckAmount(req.entries[j]).None? {
      AmountComplaint(req.entries[j]);
    }
    FirstErrorAt(req.entries, i, CheckAmount);
  }

  lemma AmountComplaint(e: EntryInput)
    ensures CheckAmount(e).None? <==>
      1 <= e.amount <= 1_000_000_000_000 && e.asset in {"USD", "EUR", "GBP", "BTC", "ETH", "USDC"}
    ensures CheckAmount(e).Some? ==>
      CheckAmount(e).value == (
        if e.amount == 0 then ZeroAmount
        else if e.asset !in {"USD", "EUR", "GBP", "BTC", "ETH", "USDC"} then UnknownAsset
        else if e.asset in {"USD", "EUR", "GBP", "USDC"} then OverAssetMax
        else if e.asset == "BTC" && e.amount > 21_000_000_000_000 then OverAssetMax
        else if e.asset == "ETH" && e.amount > 1_000_000_000_000_000_000 then OverAssetMax
        else OverMaxAmount)
  {
  }

  /** Only when all amounts are in order are directions looked at, and only then the sides compared. */
  lemma DirectionOrSidesRefused(req: PostingRequest)
    requires 1 <= |req.entries| <= 64
    requires forall e :: e in req.entries ==>
      1 <= e.amount <= 1_000_000_000_000 && e.asset in {"USD", "EUR", "GBP", "BTC", "ETH", "USDC"}
    ensures (exists e :: e in req.entries && e.direction != "DEBIT" && e.direction != "CREDIT") ==>
      Validate(req) == Bad(Validation(BadDirection))
    ensures (forall e :: e in req.entries ==> e.direction == "DEBIT" || e.direction == "CREDIT") ==>
      (exists asset :: Side(req.entries, "DEBIT", asset) != Side(req.entries, "CREDIT", asset)) ==>
        Validate(req) == Bad(Unbalanced)
  {
    hide Balanced, CheckAmount, Side;
    forall e | e in req.entries ensures CheckAmount(e).None? { AmountComplaint(e); }
    assert FirstError(req.entries, CheckAmount).None?;
    BadDirectionFirst(req.entries);
    if forall e :: e in req.entries ==> e.direction == "DEBIT" || e.direction == "CREDIT" {
      BalancedSides(req.entries);
    }
  }

  lemma {:induction false} BadDirectionFirst(es: seq<EntryInput>)
    ensures FirstError(es, CheckDirection)
         == if exists e :: e in es && e.direction != "DEBIT" && e.direction != "CREDIT" then Some(BadDirection)
            else None
  {
    if es != [] {
      BadDirectionFirst(es[1..]);
      assert es == [es[0]] + es[1..];
      assert es[0] in es;
    }
  }

  /** Account checks report the first line whose account is missing or not active; if there is none,
      the first line whose account's type is not in the chart. */
  lemma AccountRefused(accounts: map<string, Account>, lines: seq<Line>, i: nat)
    requires i < |lines|
    requires forall j :: 0 <= j < i ==>
      lines[j].accountId in accounts && accounts[lines[j].accountId].status == "ACTIVE"
    requires lines[i].accountId in accounts ==> accounts[lines[i].accountId].status != "ACTIVE"
    ensures CheckAccounts(accounts, lines)
         == Some(if lines[i].accountId in accounts then AccountNotActive else AccountNotFound)
  {
    hide CheckType;
    FirstErrorAt(lines, i, CheckStatus(accounts));
  }

  lemma TypeRefused(accounts: map<string, Account>, lines: seq<Line>, i: nat)
    requires i < |lines|
    requires forall l :: l in lines ==> l.accountId in accounts && accounts[l.accountId].status == "ACTIVE"
    requires forall j :: 0 <= j < i ==> ClassOf(accounts[lines[j].accountId].typeName).Some?
    requires lines[i] in lines && ClassOf(accounts[lines[i].accountId].typeName).None?
    ensures CheckAccounts(accounts, lines) == Some(UnknownType)
  {
    hide FindType, DirectionAllowed;
    forall j | 0 <= j < i ensures CheckType(accounts)(lines[j]).None? {
      assert lines[j] in lines;
      DirectionsAlwaysAllowed(accounts[lines[j].accountId].typeName, lines[j].dir);
    }
    FirstErrorAt(lines, i, CheckType(accounts));
  }

  // ---------- Which accounts are opened ----------

  /** The types there are, and the class of accounts each takes. */
  lemma TypesSpelledOut(typeName: string)
    ensures ClassOf(typeName) ==
      if typeName == "user_custodial" then Some(Both)
      else if typeName == "user_payable" then Some(Both)
      else if typeName == "operational_fiat" then Some(Fiat)
      else if typeName == "operational_crypto" then Some(Crypto)
      else if typeName == "treasury_fiat" then Some(Fiat)
      else if typeName == "treasury_crypto" then Some(Crypto)
      else if typeName == "fx_gain_loss" then Some(Both)
      else if typeName == "fee_revenue" then Some(Both)
      else if typeName == "rail_settlement" then Some(Fiat)
      else if typeName == "venue_settlement" then Some(Both)
      else if typeName == "chargeback_reserve" then Some(Both)
      else None
  {
    hide FindIn, ChartOfAccounts;
    var chart := ChartOfAccounts();
    ChartSpelledOut();
    MiddleTypes(typeName);
    assert chart[0..] == chart;
    FindNext(chart, 0, typeName);
    FindNext(chart, 1, typeName);
    FindNext(chart, 2, typeName);
  }

  lemma ChartSpelledOut()
    ensures var chart := ChartOfAccounts();
      && |chart| == 11
      && chart[0].typeName == "user_custodial" && chart[0].assetClass == Both
      && chart[1].typeName == "user_payable" && chart[1].assetClass == Both
      && chart[2].typeName == "operational_fiat" && chart[2].assetClass == Fiat
      && chart[3].typeName == "operational_crypto" && chart[3].assetClass == Crypto
      && chart[4].typeName == "treasury_fiat" && chart[4].assetClass == Fiat
      && chart[5].typeName == "treasury_crypto" && chart[5].assetClass == Crypto
      && chart[6].typeName == "fx_gain_loss" && chart[6].assetClass == Both
      && chart[7].typeName == "fee_revenue" && chart[7].assetClass == Both
      && chart[8].typeName == "rail_settlement" && chart[8].assetClass == Fiat
      && chart[9].typeName == "venue_settlement" && chart[9].assetClass == Both
      && chart[10].typeName == "chargeback_reserve" && chart[10].assetClass == Both
  {
  }

  lemma MiddleTypes(typeName: string)
    ensures |ChartOfAccounts()| == 11
    ensures var found := FindIn(ChartOfAccounts()[3..], typeName);
      (if found.None? then None else Some(found.value.assetClass)) ==
        if typeName == "operational_crypto" then Some(Crypto)
        else if typeName == "treasury_fiat" then Some(Fiat)
        else if typeName == "treasury_crypto" then Some(Crypto)
        else if typeName == "fx_gain_loss" then Some(Both)
        else if typeName == "fee_revenue" then Some(Both)
        else if typeName == "rail_settlement" then Some(Fiat)
        else if typeName == "venue_settlement" then Some(Both)
        else if typeName == "chargeback_reserve" then Some(Both)
        else None
  {
    hide FindIn, ChartOfAccounts;
    var chart := ChartOfAccounts();
    ChartSpelledOut();
    LaterTypes(typeName);
    FindNext(chart, 3, typeName);
    FindNext(chart, 4, typeName);
    FindNext(chart, 5, typeName);
  }

  lemma LaterTypes(typeName: string)
    ensures |ChartOfAccounts()| == 11
    ensures var found := FindIn(ChartOfAccounts()[6..], typeName);
      (if found.None? then None else Some(found.value.assetClass)) ==
        if typeName == "fx_gain_loss" then Some(Both)
        else if typeName == "fee_revenue" then Some(Both)
        else if typeName == "rail_settlement" then Some(Fiat)
        else if typeName == "venue_settlement" then Some(Both)
        else if typeName == "chargeback_reserve" then Some(Both)
        else None
  {
    hide FindIn, ChartOfAccounts;
    var chart := ChartOfAccounts();
    ChartSpelledOut();
    assert chart[11..] == [];
    NoTypes(typeName);
    FindNext(chart, 6, typeName);
    FindNext(chart, 7, typeName);
    FindNext(chart, 8, typeName);
    FindNext(chart, 9, typeName);
    FindNext(chart, 10, typeName);
  }

  lemma ClassIs(typeName: string)
    ensures ClassOf(typeName).None? <==> FindType(typeName).None?
    ensures FindType(typeName).Some? ==> ClassOf(typeName) == Some(FindType(typeName).value.assetClass)
  {
    hide FindType;
  }

  lemma NoTypes(typeName: string)
    ensures FindIn([], typeName).None?
  {
  }

  lemma FindNext(chart: seq<AccountType>, i: nat, typeName: string)
    requires i < |chart|
    ensures FindIn(chart[i..], typeName)
         == if chart[i].typeName == typeName then Some(chart[i]) else FindIn(chart[i + 1..], typeName)
  {
  }

  /** `create_account` opens an account exactly when its type is in the chart, its class is one of
      three and fits the type, and its id is not taken; otherwise the first of these that fails is
      the error and nothing changes. The account is the one asked for, active, stamped with the
      clock. */
  lemma CreateAccountExact(s: LedgerState, req: CreateAccountRequest, freshId: string, clock: nat)
    ensures var (s', error) := CreateAccount(s, req, freshId, clock);
      var id := if req.accountId.Some? then req.accountId.value else freshId;
      && error == (
           if req.typeName !in {"user_custodial", "user_payable", "fx_gain_loss", "fee_revenue", "venue_settlement",
                                "chargeback_reserve", "operational_fiat", "treasury_fiat", "rail_settlement",
                                "operational_crypto", "treasury_crypto"} then Some(UnknownAccountType)
           else if req.assetClass !in {"FIAT", "CRYPTO", "BOTH"} then Some(InvalidAssetClass)
           else if req.typeName in {"operational_fiat", "treasury_fiat", "rail_settlement"}
             && req.assetClass != "FIAT" then Some(AssetClassNotAllowed)
           else if req.typeName in {"operational_crypto", "treasury_crypto"} && req.assetClass != "CRYPTO" then
             Some(AssetClassNotAllowed)
           else if id in s.accounts then Some(AlreadyExists)
           else None)
      && s' == (if error.Some? then s
                else
                  var account := Account(id, req.typeName, req.assetClass, req.caption, req.parentId, "ACTIVE",
                                         Decimal(clock));
                  s.(accounts := s.accounts[id := account]))
  {
    hide FindType, Decimal;
    TypesSpelledOut(req.typeName);
    ClassIs(req.typeName);
  }

  /** Although only the empty list is refused outright, every line of balanced positive lines
      has a line against it: same asset, opposite direction. Hence at least two entries. */
  lemma TwoSided(lines: seq<Line>, k: nat)
    requires GoodLines(lines) && k < |lines|
    ensures exists j :: 0 <= j < |lines| && lines[j].asset == lines[k].asset && lines[j].dir == Opposite(lines[k].dir)
    ensures |lines| >= 2
  {
    var l := lines[k];
    assert l in lines;
    if forall j :: 0 <= j < |lines| ==> lines[j].asset != l.asset || lines[j].dir != Opposite(l.dir) {
      SumZero(lines, OneSide(Opposite(l.dir), l.asset));
      SumAtLeast(lines, OneSide(l.dir, l.asset), k);
      TotalsAgree(lines, l.asset);
    }
  }

  lemma TotalsAgree(lines: seq<Line>, asset: string)
    requires Balanced(lines)
    ensures Sum(lines, OneSide(Debit, asset)) == Sum(lines, OneSide(Credit, asset))
  {
    assert Total(lines, Debit, asset) == Total(lines, Credit, asset);
  }
}
