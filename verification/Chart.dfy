/** The chart of accounts, the asset registry and the account records. */
module Chart {
  import opened Text
  import opened Posting

  datatype AssetClass = Fiat | Crypto | Both

  datatype AccountType = AccountType(typeName: string, allowedDirections: seq<string>, assetClass: AssetClass)

  const EITHER: seq<string> := [DirText(Debit), DirText(Credit)]

  function ChartOfAccounts(): seq<AccountType> {
    [
      AccountType("user_custodial", EITHER, Both),
      AccountType("user_payable", EITHER, Both),
      AccountType("operational_fiat", EITHER, Fiat),
      AccountType("operational_crypto", EITHER, Crypto),
      AccountType("treasury_fiat", EITHER, Fiat),
      AccountType("treasury_crypto", EITHER, Crypto),
      AccountType("fx_gain_loss", EITHER, Both),
      AccountType("fee_revenue", EITHER, Both),
      AccountType("rail_settlement", EITHER, Fiat),
      AccountType("venue_settlement", EITHER, Both),
      AccountType("chargeback_reserve", EITHER, Both)
    ]
  }

  function FindIn(chart: seq<AccountType>, typeName: string): (r: Option<AccountType>)
    ensures r.Some? ==> r.value in chart && r.value.typeName == typeName
    ensures r.None? ==> forall t :: t in chart ==> t.typeName != typeName
  {
    if chart == [] then None
    else if chart[0].typeName == typeName then Some(chart[0])
    else FindIn(chart[1..], typeName)
  }

  function FindType(typeName: string): Option<AccountType> {
    FindIn(ChartOfAccounts(), typeName)
  }

  predicate DirectionAllowed(t: AccountType, d: Direction) {
    DirText(d) in t.allowedDirections
  }

  predicate AssetClassAllowed(t: AccountType, c: AssetClass) {
    t.assetClass.Both? || t.assetClass == c
  }

  function ParseAssetClass(s: string): Option<AssetClass> {
    if s == "FIAT" then Some(Fiat)
    else if s == "CRYPTO" then Some(Crypto)
    else if s == "BOTH" then Some(Both)
    else None
  }

  lemma AllTakeEither(t: AccountType)
    requires t in ChartOfAccounts()
    ensures t.allowedDirections == EITHER
  {
  }

  /** Every type in the chart takes both directions, so the direction check never rejects. */
  lemma DirectionsAlwaysAllowed(typeName: string, d: Direction)
    requires FindType(typeName).Some?
    ensures DirectionAllowed(FindType(typeName).value, d)
  {
    var t := FindType(typeName).value;
    AllTakeEither(t);
    assert DirText(d) == EITHER[if d.Debit? then 0 else 1];
  }

  // ---------- Assets ----------

  const MAX_AMOUNT: nat := 1_000_000_000_000

  /** The registry: each known code with its own maximum amount. */
  function FindAsset(code: string): Option<nat> {
    if code == "USD" || code == "EUR" || code == "GBP" || code == "USDC" then Some(1_000_000_000_000)
    else if code == "BTC" then Some(21_000_000_000_000)
    else if code == "ETH" then Some(1_000_000_000_000_000_000)
    else None
  }

  // ---------- Accounts ----------

  datatype Account = Account(
    accountId: string, typeName: string, assetClass: string, caption: string,
    parentId: Option<string>, status: string, createdAt: string)

  datatype CreateAccountRequest = CreateAccountRequest(
    accountId: Option<string>, typeName: string, assetClass: string, caption: string, parentId: Option<string>)

  datatype AccountError = UnknownAccountType | InvalidAssetClass | AssetClassNotAllowed | AlreadyExists

  function ValidateAccount(req: CreateAccountRequest): Option<AccountError> {
    if FindType(req.typeName).None? then Some(UnknownAccountType)
    else if ParseAssetClass(req.assetClass).None? then Some(InvalidAssetClass)
    else if !AssetClassAllowed(FindType(req.typeName).value, ParseAssetClass(req.assetClass).value) then
      Some(AssetClassNotAllowed)
    else None
  }
}
