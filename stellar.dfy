/** The ledger service (src/services/stellar.ts): the records it hands out and
    the balance lookup. Loading an account from the ledger node is outside the
    model; its answer is an input. */
module Stellar {
  import opened Common

  /** One entry of an account's `balances`. Native balances carry no code or issuer. */
  datatype TokenBalance = TokenBalance(
    assetType: string,
    assetCode: Option<string>,
    assetIssuer: Option<string>,
    balance: string)

  /** A payment-type operation as `getTransactions` returns it. `createdAt` is in
      milliseconds since the epoch and `amount` in stroops. */
  datatype PaymentRecord = PaymentRecord(
    assetType: string,
    assetCode: Option<string>,
    assetIssuer: Option<string>,
    from: string,
    to: string,
    createdAt: int,
    hash: string,
    amount: nat)

  const NativeCode := "XLM"
  const NativeType := "native"

  /** The three ways `getBalance` selects a balance. */
  datatype AssetSelector = Native | CodeAndIssuer(code: string, issuer: string) | CodeOnly(code: string)

  /** "XLM" is the native asset whatever issuer is given; otherwise an issuer that
      is a string (the empty one included) selects code and issuer, none the code alone. */
  function SelectAsset(assetCode: string, assetIssuer: Option<string>): (sel: AssetSelector)
    ensures assetCode == NativeCode <==> sel.Native?
    ensures sel.CodeAndIssuer? <==> assetCode != NativeCode && assetIssuer.Some?
    ensures sel.CodeAndIssuer? ==> sel.code == assetCode && sel.issuer == assetIssuer.value
    ensures sel.CodeOnly? ==> sel.code == assetCode
  {
    if assetCode == NativeCode then Native
    else if assetIssuer.Some? then CodeAndIssuer(assetCode, assetIssuer.value)
    else CodeOnly(assetCode)
  }

  predicate BalanceMatches(b: TokenBalance, sel: AssetSelector) {
    match sel
    case CodeOnly(code) => b.assetCode == Some(code)
    case Native => b.assetType == NativeType
    case CodeAndIssuer(code, issuer) => b.assetCode == Some(code) && b.assetIssuer == Some(issuer)
  }

  function AssetNotFoundMessage(assetCode: string, accountId: string): string {
    "Asset " + assetCode + " not found for account " + accountId
  }

  /** `getBalance`: the amount of the first balance, in list order, that the
      selector matches; `balances` is what `getAccountBalances(accountId)` gave. */
  function GetBalance(accountId: string, assetCode: string, assetIssuer: Option<string>,
                      balances: Result<seq<TokenBalance>>): (r: Result<string>)
    ensures balances.Err? ==> r == Err(balances.message)
    ensures balances.Ok? && r.Ok? ==> exists i :: (0 <= i < |balances.value|
      && BalanceMatches(balances.value[i], SelectAsset(assetCode, assetIssuer))
      && (forall j :: 0 <= j < i ==> !BalanceMatches(balances.value[j], SelectAsset(assetCode, assetIssuer)))
      && r.value == balances.value[i].balance)
    ensures balances.Ok? && r.Err? ==>
      r.message == AssetNotFoundMessage(assetCode, accountId)
      && forall j :: 0 <= j < |balances.value| ==> !BalanceMatches(balances.value[j], SelectAsset(assetCode, assetIssuer))
  {
    match balances
    case Err(e) => Err(e)
    case Ok(bs) =>
      var sel := SelectAsset(assetCode, assetIssuer);
      match FirstIndex(bs, b => BalanceMatches(b, sel))
      case None => Err(AssetNotFoundMessage(assetCode, accountId))
      case Some(i) => Ok(bs[i].balance)
  }

  /** For "XLM" the issuer argument makes no difference, and only a native
      balance can be returned. */
  lemma NativeIgnoresIssuer(accountId: string, i1: Option<string>, i2: Option<string>,
                            bs: seq<TokenBalance>)
    ensures GetBalance(accountId, NativeCode, i1, Ok(bs)) == GetBalance(accountId, NativeCode, i2, Ok(bs))
    ensures GetBalance(accountId, NativeCode, i1, Ok(bs)).Ok? ==>
      exists b :: b in bs && b.assetType == NativeType && b.balance == GetBalance(accountId, NativeCode, i1, Ok(bs)).value
  {
    var r := GetBalance(accountId, NativeCode, i1, Ok(bs));
    if r.Ok? {
      var i :| 0 <= i < |bs| && BalanceMatches(bs[i], Native) && r.value == bs[i].balance;
      assert bs[i] in bs;
    }
  }

  /** With an issuer, a balance of the right code from another issuer is passed
      over; without one, the first balance of that code is taken. */
  lemma IssuerDecidesBetweenSameCode(accountId: string, code: string, issuer: string, other: string)
    requires code != NativeCode && other != issuer
    ensures var bs := [TokenBalance("credit_alphanum4", Some(code), Some(other), "1"),
                       TokenBalance("credit_alphanum4", Some(code), Some(issuer), "2")];
      GetBalance(accountId, code, Some(issuer), Ok(bs)) == Ok("2")
      && GetBalance(accountId, code, None, Ok(bs)) == Ok("1")
  {
    var bs := [TokenBalance("credit_alphanum4", Some(code), Some(other), "1"),
               TokenBalance("credit_alphanum4", Some(code), Some(issuer), "2")];
    assert !BalanceMatches(bs[0], CodeAndIssuer(code, issuer));
    assert BalanceMatches(bs[1], CodeAndIssuer(code, issuer));
    assert BalanceMatches(bs[0], CodeOnly(code));
  }
}
