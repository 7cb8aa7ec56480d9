/** The check-token instruction (src/instructions/check-token.ts): does an
    account hold at least, at most, or exactly an amount of an asset? */
module CheckToken {
  import opened Common
  import opened Instruction
  import opened Amounts
  import opened Stellar

  const RequiredParams := ["account", "asset", "minAmount"]
  const PassedMessage := "Token check passed"

  /** `compareAmount`: both amounts are parsed as numbers; "lte" and "eq" select
      their comparison and every other mode, or none, behaves as "gte". A text
      that is not a number (NaN) makes every comparison false. */
  function CompareAmount(actual: string, expected: string, comparison: Option<string>): (ok: bool)
    ensures ok ==> ParseDecimal(actual).Some? && ParseDecimal(expected).Some?
    ensures ParseDecimal(actual).Some? && ParseDecimal(expected).Some? ==>
      var a := ParseDecimal(actual).value;
      var e := ParseDecimal(expected).value;
      ok == (if comparison == Some("lte") then a <= e
             else if comparison == Some("eq") then a == e
             else a >= e)
  {
    var mode := if comparison.Some? then comparison.value else "gte";
    match (ParseDecimal(actual), ParseDecimal(expected))
    case (Some(a), Some(e)) =>
      (match mode
       case "gte" => a >= e
       case "lte" => a <= e
       case "eq" => a == e
       case _ => a >= e)
    case _ => false
  }

  function InsufficientMessage(balance: string, asset: string): string {
    "Account has insufficient balance: " + balance + " " + asset
  }

  /** `CheckTokenInstruction.execute`; `accountBalances` answers `getAccountBalances`. */
  function Execute(params: map<string, string>, accountBalances: string -> Result<seq<TokenBalance>>): (r: InstructionResult)
    ensures ValidationError(RequiredParams, params).Some? ==>
      r == InstructionResult(false, ValidationError(RequiredParams, params).value, None)
    ensures ValidationError(RequiredParams, params).None? ==>
      var balance := GetBalance(params["account"], params["asset"], Lookup(params, "issuer"),
                                accountBalances(params["account"]));
      && (balance.Err? ==> r == InstructionResult(false, balance.message, None))
      && (balance.Ok? ==>
            && r.success == CompareAmount(balance.value, params["minAmount"], Lookup(params, "comparison"))
            && r.message == (if r.success then PassedMessage else InsufficientMessage(balance.value, params["asset"]))
            && r.details == Some(map["account" := params["account"], "asset" := params["asset"],
                                     "balance" := balance.value, "required" := params["minAmount"]]))
  {
    match ValidationError(RequiredParams, params)
    case Some(message) => InstructionResult(false, message, None)
    case None =>
      var account := params["account"];
      var asset := params["asset"];
      var minAmount := params["minAmount"];
      match GetBalance(account, asset, Lookup(params, "issuer"), accountBalances(account))
      case Err(message) => InstructionResult(false, message, None)
      case Ok(balance) =>
        var ok := CompareAmount(balance, minAmount, Lookup(params, "comparison"));
        InstructionResult(ok, if ok then PassedMessage else InsufficientMessage(balance, asset),
                          Some(map["account" := account, "asset" := asset, "balance" := balance,
                                   "required" := minAmount]))
  }

  /** An unknown comparison mode is the same as none at all. */
  lemma UnknownModeIsGte(actual: string, expected: string, mode: string)
    requires mode != "lte" && mode != "eq"
    ensures CompareAmount(actual, expected, Some(mode)) == CompareAmount(actual, expected, None)
  {
  }

  /** Between numbers, "eq" holds exactly when both "gte" and "lte" hold, and
      one of "gte" and "lte" always holds. */
  lemma ModesAgree(actual: string, expected: string)
    requires ParseDecimal(actual).Some? && ParseDecimal(expected).Some?
    ensures CompareAmount(actual, expected, Some("eq"))
        <==> CompareAmount(actual, expected, Some("gte")) && CompareAmount(actual, expected, Some("lte"))
    ensures CompareAmount(actual, expected, Some("gte")) || CompareAmount(actual, expected, Some("lte"))
  {
  }

  /** The balance texts the ledger writes compare by value: 150 tokens meet a
      requirement of "100", 50 tokens do not. */
  lemma LedgerAmountsCompareByValue(stroops: nat, required: nat)
    ensures CompareAmount(FormatAmount(stroops), NatToString(required), None)
        <==> stroops >= required * StroopsPerToken
  {
    ParseFormatAmount(stroops);
    ParseNatText(required);
  }
}
