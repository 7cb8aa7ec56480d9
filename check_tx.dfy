/** The check-tx instruction (src/instructions/check-tx.ts): does the account
    have a payment in a given asset, direction and counterparty since a date? */
module CheckTx {
  import opened Common
  import opened Instruction
  import opened Stellar

  const RequiredParams := ["account", "asset", "since"]
  const FoundMessage := "Transaction found"
  const NotFoundMessage := "No matching transaction found"

  /** The ledger calls the instruction makes. */
  datatype Call = GetTransactions(account: string, since: string)

  datatype Run = Run(result: InstructionResult, calls: seq<Call>)

  /** A native payment matches only the asset "XLM"; any other payment needs the
      asset's code and, when a (truthy) issuer is given, its issuer too. */
  predicate AssetMatches(tx: PaymentRecord, asset: string, issuer: Option<string>) {
    if tx.assetType == NativeType then asset == NativeCode
    else tx.assetCode == Some(asset) && (Falsy(issuer) || tx.assetIssuer == issuer)
  }

  /** "in": paid to the account (by the counterparty, if one is given);
      "out": paid by the account (to the counterparty); any other direction:
      the counterparty, if given, is at either end. */
  predicate DirectionMatches(tx: PaymentRecord, account: string, direction: Option<string>,
                             counterparty: Option<string>) {
    if direction == Some("in") then
      tx.to == account && (Falsy(counterparty) || tx.from == counterparty.value)
    else if direction == Some("out") then
      tx.from == account && (Falsy(counterparty) || tx.to == counterparty.value)
    else
      Falsy(counterparty) || tx.from == counterparty.value || tx.to == counterparty.value
  }

  predicate TxMatches(tx: PaymentRecord, account: string, asset: string, issuer: Option<string>,
                      direction: Option<string>, counterparty: Option<string>) {
    AssetMatches(tx, asset, issuer) && DirectionMatches(tx, account, direction, counterparty)
  }

  /** The details reported on a completed search; undefined fields are left out. */
  function Details(params: map<string, string>): (d: map<string, string>)
    ensures forall k :: k in d <==> k in params && k in {"account", "asset", "issuer", "direction", "since", "counterparty"}
    ensures forall k :: k in d ==> d[k] == params[k]
  {
    map k | k in params && k in {"account", "asset", "issuer", "direction", "since", "counterparty"} :: params[k]
  }

  /** `CheckTxInstruction.execute`: validate, fetch the account's payments since
      `since`, and report whether some payment matches. */
  function Execute(params: map<string, string>,
                   getTransactions: (string, string) -> Result<seq<PaymentRecord>>): (run: Run)
    ensures ValidationError(RequiredParams, params).Some? ==>
      run == Run(InstructionResult(false, ValidationError(RequiredParams, params).value, None), [])
    ensures ValidationError(RequiredParams, params).None? ==>
      run.calls == [GetTransactions(params["account"], params["since"])]
    ensures (ValidationError(RequiredParams, params).None?
      && getTransactions(params["account"], params["since"]).Err?) ==>
      run.result == InstructionResult(false, getTransactions(params["account"], params["since"]).message, None)
    ensures (ValidationError(RequiredParams, params).None?
      && getTransactions(params["account"], params["since"]).Ok?) ==>
      var txs := getTransactions(params["account"], params["since"]).value;
      && (run.result.success <==> exists i :: 0 <= i < |txs| && TxMatches(txs[i], params["account"],
            params["asset"], Lookup(params, "issuer"), Lookup(params, "direction"), Lookup(params, "counterparty")))
      && run.result.message == (if run.result.success then FoundMessage else NotFoundMessage)
      && run.result.details == Some(Details(params))
  {
    match ValidationError(RequiredParams, params)
    case Some(message) => Run(InstructionResult(false, message, None), [])
    case None =>
      var account := params["account"];
      var since := params["since"];
      var calls := [GetTransactions(account, since)];
      match getTransactions(account, since)
      case Err(message) => Run(InstructionResult(false, message, None), calls)
      case Ok(txs) =>
        var asset := params["asset"];
        var issuer := Lookup(params, "issuer");
        var direction := Lookup(params, "direction");
        var counterparty := Lookup(params, "counterparty");
        var found := FirstIndex(txs, tx => TxMatches(tx, account, asset, issuer, direction, counterparty)).Some?;
        Run(InstructionResult(found, if found then FoundMessage else NotFoundMessage, Some(Details(params))), calls)
  }

  function Swap(tx: PaymentRecord): PaymentRecord {
    tx.(from := tx.to, to := tx.from)
  }

  /** Without a direction or counterparty, which end of the payment is which does
      not matter. */
  lemma UndirectedIgnoresSwap(tx: PaymentRecord, account: string, asset: string, issuer: Option<string>)
    ensures TxMatches(Swap(tx), account, asset, issuer, None, None) == TxMatches(tx, account, asset, issuer, None, None)
  {
  }

  /** Swapping the ends of a payment that matches "in" (or "out") for an account
      that is not at both ends makes it fail that direction. */
  lemma DirectedSeesSwap(tx: PaymentRecord, account: string, direction: string, counterparty: Option<string>)
    requires direction == "in" || direction == "out"
    requires tx.from != tx.to
    requires DirectionMatches(tx, account, Some(direction), counterparty)
    ensures !DirectionMatches(Swap(tx), account, Some(direction), counterparty)
  {
  }

  /** "in" for the account from a counterparty is "out" for that counterparty to
      the account: the same payment seen from its other end. */
  lemma InOutDuality(tx: PaymentRecord, account: string, counterparty: string)
    requires account != "" && counterparty != ""
    ensures DirectionMatches(tx, account, Some("in"), Some(counterparty))
        <==> DirectionMatches(tx, counterparty, Some("out"), Some(account))
  {
  }

  /** An empty issuer (or counterparty) filters nothing, exactly as an absent
      one, whatever the other filter is. */
  lemma EmptyFiltersAreAbsent(tx: PaymentRecord, account: string, asset: string, direction: Option<string>)
    ensures TxMatches(tx, account, asset, Some(""), direction, Some(""))
        == TxMatches(tx, account, asset, None, direction, None)
    ensures forall counterparty: Option<string> ::
      TxMatches(tx, account, asset, Some(""), direction, counterparty)
        == TxMatches(tx, account, asset, None, direction, counterparty)
    ensures forall issuer: Option<string> ::
      TxMatches(tx, account, asset, issuer, direction, Some(""))
        == TxMatches(tx, account, asset, issuer, direction, None)
  {
  }

  /** Missing parameters are reported in the order account, asset, since. */
  lemma EmptyParamsNameAccount(getTransactions: (string, string) -> Result<seq<PaymentRecord>>)
    ensures Execute(map[], getTransactions).result
      == InstructionResult(false, "Missing required parameter: account", None)
    ensures Execute(map[], getTransactions).calls == []
  {
    var empty: map<string, string> := map[];
    FirstMissingIsUnique(RequiredParams, empty, 0);
  }
}
