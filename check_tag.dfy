/** The check-tag instruction (src/instructions/check-tag.ts): do two accounts
    name each other in their key/value data? */
module CheckTag {
  import opened Common
  import opened Instruction

  const RequiredParams := ["account", "key"]
  const PassedMessage := "Tag check passed"
  const NotPairedMessage := "Tag check failed: accounts are not paired"

  /** `getDataValue(account, key)` calls, in the order made. */
  datatype Call = GetDataValue(account: string, key: string)

  datatype Run = Run(result: InstructionResult, calls: seq<Call>)

  /** The ledger's data store as the instruction sees it: a value, null, or a
      thrown error for each account and key. */
  type DataStore = (string, string) -> Result<Option<string>>

  function NoTagMessage(account: string, key: string): string {
    "Account " + account + " has no tag with key " + key
  }

  function PairNoTagMessage(pairAccount: string, key: string): string {
    "Pair account " + pairAccount + " has no tag with key " + key
  }

  /** `pairKey ?? key`: only an undefined pair key falls back, an empty one is kept. */
  function PairKey(params: map<string, string>): string
    requires "key" in params
  {
    if "pairKey" in params then params["pairKey"] else params["key"]
  }

  /** `{account, pairAccount, key, pairKey}` without an undefined pair key. */
  function PairDetails(params: map<string, string>, pairAccount: string): map<string, string>
    requires "account" in params && "key" in params
  {
    var d := map["account" := params["account"], "pairAccount" := pairAccount, "key" := params["key"]];
    if "pairKey" in params then d["pairKey" := params["pairKey"]] else d
  }

  /** `CheckTagInstruction.execute`. */
  function Execute(params: map<string, string>, getDataValue: DataStore): (run: Run)
    ensures ValidationError(RequiredParams, params).Some? ==>
      run == Run(InstructionResult(false, ValidationError(RequiredParams, params).value, None), [])
    ensures |run.calls| <= 2
    ensures ValidationError(RequiredParams, params).None? ==>
      |run.calls| >= 1 && run.calls[0] == GetDataValue(params["account"], params["key"])
    ensures ValidationError(RequiredParams, params).None? ==>
      var first := getDataValue(params["account"], params["key"]);
      (|run.calls| == 2 <==> first.Ok? && !Falsy(first.value))
    ensures |run.calls| == 2 ==>
      var first := getDataValue(params["account"], params["key"]);
      first.Ok? && !Falsy(first.value) && run.calls[1] == GetDataValue(first.value.value, PairKey(params))
    ensures run.result.success <==>
      && ValidationError(RequiredParams, params).None?
      && Paired(params["account"], params["key"], PairKey(params), getDataValue)
    ensures ValidationError(RequiredParams, params).None? ==>
      var account := params["account"];
      var key := params["key"];
      var first := getDataValue(account, key);
      && (first.Err? ==> run.result == InstructionResult(false, first.message, None))
      && (first.Ok? && Falsy(first.value) ==>
            run.result == InstructionResult(false, NoTagMessage(account, key),
                                            Some(map["account" := account, "key" := key])))
      && (first.Ok? && !Falsy(first.value) ==>
            var pairAccount := first.value.value;
            var second := getDataValue(pairAccount, PairKey(params));
            && (second.Err? ==> run.result == InstructionResult(false, second.message, None))
            && (second.Ok? && Falsy(second.value) ==>
                  run.result == InstructionResult(false, PairNoTagMessage(pairAccount, PairKey(params)),
                                                  Some(PairDetails(params, pairAccount))))
            && (second.Ok? && !Falsy(second.value) ==>
                  && run.result.message == (if run.result.success then PassedMessage else NotPairedMessage)
                  && run.result.details == Some(PairDetails(params, pairAccount))))
  {
    match ValidationError(RequiredParams, params)
    case Some(message) => Run(InstructionResult(false, message, None), [])
    case None =>
      var account := params["account"];
      var key := params["key"];
      var first := [GetDataValue(account, key)];
      match getDataValue(account, key)
      case Err(message) => Run(InstructionResult(false, message, None), first)
      case Ok(value) =>
        if Falsy(value) then
          Run(InstructionResult(false, NoTagMessage(account, key),
                                Some(map["account" := account, "key" := key])), first)
        else
          var pairAccount := value.value;
          var pairKey := PairKey(params);
          var calls := first + [GetDataValue(pairAccount, pairKey)];
          match getDataValue(pairAccount, pairKey)
          case Err(message) => Run(InstructionResult(false, message, None), calls)
          case Ok(pairValue) =>
            if Falsy(pairValue) then
              Run(InstructionResult(false, PairNoTagMessage(pairAccount, pairKey),
                                    Some(PairDetails(params, pairAccount))), calls)
            else
              var isPaired := pairValue.value == account;
              Run(InstructionResult(isPaired, if isPaired then PassedMessage else NotPairedMessage,
                                    Some(PairDetails(params, pairAccount))), calls)
  }

  /** The pairing the instruction looks for: `account` holds, under `key`, a
      non-empty pair account, which holds `account` under `pairKey`. */
  predicate Paired(account: string, key: string, pairKey: string, getDataValue: DataStore) {
    account != "" &&
    match getDataValue(account, key)
    case Ok(Some(pairAccount)) =>
      pairAccount != "" && getDataValue(pairAccount, pairKey) == Ok(Some(account))
    case _ => false
  }

  /** Pairing is mutual: if A's `key` names B and B's `pairKey` names A, then
      checking from B with the keys exchanged also passes. */
  lemma {:induction false} PairingIsMutual(account: string, key: string, pairKey: string, getDataValue: DataStore)
    requires Execute(map["account" := account, "key" := key, "pairKey" := pairKey], getDataValue).result.success
    ensures var pairAccount := getDataValue(account, key).value.value;
      Execute(map["account" := pairAccount, "key" := pairKey, "pairKey" := key], getDataValue).result.success
  {
    var p := map["account" := account, "key" := key, "pairKey" := pairKey];
    assert ValidationError(RequiredParams, p).None?;
    assert PairKey(p) == pairKey;
    var pairAccount := getDataValue(account, key).value.value;
    var q := map["account" := pairAccount, "key" := pairKey, "pairKey" := key];
    assert ValidationError(RequiredParams, q).None?;
    assert PairKey(q) == key;
  }

  /** Without a pair key the second lookup reuses `key`; the first reply decides
      whether a second lookup happens at all. */
  lemma SecondLookupUsesKey(account: string, key: string, getDataValue: DataStore)
    ensures var run := Execute(map["account" := account, "key" := key], getDataValue);
      var first := getDataValue(account, key);
      (|run.calls| == 2 <==> first.Ok? && !Falsy(first.value))
      && (|run.calls| == 2 ==> run.calls[1] == GetDataValue(first.value.value, key))
  {
    var p := map["account" := account, "key" := key];
    assert ValidationError(RequiredParams, p).None?;
  }

  /** With a pair key, a truthy first reply leads to exactly one more lookup, on
      the pair account and the pair key. */
  lemma SecondLookupUsesPairKey(account: string, key: string, pairKey: string, getDataValue: DataStore)
    requires getDataValue(account, key).Ok? && !Falsy(getDataValue(account, key).value)
    ensures Execute(map["account" := account, "key" := key, "pairKey" := pairKey], getDataValue).calls
         == [GetDataValue(account, key), GetDataValue(getDataValue(account, key).value.value, pairKey)]
  {
    var p := map["account" := account, "key" := key, "pairKey" := pairKey];
    assert ValidationError(RequiredParams, p).None?;
  }

  /** The calls of "should use pairKey if provided": account2 is looked up with key2. */
  lemma PairKeyExample(getDataValue: DataStore)
    requires getDataValue("account1", "key1") == Ok(Some("account2"))
    ensures GetDataValue("account2", "key2")
      in Execute(map["account" := "account1", "key" := "key1", "pairKey" := "key2"], getDataValue).calls
  {
    SecondLookupUsesPairKey("account1", "key1", "key2", getDataValue);
  }
}
