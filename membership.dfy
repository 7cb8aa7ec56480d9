/** The decentralized-management membership protocol
    (src/protocols/montelibero/management.ts): every member of the management
    chat must either be registered as an expert in the association account's
    data, or have paid enough of their personal token to the association to
    cover the whole 30-day months since their last payment. */
module Membership {
  import opened Common
  import opened Amounts
  import opened Stellar
  import opened Users
  import opened TelegramManagement

  const AssociationAccount := "GCNVDZIHGX473FEI7IXCUAEXUJ4BGCKEMHF36VYP5EMS7PX2QBLAMTLA"
  /** Tokens that pay for one month of membership. */
  const TokensPerMonth: nat := 4
  const DayMs: nat := 24 * 60 * 60 * 1000
  /** Payments are looked up 365 days back. */
  const LookbackMs: nat := 365 * DayMs
  /** A month is a flat 30 days. */
  const MonthMs: nat := 30 * DayMs

  // ---------------------------------------------------------------------
  // Expert registry

  /** `/^Expert\d+$/`: "Expert" followed by one or more ASCII digits, nothing else. */
  predicate IsExpertSlot(key: string) {
    StartsWith(key, "Expert") && |key| > 6 && AllDigits(key[6..])
  }

  /** The slots of an account's data, with their values unchanged. */
  function ExpertEntries(data: map<string, string>): (r: map<string, string>)
    ensures forall k :: k in r <==> k in data && IsExpertSlot(k)
    ensures forall k :: k in r ==> r[k] == data[k]
  {
    map k | k in data && IsExpertSlot(k) :: data[k]
  }

  /** Expert membership looks at the registered accounts, never at slot names. */
  predicate IsExpertIn(registry: map<string, string>, account: string) {
    account in registry.Values
  }

  lemma {:induction false} SlotNamesAreExpertPlusNumber(n: nat)
    ensures IsExpertSlot("Expert" + NatToString(n))
  {
    var k := "Expert" + NatToString(n);
    assert k[..6] == "Expert";
    assert k[6..] == NatToString(n);
  }

  lemma NotSlots()
    ensures !IsExpertSlot("Expert") && !IsExpertSlot("expert1") && !IsExpertSlot("Expert1a")
  {
    assert "expert1"[..6] != "Expert" by { assert "expert1"[0] == 'e'; }
    assert !IsDigit("Expert1a"[6..][1]);
  }

  /** Membership is by some slot's value: a slot name is not an expert unless
      some slot holds it as a value. */
  lemma {:induction false} ExpertByValue(registry: map<string, string>, account: string)
    ensures IsExpertIn(registry, account) <==> exists k :: k in registry && registry[k] == account
  {
    if IsExpertIn(registry, account) {
      var k :| k in registry && registry[k] == account;
    }
  }

  lemma RegistryExample()
    ensures var registry := ExpertEntries(map["Expert1" := "A", "Expert2" := "B", "Name" := "C"]);
      IsExpertIn(registry, "A") && IsExpertIn(registry, "B") && !IsExpertIn(registry, "C")
      && !IsExpertIn(registry, "Expert1")
  {
    var data := map["Expert1" := "A", "Expert2" := "B", "Name" := "C"];
    var registry := ExpertEntries(data);
    SlotNamesAreExpertPlusNumber(1);
    SlotNamesAreExpertPlusNumber(2);
    assert DigitChar(1) == '1' && DigitChar(2) == '2';
    assert "Expert" + NatToString(1) == "Expert1";
    assert "Expert" + NatToString(2) == "Expert2";
    assert "Name"[..|"Name"|] != "Expert";
    assert registry == map["Expert1" := "A", "Expert2" := "B"];
    assert registry["Expert1"] == "A";
    assert registry["Expert2"] == "B";
  }

  // ---------------------------------------------------------------------
  // Token payments

  /** A member's personal token. */
  datatype Token = Token(code: string, issuer: string)

  datatype LastTransaction = LastTransaction(hash: string, createdAt: int, from: string)

  /** What `checkTokenPayments` returns; the optional fields are absent exactly
      when no relevant payment was found. */
  datatype PaymentCheck = PaymentCheck(
    success: bool,
    amount: Option<string>,
    monthsCovered: Option<nat>,
    lastTransaction: Option<LastTransaction>)

  /** A payment of the member's token, by its code and issuer, to the association. */
  predicate IsRelevant(tx: PaymentRecord, token: Token) {
    tx.assetCode == Some(token.code) && tx.assetIssuer == Some(token.issuer) && tx.to == AssociationAccount
  }

  function Relevant(txs: seq<PaymentRecord>, token: Token): (r: seq<PaymentRecord>)
    ensures forall tx :: tx in r <==> tx in txs && IsRelevant(tx, token)
  {
    if txs == [] then []
    else if IsRelevant(txs[0], token) then [txs[0]] + Relevant(txs[1..], token)
    else Relevant(txs[1..], token)
  }

  /** Filtering is done element by element: it distributes over concatenation
      and keeps a single payment exactly when it is relevant, so the relevant
      payments keep their input order. */
  lemma {:induction false} RelevantConcat(a: seq<PaymentRecord>, b: seq<PaymentRecord>, token: Token)
    ensures Relevant(a + b, token) == Relevant(a, token) + Relevant(b, token)
    ensures Relevant([], token) == []
    ensures forall x :: Relevant([x], token) == if IsRelevant(x, token) then [x] else []
  {
    if a != [] {
      assert (a + b)[0] == a[0];
      assert (a + b)[1..] == a[1..] + b;
      RelevantConcat(a[1..], b, token);
    } else {
      assert a + b == b;
    }
    forall x ensures Relevant([x], token) == if IsRelevant(x, token) then [x] else [] {
      assert [x][1..] == [];
    }
  }

  /** Every copy of a relevant payment is kept, so duplicates count in the total. */
  lemma {:induction false} RelevantKeepsCopies(txs: seq<PaymentRecord>, token: Token, x: PaymentRecord)
    ensures multiset(Relevant(txs, token))[x] == if IsRelevant(x, token) then multiset(txs)[x] else 0
  {
    if txs != [] {
      RelevantKeepsCopies(txs[1..], token, x);
      assert txs == [txs[0]] + txs[1..];
    }
  }

  predicate NewestFirst(s: seq<PaymentRecord>) {
    forall i, j :: 0 <= i < j < |s| ==> s[i].createdAt >= s[j].createdAt
  }

  /** Inserts `x` before the first element that is not newer than it, so that
      among payments made at the same instant the earlier in input order stays first. */
  function Insert(x: PaymentRecord, s: seq<PaymentRecord>): (r: seq<PaymentRecord>)
    ensures |r| == |s| + 1
    ensures r[0] == if s == [] || x.createdAt >= s[0].createdAt then x else s[0]
  {
    if s == [] || x.createdAt >= s[0].createdAt then [x] + s
    else [s[0]] + Insert(x, s[1..])
  }

  lemma {:induction false} InsertKeepsOrder(x: PaymentRecord, s: seq<PaymentRecord>)
    requires NewestFirst(s)
    ensures NewestFirst(Insert(x, s))
  {
    if s != [] && x.createdAt < s[0].createdAt {
      InsertKeepsOrder(x, s[1..]);
      var rest := Insert(x, s[1..]);
      assert rest[0].createdAt <= s[0].createdAt;
      assert Insert(x, s) == [s[0]] + rest;
    }
  }

  lemma {:induction false} InsertAddsOne(x: PaymentRecord, s: seq<PaymentRecord>)
    ensures multiset(Insert(x, s)) == multiset(s) + multiset{x}
  {
    if s != [] && x.createdAt < s[0].createdAt {
      InsertAddsOne(x, s[1..]);
      ConsMultiset(s);
      ConsMultiset(Insert(x, s));
    }
  }

  lemma ConsMultiset(s: seq<PaymentRecord>)
    requires s != []
    ensures multiset(s) == multiset(s[1..]) + multiset{s[0]}
  {
    assert s == [s[0]] + s[1..];
  }

  /** The stable newest-first sort of `Array.prototype.sort` with the comparator
      `b.created_at - a.created_at`. */
  function SortNewestFirst(s: seq<PaymentRecord>): (r: seq<PaymentRecord>)
    ensures |r| == |s|
  {
    if s == [] then [] else Insert(s[0], SortNewestFirst(s[1..]))
  }

  lemma {:induction false} SortOrders(s: seq<PaymentRecord>)
    ensures NewestFirst(SortNewestFirst(s))
  {
    if s != [] {
      SortOrders(s[1..]);
      InsertKeepsOrder(s[0], SortNewestFirst(s[1..]));
    }
  }

  /** Sorting neither loses nor duplicates a payment. */
  lemma {:induction false} SortPermutes(s: seq<PaymentRecord>)
    ensures multiset(SortNewestFirst(s)) == multiset(s)
  {
    if s != [] {
      var t := s[1..];
      var sorted := SortNewestFirst(t);
      SortPermutes(t);
      InsertAddsOne(s[0], sorted);
      assert SortNewestFirst(s) == Insert(s[0], sorted);
      ConsMultiset(s);
    }
  }

  /** `sumPayments`: the exact sum of the amounts. */
  function SumAmounts(s: seq<PaymentRecord>): nat {
    if s == [] then 0 else s[0].amount + SumAmounts(s[1..])
  }

  /** Whole months that a total (in stroops) pays for. */
  function MonthsCovered(total: nat): nat {
    total / (TokensPerMonth * StroopsPerToken)
  }

  /** Whole 30-day months from `createdAt` to `now`, rounded toward minus
      infinity as `Math.floor` rounds (Dafny's division by a positive divisor
      does the same). */
  function MonthsSince(now: int, createdAt: int): int {
    (now - createdAt) / MonthMs
  }

  /** `checkTokenPayments` on the payments that `getTransactions` returned. */
  function CheckTokenPayments(token: Token, txs: seq<PaymentRecord>, now: int): (r: PaymentCheck)
    ensures r.amount.None? <==> Relevant(txs, token) == []
    ensures r.amount.Some? == r.monthsCovered.Some? == r.lastTransaction.Some?
    ensures r.success ==> r.amount.Some?
  {
    var relevant := SortNewestFirst(Relevant(txs, token));
    if |relevant| == 0 then PaymentCheck(false, None, None, None)
    else
      var total := SumAmounts(relevant);
      var months := MonthsCovered(total);
      var last := relevant[0];
      PaymentCheck(months >= MonthsSince(now, last.createdAt),
                   Some(FormatAmount(total)), Some(months),
                   Some(LastTransaction(last.hash, last.createdAt, last.from)))
  }

  /** `i` is the first position of a newest payment in `s`. */
  predicate IsFirstNewest(s: seq<PaymentRecord>, i: nat) {
    i < |s|
    && (forall j :: 0 <= j < |s| ==> s[j].createdAt <= s[i].createdAt)
    && (forall j :: 0 <= j < i ==> s[j].createdAt < s[i].createdAt)
  }

  lemma {:induction false} SumInsert(x: PaymentRecord, s: seq<PaymentRecord>)
    ensures SumAmounts(Insert(x, s)) == x.amount + SumAmounts(s)
  {
    if s != [] && x.createdAt < s[0].createdAt {
      SumInsert(x, s[1..]);
      assert ([s[0]] + Insert(x, s[1..]))[1..] == Insert(x, s[1..]);
    } else {
      assert ([x] + s)[1..] == s;
    }
  }

  /** Sorting does not change the total. */
  lemma {:induction false} SumSort(s: seq<PaymentRecord>)
    ensures SumAmounts(SortNewestFirst(s)) == SumAmounts(s)
  {
    if s != [] {
      SumSort(s[1..]);
      SumInsert(s[0], SortNewestFirst(s[1..]));
    }
  }

  /** Putting a payment in front moves the first newest position by one, unless
      the new payment is at least as new. */
  lemma FirstNewestCons(x: PaymentRecord, t: seq<PaymentRecord>, k: nat)
    requires IsFirstNewest(t, k)
    ensures x.createdAt >= t[k].createdAt ==> IsFirstNewest([x] + t, 0)
    ensures x.createdAt < t[k].createdAt ==> IsFirstNewest([x] + t, k + 1)
  {
    var s := [x] + t;
    forall j | 1 <= j < |s| ensures s[j] == t[j - 1] { }
  }

  /** The head of the sorted payments is the first newest payment in input order. */
  lemma {:induction false} SortHead(s: seq<PaymentRecord>) returns (i: nat)
    requires s != []
    ensures IsFirstNewest(s, i) && SortNewestFirst(s)[0] == s[i]
  {
    var t := s[1..];
    assert s == [s[0]] + t;
    if t == [] {
      i := 0;
    } else {
      var k := SortHead(t);
      FirstNewestCons(s[0], t, k);
      i := if s[0].createdAt >= t[k].createdAt then 0 else k + 1;
    }
  }

  /** No relevant payment: `{success: false}` and nothing else. */
  lemma NoRelevantPayments(token: Token, txs: seq<PaymentRecord>, now: int)
    ensures (forall tx :: tx in txs ==> !IsRelevant(tx, token))
        <==> CheckTokenPayments(token, txs, now) == PaymentCheck(false, None, None, None)
  {
    var rel := Relevant(txs, token);
    if rel != [] {
      assert rel[0] in rel;
    }
  }

  /** With relevant payments: the total is that of all of them, months covered is
      the whole months the total pays for, the reported last payment is the
      first newest one, and the check passes iff months covered is at least the
      whole months elapsed since it. */
  lemma {:induction false} CoverageDecision(token: Token, txs: seq<PaymentRecord>, now: int)
    requires exists tx :: tx in txs && IsRelevant(tx, token)
    ensures var r := CheckTokenPayments(token, txs, now);
      var rel := Relevant(txs, token);
      var total := SumAmounts(rel);
      && r.amount == Some(FormatAmount(total))
      && r.monthsCovered == Some(MonthsCovered(total))
      && (exists i: nat :: IsFirstNewest(rel, i)
            && r.lastTransaction == Some(LastTransaction(rel[i].hash, rel[i].createdAt, rel[i].from)))
      && r.lastTransaction.Some?
      && (r.success <==> MonthsCovered(total) >= MonthsSince(now, r.lastTransaction.value.createdAt))
  {
    var rel := Relevant(txs, token);
    var tx :| tx in txs && IsRelevant(tx, token);
    assert tx in rel;
    var sorted := SortNewestFirst(rel);
    SumSort(rel);
    var i := SortHead(rel);
    var last := sorted[0];
    assert CheckTokenPayments(token, txs, now)
        == PaymentCheck(MonthsCovered(SumAmounts(sorted)) >= MonthsSince(now, last.createdAt),
                        Some(FormatAmount(SumAmounts(sorted))), Some(MonthsCovered(SumAmounts(sorted))),
                        Some(LastTransaction(last.hash, last.createdAt, last.from)));
  }

  lemma {:induction false} AllRelevantKept(txs: seq<PaymentRecord>, token: Token)
    requires forall tx :: tx in txs ==> IsRelevant(tx, token)
    ensures Relevant(txs, token) == txs
  {
    if txs != [] {
      assert txs[0] in txs;
      assert forall tx :: tx in txs[1..] ==> tx in txs;
      AllRelevantKept(txs[1..], token);
      assert txs == [txs[0]] + txs[1..];
    }
  }

  /** Relevant payments all made less than a month ago always pass, whatever
      their total. */
  lemma {:induction false} RecentPaymentsPass(token: Token, txs: seq<PaymentRecord>, now: int)
    requires txs != []
    requires forall tx :: tx in txs ==> IsRelevant(tx, token) && now - MonthMs < tx.createdAt <= now
    ensures var r := CheckTokenPayments(token, txs, now);
      && r.success
      && r.amount == Some(FormatAmount(SumAmounts(txs)))
      && r.monthsCovered == Some(MonthsCovered(SumAmounts(txs)))
  {
    assert txs[0] in txs;
    AllRelevantKept(txs, token);
    CoverageDecision(token, txs, now);
    var r := CheckTokenPayments(token, txs, now);
    var i: nat :| IsFirstNewest(txs, i)
      && r.lastTransaction == Some(LastTransaction(txs[i].hash, txs[i].createdAt, txs[i].from));
    assert txs[i] in txs;
    WithinAMonth(now, txs[i].createdAt);
  }

  lemma WithinAMonth(now: int, createdAt: int)
    requires now - MonthMs < createdAt <= now
    ensures MonthsSince(now, createdAt) == 0
  {
  }

  /** Payments of one same amount total that amount times their number. */
  lemma {:induction false} SumOfEqualAmounts(txs: seq<PaymentRecord>, amount: nat)
    requires forall i :: 0 <= i < |txs| ==> txs[i].amount == amount
    ensures SumAmounts(txs) == |txs| * amount
  {
    if txs != [] {
      var rest := txs[1..];
      assert forall i :: 0 <= i < |rest| ==> rest[i] == txs[i + 1];
      SumOfEqualAmounts(rest, amount);
      var n := |rest|;
      assert (n + 1) * amount == n * amount + amount;
    }
  }

  /** Three payments of 2 tokens each to the association within the last ten
      days: 6 tokens in all, one month covered, none elapsed, so the member passes. */
  lemma ThreeRecentPayments(txs: seq<PaymentRecord>, now: int)
    requires |txs| == 3
    requires forall tx :: tx in txs ==>
      && IsRelevant(tx, Token("BOB", "I"))
      && tx.amount == 2 * StroopsPerToken
      && now - 10 * DayMs <= tx.createdAt <= now
    ensures var r := CheckTokenPayments(Token("BOB", "I"), txs, now);
      && r.success
      && r.amount == Some(FormatAmount(6 * StroopsPerToken))
      && r.monthsCovered == Some(1)
  {
    assert forall i :: 0 <= i < |txs| ==> txs[i] in txs;
    SumOfEqualAmounts(txs, 2 * StroopsPerToken);
    RecentPaymentsPass(Token("BOB", "I"), txs, now);
  }

  /** `Math.floor(Number(totalAmount) / 4)` on the text of the total is the exact
      whole-month count. */
  lemma MonthsCoveredFromText(total: nat)
    ensures ParseDecimal(FormatAmount(total)).Some?
    ensures (ParseDecimal(FormatAmount(total)).value / TokensPerMonth as real).Floor == MonthsCovered(total)
  {
    ParseFormatAmount(total);
    var q := total / 40_000_000;
    assert q * 40_000_000 <= total < (q + 1) * 40_000_000;
    var x := total as real / 10_000_000.0 / 4.0;
    assert x == total as real / 40_000_000.0;
    assert q as real <= x < (q + 1) as real;
  }

  // ---------------------------------------------------------------------
  // Per-member verdicts

  datatype Violation = Violation(username: string, stellar: Option<string>, reason: seq<string>)

  datatype BasisType = ExpertBasis | TokenPaymentBasis

  /** `basis.details`; every field is optional. */
  datatype Details = Details(
    transactionHash: Option<string>,
    date: Option<int>,
    tokensAmount: Option<string>,
    monthsCovered: Option<nat>,
    paymentFrom: Option<string>)

  const NoDetails := Details(None, None, None, None, None)

  datatype Verification = Verification(username: string, stellar: string, basis: BasisType, details: Details)

  datatype Verdict = Violated(violation: Violation) | Verified(verification: Verification)

  const NoAccountReason := "No Stellar account found"
  const NoTagNoTokenReason := "No expert tag and no personal token found"
  const NoTagReason := "No expert tag found"
  const NoPaymentsReason := "No token payments found in last year"

  function InsufficientReason(amount: string, months: Option<nat>): string {
    "Insufficient token payments: " + amount + " tokens cover only "
      + (if months.Some? then NatToString(months.value) else "undefined") + " months"
  }

  /** The services the protocol consults. */
  datatype Upstream = Upstream(
    allData: Result<map<string, string>>,            // getAllData(associationAccount)
    chat: ChatDirectory,                             // the chat members directory
    users: UsersTable,                               // the Users table
    personalToken: string -> Result<Option<Token>>,  // getPersonalToken(username)
    transactions: (string, int) -> Result<seq<PaymentRecord>>)  // getTransactions(account, since)

  /** The two reasons of a failed payment check. */
  function PaymentReasons(check: PaymentCheck): seq<string> {
    [NoTagReason, if !Falsy(check.amount) then InsufficientReason(check.amount.value, check.monthsCovered)
                  else NoPaymentsReason]
  }

  /** The details of a verification by payment; the payer is named only when
      it is not the member's own account. */
  function PaymentDetails(check: PaymentCheck, account: string): Details {
    var last := check.lastTransaction;
    Details(if last.Some? then Some(last.value.hash) else None,
            if last.Some? then Some(last.value.createdAt) else None,
            check.amount, check.monthsCovered,
            if last.Some? && last.value.from != account then Some(last.value.from) else None)
  }

  /** One pass of the loop body of `execute` for one member. */
  function Judge(username: string, registry: map<string, string>, up: Upstream, now: int): (r: Result<Verdict>)
    ensures r.Ok? ==> GetStellarByTelegram(username, up.users).Ok?
    ensures GetStellarByTelegram(username, up.users).Err? ==>
      r == Err(GetStellarByTelegram(username, up.users).message)
    ensures var stellar := GetStellarByTelegram(username, up.users);
      (stellar.Ok? && !Falsy(stellar.value) && !IsExpertIn(registry, stellar.value.value)) ==>
      && (up.personalToken(username).Err? ==> r == Err(up.personalToken(username).message))
      && (up.personalToken(username).Ok? && up.personalToken(username).value.Some?
          && up.transactions(stellar.value.value, now - LookbackMs).Err? ==>
            r == Err(up.transactions(stellar.value.value, now - LookbackMs).message))
    ensures r.Ok? && r.value.Violated? ==>
      var x := r.value.violation;
      && x.username == username
      && 1 <= |x.reason| <= 2
      && (x.stellar.None? <==> x.reason == [NoAccountReason])
      && (x.stellar.Some? ==> !IsExpertIn(registry, x.stellar.value))
    ensures r.Ok? && r.value.Verified? ==>
      var x := r.value.verification;
      && x.username == username
      && Some(x.stellar) == GetStellarByTelegram(username, up.users).value
      && (x.basis == ExpertBasis <==> IsExpertIn(registry, x.stellar))
  {
    match GetStellarByTelegram(username, up.users)
    case Err(e) => Err(e)
    case Ok(stellar) =>
      if Falsy(stellar) then Ok(Violated(Violation(username, None, [NoAccountReason])))
      else
        var account := stellar.value;
        if IsExpertIn(registry, account) then
          Ok(Verified(Verification(username, account, ExpertBasis, NoDetails)))
        else
          match up.personalToken(username)
          case Err(e) => Err(e)
          case Ok(None) => Ok(Violated(Violation(username, Some(account), [NoTagNoTokenReason])))
          case Ok(Some(token)) =>
            match up.transactions(account, now - LookbackMs)
            case Err(e) => Err(e)
            case Ok(txs) =>
              var check := CheckTokenPayments(token, txs, now);
              if !check.success then Ok(Violated(Violation(username, Some(account), PaymentReasons(check))))
              else Ok(Verified(Verification(username, account, TokenPaymentBasis, PaymentDetails(check, account))))
  }

  /** A verdict (or the error that aborts the run) for each member name. */
  type Judgement = string -> Result<Verdict>

  function MemberJudgement(registry: map<string, string>, up: Upstream, now: int): Judgement {
    username => Judge(username, registry, up, now)
  }

  /** The verdicts of the members in order; the first error aborts the run. */
  function Verdicts(members: seq<string>, judge: Judgement): (r: Result<seq<Verdict>>)
    ensures r.Ok? ==> |r.value| == |members|
    decreases |members|
  {
    if members == [] then Ok([])
    else
      match Verdicts(members[..|members| - 1], judge)
      case Err(e) => Err(e)
      case Ok(vs) =>
        match judge(members[|members| - 1])
        case Err(e) => Err(e)
        case Ok(v) => Ok(vs + [v])
  }

  /** The violations among the verdicts, in verdict order. */
  function ViolationsOf(vs: seq<Verdict>): (r: seq<Violation>)
    ensures |r| <= |vs|
  {
    if vs == [] then []
    else ViolationsOf(vs[..|vs| - 1]) + (if vs[|vs| - 1].Violated? then [vs[|vs| - 1].violation] else [])
  }

  /** The verifications among the verdicts, in verdict order. */
  function VerificationsOf(vs: seq<Verdict>): (r: seq<Verification>)
    ensures |r| <= |vs|
  {
    if vs == [] then []
    else VerificationsOf(vs[..|vs| - 1]) + (if vs[|vs| - 1].Verified? then [vs[|vs| - 1].verification] else [])
  }

  datatype ProtocolResult = ProtocolResult(
    success: bool,
    message: string,
    violations: seq<Violation>,
    verifications: seq<Verification>)

  /** The protocol's result: it passes iff there is no violation, and always
      carries both lists. */
  function Report(violations: seq<Violation>, verifications: seq<Verification>): (r: ProtocolResult)
    ensures r.success <==> violations == []
    ensures r.violations == violations && r.verifications == verifications
  {
    ProtocolResult(|violations| == 0,
                   if |violations| == 0 then "All members have valid rights"
                   else "Found " + NatToString(|violations|) + " violations",
                   violations, verifications)
  }

  /** What `execute` computes, starting from the registry the object already holds. */
  function Evaluate(expertTags: map<string, string>, up: Upstream, now: int): (r: Result<ProtocolResult>)
    ensures up.allData.Err? ==> r == Err(up.allData.message)
    ensures up.allData.Ok? && GetMembers(up.chat).Err? ==> r == Err(GetMembers(up.chat).message)
    ensures r.Ok? ==> (r.value.success <==> r.value.violations == [])
  {
    match up.allData
    case Err(e) => Err(e)
    case Ok(data) =>
      var registry := expertTags + ExpertEntries(data);
      match GetMembers(up.chat)
      case Err(e) => Err(e)
      case Ok(members) => Conclude(Verdicts(members, MemberJudgement(registry, up, now)))
  }

  /** The report of a completed member loop, or the error that aborted it. */
  function Conclude(verdicts: Result<seq<Verdict>>): Result<ProtocolResult> {
    match verdicts
    case Err(e) => Err(e)
    case Ok(vs) => Ok(Report(ViolationsOf(vs), VerificationsOf(vs)))
  }

  lemma VerdictsStep(members: seq<string>, i: nat, judge: Judgement)
    requires i < |members| && Verdicts(members[..i], judge).Ok?
    ensures Verdicts(members[..i + 1], judge)
         == match judge(members[i])
            case Err(e) => Err(e)
            case Ok(v) => Ok(Verdicts(members[..i], judge).value + [v])
  {
    assert members[..i + 1][..i] == members[..i];
  }

  lemma ListsStep(vs: seq<Verdict>, v: Verdict)
    ensures ViolationsOf(vs + [v]) == ViolationsOf(vs) + (if v.Violated? then [v.violation] else [])
    ensures VerificationsOf(vs + [v]) == VerificationsOf(vs) + (if v.Verified? then [v.verification] else [])
  {
    assert (vs + [v])[..|vs|] == vs;
  }

  // ---------------------------------------------------------------------
  // What the verdicts promise

  /** An error aborts the rest of the run. */
  lemma {:induction false} ErrorPersists(members: seq<string>, n: nat, judge: Judgement)
    requires n <= |members| && Verdicts(members[..n], judge).Err?
    ensures Verdicts(members, judge) == Verdicts(members[..n], judge)
  {
    if n < |members| {
      var init := members[..|members| - 1];
      assert init[..n] == members[..n];
      ErrorPersists(init, n, judge);
    } else {
      assert members[..n] == members;
    }
  }

  /** One verdict per member, in member order, each the member's own. */
  lemma {:induction false} VerdictsInOrder(members: seq<string>, judge: Judgement)
    requires Verdicts(members, judge).Ok?
    ensures var vs := Verdicts(members, judge).value;
      |vs| == |members| && forall i :: 0 <= i < |members| ==> judge(members[i]) == Ok(vs[i])
  {
    if members != [] {
      var init := members[..|members| - 1];
      VerdictsInOrder(init, judge);
      var vs := Verdicts(init, judge).value;
      assert Verdicts(members, judge).value == vs + [judge(members[|members| - 1]).value];
      forall i | 0 <= i < |init| ensures members[i] == init[i] { }
    }
  }

  /** The run fails with the first member's error, and only if some member errs. */
  lemma {:induction false} FirstErrorAborts(members: seq<string>, judge: Judgement)
    requires Verdicts(members, judge).Err?
    ensures exists k :: (0 <= k < |members|
      && judge(members[k]) == Err(Verdicts(members, judge).message)
      && forall j :: 0 <= j < k ==> judge(members[j]).Ok?)
  {
    var init := members[..|members| - 1];
    var last := |members| - 1;
    match Verdicts(init, judge)
    case Err(e) =>
      FirstErrorAborts(init, judge);
      var k :| 0 <= k < |init| && judge(init[k]) == Err(e)
        && forall j :: 0 <= j < k ==> judge(init[j]).Ok?;
      assert members[k] == init[k];
      forall j | 0 <= j < k ensures judge(members[j]).Ok? {
        assert members[j] == init[j];
      }
    case Ok(vs) =>
      VerdictsInOrder(init, judge);
      forall j | 0 <= j < last ensures judge(members[j]).Ok? {
        assert members[j] == init[j];
      }
  }

  /** Every verdict lands in exactly one of the two lists. */
  lemma {:induction false} EachVerdictListedOnce(vs: seq<Verdict>)
    ensures |ViolationsOf(vs)| + |VerificationsOf(vs)| == |vs|
    ensures ViolationsOf(vs) == [] <==> forall i :: 0 <= i < |vs| ==> vs[i].Verified?
  {
    if vs != [] {
      var init := vs[..|vs| - 1];
      EachVerdictListedOnce(init);
      if ViolationsOf(init) == [] && vs[|vs| - 1].Verified? {
        forall i | 0 <= i < |vs| ensures vs[i].Verified? {
          if i < |vs| - 1 { assert vs[i] == init[i]; }
        }
      }
      if ViolationsOf(init) != [] {
        var i :| 0 <= i < |init| && !init[i].Verified?;
        assert vs[i] == init[i];
      }
    }
  }

  /** The lists are built in verdict order: splitting the verdicts splits each list. */
  lemma {:induction false} ViolationsConcat(a: seq<Verdict>, b: seq<Verdict>)
    ensures ViolationsOf(a + b) == ViolationsOf(a) + ViolationsOf(b)
  {
    if b != [] {
      var init := b[..|b| - 1];
      var last := b[|b| - 1];
      ViolationsConcat(a, init);
      assert b == init + [last];
      assert a + b == (a + init) + [last];
      ListsStep(a + init, last);
      ListsStep(init, last);
    } else {
      assert a + b == a;
    }
  }

  lemma {:induction false} VerificationsConcat(a: seq<Verdict>, b: seq<Verdict>)
    ensures VerificationsOf(a + b) == VerificationsOf(a) + VerificationsOf(b)
  {
    if b != [] {
      var init := b[..|b| - 1];
      var last := b[|b| - 1];
      VerificationsConcat(a, init);
      assert b == init + [last];
      assert a + b == (a + init) + [last];
      ListsStep(a + init, last);
      ListsStep(init, last);
    } else {
      assert a + b == a;
    }
  }

  /** A violation is listed exactly when it is one of the verdicts; likewise a verification. */
  lemma {:induction false} ListsMembership(vs: seq<Verdict>)
    ensures forall x :: x in ViolationsOf(vs) <==> Violated(x) in vs
    ensures forall x :: x in VerificationsOf(vs) <==> Verified(x) in vs
  {
    if vs != [] {
      var init := vs[..|vs| - 1];
      var last := vs[|vs| - 1];
      ListsMembership(init);
      assert vs == init + [last];
      ListsStep(init, last);
    }
  }

  /** The run's shape: every member gives one entry, and the run passes iff no
      member is a violation. */
  lemma RunShape(expertTags: map<string, string>, up: Upstream, now: int)
    requires Evaluate(expertTags, up, now).Ok?
    ensures up.allData.Ok? && GetMembers(up.chat).Ok?
    ensures var p := Evaluate(expertTags, up, now).value;
      var members := GetMembers(up.chat).value;
      var registry := expertTags + ExpertEntries(up.allData.value);
      && |p.violations| + |p.verifications| == |members|
      && (p.success <==> forall i :: 0 <= i < |members| ==>
            Judge(members[i], registry, up, now).Ok? && Judge(members[i], registry, up, now).value.Verified?)
  {
    var members := GetMembers(up.chat).value;
    var registry := expertTags + ExpertEntries(up.allData.value);
    var judge := MemberJudgement(registry, up, now);
    VerdictsInOrder(members, judge);
    var vs := Verdicts(members, judge).value;
    EachVerdictListedOnce(vs);
  }

  /** An unresolved member: one reason, no account, and nothing else consulted. */
  lemma UnresolvedMember(username: string, registry: map<string, string>, up: Upstream, now: int,
                         personalToken: string -> Result<Option<Token>>,
                         transactions: (string, int) -> Result<seq<PaymentRecord>>)
    requires GetStellarByTelegram(username, up.users).Ok? && Falsy(GetStellarByTelegram(username, up.users).value)
    ensures Judge(username, registry, up, now) == Ok(Violated(Violation(username, None, [NoAccountReason])))
    ensures Judge(username, registry, up.(personalToken := personalToken, transactions := transactions), now)
         == Judge(username, registry, up, now)
  {
  }

  /** An expert: a verification with empty details, and no token or payment lookup. */
  lemma ExpertMember(username: string, registry: map<string, string>, up: Upstream, now: int,
                     personalToken: string -> Result<Option<Token>>,
                     transactions: (string, int) -> Result<seq<PaymentRecord>>)
    requires GetStellarByTelegram(username, up.users).Ok?
    requires var s := GetStellarByTelegram(username, up.users).value; !Falsy(s) && IsExpertIn(registry, s.value)
    ensures var account := GetStellarByTelegram(username, up.users).value.value;
      Judge(username, registry, up, now) == Ok(Verified(Verification(username, account, ExpertBasis, NoDetails)))
    ensures Judge(username, registry, up.(personalToken := personalToken, transactions := transactions), now)
         == Judge(username, registry, up, now)
  {
  }

  /** Neither expert nor token holder: a single reason. */
  lemma NoTokenMember(username: string, registry: map<string, string>, up: Upstream, now: int)
    requires GetStellarByTelegram(username, up.users).Ok?
    requires var s := GetStellarByTelegram(username, up.users).value; !Falsy(s) && !IsExpertIn(registry, s.value)
    requires up.personalToken(username) == Ok(None)
    ensures var account := GetStellarByTelegram(username, up.users).value.value;
      Judge(username, registry, up, now) == Ok(Violated(Violation(username, Some(account), [NoTagNoTokenReason])))
  {
  }

  /** The payment branch: the payments of the last 365 days are checked; a
      failure gives two reasons, the second telling no payment from too little;
      a success names the payer only when it is someone else. */
  lemma PaymentMember(username: string, registry: map<string, string>, up: Upstream, now: int)
    requires GetStellarByTelegram(username, up.users).Ok?
    requires var s := GetStellarByTelegram(username, up.users).value; !Falsy(s) && !IsExpertIn(registry, s.value)
    requires up.personalToken(username).Ok? && up.personalToken(username).value.Some?
    requires var account := GetStellarByTelegram(username, up.users).value.value;
      up.transactions(account, now - LookbackMs).Ok?
    ensures var account := GetStellarByTelegram(username, up.users).value.value;
      var token := up.personalToken(username).value.value;
      var txs := up.transactions(account, now - LookbackMs).value;
      var check := CheckTokenPayments(token, txs, now);
      var v := Judge(username, registry, up, now).value;
      && ((!check.success && forall tx :: tx in txs ==> !IsRelevant(tx, token)) ==>
            v == Violated(Violation(username, Some(account), [NoTagReason, NoPaymentsReason])))
      && ((!check.success && exists tx :: tx in txs && IsRelevant(tx, token)) ==>
            && check.amount.Some?
            && v == Violated(Violation(username, Some(account),
                                       [NoTagReason, InsufficientReason(check.amount.value, check.monthsCovered)]))
            && InsufficientReason(check.amount.value, check.monthsCovered) != NoPaymentsReason)
      && (check.success ==>
            && check.lastTransaction.Some?
            && var last := check.lastTransaction.value;
            v == Verified(Verification(username, account, TokenPaymentBasis,
                                       Details(Some(last.hash), Some(last.createdAt), check.amount, check.monthsCovered,
                                               if last.from != account then Some(last.from) else None))))
  {
    var account := GetStellarByTelegram(username, up.users).value.value;
    var token := up.personalToken(username).value.value;
    var txs := up.transactions(account, now - LookbackMs).value;
    NoRelevantPayments(token, txs, now);
    var check := CheckTokenPayments(token, txs, now);
    if check.amount.Some? {
      var rel := SortNewestFirst(Relevant(txs, token));
      assert check.amount.value == FormatAmount(SumAmounts(rel));
      assert InsufficientReason(check.amount.value, check.monthsCovered) != NoPaymentsReason by {
        assert InsufficientReason(check.amount.value, check.monthsCovered)[0] == 'I';
      }
    }
  }

  // ---------------------------------------------------------------------
  // The protocol object

  class DecentralizedManagementMembership {
    /** Slot name to registered account; filled by every run and never cleared. */
    var expertTags: map<string, string>

    constructor ()
      ensures expertTags == map[]
    {
      expertTags := map[];
    }

    /** `loadExpertTags`: records every expert slot of the association's data;
      an error from the ledger is passed on and nothing is recorded. */
    method LoadExpertTags(data: Result<map<string, string>>) returns (failure: Option<string>)
      modifies this
      ensures data.Err? ==> failure == Some(data.message) && expertTags == old(expertTags)
      ensures data.Ok? ==> failure == None && expertTags == old(expertTags) + ExpertEntries(data.value)
    {
      if data.Err? {
        return Some(data.message);
      }
      var entries := data.value;
      var remaining := entries.Keys;
      ghost var done: set<string> := {};
      while remaining != {}
        invariant remaining + done == entries.Keys && remaining !! done
        invariant forall k :: k in expertTags <==> k in old(expertTags) || (k in done && IsExpertSlot(k))
        invariant forall k :: k in expertTags ==>
          expertTags[k] == if k in done && IsExpertSlot(k) then entries[k] else old(expertTags)[k]
        decreases remaining
      {
        var key :| key in remaining;
        if IsExpertSlot(key) {
          expertTags := expertTags[key := entries[key]];
        }
        remaining := remaining - {key};
        done := done + {key};
      }
      assert done == entries.Keys;
      ghost var expected := old(expertTags) + ExpertEntries(entries);
      assert forall k :: k in expertTags <==> k in expected;
      assert expertTags == expected;
      return None;
    }

    /** `isExpert`: the account is the value of some slot. */
    function IsExpert(account: string): (b: bool)
      reads this
      ensures b <==> exists k :: k in expertTags && expertTags[k] == account
    {
      ExpertByValue(expertTags, account);
      IsExpertIn(expertTags, account)
    }

    /** The body of the member loop of `execute`: resolve the member's account,
        then accept an expert, or else check the personal token's payments. */
    method JudgeMember(username: string, up: Upstream, now: int) returns (v: Result<Verdict>)
      ensures v == Judge(username, expertTags, up, now)
    {
      var stellar := GetStellarByTelegram(username, up.users);
      if stellar.Err? {
        return Err(stellar.message);
      }
      if Falsy(stellar.value) {
        return Ok(Violated(Violation(username, None, [NoAccountReason])));
      }
      var account := stellar.value.value;
      if IsExpert(account) {
        return Ok(Verified(Verification(username, account, ExpertBasis, NoDetails)));
      }
      var token := up.personalToken(username);
      if token.Err? {
        return Err(token.message);
      }
      if token.value.None? {
        return Ok(Violated(Violation(username, Some(account), [NoTagNoTokenReason])));
      }
      var transactions := up.transactions(account, now - LookbackMs);
      if transactions.Err? {
        return Err(transactions.message);
      }
      var check := CheckTokenPayments(token.value.value, transactions.value, now);
      if !check.success {
        return Ok(Violated(Violation(username, Some(account), PaymentReasons(check))));
      }
      return Ok(Verified(Verification(username, account, TokenPaymentBasis, PaymentDetails(check, account))));
    }

    /** `execute`: load the expert slots, list the chat's members, and judge
        each member in order into violations or verifications. */
    method Execute(up: Upstream, now: int) returns (r: Result<ProtocolResult>)
      modifies this
      ensures up.allData.Ok? ==> expertTags == old(expertTags) + ExpertEntries(up.allData.value)
      ensures up.allData.Err? ==> expertTags == old(expertTags)
      ensures r == Evaluate(old(expertTags), up, now)
    {
      var failure := LoadExpertTags(up.allData);
      if failure.Some? {
        return Err(failure.value);
      }
      var listed := GetMembers(up.chat);
      if listed.Err? {
        return Err(listed.message);
      }
      var members := listed.value;
      ghost var registry := expertTags;
      ghost var judge := MemberJudgement(registry, up, now);
      assert Evaluate(old(expertTags), up, now) == Conclude(Verdicts(members, judge));
      var violations: seq<Violation> := [];
      var verifications: seq<Verification> := [];
      ghost var verdicts: seq<Verdict> := [];
      for i := 0 to |members|
        invariant expertTags == registry
        invariant Verdicts(members[..i], judge) == Ok(verdicts)
        invariant violations == ViolationsOf(verdicts)
        invariant verifications == VerificationsOf(verdicts)
      {
        var v := JudgeMember(members[i], up, now);
        assert judge(members[i]) == v;
        VerdictsStep(members, i, judge);
        if v.Err? {
          ErrorPersists(members, i + 1, judge);
          return Err(v.message);
        }
        ListsStep(verdicts, v.value);
        if v.value.Violated? {
          violations := violations + [v.value.violation];
        } else {
          verifications := verifications + [v.value.verification];
        }
        verdicts := verdicts + [v.value];
      }
      assert members[..|members|] == members;
      return Ok(Report(violations, verifications));
    }
  }
}
