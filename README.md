# Membership compliance engine and instruction checks, in Dafny

This project models the decision logic of a small association-governance
toolkit built on the Stellar ledger.

- **The decentralized-management membership protocol.** Every member of the
  association's management chat must either be registered as an expert, or
  have paid enough of their personal token to the association. An expert is
  an account that appears as the value of an `Expert<digits>` entry in the
  association account's data. Enough payment means the total covers, at
  4 tokens per 30-day month, the whole months elapsed since the member's last
  payment. The protocol is a class with an expert registry (`expertTags`) that
  each run extends. Its `execute` walks the member list in order and sorts
  each member into an ordered violations list or an ordered verifications list.
- **The three instruction checks.**
  - `check-tx`: some payment of the account matches an asset, a direction and
    a counterparty.
  - `check-tag`: two accounts name each other in their key/value data.
  - `check-token`: a balance is at least, at most, or exactly an amount.
- **The helpers they rest on.**
  - The required-parameter validation shared by all instructions.
  - The ledger balance lookup.
  - The Users-table lookup of a member's account by Telegram handle.
  - The management-chat member listing.

Every collaborator that talks to the network is an input whose answer is
`Ok(answer)` or `Err(message)`. Most are function-typed, because they are asked
about different accounts or names:

- the ledger's transaction, balance and data-value queries;
- the Users table;
- the chat directory;
- the personal-token lookup.

The association account's data (`getAllData`) is a plain `Result` value, because
it is only ever asked about that one fixed account.

`Err(message)` stands for an `Error` being thrown. The current time `now` and
all timestamps are integers (milliseconds). Token amounts on payments are
natural numbers of stroops (10^7 per token), so all sums are exact.

Modules:

| module | file | models |
|---|---|---|
| `Common` | common.dfy | `Option`/`Result`, JS falsiness, first-match search, decimal digit text |
| `Amounts` | amounts.dfy | stroop amounts as decimal text, and the reading of decimal text as a number |
| `Instruction` | instruction.dfy | `InstructionResult`, `validateParams` |
| `Stellar` | stellar.dfy | balance and payment records, `getBalance` |
| `CheckTx`, `CheckTag`, `CheckToken` | check_tx.dfy, check_tag.dfy, check_token.dfy | the three instructions |
| `Users` | users.dfy | `formatUsername`, `getStellarByTelegram` |
| `TelegramManagement` | telegram_management.dfy | `getMembers` |
| `Membership` | membership.dfy | the protocol: registry, payment coverage, per-member verdicts, the class |

Points where the model follows the code closely because its behaviour is easy to misread:

- **Registry is not fresh per run.** The expert registry is a field that every
  run adds to and that is never cleared. `LoadExpertTags` and `Execute`
  therefore state the new registry as the old one overridden by this run's
  slots, not as this run's slots alone.
- **check-tx issuer is optional.** The issuer filter is only applied when the
  issuer parameter is truthy, so a missing or empty issuer matches any issuer.
- **Unresolved member's reason.** The text is "No Stellar account found". Any
  falsy account, the empty text included, is treated as unresolved.

## Model

| member | source | states |
|---|---|---|
| Instruction.FirstMissing | src/core/instruction.ts:23-30 | no index iff every required name is present; otherwise the index of a missing name with all earlier names present |
| Instruction.ValidationError | src/core/instruction.ts:23-30 | `None` iff every required name is present; otherwise "Missing required parameter: <n>" for the first missing name n in list order |
| Instruction.ValidateParams | src/core/instruction.ts:23-30 | the loop with early return yields None iff all required names are present, else the message for the first missing one; equals `ValidationError` |
| Instruction.PresentEmptyValuePasses | src/core/instruction.ts:25 | only an absent parameter is missing; a present empty value passes |
| Stellar.SelectAsset | src/services/stellar.ts:41-45 | "XLM" selects native whatever the issuer; otherwise a given issuer (even empty) selects code and issuer, no issuer selects the code alone |
| Stellar.GetBalance | src/services/stellar.ts:39-65 | a lookup error passes through; a result is the balance of the first matching entry in list order; "Asset <code> not found for account <id>" exactly when nothing matches |
| Stellar.BalanceMatches | src/services/stellar.ts:47-58 | no asset selected: the code alone decides; native: only a native balance; otherwise code and issuer both |
| Stellar.NativeIgnoresIssuer | src/services/stellar.ts:41-42 | for "XLM" the issuer argument changes nothing and only a native balance is returned |
| Stellar.IssuerDecidesBetweenSameCode | src/services/stellar.ts:43-57 | with an issuer, a same-code balance of another issuer is skipped; without one, the first same-code balance is taken |
| CheckTx.AssetMatches | src/instructions/check-tx.ts:37-39 | a native payment matches only the asset "XLM"; any other payment needs the asset's code and, for a truthy issuer, that issuer |
| CheckTx.DirectionMatches | src/instructions/check-tx.ts:43-51 | "in": paid to the account, by the counterparty if one is truthy; "out": paid by the account, to the counterparty if truthy; otherwise a truthy counterparty must be at either end |
| CheckTx.TxMatches | src/instructions/check-tx.ts:36-52 | a payment is found when both its asset and its direction match |
| CheckTx.Details | src/instructions/check-tx.ts:69-76 | details hold exactly the defined ones of account, asset, issuer, direction, since, counterparty, with their values |
| CheckTx.Execute | src/instructions/check-tx.ts:23-87 | missing parameter: failure with the validation message and no query; otherwise exactly one query (account, since); a query error gives its message; else success iff some payment matches, message "Transaction found"/"No matching transaction found", and the details |
| CheckTx.UndirectedIgnoresSwap | src/instructions/check-tx.ts:51 | without direction and counterparty, swapping a payment's ends does not change the match |
| CheckTx.DirectedSeesSwap | src/instructions/check-tx.ts:43-49 | a payment that matches "in" or "out" fails that direction once its (distinct) ends are swapped |
| CheckTx.InOutDuality | src/instructions/check-tx.ts:43-49 | for non-empty A and B, "in" for A from B holds iff "out" for B to A holds |
| CheckTx.EmptyFiltersAreAbsent | src/instructions/check-tx.ts:39-51 | an empty issuer filters nothing, as an absent one, whatever the counterparty; an empty counterparty filters nothing, whatever the issuer; and both empty is both absent |
| CheckTx.EmptyParamsNameAccount | src/instructions/check-tx.ts:17-30 | with no parameters the failure names "account" and no query is made |
| CheckTag.Execute | src/instructions/check-tag.ts:20-83 | missing parameter: failure and no lookup; at most two lookups, the first on (account, key) and the second exactly when the first answer is truthy, on (that answer, `pairKey ?? key`); success iff validation passes and the accounts are `Paired`; each branch's message and details: a lookup error's own message with no details, the "no tag" message with account and key, the "pair has no tag" message with the pair details, and the passed / not-paired message with the pair details |
| CheckTag.SecondLookupUsesPairKey | src/instructions/check-tag.ts:41-42 | with a pair key, a truthy first answer is followed by exactly one lookup on (that answer, pair key) |
| CheckTag.PairKeyExample | src/tests/instructions/check-tag.test.ts:71-83 | with pairKey "key2" and first answer "account2", ("account2", "key2") is looked up |
| CheckTag.PairingIsMutual | src/instructions/check-tag.ts:32-52 | a passing check from A with keys (k, p) implies a passing check from A's pair with keys (p, k) |
| CheckTag.SecondLookupUsesKey | src/instructions/check-tag.ts:41-42 | for any account and key, without a pair key a second lookup happens iff the first answer is truthy, and it reuses `key` |
| CheckToken.CompareAmount | src/instructions/check-token.ts:22-31 | true only when both texts are numbers; then "lte" is <=, "eq" is ==, and any other mode or none is >= |
| CheckToken.UnknownModeIsGte | src/instructions/check-token.ts:30 | an unknown mode behaves as no mode |
| CheckToken.ModesAgree | src/instructions/check-token.ts:26-31 | between numbers, "eq" holds iff both "gte" and "lte" hold, and one of those always holds |
| CheckToken.LedgerAmountsCompareByValue | src/instructions/check-token.ts:22-27 | a ledger balance text meets a whole-token requirement iff its stroops reach it |
| CheckToken.Execute | src/instructions/check-token.ts:34-78 | validation failure gives its message; a balance error passes its message; else success equals the comparison, message "Token check passed" or the balance and asset, details exactly account, asset, balance, required |
| Amounts.ParseFormatAmount | src/protocols/montelibero/management.ts:99-100 | reading the text of a stroop total back as a number gives exactly stroops / 10^7 |
| Amounts.ParseNatText | src/instructions/check-token.ts:23-24 | a whole-number text such as a required amount reads as that number |
| Users.FormatUsername | src/operatives/grist/users.ts:12-14 | result starts with '@', ends with the input, and is one longer exactly when the input lacked '@' |
| Users.FormatUsernameIdempotent | src/operatives/grist/users.ts:12-14 | formatting twice is formatting once |
| Users.FormatUsernameIgnoresAt | src/operatives/grist/users.ts:12-14 | a handle and the handle with '@' format alike |
| Users.LookupFilter | src/operatives/grist/users.ts:18-21 | the filter has the single column Telegram with the formatted handle |
| Users.GetStellarByTelegram | src/operatives/grist/users.ts:16-32 | table errors pass through unchanged; null iff no row; else the first row's Stellar cell |
| Users.AtPrefixIsOptional | src/operatives/grist/users.ts:18-27 | 'u' and '@u' send the same filter and get the same answer; "test" sends {Telegram: ["@test"]} |
| TelegramManagement.GetMembers | src/operatives/telegram/management.ts:6-20 | directory errors pass through; otherwise one entry per member in order, the username if present, else "id:" and the id |
| TelegramManagement.IdEntryRoundTrip | src/operatives/telegram/management.ts:15 | a fallback entry reads back to the member's id |
| TelegramManagement.OnlyManagementChatIsQueried | src/operatives/telegram/management.ts:6-14 | only chat -1001798357244 is consulted |
| TelegramManagement.ExampleMembers | src/operatives/telegram/management.ts:15 | user1, user2 and a member with id 3 and no username give ["user1", "user2", "id:3"] |
| Membership.ExpertEntries | src/protocols/montelibero/management.ts:57-63 | exactly the keys matching `^Expert\d+$`, with their values unchanged |
| Membership.SlotNamesAreExpertPlusNumber | src/protocols/montelibero/management.ts:57 | "Expert" followed by any number's digits is a slot |
| Membership.NotSlots | src/protocols/montelibero/management.ts:57 | "Expert", "expert1" and "Expert1a" are not slots |
| Membership.ExpertByValue | src/protocols/montelibero/management.ts:72-74 | an account is an expert iff it is the value of some registry entry |
| Membership.RegistryExample | src/protocols/montelibero/management.ts:57-74 | from {Expert1: A, Expert2: B, Name: C}: A and B are experts, C and the slot name "Expert1" are not |
| Membership.DecentralizedManagementMembership.LoadExpertTags | src/protocols/montelibero/management.ts:54-70 | the loop adds every slot of the data to the registry, overriding earlier values and keeping other entries; a data error is passed on and changes nothing |
| Membership.DecentralizedManagementMembership.IsExpert | src/protocols/montelibero/management.ts:72-74 | true iff some registry entry's value is the account |
| Membership.Relevant | src/protocols/montelibero/management.ts:86-91 | a payment is kept iff its code and issuer are the token's and it is paid to the association account |
| Membership.RelevantConcat | src/protocols/montelibero/management.ts:86-91 | the filter distributes over concatenation and keeps a single payment exactly when it is relevant, so the kept payments stay in input order |
| Membership.RelevantKeepsCopies | src/protocols/montelibero/management.ts:86-91 | every copy of a relevant payment is kept and no copy of an irrelevant one |
| Membership.SortNewestFirst | src/protocols/montelibero/management.ts:92 | sorting keeps the number of payments (order and permutation in `SortOrders`, `SortPermutes`) |
| Membership.CheckTokenPayments | src/protocols/montelibero/management.ts:76-117 | the amount is absent iff no payment is relevant; amount, months covered and last transaction are present or absent together; success only with an amount |
| Membership.InsertKeepsOrder | src/protocols/montelibero/management.ts:92 | inserting into a newest-first list keeps it newest-first |
| Membership.InsertAddsOne | src/protocols/montelibero/management.ts:92 | insertion adds exactly the one payment and loses none |
| Membership.SortOrders | src/protocols/montelibero/management.ts:92 | the sorted payments are newest-first |
| Membership.SortPermutes | src/protocols/montelibero/management.ts:92 | the sorted payments are a permutation of the input |
| Membership.SumSort | src/protocols/montelibero/management.ts:92-99 | sorting does not change the total |
| Membership.SortHead | src/protocols/montelibero/management.ts:92-101 | the first sorted payment is the first newest payment in input order |
| Membership.NoRelevantPayments | src/protocols/montelibero/management.ts:94-96 | the check is `{success: false}` with nothing else iff no payment is relevant |
| Membership.CoverageDecision | src/protocols/montelibero/management.ts:99-116 | with relevant payments: amount is the total's text, months covered is floor(total / 4 tokens), the last transaction is the first newest relevant payment, and success iff months covered >= whole 30-day months since it |
| Membership.MonthsCoveredFromText | src/protocols/montelibero/management.ts:100 | `floor(Number(total text) / 4)` equals the exact whole-month count |
| Membership.AllRelevantKept | src/protocols/montelibero/management.ts:86-91 | a list of relevant payments is kept whole |
| Membership.RecentPaymentsPass | src/protocols/montelibero/management.ts:99-105 | relevant payments all under a month old always pass, whatever their total |
| Membership.SumOfEqualAmounts | src/protocols/montelibero/management.ts:99 | n payments of one amount total n times that amount |
| Membership.ThreeRecentPayments | src/protocols/montelibero/management.ts:99-105 | three 2-token payments within ten days give amount 6 tokens, one month covered, success |
| Membership.Judge | src/protocols/montelibero/management.ts:129-196 | a Users-table error, and for a resolved non-expert a personal-token error or (with a token) a transactions error, is Judge's error with that message, never a violation; a verdict needs a resolved lookup and carries the member's username; a violation has one or two reasons, no stellar field exactly for "No Stellar account found", and a stellar field only for a non-expert; a verification has the looked-up account, with basis expert iff that account is an expert |
| Membership.Verdicts | src/protocols/montelibero/management.ts:126-196 | a completed loop has one verdict per member |
| Membership.ViolationsOf | src/protocols/montelibero/management.ts:121-196 | no more violations than verdicts |
| Membership.VerificationsOf | src/protocols/montelibero/management.ts:121-196 | no more verifications than verdicts |
| Membership.ViolationsConcat | src/protocols/montelibero/management.ts:121-196 | violations are listed in verdict order: the violations of a concatenation are the concatenated violations |
| Membership.VerificationsConcat | src/protocols/montelibero/management.ts:121-196 | verifications are listed in verdict order: the verifications of a concatenation are the concatenated verifications |
| Membership.ListsMembership | src/protocols/montelibero/management.ts:121-196 | a violation is listed iff it is one of the verdicts, and likewise a verification |
| Membership.Evaluate | src/protocols/montelibero/management.ts:119-210 | a data error or a member-list error is the run's error; a completed run passes iff it has no violations |
| Membership.Report | src/protocols/montelibero/management.ts:201-206 | success iff there are no violations; both lists are reported unchanged |
| Membership.ErrorPersists | src/protocols/montelibero/management.ts:119-210 | once a member's check throws, the whole run fails with that error |
| Membership.VerdictsInOrder | src/protocols/montelibero/management.ts:126 | one verdict per member, in member order, each that member's own |
| Membership.FirstErrorAborts | src/protocols/montelibero/management.ts:126-210 | a failed run carries the error of the first member whose check throws |
| Membership.EachVerdictListedOnce | src/protocols/montelibero/management.ts:123-196 | every verdict lands in exactly one of the two lists; there are no violations iff every verdict is a verification |
| Membership.RunShape | src/protocols/montelibero/management.ts:119-207 | after a run, violations plus verifications count the members, and success iff every member is verified |
| Membership.UnresolvedMember | src/protocols/montelibero/management.ts:129-136 | no account: reason ["No Stellar account found"], no stellar field, and neither the token nor the payments are consulted |
| Membership.ExpertMember | src/protocols/montelibero/management.ts:139-152 | an expert is verified with basis expert and empty details, without a token or payment lookup |
| Membership.NoTokenMember | src/protocols/montelibero/management.ts:155-163 | no token: the single reason "No expert tag and no personal token found" |
| Membership.PaymentMember | src/protocols/montelibero/management.ts:165-196 | the whole verdict: failed check gives a violation with the username, the account, and reasons "No expert tag found" then "No token payments found in last year" exactly when none is relevant, else the insufficient-payments text for the amount and months; a passed check gives a token-payment verification with the username, the account, the last hash and date, amount, months, and paymentFrom set iff the payer is another account |
| Membership.DecentralizedManagementMembership.JudgeMember | src/protocols/montelibero/management.ts:129-196 | the loop body's early-exit chain yields exactly the member's verdict or error |
| Membership.DecentralizedManagementMembership.Execute | src/protocols/montelibero/management.ts:119-211 | the registry grows by this run's slots; the result equals `Evaluate`: load errors, member-list errors and the first member error pass through, otherwise the report of the verdicts in member order |

## Left out

- **Network I/O.** HTTP and transport are outside the model: the Grist service,
  the Telegram members service, and Horizon's `loadAccount` with the server
  setup. Their answers are inputs. `getAccountBalances`' rewording of errors
  as "Stellar error: …" belongs to that input.
- **Functions defined outside the model.** `getTransactions`, `getAllData`,
  `getDataValue`, `getPersonalToken` and their pagination are not part of this
  model; each is an input. `sumPayments` is not part of this model either: it
  is taken as the exact sum, and its text as `Amounts.FormatAmount` (the whole
  part, a point, seven fraction digits). That text format is an assumption: six
  tokens read "6.0000000", not "6". A plain-number format would change only two
  texts, the `tokensAmount` detail of a verification and the amount in the
  "Insufficient token payments: … tokens" reason. Months covered and the
  pass/fail decision read the text back as a number
  (`Membership.MonthsCoveredFromText`), so they would not change.
- **Thrown values that are not `Error`s.** The instructions rethrow such values
  instead of reporting them. Every failure here is an `Error` with a message.
- CheckToken.CompareAmount: reads numbers as `[-]digits[.digits]`. This is
  stricter than `parseFloat`, which also accepts a numeric prefix, exponents
  and "Infinity". Text outside that form counts as NaN, and the comparison of
  reals is exact rather than binary floating point.
- Stellar.GetBalance: the SDK's validation of the asset code and issuer in
  `new Asset(code, issuer)` is not modelled. An invalid code or issuer would
  throw there.
- **Clock and dates.** The model takes one clock reading per run: the input `now` is shared by
  every member's checks, including the look-back date for transactions and both
  `Date.now()` calls in `checkTokenPayments`, which the code makes separately
  for each member. Dates are integers of milliseconds,
  so `new Date(since)` parsing is not modelled: check-tx passes `since` on
  unchanged as text. The verification's `date` detail is the payment's
  timestamp in milliseconds, not the ledger's text.
- TelegramManagement.GetMembers: ids are written as integer digits. JS number
  formatting of very large ids (exponent notation) is not modelled.
- **Regular expression.** The slot test `^Expert\d+$` is an explicit predicate
  over ASCII digits.
- **Side effects.** Logging, the `cli` entry points, console output,
  `process.exit`, and the commander wiring are left out.
- **Async.** `await` is modelled as an ordinary call, because the code runs
  its steps one at a time.
- **Registry order.** The iteration order of `Object.entries` and of the
  registry map does not affect any result, so the registry is a map.
