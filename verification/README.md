# CashFlow2 controller core in Dafny

A model of three pure decision procedures inside the Express handlers of a
small-business cashflow backend, lifted out as total functions over an
in-memory list of transactions:

- **Chat fallback** (`chatWithBot`, `getEnhancedFallbackResponse`): the guard on
  the incoming message, then a first-match dispatch (modelled as an ordered
  table of rules and their keywords) of the lower-cased message
  over five keyword rules (balance, spend/expense, income/revenue,
  help/"what can you do", default), each producing a message, a fixed list of
  suggestions and a small insights record computed from the income and
  expense totals.
- **Cashflow status** (`getCashflowStatus`): expenses of the last 30 days give a
  daily burn rate (total / 30); the runway is `floor(balance / burn)` or the
  sentinel 999 when nothing is burnt; the runway is classified green (> 30
  days), yellow (> 14) or red.
- **Transaction creation** (`createTransaction`): validation of type, then
  amount, then description; the saved record with its defaults; the signed
  delta added to the owner's running balance. The ledger law — after any run
  of creates the balance has moved by exactly the signed sum of the accepted
  records — is proved as `TransactionController.LedgerLaw`.

Modules, one per file: `Wrappers` (Option, Result), `JsValues` (the JSON values
a request body can carry and JavaScript truthiness, so that guards such as
`!x || typeof x !== 'string'` are modelled branch for branch), `Text`
(lower-casing and `includes`), `Finance` (the transaction and user records and
the totals over them), and `ChatbotController`, `AnalyticsController`,
`TransactionController` for the three handlers.

Modelling choices: amounts are `real`; dates are integer day numbers and
"now" is a parameter (`today`); `new Date(date)` is a parameter
`toDay: JsValue -> int`; the user lookup is an `Option<User>` (a missing user
is `None`); the datastore is a sequence of records plus the user document.
Message text is modelled by the values it is rendered from (a `Message`
variant with currency, amounts and advice tier), not as literal text.

The 30-day window query has no upper bound, so expenses dated after today
also count toward the burn rate.

## Model

| member | source | states |
|---|---|---|
| Text.Lower | src/controllers/chatbotController.ts:83 | lower-casing keeps the length and maps every position through the ASCII small-letter mapping |
| Text.LowerDecidesCase | src/controllers/chatbotController.ts:83 | two messages have the same lower-cased form exactly when they differ only in ASCII letter case |
| Text.CaseChangesAreSameUpToCase | src/controllers/chatbotController.ts:83 | ASCII upper-casing or lower-casing a message changes only the ASCII letter case of its letters |
| Text.Contains | src/controllers/chatbotController.ts:98 | `includes` is true exactly when the keyword occurs at some position of the message |
| ChatbotController.CheckMessage | src/controllers/chatbotController.ts:11-13 | the message is accepted exactly when it is a non-empty string, otherwise the answer is "Message is required" |
| ChatbotController.Chat | src/controllers/chatbotController.ts:11-19 | a missing or non-string message is rejected (400) before anything else; a valid message for a missing user gives 404; otherwise the fallback reply to that message |
| ChatbotController.MentionsAny | src/controllers/chatbotController.ts:115 | a keyword list matches exactly when one of its keywords occurs in the message |
| ChatbotController.FirstMatch | src/controllers/chatbotController.ts:97-167 | first-match dispatch: the chosen entry matches and no earlier entry does; no entry is chosen only when none matches |
| ChatbotController.ChooseRule | src/controllers/chatbotController.ts:83-167 | the dispatch: the rule of the first table entry the lower-cased message matches, else the default rule; its keyword reading is stated by RuleByKeywords and its case-insensitivity by RuleIgnoresCase |
| ChatbotController.RuleByKeywords | src/controllers/chatbotController.ts:83-167 | balance is chosen iff "balance" occurs; spend iff "balance" is absent and "spend" or "expense" occurs; income iff those three are absent and "income" or "revenue" occurs; help iff all five are absent and "help" or "what can you do" occurs; default iff none of the nine keywords occurs |
| ChatbotController.RuleIgnoresCase | src/controllers/chatbotController.ts:83 | two messages that differ only in ASCII letter case are answered by the same rule |
| ChatbotController.RuleOfUpper | src/controllers/chatbotController.ts:83 | ASCII upper-casing a message never changes the rule that answers it |
| ChatbotController.RuleOfLower | src/controllers/chatbotController.ts:83 | lower-casing a message first never changes the rule that answers it |
| ChatbotController.BalanceWinsAnywhere | src/controllers/chatbotController.ts:98 | any text containing "balance", in any mix of letter case and whatever precedes or follows it, is answered by the balance rule |
| ChatbotController.AdviceFor | src/controllers/chatbotController.ts:100-103 | balance below 500 gives "review", above 5000 gives "healthy", from 500 to 5000 inclusive gives "monitor" |
| ChatbotController.FirstLargest | src/controllers/chatbotController.ts:116-118 | the first element of a stable descending sort by amount: absent iff the list is empty, an amount no other is above, and strictly above every earlier amount |
| ChatbotController.TopExpense | src/controllers/chatbotController.ts:116-118 | the top expense is absent exactly when there are no expenses; otherwise it is one of the expenses and no expense has a larger amount |
| ChatbotController.ReplyFor | src/controllers/chatbotController.ts:85-177 | each rule's reply carries that rule's message and suggestions: balance replies the currency, the balance (missing is 0), its advice tier and both totals; spend replies the currency, the expense total, the top expense and its description; income replies the currency, the income total and a net cashflow equal to the signed sum of the transactions; help replies the user's name and no insights; default replies the currency, the balance and the transaction count |
| ChatbotController.BalanceReply | src/controllers/chatbotController.ts:98-111 | the balance reply carries the currency, the balance with a missing one counted as 0, the advice tier for it, and both totals |
| ChatbotController.SpendingReply | src/controllers/chatbotController.ts:115-130 | the spending reply carries the currency, the expense total and the largest expense; the insights report the total and that expense's description, absent when there is no expense |
| ChatbotController.IncomeReply | src/controllers/chatbotController.ts:134-143 | the income reply carries the currency, the income total and a net cashflow equal to the signed sum of the transactions |
| ChatbotController.GeneralReply | src/controllers/chatbotController.ts:168-177 | the default reply carries the currency and balance and reports the number of transactions looked at |
| ChatbotController.CurrencyOf | src/controllers/chatbotController.ts:95 | the user's currency when set and non-empty, otherwise "$" |
| ChatbotController.NameOf | src/controllers/chatbotController.ts:149 | the user's name when set and non-empty, otherwise "there" |
| ChatbotController.SuggestionsFor | src/controllers/chatbotController.ts:105-175 | the fixed follow-up suggestions of each rule, verbatim |
| ChatbotController.StatusOf | src/controllers/chatbotController.ts:12-18 | a missing message answers 400, a missing user 404 |
| ChatbotController.FallbackReply | src/controllers/chatbotController.ts:82-178 | the reply is produced by the rule the message selects, and by no other |
| Finance.BalanceOf | src/controllers/chatbotController.ts:94 | the stored balance, or 0 when the user has none |
| Finance.OfKind | src/controllers/chatbotController.ts:86-92 | the filter keeps exactly the transactions of the given kind and never lengthens the list |
| Finance.OfKindCounts | src/controllers/chatbotController.ts:86-92 | the filter keeps each transaction of the given kind as many times as it occurs and drops every other |
| Finance.OfKindAppend | src/controllers/chatbotController.ts:86-92 | filtering by kind distributes over concatenation |
| Finance.OfKindOfOne | src/controllers/chatbotController.ts:87 | a single transaction is kept exactly when it has the kind, so with OfKindAppend the filter keeps every match once per occurrence, in order |
| Finance.SumAmountsAppend | src/controllers/chatbotController.ts:88 | the summed amount of a concatenation is the sum of the parts |
| Finance.SumAmounts | src/controllers/chatbotController.ts:88 | the `reduce` summing the amounts; its additivity is stated by SumAmountsAppend |
| Finance.Total | src/controllers/chatbotController.ts:86-92 | the totalIncome and totalExpenses every reply and the burn rate use; stated by TotalAppend, TotalPositive and NetIsSignedSum |
| Finance.SignedAmount | src/controllers/transactionController.ts:44 | `balanceChange`: plus the amount for income, minus it for an expense; stated by Create's balance ensures and NetIsSignedSum |
| Finance.TotalAppend | src/controllers/chatbotController.ts:86-92 | a kind's total over a concatenation is the sum of the totals of the parts |
| Finance.NetIsSignedSum | src/controllers/chatbotController.ts:142 | total income minus total expenses equals the sum of signed amounts the balance accumulates |
| Finance.TotalPositive | src/controllers/chatbotController.ts:86-92 | with positive amounts a kind's total is non-negative and positive exactly when a transaction of that kind is present |
| Finance.SignedSumAppend | src/controllers/transactionController.ts:44-49 | the signed sum of a concatenation is the sum of the parts |
| AnalyticsController.Recent | src/controllers/analyticsController.ts:18-25 | the window keeps exactly the transactions dated on or after 30 days before today |
| AnalyticsController.RecentCounts | src/controllers/analyticsController.ts:18-25 | the window keeps each transaction dated on or after 30 days before today as many times as it occurs and drops every other |
| AnalyticsController.RecentAppend | src/controllers/analyticsController.ts:22-25 | the window filter distributes over concatenation |
| AnalyticsController.RecentOfOne | src/controllers/analyticsController.ts:22-25 | a single transaction is kept exactly when it is dated inside the window, so with RecentAppend the window keeps every match once per occurrence, in order |
| AnalyticsController.BurnRate | src/controllers/analyticsController.ts:27-30 | the window's expense total over 30; its behaviour is stated by BurnRateOfOne, BurnRateAppend, BurnRateWithOneMore and BurnRateSign |
| AnalyticsController.StatusFor | src/controllers/analyticsController.ts:33-51 | the reported balance and burn, with 999 days and green when nothing burns, otherwise the floored runway, and the indicator classifying it |
| AnalyticsController.DaysRemaining | src/controllers/analyticsController.ts:33-36 | with positive burn the runway d satisfies d*burn <= balance < (d+1)*burn (the floor of balance/burn); otherwise it is 999 |
| AnalyticsController.FloorBounds | src/controllers/analyticsController.ts:35 | the floor of balance/burn, multiplied back by a positive burn, brackets the balance |
| AnalyticsController.Classify | src/controllers/analyticsController.ts:42-51 | green iff runway > 30, yellow iff 14 < runway <= 30, red iff runway <= 14 |
| AnalyticsController.CashflowStatusOf | src/controllers/analyticsController.ts:12-53 | a missing user is the only failure; otherwise the balance defaults to 0, burn times 30 is the window's expense total, no burn gives 999 days and green, positive burn gives the floored runway, and the indicator classifies the runway |
| AnalyticsController.BurnRateAppend | src/controllers/analyticsController.ts:27-30 | the burn rate is additive over concatenation of transaction lists |
| AnalyticsController.BurnRateOfOne | src/controllers/analyticsController.ts:27-30 | a single transaction burns amount/30 if it is an expense inside the window and nothing otherwise |
| AnalyticsController.BurnRateWithOneMore | src/controllers/analyticsController.ts:19-30 | inserting a transaction anywhere raises the burn rate by amount/30 when it is an expense in the window and leaves it unchanged otherwise, so income and older expenses never count |
| AnalyticsController.BurnRateSign | src/controllers/analyticsController.ts:28-30 | with positive amounts the burn rate is >= 0, and > 0 exactly when some expense falls inside the window |
| AnalyticsController.NoBurnIsGreen | src/controllers/analyticsController.ts:34-44 | no burn always yields green |
| AnalyticsController.OverdrawnIsRed | src/controllers/analyticsController.ts:34-51 | a negative balance with positive burn gives a negative runway and red |
| AnalyticsController.MoreBalanceNeverWorse | src/controllers/analyticsController.ts:34-51 | at the same positive burn a larger balance never gives a shorter runway or a worse indicator |
| TransactionController.ParseKind | src/controllers/transactionController.ts:15-17 | the type is accepted exactly when it is the string "income" or the string "expense" |
| TransactionController.Validate | src/controllers/transactionController.ts:15-24 | the request fails exactly when some check fails, with the first failing check in the order type, amount, description; on success the amount is a positive number and the description a non-empty string, both taken unchanged |
| TransactionController.BuildRecord | src/controllers/transactionController.ts:27-39 | the record keeps type, amount, description and category; date is the given date when truthy, else today; tags are the given tags when truthy, else []; source is "manual" |
| TransactionController.ApplyDelta | src/controllers/transactionController.ts:44-49 | the increment raises the balance (missing counts as 0) by the delta and leaves the user's other fields alone |
| TransactionController.Create | src/controllers/transactionController.ts:12-59 | a rejected request changes nothing; an accepted one appends exactly the built record and, for an existing user, moves the balance by its signed amount and answers with the new balance; for a missing user the record stays saved and the answer is "user not found" |
| TransactionController.StatusOf | src/controllers/transactionController.ts:16-55 | a created transaction answers 201, a rejected request 400, a missing user 404 |
| TransactionController.ErrorText | src/controllers/transactionController.ts:16-23 | the error text of each failed check, verbatim |
| TransactionController.LedgerLaw | src/controllers/transactionController.ts:41-49 | over any run of creates for an existing user the records grow by exactly the accepted ones, in order, and the balance equals the initial balance plus their signed sum |
| TransactionController.BalanceStaysConsistent | src/controllers/transactionController.ts:41-49 | a balance equal to income minus expenses over the stored records stays equal after any run of creates |
| TransactionController.AcceptedArePositive | src/controllers/transactionController.ts:18-20 | every record the creates store has a positive amount |

## Left out

- The remote AI chat call, its 15 second timeout and the `aiAvailable` flag (src/controllers/chatbotController.ts:47-59): network I/O; `ChatbotController.Chat` models the path where the call fails and the fallback answers.
- Loading the user and the ten most recent transactions (`findById`, `find().sort().limit(10)`), `save` and `findByIdAndUpdate`: database access; the transactions are a parameter, the user an `Option<User>`, and the `$inc` is treated as atomic.
- The 500 responses from the outer `catch` blocks: they fire only when the database or the runtime throws.
- TransactionController.LedgerLaw: it and `BalanceStaysConsistent` hold only for runs in which neither database call fails. The source saves the record (src/controllers/transactionController.ts:41) before the `$inc` (lines 45-49); if `findByIdAndUpdate` throws (a database error, or a stored `currentBalance: null`, which Mongo refuses to increment) the answer is 500 with the record saved and the balance unmoved, and from then on income minus expenses no longer equals the balance. `User.currentBalance == None` stands for a missing field, not for a stored null.
- Exact reply text, `toFixed(2)` and the `Math.round(x * 100) / 100` display rounding of the burn rate: float formatting; the model returns the values the text is rendered from and the unrounded burn rate.
- Floating-point arithmetic: amounts are exact reals, so sums never round.
- Infinite amounts: a numeric literal too large for a double (such as `1e999`) parses to `Infinity`, which passes the amount guard (a number, not NaN, above 0) and would be saved and added to the balance; `JsValue` has no infinite numbers, so the model does not represent this case.
- `toLowerCase` beyond ASCII: only A-Z are lower-cased; the keywords are all ASCII, so no other character lower-cases into one and the rule chosen is unaffected.
- ChatbotController.RuleIgnoresCase: the invariance (and `RuleOfUpper`, `LowerDecidesCase`, `CaseChangesAreSameUpToCase`) is proved for ASCII letter case only. Under full Unicode case mapping it fails: `"ſpend".toUpperCase()` is `"SPEND"` and `"ıncome".toUpperCase()` is `"INCOME"`, yet "ſpend" and "ıncome" lower-case to themselves and contain no keyword, so they get the default rule while their upper-cased forms get the spend and income rules.
- JavaScript `Date`, time of day and time zones: dates are whole day numbers, so the 30-day window compares days, not instants; parsing `new Date(date)` is the parameter `toDay`, and an invalid date is not modelled.
- The `name`, `currency` and `businessSetup` context sent to the AI service, and `conversationHistory`: only used by the remote call.
- `getChatHistory` (src/controllers/chatbotController.ts:180-193): it returns a constant.
- src/models/ChatMessage.ts, src/routes/\* and src/utils/aiHelpers.ts: a schema, routing tables and a wrapper around a remote model; the income/expense totals the wrapper computes are `Finance.Total`.
- The update, delete, listing and statistics handlers named in src/routes/transactionRoutes.ts, the transaction and user schemas, and the recurring-bill and health-score engine: their source is not part of this model.
- ChatbotController.TopExpense: states membership and maximality over the transactions; the earliest-among-equals tie-break of the stable sort is stated by `ChatbotController.FirstLargest` over the filtered list, not restated here.
