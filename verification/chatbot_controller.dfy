/**
 * The chat endpoint's message guard and its rule-based fallback reply
 * (`chatWithBot` and `getEnhancedFallbackResponse`): the message is
 * lower-cased and sent to the first of five keyword rules that matches.
 */
module ChatbotController {
  import opened Wrappers
  import opened JsValues
  import opened Text
  import opened Finance

  /** The five rules, in the order they are tried. */
  datatype Rule = BalanceInquiry | SpendingInquiry | IncomeInquiry | HelpRequest | DefaultReply

  /** The advice sentence appended to a balance reply. */
  datatype Advice = ReviewExpenses | LooksHealthy | KeepMonitoring

  /** The reply text, as the values it is rendered from. */
  datatype Message =
    | BalanceMessage(currency: string, balance: real, advice: Advice)
    | SpendingMessage(currency: string, spent: real, largest: Option<Transaction>)
    | IncomeMessage(currency: string, income: real, net: real)
    | HelpMessage(name: string)
    | DefaultMessage(currency: string, balance: real)

  datatype Insights =
    | BalanceInsights(balance: real, totalIncome: real, totalExpenses: real)
    | SpendingInsights(totalExpenses: real, topExpense: Option<string>)
    | IncomeInsights(totalIncome: real, netCashflow: real)
    | NoInsights
    | DefaultInsights(balance: real, transactionCount: nat)

  datatype Reply = Reply(message: Message, suggestions: seq<string>, insights: Insights)

  datatype ChatError = MessageRequired | UserNotFound

  /** Keyword `w` occurs in the already lower-cased message `m`. */
  ghost predicate Mentions(m: string, w: string) {
    exists i :: OccursAt(m, w, i)
  }

  /** A rule and the keywords that select it. */
  datatype Entry = Entry(rule: Rule, keywords: seq<string>)

  /** The dispatch table in priority order; a message matching no entry gets the default reply. */
  const Table: seq<Entry> := [
    Entry(BalanceInquiry, ["balance"]),
    Entry(SpendingInquiry, ["spend", "expense"]),
    Entry(IncomeInquiry, ["income", "revenue"]),
    Entry(HelpRequest, ["help", "what can you do"])]

  /** Some keyword of `ws` occurs in `m`. */
  function MentionsAny(m: string, ws: seq<string>): (b: bool)
    ensures b <==> exists k :: 0 <= k < |ws| && Mentions(m, ws[k])
  {
    if |ws| == 0 then false
    else
      var rest := MentionsAny(m, ws[1..]);
      assert rest <==> exists k :: 1 <= k < |ws| && Mentions(m, ws[k]) by {
        if rest {
          var k :| 0 <= k < |ws[1..]| && Mentions(m, ws[1..][k]);
          assert ws[1..][k] == ws[k + 1];
        }
        if exists k :: 1 <= k < |ws| && Mentions(m, ws[k]) {
          var k :| 1 <= k < |ws| && Mentions(m, ws[k]);
          assert ws[1..][k - 1] == ws[k];
        }
      }
      Contains(m, ws[0]) || rest
  }

  /** The position of the first entry of `table` whose keywords `m` mentions, if any. */
  function FirstMatch(m: string, table: seq<Entry>): (r: Option<nat>)
    ensures r.Some? ==> r.value < |table| && MentionsAny(m, table[r.value].keywords)
    ensures r.Some? ==> forall j :: 0 <= j < r.value ==> !MentionsAny(m, table[j].keywords)
    ensures r.None? ==> forall j :: 0 <= j < |table| ==> !MentionsAny(m, table[j].keywords)
  {
    if |table| == 0 then None
    else if MentionsAny(m, table[0].keywords) then Some(0)
    else
      match FirstMatch(m, table[1..])
      case None => None
      case Some(k) => Some(k + 1)
  }

  /** The rule that answers `message`: the first table entry the lower-cased message matches. */
  function ChooseRule(message: string): Rule {
    match FirstMatch(Lower(message), Table)
    case None => DefaultReply
    case Some(k) => Table[k].rule
  }

  lemma MentionsOne(m: string, a: string)
    ensures MentionsAny(m, [a]) <==> Mentions(m, a)
  {
    assert [a][0] == a;
  }

  lemma MentionsTwo(m: string, a: string, b: string)
    ensures MentionsAny(m, [a, b]) <==> Mentions(m, a) || Mentions(m, b)
  {
    assert [a, b][0] == a && [a, b][1] == b;
  }

  /**
   * The keyword reading of the dispatch, in priority order: each rule is
   * chosen exactly when one of its keywords occurs in the lower-cased message
   * and no keyword of an earlier rule does.
   */
  lemma RuleByKeywords(message: string)
    ensures var m := Lower(message); var r := ChooseRule(message);
      && (r == BalanceInquiry <==> Mentions(m, "balance"))
      && (r == SpendingInquiry <==>
            !Mentions(m, "balance") && (Mentions(m, "spend") || Mentions(m, "expense")))
      && (r == IncomeInquiry <==>
            !Mentions(m, "balance") && !Mentions(m, "spend") && !Mentions(m, "expense")
            && (Mentions(m, "income") || Mentions(m, "revenue")))
      && (r == HelpRequest <==>
            !Mentions(m, "balance") && !Mentions(m, "spend") && !Mentions(m, "expense")
            && !Mentions(m, "income") && !Mentions(m, "revenue")
            && (Mentions(m, "help") || Mentions(m, "what can you do")))
      && (r == DefaultReply <==>
            !Mentions(m, "balance") && !Mentions(m, "spend") && !Mentions(m, "expense")
            && !Mentions(m, "income") && !Mentions(m, "revenue")
            && !Mentions(m, "help") && !Mentions(m, "what can you do"))
  {
    var m := Lower(message);
    MentionsOne(m, "balance");
    MentionsTwo(m, "spend", "expense");
    MentionsTwo(m, "income", "revenue");
    MentionsTwo(m, "help", "what can you do");
    var b := MentionsAny(m, Table[0].keywords);
    var s := MentionsAny(m, Table[1].keywords);
    var i := MentionsAny(m, Table[2].keywords);
    var h := MentionsAny(m, Table[3].keywords);
    match FirstMatch(m, Table)
    case None =>
      assert !b && !s && !i && !h;
    case Some(k) =>
      if k == 0 {
        assert b;
      } else if k == 1 {
        assert !b && s;
      } else if k == 2 {
        assert !b && !s && i;
      } else {
        assert k == 3;
        assert !b && !s && !i && h;
      }
  }

  /** The rule depends only on the message up to the case of its letters. */
  lemma RuleIgnoresCase(a: string, b: string)
    requires SameUpToCase(a, b)
    ensures ChooseRule(a) == ChooseRule(b)
  {
    LowerDecidesCase(a, b);
  }

  /** Shouting a question selects the same rule as asking it normally. */
  lemma RuleOfUpper(message: string)
    ensures ChooseRule(Upper(message)) == ChooseRule(message)
  {
    CaseChangesAreSameUpToCase(message);
    RuleIgnoresCase(message, Upper(message));
  }

  /** Lower-casing a question first does not change the rule either. */
  lemma RuleOfLower(message: string)
    ensures ChooseRule(Lower(message)) == ChooseRule(message)
  {
    CaseChangesAreSameUpToCase(message);
    RuleIgnoresCase(message, Lower(message));
  }

  /** The advice tier for a balance: below 500 review, above 5000 healthy, otherwise monitor. */
  function AdviceFor(balance: real): (a: Advice)
    ensures a == ReviewExpenses <==> balance < 500.0
    ensures a == LooksHealthy <==> balance > 5000.0
    ensures a == KeepMonitoring <==> 500.0 <= balance <= 5000.0
  {
    if balance < 500.0 then ReviewExpenses
    else if balance > 5000.0 then LooksHealthy
    else KeepMonitoring
  }

  /**
   * The position, within `es`, of the largest amount, the earliest one among
   * equals: what a stable descending sort puts first.
   */
  function FirstLargest(es: seq<Transaction>): (r: Option<nat>)
    ensures r.None? <==> |es| == 0
    ensures r.Some? ==> r.value < |es|
    ensures r.Some? ==> forall j :: 0 <= j < |es| ==> es[j].amount <= es[r.value].amount
    ensures r.Some? ==> forall j :: 0 <= j < r.value ==> es[j].amount < es[r.value].amount
  {
    if |es| == 0 then None
    else
      match FirstLargest(es[1..])
      case None => Some(0)
      case Some(k) =>
        assert es[1..][k] == es[k + 1];
        if es[0].amount >= es[k + 1].amount then Some(0) else Some(k + 1)
  }

  /** The expense with the largest amount (`sort((a, b) => b.amount - a.amount)[0]`), if any. */
  function TopExpense(ts: seq<Transaction>): (r: Option<Transaction>)
    ensures r.None? <==> forall t :: t in ts ==> t.kind != Expense
    ensures r.Some? ==> r.value in ts && r.value.kind == Expense
    ensures r.Some? ==> forall t :: t in ts && t.kind == Expense ==> t.amount <= r.value.amount
  {
    var es := OfKind(ts, Expense);
    match FirstLargest(es)
    case None => None
    case Some(i) =>
      assert forall t :: t in es ==> t.amount <= es[i].amount by {
        forall t | t in es
          ensures t.amount <= es[i].amount
        {
          var j :| 0 <= j < |es| && es[j] == t;
        }
      }
      Some(es[i])
  }

  /** `user.currency || '$'`: the user's currency when set and non-empty, the dollar sign otherwise. */
  function CurrencyOf(u: User): (c: string)
    ensures c != ""
    ensures u.currency.Some? && u.currency.value != "" ==> c == u.currency.value
    ensures u.currency.None? || u.currency.value == "" ==> c == "$"
  {
    if u.currency.Some? && u.currency.value != "" then u.currency.value else "$"
  }

  /** `user.name || 'there'`: the user's name when set and non-empty, "there" otherwise. */
  function NameOf(u: User): (n: string)
    ensures n != ""
    ensures u.name.Some? && u.name.value != "" ==> n == u.name.value
    ensures u.name.None? || u.name.value == "" ==> n == "there"
  {
    if u.name.Some? && u.name.value != "" then u.name.value else "there"
  }

  /** The follow-up suggestions each rule offers. */
  function SuggestionsFor(r: Rule): seq<string> {
    match r
    case BalanceInquiry =>
      ["Show my recent transactions", "What are my biggest expenses?", "Give me financial advice"]
    case SpendingInquiry =>
      ["How can I reduce expenses?", "Show income vs expenses", "What's my cash flow status?"]
    case IncomeInquiry =>
      ["How can I increase revenue?", "Show my profit margin", "Analyze my financial health"]
    case HelpRequest =>
      ["What's my current balance?", "Analyze my spending", "Show recent transactions", "Give me financial tips"]
    case DefaultReply =>
      ["Show my balance", "What are my expenses?", "Analyze my financial health", "Give me advice"]
  }

  /** The rule a reply was produced by, read off its message. */
  function RuleOf(m: Message): Rule {
    match m
    case BalanceMessage(_, _, _) => BalanceInquiry
    case SpendingMessage(_, _, _) => SpendingInquiry
    case IncomeMessage(_, _, _) => IncomeInquiry
    case HelpMessage(_) => HelpRequest
    case DefaultMessage(_, _) => DefaultReply
  }

  /**
   * The reply a rule gives `user` over `transactions`: its message, its
   * suggestions and the insights computed from the income and expense totals.
   */
  function ReplyFor(rule: Rule, user: User, transactions: seq<Transaction>): (r: Reply)
    ensures RuleOf(r.message) == rule
    ensures r.suggestions == SuggestionsFor(rule)
    ensures rule == BalanceInquiry ==>
      r.message == BalanceMessage(CurrencyOf(user), BalanceOf(user), AdviceFor(BalanceOf(user)))
      && r.insights == BalanceInsights(BalanceOf(user), Total(transactions, Income), Total(transactions, Expense))
    ensures rule == SpendingInquiry ==>
      r.message == SpendingMessage(CurrencyOf(user), Total(transactions, Expense), TopExpense(transactions))
      && r.insights.SpendingInsights?
      && r.insights.totalExpenses == Total(transactions, Expense)
      && (r.message.largest.None? ==> r.insights.topExpense.None?)
      && (r.message.largest.Some? ==> r.insights.topExpense == Some(r.message.largest.value.description))
    ensures rule == IncomeInquiry ==>
      r.message == IncomeMessage(CurrencyOf(user), Total(transactions, Income), SignedSum(transactions))
      && r.insights == IncomeInsights(Total(transactions, Income), SignedSum(transactions))
    ensures rule == HelpRequest ==> r.message == HelpMessage(NameOf(user)) && r.insights == NoInsights
    ensures rule == DefaultReply ==>
      r.message == DefaultMessage(CurrencyOf(user), BalanceOf(user))
      && r.insights == DefaultInsights(BalanceOf(user), |transactions|)
  {
    match rule
    case BalanceInquiry => BalanceReply(user, transactions)
    case SpendingInquiry => SpendingReply(user, transactions)
    case IncomeInquiry => IncomeReply(user, transactions)
    case HelpRequest => Reply(HelpMessage(NameOf(user)), SuggestionsFor(rule), NoInsights)
    case DefaultReply => GeneralReply(user, transactions)
  }

  /** Balance inquiry: the balance (missing counts as 0), its advice tier and both totals. */
  function BalanceReply(user: User, transactions: seq<Transaction>): (r: Reply)
    ensures r.message == BalanceMessage(CurrencyOf(user), BalanceOf(user), AdviceFor(BalanceOf(user)))
    ensures r.suggestions == SuggestionsFor(BalanceInquiry)
    ensures r.insights == BalanceInsights(BalanceOf(user), Total(transactions, Income), Total(transactions, Expense))
  {
    var balance := BalanceOf(user);
    Reply(BalanceMessage(CurrencyOf(user), balance, AdviceFor(balance)), SuggestionsFor(BalanceInquiry),
          BalanceInsights(balance, Total(transactions, Income), Total(transactions, Expense)))
  }

  /** Spending inquiry: the expense total and the largest expense, whose description the insights report. */
  function SpendingReply(user: User, transactions: seq<Transaction>): (r: Reply)
    ensures r.message == SpendingMessage(CurrencyOf(user), Total(transactions, Expense), TopExpense(transactions))
    ensures r.suggestions == SuggestionsFor(SpendingInquiry)
    ensures r.insights.SpendingInsights?
    ensures r.insights.totalExpenses == Total(transactions, Expense)
    ensures r.message.largest.None? ==> r.insights.topExpense.None?
    ensures r.message.largest.Some? ==> r.insights.topExpense == Some(r.message.largest.value.description)
  {
    var totalExpenses := Total(transactions, Expense);
    var top := TopExpense(transactions);
    var topDescription := if top.Some? then Some(top.value.description) else None;
    Reply(SpendingMessage(CurrencyOf(user), totalExpenses, top), SuggestionsFor(SpendingInquiry),
          SpendingInsights(totalExpenses, topDescription))
  }

  /** Income inquiry: the income total and the net cashflow, which is the signed sum of the transactions. */
  function IncomeReply(user: User, transactions: seq<Transaction>): (r: Reply)
    ensures r.message == IncomeMessage(CurrencyOf(user), Total(transactions, Income), SignedSum(transactions))
    ensures r.suggestions == SuggestionsFor(IncomeInquiry)
    ensures r.insights == IncomeInsights(Total(transactions, Income), SignedSum(transactions))
  {
    var totalIncome := Total(transactions, Income);
    var net := totalIncome - Total(transactions, Expense);
    NetIsSignedSum(transactions);
    Reply(IncomeMessage(CurrencyOf(user), totalIncome, net), SuggestionsFor(IncomeInquiry),
          IncomeInsights(totalIncome, net))
  }

  /** The default reply: the balance and the number of transactions looked at. */
  function GeneralReply(user: User, transactions: seq<Transaction>): (r: Reply)
    ensures r.message == DefaultMessage(CurrencyOf(user), BalanceOf(user))
    ensures r.suggestions == SuggestionsFor(DefaultReply)
    ensures r.insights == DefaultInsights(BalanceOf(user), |transactions|)
  {
    var balance := BalanceOf(user);
    Reply(DefaultMessage(CurrencyOf(user), balance), SuggestionsFor(DefaultReply),
          DefaultInsights(balance, |transactions|))
  }

  /** The rule-based reply to `message`: only the first matching rule answers. */
  function FallbackReply(message: string, user: User, transactions: seq<Transaction>): (r: Reply)
    ensures RuleOf(r.message) == ChooseRule(message)
    ensures r == ReplyFor(ChooseRule(message), user, transactions)
  {
    ReplyFor(ChooseRule(message), user, transactions)
  }

  /** `!userMessage || typeof userMessage !== 'string'` fails exactly for values other than a non-empty string. */
  function CheckMessage(userMessage: JsValue): (r: Result<string, ChatError>)
    ensures r.Success? <==> userMessage.Str? && userMessage.s != ""
    ensures r.Success? ==> userMessage == Str(r.value)
    ensures r.Failure? ==> r.error == MessageRequired
  {
    if !Truthy(userMessage) || !IsString(userMessage) then Failure(MessageRequired)
    else Success(userMessage.s)
  }

  /**
   * The chat handler when the AI service is unavailable: the message guard
   * (400), the user lookup (404), then the fallback reply.
   */
  function Chat(userMessage: JsValue, user: Option<User>, recent: seq<Transaction>): (r: Result<Reply, ChatError>)
    ensures !(userMessage.Str? && userMessage.s != "") <==> r == Failure(MessageRequired)
    ensures userMessage.Str? && userMessage.s != "" && user.None? ==> r == Failure(UserNotFound)
    ensures userMessage.Str? && userMessage.s != "" && user.Some? ==>
      r == Success(FallbackReply(userMessage.s, user.value, recent))
  {
    match CheckMessage(userMessage)
    case Failure(e) => Failure(e)
    case Success(message) =>
      match user
      case None => Failure(UserNotFound)
      case Some(u) => Success(FallbackReply(message, u, recent))
  }

  /** The HTTP status of a chat failure. */
  function StatusOf(e: ChatError): nat {
    match e
    case MessageRequired => 400
    case UserNotFound => 404
  }

  /**
   * Whatever text surrounds the word "balance", written in any mix of
   * capitals and small letters, the balance rule answers: no keyword before
   * or after it can take precedence.
   */
  lemma BalanceWinsAnywhere(before: string, word: string, after: string, user: User, transactions: seq<Transaction>)
    requires Lower(word) == "balance"
    ensures ChooseRule(before + word + after) == BalanceInquiry
    ensures FallbackReply(before + word + after, user, transactions).message.BalanceMessage?
  {
    var message := before + word + after;
    var m := Lower(message);
    var n := |before|;
    assert m[n..n + 7] == "balance" by {
      forall k | 0 <= k < 7
        ensures m[n..n + 7][k] == "balance"[k]
      {
        assert message[n + k] == word[k];
        assert Lower(word)[k] == LowerChar(word[k]);
      }
    }
    assert OccursAt(m, "balance", n);
  }
}
