/**
 * Transaction creation (`createTransaction`): the ordered validation of the
 * request body, the record built from it, and the signed delta applied to
 * the owner's running balance.
 */
module TransactionController {
  import opened Wrappers
  import opened JsValues
  import opened Finance

  /** The fields of the request body the handler reads. */
  datatype CreateRequest = CreateRequest(
    kind: JsValue,
    amount: JsValue,
    description: JsValue,
    category: JsValue,
    date: JsValue,
    tags: JsValue)

  datatype ValidationError = InvalidType | InvalidAmount | MissingDescription

  /** What validation establishes about a request. */
  datatype Checked = Checked(kind: Kind, amount: real, description: string)

  /** The user document and that user's stored transactions. */
  datatype Account = Account(records: seq<Transaction>, user: Option<User>)

  datatype Outcome =
    | Created(record: Transaction, currentBalance: real)
    | Rejected(error: ValidationError)
    | UserNotFound

  datatype Step = Step(account: Account, outcome: Outcome)

  /** One create call: its body and the day it arrives. */
  datatype Submission = Submission(body: CreateRequest, today: int)

  /** `type` is the string "income" or the string "expense". */
  function ParseKind(v: JsValue): (k: Option<Kind>)
    ensures k == Some(Income) <==> v == Str("income")
    ensures k == Some(Expense) <==> v == Str("expense")
  {
    if !Truthy(v) then None
    else if v == Str("income") then Some(Income)
    else if v == Str("expense") then Some(Expense)
    else None
  }

  /** `amount` is a number, not NaN, and greater than zero. */
  predicate PositiveNumber(v: JsValue) {
    IsNumber(v) && !v.NaN? && v.x > 0.0
  }

  /** `description` is a non-empty string. */
  predicate NonEmptyString(v: JsValue) {
    Truthy(v) && IsString(v)
  }

  /** Every check the request fails, in the order the handler makes them. */
  function Failures(req: CreateRequest): seq<ValidationError> {
    (if ParseKind(req.kind).None? then [InvalidType] else [])
    + (if !PositiveNumber(req.amount) then [InvalidAmount] else [])
    + (if !NonEmptyString(req.description) then [MissingDescription] else [])
  }

  /** The handler's guards, evaluated one after another; the first failing one answers. */
  function Validate(req: CreateRequest): (r: Result<Checked, ValidationError>)
    ensures r.Failure? <==> |Failures(req)| > 0
    ensures r.Failure? ==> r.error == Failures(req)[0]
    ensures r.Success? ==>
      && ParseKind(req.kind) == Some(r.value.kind)
      && req.amount == Num(r.value.amount) && r.value.amount > 0.0
      && req.description == Str(r.value.description) && r.value.description != ""
  {
    var kind := ParseKind(req.kind);
    if kind.None? then Failure(InvalidType)
    else if !IsNumber(req.amount) || req.amount.NaN? || req.amount.x <= 0.0 then Failure(InvalidAmount)
    else if !Truthy(req.description) || !IsString(req.description) then Failure(MissingDescription)
    else Success(Checked(kind.value, req.amount.x, req.description.s))
  }

  /** The record saved for a validated request; `toDay` stands for `new Date(date)`. */
  function BuildRecord(c: Checked, req: CreateRequest, today: int, toDay: JsValue -> int): (t: Transaction)
    ensures t.kind == c.kind && t.amount == c.amount && t.description == c.description
    ensures t.category == req.category
    ensures Truthy(req.date) ==> t.date == toDay(req.date)
    ensures !Truthy(req.date) ==> t.date == today
    ensures Truthy(req.tags) ==> t.tags == req.tags
    ensures !Truthy(req.tags) ==> t.tags == Arr([])
    ensures t.source == "manual"
  {
    Transaction(
      c.kind, c.amount, c.description, req.category,
      if Truthy(req.date) then toDay(req.date) else today,
      Or(req.tags, Arr([])),
      "manual")
  }

  /** `$inc` on `currentBalance`; a missing balance counts as 0. */
  function ApplyDelta(u: User, delta: real): (v: User)
    ensures BalanceOf(v) == BalanceOf(u) + delta
    ensures v.currentBalance.Some?
    ensures v.name == u.name && v.currency == u.currency
  {
    u.(currentBalance := Some(BalanceOf(u) + delta))
  }

  /**
   * One create call. A rejected request saves nothing and leaves the balance
   * alone. An accepted one is saved, then its signed amount is added to the
   * owner's balance; when the owner's document is missing the record stays
   * saved and the answer is "user not found".
   */
  function Create(acct: Account, req: CreateRequest, today: int, toDay: JsValue -> int): (s: Step)
    ensures Validate(req).Failure? ==>
      s.account == acct && s.outcome == Rejected(Validate(req).error)
    ensures Validate(req).Success? ==>
      var t := BuildRecord(Validate(req).value, req, today, toDay);
      && s.account.records == acct.records + [t]
      && (acct.user.None? ==> s.account.user.None? && s.outcome == UserNotFound)
      && (acct.user.Some? ==>
            && s.account.user.Some?
            && BalanceOf(s.account.user.value) == BalanceOf(acct.user.value) + SignedAmount(t)
            && s.outcome == Created(t, BalanceOf(s.account.user.value)))
  {
    match Validate(req)
    case Failure(e) => Step(acct, Rejected(e))
    case Success(c) =>
      var t := BuildRecord(c, req, today, toDay);
      var records := acct.records + [t];
      var delta := if c.kind == Income then c.amount else -c.amount;
      match acct.user
      case None => Step(Account(records, None), UserNotFound)
      case Some(u) =>
        var v := ApplyDelta(u, delta);
        Step(Account(records, Some(v)), Created(t, BalanceOf(v)))
  }

  /** The HTTP status of each outcome. */
  function StatusOf(o: Outcome): nat {
    match o
    case Created(_, _) => 201
    case Rejected(_) => 400
    case UserNotFound => 404
  }

  /** The error text of each validation failure. */
  function ErrorText(e: ValidationError): string {
    match e
    case InvalidType => "Invalid or missing transaction type"
    case InvalidAmount => "Amount must be a positive number"
    case MissingDescription => "Description is required"
  }

  /** Handles the submissions one after another. */
  function CreateAll(acct: Account, subs: seq<Submission>, toDay: JsValue -> int): Account
    decreases |subs|
  {
    if |subs| == 0 then acct
    else CreateAll(Create(acct, subs[0].body, subs[0].today, toDay).account, subs[1..], toDay)
  }

  /** The records the accepted submissions produce, in order. */
  function Accepted(subs: seq<Submission>, toDay: JsValue -> int): seq<Transaction>
    decreases |subs|
  {
    if |subs| == 0 then []
    else
      var r := Validate(subs[0].body);
      (if r.Success? then [BuildRecord(r.value, subs[0].body, subs[0].today, toDay)] else [])
      + Accepted(subs[1..], toDay)
  }

  /**
   * The ledger law: over any run of create calls for an existing user, the
   * stored records grow by exactly the accepted ones and the balance moves
   * by exactly their signed sum.
   */
  lemma {:induction false} LedgerLaw(acct: Account, subs: seq<Submission>, toDay: JsValue -> int)
    requires acct.user.Some?
    ensures var final := CreateAll(acct, subs, toDay);
      && final.user.Some?
      && final.records == acct.records + Accepted(subs, toDay)
      && BalanceOf(final.user.value) == BalanceOf(acct.user.value) + SignedSum(Accepted(subs, toDay))
    decreases |subs|
  {
    if |subs| == 0 {
      assert acct.records + [] == acct.records;
    } else {
      var next := Create(acct, subs[0].body, subs[0].today, toDay).account;
      var rest := Accepted(subs[1..], toDay);
      LedgerLaw(next, subs[1..], toDay);
      var r := Validate(subs[0].body);
      if r.Success? {
        var t := BuildRecord(r.value, subs[0].body, subs[0].today, toDay);
        assert Accepted(subs, toDay) == [t] + rest;
        assert acct.records + [t] + rest == acct.records + ([t] + rest);
        SignedSumAppend([t], rest);
        assert SignedSum([t]) == SignedAmount(t) + SignedSum([]);
      } else {
        assert Accepted(subs, toDay) == rest;
      }
    }
  }

  /**
   * A balance that agrees with the stored records (income minus expenses)
   * keeps agreeing with them after any run of create calls.
   */
  lemma BalanceStaysConsistent(acct: Account, subs: seq<Submission>, toDay: JsValue -> int)
    requires acct.user.Some?
    requires BalanceOf(acct.user.value) == Total(acct.records, Income) - Total(acct.records, Expense)
    ensures var final := CreateAll(acct, subs, toDay);
      && final.user.Some?
      && BalanceOf(final.user.value) == Total(final.records, Income) - Total(final.records, Expense)
  {
    var final := CreateAll(acct, subs, toDay);
    LedgerLaw(acct, subs, toDay);
    NetIsSignedSum(acct.records);
    NetIsSignedSum(final.records);
    SignedSumAppend(acct.records, Accepted(subs, toDay));
  }

  /** Every record the creates store has a positive amount, so the totals over them behave as amounts. */
  lemma {:induction false} AcceptedArePositive(subs: seq<Submission>, toDay: JsValue -> int)
    ensures PositiveAmounts(Accepted(subs, toDay))
    decreases |subs|
  {
    if |subs| > 0 {
      AcceptedArePositive(subs[1..], toDay);
    }
  }
}
