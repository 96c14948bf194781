/**
 * The cashflow status endpoint (`getCashflowStatus`): the burn rate over the
 * expenses of the last 30 days, the runway that balance buys at that rate,
 * and the green/yellow/red indicator for the runway.
 */
module AnalyticsController {
  import opened Wrappers
  import opened Finance

  const WindowDays: int := 30
  /** The runway reported when nothing is being spent. */
  const NoBurnRunway: int := 999
  const GreenAbove: int := 30
  const YellowAbove: int := 14

  datatype Indicator = Green | Yellow | Red

  datatype CashflowStatus = CashflowStatus(
    currentBalance: real,
    dailyBurnRate: real,
    daysRemaining: int,
    indicator: Indicator)

  datatype AnalyticsError = UserNotFound

  /** Dated on or after the day 30 days before `today` (the query has no upper bound). */
  predicate InWindow(t: Transaction, today: int) {
    t.date >= today - WindowDays
  }

  /** The transactions the query returns, in their original order. */
  function Recent(ts: seq<Transaction>, today: int): (r: seq<Transaction>)
    ensures forall t :: t in r <==> t in ts && InWindow(t, today)
  {
    if |ts| == 0 then []
    else if InWindow(ts[0], today) then [ts[0]] + Recent(ts[1..], today)
    else Recent(ts[1..], today)
  }

  /** Counts toward the burn rate: an expense inside the window. */
  predicate Burns(t: Transaction, today: int) {
    t.kind == Expense && InWindow(t, today)
  }

  /** Average daily expense outflow over the window. */
  function BurnRate(ts: seq<Transaction>, today: int): real {
    Total(Recent(ts, today), Expense) / (WindowDays as real)
  }

  /** `d` is the floor of `balance / burn`: `d` whole days of burning stay within the balance, `d + 1` do not. */
  predicate IsFloorOf(d: int, balance: real, burn: real) {
    d as real * burn <= balance < (d + 1) as real * burn
  }

  /** `Math.floor(balance / burn)` when the burn is positive, otherwise the no-burn runway. */
  function DaysRemaining(balance: real, burn: real): (d: int)
    ensures burn > 0.0 ==> IsFloorOf(d, balance, burn)
    ensures burn <= 0.0 ==> d == NoBurnRunway
  {
    if burn > 0.0 then
      var d := (balance / burn).Floor;
      FloorBounds(balance, burn, d);
      d
    else NoBurnRunway
  }

  lemma FloorBounds(balance: real, burn: real, d: int)
    requires burn > 0.0
    requires d == (balance / burn).Floor
    ensures IsFloorOf(d, balance, burn)
  {
    var q := balance / burn;
    assert d as real <= q < (d + 1) as real;
    assert q * burn == balance;
    MultiplyMonotone(d as real, q, burn);
    MultiplyStrict(q, (d + 1) as real, burn);
  }

  lemma MultiplyMonotone(x: real, y: real, c: real)
    requires x <= y && c > 0.0
    ensures x * c <= y * c
  {}

  lemma MultiplyStrict(x: real, y: real, c: real)
    requires x < y && c > 0.0
    ensures x * c < y * c
  {}

  /** Green above 30 days of runway, yellow above 14, red otherwise. */
  function Classify(daysRemaining: int): (i: Indicator)
    ensures i == Green <==> daysRemaining > GreenAbove
    ensures i == Yellow <==> YellowAbove < daysRemaining <= GreenAbove
    ensures i == Red <==> daysRemaining <= YellowAbove
  {
    if daysRemaining > GreenAbove then Green
    else if daysRemaining > YellowAbove then Yellow
    else Red
  }

  /** The status reported for a balance and a burn rate. */
  function StatusFor(balance: real, burn: real): (s: CashflowStatus)
    ensures s.currentBalance == balance && s.dailyBurnRate == burn
    ensures burn <= 0.0 ==> s.daysRemaining == NoBurnRunway && s.indicator == Green
    ensures burn > 0.0 ==> IsFloorOf(s.daysRemaining, balance, burn)
    ensures s.indicator == Classify(s.daysRemaining)
  {
    var days := DaysRemaining(balance, burn);
    CashflowStatus(balance, burn, days, Classify(days))
  }

  /** The status for `user`, whose transactions are `ts`, on day `today`. */
  function CashflowStatusOf(user: Option<User>, ts: seq<Transaction>, today: int): (r: Result<CashflowStatus, AnalyticsError>)
    ensures r.Failure? <==> user.None?
    ensures r.Success? ==>
      var s := r.value;
      && s.currentBalance == BalanceOf(user.value)
      && s.dailyBurnRate * (WindowDays as real) == Total(Recent(ts, today), Expense)
      && (s.dailyBurnRate <= 0.0 ==> s.daysRemaining == NoBurnRunway && s.indicator == Green)
      && (s.dailyBurnRate > 0.0 ==> IsFloorOf(s.daysRemaining, s.currentBalance, s.dailyBurnRate))
      && s.indicator == Classify(s.daysRemaining)
  {
    match user
    case None => Failure(UserNotFound)
    case Some(u) => Success(StatusFor(BalanceOf(u), BurnRate(ts, today)))
  }

  lemma {:induction false} RecentAppend(a: seq<Transaction>, b: seq<Transaction>, today: int)
    ensures Recent(a + b, today) == Recent(a, today) + Recent(b, today)
    decreases |a|
  {
    if |a| == 0 {
      assert a + b == b;
    } else {
      assert (a + b)[1..] == a[1..] + b;
      RecentAppend(a[1..], b, today);
    }
  }

  /** The window keeps every transaction dated inside it as many times as it occurs, and no other. */
  lemma {:induction false} RecentCounts(ts: seq<Transaction>, today: int)
    ensures forall t :: multiset(Recent(ts, today))[t] == if InWindow(t, today) then multiset(ts)[t] else 0
    decreases |ts|
  {
    if |ts| > 0 {
      assert ts == [ts[0]] + ts[1..];
      RecentCounts(ts[1..], today);
    }
  }

  /** On a single transaction the window keeps it exactly when it is dated inside the window. */
  lemma RecentOfOne(t: Transaction, today: int)
    ensures Recent([t], today) == if InWindow(t, today) then [t] else []
  {
    assert [t][1..] == [];
  }

  /** The burn rate is additive over the transaction list. */
  lemma BurnRateAppend(a: seq<Transaction>, b: seq<Transaction>, today: int)
    ensures BurnRate(a + b, today) == BurnRate(a, today) + BurnRate(b, today)
  {
    RecentAppend(a, b, today);
    TotalAppend(Recent(a, today), Recent(b, today), Expense);
  }

  /**
   * One more transaction changes the burn rate by a thirtieth of its amount
   * if it is an expense inside the window, and not at all otherwise: income
   * and older expenses never count.
   */
  lemma BurnRateWithOneMore(before: seq<Transaction>, t: Transaction, after: seq<Transaction>, today: int)
    ensures Burns(t, today) ==>
      BurnRate(before + [t] + after, today) == BurnRate(before + after, today) + t.amount / 30.0
    ensures !Burns(t, today) ==>
      BurnRate(before + [t] + after, today) == BurnRate(before + after, today)
  {
    BurnRateAppend(before + [t], after, today);
    BurnRateAppend(before, [t], today);
    BurnRateAppend(before, after, today);
    BurnRateOfOne(t, today);
  }

  lemma BurnRateOfOne(t: Transaction, today: int)
    ensures BurnRate([t], today) == if Burns(t, today) then t.amount / 30.0 else 0.0
  {
    assert [t][1..] == [];
    if InWindow(t, today) {
      assert Recent([t], today) == [t];
      if t.kind == Expense {
        assert OfKind([t], Expense) == [t];
        assert SumAmounts([t]) == t.amount + SumAmounts([]);
      } else {
        assert OfKind([t], Expense) == [];
        assert Total([t], Expense) == 0.0;
      }
    } else {
      assert Recent([t], today) == [];
    }
  }

  /** With positive amounts the burn rate is never negative, and it is positive exactly when some expense falls in the window. */
  lemma BurnRateSign(ts: seq<Transaction>, today: int)
    requires PositiveAmounts(ts)
    ensures BurnRate(ts, today) >= 0.0
    ensures BurnRate(ts, today) > 0.0 <==> exists i :: 0 <= i < |ts| && Burns(ts[i], today)
  {
    var r := Recent(ts, today);
    RecentKeepsPositive(ts, today);
    TotalPositive(r, Expense);
    RecentExpenseIffBurns(ts, today);
  }

  lemma RecentKeepsPositive(ts: seq<Transaction>, today: int)
    requires PositiveAmounts(ts)
    ensures PositiveAmounts(Recent(ts, today))
  {
    var r := Recent(ts, today);
    forall i | 0 <= i < |r|
      ensures r[i].amount > 0.0
    {
      assert r[i] in ts;
    }
  }

  /** The window holds an expense exactly when some transaction burns. */
  lemma RecentExpenseIffBurns(ts: seq<Transaction>, today: int)
    ensures (exists i :: 0 <= i < |Recent(ts, today)| && Recent(ts, today)[i].kind == Expense)
        <==> (exists i :: 0 <= i < |ts| && Burns(ts[i], today))
  {
    var r := Recent(ts, today);
    if exists i :: 0 <= i < |r| && r[i].kind == Expense {
      var i :| 0 <= i < |r| && r[i].kind == Expense;
      assert r[i] in ts;
      var j :| 0 <= j < |ts| && ts[j] == r[i];
      assert Burns(ts[j], today);
    }
    if exists i :: 0 <= i < |ts| && Burns(ts[i], today) {
      var i :| 0 <= i < |ts| && Burns(ts[i], today);
      assert ts[i] in r;
      var j :| 0 <= j < |r| && r[j] == ts[i];
      assert 0 <= j < |Recent(ts, today)| && Recent(ts, today)[j].kind == Expense;
    }
  }

  /** Not spending anything always shows green. */
  lemma NoBurnIsGreen(balance: real, burn: real)
    requires burn <= 0.0
    ensures Classify(DaysRemaining(balance, burn)) == Green
  {}

  /** Spending while overdrawn always shows red. */
  lemma OverdrawnIsRed(balance: real, burn: real)
    requires balance < 0.0 && burn > 0.0
    ensures DaysRemaining(balance, burn) < 0
    ensures Classify(DaysRemaining(balance, burn)) == Red
  {
    var d := DaysRemaining(balance, burn);
    assert IsFloorOf(d, balance, burn);
    if d >= 0 {
      MultiplyMonotone(0.0, d as real, burn);
    }
  }

  function Severity(i: Indicator): nat {
    match i
    case Green => 0
    case Yellow => 1
    case Red => 2
  }

  /** At the same positive burn rate, more money never makes the runway shorter or the indicator worse. */
  lemma MoreBalanceNeverWorse(b1: real, b2: real, burn: real)
    requires b1 <= b2 && burn > 0.0
    ensures DaysRemaining(b1, burn) <= DaysRemaining(b2, burn)
    ensures Severity(Classify(DaysRemaining(b2, burn))) <= Severity(Classify(DaysRemaining(b1, burn)))
  {
    var d1 := DaysRemaining(b1, burn);
    var d2 := DaysRemaining(b2, burn);
    FloorMonotone(d1, d2, b1, b2, burn);
  }

  lemma FloorMonotone(d1: int, d2: int, b1: real, b2: real, burn: real)
    requires burn > 0.0 && b1 <= b2
    requires IsFloorOf(d1, b1, burn) && IsFloorOf(d2, b2, burn)
    ensures d1 <= d2
  {
    if d2 < d1 {
      MultiplyMonotone((d2 + 1) as real, d1 as real, burn);
    }
  }
}
