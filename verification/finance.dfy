/**
 * The records the controllers read and write: a user's transactions and
 * the user document that carries the running balance, with the totals
 * that several handlers compute over a list of transactions.
 */
module Finance {
  import opened Wrappers
  import opened JsValues

  datatype Kind = Income | Expense

  /** A stored transaction; `date` is a day number and `category` and `tags` are kept as received. */
  datatype Transaction = Transaction(
    kind: Kind,
    amount: real,
    description: string,
    category: JsValue,
    date: int,
    tags: JsValue,
    source: string)

  /** The fields of the user document the handlers use; absent fields are `None`. */
  datatype User = User(name: Option<string>, currency: Option<string>, currentBalance: Option<real>)

  /** `user.currentBalance || 0` and `user.currentBalance ?? 0`, which agree on every real. */
  function BalanceOf(u: User): (b: real)
    ensures u.currentBalance.Some? ==> b == u.currentBalance.value
    ensures u.currentBalance.None? ==> b == 0.0
  {
    u.currentBalance.GetOr(0.0)
  }

  /** The transactions of one kind, in their original order (`transactions.filter(t => t.type === kind)`). */
  function OfKind(ts: seq<Transaction>, k: Kind): (r: seq<Transaction>)
    ensures |r| <= |ts|
    ensures forall t :: t in r <==> t in ts && t.kind == k
  {
    if |ts| == 0 then []
    else if ts[0].kind == k then [ts[0]] + OfKind(ts[1..], k)
    else OfKind(ts[1..], k)
  }

  /** `reduce((sum, t) => sum + t.amount, 0)`. */
  function SumAmounts(ts: seq<Transaction>): real {
    if |ts| == 0 then 0.0 else ts[0].amount + SumAmounts(ts[1..])
  }

  /** The total amount of the transactions of one kind. */
  function Total(ts: seq<Transaction>, k: Kind): real {
    SumAmounts(OfKind(ts, k))
  }

  /** The effect of a transaction on the balance: `+amount` for income, `-amount` for an expense. */
  function SignedAmount(t: Transaction): real {
    if t.kind == Income then t.amount else -t.amount
  }

  function SignedSum(ts: seq<Transaction>): real {
    if |ts| == 0 then 0.0 else SignedAmount(ts[0]) + SignedSum(ts[1..])
  }

  predicate PositiveAmounts(ts: seq<Transaction>) {
    forall i :: 0 <= i < |ts| ==> ts[i].amount > 0.0
  }

  /** The filter keeps every transaction of the kind as many times as it occurs, and no other. */
  lemma {:induction false} OfKindCounts(ts: seq<Transaction>, k: Kind)
    ensures forall t :: multiset(OfKind(ts, k))[t] == if t.kind == k then multiset(ts)[t] else 0
    decreases |ts|
  {
    if |ts| > 0 {
      assert ts == [ts[0]] + ts[1..];
      OfKindCounts(ts[1..], k);
    }
  }

  /** On a single transaction the filter keeps it exactly when it has the kind. */
  lemma OfKindOfOne(t: Transaction, k: Kind)
    ensures OfKind([t], k) == if t.kind == k then [t] else []
  {
    assert [t][1..] == [];
  }

  lemma {:induction false} OfKindAppend(a: seq<Transaction>, b: seq<Transaction>, k: Kind)
    ensures OfKind(a + b, k) == OfKind(a, k) + OfKind(b, k)
    decreases |a|
  {
    if |a| == 0 {
      assert a + b == b;
    } else {
      assert (a + b)[1..] == a[1..] + b;
      OfKindAppend(a[1..], b, k);
    }
  }

  lemma {:induction false} SumAmountsAppend(a: seq<Transaction>, b: seq<Transaction>)
    ensures SumAmounts(a + b) == SumAmounts(a) + SumAmounts(b)
    decreases |a|
  {
    if |a| == 0 {
      assert a + b == b;
    } else {
      assert (a + b)[1..] == a[1..] + b;
      SumAmountsAppend(a[1..], b);
    }
  }

  /** Totals are additive over concatenation of transaction lists. */
  lemma TotalAppend(a: seq<Transaction>, b: seq<Transaction>, k: Kind)
    ensures Total(a + b, k) == Total(a, k) + Total(b, k)
  {
    OfKindAppend(a, b, k);
    SumAmountsAppend(OfKind(a, k), OfKind(b, k));
  }

  lemma {:induction false} SignedSumAppend(a: seq<Transaction>, b: seq<Transaction>)
    ensures SignedSum(a + b) == SignedSum(a) + SignedSum(b)
    decreases |a|
  {
    if |a| == 0 {
      assert a + b == b;
    } else {
      assert (a + b)[1..] == a[1..] + b;
      SignedSumAppend(a[1..], b);
    }
  }

  /** Total income minus total expenses is the signed sum the balance accumulates. */
  lemma {:induction false} NetIsSignedSum(ts: seq<Transaction>)
    ensures Total(ts, Income) - Total(ts, Expense) == SignedSum(ts)
    decreases |ts|
  {
    if |ts| > 0 {
      NetIsSignedSum(ts[1..]);
    }
  }

  /** With positive amounts, a kind's total is non-negative, and positive exactly when that kind occurs. */
  lemma {:induction false} TotalPositive(ts: seq<Transaction>, k: Kind)
    requires PositiveAmounts(ts)
    ensures Total(ts, k) >= 0.0
    ensures Total(ts, k) > 0.0 <==> exists i :: 0 <= i < |ts| && ts[i].kind == k
    decreases |ts|
  {
    if |ts| > 0 {
      TotalPositive(ts[1..], k);
      if exists i :: 0 <= i < |ts[1..]| && ts[1..][i].kind == k {
        var i :| 0 <= i < |ts[1..]| && ts[1..][i].kind == k;
        assert ts[i + 1].kind == k;
      }
      if exists i :: 0 <= i < |ts| && ts[i].kind == k {
        var i :| 0 <= i < |ts| && ts[i].kind == k;
        if i > 0 {
          assert ts[1..][i - 1].kind == k;
        }
      }
    }
  }
}
