/** An investment valued by monthly compounding, and its sale into an account. */
module Investments {
  import opened Dates
  import opened Accounts

  /** `kind` is the investment's `type` label. The purchase time is the clock reading
      taken when the investment is created. */
  datatype Investment = Investment(kind: string, initialAmount: real, datePurchased: DateTime, rateOfReturn: real)

  /** A new investment of `amount`, bought at `now`: worth exactly `amount` until the
      next month boundary. */
  function Purchase(kind: string, amount: real, rateOfReturn: real, now: DateTime): (inv: Investment)
    ensures inv.kind == kind && inv.initialAmount == amount && inv.rateOfReturn == rateOfReturn
    ensures inv.datePurchased == now
    ensures MonthsElapsed(inv.datePurchased, now) == 0 && CalculateValue(inv, now) == amount
  {
    Investment(kind, amount, now, rateOfReturn)
  }

  /** `x ** n` for a whole, non-negative exponent. */
  function Power(x: real, n: nat): real
  {
    if n == 0 then 1.0 else x * Power(x, n - 1)
  }

  lemma {:induction false} PowerAdd(x: real, m: nat, n: nat)
    ensures Power(x, m + n) == Power(x, m) * Power(x, n)
  {
    if m > 0 {
      PowerAdd(x, m - 1, n);
      calc {
        Power(x, m + n);
        x * Power(x, (m - 1) + n);
        x * (Power(x, m - 1) * Power(x, n));
        (x * Power(x, m - 1)) * Power(x, n);
        Power(x, m) * Power(x, n);
      }
    }
  }

  lemma {:induction false} PowerAtLeastOne(x: real, n: nat)
    requires x >= 1.0
    ensures Power(x, n) >= 1.0
  {
    if n > 0 {
      PowerAtLeastOne(x, n - 1);
      assert x * Power(x, n - 1) >= 1.0 * Power(x, n - 1);
    }
  }

  /** The current value: the initial amount compounded once per calendar-month
      boundary crossed since the purchase. */
  function CalculateValue(inv: Investment, now: DateTime): (v: real)
    requires MonthsElapsed(inv.datePurchased, now) >= 0
    // still in the month of purchase: the initial amount
    ensures MonthsElapsed(inv.datePurchased, now) == 0 ==> v == inv.initialAmount
    // one month boundary later: one period's return
    ensures MonthsElapsed(inv.datePurchased, now) == 1 ==> v == inv.initialAmount * (1.0 + inv.rateOfReturn)
  {
    assert Power(1.0 + inv.rateOfReturn, 1) == 1.0 + inv.rateOfReturn;
    inv.initialAmount * Power(1.0 + inv.rateOfReturn, MonthsElapsed(inv.datePurchased, now))
  }

  /** Each further month boundary multiplies the value by `1 + rate`. */
  lemma ValueNextMonth(inv: Investment, now: DateTime, later: DateTime)
    requires MonthsElapsed(inv.datePurchased, now) >= 0
    requires MonthsElapsed(inv.datePurchased, later) == MonthsElapsed(inv.datePurchased, now) + 1
    ensures CalculateValue(inv, later) == CalculateValue(inv, now) * (1.0 + inv.rateOfReturn)
  {
    var x, n, i := 1.0 + inv.rateOfReturn, MonthsElapsed(inv.datePurchased, now), inv.initialAmount;
    calc {
      CalculateValue(inv, later);
      i * Power(x, n + 1);
      i * (x * Power(x, n));
      (i * Power(x, n)) * x;
      CalculateValue(inv, now) * x;
    }
  }

  /** `k` further month boundaries multiply the value by `(1 + rate) ** k`. */
  lemma ValueCompounds(inv: Investment, now: DateTime, later: DateTime, k: nat)
    requires MonthsElapsed(inv.datePurchased, now) >= 0
    requires MonthsElapsed(inv.datePurchased, later) == MonthsElapsed(inv.datePurchased, now) + k
    ensures CalculateValue(inv, later) == CalculateValue(inv, now) * Power(1.0 + inv.rateOfReturn, k)
  {
    var x, n, i := 1.0 + inv.rateOfReturn, MonthsElapsed(inv.datePurchased, now), inv.initialAmount;
    PowerAdd(x, n, k);
    calc {
      CalculateValue(inv, later);
      i * Power(x, n + k);
      i * (Power(x, n) * Power(x, k));
      (i * Power(x, n)) * Power(x, k);
      CalculateValue(inv, now) * Power(x, k);
    }
  }

  /** With a non-negative amount and rate the value never falls as time passes. */
  lemma ValueNeverDecreases(inv: Investment, now: DateTime, later: DateTime)
    requires inv.initialAmount >= 0.0 && inv.rateOfReturn >= 0.0
    requires MonthsElapsed(inv.datePurchased, now) >= 0
    requires NotAfter(now, later)
    ensures MonthsElapsed(inv.datePurchased, later) >= 0
    ensures CalculateValue(inv, now) <= CalculateValue(inv, later)
  {
    var x, n := 1.0 + inv.rateOfReturn, MonthsElapsed(inv.datePurchased, now);
    var k := MonthsElapsed(now, later);
    PowerAdd(x, n, k);
    PowerAtLeastOne(x, k);
    assert Power(x, n) >= 0.0 by { PowerAtLeastOne(x, n); }
    var p, q := Power(x, n), Power(x, k);
    assert MonthsElapsed(inv.datePurchased, later) == n + k;
    var i := inv.initialAmount;
    assert i * (p * q) >= i * p by {
      assert p * q >= p;
    }
    calc {
      CalculateValue(inv, now);
      i * p;
    <= i * (p * q);
      i * Power(x, n + k);
      CalculateValue(inv, later);
    }
  }

  /** Sells `inv` into `account`: one category-0 transaction for the current value,
      described as the sale of the investment's type. The investment itself is a
      value and is left as it was, so selling it again credits the account again. */
  method Sell(inv: Investment, account: Account, now: DateTime)
    requires MonthsElapsed(inv.datePurchased, now) >= 0
    modifies account
    ensures |account.transactions| == |old(account.transactions)| + 1
    ensures account.transactions[..|old(account.transactions)|] == old(account.transactions)
    ensures var t := account.transactions[|old(account.transactions)|];
            && fresh(t)
            && t.amount == CalculateValue(inv, now) && t.date == now
            && t.category == 0 && t.description == "Venda de " + inv.kind
    ensures account.balance == old(account.balance) + CalculateValue(inv, now)
    ensures account.name == old(account.name)
    ensures old(account.Valid()) ==> account.Valid()
  {
    var currentValue := CalculateValue(inv, now);
    var t := account.AddTransaction(now, currentValue, 0, "Venda de " + inv.kind);
    assert account.transactions[..|old(account.transactions)|] == old(account.transactions);
  }
}
