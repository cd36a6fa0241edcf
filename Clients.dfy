/** A client owning accounts and investments, and their net worth. */
module Clients {
  import opened Dates
  import opened Sums
  import opened Accounts
  import opened Investments

  class Client {
    var name: string
    var accounts: seq<Account>
    var investments: seq<Investment>

    /** A client with no accounts and no investments. */
    constructor (name: string)
      ensures this.name == name && accounts == [] && investments == []
      ensures AccountsDistinct()
    {
      this.name := name;
      accounts := [];
      investments := [];
    }

    /** Opens a new, empty account under `accountName` and registers it last. */
    method AddAccount(accountName: string) returns (account: Account)
      modifies this
      ensures fresh(account)
      ensures account.name == accountName && account.balance == 0.0 && account.transactions == []
      ensures account.Valid()
      ensures accounts == old(accounts) + [account]
      ensures investments == old(investments) && name == old(name)
      ensures Balances() == old(Balances()) + [0.0]
      ensures old(AccountsDistinct()) ==> AccountsDistinct()
      // a new account adds nothing to net worth
      ensures forall now :: HeldAt(now) ==> old(HeldAt(now)) && GetNetWorth(now) == old(GetNetWorth(now))
    {
      account := new Account(accountName);
      accounts := accounts + [account];
      assert Balances() == old(Balances()) + [0.0];
      forall now | HeldAt(now)
        ensures old(HeldAt(now)) && GetNetWorth(now) == old(GetNetWorth(now))
      {
        assert Values(now) == old(Values(now));
        SumAppend(old(Balances()), 0.0);
      }
    }

    /** Registers an investment last, without looking at whom it was bought for. */
    method AddInvestment(investment: Investment)
      modifies this
      ensures investments == old(investments) + [investment]
      ensures accounts == old(accounts) && name == old(name)
      // from now on net worth includes the investment's value
      ensures forall now :: HeldAt(now) ==>
                && MonthsElapsed(investment.datePurchased, now) >= 0
                && old(HeldAt(now))
                && GetNetWorth(now) == old(GetNetWorth(now)) + CalculateValue(investment, now)
    {
      investments := investments + [investment];
      forall now | HeldAt(now)
        ensures && MonthsElapsed(investment.datePurchased, now) >= 0
                && old(HeldAt(now))
                && GetNetWorth(now) == old(GetNetWorth(now)) + CalculateValue(investment, now)
      {
        assert MonthsElapsed(investment.datePurchased, now) >= 0 by {
          assert investments[|investments| - 1] == investment;
        }
        assert old(HeldAt(now)) by {
          forall i | 0 <= i < |old(investments)|
            ensures MonthsElapsed(old(investments)[i].datePurchased, now) >= 0
          {
            assert investments[i] == old(investments)[i];
          }
        }
        assert Balances() == old(Balances());
        assert Values(now) == old(Values(now)) + [CalculateValue(investment, now)];
        SumAppend(old(Values(now)), CalculateValue(investment, now));
      }
    }

    /** No account is registered twice. `add_account` always registers a new one. */
    predicate AccountsDistinct()
      reads this
    {
      forall i, j :: 0 <= i < j < |accounts| ==> accounts[i] != accounts[j]
    }

    /** The balance of every account, in registration order. */
    function Balances(): (r: seq<real>)
      reads this, set a | a in accounts
    {
      seq(|accounts|, i requires 0 <= i < |accounts| reads this, set a | a in accounts => accounts[i].balance)
    }

    /** No investment was bought in a calendar month later than that of `now`. */
    predicate HeldAt(now: DateTime)
      reads this
    {
      forall i :: 0 <= i < |investments| ==> MonthsElapsed(investments[i].datePurchased, now) >= 0
    }

    /** The value of every investment at `now`, in registration order. */
    function Values(now: DateTime): (r: seq<real>)
      reads this
      requires HeldAt(now)
    {
      seq(|investments|, i requires 0 <= i < |investments| && HeldAt(now) reads this =>
        CalculateValue(investments[i], now))
    }

    /** Net worth, recomputed from the current balances and values on every call. */
    function GetNetWorth(now: DateTime): (w: real)
      reads this, set a | a in accounts, set a, t | a in accounts && t in a.transactions :: t
      requires HeldAt(now)
      // while every balance agrees with its ledger, net worth is the total of all
      // recorded amounts plus the investments' values
      ensures AllValid() ==> w == NetWorth(LedgerTotals(), Values(now))
    {
      assert AllValid() ==> Balances() == LedgerTotals();
      NetWorth(Balances(), Values(now))
    }

    /** Every account's cached balance agrees with its ledger. */
    ghost predicate AllValid()
      reads this, set a | a in accounts, set a, t | a in accounts && t in a.transactions :: t
    {
      forall i :: 0 <= i < |accounts| ==> accounts[i].Valid()
    }

    /** The total recorded in each account's ledger, in registration order. */
    function LedgerTotals(): (r: seq<real>)
      reads this, set a | a in accounts, set a, t | a in accounts && t in a.transactions :: t
    {
      seq(|accounts|, i requires 0 <= i < |accounts|
                        reads this, set a | a in accounts, set a, t | a in accounts && t in a.transactions :: t
                        => Sum(Amounts(accounts[i].transactions)))
    }
  }

  /** The sum of account balances plus the sum of investment values. */
  function NetWorth(balances: seq<real>, values: seq<real>): real
  {
    Sum(balances) + Sum(values)
  }

  /** Crediting `amount` to one account raises net worth by exactly `amount`. */
  lemma {:induction false} NetWorthAfterCredit(balances: seq<real>, values: seq<real>, k: nat, amount: real)
    requires k < |balances|
    ensures NetWorth(balances[k := balances[k] + amount], values) == NetWorth(balances, values) + amount
  {
    SumUpdate(balances, k, balances[k] + amount);
  }

  /** Sells a registered investment into one of the client's own accounts. The
      proceeds raise net worth by the sale value, while the sold investment stays
      registered and is still counted at its value. */
  method SellIntoOwnAccount(c: Client, k: nat, inv: Investment, now: DateTime)
    requires k < |c.accounts| && c.AccountsDistinct()
    requires inv in c.investments && c.HeldAt(now)
    modifies c.accounts[k]
    ensures c.accounts == old(c.accounts) && c.investments == old(c.investments)
    ensures |c.accounts[k].transactions| == |old(c.accounts[k].transactions)| + 1
    ensures c.accounts[k].transactions[..|old(c.accounts[k].transactions)|] == old(c.accounts[k].transactions)
    ensures var t := c.accounts[k].transactions[|old(c.accounts[k].transactions)|];
            && fresh(t)
            && t.amount == CalculateValue(inv, now) && t.date == now
            && t.category == 0 && t.description == "Venda de " + inv.kind
    ensures old(c.AllValid()) ==> c.AllValid()
    ensures c.Balances() == old(c.Balances())[k := old(c.Balances())[k] + CalculateValue(inv, now)]
    ensures c.GetNetWorth(now) == old(c.GetNetWorth(now)) + CalculateValue(inv, now)
  {
    ghost var before := c.Balances();
    ghost var i :| 0 <= i < |c.investments| && c.investments[i] == inv;
    assert MonthsElapsed(inv.datePurchased, now) >= 0;
    Sell(inv, c.accounts[k], now);
    assert c.Balances() == before[k := before[k] + CalculateValue(inv, now)];
    NetWorthAfterCredit(before, c.Values(now), k, CalculateValue(inv, now));
  }
}
