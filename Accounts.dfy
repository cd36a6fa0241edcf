/** A bank account: an append-only ledger of transactions with a cached balance. */
module Accounts {
  import opened Options
  import opened Dates
  import opened Sums
  import opened Transactions

  /** One of the list comprehensions of `get_transactions`. */
  datatype Filter = Since(start: DateTime) | Until(end: DateTime) | InCategory(category: int)

  predicate Passes(t: Transaction, f: Filter)
    reads t
  {
    match f
    case Since(start) => NotAfter(start, t.date)
    case Until(end) => NotAfter(t.date, end)
    case InCategory(c) => t.category == c
  }

  predicate PassesAll(t: Transaction, fs: seq<Filter>)
    reads t
  {
    forall i :: 0 <= i < |fs| ==> Passes(t, fs[i])
  }

  /** The entries of `ts` that pass every filter in `fs`, in their original order. */
  function Keep(ts: seq<Transaction>, fs: seq<Filter>): (r: seq<Transaction>)
    reads set t | t in ts
    ensures |r| <= |ts|
    ensures forall t :: t in r ==> t in ts && PassesAll(t, fs)
    ensures forall t :: t in ts && PassesAll(t, fs) ==> t in r
  {
    if ts == [] then []
    else (if PassesAll(ts[0], fs) then [ts[0]] else []) + Keep(ts[1..], fs)
  }

  /** `a` is `b` with some entries removed and the rest left in order. */
  predicate IsSubsequence<T(==)>(a: seq<T>, b: seq<T>)
    decreases |b|
  {
    || a == []
    || (b != [] && ((a[0] == b[0] && IsSubsequence(a[1..], b[1..])) || IsSubsequence(a, b[1..])))
  }

  /** Filtering drops entries but never reorders them. */
  lemma {:induction false} KeepIsSubsequence(ts: seq<Transaction>, fs: seq<Filter>)
    ensures IsSubsequence(Keep(ts, fs), ts)
  {
    if ts != [] {
      KeepIsSubsequence(ts[1..], fs);
      var rest := Keep(ts[1..], fs);
      if PassesAll(ts[0], fs) {
        assert Keep(ts, fs) == [ts[0]] + rest;
        assert ([ts[0]] + rest)[1..] == rest;
      } else {
        assert Keep(ts, fs) == rest;
      }
    }
  }

  /** With no filter every entry is kept. */
  lemma {:induction false} KeepWithoutFilters(ts: seq<Transaction>)
    ensures Keep(ts, []) == ts
  {
    if ts != [] {
      KeepWithoutFilters(ts[1..]);
      assert ts == [ts[0]] + ts[1..];
    }
  }

  /** Filtering again by `g` is filtering once by `fs` and `g` together. */
  lemma {:induction false} KeepThen(ts: seq<Transaction>, fs: seq<Filter>, g: Filter)
    ensures Keep(Keep(ts, fs), [g]) == Keep(ts, fs + [g])
  {
    if ts != [] {
      KeepThen(ts[1..], fs, g);
      var t := ts[0];
      var rest := Keep(ts[1..], fs);
      assert PassesAll(t, fs + [g]) <==> PassesAll(t, fs) && Passes(t, g) by {
        assert forall i :: 0 <= i < |fs| ==> (fs + [g])[i] == fs[i];
        assert (fs + [g])[|fs|] == g;
      }
      if PassesAll(t, fs) {
        assert Keep(ts, fs) == [t] + rest;
        assert ([t] + rest)[1..] == rest;
        assert PassesAll(t, [g]) <==> Passes(t, g);
      } else {
        assert Keep(ts, fs) == rest;
      }
    }
  }

  /** The comprehension each argument of `get_transactions` asks for. A datetime is
      always truthy; a category of 0 is falsy and so asks for none. */
  function StartFilter(start: Option<DateTime>): Option<Filter>
  {
    if start.Some? then Some(Since(start.value)) else None
  }

  function EndFilter(end: Option<DateTime>): Option<Filter>
  {
    if end.Some? then Some(Until(end.value)) else None
  }

  function CategoryFilter(category: Option<int>): Option<Filter>
  {
    if category.Some? && category.value != 0 then Some(InCategory(category.value)) else None
  }

  function Listed(f: Option<Filter>): seq<Filter>
  {
    if f.Some? then [f.value] else []
  }

  /** The filters `get_transactions` applies, in the order it applies them. */
  function ActiveFilters(start: Option<DateTime>, end: Option<DateTime>, category: Option<int>): seq<Filter>
  {
    Listed(StartFilter(start)) + Listed(EndFilter(end)) + Listed(CategoryFilter(category))
  }

  /** The filter conditions as stated: inclusive date bounds and category equality,
      each imposed only when supplied (and, for the category, non-zero). */
  predicate Matches(t: Transaction, start: Option<DateTime>, end: Option<DateTime>, category: Option<int>)
    reads t
  {
    && (start.Some? ==> NotAfter(start.value, t.date))
    && (end.Some? ==> NotAfter(t.date, end.value))
    && (category.Some? && category.value != 0 ==> t.category == category.value)
  }

  lemma ActiveFiltersMeanMatches(t: Transaction, start: Option<DateTime>, end: Option<DateTime>, category: Option<int>)
    ensures PassesAll(t, ActiveFilters(start, end, category)) <==> Matches(t, start, end, category)
  {
    var fs := ActiveFilters(start, end, category);
    if Matches(t, start, end, category) {
      forall i | 0 <= i < |fs| ensures Passes(t, fs[i]) {
      }
    } else {
      if start.Some? && !NotAfter(start.value, t.date) {
        assert fs[0] == Since(start.value);
      } else if end.Some? && !NotAfter(t.date, end.value) {
        assert fs[if start.Some? then 1 else 0] == Until(end.value);
      } else {
        assert fs[|fs| - 1] == InCategory(category.value);
      }
    }
  }

  class Account {
    var name: string
    var balance: real
    var transactions: seq<Transaction>

    /** The cached balance equals the sum of the recorded amounts. */
    ghost predicate Valid()
      reads this, set t | t in transactions
    {
      balance == Sum(Amounts(transactions))
    }

    /** An empty account with balance 0. */
    constructor (name: string)
      ensures this.name == name && balance == 0.0 && transactions == []
      ensures Valid()
    {
      this.name := name;
      balance := 0.0;
      transactions := [];
    }

    /** Records a new transaction stamped `now` at the end of the ledger and adds its
        amount to the balance in the same step. */
    method AddTransaction(now: DateTime, amount: real, category: int, description: string := "")
      returns (t: Transaction)
      modifies this
      ensures fresh(t)
      ensures t.amount == amount && t.date == now && t.category == category && t.description == description
      ensures transactions == old(transactions) + [t]
      ensures balance == old(balance) + amount
      ensures name == old(name)
      ensures old(Valid()) ==> Valid()
    {
      t := new Transaction(now, amount, category, description);
      AmountsAppend(transactions, t);
      SumAppend(Amounts(transactions), amount);
      transactions := transactions + [t];
      balance := balance + amount;
    }

    /** The ledger entries that satisfy every supplied filter, in ledger order. */
    function GetTransactions(start: Option<DateTime> := None, end: Option<DateTime> := None,
                             category: Option<int> := None): (r: seq<Transaction>)
      reads this, set t | t in transactions
      // the three successive comprehensions select what one pass over all the
      // active filters, in the same order, selects
      ensures r == Keep(transactions, ActiveFilters(start, end, category))
    {
      KeepWithoutFilters(transactions);
      StageThen(transactions, [], StartFilter(start));
      assert [] + Listed(StartFilter(start)) == Listed(StartFilter(start));
      StageThen(transactions, Listed(StartFilter(start)), EndFilter(end));
      StageThen(transactions, Listed(StartFilter(start)) + Listed(EndFilter(end)), CategoryFilter(category));
      var sinceStart := Stage(transactions, StartFilter(start));
      var untilEnd := Stage(sinceStart, EndFilter(end));
      Stage(untilEnd, CategoryFilter(category))
    }
  }

  /** One `if` of `get_transactions`: apply the comprehension when there is one. */
  function Stage(ts: seq<Transaction>, f: Option<Filter>): (r: seq<Transaction>)
    reads set t | t in ts
    ensures forall t :: t in r ==> t in ts
  {
    if f.Some? then Keep(ts, [f.value]) else ts
  }

  lemma StageThen(ts: seq<Transaction>, fs: seq<Filter>, f: Option<Filter>)
    ensures Stage(Keep(ts, fs), f) == Keep(ts, fs + Listed(f))
  {
    if f.Some? {
      KeepThen(ts, fs, f.value);
    } else {
      assert fs + [] == fs;
    }
  }

  /** The amounts of a ledger, in order. */
  function Amounts(ts: seq<Transaction>): (r: seq<real>)
    reads set t | t in ts
  {
    seq(|ts|, i requires 0 <= i < |ts| reads set t | t in ts => ts[i].amount)
  }

  lemma AmountsAppend(ts: seq<Transaction>, t: Transaction)
    ensures Amounts(ts + [t]) == Amounts(ts) + [t.amount]
  {
  }

  /** `get_transactions` returns, in ledger order, exactly the entries meeting every
      supplied filter. */
  lemma GetTransactionsSelectsMatching(a: Account, start: Option<DateTime>, end: Option<DateTime>, category: Option<int>)
    ensures var r := a.GetTransactions(start, end, category);
            && IsSubsequence(r, a.transactions)
            && (forall t :: t in r ==> t in a.transactions && Matches(t, start, end, category))
            && (forall t :: t in a.transactions && Matches(t, start, end, category) ==> t in r)
  {
    KeepIsSubsequence(a.transactions, ActiveFilters(start, end, category));
    forall t | t in a.transactions
      ensures PassesAll(t, ActiveFilters(start, end, category)) <==> Matches(t, start, end, category)
    {
      ActiveFiltersMeanMatches(t, start, end, category);
    }
  }

  /** Without filters, or with category 0, the whole ledger comes back in insertion order. */
  lemma GetTransactionsUnfiltered(a: Account, category: Option<int>)
    requires category.None? || category.value == 0
    ensures a.GetTransactions(None, None, category) == a.transactions
  {
  }
}
