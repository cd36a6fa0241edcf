# Personal-finance ledger and valuation model

A Dafny model of the personal-finance core in `modulo/arquivo.py`. The core has four entities:

- A **transaction** records an amount, a timestamp, a category code and a description. It can be patched field by field.
- An **account** keeps an append-only ledger of transactions and a cached balance. The balance is raised in the same step that appends an entry. The ledger can be filtered by inclusive date bounds and by category.
- An **investment** is valued by compounding a monthly rate once per calendar-month boundary crossed since purchase. It can be sold into an account as a category-0 transaction.
- A **client** owns accounts and investments. Its net worth is recomputed on every call.

Layout, one module per component:

- `Dates.dfy`: naive timestamps and the calendar-month count.
- `Sums.dfy`: Python's `sum` over amounts.
- `Transactions.dfy`: class `Transaction` and the attribute patch.
- `Accounts.dfy`: class `Account`, the filters and the balance invariant.
- `Investments.dfy`: datatype `Investment`, `CalculateValue` and `Sell`.
- `Clients.dfy`: class `Client` and net worth.
- `Options.dfy`: an `Option` type for keyword arguments left at `None`.

How the source maps to the model:

- `Transaction`, `Account` and `Client` update their fields in place, so they are classes.
- `Investment` is never changed after it is built, so it is a datatype. `Purchase` models `Investment.__init__`, with the purchase time passed in.
- The clock is a `now: DateTime` parameter. A `DateTime` is a year, a month in 1..12, and one count (`withinMonth`) that orders the day, time and microseconds inside that month. `NotAfter` compares timestamps the way `datetime` does.
- Amounts and rates are `real`.

Behaviour the model keeps on purpose:

- `get_transactions` tests its arguments for truthiness. So a category of `0` imposes no constraint, the same as `None`. A `datetime` is always truthy.
- The entries `sell` creates have category 0, so they cannot be selected by category.
- `sell` leaves the investment as it was, so each call credits the account again. `Clients.SellIntoOwnAccount` has no counterpart of its own in the source: it is `sell` into one of the client's accounts, stated in terms of the client's net worth.
- `Transaction.Update` may overwrite `amount` without touching any account. If the new amount differs from the old one, the balance invariant `Account.Valid()` may no longer hold for the account that holds the entry. This is why `AddTransaction` only promises `old(Valid()) ==> Valid()`.

## Model

| member | source | states |
|---|---|---|
| Dates.MonthsElapsed | modulo/arquivo.py:146 | The count is 0 exactly when both instants fall in the same calendar month, whatever the day. It is non-negative exactly when the later calendar month is not earlier. It is 1 exactly for the next month, including December to January. A later timestamp never gives a negative count. |
| Dates.MonthsElapsedTwoReadings | modulo/arquivo.py:146 | The count as written, with the year and the month taken from two clock readings. When both readings fall in the same year it equals the one-reading count at the second reading. |
| Dates.YearRolloverBetweenReadings | modulo/arquivo.py:146 | Counterexample: a December purchase whose two readings straddle New Year is valued at -11 months, although each reading alone gives 0 or 1. |
| Sums.SumAppend | modulo/arquivo.py:85-86 | Appending an amount to a ledger raises the sum of its amounts by exactly that amount. This is the step that keeps the cached balance equal to the ledger sum. |
| Transactions.SetAttribute | modulo/arquivo.py:47-48 | One `setattr`: a key naming a field sets that field to the given value and leaves the other fields alone. Any other key leaves the transaction unchanged. |
| Transactions.PatchedIgnoresUnknownKeys | modulo/arquivo.py:46-48 | A patch whose keys name no field changes nothing and raises no error. |
| Transactions.PatchedKeepsUnnamedField | modulo/arquivo.py:46-48 | A field that no key names keeps its old value. |
| Transactions.PatchedTakesLastValue | modulo/arquivo.py:46-48 | A field named by a key ends with the value of the last entry naming it. For the distinct keys of `**attributes` that is the only such entry. |
| Transactions.Transaction.constructor | modulo/arquivo.py:16-28 | A new transaction holds the given amount, category and description (default empty), stamped with the current time. |
| Transactions.Transaction.Update | modulo/arquivo.py:39-48 | The fields afterwards are the old fields with the attributes applied in order. The loop invariant is the applied prefix. |
| Accounts.Keep | modulo/arquivo.py:103-107 | A filtered list holds exactly the entries of the input that pass every filter, and is no longer than the input. |
| Accounts.KeepIsSubsequence | modulo/arquivo.py:101-108 | Filtering only removes entries: the result is a subsequence of the ledger, in ledger order. |
| Accounts.KeepWithoutFilters | modulo/arquivo.py:101 | With no filter the list comes back unchanged. |
| Accounts.KeepThen | modulo/arquivo.py:103-107 | Filtering an already filtered list by one more condition is the same as filtering once by all the conditions together. |
| Accounts.ActiveFiltersMeanMatches | modulo/arquivo.py:102-107 | An entry passes the comprehensions `get_transactions` applies exactly when it meets every supplied bound. The bounds are `start <= date` and `date <= end`, inclusive, and `category == c` only for a non-zero `c`. |
| Accounts.Account.constructor | modulo/arquivo.py:61-70 | A new account has the given name, balance 0 and an empty ledger, so the balance invariant holds. |
| Accounts.Account.AddTransaction | modulo/arquivo.py:72-87 | Appends exactly one fresh transaction at the end of the ledger, with the given amount, category, description and time. Earlier entries stay as they were. The new transaction is returned. The balance rises by exactly the amount, and the balance invariant is preserved. |
| Accounts.Account.GetTransactions | modulo/arquivo.py:89-108 | The three successive comprehensions, each applied only when its argument is truthy, select exactly what one pass over all the active filters selects, in ledger order. The ledger and the balance are only read. |
| Accounts.GetTransactionsSelectsMatching | modulo/arquivo.py:101-108 | The result is a subsequence of the ledger. Every returned entry meets all supplied filters, and every ledger entry meeting them is returned. |
| Accounts.GetTransactionsUnfiltered | modulo/arquivo.py:101-108 | With no dates and no category, or with category 0, the whole ledger comes back in insertion order. |
| Investments.Purchase | modulo/arquivo.py:123-137 | A new investment holds the given type, amount and rate and is stamped with the current time. At that moment no month has elapsed, so it is worth exactly the amount. |
| Investments.PowerAdd | modulo/arquivo.py:147 | `x ** (m + n) == x ** m * x ** n` for whole exponents. |
| Investments.CalculateValue | modulo/arquivo.py:139-147 | In the month of purchase the value is the initial amount. One month boundary later it is `initial_amount * (1 + rate)`. |
| Investments.ValueNextMonth | modulo/arquivo.py:146-147 | Each further month boundary multiplies the value by `1 + rate`. |
| Investments.ValueCompounds | modulo/arquivo.py:146-147 | `k` further month boundaries multiply the value by `(1 + rate) ** k`. |
| Investments.ValueNeverDecreases | modulo/arquivo.py:146-147 | With a non-negative amount and rate, a later clock reading never gives a smaller value. |
| Investments.Sell | modulo/arquivo.py:149-157 | Appends one fresh transaction to the account: the current value as amount, category 0, description `"Venda de " + type`. Earlier entries are kept. The balance rises by that value and the balance invariant is preserved. |
| Clients.Client.constructor | modulo/arquivo.py:170-179 | A new client has the given name and no accounts or investments. |
| Clients.Client.AddAccount | modulo/arquivo.py:181-193 | Appends one fresh, empty account with balance 0 and returns it. Investments are unchanged and net worth is unchanged. |
| Clients.Client.AddInvestment | modulo/arquivo.py:195-202 | Appends the investment without checking whom it was bought for, leaving the accounts alone. Net worth then rises by the investment's current value. |
| Clients.Client.GetNetWorth | modulo/arquivo.py:204-213 | Net worth is the sum of the balances plus the sum of the investment values, read without changing anything. While every balance agrees with its ledger it equals the total of all recorded amounts plus the values. |
| Clients.NetWorthAfterCredit | modulo/arquivo.py:211-213 | Raising one entry of the balance list by an amount raises the net-worth sum by exactly that amount. |
| Clients.SellIntoOwnAccount | modulo/arquivo.py:156-157 | Selling a registered investment into one of the client's own accounts appends one fresh category-0 entry for the sale value, described as the sale of the investment's type, to that account's ledger and keeps its earlier entries. It raises that account's balance by the sale value, leaves every other balance alone, and keeps every account's balance in agreement with its ledger. Net worth rises by the sale value, because the proceeds count in the account while the sold investment stays registered and still counts at its value. |

## Findings

| source | as written | input that shows it | evidently intended | confidence | as-written member | corrected member |
|---|---|---|---|---|---|---|
| modulo/arquivo.py:146 | The elapsed-month count takes the year from one `datetime.now()` call and the month from a second one. | Purchase on 2024-12-10. The first reading is 2024-12-31 23:59:59.999999 and the second is 2025-01-01 00:00:00. The count is (2024-2024)*12 + (1-12) = -11, so the value is divided by `(1 + rate) ** 11`. | Read the clock once and take the year and the month from that one reading. | medium: needs a year change between two consecutive calls; not executed | Dates.YearRolloverBetweenReadings | Dates.MonthsElapsed |

## Left out

- Reading the clock: every `datetime.now()` call (modulo/arquivo.py:26, 135, 146) is the `now` parameter of the operation that reads it.
- Investments.Sell: `sell` reads the clock in `calculate_value` and again when the transaction is created. The model uses one `now` for both.
- Floating point: amounts, balances, `**` and `sum` are exact `real` arithmetic. IEEE rounding is not modelled.
- Investments.CalculateValue: requires that `now` is not in an earlier calendar month than the purchase. Python would compute a negative whole power there, or raise `ZeroDivisionError` for a rate of -1. The clock is assumed not to run backwards.
- Clients.Client.GetNetWorth: requires the same of every registered investment, for the same reason.
- Transactions.Transaction.Update: requires a value of the field's own type for each key that names a field. Python's `setattr` would store a value of any type.
- Transactions.Transaction.Update: keys that name methods or special attributes pass `hasattr` in Python. There `setattr` overwrites a method such as `update`, replaces the whole instance dictionary for `__dict__` (removing the four data fields), or raises `TypeError` or `AttributeError` (`__dict__` with a non-dict value, `__class__`, `__weakref__`). The model treats all of them as unknown keys and never raises.
- Accounts.Account.GetTransactions: with no active filter Python returns the ledger list object itself, so a caller who mutates the result mutates the ledger. The model returns the ledger as a value.
- `Transaction.__str__` (modulo/arquivo.py:30-37): output formatting only.
- The `Investment.client` back-reference (modulo/arquivo.py:137): no operation ever reads it.
- The demonstration block (modulo/arquivo.py:216-242) and `exemplo.py`: they print results and have no logic of their own.
