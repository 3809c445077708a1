# Personal finance ledger engine — a Dafny model

The program is a single-window personal finance manager (`jj.py`). Around its
widgets sits a small ledger engine. This project models that engine and proves
properties about it:

- **The store.** The ledger file `transactions.csv` holds rows of `Date, Type,
  Category, Amount`. It is modelled as the field `file: Option<seq<Transaction>>`
  of the class `Store.TransactionStore`, where `None` means the file does not
  exist. A load returns the saved rows, and the empty ledger when the file is
  absent or holds no rows. A save overwrites the whole file.
- **Add.** The operation is rejected when the type, category or amount field is
  empty, or when the amount text is not a number. Otherwise it reloads the
  ledger, appends one row dated with the given date and saves the whole ledger.
  Two things are explicit parameters here: the date, which the program takes
  from the clock, and the selected type, which is `None` when the selector's
  text is empty.
- **Delete by position.** The operation is rejected when nothing is selected.
  Otherwise it reloads the ledger, drops the row at the first selected position,
  renumbers the rest and saves.
- **The summary panel.** It shows the per-type totals of Income, Expense and
  Investment, and savings = income − expense − investment.
- **The budget status.** It is Unset when the budget text is not a number,
  OverBudget when expense is strictly above the limit, and WithinBudget
  otherwise.
- **The chart data.** These are the per-type sums of `groupby('Type')`, with
  nothing to draw for an empty ledger.
- **The category suggestions.** Each type has a fixed list of categories, and
  the first one is the default.

Modules:

- `Wrappers` (`wrappers.dfy`): Option, Result, Outcome.
- `Amounts` (`amounts.dfy`): the number parser used on the amount and budget
  texts.
- `Ledger` (`ledger.dfy`): the data model, totals, summary, budget classifier,
  grouping and category table, as functions and lemmas.
- `Store` (`store.dfy`): the persisted ledger as a class whose methods reload,
  change and save it.
- `Scenarios` (`scenarios.dfy`): concrete sessions. One starts from an absent
  file, adds an income of 5000 and an expense of 1200, and reads back savings
  of 3800, over a budget of 1100. Another shows rejected adds and deletes
  leaving the file untouched.

Amounts are Dafny `real`s, not floating-point numbers.

The delete callback does not catch the case where the selected position names
no row of the reloaded ledger. In the program, pandas then raises a `KeyError`
before the save, so the file is left as it was. The model returns this case as
the error `UnknownRow`, also with the file unchanged.

## Model

| member | source | states |
|---|---|---|
| Store.TransactionStore.Loaded | jj.py:11-18 | An absent file, or one with no rows, loads as the empty ledger; otherwise the load returns exactly the saved rows |
| Store.TransactionStore.Load | jj.py:11-18 | A load returns exactly what `Loaded` describes: the saved rows, or the empty ledger for an absent file |
| Store.TransactionStore.Save | jj.py:21-22 | The file is overwritten with the whole collection, and a later load returns exactly that collection |
| Store.NewTransaction | jj.py:36-56 | An empty type, category or amount gives MissingField. Otherwise an unparseable amount gives InvalidAmount. Success holds exactly when all fields are filled and the amount parses, and the row then carries the given date, type and category and the parsed amount |
| Store.TransactionStore.Add | jj.py:36-56 | The result is the validation outcome. On success the file becomes exactly the old ledger plus the new row at the end. On failure the file is unchanged |
| Store.TransactionStore.Delete | jj.py:59-71 | An empty selection gives NoSelection. A position past the end gives UnknownRow. Otherwise the file becomes the old ledger without the row at the first selected position. On either error the file is unchanged |
| Ledger.RemoveAt | jj.py:66-67 | Dropping row i shortens the ledger by one, keeps rows before i in place and shifts every later row down by one |
| Ledger.OfType | jj.py:78-80 | Every filtered row is a ledger row of the given type, every ledger row of that type is kept, and the result is no longer than the ledger |
| Ledger.OfTypeMultiset | jj.py:78-80 | The filter keeps each row of the given type exactly as many times as it occurs in the ledger, and no row of another type |
| Ledger.OfTypeSingle | jj.py:78-80 | A one-row ledger keeps its row exactly when the row has the given type; with `OfTypeConcat` this fixes the filter's result in order |
| Ledger.TotalConcat | jj.py:78-80 | Each per-type total is additive over concatenation of ledgers |
| Ledger.TotalAppend | jj.py:48-52 | Appending a row raises the total of its own type by its amount and leaves the other totals unchanged |
| Ledger.TotalRemoveAt | jj.py:65-68 | Deleting row i lowers the total of that row's type by its amount and leaves the other totals unchanged |
| Ledger.Summarize | jj.py:78-81 | Savings equal income minus expense minus investment, and the empty ledger has all four figures zero |
| Ledger.SummarizeAppend | jj.py:48-52 | After an add, the added type's total grows by the amount, the other two are unchanged, and savings move up by the amount for Income and down for the other types |
| Ledger.SummarizeRemoveAt | jj.py:65-68 | After a delete, every total loses exactly the removed row's contribution, and savings move back by its effect |
| Ledger.ClassifyBudget | jj.py:94-101 | The classifier is total and exclusive. An unparseable limit gives Unset, an expense strictly above the limit gives OverBudget, and an expense at or below it gives WithinBudget |
| Ledger.GroupedAgreesWithTotals | jj.py:111 | The grouping has a key for exactly the types present in the ledger, and each key's sum equals that type's total |
| Ledger.GroupedMatchesSummary | jj.py:78-80 | Each grouped sum equals the matching summary-panel total, and a type absent from the grouping has total zero |
| Ledger.Suggestions | jj.py:27-32 | Every type text gets a non-empty suggestion list of non-empty names ending in "Other" |
| Ledger.DefaultCategory | jj.py:27-33 | Each of the three types has a table entry, and its default category is that entry's first element, a non-empty name other than "Other" |
| Ledger.OfTypeConcat | jj.py:78-80 | Filtering by type distributes over concatenation |
| Ledger.SumConcat | jj.py:78-80 | The amount sum distributes over concatenation |
| Store.TransactionStore.Refresh | jj.py:74-101 | The refresh reloads the current ledger, computes its summary, and classifies its expense against the budget text |
| Store.TransactionStore.ShowGraph | jj.py:104-111 | An empty ledger gives nothing to draw. Otherwise there is one sum per type present, equal to that type's total |
| Amounts.ParseAmount | jj.py:47 | The empty text is not a number. An accepted text consists only of digits, decimal points and a leading sign. A plain digit string denotes the number it spells |
| Amounts.ParseDecimal | jj.py:47 | Digits, a decimal point and digits, with at least one digit in all, are accepted and denote the whole part plus the fraction digits over the matching power of ten |
| Amounts.ParseSigned | jj.py:47 | A leading '-' negates the value of the unsigned text after it, a leading '+' keeps it, and a text the unsigned reading rejects stays rejected with either sign |
| Scenarios.OverBudgetExample | jj.py:94-97 | An expense of 1000 against the budget "900" is OverBudget |
| Scenarios.WithinBudgetExamples | jj.py:94-99 | An expense of 1000, or one equal to the limit, against "1100" is WithinBudget, and an expense of 1200 is OverBudget |
| Scenarios.DefaultAndUnsetBudget | jj.py:94-101 | The initial budget text "0.00" is a limit of zero, and "abc" gives Unset |
| Scenarios.AddRejections | jj.py:42-47 | A non-numeric amount gives InvalidAmount, and an empty amount or type gives MissingField |
| Scenarios.SessionSummary | jj.py:78-81 | An income of 5000 followed by an expense of 1200 gives totals of 5000, 1200 and 0 and savings of 3800 |

## Left out

- The tkinter window is not modelled: widgets, `StringVar`s, message boxes, the listbox rendering, `exit_app` and the main loop. The engine's inputs are explicit parameters instead, and its messages are error values.
- The matplotlib drawing is not modelled: figure, bar colours, labels and the alphabetical order of the bars. Only the grouped sums that feed it are.
- The CSV encoding and decoding inside pandas is not modelled: column type inference, strings pandas reads as missing values, and float formatting on write. The file is an abstract saved sequence whose load returns what was last saved.
- Malformed, non-empty files are not modelled. In the program a parse failure while loading inside add is caught as a `ValueError` and reported as an invalid amount; elsewhere it propagates.
- `datetime.now()` and the `%Y-%m-%d` formatting are not modelled: the date is an opaque string parameter.
- Amounts.ParseAmount: accepts only an optional sign, digits and at most one decimal point. Python's `float()` also accepts surrounding whitespace, exponents, underscores, `inf` and `nan`, which this model rejects.
- Floating-point arithmetic, rounding and the `:.2f` display are not modelled: amounts are exact reals.
- Ledger.Suggestions: the type selector is read-only, so the `["Other"]` fallback of `categories.get` never reaches the program. The modelled types are the closed datatype `TxType`, which is why `DefaultCategory` has no unknown-type case where the program's `categories[selected_type]` would raise a `KeyError`.
