/** The ledger's data model and everything derived from a transaction
    collection: per-type totals, the savings summary, the budget status, the
    per-type grouping behind the chart, and the category suggestions. */
module Ledger {
  import opened Wrappers
  import opened Amounts

  /** The closed set of transaction types offered by the read-only type selector. */
  datatype TxType = Income | Expense | Investment

  /** One row of the ledger file: Date, Type, Category, Amount. */
  datatype Transaction = Transaction(date: string, kind: TxType, category: string, amount: real)

  /** The text stored in the Type column for each type. */
  function TypeName(t: TxType): string {
    match t
    case Income => "Income"
    case Expense => "Expense"
    case Investment => "Investment"
  }

  // ---------------------------------------------------------------------------
  // Per-type totals: filter the rows of one type, then sum their amounts.

  /** The rows of type t, in ledger order. */
  function OfType(rows: seq<Transaction>, t: TxType): (r: seq<Transaction>)
    ensures |r| <= |rows|
    ensures forall x :: x in r ==> x in rows && x.kind == t
    ensures forall x :: x in rows && x.kind == t ==> x in r
  {
    if rows == [] then []
    else
      var init, last := rows[..|rows| - 1], rows[|rows| - 1];
      assert rows == init + [last];
      if last.kind == t then OfType(init, t) + [last] else OfType(init, t)
  }

  /** The sum of the Amount column. */
  function SumAmounts(rows: seq<Transaction>): real {
    if rows == [] then 0.0 else SumAmounts(rows[..|rows| - 1]) + rows[|rows| - 1].amount
  }

  /** The total amount recorded under type t (0 when no row has that type). */
  function Total(rows: seq<Transaction>, t: TxType): real {
    SumAmounts(OfType(rows, t))
  }

  /** What one transaction adds to the total of type t. */
  function Contribution(x: Transaction, t: TxType): real {
    if x.kind == t then x.amount else 0.0
  }

  lemma {:induction false} OfTypeConcat(a: seq<Transaction>, b: seq<Transaction>, t: TxType)
    ensures OfType(a + b, t) == OfType(a, t) + OfType(b, t)
    decreases |b|
  {
    if b == [] {
      assert a + b == a;
    } else {
      var init, last := b[..|b| - 1], b[|b| - 1];
      assert (a + b)[..|a + b| - 1] == a + init;
      assert (a + b)[|a + b| - 1] == last;
      OfTypeConcat(a, init, t);
    }
  }

  lemma {:induction false} SumConcat(a: seq<Transaction>, b: seq<Transaction>)
    ensures SumAmounts(a + b) == SumAmounts(a) + SumAmounts(b)
    decreases |b|
  {
    if b == [] {
      assert a + b == a;
    } else {
      var init := b[..|b| - 1];
      assert (a + b)[..|a + b| - 1] == a + init;
      SumConcat(a, init);
    }
  }

  /** Totals are additive over concatenation of ledgers. */
  lemma TotalConcat(a: seq<Transaction>, b: seq<Transaction>, t: TxType)
    ensures Total(a + b, t) == Total(a, t) + Total(b, t)
  {
    OfTypeConcat(a, b, t);
    SumConcat(OfType(a, t), OfType(b, t));
  }

  /** A one-row ledger keeps its row exactly when the row has type t; with
      OfTypeConcat this fixes the filter's result, order and repetitions included. */
  lemma OfTypeSingle(x: Transaction, t: TxType)
    ensures OfType([x], t) == if x.kind == t then [x] else []
  {
    assert [x][..0] == [];
  }

  /** The filter keeps every row of type t as many times as it occurs, and no other row. */
  lemma {:induction false} OfTypeMultiset(rows: seq<Transaction>, t: TxType)
    ensures forall x :: multiset(OfType(rows, t))[x] == if x.kind == t then multiset(rows)[x] else 0
  {
    if rows != [] {
      var init, last := rows[..|rows| - 1], rows[|rows| - 1];
      assert rows == init + [last];
      OfTypeMultiset(init, t);
    }
  }

  /** A ledger of one row contributes exactly that row's amount to its own type. */
  lemma TotalSingle(x: Transaction, t: TxType)
    ensures Total([x], t) == Contribution(x, t)
  {
    OfTypeSingle(x, t);
    assert [x][..0] == [];
    assert SumAmounts([x]) == SumAmounts([]) + x.amount;
  }

  /** Appending a row moves the total of its type by its amount and leaves the
      other totals unchanged. */
  lemma TotalAppend(rows: seq<Transaction>, x: Transaction, t: TxType)
    ensures Total(rows + [x], t) == Total(rows, t) + Contribution(x, t)
  {
    TotalConcat(rows, [x], t);
    TotalSingle(x, t);
  }

  // ---------------------------------------------------------------------------
  // Removal by position.

  /** The ledger with the row at position i dropped and the later rows moved
      down by one. */
  function RemoveAt(rows: seq<Transaction>, i: nat): (r: seq<Transaction>)
    requires i < |rows|
    ensures |r| == |rows| - 1
    ensures forall j :: 0 <= j < i ==> r[j] == rows[j]
    ensures forall j :: i <= j < |r| ==> r[j] == rows[j + 1]
  {
    rows[..i] + rows[i + 1..]
  }

  /** Removing the row at i takes exactly that row's contribution out of every total. */
  lemma TotalRemoveAt(rows: seq<Transaction>, i: nat, t: TxType)
    requires i < |rows|
    ensures Total(RemoveAt(rows, i), t) == Total(rows, t) - Contribution(rows[i], t)
  {
    assert rows == rows[..i] + ([rows[i]] + rows[i + 1..]);
    TotalConcat(rows[..i], [rows[i]] + rows[i + 1..], t);
    TotalConcat([rows[i]], rows[i + 1..], t);
    TotalConcat(rows[..i], rows[i + 1..], t);
    TotalSingle(rows[i], t);
  }

  // ---------------------------------------------------------------------------
  // The summary panel.

  datatype Summary = Summary(income: real, expense: real, investment: real, savings: real)

  /** The figures of the summary panel: the three per-type totals and the savings. */
  function Summarize(rows: seq<Transaction>): (s: Summary)
    ensures s.savings == s.income - s.expense - s.investment
    ensures rows == [] ==> s == Summary(0.0, 0.0, 0.0, 0.0)
  {
    var income := Total(rows, Income);
    var expense := Total(rows, Expense);
    var investment := Total(rows, Investment);
    Summary(income, expense, investment, income - expense - investment)
  }

  /** How a transaction moves the savings figure: up for income, down otherwise. */
  function SavingsEffect(x: Transaction): real {
    if x.kind == Income then x.amount else -x.amount
  }

  function TotalOf(s: Summary, t: TxType): real {
    match t
    case Income => s.income
    case Expense => s.expense
    case Investment => s.investment
  }

  /** After appending x, the total of x's type grows by x's amount, the other
      two totals are unchanged, and savings moves by x's effect. */
  lemma SummarizeAppend(rows: seq<Transaction>, x: Transaction)
    ensures forall t :: TotalOf(Summarize(rows + [x]), t) == TotalOf(Summarize(rows), t) + Contribution(x, t)
    ensures Summarize(rows + [x]).savings == Summarize(rows).savings + SavingsEffect(x)
  {
    TotalAppend(rows, x, Income);
    TotalAppend(rows, x, Expense);
    TotalAppend(rows, x, Investment);
  }

  /** After removing the row at i, the totals lose exactly that row's
      contribution, and savings moves back by its effect. */
  lemma SummarizeRemoveAt(rows: seq<Transaction>, i: nat)
    requires i < |rows|
    ensures forall t :: TotalOf(Summarize(RemoveAt(rows, i)), t) == TotalOf(Summarize(rows), t) - Contribution(rows[i], t)
    ensures Summarize(RemoveAt(rows, i)).savings == Summarize(rows).savings - SavingsEffect(rows[i])
  {
    TotalRemoveAt(rows, i, Income);
    TotalRemoveAt(rows, i, Expense);
    TotalRemoveAt(rows, i, Investment);
  }

  // ---------------------------------------------------------------------------
  // Budget status.

  datatype BudgetStatus = Unset | OverBudget | WithinBudget

  /** Compares total expense against the limit typed into the budget field. */
  function ClassifyBudget(limitText: string, expense: real): (r: BudgetStatus)
    ensures r == Unset <==> ParseAmount(limitText).None?
    ensures r == OverBudget <==> ParseAmount(limitText).Some? && expense > ParseAmount(limitText).value
    ensures r == WithinBudget <==> ParseAmount(limitText).Some? && expense <= ParseAmount(limitText).value
  {
    match ParseAmount(limitText)
    case None => Unset
    case Some(limit) => if expense > limit then OverBudget else WithinBudget
  }

  // ---------------------------------------------------------------------------
  // Grouped sums for the chart: one entry per type that occurs in the ledger.

  /** The types that occur in the ledger. */
  function Kinds(rows: seq<Transaction>): set<TxType> {
    set x | x in rows :: x.kind
  }

  /** Accumulates the rows one by one into a map from type to running sum. */
  function Grouped(rows: seq<Transaction>): map<TxType, real> {
    if rows == [] then map[]
    else
      var g, last := Grouped(rows[..|rows| - 1]), rows[|rows| - 1];
      g[last.kind := (if last.kind in g then g[last.kind] else 0.0) + last.amount]
  }

  /** The grouping has a key for exactly the types present, and each value is
      the same total the summary panel shows. */
  lemma {:induction false} GroupedAgreesWithTotals(rows: seq<Transaction>)
    ensures Grouped(rows).Keys == Kinds(rows)
    ensures forall t :: t in Grouped(rows) ==> Grouped(rows)[t] == Total(rows, t)
  {
    if rows != [] {
      var init, last := rows[..|rows| - 1], rows[|rows| - 1];
      assert rows == init + [last];
      GroupedAgreesWithTotals(init);
      assert Kinds(rows) == Kinds(init) + {last.kind};
      forall t | t in Grouped(rows)
        ensures Grouped(rows)[t] == Total(rows, t)
      {
        TotalAppend(init, last, t);
        if t != last.kind {
          assert t in Grouped(init);
        }
      }
    }
  }

  /** On a non-empty ledger every summary total is either an entry of the
      grouping or, for a type with no rows, zero. */
  lemma GroupedMatchesSummary(rows: seq<Transaction>, t: TxType)
    ensures t in Grouped(rows) ==> Grouped(rows)[t] == TotalOf(Summarize(rows), t)
    ensures t !in Grouped(rows) ==> TotalOf(Summarize(rows), t) == 0.0
  {
    GroupedAgreesWithTotals(rows);
  }

  // ---------------------------------------------------------------------------
  // Category suggestions.

  /** The suggestion lists keyed by the Type text. */
  const CategoryTable: map<string, seq<string>> := map[
    "Income" := ["Salary", "Freelance", "Bonus", "Other"],
    "Expense" := ["Rent", "Groceries", "Utilities", "Entertainment", "Other"],
    "Investment" := ["Stocks", "Crypto", "Real Estate", "Mutual Funds", "Other"]
  ]

  /** The categories offered for a Type text; ["Other"] for a text with no entry. */
  function Suggestions(typeText: string): (r: seq<string>)
    ensures |r| > 0 && r[|r| - 1] == "Other"
    ensures forall c :: c in r ==> c != ""
  {
    if typeText in CategoryTable then CategoryTable[typeText] else ["Other"]
  }

  /** The category preselected when a type is chosen: its first suggestion. */
  function DefaultCategory(t: TxType): (c: string)
    ensures TypeName(t) in CategoryTable && c == CategoryTable[TypeName(t)][0]
    ensures c in Suggestions(TypeName(t)) && c != "" && c != "Other"
  {
    CategoryTable[TypeName(t)][0]
  }
}
