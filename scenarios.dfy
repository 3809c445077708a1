/** Concrete uses of the ledger engine: the budget thresholds, a rejected
    add, a rejected delete, and a session that starts from an absent file. */
module Scenarios {
  import opened Wrappers
  import opened Amounts
  import opened Ledger
  import opened Store

  /** The value of a four-digit string of digits, digit by digit. */
  lemma FourDigits(s: string)
    requires |s| == 4 && AllDigits(s)
    ensures DigitsValue(s) == (s[0] as int - '0' as int) * 1000 + (s[1] as int - '0' as int) * 100
                              + (s[2] as int - '0' as int) * 10 + (s[3] as int - '0' as int)
  {
    assert s[..3][..2] == s[..2] && s[..2][..1] == s[..1] && s[..1][..0] == [];
    assert DigitsValue(s[..1]) == s[0] as int - '0' as int;
    assert DigitsValue(s[..2]) == DigitsValue(s[..1]) * 10 + (s[1] as int - '0' as int);
    assert DigitsValue(s[..3]) == DigitsValue(s[..2]) * 10 + (s[2] as int - '0' as int);
  }

  /** The value of a three-digit string of digits, digit by digit. */
  lemma ThreeDigits(s: string)
    requires |s| == 3 && AllDigits(s)
    ensures DigitsValue(s) == (s[0] as int - '0' as int) * 100 + (s[1] as int - '0' as int) * 10
                              + (s[2] as int - '0' as int)
  {
    assert s[..2][..1] == s[..1] && s[..1][..0] == [];
    assert DigitsValue(s[..1]) == s[0] as int - '0' as int;
    assert DigitsValue(s[..2]) == DigitsValue(s[..1]) * 10 + (s[1] as int - '0' as int);
  }

  /** An expense of 1000 is over a budget of "900". */
  lemma OverBudgetExample()
    ensures ClassifyBudget("900", 1000.0) == OverBudget
  {
    ThreeDigits("900");
  }

  /** An expense of 1000 is within a budget of "1100", and so is an expense
      exactly equal to the limit; 1200 is over it. */
  lemma WithinBudgetExamples()
    ensures ClassifyBudget("1100", 1000.0) == WithinBudget
    ensures ClassifyBudget("1100", 1100.0) == WithinBudget
    ensures ClassifyBudget("1100", 1200.0) == OverBudget
  {
    FourDigits("1100");
  }

  /** The budget field's initial text "0.00" is a valid limit of zero, and a
      non-numeric text such as "abc" sets no budget. */
  lemma DefaultAndUnsetBudget()
    ensures ClassifyBudget("0.00", 0.0) == WithinBudget
    ensures ClassifyBudget("0.00", 0.5) == OverBudget
    ensures ClassifyBudget("abc", 1000.0) == Unset
  {
    assert ParseAmount("0.00") == Some(0.0);
  }

  /** A non-numeric amount is rejected as invalid, an empty one as missing. */
  lemma AddRejections(date: string)
    ensures NewTransaction(date, Some(Expense), "Rent", "notanumber") == Failure(InvalidAmount)
    ensures NewTransaction(date, Some(Expense), "Rent", "") == Failure(MissingField)
    ensures NewTransaction(date, None, "Rent", "12") == Failure(MissingField)
  {
    assert ParseAmount("notanumber").None?;
  }

  /** The amount texts of the session below parse to the numbers they spell. */
  lemma SessionAmounts()
    ensures ParseAmount("5000") == Some(5000.0)
    ensures ParseAmount("1200") == Some(1200.0)
  {
    FourDigits("5000");
    FourDigits("1200");
  }

  /** A ledger holding one income of 5000 has savings of 5000. */
  lemma FirstIncomeSummary(income: Transaction)
    requires income.kind == Income && income.amount == 5000.0
    ensures Summarize([income]) == Summary(5000.0, 0.0, 0.0, 5000.0)
  {
    SummarizeAppend([], income);
    assert [] + [income] == [income];
    assert TotalOf(Summarize([income]), Income) == 5000.0;
    assert TotalOf(Summarize([income]), Expense) == 0.0;
  }

  /** An income of 5000 followed by an expense of 1200 gives savings of 3800. */
  lemma SessionSummary(income: Transaction, expense: Transaction)
    requires income.kind == Income && income.amount == 5000.0
    requires expense.kind == Expense && expense.amount == 1200.0
    ensures Summarize([income, expense]) == Summary(5000.0, 1200.0, 0.0, 3800.0)
  {
    FirstIncomeSummary(income);
    SummarizeAppend([income], expense);
    assert [income] + [expense] == [income, expense];
    assert TotalOf(Summarize([income, expense]), Expense) == 1200.0;
  }

  /** Start from an absent file, add an income of 5000 and an expense of
      1200, and read back the summary: savings of 3800, over a budget of 1100. */
  method Session() {
    var income := Transaction("2024-01-01", Income, "Salary", 5000.0);
    var expense := Transaction("2024-01-02", Expense, "Rent", 1200.0);
    SessionAmounts();
    var store := new TransactionStore();
    var a := store.Add("2024-01-01", Some(Income), "Salary", "5000");
    var b := store.Add("2024-01-02", Some(Expense), "Rent", "1200");
    assert store.Loaded() == [income, expense];
    var rows, s, status := store.Refresh("1100");
    assert s == Summary(5000.0, 1200.0, 0.0, 3800.0) by {
      SessionSummary(income, expense);
    }
    assert status == OverBudget by {
      assert status == ClassifyBudget("1100", 1200.0);
      WithinBudgetExamples();
    }
  }

  /** Rejected adds and deletes leave the file as it was; an accepted delete
      of the first row leaves the second one alone. */
  method Rejections(first: Transaction, second: Transaction) {
    var store := new TransactionStore();
    store.Save([first, second]);
    var c := store.Add("2024-01-03", Some(Expense), "Rent", "notanumber");
    assert c == Failure(InvalidAmount) by { AddRejections("2024-01-03"); }
    assert store.Loaded() == [first, second];
    var d := store.Delete([2]);
    assert d == Fail(UnknownRow) && store.Loaded() == [first, second];
    var e := store.Delete([]);
    assert e == Fail(NoSelection) && store.Loaded() == [first, second];
    var f := store.Delete([0]);
    assert f == Pass;
    assert store.Loaded() == [first, second][..0] + [first, second][1..] == [second];
  }
}
