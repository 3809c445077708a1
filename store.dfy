/** The persisted ledger and the operations the user interface invokes on it:
    load, save, add, delete by position, refresh of the summary panel, and the
    data behind the chart. Every operation reloads the whole collection from the
    store and, when it changes it, writes the whole collection back. */
module Store {
  import opened Wrappers
  import opened Amounts
  import opened Ledger

  /** Why an add is rejected: a field left empty, or an amount that is not a number. */
  datatype AddError = MissingField | InvalidAmount

  /** Why a delete is rejected: nothing selected, or a selected position that
      names no row of the reloaded ledger. */
  datatype DeleteError = NoSelection | UnknownRow

  /** The row an add with these inputs appends, or the reason it is rejected.
      kind is None when the type selector's text is empty. The emptiness check
      comes before the amount is parsed. */
  function NewTransaction(date: string, kind: Option<TxType>, category: string, amountText: string)
    : (r: Result<Transaction, AddError>)
    ensures r == Failure(MissingField) <==> kind.None? || category == "" || amountText == ""
    ensures r == Failure(InvalidAmount) <==>
              kind.Some? && category != "" && amountText != "" && ParseAmount(amountText).None?
    ensures r.Success? <==> kind.Some? && category != "" && ParseAmount(amountText).Some?
    ensures r.Success? ==>
              && r.value.date == date && r.value.kind == kind.value
              && r.value.category == category && Some(r.value.amount) == ParseAmount(amountText)
  {
    if kind.None? || category == "" || amountText == "" then Failure(MissingField)
    else match ParseAmount(amountText)
      case None => Failure(InvalidAmount)
      case Some(amount) => Success(Transaction(date, kind.value, category, amount))
  }

  /** The ledger file. file is None while the file does not exist; a file
      holding no rows reads back like an absent one. */
  class TransactionStore {
    var file: Option<seq<Transaction>>

    /** A store whose file has not been created yet. */
    constructor ()
      ensures file == None
    {
      file := None;
    }

    /** What a load returns: the saved rows, or no rows when there is no file. */
    function Loaded(): (rows: seq<Transaction>)
      reads this
      ensures file.None? ==> rows == []
      ensures file.Some? ==> rows == file.value
    {
      file.GetOr([])
    }

    /** Reads the whole collection; an absent or empty file gives the empty ledger. */
    method Load() returns (rows: seq<Transaction>)
      ensures rows == Loaded()
    {
      rows := Loaded();
    }

    /** Overwrites the file with the whole collection. */
    method Save(rows: seq<Transaction>)
      modifies this
      ensures file == Some(rows)
      ensures Loaded() == rows
    {
      file := Some(rows);
    }

    /** Validates the fields and, when they are acceptable, appends one row
        dated date to the reloaded ledger and saves it. A rejected add leaves
        the file untouched. */
    method Add(date: string, kind: Option<TxType>, category: string, amountText: string)
      returns (r: Result<Transaction, AddError>)
      modifies this
      ensures r == NewTransaction(date, kind, category, amountText)
      ensures r.Success? ==> file == Some(old(Loaded()) + [r.value])
      ensures r.Failure? ==> file == old(file)
    {
      if kind.None? || category == "" || amountText == "" {
        return Failure(MissingField);
      }
      var amount := ParseAmount(amountText);
      if amount.None? {
        return Failure(InvalidAmount);
      }
      var rows := Load();
      var tx := Transaction(date, kind.value, category, amount.value);
      Save(rows + [tx]);
      r := Success(tx);
    }

    /** Deletes the row at the first selected position of the reloaded
        ledger and saves the renumbered rest. With nothing selected, or a
        position past the end, the file is untouched. */
    method Delete(selection: seq<nat>) returns (r: Outcome<DeleteError>)
      modifies this
      ensures r == Fail(NoSelection) <==> selection == []
      ensures r == Fail(UnknownRow) <==> selection != [] && selection[0] >= |old(Loaded())|
      ensures r.Pass? <==> selection != [] && selection[0] < |old(Loaded())|
      ensures r.Pass? ==> file == Some(RemoveAt(old(Loaded()), selection[0]))
      ensures r.Fail? ==> file == old(file)
    {
      if selection == [] {
        return Fail(NoSelection);
      }
      var rows := Load();
      var i := selection[0];
      if i >= |rows| {
        return Fail(UnknownRow);
      }
      Save(RemoveAt(rows, i));
      r := Pass;
    }

    /** Reloads the ledger and computes the summary panel and the budget
        status for the text in the budget field. */
    method Refresh(budgetText: string) returns (rows: seq<Transaction>, s: Summary, status: BudgetStatus)
      ensures rows == Loaded()
      ensures s == Summarize(Loaded())
      ensures status == ClassifyBudget(budgetText, s.expense)
    {
      rows := Load();
      s := Summarize(rows);
      status := ClassifyBudget(budgetText, s.expense);
    }

    /** The per-type sums the chart draws, or None when the ledger is empty
        and there is nothing to draw. */
    method ShowGraph() returns (g: Option<map<TxType, real>>)
      ensures g.None? <==> Loaded() == []
      ensures g.Some? ==> g.value.Keys == Kinds(Loaded())
      ensures g.Some? ==> forall t :: t in g.value ==> g.value[t] == Total(Loaded(), t)
    {
      var rows := Load();
      if rows == [] {
        return None;
      }
      GroupedAgreesWithTotals(rows);
      g := Some(Grouped(rows));
    }
  }
}
