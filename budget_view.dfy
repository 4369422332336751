/** The single-budget view (`BudgetIndividual`): the save checks, the
    expense and income totals of the budget's records, the record delete
    that recomputes them, the end-date fix-up and cancelling an edit. */
module BudgetView {
  import opened Wrappers
  import opened Strings
  import opened Seqs
  import opened Params
  import opened Ranges
  import opened Ledger

  // ---------------------------------------------------------- save checks

  const MissingNameMessage := "El presupuesto debe tener un nombre"
  const EndBeforeStartMessage := "La fecha final no puede ser anterior a la fecha inicial"

  datatype BudgetSaveOutcome = MissingName | EndBeforeStart | CreateBudget | UpdateBudget

  /** `saveBudget` up to the server call: a name is required, and when both
      dates are set the end may not come before the start. */
  function SaveBudgetCheck(b: Budget): (o: BudgetSaveOutcome)
    ensures o.MissingName? <==> b.name == ""
    ensures o.EndBeforeStart? <==> b.name != "" && b.startDate != "" && b.endDate != "" && Less(b.endDate, b.startDate)
    ensures o.CreateBudget? ==> b.id == ""
    ensures o.UpdateBudget? ==> b.id != ""
  {
    if b.name == "" then MissingName
    else if b.startDate != "" && b.endDate != "" && Less(b.endDate, b.startDate) then EndBeforeStart
    else if b.id == "" then CreateBudget
    else UpdateBudget
  }

  function SaveBudgetError(o: BudgetSaveOutcome): (e: Option<string>)
    ensures e.None? <==> o.CreateBudget? || o.UpdateBudget?
  {
    match o
    case MissingName => Some(MissingNameMessage)
    case EndBeforeStart => Some(EndBeforeStartMessage)
    case _ => None
  }

  /** A budget that goes to the server has its end no earlier than its
      start whenever both are set; a budget with one date or none always
      passes the date check. */
  lemma SavedBudgetWindow(b: Budget)
    ensures (SaveBudgetCheck(b).CreateBudget? || SaveBudgetCheck(b).UpdateBudget?) ==>
              b.startDate == "" || b.endDate == "" || !Less(b.endDate, b.startDate)
    ensures b.name != "" && (b.startDate == "" || b.endDate == "") ==> !SaveBudgetCheck(b).EndBeforeStart?
  {
  }

  /** Leaving the end-date field repairs the one date error a save reports. */
  lemma EndDateBlurRepairsWindow(b: Budget)
    ensures !SaveBudgetCheck(b.(endDate := BlurDate(b.startDate, b.endDate))).EndBeforeStart?
  {
    LessIrreflexive(b.startDate);
  }

  // ---------------------------------------------- the budget's record ids

  /** The `id` property of an entry of `budget.records`: the entries are
      record ids, i.e. strings, and a string has no `id` property. */
  function IdPropertyOfEntry(entry: string): Value {
    Undefined
  }

  predicate EntryIdIsNot(recordId: string, entry: string) {
    IdPropertyOfEntry(entry) != Str(recordId)
  }

  /** `prev.records.filter(record => record.id !== recordId)` as written. */
  function RemoveRecordIdAsWritten(ids: seq<string>, recordId: string): seq<string> {
    Filter(ids, x => EntryIdIsNot(recordId, x))
  }

  /** As written, the filter keeps every id, the deleted one included. */
  lemma AsWrittenKeepsDeletedId(ids: seq<string>, recordId: string)
    ensures RemoveRecordIdAsWritten(ids, recordId) == ids
  {
    FilterKeepsAll(ids, x => EntryIdIsNot(recordId, x));
  }

  /** The smallest case: deleting "r1" from a budget holding "r1" and "r2"
      leaves both ids in place, where the corrected filter leaves "r2". */
  lemma AsWrittenExample()
    ensures RemoveRecordIdAsWritten(["r1", "r2"], "r1") == ["r1", "r2"]
    ensures RemoveId(["r1", "r2"], "r1") == ["r2"]
  {
    AsWrittenKeepsDeletedId(["r1", "r2"], "r1");
    assert ["r1", "r2"][1..] == ["r2"];
    assert ["r2"][1..] == [];
  }

  /** The corrected filter drops the deleted id and nothing else, in order. */
  lemma CorrectedRemovesOnlyDeletedId(ids: seq<string>, i: int)
    requires 0 <= i < |ids|
    requires forall j :: 0 <= j < |ids| && j != i ==> ids[j] != ids[i]
    ensures RemoveId(ids, ids[i]) == ids[..i] + ids[i + 1..]
  {
    FilterDropsOne(ids, i, x => IsNot(ids[i], x));
  }

  // ----------------------------------------------------------------- view

  /** The state of the budget view. The totals stay `None` until the
      records of the budget have been loaded once. */
  class BudgetEditor {
    var budget: Budget
    var originalBudget: Option<Budget>
    var hasIdParam: bool
    var editMode: bool
    var error: Option<string>
    var records: seq<Record>
    var totalExpenses: Option<int>
    var totalIncomes: Option<int>

    /** Once set, the totals are those of the records on screen. */
    ghost predicate Valid()
      reads this
    {
      && (totalExpenses.Some? <==> totalIncomes.Some?)
      && (totalExpenses.Some? ==> totalExpenses.value == TypeTotal(records, Expense))
      && (totalIncomes.Some? ==> totalIncomes.value == TypeTotal(records, Income))
    }

    /** The total shown at the foot of the table. */
    function ShownNet(): (n: Option<int>)
      reads this
      requires Valid()
      ensures totalExpenses.Some? ==> n == Some(Net(records))
    {
      if totalExpenses.Some? then Some(totalIncomes.value - totalExpenses.value) else None
    }

    /** The view opened on the budget with id `budgetId`, before anything
        has loaded. */
    constructor(budgetId: string)
      ensures Valid()
      ensures hasIdParam && !editMode && records == [] && totalExpenses == None && totalIncomes == None
      ensures budget == Budget("", "", "", "", "", None, false, "", []) && originalBudget == None
    {
      budget := Budget("", "", "", "", "", None, false, "", []);
      originalBudget := None;
      hasIdParam := true;
      editMode := false;
      error := None;
      records := [];
      totalExpenses := None;
      totalIncomes := None;
    }

    /** The view opened without a budget id, to create one: in edit mode,
        with an empty budget and no records. */
    constructor New()
      ensures Valid()
      ensures !hasIdParam && editMode && records == [] && totalExpenses == None && totalIncomes == None
      ensures budget == Budget("", "", "", "", "", None, false, "", []) && originalBudget == None
    {
      budget := Budget("", "", "", "", "", None, false, "", []);
      originalBudget := None;
      hasIdParam := false;
      editMode := true;
      error := None;
      records := [];
      totalExpenses := None;
      totalIncomes := None;
    }

    /** The budget arrives: it is shown and kept for `cancelEdition`. */
    method LoadBudget(loaded: Budget)
      modifies this
      ensures budget == loaded && originalBudget == Some(loaded)
      ensures records == old(records) && totalExpenses == old(totalExpenses) && totalIncomes == old(totalIncomes)
      ensures hasIdParam == old(hasIdParam) && editMode == old(editMode) && error == old(error)
    {
      budget := loaded;
      originalBudget := Some(loaded);
    }

    /** The records of the budget arrive: the list and both totals are set.
        A failed call empties the list and leaves the totals as they were. */
    method LoadRecords(response: Option<seq<Record>>)
      modifies this
      ensures response.Some? ==> Valid() && totalExpenses.Some?
      ensures records == response.GetOr([])
      ensures response.None? ==> totalExpenses == old(totalExpenses) && totalIncomes == old(totalIncomes)
      ensures budget == old(budget) && originalBudget == old(originalBudget)
      ensures hasIdParam == old(hasIdParam) && editMode == old(editMode) && error == old(error)
    {
      if response.None? {
        records := [];
        return;
      }
      records := response.value;
      totalExpenses := Some(TypeTotal(records, Expense));
      totalIncomes := Some(TypeTotal(records, Income));
    }

    /** `saveBudget` up to the server call. */
    method SaveBudget() returns (o: BudgetSaveOutcome)
      modifies this
      ensures o == SaveBudgetCheck(budget)
      ensures error == SaveBudgetError(o)
      ensures budget == old(budget) && originalBudget == old(originalBudget) && editMode == old(editMode)
      ensures records == old(records) && totalExpenses == old(totalExpenses) && totalIncomes == old(totalIncomes)
      ensures hasIdParam == old(hasIdParam)
    {
      error := None;
      if budget.name == "" {
        error := Some(MissingNameMessage);
        return MissingName;
      }
      if budget.startDate != "" && budget.endDate != "" && Less(budget.endDate, budget.startDate) {
        error := Some(EndBeforeStartMessage);
        return EndBeforeStart;
      }
      o := if budget.id == "" then CreateBudget else UpdateBudget;
    }

    /** The server accepted the create or update. */
    method SaveSucceeded(saved: Budget)
      modifies this
      ensures budget == saved && !editMode
      ensures originalBudget == old(originalBudget) && error == old(error) && hasIdParam == old(hasIdParam)
      ensures records == old(records) && totalExpenses == old(totalExpenses) && totalIncomes == old(totalIncomes)
    {
      budget := saved;
      editMode := false;
    }

    /** `cancelEdition`: nothing without a budget id in the route; otherwise
        leave edit mode, restore the loaded budget when there is one and
        clear the error. */
    method CancelEdition()
      modifies this
      ensures !old(hasIdParam) ==> budget == old(budget) && editMode == old(editMode) && error == old(error)
      ensures old(hasIdParam) ==> !editMode && error == None
      ensures old(hasIdParam) ==> budget == old(originalBudget).GetOr(old(budget))
      ensures originalBudget == old(originalBudget) && hasIdParam == old(hasIdParam)
      ensures records == old(records) && totalExpenses == old(totalExpenses) && totalIncomes == old(totalIncomes)
    {
      if !hasIdParam {
        return;
      }
      editMode := false;
      if originalBudget.Some? {
        budget := originalBudget.value;
      }
      error := None;
    }

    /** Leaving the end-date field. */
    method EndDateBlur()
      modifies this
      ensures budget == old(budget).(endDate := BlurDate(old(budget).startDate, old(budget).endDate))
      ensures originalBudget == old(originalBudget) && error == old(error) && editMode == old(editMode)
      ensures hasIdParam == old(hasIdParam)
      ensures records == old(records) && totalExpenses == old(totalExpenses) && totalIncomes == old(totalIncomes)
    {
      if budget.startDate != "" && budget.endDate != "" && Less(budget.endDate, budget.startDate) {
        budget := budget.(endDate := budget.startDate);
      }
    }

    /** After the server confirms a record delete: the record leaves the
        list, its id leaves the budget (with the corrected filter), and both
        totals are recomputed over the remaining records. */
    method DeleteRecordConfirmed(recordId: string)
      modifies this
      ensures Valid() && totalExpenses.Some?
      ensures records == RemoveRecord(old(records), recordId)
      ensures budget == old(budget).(records := RemoveId(old(budget).records, recordId))
      ensures originalBudget == old(originalBudget) && error == old(error) && editMode == old(editMode)
      ensures hasIdParam == old(hasIdParam)
    {
      records := RemoveRecord(records, recordId);
      budget := budget.(records := RemoveId(budget.records, recordId));
      totalExpenses := Some(TypeTotal(records, Expense));
      totalIncomes := Some(TypeTotal(records, Income));
    }
  }
}
