/** The record list view (`Records`): its filter form, the query parameters
    a search sends, the budget multi-select and the list update after a
    confirmed delete. */
module Records {
  import opened Wrappers
  import opened Seqs
  import opened Params
  import opened Ranges
  import opened Ledger
  import opened BaseApi
  import opened FilterParams
  import K = FilterKeys

  /** The filter form. `recordType` is `""` (any), `"EXPENSE"` or `"INCOME"`;
      amounts are the parsed number fields; dates and texts are `""` when
      empty; `budgets` holds the selected budget ids in selection order. */
  datatype RecordsForm = RecordsForm(
    recordType: string,
    minAmount: Option<int>,
    maxAmount: Option<int>,
    budgets: seq<string>,
    startDate: string,
    endDate: string,
    name: string,
    comment: string)

  const EmptyForm := RecordsForm("", None, None, [], "", "", "", "")

  /** The candidate fields of `retrieveRecords`, in the order it writes
      them: each is sent when it is set, the upper bounds clamped to the
      lower ones. */
  function RecordFields(form: RecordsForm): seq<(K.Key, Option<Value>)> {
    [ (K.RecordType, TextParam(form.recordType)),
      (K.MoneyGreaterOrEqualThan, AmountParam(form.minAmount)),
      (K.MoneyLowerOrEqualThan, AmountParam(UpperAmount(form.minAmount, form.maxAmount))),
      (K.BudgetsIn, IdsParam(form.budgets)),
      (K.DateAfterOrEqualThan, TextParam(form.startDate)),
      (K.DateBeforeOrEqualThan, TextParam(UpperDate(form.startDate, form.endDate))),
      (K.Name, TextParam(form.name)),
      (K.Comment, TextParam(form.comment)) ]
  }

  /** The parameter object a search with `form` sends. */
  function RecordParams(form: RecordsForm): Params<K.Key> {
    Fields(RecordFields(form))
  }

  predicate IsRecordKey(k: K.Key) {
    k.RecordType? || k.MoneyGreaterOrEqualThan? || k.MoneyLowerOrEqualThan? || k.BudgetsIn?
    || k.DateAfterOrEqualThan? || k.DateBeforeOrEqualThan? || k.Name? || k.Comment?
  }

  /** What a search with `form` means, key by key: each field under its key
      when it is set, the upper bounds never below the lower ones, and no
      other key. */
  ghost predicate RecordFilter(form: RecordsForm, p: Params<K.Key>) {
    && DistinctKeys(p)
    && Get(p, K.RecordType) == TextParam(form.recordType)
    && Get(p, K.MoneyGreaterOrEqualThan) == AmountParam(form.minAmount)
    && Get(p, K.MoneyLowerOrEqualThan) == AmountParam(UpperAmount(form.minAmount, form.maxAmount))
    && Get(p, K.BudgetsIn) == IdsParam(form.budgets)
    && Get(p, K.DateAfterOrEqualThan) == TextParam(form.startDate)
    && Get(p, K.DateBeforeOrEqualThan) == TextParam(UpperDate(form.startDate, form.endDate))
    && Get(p, K.Name) == TextParam(form.name)
    && Get(p, K.Comment) == TextParam(form.comment)
    && forall k :: !IsRecordKey(k) ==> Get(p, k).None?
  }

  /** Every field of the form is empty. */
  predicate IsBlank(form: RecordsForm) {
    form.recordType == "" && form.minAmount.None? && form.maxAmount.None? && form.budgets == []
    && form.startDate == "" && form.endDate == "" && form.name == "" && form.comment == ""
  }

  /** The candidate fields laid end to end. */
  lemma RecordParamsUnfold(form: RecordsForm)
    ensures RecordParams(form)
            == Field(K.RecordType, TextParam(form.recordType))
             + Field(K.MoneyGreaterOrEqualThan, AmountParam(form.minAmount))
             + Field(K.MoneyLowerOrEqualThan, AmountParam(UpperAmount(form.minAmount, form.maxAmount)))
             + Field(K.BudgetsIn, IdsParam(form.budgets))
             + Field(K.DateAfterOrEqualThan, TextParam(form.startDate))
             + Field(K.DateBeforeOrEqualThan, TextParam(UpperDate(form.startDate, form.endDate)))
             + Field(K.Name, TextParam(form.name))
             + Field(K.Comment, TextParam(form.comment))
  {
    var fs := RecordFields(form);
    FieldsEight(fs);
  }

  /** `retrieveRecords`: the parameter object is filled one key at a time,
      starting from `{}`. Every key is written at most once, so each
      assignment appends an entry. */
  method BuildRecordParams(form: RecordsForm) returns (p: Params<K.Key>)
    ensures p == RecordParams(form)
  {
    p := AppendText([], K.RecordType, form.recordType);
    p := AppendAmountRange(p, K.MoneyGreaterOrEqualThan, K.MoneyLowerOrEqualThan, form.minAmount, form.maxAmount);
    p := AppendIds(p, K.BudgetsIn, form.budgets);
    p := AppendDateRange(p, K.DateAfterOrEqualThan, K.DateBeforeOrEqualThan, form.startDate, form.endDate);
    p := AppendText(p, K.Name, form.name);
    p := AppendText(p, K.Comment, form.comment);
    RecordParamsUnfold(form);
  }

  /** The object a search sends holds every set field under its own key and
      nothing else. */
  lemma RecordParamsMeaning(form: RecordsForm)
    ensures RecordFilter(form, RecordParams(form))
  {
    RecordFieldsIndexed(form);
    IndexedFields(RecordFields(form), RecordKeyIndex);
    RecordParamsGets(form);
  }

  /** Each candidate field is found under its own key. */
  lemma RecordParamsGets(form: RecordsForm)
    ensures var p := RecordParams(form);
            && Get(p, K.RecordType) == TextParam(form.recordType)
            && Get(p, K.MoneyGreaterOrEqualThan) == AmountParam(form.minAmount)
            && Get(p, K.MoneyLowerOrEqualThan) == AmountParam(UpperAmount(form.minAmount, form.maxAmount))
            && Get(p, K.BudgetsIn) == IdsParam(form.budgets)
            && Get(p, K.DateAfterOrEqualThan) == TextParam(form.startDate)
            && Get(p, K.DateBeforeOrEqualThan) == TextParam(UpperDate(form.startDate, form.endDate))
            && Get(p, K.Name) == TextParam(form.name)
            && Get(p, K.Comment) == TextParam(form.comment)
  {
    var fs := RecordFields(form);
    RecordFieldsIndexed(form);
    IndexedFields(fs, RecordKeyIndex);
    assert fs[0].0 == K.RecordType && fs[1].0 == K.MoneyGreaterOrEqualThan;
    assert fs[2].0 == K.MoneyLowerOrEqualThan && fs[3].0 == K.BudgetsIn;
    assert fs[4].0 == K.DateAfterOrEqualThan && fs[5].0 == K.DateBeforeOrEqualThan;
    assert fs[6].0 == K.Name && fs[7].0 == K.Comment;
  }

  lemma RecordFieldsIndexed(form: RecordsForm)
    ensures IndexedBy(RecordFields(form), RecordKeyIndex)
  {
  }

  /** The position of a key among the candidate fields, `-1` for a key a
      record search never sends. */
  function RecordKeyIndex(k: K.Key): (i: int)
    ensures 0 <= i <= 7 <==> IsRecordKey(k)
  {
    match k
    case RecordType => 0
    case MoneyGreaterOrEqualThan => 1
    case MoneyLowerOrEqualThan => 2
    case BudgetsIn => 3
    case DateAfterOrEqualThan => 4
    case DateBeforeOrEqualThan => 5
    case Name => 6
    case Comment => 7
    case _ => -1
  }

  /** A search with an empty form sends no parameter, and only then. */
  lemma BlankFormSendsNothing(form: RecordsForm)
    ensures RecordParams(form) == [] <==> IsBlank(form)
  {
    var fs := RecordFields(form);
    FieldsEmpty(fs);
    if IsBlank(form) {
      forall j | 0 <= j < |fs| ensures fs[j].1.None? {
        assert j in {0, 1, 2, 3, 4, 5, 6, 7};
      }
    } else if form.recordType != "" {
      assert fs[0].1.Some?;
    } else if form.minAmount.Some? {
      assert fs[1].1.Some?;
    } else if form.maxAmount.Some? {
      assert fs[2].1.Some?;
    } else if form.budgets != [] {
      assert fs[3].1.Some?;
    } else if form.startDate != "" {
      assert fs[4].1.Some?;
    } else if form.endDate != "" {
      assert fs[5].1.Some?;
    } else if form.name != "" {
      assert fs[6].1.Some?;
    } else {
      assert fs[7].1.Some?;
    }
  }

  /** The query of a search carries one `budgetsIn` pair per selected
      budget, in selection order, and none when nothing is selected. */
  lemma BudgetsInQuery(form: RecordsForm)
    ensures |PairsWithKey(NormalizedParams(RecordParams(form)), K.BudgetsIn)| == |form.budgets|
    ensures forall i :: 0 <= i < |form.budgets| ==>
              PairsWithKey(NormalizedParams(RecordParams(form)), K.BudgetsIn)[i] == (K.BudgetsIn, Str(form.budgets[i]))
  {
    RecordParamsMeaning(form);
    PairsForKey(RecordParams(form), K.BudgetsIn);
  }

  // ------------------------------------------------------- budget selection

  /** Clicking a budget in the multi-select: a selected id is removed, an
      unselected one is appended at the end. */
  function ToggleBudget(selected: seq<string>, id: string): (r: seq<string>)
    ensures id in r <==> id !in selected
    ensures forall x :: x != id ==> (x in r <==> x in selected)
    ensures id !in selected ==> r == selected + [id]
    ensures id in selected ==> |r| < |selected|
    ensures id in selected ==> r == RemoveId(selected, id)
  {
    if id in selected then
      var r := RemoveId(selected, id);
      FilterSplitsCount(selected, x => IsNot(id, x), x => !IsNot(id, x));
      assert forall i :: 0 <= i < |selected| && selected[i] == id ==> selected[i] in Filter(selected, x => !IsNot(id, x));
      r
    else selected + [id]
  }

  /** Selecting an unselected budget and clicking it again restores the
      selection. */
  lemma ToggleBudgetTwice(selected: seq<string>, id: string)
    requires id !in selected
    ensures ToggleBudget(ToggleBudget(selected, id), id) == selected
  {
    var keep := x => IsNot(id, x);
    FilterAppend(selected, [id], keep);
    FilterKeepsAll(selected, keep);
    assert Filter([id], keep) == [] by {
      assert [id][1..] == [];
    }
  }

  function BudgetIds(bs: seq<Budget>): (ids: seq<string>)
    ensures |ids| == |bs| && forall i :: 0 <= i < |bs| ==> ids[i] == bs[i].id
  {
    if bs == [] then [] else [bs[0].id] + BudgetIds(bs[1..])
  }

  /** "Select all": clears the selection when it is as long as the budget
      list, and otherwise selects every budget in list order. */
  function SelectAll(selected: seq<string>, budgets: seq<Budget>): (r: seq<string>)
    ensures r == [] || r == BudgetIds(budgets)
    ensures |selected| == |budgets| ==> r == []
    ensures |selected| != |budgets| ==> r == BudgetIds(budgets)
  {
    if |selected| == |budgets| then [] else BudgetIds(budgets)
  }

  /** With a selection of distinct listed ids and a list of distinct ids,
      comparing lengths is the same as asking whether every budget is
      selected, so "select all" clears a full selection and fills any other. */
  lemma SelectAllMeaning(selected: seq<string>, budgets: seq<Budget>)
    requires Distinct(selected) && Distinct(BudgetIds(budgets))
    requires forall i :: 0 <= i < |selected| ==> selected[i] in BudgetIds(budgets)
    ensures var ids := BudgetIds(budgets);
            SelectAll(selected, budgets) == if forall i :: 0 <= i < |ids| ==> ids[i] in selected then [] else ids
  {
    CoversAllIffSameLength(selected, BudgetIds(budgets));
  }

  // ----------------------------------------------------------------- view

  /** The state of the record list view. */
  class RecordsView {
    var form: RecordsForm
    var params: Params<K.Key>
    var records: seq<Record>

    constructor()
      ensures form == EmptyForm && params == [] && records == []
    {
      form := EmptyForm;
      params := [];
      records := [];
    }

    /** Submitting the filters: the parameters are rebuilt from the form and
        the list becomes the response, or empty when the call fails. */
    method RetrieveRecords(response: Option<seq<Record>>)
      modifies this
      ensures form == old(form)
      ensures params == RecordParams(form)
      ensures records == response.GetOr([])
    {
      params := BuildRecordParams(form);
      records := response.GetOr([]);
    }

    /** `cleanFilters`: empty form, no parameters, the unfiltered list. */
    method CleanFilters(response: Option<seq<Record>>)
      modifies this
      ensures form == EmptyForm && params == []
      ensures records == response.GetOr([])
    {
      params := [];
      form := EmptyForm;
      records := response.GetOr([]);
    }

    /** Leaving the maximum-amount field. */
    method MaxAmountBlur()
      modifies this
      ensures form == old(form).(maxAmount := BlurAmount(old(form).minAmount, old(form).maxAmount))
      ensures params == old(params) && records == old(records)
    {
      if form.minAmount.Some? && form.maxAmount.Some? && form.maxAmount.value < form.minAmount.value {
        form := form.(maxAmount := form.minAmount);
      }
    }

    /** Leaving the end-date field. */
    method EndDateBlur()
      modifies this
      ensures form == old(form).(endDate := BlurDate(old(form).startDate, old(form).endDate))
      ensures params == old(params) && records == old(records)
    {
      if form.startDate != "" && form.endDate != "" && Strings.Less(form.endDate, form.startDate) {
        form := form.(endDate := form.startDate);
      }
    }

    method ClickBudget(id: string)
      modifies this
      ensures form == old(form).(budgets := ToggleBudget(old(form).budgets, id))
      ensures params == old(params) && records == old(records)
    {
      form := form.(budgets := ToggleBudget(form.budgets, id));
    }

    method ClickSelectAll(budgets: seq<Budget>)
      modifies this
      ensures form == old(form).(budgets := SelectAll(old(form).budgets, budgets))
      ensures params == old(params) && records == old(records)
    {
      form := form.(budgets := SelectAll(form.budgets, budgets));
    }

    /** After the server confirms a delete, the list loses the records with
        that id. */
    method DeleteConfirmed(id: string)
      modifies this
      ensures records == RemoveRecord(old(records), id)
      ensures form == old(form) && params == old(params)
    {
      records := RemoveRecord(records, id);
    }
  }
}
