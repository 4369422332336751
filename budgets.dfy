/** The budget list view (`Budgets`): its filter form, the query parameters
    a search sends, the field fix-ups on leaving an upper bound, the
    favourite selector and the list update after a confirmed delete. */
module Budgets {
  import opened Wrappers
  import opened Params
  import opened Ranges
  import opened Ledger
  import opened FilterParams
  import K = FilterKeys

  /** The favourite selector: `''` (no preference), `true` or `false`. */
  datatype Favorite = NoPreference | Fav(b: bool)

  /** The filter form; amounts are the parsed number fields, dates and the
      name are `""` when empty. */
  datatype BudgetsForm = BudgetsForm(
    expensesLimitMin: Option<int>,
    expensesLimitMax: Option<int>,
    startDateBefore: string,
    startDateAfter: string,
    endDateBefore: string,
    endDateAfter: string,
    name: string,
    favorite: Favorite)

  const EmptyForm := BudgetsForm(None, None, "", "", "", "", "", NoPreference)

  /** The selector's `value` for a preference: `"true"` and `"false"` are
      the two options it offers, and `""` is the cleared value that
      `cleanFilters` writes back. */
  function FavoriteText(f: Favorite): string {
    match f
    case NoPreference => ""
    case Fav(b) => if b then "true" else "false"
  }

  /** The selector's `onChange`: `'true'` and `'false'` become booleans,
      anything else no preference. */
  function FavoriteFromSelect(v: string): (f: Favorite)
    ensures f.Fav? <==> v == "true" || v == "false"
    ensures f == Fav(true) <==> v == "true"
  {
    if v == "true" then Fav(true) else if v == "false" then Fav(false) else NoPreference
  }

  /** Reading back the selector's value, an option or the cleared one,
      gives the preference. */
  lemma FavoriteRoundTrip(f: Favorite)
    ensures FavoriteFromSelect(FavoriteText(f)) == f
  {
  }

  /** `if (form.favorite === true || form.favorite === false)`: a stored
      `false` is sent as well as a `true`. */
  function FavoriteParam(f: Favorite): (v: Option<Value>)
    ensures v.Some? <==> f.Fav?
    ensures f.Fav? ==> v == Some(Bool(f.b))
  {
    if f.Fav? then Some(Bool(f.b)) else None
  }

  /** The candidate fields of `retrieveBudgets`, in the order it writes them. */
  function BudgetFields(form: BudgetsForm): seq<(K.Key, Option<Value>)> {
    [ (K.Name, TextParam(form.name)),
      (K.ExpensesLimitGreaterOrEqualThan, AmountParam(form.expensesLimitMin)),
      (K.ExpensesLimitLowerOrEqualThan, AmountParam(UpperAmount(form.expensesLimitMin, form.expensesLimitMax))),
      (K.StartDateAfterOrEqualThan, TextParam(form.startDateAfter)),
      (K.StartDateBeforeOrEqualThan, TextParam(UpperDate(form.startDateAfter, form.startDateBefore))),
      (K.EndDateAfterOrEqualThan, TextParam(form.endDateAfter)),
      (K.EndDateBeforeOrEqualThan, TextParam(UpperDate(form.endDateAfter, form.endDateBefore))),
      (K.Favorite, FavoriteParam(form.favorite)) ]
  }

  /** The parameter object a search with `form` sends. */
  function BudgetParams(form: BudgetsForm): Params<K.Key> {
    Fields(BudgetFields(form))
  }

  predicate IsBudgetKey(k: K.Key) {
    k.Name? || k.ExpensesLimitGreaterOrEqualThan? || k.ExpensesLimitLowerOrEqualThan?
    || k.StartDateAfterOrEqualThan? || k.StartDateBeforeOrEqualThan?
    || k.EndDateAfterOrEqualThan? || k.EndDateBeforeOrEqualThan? || k.Favorite?
  }

  /** What a budget search with `form` means, key by key. Each date pair is
      clamped on its own: the start dates never affect the end dates. */
  ghost predicate BudgetFilter(form: BudgetsForm, p: Params<K.Key>) {
    && DistinctKeys(p)
    && Get(p, K.Name) == TextParam(form.name)
    && Get(p, K.ExpensesLimitGreaterOrEqualThan) == AmountParam(form.expensesLimitMin)
    && Get(p, K.ExpensesLimitLowerOrEqualThan)
       == AmountParam(UpperAmount(form.expensesLimitMin, form.expensesLimitMax))
    && Get(p, K.StartDateAfterOrEqualThan) == TextParam(form.startDateAfter)
    && Get(p, K.StartDateBeforeOrEqualThan) == TextParam(UpperDate(form.startDateAfter, form.startDateBefore))
    && Get(p, K.EndDateAfterOrEqualThan) == TextParam(form.endDateAfter)
    && Get(p, K.EndDateBeforeOrEqualThan) == TextParam(UpperDate(form.endDateAfter, form.endDateBefore))
    && Get(p, K.Favorite) == FavoriteParam(form.favorite)
    && forall k :: !IsBudgetKey(k) ==> Get(p, k).None?
  }

  predicate IsBlank(form: BudgetsForm) {
    form.expensesLimitMin.None? && form.expensesLimitMax.None?
    && form.startDateBefore == "" && form.startDateAfter == ""
    && form.endDateBefore == "" && form.endDateAfter == ""
    && form.name == "" && form.favorite.NoPreference?
  }

  /** The candidate fields laid end to end. */
  lemma BudgetParamsUnfold(form: BudgetsForm)
    ensures BudgetParams(form)
            == Field(K.Name, TextParam(form.name))
             + Field(K.ExpensesLimitGreaterOrEqualThan, AmountParam(form.expensesLimitMin))
             + Field(K.ExpensesLimitLowerOrEqualThan,
                     AmountParam(UpperAmount(form.expensesLimitMin, form.expensesLimitMax)))
             + Field(K.StartDateAfterOrEqualThan, TextParam(form.startDateAfter))
             + Field(K.StartDateBeforeOrEqualThan, TextParam(UpperDate(form.startDateAfter, form.startDateBefore)))
             + Field(K.EndDateAfterOrEqualThan, TextParam(form.endDateAfter))
             + Field(K.EndDateBeforeOrEqualThan, TextParam(UpperDate(form.endDateAfter, form.endDateBefore)))
             + Field(K.Favorite, FavoriteParam(form.favorite))
  {
    var fs := BudgetFields(form);
    FieldsEight(fs);
  }

  /** The favourite filter is written only when a choice was made. */
  method AppendFavorite(p: Params<K.Key>, f: Favorite) returns (q: Params<K.Key>)
    ensures q == p + Field(K.Favorite, FavoriteParam(f))
  {
    q := p;
    if f.Fav? {
      q := q + [(K.Favorite, Bool(f.b))];
    }
  }

  /** `retrieveBudgets`: the parameter object is filled one key at a time
      from `{}`, each key at most once. */
  method BuildBudgetParams(form: BudgetsForm) returns (p: Params<K.Key>)
    ensures p == BudgetParams(form)
  {
    var p1 := AppendText([], K.Name, form.name);
    var p2 := AppendAmountRange(p1, K.ExpensesLimitGreaterOrEqualThan, K.ExpensesLimitLowerOrEqualThan,
                                form.expensesLimitMin, form.expensesLimitMax);
    var p3 := AppendDateRange(p2, K.StartDateAfterOrEqualThan, K.StartDateBeforeOrEqualThan,
                              form.startDateAfter, form.startDateBefore);
    var p4 := AppendDateRange(p3, K.EndDateAfterOrEqualThan, K.EndDateBeforeOrEqualThan,
                              form.endDateAfter, form.endDateBefore);
    p := AppendFavorite(p4, form.favorite);
    assert p1 == Field(K.Name, TextParam(form.name));
    BudgetParamsUnfold(form);
  }

  /** The object a search sends holds every set field under its own key and
      nothing else. */
  lemma BudgetParamsMeaning(form: BudgetsForm)
    ensures BudgetFilter(form, BudgetParams(form))
  {
    BudgetFieldsIndexed(form);
    IndexedFields(BudgetFields(form), BudgetKeyIndex);
    BudgetParamsGets(form);
  }

  /** Each candidate field is found under its own key. */
  lemma BudgetParamsGets(form: BudgetsForm)
    ensures var p := BudgetParams(form);
            && Get(p, K.Name) == TextParam(form.name)
            && Get(p, K.ExpensesLimitGreaterOrEqualThan) == AmountParam(form.expensesLimitMin)
            && Get(p, K.ExpensesLimitLowerOrEqualThan)
               == AmountParam(UpperAmount(form.expensesLimitMin, form.expensesLimitMax))
            && Get(p, K.StartDateAfterOrEqualThan) == TextParam(form.startDateAfter)
            && Get(p, K.StartDateBeforeOrEqualThan) == TextParam(UpperDate(form.startDateAfter, form.startDateBefore))
            && Get(p, K.EndDateAfterOrEqualThan) == TextParam(form.endDateAfter)
            && Get(p, K.EndDateBeforeOrEqualThan) == TextParam(UpperDate(form.endDateAfter, form.endDateBefore))
            && Get(p, K.Favorite) == FavoriteParam(form.favorite)
  {
    var fs := BudgetFields(form);
    BudgetFieldsIndexed(form);
    IndexedFields(fs, BudgetKeyIndex);
    assert fs[0].0 == K.Name && fs[1].0 == K.ExpensesLimitGreaterOrEqualThan;
    assert fs[2].0 == K.ExpensesLimitLowerOrEqualThan && fs[3].0 == K.StartDateAfterOrEqualThan;
    assert fs[4].0 == K.StartDateBeforeOrEqualThan && fs[5].0 == K.EndDateAfterOrEqualThan;
    assert fs[6].0 == K.EndDateBeforeOrEqualThan && fs[7].0 == K.Favorite;
  }

  lemma BudgetFieldsIndexed(form: BudgetsForm)
    ensures IndexedBy(BudgetFields(form), BudgetKeyIndex)
  {
  }

  /** The position of a key among the candidate fields, `-1` for a key a
      budget search never sends. */
  function BudgetKeyIndex(k: K.Key): (i: int)
    ensures 0 <= i <= 7 <==> IsBudgetKey(k)
  {
    match k
    case Name => 0
    case ExpensesLimitGreaterOrEqualThan => 1
    case ExpensesLimitLowerOrEqualThan => 2
    case StartDateAfterOrEqualThan => 3
    case StartDateBeforeOrEqualThan => 4
    case EndDateAfterOrEqualThan => 5
    case EndDateBeforeOrEqualThan => 6
    case Favorite => 7
    case _ => -1
  }

  /** A search with an empty form sends no parameter, and only then. */
  lemma BlankFormSendsNothing(form: BudgetsForm)
    ensures BudgetParams(form) == [] <==> IsBlank(form)
  {
    var fs := BudgetFields(form);
    FieldsEmpty(fs);
    if IsBlank(form) {
      forall j | 0 <= j < |fs| ensures fs[j].1.None? {
        assert j in {0, 1, 2, 3, 4, 5, 6, 7};
      }
    } else if form.name != "" {
      assert fs[0].1.Some?;
    } else if form.expensesLimitMin.Some? {
      assert fs[1].1.Some?;
    } else if form.expensesLimitMax.Some? {
      assert fs[2].1.Some?;
    } else if form.startDateAfter != "" {
      assert fs[3].1.Some?;
    } else if form.startDateBefore != "" {
      assert fs[4].1.Some?;
    } else if form.endDateAfter != "" {
      assert fs[5].1.Some?;
    } else if form.endDateBefore != "" {
      assert fs[6].1.Some?;
    } else {
      assert fs[7].1.Some?;
    }
  }

  /** Editing the end-date fields leaves what the search sends for the
      start dates unchanged, and the other way round. */
  lemma DatePairsIndependent(form: BudgetsForm, endBefore: string, endAfter: string)
    ensures var edited := form.(endDateBefore := endBefore, endDateAfter := endAfter);
            Get(BudgetParams(edited), K.StartDateAfterOrEqualThan)
              == Get(BudgetParams(form), K.StartDateAfterOrEqualThan)
            && Get(BudgetParams(edited), K.StartDateBeforeOrEqualThan)
              == Get(BudgetParams(form), K.StartDateBeforeOrEqualThan)
  {
    BudgetParamsMeaning(form);
    BudgetParamsMeaning(form.(endDateBefore := endBefore, endDateAfter := endAfter));
  }

  // ----------------------------------------------------------------- view

  /** The state of the budget list view. */
  class BudgetsView {
    var form: BudgetsForm
    var params: Params<K.Key>
    var budgets: seq<Budget>

    constructor()
      ensures form == EmptyForm && params == [] && budgets == []
    {
      form := EmptyForm;
      params := [];
      budgets := [];
    }

    /** Submitting the filters: the parameters are rebuilt from the form and
        the list becomes the response, or empty when the call fails. */
    method RetrieveBudgets(response: Option<seq<Budget>>)
      modifies this
      ensures form == old(form)
      ensures params == BudgetParams(form)
      ensures budgets == response.GetOr([])
    {
      params := BuildBudgetParams(form);
      budgets := response.GetOr([]);
    }

    /** `cleanFilters`: empty form, no parameters, the unfiltered list. */
    method CleanFilters(response: Option<seq<Budget>>)
      modifies this
      ensures form == EmptyForm && params == []
      ensures budgets == response.GetOr([])
    {
      params := [];
      form := EmptyForm;
      budgets := response.GetOr([]);
    }

    /** Leaving the maximum expenses-limit field. */
    method ExpensesLimitMaxBlur()
      modifies this
      ensures form == old(form).(expensesLimitMax := BlurAmount(old(form).expensesLimitMin, old(form).expensesLimitMax))
      ensures params == old(params) && budgets == old(budgets)
    {
      if form.expensesLimitMin.Some? && form.expensesLimitMax.Some?
         && form.expensesLimitMax.value < form.expensesLimitMin.value {
        form := form.(expensesLimitMax := form.expensesLimitMin);
      }
    }

    /** Leaving the latest-start-date field. */
    method StartDateBeforeBlur()
      modifies this
      ensures form == old(form).(startDateBefore := BlurDate(old(form).startDateAfter, old(form).startDateBefore))
      ensures params == old(params) && budgets == old(budgets)
    {
      if form.startDateAfter != "" && form.startDateBefore != ""
         && Strings.Less(form.startDateBefore, form.startDateAfter) {
        form := form.(startDateBefore := form.startDateAfter);
      }
    }

    /** Leaving the latest-end-date field. */
    method EndDateBeforeBlur()
      modifies this
      ensures form == old(form).(endDateBefore := BlurDate(old(form).endDateAfter, old(form).endDateBefore))
      ensures params == old(params) && budgets == old(budgets)
    {
      if form.endDateAfter != "" && form.endDateBefore != ""
         && Strings.Less(form.endDateBefore, form.endDateAfter) {
        form := form.(endDateBefore := form.endDateAfter);
      }
    }

    /** Choosing an option of the favourite selector. */
    method SelectFavorite(v: string)
      modifies this
      ensures form == old(form).(favorite := FavoriteFromSelect(v))
      ensures params == old(params) && budgets == old(budgets)
    {
      form := form.(favorite := FavoriteFromSelect(v));
    }

    /** After the server confirms a delete, the list loses the budget. */
    method DeleteConfirmed(id: string)
      modifies this
      ensures budgets == RemoveBudget(old(budgets), id)
      ensures form == old(form) && params == old(params)
    {
      budgets := RemoveBudget(budgets, id);
    }
  }
}
