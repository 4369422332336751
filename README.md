# moneyminder-front in Dafny

A model of the client-side logic of moneyminder-front, a React client for
personal finances. Users record expenses and incomes, group them under
budgets, share budgets through requests, and see totals. The model covers
what the views compute and change once an event or a server answer arrives:

- **Filter parameters.** The record and budget lists turn their filter
  forms into parameter objects (`retrieveRecords`, `retrieveBudgets`). Unset
  fields are left out. Upper bounds are clamped to lower ones. Leaving an
  upper-bound field fixes it up.
- **Query strings.** `makeGetRequest` flattens a parameter object into
  query pairs, builds the URL and sets the `Authorization` header.
- **Save checks.** The single-record and single-budget views check before
  saving:
  - the required fields;
  - the budget end date against its start;
  - the record date against the window of every budget it is associated
    with.
- **Aggregates.** Per-type money totals, the net total of a budget, the
  detail total of a record and the month total on the home page.
- **List updates.** The local lists are updated after the server confirms
  a create, edit or delete (append, replace-by-id, remove-by-id).
- **Sharing requests.** Requests are split into pending and answered. A
  new request goes through a chain of checks. An answered request moves to
  the history.
- **Form validation.** The registration and profile forms run an ordered
  chain of checks: the first failing check sets the one error shown.
- **Formatters.** `formatNumber`, `formatDate`, `formatInteger`, and the
  grouping `1.249,95` of the home page's month amount.
- **Session.** The authentication session is a state machine over the
  stored token.

How the model represents things:

- Money is integer cents.
- A parsed number field is an `Option` (`None` for empty or unparsable).
- ISO dates are strings compared lexicographically (`Strings.Less`), as the
  source compares them with `<`.
- A JavaScript object filled key by key is a sequence of `(key, value)`
  entries with distinct keys, in insertion order (`Params`).
- State that the views change through setters is a `class` per view, whose
  methods state their whole new state. The pure logic is functions, with
  lemmas that relate them.

## Model

| member | source | states |
|---|---|---|
| FilterParams.AppendText | src/components/records/Records.jsx:98 | a text field is written under its key exactly when it is non-empty |
| FilterParams.AppendIds | src/components/records/Records.jsx:112-114 | the selected ids are written as one array under the key when there is at least one, in selection order |
| FilterParams.AppendAmountRange | src/components/records/Records.jsx:100-110 | the lower bound is written when set, then the upper bound raised to the lower one (`UpperAmount`), or the upper bound alone when only it is set |
| FilterParams.AppendDateRange | src/components/records/Records.jsx:116-125 | the same rule for a date pair, with dates compared as strings (`UpperDate`) |
| Ranges.UpperAmount | src/components/records/Records.jsx:100-110 | the upper amount sent is present iff an upper bound is set; it is the upper bound when there is no lower bound; otherwise it is one of the two and no smaller than either, i.e. their maximum |
| Ranges.UpperDate | src/components/records/Records.jsx:116-125 | the upper date sent is empty iff the field is; it equals the field when no lower date is set; otherwise it is one of the two and not before either |
| Ranges.BlurAmount | src/components/records/Records.jsx:273-279 | leaving the upper-amount field resets it to the lower value only when both parse and upper < lower; afterwards it is never below the lower value |
| Ranges.BlurDate | src/components/records/Records.jsx:371-375 | leaving the upper-date field resets it to the lower date only when both are set and upper < lower; afterwards it is never before the lower date |
| Ranges.BlurAmountKeepsFilter | src/components/budgets/Budgets.jsx:231-238 | the amount fix-up on leaving the field never changes the upper bound a search sends |
| Ranges.BlurDateKeepsFilter | src/components/budgets/Budgets.jsx:260-264 | the date fix-up on leaving the field never changes the upper date a search sends |
| Ranges.BlurAmountIdempotent | src/components/budgets/Budgets.jsx:231-238 | leaving the amount field twice is the same as leaving it once |
| Ranges.BlurDateIdempotent | src/components/budgets/Budgets.jsx:286-290 | leaving a date field twice is the same as leaving it once |
| Records.BuildRecordParams | src/components/records/Records.jsx:96-130 | filling the object one key at a time from `{}` gives exactly `RecordParams(form)`, the set fields in the order the handler writes them |
| Records.RecordParams | src/components/records/Records.jsx:96-128 | the parameter object of a record search, the form's set fields in writing order (its meaning is stated by `RecordParamsMeaning`) |
| Records.RecordParamsUnfold | src/components/records/Records.jsx:96-128 | the parameter object is the eight conditional entries laid end to end, in writing order |
| Records.RecordParamsMeaning | src/components/records/Records.jsx:96-128 | the sent object has distinct keys and no key outside the eight. `recordType` is present iff the type is non-empty and equals it. `moneyGreaterOrEqualThan` equals the minimum. `moneyLowerOrEqualThan` is max(min, max), or the maximum alone. `budgetsIn` is the selection in order. The date pair is clamped. `name` and `comment` are sent when non-empty |
| Records.RecordParamsGets | src/components/records/Records.jsx:98-128 | each of the eight keys reads back its conditional field value |
| Records.BlankFormSendsNothing | src/components/records/Records.jsx:96-128 | the object is empty iff every field of the form is empty |
| Records.BudgetsInQuery | src/components/records/Records.jsx:112-114 | the query of a search carries one `budgetsIn` pair per selected budget, in selection order, and none without a selection |
| Records.ToggleBudget | src/components/records/Records.jsx:333-335 | clicking an unselected id appends it at the end; clicking a selected id removes it by `RemoveId`, the rest keeping their order; no other id changes membership |
| Records.ToggleBudgetTwice | src/components/records/Records.jsx:333-335 | clicking an unselected budget twice restores the selection exactly |
| Records.BudgetIds | src/components/records/Records.jsx:312 | `budgets.map(b => b.id)`: same length, the id of each budget at its position |
| Records.SelectAll | src/components/records/Records.jsx:309-313 | "select all" clears the selection when it is as long as the budget list, and otherwise selects every id in list order |
| Records.SelectAllMeaning | src/components/records/Records.jsx:309-313 | for distinct selected ids drawn from a list of distinct ids, the length test means "every budget is selected", so a full selection is cleared and any other becomes all ids |
| Records.RecordsView.RetrieveRecords | src/components/records/Records.jsx:93-139 | the params become `RecordParams(form)`; the list becomes the response, or `[]` when the call fails |
| Records.RecordsView.CleanFilters | src/components/records/Records.jsx:142-166 | empty form, `{}` params, and the unfiltered list or `[]` |
| Records.RecordsView.MaxAmountBlur | src/components/records/Records.jsx:273-279 | only `maxAmount` changes, to `BlurAmount(min, max)` |
| Records.RecordsView.EndDateBlur | src/components/records/Records.jsx:371-375 | only `endDate` changes, to `BlurDate(start, end)` |
| Records.RecordsView.ClickBudget | src/components/records/Records.jsx:330-337 | only the selection changes, by `ToggleBudget` |
| Records.RecordsView.ClickSelectAll | src/components/records/Records.jsx:307-313 | only the selection changes, by `SelectAll` |
| Records.RecordsView.DeleteConfirmed | src/components/records/Records.jsx:196 | the list loses the records with the deleted id; form and params stay |
| Budgets.FavoriteFromSelect | src/components/budgets/Budgets.jsx:310-312 | `'true'` gives true, `'false'` gives false, anything else no preference |
| Budgets.FavoriteRoundTrip | src/components/budgets/Budgets.jsx:310-314 | reading back the value of the selected option gives the selection |
| Budgets.FavoriteParam | src/components/budgets/Budgets.jsx:104-106 | `favorite` is sent iff a choice was made, and `false` is sent as well as `true` |
| Budgets.AppendFavorite | src/components/budgets/Budgets.jsx:104-106 | the favourite entry is appended exactly when `FavoriteParam` has one |
| Budgets.BuildBudgetParams | src/components/budgets/Budgets.jsx:62-108 | filling the object one key at a time from `{}` gives exactly `BudgetParams(form)` |
| Budgets.BudgetParams | src/components/budgets/Budgets.jsx:62-106 | the parameter object of a budget search, the form's set fields in writing order (its meaning is stated by `BudgetParamsMeaning`) |
| Budgets.BudgetParamsUnfold | src/components/budgets/Budgets.jsx:62-106 | the parameter object is the eight conditional entries laid end to end, in writing order |
| Budgets.BudgetParamsMeaning | src/components/budgets/Budgets.jsx:62-106 | the sent object has distinct keys and no key outside the eight. `name` is sent when non-empty. The expenses-limit pair is sent as max(lower, upper) or upper alone. Each date pair is clamped the same way. `favorite` is sent iff true or false |
| Budgets.BudgetParamsGets | src/components/budgets/Budgets.jsx:64-106 | each of the eight keys reads back its conditional field value |
| Budgets.BlankFormSendsNothing | src/components/budgets/Budgets.jsx:62-106 | the object is empty iff every field of the form is empty |
| Budgets.DatePairsIndependent | src/components/budgets/Budgets.jsx:78-102 | editing the end-date pair never changes what is sent for the start-date pair |
| Budgets.BudgetsView.RetrieveBudgets | src/components/budgets/Budgets.jsx:59-117 | the params become `BudgetParams(form)`; the list becomes the response, or `[]` when the call fails |
| Budgets.BudgetsView.CleanFilters | src/components/budgets/Budgets.jsx:120-144 | empty form, `{}` params, and the unfiltered list or `[]` |
| Budgets.BudgetsView.ExpensesLimitMaxBlur | src/components/budgets/Budgets.jsx:231-238 | only the upper limit changes, by `BlurAmount` |
| Budgets.BudgetsView.StartDateBeforeBlur | src/components/budgets/Budgets.jsx:260-264 | only the latest start date changes, by `BlurDate` |
| Budgets.BudgetsView.EndDateBeforeBlur | src/components/budgets/Budgets.jsx:286-290 | only the latest end date changes, by `BlurDate` |
| Budgets.BudgetsView.SelectFavorite | src/components/budgets/Budgets.jsx:310-312 | only the favourite changes, to `FavoriteFromSelect(value)` |
| Budgets.BudgetsView.DeleteConfirmed | src/components/budgets/Budgets.jsx:174 | the list loses the budgets with the deleted id |
| Ledger.Net | src/components/budgets/BudgetIndividual.jsx:754 | the budget total shown, incomes minus expenses, is the balance taken record by record: plus each income, minus each expense |
| Ledger.NetAppend | src/components/budgets/BudgetIndividual.jsx:99-109 | the net total of two batches of records is the sum of their net totals |
| Ledger.NetRemoveUnique | src/components/budgets/BudgetIndividual.jsx:275-294 | deleting the only record with an id takes exactly its signed amount out of the net total |
| Ledger.TypeTotal | src/components/budgets/BudgetIndividual.jsx:99-109 | the per-type sum of amounts, a missing amount counting 0 (its laws: `TypeTotalAppend`, `TypeTotalBounds`, `TypeTotalsPartition`) |
| Ledger.TypeTotalBounds | src/components/budgets/BudgetIndividual.jsx:99-109 | records of another type add nothing to a type's total, and never-negative amounts give a never-negative total |
| Ledger.MoneyTotal | src/components/Home.jsx:72 | the sum of amounts, a missing amount counting 0 (its laws: `MoneyTotalBounds`, `Home.MonthTotalAppend`) |
| Ledger.MoneyTotalBounds | src/components/Home.jsx:72 | records without an amount add nothing to the sum, and never-negative amounts give a never-negative sum |
| Ledger.DetailTotal | src/components/records/RecordIndividual.jsx:88 | the sum of detail prices, a missing price counting 0 (its laws: `DetailTotalAppend`, `DetailTotalBounds`) |
| Ledger.DetailTotalBounds | src/components/records/RecordIndividual.jsx:88 | details without a price add nothing to the total, and never-negative prices give a never-negative total |
| Ledger.RemoveRecord | src/components/records/Records.jsx:196 | the result holds no record with the id, only records of the input, and every record of the input without the id |
| Ledger.RemoveBudget | src/components/budgets/Budgets.jsx:174 | the same for budgets |
| Ledger.RemoveDetail | src/components/records/RecordIndividual.jsx:409 | the same for details |
| Ledger.RemoveId | src/components/records/RecordIndividual.jsx:411-414 | the id is gone and every other id keeps its membership |
| Ledger.ReplaceDetail | src/components/records/RecordIndividual.jsx:367-369 | same length; each position holds the updated detail iff its id matches, and the old detail otherwise |
| Ledger.TypeTotalAppend | src/components/budgets/BudgetIndividual.jsx:99-109 | a per-type total over two lists is the sum of their totals |
| Ledger.TypeTotalsPartition | src/components/budgets/BudgetIndividual.jsx:99-109 | expenses plus incomes is the sum of all amounts: every record is one or the other |
| Ledger.DetailTotalAppend | src/components/records/RecordIndividual.jsx:88 | the detail total over two lists is the sum of their totals |
| Ledger.AppendDetailTotal | src/components/records/RecordIndividual.jsx:338-343 | appending a detail adds its price to the total, a missing price counting 0 |
| Ledger.RemoveUniqueRecord | src/components/budgets/BudgetIndividual.jsx:275-294 | deleting the only record with an id keeps every other record in order, and changes only the total of its own type, by exactly its amount |
| Ledger.RemoveUniqueDetail | src/components/records/RecordIndividual.jsx:409-419 | deleting the only detail with an id keeps the others in order and lowers the total by its price |
| Ledger.ReplaceUniqueDetail | src/components/records/RecordIndividual.jsx:367-371 | replacing the only detail with a matching id changes exactly that position, and the total by the difference of the prices |
| Ledger.ReplaceNoMatch | src/components/records/RecordIndividual.jsx:367-369 | an update whose id matches no detail leaves the list unchanged |
| RecordView.WindowInclusive | src/components/records/RecordIndividual.jsx:172-175 | a budget without bounds accepts every date, and a date equal to either bound is inside the window |
| RecordView.InvalidBudgets | src/components/records/RecordIndividual.jsx:168-176 | every reported budget excludes the date, and every known associated budget that excludes it is reported; at most one per association |
| RecordView.InvalidBudgetsAppend | src/components/records/RecordIndividual.jsx:168-171 | the report follows the order of the associations: the report for two runs of ids is the first run's followed by the second's |
| RecordView.OutsideWindow | src/components/records/RecordIndividual.jsx:172-175 | a date is outside a budget's window when it is before a set start date or after a set end date |
| RecordView.MoneyMissing | src/components/records/RecordIndividual.jsx:158 | `!record.money` on the typed amount: true only when nothing is typed |
| RecordView.InvalidBudgetsFromMap | src/components/records/RecordIndividual.jsx:168-171 | every reported budget is the one the map holds for an associated id |
| RecordView.NoInvalidBudgets | src/components/records/RecordIndividual.jsx:168-178 | nothing is reported iff every known associated budget accepts the date |
| RecordView.UnknownIdIgnored | src/components/records/RecordIndividual.jsx:169-171 | an associated id absent from the map never adds to the report |
| RecordView.SaveRecordCheck | src/components/records/RecordIndividual.jsx:151-211 | missing fields iff name empty, amount not typed, or date empty (a typed `0` is an amount). Otherwise the save is blocked iff the invalid list is non-empty, and it carries that list. Otherwise it is a create iff there is no id |
| RecordView.SaveError | src/components/records/RecordIndividual.jsx:151-207 | the error is empty iff the save goes on to the server |
| RecordView.OffendingBudgetBlocksSave | src/components/records/RecordIndividual.jsx:168-178 | one associated budget whose window excludes the date blocks the save |
| RecordView.BuildBudgetMap | src/components/records/RecordIndividual.jsx:109-112 | the loop of `map.set` calls builds `IdIndex(budgets)` |
| RecordView.IdIndex | src/components/records/RecordIndividual.jsx:109-112 | the map `map.set(b.id, b)` builds: every budget in it sits under its own id |
| RecordView.IdIndexKeys | src/components/records/RecordIndividual.jsx:109-112 | the map holds exactly the ids of the list |
| RecordView.IdIndexLastWins | src/components/records/RecordIndividual.jsx:109-112 | a budget whose id does not occur later in the list is the one the map holds for it |
| RecordView.DetailValidity | src/components/records/RecordIndividual.jsx:436-440 | a draft is valid iff it exists, its name has a non-white-space character, and price and units parse; the blank draft is never valid |
| RecordView.IsDetailValid | src/components/records/RecordIndividual.jsx:436-440 | `isValidDetail`: a draft exists, its trimmed name is non-empty, and price and units are set |
| RecordView.RecordEditor.constructor | src/components/records/RecordIndividual.jsx:27-63 | the view opened without a record id: an empty expense owned by the user, in edit mode, no details |
| RecordView.RecordEditor.Opened | src/components/records/RecordIndividual.jsx:61-72 | the view opened on a record id: not in edit mode, showing the record the server returned (the blank record otherwise) and keeping it for cancelling |
| RecordView.RecordEditor.LoadDetails | src/components/records/RecordIndividual.jsx:76-96 | the detail list becomes the response or `[]`, and the total is that list's total |
| RecordView.RecordEditor.LoadBudgets | src/components/records/RecordIndividual.jsx:105-114 | the map becomes `IdIndex(budgets)`; nothing else changes |
| RecordView.RecordEditor.SaveRecord | src/components/records/RecordIndividual.jsx:149-211 | the outcome is `SaveRecordCheck(record, budgetMap)` and the error is `SaveError` of it; nothing else changes |
| RecordView.RecordEditor.SaveSucceeded | src/components/records/RecordIndividual.jsx:225-226 | the saved record is shown and edit mode ends |
| RecordView.RecordEditor.CancelEdition | src/components/records/RecordIndividual.jsx:272-279 | nothing happens without an id in the route; otherwise edit mode ends, the loaded record comes back when there is one, and the error clears |
| RecordView.RecordEditor.MakeNewDetail | src/components/records/RecordIndividual.jsx:321-328 | a blank draft opens only when no draft is open and no detail is being edited |
| RecordView.RecordEditor.MakeEditDetail | src/components/records/RecordIndividual.jsx:379-382 | the detail becomes the draft and its id the one being edited |
| RecordView.RecordEditor.SaveNewDetail | src/components/records/RecordIndividual.jsx:337-344 | the created detail is appended to the list and its id to the record; the total grows by its price and stays equal to the list's total; the draft closes |
| RecordView.RecordEditor.SaveEditDetail | src/components/records/RecordIndividual.jsx:350-377 | a draft without id or a failed call changes nothing; otherwise the detail with the returned id is replaced, the total recomputed, and draft and marker cleared |
| RecordView.RecordEditor.CancelNewDetail | src/components/records/RecordIndividual.jsx:427-429 | the draft closes and nothing else changes |
| RecordView.RecordEditor.CancelEditDetail | src/components/records/RecordIndividual.jsx:431-434 | the draft and the editing marker both clear, so a new draft can open |
| RecordView.RecordEditor.DeleteDetailConfirmed | src/components/records/RecordIndividual.jsx:409-419 | the detail leaves the list and its id leaves the record; the total is recomputed over the rest |
| BudgetView.SaveBudgetCheck | src/components/budgets/BudgetIndividual.jsx:132-142 | rejected iff the name is empty, or else iff both dates are set and end < start; otherwise a create iff there is no id |
| BudgetView.SaveBudgetError | src/components/budgets/BudgetIndividual.jsx:130-140 | no error iff the save goes on to the server |
| BudgetView.SavedBudgetWindow | src/components/budgets/BudgetIndividual.jsx:137-140 | a saved budget has end ≥ start whenever both are set, and a named budget with one date or none passes the date check |
| BudgetView.EndDateBlurRepairsWindow | src/components/budgets/BudgetIndividual.jsx:459-463 | after leaving the end-date field the date check never rejects |
| BudgetView.AsWrittenKeepsDeletedId | src/components/budgets/BudgetIndividual.jsx:281 | the record-id filter as written keeps every id, the deleted one included |
| BudgetView.AsWrittenExample | src/components/budgets/BudgetIndividual.jsx:281 | deleting `r1` from `[r1, r2]` leaves `[r1, r2]` as written, where the corrected filter leaves `[r2]` |
| BudgetView.CorrectedRemovesOnlyDeletedId | src/components/budgets/BudgetIndividual.jsx:281 | the corrected filter drops the deleted id and keeps every other id in order |
| BudgetView.BudgetEditor.ShownNet | src/components/budgets/BudgetIndividual.jsx:754 | once loaded, the total shown is the net total of the records on screen |
| BudgetView.BudgetEditor.constructor | src/components/budgets/BudgetIndividual.jsx:27-68 | the view opened on a budget id, not in edit mode, with no totals yet |
| BudgetView.BudgetEditor.New | src/components/budgets/BudgetIndividual.jsx:27-66 | the view opened without a budget id: in edit mode, with an empty budget, no records and no totals |
| BudgetView.BudgetEditor.LoadBudget | src/components/budgets/BudgetIndividual.jsx:80-81 | the budget is shown and kept as the original |
| BudgetView.BudgetEditor.LoadRecords | src/components/budgets/BudgetIndividual.jsx:92-110 | on success the list and both per-type totals are set consistently; a failure empties the list and keeps the totals |
| BudgetView.BudgetEditor.SaveBudget | src/components/budgets/BudgetIndividual.jsx:128-141 | the outcome is `SaveBudgetCheck(budget)` and the error `SaveBudgetError` of it; nothing else changes |
| BudgetView.BudgetEditor.SaveSucceeded | src/components/budgets/BudgetIndividual.jsx:154-155 | the saved budget is shown and edit mode ends |
| BudgetView.BudgetEditor.CancelEdition | src/components/budgets/BudgetIndividual.jsx:183-190 | nothing happens without an id in the route; otherwise edit mode ends, the original budget comes back when present, and the error clears |
| BudgetView.BudgetEditor.EndDateBlur | src/components/budgets/BudgetIndividual.jsx:459-463 | only the end date changes, by `BlurDate(start, end)` |
| BudgetView.BudgetEditor.DeleteRecordConfirmed | src/components/budgets/BudgetIndividual.jsx:275-294 | the record leaves the list and its id leaves the budget (corrected filter); both totals are those of the remaining records |
| Requests.Pending | src/components/requests/Requests.jsx:58 | the pending list holds exactly the unanswered requests of the response |
| Requests.Historic | src/components/requests/Requests.jsx:59 | the history holds exactly the answered requests of the response |
| Requests.PartitionComplete | src/components/requests/Requests.jsx:57-59 | the two lists partition the response: lengths add up and the multisets add up to the response's |
| Requests.SelectBudget | src/components/requests/Requests.jsx:81-87 | clicking the budget with the selected id deselects; any other click selects the clicked budget |
| Requests.SelectBudgetToggles | src/components/requests/Requests.jsx:81-87 | two clicks on one budget leave nothing selected; clicking another replaces the selection |
| Requests.CheckRequest | src/components/requests/Requests.jsx:93-127 | the outcome is the first failing check, each stated as an iff. The checks are: missing input; self-request by trimmed, lower-cased name; an accepted duplicate in the history; a pending duplicate. `Proceed` iff all pass |
| Requests.SameUser | src/components/requests/Requests.jsx:98 | two names are the same user when they agree after trimming and lower-casing |
| Requests.AcceptedExists | src/components/requests/Requests.jsx:104-109 | the history holds an accepted request for the budget from the user to the target |
| Requests.PendingExists | src/components/requests/Requests.jsx:117-121 | the pending list holds a request for the budget from the user to the target |
| Requests.RequestError | src/components/requests/Requests.jsx:91-127 | the error is empty iff the request proceeds |
| Requests.RejectedDoesNotBlock | src/components/requests/Requests.jsx:104-115 | a rejected request in the history never changes the outcome |
| Requests.CreatedBlocksRepeat | src/components/requests/Requests.jsx:117-139 | once the created request joins the pending list, the same request is refused |
| Requests.RemoveRequest | src/components/requests/Requests.jsx:176 | the pending list loses the requests with the answered id and keeps every other |
| Requests.ReplyKeepsCount | src/components/requests/Requests.jsx:174-177 | answering a request that is pending once keeps the combined length of the two lists |
| Requests.RequestsView.constructor | src/components/requests/Requests.jsx:24-32 | no selection, no typed name, empty lists and no error |
| Requests.RequestsView.LoadRequests | src/components/requests/Requests.jsx:56-63 | on success the lists become `Pending` and `Historic` of the response; a failure clears the typed name |
| Requests.RequestsView.ClickBudget | src/components/requests/Requests.jsx:81-87 | only the selection changes, by `SelectBudget` |
| Requests.RequestsView.MakeRequest | src/components/requests/Requests.jsx:89-127 | the outcome is `CheckRequest` on the view's state and the error `RequestError` of it |
| Requests.RequestsView.UserNotFound | src/components/requests/Requests.jsx:130-132 | the user-not-found error is set; nothing else changes |
| Requests.RequestsView.RequestCreated | src/components/requests/Requests.jsx:139 | the created request is appended to the pending list |
| Requests.RequestsView.ReplyConfirmed | src/components/requests/Requests.jsx:174-177 | the request leaves the pending list and its answered copy is appended to the history |
| EmailFormat.EmailCheckMatchesRegex | src/components/no-registered/NewUser.jsx:56-57 | the executable e-mail check accepts exactly what `/^[^\s@]+@[^\s@]+\.[^\s@]+$/` accepts |
| EmailFormat.EmailFromParts | src/components/no-registered/NewUser.jsx:56-57 | a non-empty local part and a domain with an inner dot, both free of white space and `@`, joined by `@`, pass |
| EmailFormat.EmailAccepted | src/components/no-registered/NewUser.jsx:56-57 | `test@test.com` is accepted |
| EmailFormat.EmailRefused | src/components/no-registered/NewUser.jsx:56-57 | `invalid-email` is refused |
| Registration.Validate | src/components/no-registered/NewUser.jsx:40-75 | the reported check fails and every earlier one passes; nothing is reported iff every check passes |
| Registration.SubmitError | src/components/no-registered/NewUser.jsx:38-75 | the error line is empty iff every check passes, and otherwise it is the message of a failing check |
| Registration.SentDataMeetsRules | src/components/no-registered/NewUser.jsx:40-77 | data sent to the server has a user name of at least 5 `[A-Za-z0-9_]` characters, an e-mail matching the expression, a password of at least 5 characters without white space, and an equal confirmation |
| Registration.EmptyEmailIsFormatError | src/components/no-registered/NewUser.jsx:40-60 | an empty e-mail is not "missing data"; the format check refuses it |
| Registration.DefaultEmailValid | src/components/no-registered/NewUser.jsx:56-57 | `user@example.com` is accepted |
| Registration.DefaultNamePasswordPass | src/components/no-registered/NewUser.jsx:40-75 | `usuario1` / `12345` / `12345` passes every check but the e-mail one |
| Registration.DefaultFormPasses | src/components/no-registered/NewUser.jsx:40-77 | `usuario1` / `user@example.com` / `12345` / `12345` reaches the server |
| Registration.ShortFormsRefused | src/components/no-registered/NewUser.jsx:40-48 | an empty form reports missing data; a three-letter name reports its length |
| Registration.AfterRegister | src/components/no-registered/NewUser.jsx:77-93 | a refused call means a duplicate user. An accepted one signs in iff the token splits into three `.` parts, and then with that token. Otherwise registration fails |
| Registration.OutcomeError | src/components/no-registered/NewUser.jsx:78-92 | an error is shown iff the user is not signed in |
| Registration.RefusedAnswers | src/components/no-registered/NewUser.jsx:78-92 | a refused call gives the duplicate error and `notajwt` the authentication error |
| Registration.SegmentedTokenSignsIn | src/components/no-registered/NewUser.jsx:83-90 | a token of three dot-free segments signs in with that token |
| Profile.WithField | src/components/user-options/UpdateUserInfo.jsx:45-47 | the named field takes the value; every other field is unchanged |
| Profile.WithFieldLaws | src/components/user-options/UpdateUserInfo.jsx:45-47 | writing a field's own value changes nothing; a second write overrides the first |
| Profile.ClearPasswords | src/components/user-options/UpdateUserInfo.jsx:66-71 | the three password fields are empty; name and e-mail are kept |
| Profile.Validate | src/components/user-options/UpdateUserInfo.jsx:86-115 | the reported check fails and every earlier one passes; nothing is reported iff every check passes; password checks apply only with the switch on |
| Profile.EmptyEmailIsMissing | src/components/user-options/UpdateUserInfo.jsx:86-89 | an empty e-mail is reported as missing, before the format check |
| Profile.ClosedPasswordsOnlyEmail | src/components/user-options/UpdateUserInfo.jsx:97-117 | with the switch off, the data reaches the server iff the e-mail is valid, whatever the password fields hold |
| Profile.SentProfileMeetsRules | src/components/user-options/UpdateUserInfo.jsx:91-117 | data sent has an e-mail matching the same expression as at registration. With the switch on, the old password is present and the new password meets the registration rules |
| Profile.InvalidEmailRefused | src/components/user-options/UpdateUserInfo.jsx:91-95 | `invalid-email` is reported as badly formed |
| Profile.ClosingSwitchLeavesEmailCheck | src/components/user-options/UpdateUserInfo.jsx:61-80 | after the switch is turned off, submitting checks the e-mail alone |
| Profile.ProfileForm.constructor | src/components/user-options/UpdateUserInfo.jsx:12-24 | the form starts with the user's name, empty fields, the switch off and no error |
| Profile.ProfileForm.EmailLoaded | src/components/user-options/UpdateUserInfo.jsx:32-35 | the loaded e-mail fills its field; nothing else changes |
| Profile.ProfileForm.HandleChange | src/components/user-options/UpdateUserInfo.jsx:45-47 | only the named field changes |
| Profile.ProfileForm.ToggleModifyPassword | src/components/user-options/UpdateUserInfo.jsx:61-80 | the switch flips. Turning it off clears the password fields and the error. Turning it on changes nothing else |
| Profile.ProfileForm.Submit | src/components/user-options/UpdateUserInfo.jsx:82-115 | the outcome is `Validate`; the error is empty iff every check passes, and otherwise it is the message of the first failing check |
| Profile.ProfileForm.UpdateAnswered | src/components/user-options/UpdateUserInfo.jsx:117-140 | a refusal sets the update error; an acceptance writes the submitted e-mail back |
| Numerals.DigitsRoundTrip | src/components/Home.jsx:75 | reading the numeral of a number gives the number back |
| Numerals.Digits | src/components/Home.jsx:75 | the decimal numeral of a whole number: at least one digit, and no leading zero unless the number is 0 |
| Numerals.TwoDigitsRoundTrip | src/components/Home.jsx:75 | the two decimals read back as the cents |
| Numerals.ChunksSizes | src/components/Home.jsx:77 | a first group of one to three digits, and groups of exactly three after it |
| Numerals.ChunksConcat | src/components/Home.jsx:77 | the groups put together are the digits |
| Numerals.GroupParts | src/components/Home.jsx:77 | splitting the grouped numeral on `.` gives the groups, which put together are the digits |
| Numerals.GroupStripsBack | src/components/Home.jsx:77 | removing every `.` from a grouped numeral gives its digits back, and it holds no `,` |
| Numerals.Group | src/components/Home.jsx:77 | the numeral with a `.` before every run of three digits that ends it, the first position excepted (stated by `GroupParts` and `GroupStripsBack`) |
| Home.AmountParts | src/components/Home.jsx:74-77 | a non-negative amount is shown as the grouped units, `,`, and two decimals |
| Home.FormatAmount | src/components/Home.jsx:74-77 | the shown amount always ends in `,` and the two decimals of the amount |
| Home.AmountShape | src/components/Home.jsx:74-77 | the shown amount splits on `,` into the grouped units and exactly two decimals, and the grouping strips back to the digits |
| Home.AmountReadsBack | src/components/Home.jsx:74-77 | `formatNumber` reads the shown amount back as the amount, given a parser that reads plain decimals at their value |
| Home.MonthExpenses | src/components/Home.jsx:66-79 | a failed call sets the records error; a success clears it |
| Home.FailureShowsZero | src/components/Home.jsx:66-69 | a failed call shows `0,00`, the same as a month without expenses |
| Home.MonthTotalAppend | src/components/Home.jsx:72 | the month total of two batches is the sum of their totals |
| Home.MissingMoneyCountsZero | src/components/Home.jsx:72 | a record without an amount changes nothing in the summary |
| Home.MonthExample | src/components/Home.jsx:72-77 | expenses of 1000,50 and 249,45 are shown as `1.249,95` |
| Formatters.NormalizeDecimalPoints | src/utils/Formatters.jsx:7 | after normalising, the string holds one `.` iff the input holds a `,`, and none otherwise |
| Formatters.NormalizeDecimal | src/utils/Formatters.jsx:7 | the thousands points go and the first decimal comma becomes a point (stated by `NormalizeDecimalPoints` and `NormalizeGrouped`) |
| Formatters.FromParsed | src/utils/Formatters.jsx:11-13 | NaN gives the placeholder; a number is passed on unchanged |
| Formatters.FormatNumber | src/utils/Formatters.jsx:1-21 | the placeholder for null, undefined and `''`; a string is normalised and parsed first; NaN gives the placeholder |
| Formatters.NormalizeGrouped | src/utils/Formatters.jsx:6-9 | a grouped amount such as `1.249,95` is normalised to the plain decimal `1249.95` |
| Formatters.FormatNumberOfGrouped | src/utils/Formatters.jsx:6-13 | a grouped amount is shown at its value, given a parser that reads plain decimals at their value |
| Formatters.FormatDate | src/utils/Formatters.jsx:23-29 | `null` iff the input is missing or empty |
| Formatters.FormatDateReorders | src/utils/Formatters.jsx:24-26 | `Y-M-D` becomes `D-M-Y` |
| Formatters.FormatDateTwice | src/utils/Formatters.jsx:25-26 | formatting twice gives back any string with exactly two `-` |
| Formatters.FormatDateWithoutDash | src/utils/Formatters.jsx:25-26 | a string without `-` yields `undefined-undefined-` followed by the string |
| Formatters.FormatDateExample | src/utils/Formatters.jsx:23-29 | `2024-01-15` becomes `15-01-2024` |
| Formatters.FormatInteger | src/utils/Formatters.jsx:31-44 | the placeholder for null, undefined and `''`. A string loses every `.` and is parsed, showing the placeholder iff parsing fails. NaN gives the placeholder |
| Formatters.FormatIntegerOfGrouped | src/utils/Formatters.jsx:36-39 | a grouped integer such as `12.345` is shown at its value |
| BaseApi.EntryPairs | src/serviceApiCalls/BaseApiService.jsx:6-10 | a null or undefined value gives no pair, an array one pair per element in order, a scalar the entry itself |
| BaseApi.NormalizedParams | src/serviceApiCalls/BaseApiService.jsx:5-11 | the query pairs of a parameter object, entry after entry (stated by `NormalizedParamsAppend`, `PairsForKey` and `NormalizedParamsEmpty`) |
| BaseApi.NormalizedParamsAppend | src/serviceApiCalls/BaseApiService.jsx:5-11 | flattening works entry by entry, so key order is kept |
| BaseApi.PairsForKey | src/serviceApiCalls/BaseApiService.jsx:5-11 | the pairs under a key are none when it is absent or nullish, one per element for an array, and the value itself for a scalar |
| BaseApi.NormalizedParamsEmpty | src/serviceApiCalls/BaseApiService.jsx:5-13 | the query is empty iff every value is nullish or an empty array |
| BaseApi.QueryString | src/serviceApiCalls/BaseApiService.jsx:13 | the query string is empty iff there are no pairs |
| BaseApi.FullUrl | src/serviceApiCalls/BaseApiService.jsx:15 | the bare URL for an empty query, and otherwise the URL, `?` and the query |
| BaseApi.RequestUrl | src/serviceApiCalls/BaseApiService.jsx:15 | the URL is the bare URL iff there are no pairs, and otherwise it is the URL followed by `?` and the query |
| BaseApi.Headers | src/serviceApiCalls/BaseApiService.jsx:18-22 | the JSON content type is always sent; `Authorization` is sent iff a non-empty token is stored, as `Bearer <token>` |
| LocalStorage.GetItem | src/contexts/AuthContext.jsx:17 | the stored value for a present key, `null` for an absent one |
| Auth.JwtShapeIsTwoDots | src/contexts/AuthContext.jsx:18 | a token has three `.` parts iff it holds exactly two dots |
| Auth.JwtShapeExamples | src/contexts/AuthContext.jsx:46 | `notajwt` is refused and `a.b.c` taken |
| Auth.JwtShapeOfSegments | src/contexts/AuthContext.jsx:18 | three dot-free segments joined by dots have the shape |
| Auth.HasJwtShape | src/contexts/AuthContext.jsx:18 | a token is taken when it is stored, non-empty, and splits on `.` into three parts |
| Auth.NotExpired | src/contexts/AuthContext.jsx:25 | the `exp` claim is present, non-zero and later than the current time |
| Auth.TokenAccepted | src/contexts/AuthContext.jsx:16-27 | the stored token has the shape, decodes, and has not expired |
| Auth.ClearedStorage | src/contexts/AuthContext.jsx:54-56 | the token and the menu preference are gone; every other key keeps its value |
| Auth.NameAfterLoad | src/contexts/AuthContext.jsx:61-71 | the `sub` claim when present, unchanged when not, `null` when decoding throws |
| Auth.ClearedSendsNoToken | src/contexts/AuthContext.jsx:54-59 | after clearing, no request carries an `Authorization` header |
| Auth.AcceptedTokenIsSent | src/contexts/AuthContext.jsx:16-27 | an accepted token is the bearer credential of every request |
| Auth.ClearedNeverAccepted | src/contexts/AuthContext.jsx:16-38 | a cleared storage never holds an accepted token |
| Auth.AuthSession.constructor | src/contexts/AuthContext.jsx:8-10 | not authenticated, no user name, loading |
| Auth.AuthSession.ClearAuthToken | src/contexts/AuthContext.jsx:54-59 | both keys are removed, the user name becomes `null`, and authenticated becomes false |
| Auth.AuthSession.LoadUserFromToken | src/contexts/AuthContext.jsx:61-71 | the user name becomes `NameAfterLoad` of the decoded token |
| Auth.AuthSession.SetAuthToken | src/contexts/AuthContext.jsx:44-52 | the token is always stored. Authentication and the user name change only when the token has the shape |
| Auth.AuthSession.CheckAuthStatus | src/contexts/AuthContext.jsx:16-42 | authenticated iff the stored token has the shape, decodes and has not expired. Every other path clears the session. Loading ends false on every path |

## Left out

- Rendering, Swal dialogs, navigation, loading flags, password-visibility toggles and the HTML list of invalid budgets shown on a refused save: display only.
- `fetch`, `Promise.all`, `useEffect` and `.then` chains: a view method models the step taken once an answer arrives, and the answer (`Option` for ok or failed) is a parameter.
- `parseFloat` and `parseInt`: number fields are already parsed (`None` for an empty field or `NaN`). In `Formatters` the parser is a function parameter. The views' `NaN` leaking into parameters is not modelled.
- Floating point: amounts are integer cents. The `toFixed(2)` rounding of detail prices is not modelled.
- `Intl.NumberFormat` and `toLocaleDateString`: `Formatters.FormatNumber` and `Formatters.FormatInteger` return the number handed to the locale formatter, not its text.
- `new Date`, the clock and the time zone. The month range of `src/components/Home.jsx:35-59` is not modelled: the records passed in are the month's. The current time in `checkAuthStatus` is a parameter.
- Home's favourite-budgets list: it is displayed unchanged.
- `jwtDecode`: a parameter giving the `sub` and `exp` claims, or `None` when it throws.
- `localStorage` is a map from keys to strings.
- RecordView.InvalidBudgets: compares ISO date strings where the source compares `new Date` values; the two agree on well-formed `YYYY-MM-DD` dates only.
- Registration.Validate: compares password and confirmation with `!=` where the source uses `localeCompare`; the two agree except for strings that locale collation treats as equal.
- Requests.CheckRequest: lower-cases ASCII letters only; `toLowerCase` on other letters is not modelled.
- Strings are sequences of characters; UTF-16 code units and surrogate pairs are not modelled, so `length` checks count characters.
- Null and empty fields are one case: a `null` name, date or id is modelled as `""`, and a `null` amount as `None`. In `Ledger.TypeTotal` a `null` amount counts 0, as `sum + null` does; an absent (`undefined`) amount, which makes the source's sum `NaN`, is not modelled.
- Requests.RequestsView.LoadRequests: a failed call sets the typed name to `""` where the source sets it to `[]`; both have length 0, which is all the checks look at.
- Profile.ProfileForm: the empty error line `''` is `None`. `Registration.SubmitError` does the same.
- RecordView.RecordEditor.constructor: the detail total starts at 0 where the source starts it at `null`; it is shown only after the details load.
- RecordView.RecordEditor: the budget preselected from the route (`src/components/records/RecordIndividual.jsx:116-125`) is not modelled; an existing record enters through `Opened`, and its details through `LoadDetails`.
- SaveRecordCheck: treats every entered amount, 0 included, as present, as `!record.money` does for the text the number input stores. A record loaded from the server whose amount is the number 0 and is saved without retyping it is refused by the source but passes in the model, because the model does not tell typed text from loaded numbers.
- The create and update calls of `saveRecord` and `saveBudget`: the model stops at the outcome `Create…` or `Update…`. `SaveSucceeded` models the accepted answer without the navigation of `src/components/budgets/BudgetIndividual.jsx:157` and `src/components/records/RecordIndividual.jsx:228`. After a create the source reopens the view on the new id; the model keeps the route id unset and the original record or budget unchanged, so a later `CancelEdition` does nothing where the source would restore the saved one.
- The handlers `createNewRecord` (`src/components/records/RecordIndividual.jsx:254`), `makeDeleteRecord` (`src/components/records/RecordIndividual.jsx:281`), `createNewBudget` (`src/components/budgets/BudgetIndividual.jsx:192`) and `makeDeleteBudget` (`src/components/budgets/BudgetIndividual.jsx:210`) are not modelled. Nor are the server's answers to the user lookup and group creation, beyond `UserNotFound` and `RequestCreated`.
- BudgetView.BudgetEditor.DeleteRecordConfirmed: removes the deleted id from the budget's own list of record ids with the corrected filter (`RemoveId`), where `src/components/budgets/BudgetIndividual.jsx:281` as written keeps every id; the as-written behaviour is `BudgetView.AsWrittenKeepsDeletedId` (see Findings).
- Login.jsx and the API service wrappers (`RecordApiService` and the others) are not part of this model.

## Findings

| source | as written | input that shows it | evidently intended | confidence | as-written member | corrected member |
|---|---|---|---|---|---|---|
| src/components/budgets/BudgetIndividual.jsx:281 | `prev.records.filter(record => record.id !== recordId)` on the budget's list of record ids: a string has no `id`, so every entry is kept | budget records `["r1", "r2"]`, deleting `"r1"`: the list stays `["r1", "r2"]` | drop the deleted id (`id !== recordId`), leaving `["r2"]` | not executed; assumes the budget's `records` holds ids, as a record's `budgets` and `details` do | BudgetView.AsWrittenKeepsDeletedId | BudgetView.CorrectedRemovesOnlyDeletedId |
