/** The single-record view (`RecordIndividual`): the save checks, the
    budget date-window rule, the id-to-budget map built when the budgets
    arrive, and the detail list with its running total. */
module RecordView {
  import opened Wrappers
  import opened Strings
  import opened Seqs
  import opened Ledger

  // ------------------------------------------------------ budget windows

  /** A record dated `date` falls outside a budget's window when the budget
      starts after it or ends before it; an unset bound never excludes. */
  predicate OutsideWindow(date: string, b: Budget) {
    (b.startDate != "" && Less(date, b.startDate)) || (b.endDate != "" && Less(b.endDate, date))
  }

  /** The window is inclusive, and a budget without bounds accepts any date. */
  lemma WindowInclusive(date: string, b: Budget)
    ensures b.startDate == "" && b.endDate == "" ==> !OutsideWindow(date, b)
    ensures date == b.startDate && (b.endDate == "" || !Less(b.endDate, date)) ==> !OutsideWindow(date, b)
    ensures date == b.endDate && (b.startDate == "" || !Less(date, b.startDate)) ==> !OutsideWindow(date, b)
  {
    LessIrreflexive(date);
  }

  /** `record.budgets.map(id => budgetMap.get(id)).filter(b => b && outside)`:
      the associated budgets, in association order, whose window excludes
      the date; ids that are not in the map are skipped. */
  function InvalidBudgets(date: string, ids: seq<string>, budgetMap: map<string, Budget>): (r: seq<Budget>)
    ensures |r| <= |ids|
    ensures forall i :: 0 <= i < |r| ==> OutsideWindow(date, r[i])
    ensures forall j :: 0 <= j < |ids| && ids[j] in budgetMap && OutsideWindow(date, budgetMap[ids[j]]) ==>
              budgetMap[ids[j]] in r
  {
    if ids == [] then []
    else
      var rest := InvalidBudgets(date, ids[1..], budgetMap);
      assert forall j :: 1 <= j < |ids| ==> ids[1..][j - 1] == ids[j];
      if ids[0] in budgetMap && OutsideWindow(date, budgetMap[ids[0]]) then [budgetMap[ids[0]]] + rest else rest
  }

  /** The report follows the order of the associations: the report for two
      runs of ids is the report for the first run followed by that for the
      second. */
  lemma {:induction false} InvalidBudgetsAppend(date: string, a: seq<string>, b: seq<string>, budgetMap: map<string, Budget>)
    ensures InvalidBudgets(date, a + b, budgetMap)
            == InvalidBudgets(date, a, budgetMap) + InvalidBudgets(date, b, budgetMap)
  {
    if a == [] {
      assert a + b == b;
    } else {
      assert (a + b)[1..] == a[1..] + b;
      assert (a + b)[0] == a[0];
      InvalidBudgetsAppend(date, a[1..], b, budgetMap);
    }
  }

  /** Every reported budget is the one the map holds for an associated id. */
  lemma {:induction false} InvalidBudgetsFromMap(date: string, ids: seq<string>, budgetMap: map<string, Budget>, i: int)
    requires 0 <= i < |InvalidBudgets(date, ids, budgetMap)|
    ensures exists j :: 0 <= j < |ids| && ids[j] in budgetMap
                        && budgetMap[ids[j]] == InvalidBudgets(date, ids, budgetMap)[i]
  {
    var r := InvalidBudgets(date, ids, budgetMap);
    var rest := InvalidBudgets(date, ids[1..], budgetMap);
    var taken := ids[0] in budgetMap && OutsideWindow(date, budgetMap[ids[0]]);
    if taken && i == 0 {
      assert ids[0] in budgetMap && budgetMap[ids[0]] == r[0];
    } else {
      var k := if taken then i - 1 else i;
      assert r[i] == rest[k];
      InvalidBudgetsFromMap(date, ids[1..], budgetMap, k);
      var j :| 0 <= j < |ids[1..]| && ids[1..][j] in budgetMap && budgetMap[ids[1..][j]] == rest[k];
      assert ids[j + 1] == ids[1..][j];
    }
  }

  /** Nothing is reported exactly when every associated budget that is known
      accepts the date; in particular unknown ids never block a save. */
  lemma NoInvalidBudgets(date: string, ids: seq<string>, budgetMap: map<string, Budget>)
    ensures InvalidBudgets(date, ids, budgetMap) == [] <==>
            forall j :: 0 <= j < |ids| && ids[j] in budgetMap ==> !OutsideWindow(date, budgetMap[ids[j]])
  {
  }

  /** Associating a budget the map does not hold reports nothing new. */
  lemma {:induction false} UnknownIdIgnored(date: string, ids: seq<string>, id: string, budgetMap: map<string, Budget>)
    requires id !in budgetMap
    ensures InvalidBudgets(date, ids + [id], budgetMap) == InvalidBudgets(date, ids, budgetMap)
  {
    if ids == [] {
      assert ([id])[1..] == [];
    } else {
      assert (ids + [id])[1..] == ids[1..] + [id];
      UnknownIdIgnored(date, ids[1..], id, budgetMap);
    }
  }

  // ---------------------------------------------------------- save checks

  const MissingFieldsMessage := "El registro debe tener nombre, importe y fecha de registro."
  const OutsideWindowMessage := "El gasto no puede asociarse con presupuestos fuera de su rango de fechas."

  /** What `saveRecord` does with the record: stop with an error, or go on
      to create it (no id yet) or update it. */
  datatype SaveOutcome =
    | MissingFields
    | OutsideBudgets(invalid: seq<Budget>)
    | CreateRecord
    | UpdateRecord

  /** `!record.money` on the amount as typed into the number input: only
      the empty text is falsy; a typed `0` is a present amount. */
  predicate MoneyMissing(money: Option<int>) {
    money.None?
  }

  function SaveRecordCheck(record: Record, budgetMap: map<string, Budget>): (o: SaveOutcome)
    ensures o.MissingFields? <==> record.name == "" || MoneyMissing(record.money) || record.date == ""
    ensures o.OutsideBudgets? ==>
              o.invalid == InvalidBudgets(record.date, record.budgets, budgetMap) && o.invalid != []
    ensures (o.CreateRecord? || o.UpdateRecord?) <==>
              !o.MissingFields? && InvalidBudgets(record.date, record.budgets, budgetMap) == []
    ensures o.CreateRecord? ==> record.id == ""
    ensures o.UpdateRecord? ==> record.id != ""
  {
    if record.name == "" then MissingFields
    else if MoneyMissing(record.money) then MissingFields
    else if record.date == "" then MissingFields
    else
      var invalid := InvalidBudgets(record.date, record.budgets, budgetMap);
      if |invalid| > 0 then OutsideBudgets(invalid)
      else if record.id == "" then CreateRecord
      else UpdateRecord
  }

  /** The error a save leaves on screen; `""` when it goes on to the server. */
  function SaveError(o: SaveOutcome): (e: string)
    ensures e == "" <==> o.CreateRecord? || o.UpdateRecord?
  {
    match o
    case MissingFields => MissingFieldsMessage
    case OutsideBudgets(_) => OutsideWindowMessage
    case _ => ""
  }

  /** A budget the record is associated with whose window excludes the date
      blocks the save, whatever else the record holds. */
  lemma OffendingBudgetBlocksSave(record: Record, budgetMap: map<string, Budget>, j: int)
    requires 0 <= j < |record.budgets| && record.budgets[j] in budgetMap
    requires OutsideWindow(record.date, budgetMap[record.budgets[j]])
    ensures SaveRecordCheck(record, budgetMap).MissingFields? || SaveRecordCheck(record, budgetMap).OutsideBudgets?
  {
    assert budgetMap[record.budgets[j]] in InvalidBudgets(record.date, record.budgets, budgetMap);
  }

  // ----------------------------------------------------------- budget map

  /** The map `budgetsData.forEach(b => map.set(b.id, b))` ends with: every
      id of the list, bound to the last budget carrying it. */
  function IdIndex(bs: seq<Budget>): (m: map<string, Budget>)
    ensures forall id :: id in m ==> m[id].id == id
  {
    if bs == [] then map[] else IdIndex(bs[..|bs| - 1])[bs[|bs| - 1].id := bs[|bs| - 1]]
  }

  method BuildBudgetMap(bs: seq<Budget>) returns (m: map<string, Budget>)
    ensures m == IdIndex(bs)
  {
    m := map[];
    for i := 0 to |bs|
      invariant m == IdIndex(bs[..i])
    {
      assert bs[..i + 1][..i] == bs[..i];
      m := m[bs[i].id := bs[i]];
    }
    assert bs[..|bs|] == bs;
  }

  /** The map holds exactly the ids of the list. */
  lemma {:induction false} IdIndexKeys(bs: seq<Budget>, id: string)
    ensures id in IdIndex(bs) <==> exists i :: 0 <= i < |bs| && bs[i].id == id
  {
    if bs != [] {
      var n := |bs| - 1;
      IdIndexKeys(bs[..n], id);
      if exists i :: 0 <= i < n && bs[..n][i].id == id {
        var i :| 0 <= i < n && bs[..n][i].id == id;
        assert bs[i].id == id;
      }
      if exists i :: 0 <= i < |bs| && bs[i].id == id {
        var i :| 0 <= i < |bs| && bs[i].id == id;
        if i < n {
          assert bs[..n][i].id == id;
        }
      }
    }
  }

  /** A budget whose id does not occur later in the list is what the map
      holds for that id. */
  lemma {:induction false} IdIndexLastWins(bs: seq<Budget>, i: int)
    requires 0 <= i < |bs|
    requires forall j :: i < j < |bs| ==> bs[j].id != bs[i].id
    ensures bs[i].id in IdIndex(bs) && IdIndex(bs)[bs[i].id] == bs[i]
  {
    var n := |bs| - 1;
    if i < n {
      IdIndexLastWins(bs[..n], i);
    }
  }

  // -------------------------------------------------------------- details

  /** The detail being written: parsed number fields, `None` when they do
      not parse; `id` is `""` for a detail that does not exist yet. */
  datatype DetailDraft = DetailDraft(id: string, name: string, pricePerUnit: Option<int>, units: Option<int>)

  const BlankDraft := DetailDraft("", "", None, None)

  /** `isDetailValid`: a draft whose name is not blank and whose price and
      units parse. */
  predicate IsDetailValid(draft: Option<DetailDraft>) {
    draft.Some? && Trim(draft.value.name) != "" && draft.value.pricePerUnit.Some? && draft.value.units.Some?
  }

  /** A draft is valid exactly when it exists, its name holds a character
      other than white space and both numbers parse; the blank draft of
      `makeNewDetail` is never valid. */
  lemma DetailValidity(draft: Option<DetailDraft>)
    ensures IsDetailValid(draft) <==>
              draft.Some? && (exists i :: 0 <= i < |draft.value.name| && !IsSpace(draft.value.name[i]))
              && draft.value.pricePerUnit.Some? && draft.value.units.Some?
    ensures !IsDetailValid(Some(BlankDraft))
  {
    if draft.Some? {
      TrimEmpty(draft.value.name);
    }
  }

  function DraftOf(d: Detail): DetailDraft {
    DetailDraft(d.id, d.name, d.pricePerUnit, d.units)
  }

  // ----------------------------------------------------------------- view

  /** The state of the record view. `totalDetails` always equals the total
      of the loaded details. */
  class RecordEditor {
    var record: Record
    var originalRecord: Option<Record>
    var hasIdParam: bool
    var editMode: bool
    var error: string
    var budgetMap: map<string, Budget>
    var completeDetails: seq<Detail>
    var totalDetails: int
    var newDetail: Option<DetailDraft>
    var editingDetailId: Option<string>

    ghost predicate Valid()
      reads this
    {
      totalDetails == DetailTotal(completeDetails)
    }

    /** The view opened without a record id: an empty expense owned by the
        user, in edit mode. */
    constructor(userName: string)
      ensures Valid()
      ensures record == Record("", Expense, "", None, "", "", userName, [], [])
      ensures originalRecord == None && !hasIdParam && editMode
      ensures completeDetails == [] && totalDetails == 0
      ensures newDetail == None && editingDetailId == None && budgetMap == map[]
    {
      record := Record("", Expense, "", None, "", "", userName, [], []);
      originalRecord := None;
      hasIdParam := false;
      editMode := true;
      error := "";
      budgetMap := map[];
      completeDetails := [];
      totalDetails := 0;
      newDetail := None;
      editingDetailId := None;
    }

    /** The view opened on a record id: not in edit mode, showing the record
        the server returned (the blank record when it returned none) and
        keeping it for `cancelEdition`; the details load afterwards. */
    constructor Opened(userName: string, loaded: Option<Record>)
      ensures Valid()
      ensures record == loaded.GetOr(Record("", Expense, "", None, "", "", userName, [], []))
      ensures originalRecord == loaded && hasIdParam && !editMode
      ensures completeDetails == [] && totalDetails == 0
      ensures newDetail == None && editingDetailId == None && budgetMap == map[]
    {
      record := loaded.GetOr(Record("", Expense, "", None, "", "", userName, [], []));
      originalRecord := loaded;
      hasIdParam := true;
      editMode := false;
      error := "";
      budgetMap := map[];
      completeDetails := [];
      totalDetails := 0;
      newDetail := None;
      editingDetailId := None;
    }

    /** The details of the record arrive (or the call fails): the list and
        its total are replaced. */
    method LoadDetails(response: Option<seq<Detail>>)
      modifies this
      ensures Valid()
      ensures completeDetails == response.GetOr([])
      ensures record == old(record) && newDetail == old(newDetail) && editingDetailId == old(editingDetailId)
      ensures budgetMap == old(budgetMap) && error == old(error) && editMode == old(editMode)
      ensures originalRecord == old(originalRecord) && hasIdParam == old(hasIdParam)
    {
      completeDetails := response.GetOr([]);
      totalDetails := DetailTotal(completeDetails);
    }

    /** The budgets arrive: the id-to-budget map is rebuilt from them. */
    method LoadBudgets(budgets: seq<Budget>)
      modifies this
      ensures budgetMap == IdIndex(budgets)
      ensures record == old(record) && completeDetails == old(completeDetails) && totalDetails == old(totalDetails)
      ensures newDetail == old(newDetail) && editingDetailId == old(editingDetailId)
      ensures error == old(error) && editMode == old(editMode)
      ensures originalRecord == old(originalRecord) && hasIdParam == old(hasIdParam)
    {
      budgetMap := BuildBudgetMap(budgets);
    }

    /** `saveRecord` up to the server call: the outcome says which call (if
        any) is made, and the error shown is set accordingly. */
    method SaveRecord() returns (o: SaveOutcome)
      modifies this
      ensures o == SaveRecordCheck(record, budgetMap)
      ensures error == SaveError(o)
      ensures record == old(record) && budgetMap == old(budgetMap) && editMode == old(editMode)
      ensures completeDetails == old(completeDetails) && totalDetails == old(totalDetails)
      ensures newDetail == old(newDetail) && editingDetailId == old(editingDetailId)
      ensures originalRecord == old(originalRecord) && hasIdParam == old(hasIdParam)
    {
      error := "";
      if record.name == "" || MoneyMissing(record.money) || record.date == "" {
        error := MissingFieldsMessage;
        return MissingFields;
      }
      var invalid := InvalidBudgets(record.date, record.budgets, budgetMap);
      if |invalid| > 0 {
        error := OutsideWindowMessage;
        return OutsideBudgets(invalid);
      }
      o := if record.id == "" then CreateRecord else UpdateRecord;
    }

    /** The server accepted the create or update: the view shows the saved
        record and leaves edit mode. */
    method SaveSucceeded(saved: Record)
      modifies this
      ensures record == saved && !editMode
      ensures completeDetails == old(completeDetails) && totalDetails == old(totalDetails)
      ensures budgetMap == old(budgetMap) && error == old(error)
      ensures newDetail == old(newDetail) && editingDetailId == old(editingDetailId)
      ensures originalRecord == old(originalRecord) && hasIdParam == old(hasIdParam)
    {
      record := saved;
      editMode := false;
    }

    /** `cancelEdition`: nothing without a record id in the route; otherwise
        leave edit mode, restore the loaded record when there is one and
        clear the error. */
    method CancelEdition()
      modifies this
      ensures !old(hasIdParam) ==> record == old(record) && editMode == old(editMode) && error == old(error)
      ensures old(hasIdParam) ==> !editMode && error == ""
      ensures old(hasIdParam) ==> record == old(originalRecord).GetOr(old(record))
      ensures completeDetails == old(completeDetails) && totalDetails == old(totalDetails)
      ensures budgetMap == old(budgetMap) && newDetail == old(newDetail) && editingDetailId == old(editingDetailId)
      ensures originalRecord == old(originalRecord) && hasIdParam == old(hasIdParam)
    {
      if !hasIdParam {
        return;
      }
      editMode := false;
      if originalRecord.Some? {
        record := originalRecord.value;
      }
      error := "";
    }

    /** `makeNewDetail`: opens a blank draft unless a draft is already open
        or a detail is being edited. */
    method MakeNewDetail()
      modifies this
      ensures old(newDetail).Some? || old(editingDetailId).Some? ==> newDetail == old(newDetail)
      ensures old(newDetail).None? && old(editingDetailId).None? ==> newDetail == Some(BlankDraft)
      ensures record == old(record) && completeDetails == old(completeDetails) && totalDetails == old(totalDetails)
      ensures editingDetailId == old(editingDetailId) && budgetMap == old(budgetMap) && error == old(error)
      ensures editMode == old(editMode) && originalRecord == old(originalRecord) && hasIdParam == old(hasIdParam)
    {
      if newDetail.Some? || editingDetailId.Some? {
        return;
      }
      newDetail := Some(BlankDraft);
    }

    /** `makeEditDetail`: the detail becomes the draft being edited. */
    method MakeEditDetail(d: Detail)
      modifies this
      ensures editingDetailId == Some(d.id) && newDetail == Some(DraftOf(d))
      ensures record == old(record) && completeDetails == old(completeDetails) && totalDetails == old(totalDetails)
      ensures budgetMap == old(budgetMap) && error == old(error)
      ensures editMode == old(editMode) && originalRecord == old(originalRecord) && hasIdParam == old(hasIdParam)
    {
      editingDetailId := Some(d.id);
      newDetail := Some(DraftOf(d));
    }

    /** `saveNewDetail` once the server returns the created detail: it goes
        at the end of the list and its id at the end of the record's ids;
        the total grows by its price and the draft closes. */
    method SaveNewDetail(created: Detail)
      requires Valid()
      modifies this
      ensures Valid()
      ensures completeDetails == old(completeDetails) + [created]
      ensures record == old(record).(details := old(record).details + [created.id])
      ensures totalDetails == old(totalDetails) + PriceOf(created)
      ensures newDetail == None
      ensures editingDetailId == old(editingDetailId) && budgetMap == old(budgetMap) && error == old(error)
      ensures editMode == old(editMode) && originalRecord == old(originalRecord) && hasIdParam == old(hasIdParam)
    {
      AppendDetailTotal(completeDetails, created);
      completeDetails := completeDetails + [created];
      record := record.(details := record.details + [created.id]);
      totalDetails := DetailTotal(completeDetails);
      newDetail := None;
    }

    /** `saveEditDetail`: a draft without id is refused and changes nothing;
        a failed update changes nothing; otherwise the detail with the
        returned id is replaced, the total recomputed and both the draft and
        the editing marker cleared. */
    method SaveEditDetail(draft: DetailDraft, response: Option<Detail>)
      requires Valid()
      modifies this
      ensures Valid()
      ensures draft.id == "" || response.None? ==>
                completeDetails == old(completeDetails) && newDetail == old(newDetail)
                && editingDetailId == old(editingDetailId)
      ensures draft.id != "" && response.Some? ==>
                completeDetails == ReplaceDetail(old(completeDetails), response.value)
                && newDetail == None && editingDetailId == None
      ensures record == old(record) && budgetMap == old(budgetMap) && error == old(error)
      ensures editMode == old(editMode) && originalRecord == old(originalRecord) && hasIdParam == old(hasIdParam)
    {
      if draft.id != "" && response.Some? {
        var ds := ReplaceDetail(completeDetails, response.value);
        var total := DetailTotal(ds);
        completeDetails, totalDetails := ds, total;
        editingDetailId, newDetail := None, None;
      }
    }

    /** `cancelNewDetail`: the draft closes; an edit in progress keeps its
        marker. */
    method CancelNewDetail()
      modifies this
      ensures newDetail == None && editingDetailId == old(editingDetailId)
      ensures record == old(record) && completeDetails == old(completeDetails) && totalDetails == old(totalDetails)
      ensures budgetMap == old(budgetMap) && error == old(error)
      ensures editMode == old(editMode) && originalRecord == old(originalRecord) && hasIdParam == old(hasIdParam)
    {
      newDetail := None;
    }

    /** `cancelEditDetail`: both the draft and the editing marker clear, so
        a new draft can be opened again. */
    method CancelEditDetail()
      modifies this
      ensures newDetail == None && editingDetailId == None
      ensures record == old(record) && completeDetails == old(completeDetails) && totalDetails == old(totalDetails)
      ensures budgetMap == old(budgetMap) && error == old(error)
      ensures editMode == old(editMode) && originalRecord == old(originalRecord) && hasIdParam == old(hasIdParam)
    {
      editingDetailId := None;
      newDetail := None;
    }

    /** After the server confirms a detail delete: the detail leaves the
        list, its id leaves the record, and the total is recomputed over the
        rest. */
    method DeleteDetailConfirmed(id: string)
      requires Valid()
      modifies this
      ensures Valid()
      ensures completeDetails == RemoveDetail(old(completeDetails), id)
      ensures record == old(record).(details := RemoveId(old(record).details, id))
      ensures newDetail == old(newDetail) && editingDetailId == old(editingDetailId)
      ensures budgetMap == old(budgetMap) && error == old(error)
      ensures editMode == old(editMode) && originalRecord == old(originalRecord) && hasIdParam == old(hasIdParam)
    {
      completeDetails := RemoveDetail(completeDetails, id);
      record := record.(details := RemoveId(record.details, id));
      totalDetails := DetailTotal(completeDetails);
    }
  }
}
