/** The entities the views hold in their state, as the server returns them,
    and the aggregates computed over them: per-type money totals, the net
    total and the detail total. Amounts are integer cents; an amount the
    server leaves out is `None`. */
module Ledger {
  import opened Wrappers
  import opened Seqs

  datatype RecordType = Expense | Income

  /** A ledger entry: an expense or an income, with the ids of its details
      and of the budgets it is associated with. */
  datatype Record = Record(
    id: string,
    recordType: RecordType,
    name: string,
    money: Option<int>,
    date: string,
    comment: string,
    owner: string,
    details: seq<string>,
    budgets: seq<string>)

  /** A budget: optional start and end dates (`""` when unset), an optional
      expenses limit and the ids of its records. */
  datatype Budget = Budget(
    id: string,
    name: string,
    comment: string,
    startDate: string,
    endDate: string,
    expensesLimit: Option<int>,
    favorite: bool,
    groupId: string,
    records: seq<string>)

  /** One line of a record's breakdown. */
  datatype Detail = Detail(
    id: string,
    name: string,
    pricePerUnit: Option<int>,
    units: Option<int>,
    totalPrice: Option<int>)

  /** The amount a record adds to a sum; a missing amount adds nothing. */
  function MoneyOf(r: Record): int {
    r.money.GetOr(0)
  }

  /** `records.reduce((sum, r) => r.type === t ? sum + r.money : sum, 0)` */
  function TypeTotal(rs: seq<Record>, t: RecordType): int {
    if rs == [] then 0
    else (if rs[0].recordType == t then MoneyOf(rs[0]) else 0) + TypeTotal(rs[1..], t)
  }

  /** `records.reduce((sum, r) => sum + (r.money || 0), 0)` */
  function MoneyTotal(rs: seq<Record>): int {
    if rs == [] then 0 else MoneyOf(rs[0]) + MoneyTotal(rs[1..])
  }

  /** What one record adds to a budget's balance: its amount for an
      income, and minus its amount for an expense. */
  function Signed(r: Record): int {
    match r.recordType
    case Income => MoneyOf(r)
    case Expense => -MoneyOf(r)
  }

  /** The balance of a list of records, taken record by record. */
  function Balance(rs: seq<Record>): int {
    if rs == [] then 0 else Signed(rs[0]) + Balance(rs[1..])
  }

  lemma {:induction false} TypeTotalsBalance(rs: seq<Record>)
    ensures TypeTotal(rs, Income) - TypeTotal(rs, Expense) == Balance(rs)
  {
    if rs != [] {
      TypeTotalsBalance(rs[1..]);
    }
  }

  /** The total shown for a budget, incomes minus expenses, is the balance
      of its records taken one by one. */
  function Net(rs: seq<Record>): (n: int)
    ensures n == Balance(rs)
  {
    TypeTotalsBalance(rs);
    TypeTotal(rs, Income) - TypeTotal(rs, Expense)
  }

  /** The amount a detail adds to the record's breakdown total. */
  function PriceOf(d: Detail): int {
    d.totalPrice.GetOr(0)
  }

  /** `details.reduce((sum, d) => sum + parseFloat(d.totalPrice || 0), 0)` */
  function DetailTotal(ds: seq<Detail>): int {
    if ds == [] then 0 else PriceOf(ds[0]) + DetailTotal(ds[1..])
  }

  // ------------------------------------------------------ list updates

  predicate RecordIdIsNot(id: string, r: Record) { r.id != id }
  predicate DetailIdIsNot(id: string, d: Detail) { d.id != id }
  predicate BudgetIdIsNot(id: string, b: Budget) { b.id != id }
  predicate IsNot(id: string, x: string) { x != id }

  /** `records.filter(r => r.id !== id)`: every record without that id, in
      their original order. */
  function RemoveRecord(rs: seq<Record>, id: string): (r: seq<Record>)
    ensures forall i :: 0 <= i < |r| ==> r[i].id != id && r[i] in rs
    ensures forall i :: 0 <= i < |rs| && rs[i].id != id ==> rs[i] in r
  {
    Filter(rs, x => RecordIdIsNot(id, x))
  }

  /** `budgets.filter(b => b.id !== id)` */
  function RemoveBudget(bs: seq<Budget>, id: string): (r: seq<Budget>)
    ensures forall i :: 0 <= i < |r| ==> r[i].id != id && r[i] in bs
    ensures forall i :: 0 <= i < |bs| && bs[i].id != id ==> bs[i] in r
  {
    Filter(bs, x => BudgetIdIsNot(id, x))
  }

  /** `details.filter(d => d.id !== id)` */
  function RemoveDetail(ds: seq<Detail>, id: string): (r: seq<Detail>)
    ensures forall i :: 0 <= i < |r| ==> r[i].id != id && r[i] in ds
    ensures forall i :: 0 <= i < |ds| && ds[i].id != id ==> ds[i] in r
  {
    Filter(ds, x => DetailIdIsNot(id, x))
  }

  /** `ids.filter(x => x !== id)` on a list of ids. */
  function RemoveId(ids: seq<string>, id: string): (r: seq<string>)
    ensures id !in r
    ensures forall x :: x != id ==> (x in r <==> x in ids)
  {
    Filter(ids, x => IsNot(id, x))
  }

  /** `details.map(d => d.id === updated.id ? updated : d)` */
  function ReplaceDetail(ds: seq<Detail>, updated: Detail): (r: seq<Detail>)
    ensures |r| == |ds|
    ensures forall i :: 0 <= i < |ds| ==> r[i] == (if ds[i].id == updated.id then updated else ds[i])
  {
    if ds == [] then []
    else [if ds[0].id == updated.id then updated else ds[0]] + ReplaceDetail(ds[1..], updated)
  }

  // ---------------------------------------------------------- lemmas

  lemma {:induction false} TypeTotalAppend(a: seq<Record>, b: seq<Record>, t: RecordType)
    ensures TypeTotal(a + b, t) == TypeTotal(a, t) + TypeTotal(b, t)
  {
    if a == [] {
      assert a + b == b;
    } else {
      assert (a + b)[1..] == a[1..] + b;
      TypeTotalAppend(a[1..], b, t);
    }
  }

  lemma {:induction false} DetailTotalAppend(a: seq<Detail>, b: seq<Detail>)
    ensures DetailTotal(a + b) == DetailTotal(a) + DetailTotal(b)
  {
    if a == [] {
      assert a + b == b;
    } else {
      assert (a + b)[1..] == a[1..] + b;
      DetailTotalAppend(a[1..], b);
    }
  }

  /** Records of another type add nothing to a type's total, and amounts
      that are never negative give a total that is never negative. */
  lemma {:induction false} TypeTotalBounds(rs: seq<Record>, t: RecordType)
    ensures (forall i :: 0 <= i < |rs| ==> rs[i].recordType != t) ==> TypeTotal(rs, t) == 0
    ensures (forall i :: 0 <= i < |rs| ==> MoneyOf(rs[i]) >= 0) ==> TypeTotal(rs, t) >= 0
  {
    if rs != [] {
      TypeTotalBounds(rs[1..], t);
      assert forall i :: 1 <= i < |rs| ==> rs[1..][i - 1] == rs[i];
    }
  }

  /** Records without an amount add nothing to the sum of amounts, and
      amounts that are never negative give a sum that is never negative. */
  lemma {:induction false} MoneyTotalBounds(rs: seq<Record>)
    ensures (forall i :: 0 <= i < |rs| ==> rs[i].money.None?) ==> MoneyTotal(rs) == 0
    ensures (forall i :: 0 <= i < |rs| ==> MoneyOf(rs[i]) >= 0) ==> MoneyTotal(rs) >= 0
  {
    if rs != [] {
      MoneyTotalBounds(rs[1..]);
      assert forall i :: 1 <= i < |rs| ==> rs[1..][i - 1] == rs[i];
    }
  }

  /** Details without a price add nothing to the detail total, and prices
      that are never negative give a total that is never negative. */
  lemma {:induction false} DetailTotalBounds(ds: seq<Detail>)
    ensures (forall i :: 0 <= i < |ds| ==> ds[i].totalPrice.None?) ==> DetailTotal(ds) == 0
    ensures (forall i :: 0 <= i < |ds| ==> PriceOf(ds[i]) >= 0) ==> DetailTotal(ds) >= 0
  {
    if ds != [] {
      DetailTotalBounds(ds[1..]);
      assert forall i :: 1 <= i < |ds| ==> ds[1..][i - 1] == ds[i];
    }
  }

  /** The net total of two batches of records is the sum of their net
      totals. */
  lemma {:induction false} NetAppend(a: seq<Record>, b: seq<Record>)
    ensures Net(a + b) == Net(a) + Net(b)
  {
    if a == [] {
      assert a + b == b;
    } else {
      assert (a + b)[1..] == a[1..] + b;
      NetAppend(a[1..], b);
    }
  }

  /** Removing the only record with a given id takes exactly its signed
      amount out of the net total. */
  lemma NetRemoveUnique(rs: seq<Record>, i: int)
    requires 0 <= i < |rs|
    requires forall j :: 0 <= j < |rs| && j != i ==> rs[j].id != rs[i].id
    ensures Net(RemoveRecord(rs, rs[i].id)) == Net(rs) - Signed(rs[i])
  {
    RemoveUniqueRecord(rs, i, Income);
    RemoveUniqueRecord(rs, i, Expense);
    TypeTotalsBalance(rs);
    TypeTotalsBalance(RemoveRecord(rs, rs[i].id));
  }

  /** Every record is an expense or an income, so the two type totals add
      up to the plain sum of amounts. */
  lemma {:induction false} TypeTotalsPartition(rs: seq<Record>)
    ensures TypeTotal(rs, Expense) + TypeTotal(rs, Income) == MoneyTotal(rs)
  {
    if rs != [] {
      TypeTotalsPartition(rs[1..]);
    }
  }

  /** Adding a detail adds its price to the total. */
  lemma AppendDetailTotal(ds: seq<Detail>, d: Detail)
    ensures DetailTotal(ds + [d]) == DetailTotal(ds) + PriceOf(d)
  {
    DetailTotalAppend(ds, [d]);
  }

  /** Removing the only record with a given id leaves the other records in
      their order and changes only the total of that record's type, by
      exactly its amount. */
  lemma RemoveUniqueRecord(rs: seq<Record>, i: int, t: RecordType)
    requires 0 <= i < |rs|
    requires forall j :: 0 <= j < |rs| && j != i ==> rs[j].id != rs[i].id
    ensures RemoveRecord(rs, rs[i].id) == rs[..i] + rs[i + 1..]
    ensures TypeTotal(RemoveRecord(rs, rs[i].id), t)
            == TypeTotal(rs, t) - (if rs[i].recordType == t then MoneyOf(rs[i]) else 0)
  {
    FilterDropsOne(rs, i, x => RecordIdIsNot(rs[i].id, x));
    TypeTotalSplit(rs, i, t);
    TypeTotalAppend(rs[..i], rs[i + 1..], t);
  }

  /** The total of a type is that of the records before position `i`, the
      amount at `i` when it has the type, and the total after it. */
  lemma TypeTotalSplit(rs: seq<Record>, i: int, t: RecordType)
    requires 0 <= i < |rs|
    ensures TypeTotal(rs, t)
            == TypeTotal(rs[..i], t) + (if rs[i].recordType == t then MoneyOf(rs[i]) else 0) + TypeTotal(rs[i + 1..], t)
  {
    var pre, rest := rs[..i], rs[i..];
    assert rs == pre + rest;
    TypeTotalAppend(pre, rest, t);
    assert rest[1..] == rs[i + 1..];
  }

  /** Removing the only detail with a given id removes its price from the
      total and keeps the other details in order. */
  lemma RemoveUniqueDetail(ds: seq<Detail>, i: int)
    requires 0 <= i < |ds|
    requires forall j :: 0 <= j < |ds| && j != i ==> ds[j].id != ds[i].id
    ensures RemoveDetail(ds, ds[i].id) == ds[..i] + ds[i + 1..]
    ensures DetailTotal(RemoveDetail(ds, ds[i].id)) == DetailTotal(ds) - PriceOf(ds[i])
  {
    FilterDropsOne(ds, i, x => DetailIdIsNot(ds[i].id, x));
    DetailTotalSplit(ds, i);
    DetailTotalAppend(ds[..i], ds[i + 1..]);
  }

  /** The total of a list is that of the details before position `i`, the
      price at `i`, and the total of the details after it. */
  lemma DetailTotalSplit(ds: seq<Detail>, i: int)
    requires 0 <= i < |ds|
    ensures DetailTotal(ds) == DetailTotal(ds[..i]) + PriceOf(ds[i]) + DetailTotal(ds[i + 1..])
  {
    var pre, rest := ds[..i], ds[i..];
    assert ds == pre + rest;
    DetailTotalAppend(pre, rest);
    assert rest[1..] == ds[i + 1..];
  }

  /** Replacing the only detail with the updated one's id changes the total
      by the difference of their prices. */
  lemma ReplaceUniqueDetail(ds: seq<Detail>, i: int, updated: Detail)
    requires 0 <= i < |ds| && ds[i].id == updated.id
    requires forall j :: 0 <= j < |ds| && j != i ==> ds[j].id != updated.id
    ensures ReplaceDetail(ds, updated) == ds[i := updated]
    ensures DetailTotal(ReplaceDetail(ds, updated)) == DetailTotal(ds) - PriceOf(ds[i]) + PriceOf(updated)
  {
    var ds' := ds[i := updated];
    assert ReplaceDetail(ds, updated) == ds';
    DetailTotalSplit(ds, i);
    DetailTotalSplit(ds', i);
    assert ds'[..i] == ds[..i] && ds'[i + 1..] == ds[i + 1..];
  }

  lemma {:induction false} ReplaceNoMatch(ds: seq<Detail>, updated: Detail)
    requires forall j :: 0 <= j < |ds| ==> ds[j].id != updated.id
    ensures ReplaceDetail(ds, updated) == ds
  {
    if ds != [] {
      ReplaceNoMatch(ds[1..], updated);
      assert [ds[0]] + ds[1..] == ds;
    }
  }
}
