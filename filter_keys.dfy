/** The property names the list views write into their query-parameter
    objects. They form a fixed set, so they are modelled as an enumeration;
    `Name` gives the property name sent on the wire. */
module FilterKeys {

  datatype Key =
    // records (`retrieveRecords`, and the home page's month query)
    | RecordType
    | MoneyGreaterOrEqualThan
    | MoneyLowerOrEqualThan
    | BudgetsIn
    | DateAfterOrEqualThan
    | DateBeforeOrEqualThan
    | Comment
    // shared by records and budgets
    | Name
    // budgets (`retrieveBudgets`, and the home page's favourites query)
    | ExpensesLimitGreaterOrEqualThan
    | ExpensesLimitLowerOrEqualThan
    | StartDateAfterOrEqualThan
    | StartDateBeforeOrEqualThan
    | EndDateAfterOrEqualThan
    | EndDateBeforeOrEqualThan
    | Favorite

  function PropertyName(k: Key): string {
    match k
    case RecordType => "recordType"
    case MoneyGreaterOrEqualThan => "moneyGreaterOrEqualThan"
    case MoneyLowerOrEqualThan => "moneyLowerOrEqualThan"
    case BudgetsIn => "budgetsIn"
    case DateAfterOrEqualThan => "dateAfterOrEqualThan"
    case DateBeforeOrEqualThan => "dateBeforeOrEqualThan"
    case Comment => "comment"
    case Name => "name"
    case ExpensesLimitGreaterOrEqualThan => "expensesLimitGreaterOrEqualThan"
    case ExpensesLimitLowerOrEqualThan => "expensesLimitLowerOrEqualThan"
    case StartDateAfterOrEqualThan => "startDateAfterOrEqualThan"
    case StartDateBeforeOrEqualThan => "startDateBeforeOrEqualThan"
    case EndDateAfterOrEqualThan => "endDateAfterOrEqualThan"
    case EndDateBeforeOrEqualThan => "endDateBeforeOrEqualThan"
    case Favorite => "favorite"
  }
}
