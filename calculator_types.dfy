/** The record shapes the calculator stores: expense and additional-income
    line items, their closed category enumerations, the id-less draft that
    an add takes and the partial record that an update takes. */
module CalculatorTypes {

  datatype Option<+T> = None | Some(value: T)

  /** The seven expense categories; each stands for one string tag. */
  datatype ExpenseCategory =
    | Groceries | Rental | Utilities | Transport | Healthcare | Entertainment | Custom
  {
    function Tag(): (r: string) {
      match this
      case Groceries => "groceries"
      case Rental => "rental"
      case Utilities => "utilities"
      case Transport => "transport"
      case Healthcare => "healthcare"
      case Entertainment => "entertainment"
      case Custom => "custom"
    }
  }

  /** The five additional-income categories; each stands for one string tag. */
  datatype IncomeCategory =
    | SideIncome | Investment | Freelance | Bonus | Custom
  {
    function Tag(): (r: string) {
      match this
      case SideIncome => "side-income"
      case Investment => "investment"
      case Freelance => "freelance"
      case Bonus => "bonus"
      case Custom => "custom"
    }
  }

  const ExpenseTags: set<string> :=
    {"groceries", "rental", "utilities", "transport", "healthcare", "entertainment", "custom"}

  const IncomeTags: set<string> :=
    {"side-income", "investment", "freelance", "bonus", "custom"}

  /** The string-literal union type as a membership test: a string is an
      expense category exactly when it is one of the seven tags. */
  function ParseExpenseCategory(s: string): (r: Option<ExpenseCategory>)
    ensures r.Some? <==> s in ExpenseTags
    ensures r.Some? ==> r.value.Tag() == s
  {
    if s == "groceries" then Some(ExpenseCategory.Groceries)
    else if s == "rental" then Some(ExpenseCategory.Rental)
    else if s == "utilities" then Some(ExpenseCategory.Utilities)
    else if s == "transport" then Some(ExpenseCategory.Transport)
    else if s == "healthcare" then Some(ExpenseCategory.Healthcare)
    else if s == "entertainment" then Some(ExpenseCategory.Entertainment)
    else if s == "custom" then Some(ExpenseCategory.Custom)
    else None
  }

  /** Likewise for the five income tags. */
  function ParseIncomeCategory(s: string): (r: Option<IncomeCategory>)
    ensures r.Some? <==> s in IncomeTags
    ensures r.Some? ==> r.value.Tag() == s
  {
    if s == "side-income" then Some(IncomeCategory.SideIncome)
    else if s == "investment" then Some(IncomeCategory.Investment)
    else if s == "freelance" then Some(IncomeCategory.Freelance)
    else if s == "bonus" then Some(IncomeCategory.Bonus)
    else if s == "custom" then Some(IncomeCategory.Custom)
    else None
  }

  /** Every expense category reads back as itself from its tag, so distinct
      categories have distinct tags and every tag is one of the seven. */
  lemma ExpenseTagRoundTrip(c: ExpenseCategory)
    ensures ParseExpenseCategory(c.Tag()) == Some(c)
    ensures c.Tag() in ExpenseTags
  {
  }

  lemma IncomeTagRoundTrip(c: IncomeCategory)
    ensures ParseIncomeCategory(c.Tag()) == Some(c)
    ensures c.Tag() in IncomeTags
  {
  }

  /** A line item. `amount` is an exact quantity (for instance in cents);
      the category type `C` is ExpenseCategory or IncomeCategory. */
  datatype Item<C> = Item(id: string, name: string, amount: int, category: C)

  type ExpenseItem = Item<ExpenseCategory>
  type IncomeItem = Item<IncomeCategory>

  /** What an add receives: a record with its `id` omitted. */
  datatype Draft<C> = Draft(name: string, amount: int, category: C)

  /** What an update receives: any subset of a record's fields, `id`
      included; `None` is a field the patch does not carry. */
  datatype Patch<C> = Patch(id: Option<string>, name: Option<string>,
                            amount: Option<int>, category: Option<C>)

  /** The patch that carries no field. */
  function EmptyPatch<C>(): (r: Patch<C>) {
    Patch(None, None, None, None)
  }

  /** The patch that carries every field of `item`. */
  function WholePatch<C>(item: Item<C>): (r: Patch<C>) {
    Patch(Some(item.id), Some(item.name), Some(item.amount), Some(item.category))
  }
}
