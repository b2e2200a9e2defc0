/** The calculator's state container: a salary, the expense list, the
    additional-income list and the hydration flag. Every mutator replaces
    the fields it names (the store's `set(...)`) and leaves the others alone;
    the three queries read the state and change nothing. */
module CalculatorStore {
  import opened CalculatorTypes
  import opened RecordLists

  class Store {
    var salary: int
    var expenses: seq<ExpenseItem>
    var additionalIncome: seq<IncomeItem>
    var hasHydrated: bool

    /** The invariant the container is meant to keep: within each list the
        ids are pairwise distinct. The mutators keep it under the conditions
        their contracts name; nothing in the store enforces it. */
    ghost predicate Valid()
      reads this
    {
      UniqueIds(expenses) && UniqueIds(additionalIncome)
    }

    /** The initial state: no salary, no records, not yet hydrated. */
    constructor ()
      ensures salary == 0 && expenses == [] && additionalIncome == [] && !hasHydrated
      ensures Valid()
    {
      salary := 0;
      expenses := [];
      additionalIncome := [];
      hasHydrated := false;
    }

    method SetHasHydrated(state: bool)
      modifies this
      ensures hasHydrated == state
      ensures salary == old(salary) && expenses == old(expenses)
      ensures additionalIncome == old(additionalIncome)
    {
      hasHydrated := state;
    }

    /** Replaces the salary, whatever its value (it may be negative). */
    method SetSalary(salary: int)
      modifies this
      ensures this.salary == salary
      ensures expenses == old(expenses) && additionalIncome == old(additionalIncome)
      ensures hasHydrated == old(hasHydrated)
    {
      this.salary := salary;
    }

    /** Appends the draft with the id the store generates; `freshId` stands
        for that random identifier, which does not collide with a listed one. */
    method AddExpense(expense: Draft<ExpenseCategory>, freshId: string)
      requires freshId !in Ids(expenses)
      modifies this
      ensures expenses == Appended(old(expenses), expense, freshId)
      ensures salary == old(salary) && additionalIncome == old(additionalIncome)
      ensures hasHydrated == old(hasHydrated)
      ensures Ids(expenses) == old(Ids(expenses)) + {freshId}
      ensures old(Valid()) ==> Valid()
      ensures Total(expenses) == old(Total(expenses)) + expense.amount
    {
      AppendedIds(expenses, expense, freshId);
      TotalAppended(expenses, expense, freshId);
      expenses := Appended(expenses, expense, freshId);
    }

    /** Merges `patch` over every expense whose id is `id`; an unknown id
        leaves the list as it was. */
    method UpdateExpense(id: string, patch: Patch<ExpenseCategory>)
      modifies this
      ensures expenses == Updated(old(expenses), id, patch)
      ensures salary == old(salary) && additionalIncome == old(additionalIncome)
      ensures hasHydrated == old(hasHydrated)
      ensures id !in old(Ids(expenses)) ==> expenses == old(expenses)
      ensures old(Valid()) && (patch.id.None? || patch.id.value == id || patch.id.value !in old(Ids(expenses)))
              ==> Valid()
    {
      if id !in Ids(expenses) {
        UpdateUnknownId(expenses, id, patch);
      }
      if UniqueIds(expenses) && (patch.id.None? || patch.id.value == id || patch.id.value !in Ids(expenses)) {
        UpdatePreservesUniqueIds(expenses, id, patch);
      }
      expenses := Updated(expenses, id, patch);
    }

    /** Drops every expense whose id is `id`, keeping the others in order. */
    method DeleteExpense(id: string)
      modifies this
      ensures expenses == Removed(old(expenses), id)
      ensures salary == old(salary) && additionalIncome == old(additionalIncome)
      ensures hasHydrated == old(hasHydrated)
      ensures Ids(expenses) == old(Ids(expenses)) - {id}
      ensures id !in old(Ids(expenses)) ==> expenses == old(expenses)
      ensures old(Valid()) ==> Valid()
      ensures Total(expenses) == old(Total(expenses)) - old(Total(WithId(expenses, id)))
    {
      RemovedMembers(expenses, id);
      if id !in Ids(expenses) {
        RemoveAbsent(expenses, id);
      }
      if UniqueIds(expenses) {
        RemovePreservesUniqueIds(expenses, id);
      }
      TotalRemoved(expenses, id);
      expenses := Removed(expenses, id);
    }

    /** Appends the draft with the id the store generates (see AddExpense). */
    method AddIncome(income: Draft<IncomeCategory>, freshId: string)
      requires freshId !in Ids(additionalIncome)
      modifies this
      ensures additionalIncome == Appended(old(additionalIncome), income, freshId)
      ensures salary == old(salary) && expenses == old(expenses)
      ensures hasHydrated == old(hasHydrated)
      ensures Ids(additionalIncome) == old(Ids(additionalIncome)) + {freshId}
      ensures old(Valid()) ==> Valid()
      ensures Total(additionalIncome) == old(Total(additionalIncome)) + income.amount
    {
      AppendedIds(additionalIncome, income, freshId);
      TotalAppended(additionalIncome, income, freshId);
      additionalIncome := Appended(additionalIncome, income, freshId);
    }

    /** Merges `patch` over every income record whose id is `id`. */
    method UpdateIncome(id: string, patch: Patch<IncomeCategory>)
      modifies this
      ensures additionalIncome == Updated(old(additionalIncome), id, patch)
      ensures salary == old(salary) && expenses == old(expenses)
      ensures hasHydrated == old(hasHydrated)
      ensures id !in old(Ids(additionalIncome)) ==> additionalIncome == old(additionalIncome)
      ensures old(Valid()) && (patch.id.None? || patch.id.value == id || patch.id.value !in old(Ids(additionalIncome)))
              ==> Valid()
    {
      if id !in Ids(additionalIncome) {
        UpdateUnknownId(additionalIncome, id, patch);
      }
      if UniqueIds(additionalIncome) && (patch.id.None? || patch.id.value == id || patch.id.value !in Ids(additionalIncome)) {
        UpdatePreservesUniqueIds(additionalIncome, id, patch);
      }
      additionalIncome := Updated(additionalIncome, id, patch);
    }

    /** Drops every income record whose id is `id`, keeping the others in order. */
    method DeleteIncome(id: string)
      modifies this
      ensures additionalIncome == Removed(old(additionalIncome), id)
      ensures salary == old(salary) && expenses == old(expenses)
      ensures hasHydrated == old(hasHydrated)
      ensures Ids(additionalIncome) == old(Ids(additionalIncome)) - {id}
      ensures id !in old(Ids(additionalIncome)) ==> additionalIncome == old(additionalIncome)
      ensures old(Valid()) ==> Valid()
      ensures Total(additionalIncome) == old(Total(additionalIncome)) - old(Total(WithId(additionalIncome, id)))
    {
      RemovedMembers(additionalIncome, id);
      if id !in Ids(additionalIncome) {
        RemoveAbsent(additionalIncome, id);
      }
      if UniqueIds(additionalIncome) {
        RemovePreservesUniqueIds(additionalIncome, id);
      }
      TotalRemoved(additionalIncome, id);
      additionalIncome := Removed(additionalIncome, id);
    }

    /** The sum of the expense amounts. */
    method GetTotalExpenses() returns (total: int)
      ensures total == Total(expenses)
    {
      total := Total(expenses);
    }

    /** The sum of the additional-income amounts. */
    method GetTotalAdditionalIncome() returns (total: int)
      ensures total == Total(additionalIncome)
    {
      total := Total(additionalIncome);
    }

    /** Salary plus additional income minus expenses; may be negative. */
    method GetNetIncome() returns (net: int)
      ensures net == salary + Total(additionalIncome) - Total(expenses)
    {
      var income := GetTotalAdditionalIncome();
      var spent := GetTotalExpenses();
      net := salary + income - spent;
    }
  }

  /** A client of the store: a salary of 5000, a rent of 1500 and freelance
      income of 800 give a net income of 4300; lowering the salary to 1000
      and dropping the income leaves 1000 - 1500 = -500. */
  method NetIncomeScenario()
  {
    var store := new Store();
    var net := store.GetNetIncome();
    assert net == 0;
    store.SetSalary(5000);
    store.AddExpense(Draft("Rent", 1500, ExpenseCategory.Rental), "e1");
    store.AddIncome(Draft("Freelance", 800, IncomeCategory.Freelance), "i1");
    var spent := store.GetTotalExpenses();
    var earned := store.GetTotalAdditionalIncome();
    net := store.GetNetIncome();
    assert spent == 1500 && earned == 800 && net == 4300;
    store.SetSalary(1000);
    store.DeleteIncome("i1");
    net := store.GetNetIncome();
    assert net == -500;
  }
}
