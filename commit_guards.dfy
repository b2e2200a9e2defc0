/** The checks the expense and income forms make before they call the store.
    The store itself accepts any record; these predicates say what its only
    callers let through, and what that does and does not guarantee. */
module CommitGuards {
  import opened CalculatorTypes
  import opened RecordLists

  /** The add form commits a draft only when it is named and its amount is
      positive. */
  predicate AddAccepted<C>(draft: Draft<C>) {
    |draft.name| > 0 && draft.amount > 0
  }

  /** The edit form commits only while an edit is open (a non-empty id) and
      the edited record has a non-empty name and a non-zero amount. */
  predicate EditAccepted<C>(editingId: string, patch: Patch<C>) {
    && |editingId| > 0
    && patch.name.Some? && |patch.name.value| > 0
    && patch.amount.Some? && patch.amount.value != 0
  }

  predicate PositiveAmounts<C>(items: seq<Item<C>>) {
    forall k :: 0 <= k < |items| ==> items[k].amount > 0
  }

  /** An add the form accepts keeps every amount positive and raises the
      total, which stays non-negative. */
  lemma GuardedAddKeepsPositive<C>(items: seq<Item<C>>, draft: Draft<C>, id: string)
    requires PositiveAmounts(items) && AddAccepted(draft)
    ensures PositiveAmounts(Appended(items, draft, id))
    ensures Total(Appended(items, draft, id)) > Total(items) >= 0
  {
    TotalAppended(items, draft, id);
    TotalNonNegative(items);
  }

  /** A delete keeps every amount positive. */
  lemma DeleteKeepsPositive<C>(items: seq<Item<C>>, id: string)
    requires PositiveAmounts(items)
    ensures PositiveAmounts(Removed(items, id))
  {
    var r := Removed(items, id);
    forall k | 0 <= k < |r| ensures r[k].amount > 0 {
      RemovedMembers(items, id);
      assert r[k] in r;
      var m :| 0 <= m < |items| && items[m] == r[k];
    }
  }

  /** The edit form's check asks only for a non-zero amount, so an edit it
      lets through can turn a positive expense negative. */
  lemma EditGuardAdmitsNegativeAmount()
    ensures var items := [Item("e1", "Rent", 1500, ExpenseCategory.Rental)];
            var patch := Patch(Some("e1"), Some("Rent"), Some(-1500), Some(ExpenseCategory.Rental));
            && PositiveAmounts(items)
            && EditAccepted("e1", patch)
            && !PositiveAmounts(Updated(items, "e1", patch))
  {
    var items := [Item("e1", "Rent", 1500, ExpenseCategory.Rental)];
    var patch := Patch(Some("e1"), Some("Rent"), Some(-1500), Some(ExpenseCategory.Rental));
    assert Updated(items, "e1", patch)[0].amount == -1500;
  }
}
