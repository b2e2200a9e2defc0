/** The pure list transformations behind the store's mutators (spread-append,
    `.map` patching, `.filter` deletion) and its `.reduce` totals, with the
    properties they keep. */
module RecordLists {
  import opened CalculatorTypes

  /** The ids occurring in a list. */
  function Ids<C>(items: seq<Item<C>>): (r: set<string>) {
    set k | 0 <= k < |items| :: items[k].id
  }

  lemma IdsOfTail<C>(items: seq<Item<C>>)
    requires items != []
    ensures Ids(items) == {items[0].id} + Ids(items[1..])
  {
    assert forall k :: 1 <= k < |items| ==> items[1..][k - 1] == items[k];
    forall x | x in Ids(items[1..]) ensures x in Ids(items) {
      var k :| 0 <= k < |items[1..]| && items[1..][k].id == x;
      assert items[k + 1].id == x;
    }
  }

  /** The invariant the container is meant to keep: ids are pairwise distinct. */
  predicate UniqueIds<C>(items: seq<Item<C>>) {
    forall i, j :: 0 <= i < j < |items| ==> items[i].id != items[j].id
  }

  // ---------------------------------------------------------------------------
  // Add: `[...state.expenses, { ...expense, id: crypto.randomUUID() }]`

  /** The record an add builds: the draft's fields plus the new id. */
  function FromDraft<C>(draft: Draft<C>, id: string): (r: Item<C>) {
    Item(id, draft.name, draft.amount, draft.category)
  }

  function Appended<C>(items: seq<Item<C>>, draft: Draft<C>, id: string): (r: seq<Item<C>>) {
    items + [FromDraft(draft, id)]
  }

  /** An add contributes exactly its new id, and keeps ids distinct when that
      id is fresh. */
  lemma AppendedIds<C>(items: seq<Item<C>>, draft: Draft<C>, id: string)
    ensures Ids(Appended(items, draft, id)) == Ids(items) + {id}
    ensures UniqueIds(items) && id !in Ids(items) ==> UniqueIds(Appended(items, draft, id))
  {
    var r := Appended(items, draft, id);
    assert r[|items|].id == id;
    assert forall k :: 0 <= k < |items| ==> r[k] == items[k];
  }

  // ---------------------------------------------------------------------------
  // Update: `state.expenses.map(e => e.id === id ? { ...e, ...patch } : e)`

  /** The shallow merge `{ ...item, ...patch }`: every field the patch carries
      wins, every other field is kept. */
  function Merge<C>(item: Item<C>, patch: Patch<C>): (r: Item<C>) {
    Item(
      match patch.id case Some(v) => v case None => item.id,
      match patch.name case Some(v) => v case None => item.name,
      match patch.amount case Some(v) => v case None => item.amount,
      match patch.category case Some(v) => v case None => item.category)
  }

  /** A merged record's id changes only if the patch carries a different id. */
  lemma MergeKeepsId<C>(item: Item<C>, patch: Patch<C>)
    ensures Merge(item, patch).id != item.id <==> patch.id.Some? && patch.id.value != item.id
  {
  }

  /** Merging nothing changes nothing; merging twice is merging once; merging
      a whole record (what the edit form sends) yields that record. */
  lemma MergeLaws<C>(item: Item<C>, patch: Patch<C>, other: Item<C>)
    ensures Merge(item, EmptyPatch()) == item
    ensures Merge(Merge(item, patch), patch) == Merge(item, patch)
    ensures Merge(item, WholePatch(other)) == other
  {
  }

  /** The `.map` callback: patch a record whose id matches, keep the others. */
  function PatchIfMatch<C>(item: Item<C>, id: string, patch: Patch<C>): (r: Item<C>) {
    if item.id == id then Merge(item, patch) else item
  }

  function Updated<C>(items: seq<Item<C>>, id: string, patch: Patch<C>): (r: seq<Item<C>>)
    ensures |r| == |items|
    ensures forall k :: 0 <= k < |items| ==> r[k] == PatchIfMatch(items[k], id, patch)
  {
    if items == [] then []
    else [PatchIfMatch(items[0], id, patch)] + Updated(items[1..], id, patch)
  }

  /** Updating an id that does not occur leaves the list identical. */
  lemma UpdateUnknownId<C>(items: seq<Item<C>>, id: string, patch: Patch<C>)
    requires id !in Ids(items)
    ensures Updated(items, id, patch) == items
  {
    var r := Updated(items, id, patch);
    forall k | 0 <= k < |items| ensures r[k] == items[k] {
      assert items[k].id != id;
    }
  }

  /** Applying the same update twice is applying it once, even when the patch
      moves the records to another id. */
  lemma UpdateIdempotent<C>(items: seq<Item<C>>, id: string, patch: Patch<C>)
    ensures Updated(Updated(items, id, patch), id, patch) == Updated(items, id, patch)
  {
    var once := Updated(items, id, patch);
    var twice := Updated(once, id, patch);
    forall k | 0 <= k < |items| ensures twice[k] == once[k] {
      MergeLaws(items[k], patch, items[k]);
    }
  }

  /** An update keeps ids distinct unless the patch gives the record an id
      that another record already has. */
  lemma UpdatePreservesUniqueIds<C>(items: seq<Item<C>>, id: string, patch: Patch<C>)
    requires UniqueIds(items)
    requires patch.id.None? || patch.id.value == id || patch.id.value !in Ids(items)
    ensures UniqueIds(Updated(items, id, patch))
  {
    var r := Updated(items, id, patch);
    forall i, j | 0 <= i < j < |r| ensures r[i].id != r[j].id {
      if items[i].id == id && patch.id.Some? && patch.id.value != id {
        assert items[j].id != id;
        assert r[j] == items[j];
      } else if items[j].id == id && patch.id.Some? && patch.id.value != id {
        assert r[i] == items[i];
      }
    }
  }

  /** A patch that carries another record's id breaks id uniqueness: the
      update operation itself does not guard against it. */
  lemma UpdateCanDuplicateIds()
    ensures var items := [Item("a", "Rent", 1500, ExpenseCategory.Rental),
                          Item("b", "Bus", 80, ExpenseCategory.Transport)];
            UniqueIds(items) &&
            !UniqueIds(Updated(items, "b", Patch(Some("a"), None, None, None)))
  {
    var items := [Item("a", "Rent", 1500, ExpenseCategory.Rental),
                  Item("b", "Bus", 80, ExpenseCategory.Transport)];
    var r := Updated(items, "b", Patch(Some("a"), None, None, None));
    assert r[0].id == r[1].id;
  }

  // ---------------------------------------------------------------------------
  // Delete: `state.expenses.filter(e => e.id !== id)`

  function Removed<C>(items: seq<Item<C>>, id: string): (r: seq<Item<C>>)
    ensures |r| <= |items|
  {
    if items == [] then []
    else if items[0].id != id then [items[0]] + Removed(items[1..], id)
    else Removed(items[1..], id)
  }

  /** The complementary filter: the records a delete of `id` removes. */
  function WithId<C>(items: seq<Item<C>>, id: string): (r: seq<Item<C>>)
    ensures |r| <= |items|
  {
    if items == [] then []
    else if items[0].id == id then [items[0]] + WithId(items[1..], id)
    else WithId(items[1..], id)
  }

  /** What survives a delete is exactly the records of the list whose id
      differs; the deleted id no longer occurs. */
  lemma {:induction false} RemovedMembers<C>(items: seq<Item<C>>, id: string)
    ensures forall k :: 0 <= k < |Removed(items, id)| ==> Removed(items, id)[k] in items
    ensures forall k :: 0 <= k < |items| && items[k].id != id ==> items[k] in Removed(items, id)
    ensures Ids(Removed(items, id)) == Ids(items) - {id}
  {
    if items != [] {
      var r := Removed(items, id);
      var rt := Removed(items[1..], id);
      RemovedMembers(items[1..], id);
      assert items == [items[0]] + items[1..];
      IdsOfTail(items);
      if items[0].id != id {
        assert r == [items[0]] + rt;
        IdsOfTail(r);
        assert r[1..] == rt;
      }
    }
  }

  /** Deleting distributes over concatenation: the survivors keep their
      relative order. */
  lemma {:induction false} RemovedConcat<C>(a: seq<Item<C>>, b: seq<Item<C>>, id: string)
    ensures Removed(a + b, id) == Removed(a, id) + Removed(b, id)
  {
    if a == [] {
      assert a + b == b;
    } else {
      var ab := a + b;
      assert ab[0] == a[0] && ab[1..] == a[1..] + b;
      RemovedConcat(a[1..], b, id);
    }
  }

  lemma {:induction false} WithIdConcat<C>(a: seq<Item<C>>, b: seq<Item<C>>, id: string)
    ensures WithId(a + b, id) == WithId(a, id) + WithId(b, id)
  {
    if a == [] {
      assert a + b == b;
    } else {
      var ab := a + b;
      assert ab[0] == a[0] && ab[1..] == a[1..] + b;
      WithIdConcat(a[1..], b, id);
    }
  }

  /** Deleting an absent id changes nothing. */
  lemma {:induction false} RemoveAbsent<C>(items: seq<Item<C>>, id: string)
    requires id !in Ids(items)
    ensures Removed(items, id) == items
    ensures WithId(items, id) == []
  {
    if items != [] {
      IdsOfTail(items);
      RemoveAbsent(items[1..], id);
      assert items == [items[0]] + items[1..];
    }
  }

  /** Deleting the same id twice is deleting it once. */
  lemma RemoveIdempotent<C>(items: seq<Item<C>>, id: string)
    ensures Removed(Removed(items, id), id) == Removed(items, id)
  {
    RemovedMembers(items, id);
    RemoveAbsent(Removed(items, id), id);
  }

  /** The records a delete drops are exactly those with the deleted id, and
      together with the records it keeps they make up the whole list. */
  lemma {:induction false} RemovedCount<C>(items: seq<Item<C>>, id: string)
    ensures |Removed(items, id)| + |WithId(items, id)| == |items|
    ensures multiset(Removed(items, id)) + multiset(WithId(items, id)) == multiset(items)
    ensures forall k :: 0 <= k < |WithId(items, id)| ==> WithId(items, id)[k].id == id
  {
    if items != [] {
      RemovedCount(items[1..], id);
      assert items == [items[0]] + items[1..];
      var w := WithId(items, id);
      if items[0].id == id {
        assert forall k :: 1 <= k < |w| ==> w[k] == WithId(items[1..], id)[k - 1];
      }
    }
  }

  /** A list with a record in front has distinct ids exactly when the rest
      does and the front record's id does not occur in it. */
  lemma UniqueCons<C>(x: Item<C>, items: seq<Item<C>>)
    ensures UniqueIds([x] + items) <==> UniqueIds(items) && x.id !in Ids(items)
  {
    var s := [x] + items;
    assert forall k :: 0 <= k < |items| ==> s[k + 1] == items[k];
    if UniqueIds(s) {
      forall k | 0 <= k < |items| ensures items[k].id != x.id {
        assert s[0].id != s[k + 1].id;
      }
      forall i, j | 0 <= i < j < |items| ensures items[i].id != items[j].id {
        assert s[i + 1].id != s[j + 1].id;
      }
    }
  }

  /** Deleting keeps ids distinct. */
  lemma {:induction false} RemovePreservesUniqueIds<C>(items: seq<Item<C>>, id: string)
    requires UniqueIds(items)
    ensures UniqueIds(Removed(items, id))
  {
    if items != [] {
      var tail := items[1..];
      assert items == [items[0]] + tail;
      UniqueCons(items[0], tail);
      RemovePreservesUniqueIds(tail, id);
      if items[0].id != id {
        RemovedMembers(tail, id);
        UniqueCons(items[0], Removed(tail, id));
      }
    }
  }

  /** With distinct ids, deleting a present id cuts out exactly the one record
      at its position, so the "every match" delete and a "first match" delete
      agree. */
  lemma {:induction false} RemoveUniqueIsSplice<C>(items: seq<Item<C>>, k: nat)
    requires UniqueIds(items) && k < |items|
    ensures Removed(items, items[k].id) == items[..k] + items[k + 1..]
    ensures WithId(items, items[k].id) == [items[k]]
  {
    var id := items[k].id;
    var tail := items[1..];
    assert items == [items[0]] + tail;
    UniqueCons(items[0], tail);
    if k == 0 {
      RemoveAbsent(tail, id);
    } else {
      assert items[0].id != id;
      assert tail[k - 1] == items[k];
      RemoveUniqueIsSplice(tail, k - 1);
      assert items[..k] == [items[0]] + tail[..k - 1];
      assert items[k + 1..] == tail[k..];
    }
  }

  // ---------------------------------------------------------------------------
  // Totals: `items.reduce((total, item) => total + item.amount, 0)`

  /** The left-to-right sum of the amounts, starting from 0. */
  function Total<C>(items: seq<Item<C>>): (r: int) {
    if items == [] then 0
    else Total(items[..|items| - 1]) + items[|items| - 1].amount
  }

  /** The total of a concatenation is the sum of the totals. */
  lemma {:induction false} TotalConcat<C>(a: seq<Item<C>>, b: seq<Item<C>>)
    ensures Total(a + b) == Total(a) + Total(b)
  {
    if b == [] {
      assert a + b == a;
    } else {
      var n := |b| - 1;
      assert (a + b)[..|a + b| - 1] == a + b[..n];
      TotalConcat(a, b[..n]);
    }
  }

  /** The left-to-right sum read from the front. */
  lemma TotalCons<C>(x: Item<C>, items: seq<Item<C>>)
    ensures Total([x] + items) == x.amount + Total(items)
  {
    TotalConcat([x], items);
    assert [x][..0] == [];
  }

  /** An add raises the total by exactly the new amount. */
  lemma TotalAppended<C>(items: seq<Item<C>>, draft: Draft<C>, id: string)
    ensures Total(Appended(items, draft, id)) == Total(items) + draft.amount
  {
    assert Appended(items, draft, id)[..|items|] == items;
  }

  /** A delete lowers the total by the amounts of the records it removes. */
  lemma {:induction false} TotalRemoved<C>(items: seq<Item<C>>, id: string)
    ensures Total(Removed(items, id)) == Total(items) - Total(WithId(items, id))
  {
    if items != [] {
      var tail := items[1..];
      assert items == [items[0]] + tail;
      TotalRemoved(tail, id);
      TotalCons(items[0], tail);
      if items[0].id == id {
        TotalCons(items[0], WithId(tail, id));
      } else {
        TotalCons(items[0], Removed(tail, id));
      }
    }
  }

  /** An update changes the total by the amount change of each patched record. */
  lemma {:induction false} TotalUpdated<C>(items: seq<Item<C>>, id: string, patch: Patch<C>)
    ensures Total(Updated(items, id, patch))
         == Total(items) - Total(WithId(items, id)) + Total(Updated(WithId(items, id), id, patch))
  {
    if items != [] {
      var h := items[0];
      var tail := items[1..];
      assert items == [h] + tail;
      TotalUpdated(tail, id, patch);
      TotalCons(h, tail);
      assert Updated(items, id, patch) == [PatchIfMatch(h, id, patch)] + Updated(tail, id, patch);
      TotalCons(PatchIfMatch(h, id, patch), Updated(tail, id, patch));
      if h.id == id {
        var w := WithId(items, id);
        var wt := WithId(tail, id);
        assert w == [h] + wt;
        TotalCons(h, wt);
        assert w[0] == h && w[1..] == wt;
        assert Updated(w, id, patch) == [Merge(h, patch)] + Updated(wt, id, patch);
        TotalCons(Merge(h, patch), Updated(wt, id, patch));
      }
    }
  }

  /** With distinct ids, patching the record at `k` changes the total by the
      difference between its new and old amounts. */
  lemma TotalUpdatedUnique<C>(items: seq<Item<C>>, k: nat, patch: Patch<C>)
    requires UniqueIds(items) && k < |items|
    ensures Total(Updated(items, items[k].id, patch))
         == Total(items) - items[k].amount + Merge(items[k], patch).amount
  {
    TotalUpdated(items, items[k].id, patch);
    RemoveUniqueIsSplice(items, k);
    TotalCons(items[k], []);
    TotalCons(Merge(items[k], patch), []);
    assert Updated([items[k]], items[k].id, patch) == [Merge(items[k], patch)];
  }

  /** The sum does not depend on the order of the records. */
  lemma {:induction false} TotalPermutation<C>(a: seq<Item<C>>, b: seq<Item<C>>)
    requires multiset(a) == multiset(b)
    ensures Total(a) == Total(b)
    decreases |a|
  {
    if a == [] {
      assert |b| == |multiset(b)| == 0;
    } else {
      var n := |a| - 1;
      var x := a[n];
      assert a == a[..n] + [x];
      assert multiset(a) == multiset(a[..n]) + multiset{x};
      assert x in multiset(b);
      var j :| 0 <= j < |b| && b[j] == x;
      assert b == b[..j] + [x] + b[j + 1..];
      assert multiset(b) == multiset(b[..j]) + multiset{x} + multiset(b[j + 1..]);
      var b' := b[..j] + b[j + 1..];
      assert multiset(b') == multiset(b[..j]) + multiset(b[j + 1..]);
      assert multiset(a[..n]) == multiset(a) - multiset{x};
      assert multiset(b') == multiset(b) - multiset{x};
      TotalPermutation(a[..n], b');
      TotalConcat(b[..j] + [x], b[j + 1..]);
      TotalConcat(b[..j], [x]);
      TotalConcat(b[..j], b[j + 1..]);
      TotalCons(x, []);
    }
  }

  /** Amounts that are all non-negative sum to a non-negative total. */
  lemma {:induction false} TotalNonNegative<C>(items: seq<Item<C>>)
    requires forall k :: 0 <= k < |items| ==> items[k].amount >= 0
    ensures Total(items) >= 0
  {
    if items != [] {
      TotalNonNegative(items[..|items| - 1]);
    }
  }
}
