/** The monthly budget table on the Phase 1 page: a list of categories with
    amounts and the share of the total each one takes, edited by adding,
    changing and removing rows. */
module Budget {
  import opened JsMath
  import opened Lists

  /** One row. `percentage` is a JavaScript number: dividing by a zero total
      makes it NaN or infinite. */
  datatype BudgetItem = BudgetItem(id: string, category: string, amount: real, color: string, percentage: Number)

  /** The budget's total: the sum of the amounts (the order in which the
      source's reduce adds them does not matter for exact numbers). */
  function Total(items: seq<BudgetItem>): real {
    if items == [] then 0.0 else items[0].amount + Total(items[1..])
  }

  lemma {:induction false} TotalAppend(a: seq<BudgetItem>, b: seq<BudgetItem>)
    ensures Total(a + b) == Total(a) + Total(b)
    decreases |a|
  {
    if a == [] {
      assert a + b == b;
    } else {
      assert (a + b)[0] == a[0];
      assert (a + b)[1..] == a[1..] + b;
      TotalAppend(a[1..], b);
    }
  }

  /** Two lists with the same amounts row by row have the same total. */
  lemma {:induction false} TotalOfAmounts(a: seq<BudgetItem>, b: seq<BudgetItem>)
    requires |a| == |b|
    requires forall i :: 0 <= i < |a| ==> a[i].amount == b[i].amount
    ensures Total(a) == Total(b)
    decreases |a|
  {
    if a != [] {
      TotalOfAmounts(a[1..], b[1..]);
    }
  }

  /** A row's share of the total, in whole percent. */
  function Percent(amount: real, total: real): (r: Number)
    ensures total != 0.0 ==> r == Finite(Round(amount / total * 100.0) as real)
    ensures total == 0.0 && amount == 0.0 ==> r == NaN
    ensures total == 0.0 && amount > 0.0 ==> r == PosInfinity
    ensures total == 0.0 && amount < 0.0 ==> r == NegInfinity
  {
    RoundNumber(Scale(Divide(amount, total), 100.0))
  }

  /** An amount between nothing and the whole total is between 0 and 100 percent. */
  lemma PercentInRange(amount: real, total: real)
    requires total > 0.0 && 0.0 <= amount <= total
    ensures Percent(amount, total).Finite? && 0.0 <= Percent(amount, total).value <= 100.0
  {
    assert amount / total <= 1.0;
    assert amount / total * 100.0 <= 100.0;
    RoundMonotone(amount / total * 100.0, 100.0);
    RoundMonotone(0.0, amount / total * 100.0);
    RoundOfInt(100);
    RoundOfInt(0);
  }

  /** updatePercentages: every row's percentage recomputed against the
      list's own total; everything else stays as it was. */
  function UpdatePercentages(items: seq<BudgetItem>): (r: seq<BudgetItem>)
    ensures |r| == |items|
    ensures forall i :: 0 <= i < |r| ==>
              r[i] == items[i].(percentage := Percent(items[i].amount, Total(items)))
  {
    seq(|items|, i requires 0 <= i < |items| => items[i].(percentage := Percent(items[i].amount, Total(items))))
  }

  /** Recomputing the percentages leaves the total alone, and so doing it
      twice is the same as doing it once. */
  lemma UpdatePercentagesIdempotent(items: seq<BudgetItem>)
    ensures Total(UpdatePercentages(items)) == Total(items)
    ensures UpdatePercentages(UpdatePercentages(items)) == UpdatePercentages(items)
  {
    TotalOfAmounts(UpdatePercentages(items), items);
  }

  /** With a positive total and no negative amounts every percentage is a
      whole number between 0 and 100. */
  lemma PercentagesInRange(items: seq<BudgetItem>)
    requires Total(items) > 0.0
    requires forall i :: 0 <= i < |items| ==> items[i].amount >= 0.0
    ensures forall i :: 0 <= i < |items| ==>
              UpdatePercentages(items)[i].percentage.Finite?
              && 0.0 <= UpdatePercentages(items)[i].percentage.value <= 100.0
  {
    forall i | 0 <= i < |items|
      ensures Percent(items[i].amount, Total(items)).Finite?
              && 0.0 <= Percent(items[i].amount, Total(items)).value <= 100.0
    {
      AmountAtMostTotal(items, i);
      PercentInRange(items[i].amount, Total(items));
    }
  }

  lemma {:induction false} AmountAtMostTotal(items: seq<BudgetItem>, i: int)
    requires 0 <= i < |items|
    requires forall j :: 0 <= j < |items| ==> items[j].amount >= 0.0
    ensures items[i].amount <= Total(items)
    ensures Total(items) >= 0.0
    decreases |items|
  {
    var rest := items[1..];
    if i > 0 {
      AmountAtMostTotal(rest, i - 1);
    } else if rest != [] {
      AmountAtMostTotal(rest, 0);
    }
  }

  /** The map in updateBudgetItem: rows with the id get the new amount. */
  function WithAmount(items: seq<BudgetItem>, id: string, amount: real): (r: seq<BudgetItem>)
    ensures |r| == |items|
    ensures forall i :: 0 <= i < |r| ==>
              r[i] == (if items[i].id == id then items[i].(amount := amount) else items[i])
  {
    seq(|items|, i requires 0 <= i < |items| => if items[i].id == id then items[i].(amount := amount) else items[i])
  }

  /** The id a row is matched on; removeBudgetItem is `Without(items, ItemId, id)`. */
  function ItemId(item: BudgetItem): string {
    item.id
  }

  /** Removing the only row with a given id takes out exactly that row, keeps
      the others in order, and lowers the total by exactly its amount. */
  lemma RemoveUniqueRow(before: seq<BudgetItem>, row: BudgetItem, after: seq<BudgetItem>)
    requires forall i :: 0 <= i < |before| ==> before[i].id != row.id
    requires forall i :: 0 <= i < |after| ==> after[i].id != row.id
    ensures Without(before + [row] + after, ItemId, row.id) == before + after
    ensures Total(Without(before + [row] + after, ItemId, row.id)) == Total(before + [row] + after) - row.amount
  {
    WithoutAppend(before + [row], after, ItemId, row.id);
    WithoutAppend(before, [row], ItemId, row.id);
    WithoutAbsent(before, ItemId, row.id);
    WithoutAbsent(after, ItemId, row.id);
    assert Without([row], ItemId, row.id) == [] by {
      assert [row][1..] == [];
    }
    assert Without(before + [row], ItemId, row.id) == before by {
      assert before + [] == before;
    }
    RowTotal(before, row, after);
  }

  lemma RowTotal(before: seq<BudgetItem>, row: BudgetItem, after: seq<BudgetItem>)
    ensures Total(before + [row] + after) == Total(before + after) + row.amount
  {
    TotalAppend(before + [row], after);
    TotalAppend(before, [row]);
    TotalAppend(before, after);
    assert [row][1..] == [];
  }

  /** Changing the amount of the only row with a given id changes that row
      alone and moves the total by the difference. */
  lemma ChangeUniqueRow(before: seq<BudgetItem>, row: BudgetItem, after: seq<BudgetItem>, amount: real)
    requires forall i :: 0 <= i < |before| ==> before[i].id != row.id
    requires forall i :: 0 <= i < |after| ==> after[i].id != row.id
    ensures WithAmount(before + [row] + after, row.id, amount) == before + [row.(amount := amount)] + after
    ensures Total(WithAmount(before + [row] + after, row.id, amount))
            == Total(before + [row] + after) - row.amount + amount
  {
    var changed := before + [row.(amount := amount)] + after;
    var r := WithAmount(before + [row] + after, row.id, amount);
    assert |r| == |changed|;
    forall i | 0 <= i < |r|
      ensures r[i] == changed[i]
    {
      if i < |before| {
        assert (before + [row] + after)[i] == before[i];
      } else if i > |before| {
        assert (before + [row] + after)[i] == after[i - |before| - 1];
      }
    }
    RowTotal(before, row, after);
    RowTotal(before, row.(amount := amount), after);
  }

  /** The rows the page starts with. */
  function InitialItems(): seq<BudgetItem> {
    [ BudgetItem("1", "Housing", 2500.0, "#3b82f6", Finite(25.0)),
      BudgetItem("2", "Transportation", 800.0, "#10b981", Finite(8.0)),
      BudgetItem("3", "Food", 1000.0, "#f59e0b", Finite(10.0)),
      BudgetItem("4", "Insurance", 500.0, "#6366f1", Finite(5.0)),
      BudgetItem("5", "Utilities", 400.0, "#ec4899", Finite(4.0)),
      BudgetItem("6", "Debt Payments", 1500.0, "#ef4444", Finite(15.0)),
      BudgetItem("7", "Savings", 1800.0, "#14b8a6", Finite(18.0)),
      BudgetItem("8", "Entertainment", 500.0, "#8b5cf6", Finite(5.0)),
      BudgetItem("9", "Other", 1000.0, "#64748b", Finite(10.0)) ]
  }

  /** The hard-coded percentages are exactly what updatePercentages would
      compute for the hard-coded amounts, which total 10000. */
  lemma InitialItemsConsistent()
    ensures Total(InitialItems()) == 10000.0
    ensures UpdatePercentages(InitialItems()) == InitialItems()
  {
    var s := InitialItems();
    assert s[1..][1..][1..][1..][1..][1..][1..][1..][1..] == [];
    assert Total(s) == 10000.0;
    RoundOfInt(25); RoundOfInt(8); RoundOfInt(10); RoundOfInt(5);
    RoundOfInt(4); RoundOfInt(15); RoundOfInt(18);
    assert 2500.0 / 10000.0 * 100.0 == 25.0;
    assert 800.0 / 10000.0 * 100.0 == 8.0;
    assert 1000.0 / 10000.0 * 100.0 == 10.0;
    assert 500.0 / 10000.0 * 100.0 == 5.0;
    assert 400.0 / 10000.0 * 100.0 == 4.0;
    assert 1500.0 / 10000.0 * 100.0 == 15.0;
    assert 1800.0 / 10000.0 * 100.0 == 18.0;
  }

  /** The budget page's state. */
  class BudgetTable {
    var budgetItems: seq<BudgetItem>
    var newCategory: string
    var newAmount: real

    /** Every row's percentage matches its amount and the current total. */
    predicate Consistent()
      reads this`budgetItems
    {
      UpdatePercentages(budgetItems) == budgetItems
    }

    /** totalBudget, recomputed on every render. */
    function TotalBudget(): real
      reads this`budgetItems
    {
      Total(budgetItems)
    }

    constructor ()
      ensures budgetItems == InitialItems() && newCategory == "" && newAmount == 0.0
      ensures Consistent()
    {
      budgetItems := InitialItems();
      newCategory := "";
      newAmount := 0.0;
      InitialItemsConsistent();
    }

    /** addBudgetItem, with the id (from the clock) and the colour (random)
        supplied by the caller. Without a category or a positive amount it
        does nothing. */
    method AddBudgetItem(id: string, color: string)
      modifies this`budgetItems, this`newCategory, this`newAmount
      ensures old(newCategory) == "" || old(newAmount) <= 0.0 ==>
                budgetItems == old(budgetItems) && newCategory == old(newCategory) && newAmount == old(newAmount)
      ensures old(newCategory) != "" && old(newAmount) > 0.0 ==>
                budgetItems == UpdatePercentages(old(budgetItems) + [BudgetItem(id, old(newCategory), old(newAmount), color, Finite(0.0))])
                && newCategory == "" && newAmount == 0.0
      ensures old(Consistent()) ==> Consistent()
      ensures old(newCategory) != "" && old(newAmount) > 0.0 ==> TotalBudget() == old(TotalBudget()) + old(newAmount)
    {
      if newCategory == "" || newAmount <= 0.0 {
        return;
      }
      var newItem := BudgetItem(id, newCategory, newAmount, color, Finite(0.0));
      var updatedItems := UpdatePercentages(budgetItems + [newItem]);
      UpdatePercentagesIdempotent(budgetItems + [newItem]);
      TotalAppend(budgetItems, [newItem]);
      assert [newItem][..0] == [];
      budgetItems := updatedItems;
      newCategory := "";
      newAmount := 0.0;
    }

    /** updateBudgetItem: set the amount of the rows with this id and
        recompute the percentages. */
    method UpdateBudgetItem(id: string, amount: real)
      modifies this`budgetItems
      ensures budgetItems == UpdatePercentages(WithAmount(old(budgetItems), id, amount))
      ensures Consistent()
    {
      var updatedItems := WithAmount(budgetItems, id, amount);
      UpdatePercentagesIdempotent(updatedItems);
      budgetItems := UpdatePercentages(updatedItems);
    }

    /** removeBudgetItem: drop the rows with this id and recompute the
        percentages. */
    method RemoveBudgetItem(id: string)
      modifies this`budgetItems
      ensures budgetItems == UpdatePercentages(Without(old(budgetItems), ItemId, id))
      ensures Consistent()
    {
      var updatedItems := Without(budgetItems, ItemId, id);
      UpdatePercentagesIdempotent(updatedItems);
      budgetItems := UpdatePercentages(updatedItems);
    }
  }
}
