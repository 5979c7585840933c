/** The budget plan: a list of categories with a planned and a spent amount. */
module Planning {

  datatype BudgetItem = BudgetItem(category: string, planned: int, spent: int)

  /** The plan the page starts from. */
  const InitialBudgetItems: seq<BudgetItem> := [
    BudgetItem("Nourriture", 200000, 150000),
    BudgetItem("Transport", 50000, 35000),
    BudgetItem("Divertissement", 75000, 95000)
  ]

  /** The row `handleAddItem` appends. */
  const NewItem := BudgetItem("Nouvelle catégorie", 0, 0)

  /** `handleAddItem`: one new row at the end; the rows before it are unchanged. */
  function AddItem(items: seq<BudgetItem>): (r: seq<BudgetItem>)
    ensures |r| == |items| + 1 && r[..|items|] == items && r[|items|] == NewItem
  {
    var added := items + [NewItem];
    assert added[..|items|] == items;
    added
  }

  /** `handleRemoveItem`: `filter((_, i) => i !== index)`, the rows at every position but
      `index`. An index outside the list matches no position and removes nothing. */
  function RemoveItem(items: seq<BudgetItem>, index: int): (r: seq<BudgetItem>)
    ensures 0 <= index < |items| ==> r == items[..index] + items[index + 1..]
    ensures !(0 <= index < |items|) ==> r == items
  {
    if items == [] then []
    else
      var last := |items| - 1;
      var front := items[..last];
      var kept := RemoveItem(front, index) + (if last == index then [] else [items[last]]);
      assert items == front + [items[last]];
      assert 0 <= index < last ==>
        front[..index] + front[index + 1..] + [items[last]] == items[..index] + items[index + 1..];
      kept
  }

  /** The removal leaves one row fewer exactly when the index is a position of the list. */
  lemma RemoveItemLength(items: seq<BudgetItem>, index: int)
    ensures |RemoveItem(items, index)| == if 0 <= index < |items| then |items| - 1 else |items|
  {
  }

  /** Removing the row just added gives back the plan as it was. */
  lemma RemoveAddedItem(items: seq<BudgetItem>)
    ensures RemoveItem(AddItem(items), |items|) == items
  {
    assert AddItem(items)[..|items|] == items;
  }

  /** The "Restant" column: what is left of the planned amount, negative once overspent. */
  function Remaining(item: BudgetItem): (r: int)
    ensures r < 0 <==> item.spent > item.planned
    ensures item.spent + r == item.planned
  {
    item.planned - item.spent
  }

  /** The initial plan already overspends its entertainment line by 20000. */
  lemma InitialEntertainmentOverspent()
    ensures InitialBudgetItems[2].category == "Divertissement"
    ensures Remaining(InitialBudgetItems[2]) == -20000
  {
  }
}
