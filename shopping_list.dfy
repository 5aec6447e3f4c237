/** The shopping-list export of `download_shopping_cart` (backend/api/views.py:200-230):
    the join rows of the caller's cart recipes are grouped by ingredient with their
    amounts summed, and the groups are written as numbered text lines under a header.
    The database returns the groups in no promised order; this model lists them in
    order of first occurrence, and its properties are stated per ingredient. */
module ShoppingList {
  import opened Base
  import opened RecipesModels
  import opened Database
  import Text

  /** One row of the `values('ingredient').annotate(sum_amount=Sum('amount'))` query. */
  datatype Group = Group(ingredient: IngredientId, sumAmount: nat)

  /** One row of the final `values_list('ingredient__name', 'sum_amount',
      'ingredient__measurement_unit')`. */
  datatype Item = Item(name: string, sumAmount: nat, unit: string)

  /** The recipes in `user`'s shopping cart. */
  function CartRecipes(cart: set<Link>, user: UserId): (r: set<RecipeId>)
    ensures forall rid :: rid in r <==> Link(user, rid) in cart
  {
    set l | l in cart && l.user == user :: l.target
  }

  /** The join rows whose recipe is in `recipes`, in table order. */
  function CartEntries(entries: seq<IngredientInRecipe>, recipes: set<RecipeId>): (r: seq<IngredientInRecipe>)
    ensures forall k :: 0 <= k < |r| ==> r[k] in entries && r[k].recipe in recipes
  {
    if entries == [] then []
    else
      var last := entries[|entries| - 1];
      CartEntries(entries[..|entries| - 1], recipes) + (if last.recipe in recipes then [last] else [])
  }

  /** Reference definitions over the join rows: the ingredients that occur, and the
      total amount of one ingredient. */
  function IngredientsOf(es: seq<IngredientInRecipe>): set<IngredientId>
  {
    if es == [] then {} else IngredientsOf(es[..|es| - 1]) + {es[|es| - 1].ingredient}
  }

  function SumFor(es: seq<IngredientInRecipe>, id: IngredientId): nat
  {
    if es == [] then 0
    else
      var last := es[|es| - 1];
      SumFor(es[..|es| - 1], id) + (if last.ingredient == id then last.amount else 0)
  }

  /** The ingredient ids of a list of groups, the amount recorded for one id (0 when
      absent), and "no id twice". */
  function Keys(groups: seq<Group>): set<IngredientId>
  {
    if groups == [] then {} else {groups[0].ingredient} + Keys(groups[1..])
  }

  function Amount(groups: seq<Group>, id: IngredientId): nat
  {
    if groups == [] then 0
    else if groups[0].ingredient == id then groups[0].sumAmount
    else Amount(groups[1..], id)
  }

  predicate Distinct(groups: seq<Group>)
  {
    groups == [] || (groups[0].ingredient !in Keys(groups[1..]) && Distinct(groups[1..]))
  }

  /** The grouping step for one join row: add its amount to its ingredient's group,
      or open a new group at the end. */
  function AddEntry(groups: seq<Group>, e: IngredientInRecipe): seq<Group>
  {
    if groups == [] then [Group(e.ingredient, e.amount)]
    else if groups[0].ingredient == e.ingredient then
      [Group(e.ingredient, groups[0].sumAmount + e.amount)] + groups[1..]
    else [groups[0]] + AddEntry(groups[1..], e)
  }

  /** GROUP BY ingredient with SUM(amount), folding over the join rows in order. */
  function Aggregate(es: seq<IngredientInRecipe>): seq<Group>
  {
    if es == [] then [] else AddEntry(Aggregate(es[..|es| - 1]), es[|es| - 1])
  }

  lemma {:induction false} AddEntryFacts(groups: seq<Group>, e: IngredientInRecipe)
    ensures Keys(AddEntry(groups, e)) == Keys(groups) + {e.ingredient}
    ensures forall id :: (Amount(AddEntry(groups, e), id) ==
      Amount(groups, id) + (if id == e.ingredient then e.amount else 0))
    ensures Distinct(groups) ==> Distinct(AddEntry(groups, e))
  {
    if groups != [] && groups[0].ingredient != e.ingredient {
      AddEntryFacts(groups[1..], e);
      assert AddEntry(groups, e)[1..] == AddEntry(groups[1..], e);
    } else if groups != [] {
      assert AddEntry(groups, e)[1..] == groups[1..];
    }
  }

  lemma {:induction false} AmountAbsent(groups: seq<Group>, id: IngredientId)
    requires id !in Keys(groups)
    ensures Amount(groups, id) == 0
  {
    if groups != [] {
      AmountAbsent(groups[1..], id);
    }
  }

  /** The grouping is correct: one group per ingredient that occurs in the rows, no
      ingredient twice, and each group's amount the total of that ingredient's rows. */
  lemma {:induction false} AggregateCorrect(es: seq<IngredientInRecipe>)
    ensures Distinct(Aggregate(es))
    ensures Keys(Aggregate(es)) == IngredientsOf(es)
    ensures forall id :: Amount(Aggregate(es), id) == SumFor(es, id)
  {
    if es != [] {
      AggregateCorrect(es[..|es| - 1]);
      AddEntryFacts(Aggregate(es[..|es| - 1]), es[|es| - 1]);
    }
  }

  /** In a list without repeated ids, a group's own amount is the one recorded for its id. */
  lemma {:induction false} AmountAt(groups: seq<Group>, k: nat)
    requires Distinct(groups) && k < |groups|
    ensures Amount(groups, groups[k].ingredient) == groups[k].sumAmount
  {
    if k > 0 {
      AmountAt(groups[1..], k - 1);
      KeysHas(groups[1..], k - 1);
    }
  }

  lemma {:induction false} KeysHas(groups: seq<Group>, k: nat)
    requires k < |groups|
    ensures groups[k].ingredient in Keys(groups)
  {
    if k > 0 {
      KeysHas(groups[1..], k - 1);
    }
  }

  /** Without repeated ids, the number of groups is the number of distinct ids. */
  lemma {:induction false} DistinctCount(groups: seq<Group>)
    requires Distinct(groups)
    ensures |Keys(groups)| == |groups|
    ensures forall j, k :: 0 <= j < k < |groups| ==> groups[j].ingredient != groups[k].ingredient
  {
    if groups != [] {
      DistinctCount(groups[1..]);
      forall k | 0 < k < |groups| ensures groups[0].ingredient != groups[k].ingredient {
        KeysHas(groups[1..], k - 1);
      }
    }
  }

  /** The name and unit of each group's ingredient, looked up in the ingredient table. */
  function Items(groups: seq<Group>, ingredients: seq<IngredientRow>): (r: seq<Item>)
    requires Keys(groups) <= IngredientIds(ingredients)
    ensures |r| == |groups|
    ensures forall k :: 0 <= k < |groups| ==>
      var row := FindIngredient(ingredients, groups[k].ingredient);
      row.Some? && r[k] == Item(row.value.name, groups[k].sumAmount, row.value.measurementUnit)
  {
    if groups == [] then []
    else
      var found := FindIngredient(ingredients, groups[0].ingredient);
      [Item(found.value.name, groups[0].sumAmount, found.value.measurementUnit)] + Items(groups[1..], ingredients)
  }

  // ---- rendering ----

  const Header: string := "Список покупок:\n"

  /** One line without its newline: "{i}. {name} - {sum} {unit}". */
  function LineText(i: nat, item: Item): string
  {
    Text.NatToString(i) + ". " + item.name + " - " + Text.NatToString(item.sumAmount) + " " + item.unit
  }

  /** The lines of the items, numbered from 1. */
  function Body(items: seq<Item>): string
  {
    if items == [] then ""
    else Body(items[..|items| - 1]) + LineText(|items|, items[|items| - 1]) + "\n"
  }

  /** The content of shopping_list.txt. */
  function ShoppingListText(items: seq<Item>): string
  {
    Header + Body(items)
  }

  /** The `for` loop of the view: `content` starts at the header and each item
      appends its numbered line. */
  method Render(items: seq<Item>) returns (content: string)
    ensures content == ShoppingListText(items)
  {
    content := Header;
    for i := 0 to |items|
      invariant content == Header + Body(items[..i])
    {
      AppendLine(Header, content, items, i);
      content := content + LineText(i + 1, items[i]) + "\n";
    }
    assert items[..|items|] == items;
  }

  /** One turn of the loop: appending line i + 1 extends the text by the next item. */
  lemma AppendLine(head: string, content: string, items: seq<Item>, i: nat)
    requires i < |items| && content == head + Body(items[..i])
    ensures content + LineText(i + 1, items[i]) + "\n" == head + Body(items[..i + 1])
  {
    assert items[..i + 1][..i] == items[..i];
  }

  predicate NoNewline(items: seq<Item>)
  {
    forall k :: 0 <= k < |items| ==> '\n' !in items[k].name && '\n' !in items[k].unit
  }

  lemma LineTextNoNewline(i: nat, item: Item)
    requires '\n' !in item.name && '\n' !in item.unit
    ensures '\n' !in LineText(i, item)
  {
    var a, b := Text.NatToString(i), Text.NatToString(item.sumAmount);
    assert LineText(i, item) == a + ". " + item.name + " - " + b + " " + item.unit;
  }

  /** The lines of one item's numbered text. */
  function Lines(items: seq<Item>): seq<string>
  {
    seq(|items|, k requires 0 <= k < |items| => LineText(k + 1, items[k]))
  }

  lemma {:induction false} BodyLines(items: seq<Item>)
    requires NoNewline(items)
    ensures Text.SplitLines(Body(items)) == Lines(items)
    ensures Body(items) == [] || Body(items)[|Body(items)| - 1] == '\n'
  {
    if items != [] {
      var init, last := items[..|items| - 1], items[|items| - 1];
      assert NoNewline(init) by {
        assert forall k :: 0 <= k < |init| ==> init[k] == items[k];
      }
      BodyLines(init);
      var line := LineText(|items|, last);
      LineTextNoNewline(|items|, last);
      assert Body(items) == Body(init) + (line + "\n");
      Text.SplitLinesAppend(Body(init), line + "\n");
      Text.SplitLinesOneLine(line, "");
      assert line + "\n" + "" == line + "\n";
      assert Text.SplitLines("") == [];
      LinesSnoc(items);
    }
  }

  lemma LinesSnoc(items: seq<Item>)
    requires items != []
    ensures Lines(items) == Lines(items[..|items| - 1]) + [LineText(|items|, items[|items| - 1])]
  {
    var init := items[..|items| - 1];
    assert forall k :: 0 <= k < |init| ==> Lines(items)[k] == Lines(init)[k];
  }

  /** A one-line title, a newline and the body split into the title and the
      body's lines. */
  lemma TitledLines(title: string, items: seq<Item>)
    requires NoNewline(items) && '\n' !in title
    ensures var lines := Text.SplitLines(title + "\n" + Body(items));
      && |lines| == |items| + 1
      && lines[0] == title
      && forall k :: 0 <= k < |items| ==> lines[k + 1] == LineText(k + 1, items[k])
  {
    BodyLines(items);
    Text.SplitLinesOneLine(title, Body(items));
    LinesAfterTitle(Text.SplitLines(title + "\n" + Body(items)), title, items);
  }

  lemma LinesAfterTitle(lines: seq<string>, title: string, items: seq<Item>)
    requires lines == [title] + Lines(items)
    ensures |lines| == |items| + 1 && lines[0] == title
    ensures forall k :: 0 <= k < |items| ==> lines[k + 1] == LineText(k + 1, items[k])
  {
    forall k | 0 <= k < |items| ensures lines[k + 1] == LineText(k + 1, items[k]) {
      assert lines[k + 1] == Lines(items)[k];
    }
  }

  /** Read back line by line, the text is the header and then exactly one line per
      item, the k-th numbered k. */
  lemma ShoppingListLines(items: seq<Item>)
    requires NoNewline(items)
    ensures var lines := Text.SplitLines(ShoppingListText(items));
      && |lines| == |items| + 1
      && lines[0] == "Список покупок:"
      && forall k :: 0 <= k < |items| ==> lines[k + 1] == LineText(k + 1, items[k])
  {
    var title := "Список покупок:";
    assert Header == title + "\n";
    assert '\n' !in title;
    TitledLines(title, items);
  }

  /** The export over the join rows of a set of recipes: those rows, grouped,
      then looked up. */
  function RecipesItems(entries: seq<IngredientInRecipe>, ingredients: seq<IngredientRow>,
                        recipes: set<RecipeId>): seq<Item>
    requires EntriesHaveIngredients(entries, ingredients)
  {
    var es := CartEntries(entries, recipes);
    IngredientsOfValid(es, entries, ingredients);
    AggregateCorrect(es);
    Items(Aggregate(es), ingredients)
  }

  /** The whole export for `user`: the recipes of the user's cart. */
  function CartItems(entries: seq<IngredientInRecipe>, ingredients: seq<IngredientRow>,
                     cart: set<Link>, user: UserId): seq<Item>
    requires EntriesHaveIngredients(entries, ingredients)
  {
    RecipesItems(entries, ingredients, CartRecipes(cart, user))
  }

  /** The recipes of `recipes` that no cart row names: what the join matches when
      the user to filter by is None (a NULL test across the reverse relation). */
  function UncartedRecipes(recipes: set<RecipeId>, cart: set<Link>): (r: set<RecipeId>)
    ensures forall rid :: rid in r <==> rid in recipes && forall l :: l in cart ==> l.target != rid
  {
    set rid | rid in recipes && forall l :: l in cart ==> l.target != rid
  }

  lemma {:induction false} IngredientsOfValid(es: seq<IngredientInRecipe>, entries: seq<IngredientInRecipe>,
                                              ingredients: seq<IngredientRow>)
    requires forall k :: 0 <= k < |es| ==> es[k] in entries
    requires EntriesHaveIngredients(entries, ingredients)
    ensures IngredientsOf(es) <= IngredientIds(ingredients)
  {
    if es != [] {
      IngredientsOfValid(es[..|es| - 1], entries, ingredients);
    }
  }

  /** The filter keeps every join row of a cart recipe, as often as the table holds
      it, and no other row. */
  lemma {:induction false} CartEntriesExact(entries: seq<IngredientInRecipe>, recipes: set<RecipeId>, e: IngredientInRecipe)
    ensures multiset(CartEntries(entries, recipes))[e] == if e.recipe in recipes then multiset(entries)[e] else 0
  {
    if entries != [] {
      var init, last := entries[..|entries| - 1], entries[|entries| - 1];
      CartEntriesExact(init, recipes, e);
      assert entries == init + [last];
      assert multiset(entries) == multiset(init) + multiset{last};
      var tail := if last.recipe in recipes then [last] else [];
      assert multiset(CartEntries(entries, recipes)) == multiset(CartEntries(init, recipes)) + multiset(tail);
    }
  }

  /** An ingredient occurs in the rows exactly when some row names it. */
  lemma {:induction false} IngredientsOfExact(es: seq<IngredientInRecipe>, id: IngredientId)
    ensures id in IngredientsOf(es) <==> exists k :: 0 <= k < |es| && es[k].ingredient == id
  {
    if es != [] {
      var init := es[..|es| - 1];
      IngredientsOfExact(init, id);
      assert forall k :: 0 <= k < |init| ==> init[k] == es[k];
    }
  }

  /** The export for `user` has exactly one item per distinct ingredient of the join
      rows of the recipes in the user's cart, no ingredient twice, and each item
      carries that ingredient's stored name and unit and the total of its amounts
      over those rows. */
  lemma CartItemsCorrect(entries: seq<IngredientInRecipe>, ingredients: seq<IngredientRow>,
                         cart: set<Link>, user: UserId)
    requires EntriesHaveIngredients(entries, ingredients)
    ensures var es := CartEntries(entries, CartRecipes(cart, user));
      var groups := Aggregate(es);
      var items := CartItems(entries, ingredients, cart, user);
      && |items| == |groups| == |IngredientsOf(es)|
      && Keys(groups) == IngredientsOf(es)
      && (forall j, k :: 0 <= j < k < |groups| ==> groups[j].ingredient != groups[k].ingredient)
      && (forall k :: 0 <= k < |groups| ==>
            var row := FindIngredient(ingredients, groups[k].ingredient);
            row.Some? && items[k] == Item(row.value.name, SumFor(es, groups[k].ingredient), row.value.measurementUnit))
  {
    var es := CartEntries(entries, CartRecipes(cart, user));
    var groups := Aggregate(es);
    AggregateCorrect(es);
    DistinctCount(groups);
    forall k | 0 <= k < |groups| ensures groups[k].sumAmount == SumFor(es, groups[k].ingredient) {
      AmountAt(groups, k);
    }
  }
}
