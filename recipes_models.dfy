/** Tags, ingredients, recipes and the recipe-ingredient join table
    (backend/recipes/models.py). */
module RecipesModels {
  import opened Base
  import Text

  datatype TagRow = TagRow(id: TagId, name: string, color: string, slug: string)

  datatype IngredientRow = IngredientRow(id: IngredientId, name: string, measurementUnit: string)

  /** `cooking_time` is a PositiveSmallIntegerField, which admits 0; `createDate`
      is the `auto_now_add` timestamp, supplied by the caller. */
  datatype RecipeRow = RecipeRow(
    id: RecipeId,
    author: UserId,
    name: string,
    image: string,
    text: string,
    cookingTime: nat,
    createDate: int)

  /** One row of IngredientInRecipe; `amount` is a PositiveIntegerField, which admits 0.
      No constraint makes (ingredient, recipe) unique. */
  datatype IngredientInRecipe = IngredientInRecipe(ingredient: IngredientId, recipe: RecipeId, amount: nat)

  /** One row of the implicit `Recipe.tags` many-to-many table. */
  datatype RecipeTag = RecipeTag(recipe: RecipeId, tag: TagId)

  /** The `unique=True` constraints on Tag name, color and slug, and the primary key. */
  ghost predicate TagsUnique(tags: map<TagId, TagRow>)
  {
    && (forall id :: id in tags ==> tags[id].id == id)
    && (forall a, b :: a in tags && b in tags && a != b ==>
          tags[a].name != tags[b].name && tags[a].color != tags[b].color && tags[a].slug != tags[b].slug)
  }

  /** Adding a tag whose name, color and slug are all unused, under a fresh key,
      keeps the constraints. */
  lemma AddTagKeepsUnique(tags: map<TagId, TagRow>, t: TagRow)
    requires TagsUnique(tags)
    requires t.id !in tags
    requires forall id :: id in tags ==>
      tags[id].name != t.name && tags[id].color != t.color && tags[id].slug != t.slug
    ensures TagsUnique(tags[t.id := t])
  {
    var tags' := tags[t.id := t];
    forall a, b | a in tags' && b in tags' && a != b
      ensures tags'[a].name != tags'[b].name && tags'[a].color != tags'[b].color
      ensures tags'[a].slug != tags'[b].slug
    {
      if a == t.id {
        assert tags'[b] == tags[b];
      } else if b == t.id {
        assert tags'[a] == tags[a];
      }
    }
  }

  /** The join rows of recipe `rid`, in table order (`recipe.recipe_ingredients`). */
  function RecipeEntries(entries: seq<IngredientInRecipe>, rid: RecipeId): (r: seq<IngredientInRecipe>)
    ensures |r| <= |entries|
    ensures forall k :: 0 <= k < |r| ==> r[k].recipe == rid && r[k] in entries
  {
    if entries == [] then []
    else
      var last := entries[|entries| - 1];
      RecipeEntries(entries[..|entries| - 1], rid) + (if last.recipe == rid then [last] else [])
  }

  lemma {:induction false} RecipeEntriesAppend(a: seq<IngredientInRecipe>, b: seq<IngredientInRecipe>, rid: RecipeId)
    ensures RecipeEntries(a + b, rid) == RecipeEntries(a, rid) + RecipeEntries(b, rid)
    decreases |b|
  {
    if b == [] {
      assert a + b == a;
    } else {
      var b' := b[..|b| - 1];
      assert (a + b)[..|a + b| - 1] == a + b';
      RecipeEntriesAppend(a, b', rid);
    }
  }

  /** A recipe has no join rows exactly when no row of the table names it. */
  lemma {:induction false} RecipeEntriesEmpty(entries: seq<IngredientInRecipe>, rid: RecipeId)
    ensures RecipeEntries(entries, rid) == [] <==>
      forall k :: 0 <= k < |entries| ==> entries[k].recipe != rid
  {
    if entries != [] {
      var init := entries[..|entries| - 1];
      RecipeEntriesEmpty(init, rid);
      assert forall k :: 0 <= k < |init| ==> init[k] == entries[k];
    }
  }

  /** The outcome of a model validator: nothing, or Django's ValidationError. */
  datatype Validation = Passed | ValidationError(message: string)

  const TooFewIngredients: string := "Количество ингредиентов должно быть 1 и более."

  /** `Recipe.validate_ingredients` on the instance whose primary key is `pk`:
      `self.ingredients.count()` counts the join rows of the recipe, and fewer than
      one is an error. An instance not yet saved (`pk` None, as on the admin's add
      form) has no many-to-many manager to count with, so Django raises ValueError. */
  function ValidateIngredients(entries: seq<IngredientInRecipe>, pk: Option<RecipeId>): (r: Result<Validation>)
    ensures r.Err? <==> pk.None?
    ensures r.Err? ==> r.error == ValueError
    ensures pk.Some? ==>
      (r.value.ValidationError? <==> forall k :: 0 <= k < |entries| ==> entries[k].recipe != pk.value)
    ensures r.Ok? && r.value.ValidationError? ==> r.value.message == TooFewIngredients
  {
    match pk
    case None => Err(ValueError)
    case Some(rid) =>
      RecipeEntriesEmpty(entries, rid);
      if |RecipeEntries(entries, rid)| < 1 then Ok(ValidationError(TooFewIngredients)) else Ok(Passed)
  }

  /** `Recipe.clean`: the base clean passes, then the ingredient count is validated;
      a saved recipe passes exactly when some join row names it. */
  function Clean(entries: seq<IngredientInRecipe>, pk: Option<RecipeId>): (r: Result<Validation>)
    ensures r == Ok(Passed) <==> pk.Some? && exists k :: 0 <= k < |entries| && entries[k].recipe == pk.value
    ensures pk.None? ==> r == Err(ValueError)
  {
    ValidateIngredients(entries, pk)
  }

  // ---- Meta.ordering = ('-create_date',) ----

  /** Newest first: `create_date` never increases along the sequence. */
  predicate NewestFirstOrdered(rs: seq<RecipeRow>)
  {
    forall i, j :: 0 <= i < j < |rs| ==> rs[i].createDate >= rs[j].createDate
  }

  /** Insertion of one row before the first row that is not newer than it. */
  function InsertByDate(r: RecipeRow, rs: seq<RecipeRow>): seq<RecipeRow>
  {
    if rs == [] || r.createDate >= rs[0].createDate then [r] + rs
    else [rs[0]] + InsertByDate(r, rs[1..])
  }

  /** Insertion adds exactly the one row and takes every other row from the input. */
  lemma {:induction false} InsertByDatePermutes(r: RecipeRow, rs: seq<RecipeRow>)
    ensures multiset(InsertByDate(r, rs)) == multiset(rs) + multiset{r}
  {
    if rs != [] && r.createDate < rs[0].createDate {
      InsertByDatePermutes(r, rs[1..]);
      assert rs == [rs[0]] + rs[1..];
    }
  }

  /** Insertion keeps a newest-first sequence newest first. */
  lemma {:induction false} InsertByDateSorted(r: RecipeRow, rs: seq<RecipeRow>)
    requires NewestFirstOrdered(rs)
    ensures NewestFirstOrdered(InsertByDate(r, rs))
  {
    if rs != [] && r.createDate < rs[0].createDate {
      var head, rest := rs[0], rs[1..];
      assert NewestFirstOrdered(rest) by {
        assert forall k :: 0 <= k < |rest| ==> rest[k] == rs[k + 1];
      }
      InsertByDateSorted(r, rest);
      InsertByDatePermutes(r, rest);
      var tail := InsertByDate(r, rest);
      forall k | 0 <= k < |tail| ensures head.createDate >= tail[k].createDate {
        assert tail[k] in multiset(rest) + multiset{r};
        if tail[k] != r {
          var j :| 0 <= j < |rest| && rest[j] == tail[k];
          assert rs[j + 1] == tail[k];
        }
      }
      ConsOrdered(head, tail);
    } else {
      ConsOrdered(r, rs);
    }
  }

  /** A row no older than any row of a newest-first sequence can head it. */
  lemma ConsOrdered(head: RecipeRow, tail: seq<RecipeRow>)
    requires NewestFirstOrdered(tail)
    requires forall k :: 0 <= k < |tail| ==> head.createDate >= tail[k].createDate
    ensures NewestFirstOrdered([head] + tail)
  {
    var s := [head] + tail;
    forall i, j | 0 <= i < j < |s| ensures s[i].createDate >= s[j].createDate {
      assert s[j] == tail[j - 1];
      if i > 0 {
        assert s[i] == tail[i - 1];
      }
    }
  }

  /** The default ordering of the recipe queryset. */
  function NewestFirst(rs: seq<RecipeRow>): (out: seq<RecipeRow>)
  {
    if rs == [] then [] else InsertByDate(rs[0], NewestFirst(rs[1..]))
  }

  /** The ordering lists every recipe as often as the table holds it, newest first. */
  lemma {:induction false} NewestFirstSortsAndPermutes(rs: seq<RecipeRow>)
    ensures NewestFirstOrdered(NewestFirst(rs))
    ensures multiset(NewestFirst(rs)) == multiset(rs)
    ensures |NewestFirst(rs)| == |rs|
  {
    NewestFirstPermutes(rs);
    NewestFirstSorted(rs);
    assert |multiset(NewestFirst(rs))| == |multiset(rs)|;
  }

  lemma {:induction false} NewestFirstPermutes(rs: seq<RecipeRow>)
    ensures multiset(NewestFirst(rs)) == multiset(rs)
  {
    if rs != [] {
      var head, rest := rs[0], rs[1..];
      NewestFirstPermutes(rest);
      InsertByDatePermutes(head, NewestFirst(rest));
      assert rs == [head] + rest;
    }
  }

  lemma {:induction false} NewestFirstSorted(rs: seq<RecipeRow>)
    ensures NewestFirstOrdered(NewestFirst(rs))
  {
    if rs != [] {
      NewestFirstSorted(rs[1..]);
      InsertByDateSorted(rs[0], NewestFirst(rs[1..]));
    }
  }

  // ---- __str__ formats ----

  /** `Tag.__str__`, `Ingredient.__str__` and `Recipe.__str__` are the row's name. */
  function TagStr(t: TagRow): (s: string)
  {
    t.name
  }

  function IngredientStr(i: IngredientRow): (s: string)
  {
    i.name
  }

  function RecipeStr(r: RecipeRow): (s: string)
  {
    r.name
  }

  /** Tag names are unique, so distinct stored tags print differently. */
  lemma TagStrIdentifies(tags: map<TagId, TagRow>, a: TagId, b: TagId)
    requires TagsUnique(tags) && a in tags && b in tags && a != b
    ensures TagStr(tags[a]) != TagStr(tags[b])
  {
  }

  /** `IngredientInRecipe.__str__`: "{name} {amount} {unit}". */
  function IngredientInRecipeStr(ingredient: IngredientRow, amount: nat): (s: string)
  {
    ingredient.name + " " + Text.NatToString(amount) + " " + ingredient.measurementUnit
  }

  /** The join row prints as its ingredient does, followed by the amount and unit. */
  lemma IngredientInRecipeStrExtends(ingredient: IngredientRow, amount: nat)
    ensures var s := IngredientInRecipeStr(ingredient, amount);
      |IngredientStr(ingredient)| < |s| && s[..|IngredientStr(ingredient)| + 1] == IngredientStr(ingredient) + " "
  {
  }

  /** When neither the name nor the unit contains a space, the string splits on
      spaces back into the name, the amount and the unit. */
  lemma IngredientInRecipeStrReadsBack(ingredient: IngredientRow, amount: nat)
    requires ' ' !in ingredient.name && ' ' !in ingredient.measurementUnit
    requires ingredient.measurementUnit != ""
    ensures var p := Text.Pieces(IngredientInRecipeStr(ingredient, amount), ' ');
      |p| == 3 && p[0] == ingredient.name && p[2] == ingredient.measurementUnit &&
      Text.AllDigits(p[1]) && Text.ParseNat(p[1]) == amount
  {
    var name, digits, unit := ingredient.name, Text.NatToString(amount), ingredient.measurementUnit;
    assert ' ' !in digits by {
      assert forall k :: 0 <= k < |digits| ==> Text.IsDigit(digits[k]);
    }
    var s := IngredientInRecipeStr(ingredient, amount);
    assert s == name + [' '] + (digits + [' '] + unit);
    Text.PiecesOne(name, ' ', digits + [' '] + unit);
    Text.PiecesOne(digits, ' ', unit);
    Text.ParseNatToString(amount);
  }

  /** `Favorite.__str__` and `ShoppingCart.__str__`. */
  function FavoriteStr(recipeName: string, username: string): (s: string)
    ensures |s| == |recipeName| + |" в избранном у "| + |username|
    ensures s[..|recipeName|] == recipeName
    ensures s[|recipeName|..|s| - |username|] == " в избранном у "
    ensures s[|s| - |username|..] == username
  {
    recipeName + " в избранном у " + username
  }

  function ShoppingCartStr(recipeName: string, username: string): (s: string)
    ensures |s| == |recipeName| + |" в списке покупок у "| + |username|
    ensures s[..|recipeName|] == recipeName
    ensures s[|recipeName|..|s| - |username|] == " в списке покупок у "
    ensures s[|s| - |username|..] == username
  {
    recipeName + " в списке покупок у " + username
  }
}
