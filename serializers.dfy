/** The recipe and user serializers (backend/api/serializers.py): writing a recipe
    with its ingredient rows and tags, and reading it back with the caller's flags. */
module Serializers {
  import opened Base
  import opened UsersModels
  import opened RecipesModels
  import opened Database
  import opened Utilities

  /** One validated entry of the `ingredients` field:
      `{'ingredient': {'id': id}, 'amount': amount}`. The id is a plain integer
      field, so nothing checks that it names a stored ingredient. */
  datatype IngredientAmount = IngredientAmount(id: IngredientId, amount: nat)

  /** `validated_data` of a create: every field is required. */
  datatype RecipeData = RecipeData(
    tags: seq<TagId>,
    ingredients: seq<IngredientAmount>,
    name: string,
    image: string,
    text: string,
    cookingTime: nat)

  /** `validated_data` of an update; in a partial update any key may be absent. */
  datatype RecipePatch = RecipePatch(
    tags: Option<seq<TagId>>,
    ingredients: Option<seq<IngredientAmount>>,
    name: Option<string>,
    image: Option<string>,
    text: Option<string>,
    cookingTime: Option<nat>)

  /** The join rows that a list of entries creates for recipe `rid`, one per entry. */
  function EntriesFor(rid: RecipeId, items: seq<IngredientAmount>): (r: seq<IngredientInRecipe>)
    ensures |r| == |items|
    ensures forall k :: 0 <= k < |items| ==> r[k] == IngredientInRecipe(items[k].id, rid, items[k].amount)
  {
    seq(|items|, k requires 0 <= k < |items| => IngredientInRecipe(items[k].id, rid, items[k].amount))
  }

  /** The rows of the recipe-tag table that a list of tags adds for recipe `rid`. */
  function TagLinks(rid: RecipeId, tids: seq<TagId>): set<RecipeTag>
  {
    set k | 0 <= k < |tids| :: RecipeTag(rid, tids[k])
  }

  /** The tag ids of recipe `rid` (`instance.tags.values_list('id')`). */
  function TagIdsOf(recipeTags: set<RecipeTag>, rid: RecipeId): set<TagId>
  {
    set rt | rt in recipeTags && rt.recipe == rid :: rt.tag
  }

  /** The position of the first entry whose id names no stored ingredient, where
      `Ingredient.objects.get` raises; `|items|` when every id is stored. */
  function FirstUnknown(items: seq<IngredientAmount>, ingredients: seq<IngredientRow>): (n: nat)
    ensures n <= |items|
    ensures forall k :: 0 <= k < n ==> items[k].id in IngredientIds(ingredients)
    ensures n < |items| ==> items[n].id !in IngredientIds(ingredients)
  {
    if items == [] then 0
    else if items[0].id !in IngredientIds(ingredients) then 0
    else
      var n := FirstUnknown(items[1..], ingredients);
      assert forall k :: 0 < k < |items| ==> items[k] == items[1..][k - 1];
      1 + n
  }

  /** `instance.ingredients.clear()`: the table without the join rows of `rid`. */
  function WithoutRecipe(entries: seq<IngredientInRecipe>, rid: RecipeId): (r: seq<IngredientInRecipe>)
    ensures forall k :: 0 <= k < |r| ==> r[k] in entries && r[k].recipe != rid
  {
    if entries == [] then []
    else
      var last := entries[|entries| - 1];
      WithoutRecipe(entries[..|entries| - 1], rid) + (if last.recipe == rid then [] else [last])
  }

  /** Dropping join rows keeps the foreign keys of the rest. */
  lemma {:induction false} WithoutRecipeKeepsValid(entries: seq<IngredientInRecipe>, ingredients: seq<IngredientRow>,
                                                   recipes: map<RecipeId, RecipeRow>, rid: RecipeId)
    requires EntriesValid(entries, ingredients, recipes)
    ensures EntriesValid(WithoutRecipe(entries, rid), ingredients, recipes)
  {
    if entries != [] {
      var init, last := entries[..|entries| - 1], entries[|entries| - 1];
      assert forall k :: 0 <= k < |init| ==> init[k] == entries[k];
      WithoutRecipeKeepsValid(init, ingredients, recipes, rid);
      if last.recipe != rid {
        EntriesValidSnoc(WithoutRecipe(init, rid), ingredients, recipes, last);
      } else {
        assert WithoutRecipe(entries, rid) == WithoutRecipe(init, rid);
      }
    }
  }

  /** `instance.tags.clear()`. */
  function WithoutTags(recipeTags: set<RecipeTag>, rid: RecipeId): (r: set<RecipeTag>)
    ensures forall rt :: rt in r <==> rt in recipeTags && rt.recipe != rid
  {
    set rt | rt in recipeTags && rt.recipe != rid
  }

  /** The `validated_data.get(key, instance.key)` assignments: each scalar field
      takes the supplied value when there is one and keeps its value otherwise. */
  function Patched(row: RecipeRow, patch: RecipePatch): (r: RecipeRow)
    ensures r.id == row.id && r.author == row.author && r.createDate == row.createDate
    ensures r.name == (if patch.name.Some? then patch.name.value else row.name)
    ensures r.image == (if patch.image.Some? then patch.image.value else row.image)
    ensures r.text == (if patch.text.Some? then patch.text.value else row.text)
    ensures r.cookingTime == (if patch.cookingTime.Some? then patch.cookingTime.value else row.cookingTime)
  {
    row.(
      name := if patch.name.Some? then patch.name.value else row.name,
      image := if patch.image.Some? then patch.image.value else row.image,
      text := if patch.text.Some? then patch.text.value else row.text,
      cookingTime := if patch.cookingTime.Some? then patch.cookingTime.value else row.cookingTime)
  }

  /** A patch with no scalar keys keeps the row, and applying a patch twice is
      applying it once. */
  lemma PatchedKeepsAndSettles(row: RecipeRow, patch: RecipePatch)
    ensures patch.name.None? && patch.image.None? && patch.text.None? && patch.cookingTime.None? ==>
      Patched(row, patch) == row
    ensures Patched(Patched(row, patch), patch) == Patched(row, patch)
  {
  }

  // ---- the facts the create and update contracts rest on ----

  lemma {:induction false} WithoutRecipeHasNone(entries: seq<IngredientInRecipe>, rid: RecipeId)
    ensures RecipeEntries(WithoutRecipe(entries, rid), rid) == []
  {
    RecipeEntriesEmpty(WithoutRecipe(entries, rid), rid);
  }

  lemma {:induction false} WithoutRecipeKeepsOthers(entries: seq<IngredientInRecipe>, rid: RecipeId, other: RecipeId)
    requires other != rid
    ensures RecipeEntries(WithoutRecipe(entries, rid), other) == RecipeEntries(entries, other)
  {
    if entries != [] {
      var init, last := entries[..|entries| - 1], entries[|entries| - 1];
      WithoutRecipeKeepsOthers(init, rid, other);
      RecipeEntriesAppend(WithoutRecipe(init, rid), if last.recipe == rid then [] else [last], other);
      if last.recipe == rid {
        assert RecipeEntries([], other) == [];
      } else {
        assert [last][..0] == [];
      }
    }
  }

  lemma {:induction false} EntriesForOwnRecipe(rid: RecipeId, items: seq<IngredientAmount>, other: RecipeId)
    ensures RecipeEntries(EntriesFor(rid, items), rid) == EntriesFor(rid, items)
    ensures other != rid ==> RecipeEntries(EntriesFor(rid, items), other) == []
  {
    if items != [] {
      var init := items[..|items| - 1];
      EntriesForOwnRecipe(rid, init, other);
      assert EntriesFor(rid, items)[..|items| - 1] == EntriesFor(rid, init);
    }
  }

  /** After an update that re-adds `items`, the recipe's join rows are exactly
      those of `items`, each with its amount, and no old row of it is left. */
  lemma UpdateReplacesEntries(entries: seq<IngredientInRecipe>, rid: RecipeId, items: seq<IngredientAmount>)
    ensures RecipeEntries(WithoutRecipe(entries, rid) + EntriesFor(rid, items), rid) == EntriesFor(rid, items)
  {
    RecipeEntriesAppend(WithoutRecipe(entries, rid), EntriesFor(rid, items), rid);
    WithoutRecipeHasNone(entries, rid);
    EntriesForOwnRecipe(rid, items, rid);
  }

  /** ... and the join rows of every other recipe are as they were. */
  lemma UpdateKeepsOtherEntries(entries: seq<IngredientInRecipe>, rid: RecipeId, items: seq<IngredientAmount>,
                                other: RecipeId)
    requires other != rid
    ensures RecipeEntries(WithoutRecipe(entries, rid) + EntriesFor(rid, items), other) == RecipeEntries(entries, other)
  {
    RecipeEntriesAppend(WithoutRecipe(entries, rid), EntriesFor(rid, items), other);
    WithoutRecipeKeepsOthers(entries, rid, other);
    EntriesForOwnRecipe(rid, items, other);
  }

  /** A created recipe, whose id no join row names yet, has exactly the join rows
      of its entries. */
  lemma CreateGivesEntries(entries: seq<IngredientInRecipe>, rid: RecipeId, items: seq<IngredientAmount>)
    requires forall k :: 0 <= k < |entries| ==> entries[k].recipe != rid
    ensures RecipeEntries(entries + EntriesFor(rid, items), rid) == EntriesFor(rid, items)
  {
    RecipeEntriesAppend(entries, EntriesFor(rid, items), rid);
    RecipeEntriesEmpty(entries, rid);
    EntriesForOwnRecipe(rid, items, rid);
  }

  /** After re-tagging, the recipe's tag ids are exactly the supplied ones, and
      every other recipe keeps its tags. */
  lemma RetagExact(recipeTags: set<RecipeTag>, rid: RecipeId, tids: seq<TagId>, other: RecipeId)
    ensures TagIdsOf(WithoutTags(recipeTags, rid) + TagLinks(rid, tids), rid) == set k | 0 <= k < |tids| :: tids[k]
    ensures other != rid ==> TagIdsOf(WithoutTags(recipeTags, rid) + TagLinks(rid, tids), other) == TagIdsOf(recipeTags, other)
  {
    var after := WithoutTags(recipeTags, rid) + TagLinks(rid, tids);
    forall t | t in TagIdsOf(after, rid) ensures t in set k | 0 <= k < |tids| :: tids[k] {
      var rt :| rt in after && rt.recipe == rid && rt.tag == t;
      assert rt in TagLinks(rid, tids);
    }
    forall k | 0 <= k < |tids| ensures tids[k] in TagIdsOf(after, rid) {
      assert RecipeTag(rid, tids[k]) in after;
    }
  }

  // ---- writing ----

  /** The loop that creates one join row per entry (lines 139-146 and 169-176):
      the rows before the first unknown ingredient id are created, and that id
      raises DoesNotExist. */
  method AddEntries(db: Db, rid: RecipeId, items: seq<IngredientAmount>) returns (r: Result<()>)
    requires db.Valid() && rid in db.recipes
    modifies db`entries
    ensures db.Valid()
    ensures var n := FirstUnknown(items, db.ingredients);
      && db.entries == old(db.entries) + EntriesFor(rid, items[..n])
      && (n == |items| ==> r == Ok(()))
      && (n < |items| ==> r == Err(DoesNotExist("Ingredient")))
  {
    ghost var n := FirstUnknown(items, db.ingredients);
    var i := 0;
    while i < |items|
      invariant 0 <= i <= n
      invariant EntriesValid(db.entries, db.ingredients, db.recipes)
      invariant db.entries == old(db.entries) + EntriesFor(rid, items[..i])
    {
      var found := FindIngredient(db.ingredients, items[i].id);
      if found.None? {
        assert i == n;
        r := Err(DoesNotExist("Ingredient"));
        return;
      }
      var row := IngredientInRecipe(found.value.id, rid, items[i].amount);
      assert EntriesFor(rid, items[..i + 1]) == EntriesFor(rid, items[..i]) + [row];
      EntriesValidSnoc(db.entries, db.ingredients, db.recipes, row);
      db.entries := db.entries + [row];
      i := i + 1;
    }
    assert items[..i] == items;
    r := Ok(());
  }

  lemma TagLinksSnoc(rid: RecipeId, tids: seq<TagId>, i: nat)
    requires i < |tids|
    ensures TagLinks(rid, tids[..i + 1]) == TagLinks(rid, tids[..i]) + {RecipeTag(rid, tids[i])}
  {
    var a, b := tids[..i + 1], tids[..i];
    assert forall k :: 0 <= k < i ==> a[k] == b[k];
    assert a[i] == tids[i];
  }

  /** Names are unique, so the tag found by the name of tag `t` is `t`. */
  lemma TagByName(tags: map<TagId, TagRow>, t: TagId, found: TagId)
    requires TagsUnique(tags) && t in tags && found in tags
    requires tags[found].name == tags[t].name
    ensures found == t
  {
  }

  /** The loop that adds the tags (lines 148-151 and 181-183). Each tag is looked up
      again by its name; names are unique, so the lookup finds that same tag. */
  method AddTags(db: Db, rid: RecipeId, tids: seq<TagId>)
    requires db.Valid() && rid in db.recipes
    requires forall k :: 0 <= k < |tids| ==> tids[k] in db.tags
    modifies db`recipeTags
    ensures db.Valid()
    ensures db.recipeTags == old(db.recipeTags) + TagLinks(rid, tids)
  {
    for i := 0 to |tids|
      invariant RecipeTagsValid(db.recipeTags, db.recipes, db.tags)
      invariant db.recipeTags == old(db.recipeTags) + TagLinks(rid, tids[..i])
    {
      var name := db.tags[tids[i]].name;
      var tag :| tag in db.tags && db.tags[tag].name == name;
      TagByName(db.tags, tids[i], tag);
      TagLinksSnoc(rid, tids, i);
      db.recipeTags := db.recipeTags + {RecipeTag(rid, tag)};
    }
    assert tids[..|tids|] == tids;
  }

  /** `RecipeSerializer.create` (lines 130-155): the recipe row is stored first, then
      one join row per entry, then the tags. An unknown ingredient id stops it with
      DoesNotExist, leaving the recipe and the join rows created before it. */
  method Create(db: Db, author: UserId, data: RecipeData, now: int) returns (r: Result<RecipeId>)
    requires db.Valid() && author in db.users
    requires forall k :: 0 <= k < |data.tags| ==> data.tags[k] in db.tags
    modifies db`recipes, db`nextRecipeId, db`entries, db`recipeTags
    ensures db.Valid()
    ensures var rid := old(db.nextRecipeId);
      var n := FirstUnknown(data.ingredients, db.ingredients);
      && rid !in old(db.recipes)
      && db.recipes == old(db.recipes)[rid := RecipeRow(rid, author, data.name, data.image, data.text, data.cookingTime, now)]
      && db.entries == old(db.entries) + EntriesFor(rid, data.ingredients[..n])
      && (n == |data.ingredients| ==> r == Ok(rid) && db.recipeTags == old(db.recipeTags) + TagLinks(rid, data.tags))
      && (n < |data.ingredients| ==> r == Err(DoesNotExist("Ingredient")) && db.recipeTags == old(db.recipeTags))
  {
    var rid := db.nextRecipeId;
    db.recipes := db.recipes[rid := RecipeRow(rid, author, data.name, data.image, data.text, data.cookingTime, now)];
    db.nextRecipeId := rid + 1;
    var added := AddEntries(db, rid, data.ingredients);
    if added.Err? {
      r := Err(added.error);
      return;
    }
    AddTags(db, rid, data.tags);
    r := Ok(rid);
  }

  /** `RecipeSerializer.update` (lines 157-186). The scalar fields are assigned in
      memory and written by the final `save()`; the join rows are cleared at once,
      so a missing ingredients key (iterating None: TypeError) leaves the recipe
      without join rows; the tags are cleared next, and a missing tags key raises
      TypeError there. */
  method Update(db: Db, rid: RecipeId, patch: RecipePatch) returns (r: Result<RecipeId>)
    requires db.Valid() && rid in db.recipes
    requires patch.tags.Some? ==> forall k :: 0 <= k < |patch.tags.value| ==> patch.tags.value[k] in db.tags
    modifies db`recipes, db`entries, db`recipeTags
    ensures db.Valid()
    ensures patch.ingredients.None? ==>
      && r == Err(TypeError)
      && db.entries == WithoutRecipe(old(db.entries), rid)
      && db.recipes == old(db.recipes) && db.recipeTags == old(db.recipeTags)
    ensures patch.ingredients.Some? ==>
      var items := patch.ingredients.value;
      db.entries == WithoutRecipe(old(db.entries), rid) + EntriesFor(rid, items[..FirstUnknown(items, db.ingredients)])
    ensures patch.ingredients.Some? && FirstUnknown(patch.ingredients.value, db.ingredients) < |patch.ingredients.value| ==>
      r == Err(DoesNotExist("Ingredient")) && db.recipes == old(db.recipes) && db.recipeTags == old(db.recipeTags)
    ensures patch.ingredients.Some? && FirstUnknown(patch.ingredients.value, db.ingredients) == |patch.ingredients.value| ==>
      && (patch.tags.None? ==>
            r == Err(TypeError) && db.recipes == old(db.recipes) && db.recipeTags == WithoutTags(old(db.recipeTags), rid))
      && (patch.tags.Some? ==>
            && r == Ok(rid)
            && db.recipes == old(db.recipes)[rid := Patched(old(db.recipes)[rid], patch)]
            && db.recipeTags == WithoutTags(old(db.recipeTags), rid) + TagLinks(rid, patch.tags.value))
  {
    var row := Patched(db.recipes[rid], patch);
    WithoutRecipeKeepsValid(db.entries, db.ingredients, db.recipes, rid);
    db.entries := WithoutRecipe(db.entries, rid);
    if patch.ingredients.None? {
      r := Err(TypeError);
      return;
    }
    var added := AddEntries(db, rid, patch.ingredients.value);
    if added.Err? {
      r := Err(added.error);
      return;
    }
    assert db.recipeTags == old(db.recipeTags);
    if patch.tags.None? {
      db.recipeTags := WithoutTags(db.recipeTags, rid);
      r := Err(TypeError);
      return;
    }
    SetTags(db, rid, patch.tags.value);
    Save(db, row);
    r := Ok(rid);
  }

  /** `instance.tags.clear()` followed by the loop that adds the given tags. */
  method SetTags(db: Db, rid: RecipeId, tids: seq<TagId>)
    requires db.Valid() && rid in db.recipes
    requires forall k :: 0 <= k < |tids| ==> tids[k] in db.tags
    modifies db`recipeTags
    ensures db.Valid()
    ensures db.recipeTags == WithoutTags(old(db.recipeTags), rid) + TagLinks(rid, tids)
  {
    db.recipeTags := WithoutTags(db.recipeTags, rid);
    AddTags(db, rid, tids);
  }

  /** `instance.save()`: the stored row of the recipe becomes `row`. */
  method Save(db: Db, row: RecipeRow)
    requires db.Valid() && row.id in db.recipes && row.author == db.recipes[row.id].author
    modifies db`recipes
    ensures db.Valid()
    ensures db.recipes == old(db.recipes)[row.id := row]
  {
    db.recipes := db.recipes[row.id := row];
  }

  // ---- reading ----

  /** `UserSerializer` output. */
  datatype UserRep = UserRep(email: string, id: UserId, username: string, firstName: string,
                             lastName: string, isSubscribed: bool)

  /** `IngredientInRecipeSerializer` output. */
  datatype IngredientRep = IngredientRep(id: IngredientId, name: string, measurementUnit: string, amount: nat)

  /** `RecipeSerializer` output; `tags` holds the full tag records. */
  datatype RecipeRep = RecipeRep(
    id: RecipeId,
    tags: set<TagRow>,
    author: UserRep,
    ingredients: seq<IngredientRep>,
    isFavorited: bool,
    isInShoppingCart: bool,
    name: string,
    image: string,
    text: string,
    cookingTime: nat)

  /** `UserSerializer.get_is_subscribed`: whether the caller follows `user`. */
  function GetIsSubscribed(context: Context, subscriptions: set<Link>, user: UserRow): (r: Result<bool>)
    ensures "request" in context && context["request"].Some? && IsAuthenticated(context["request"].value.user) ==>
      r == Ok(Link(context["request"].value.user.value.id, user.id) in subscriptions)
    ensures "request" in context && context["request"].Some? && context["request"].value.user == Some(Anonymous) ==>
      r == Ok(false)
  {
    CheckModel(context, subscriptions, user.id)
  }

  /** `RecipeSerializer.get_is_favorited` and `.get_is_in_shopping_cart`. */
  function GetIsFavorited(context: Context, favorites: set<Link>, rid: RecipeId): (r: Result<bool>)
    ensures "request" in context && context["request"].Some? && IsAuthenticated(context["request"].value.user) ==>
      r == Ok(Link(context["request"].value.user.value.id, rid) in favorites)
    ensures "request" in context && context["request"].Some? && context["request"].value.user == Some(Anonymous) ==>
      r == Ok(false)
  {
    CheckModel(context, favorites, rid)
  }

  function GetIsInShoppingCart(context: Context, carts: set<Link>, rid: RecipeId): (r: Result<bool>)
    ensures "request" in context && context["request"].Some? && IsAuthenticated(context["request"].value.user) ==>
      r == Ok(Link(context["request"].value.user.value.id, rid) in carts)
    ensures "request" in context && context["request"].Some? && context["request"].value.user == Some(Anonymous) ==>
      r == Ok(false)
  {
    CheckModel(context, carts, rid)
  }

  /** `UserSerializer` on a stored user: the five stored fields, and the flag, which
      fails exactly when `get_is_subscribed` does. */
  function UserRepresentation(context: Context, subscriptions: set<Link>, user: UserRow): (r: Result<UserRep>)
    ensures r.Ok? <==> GetIsSubscribed(context, subscriptions, user).Ok?
    ensures r.Err? ==> r.error == GetIsSubscribed(context, subscriptions, user).error
    ensures r.Ok? ==>
      && r.value.id == user.id && r.value.username == user.username && r.value.email == user.email
      && r.value.firstName == user.firstName && r.value.lastName == user.lastName
      && r.value.isSubscribed == GetIsSubscribed(context, subscriptions, user).value
    ensures r.Ok? && "request" in context && context["request"].Some? && IsAuthenticated(context["request"].value.user) ==>
      r.value.isSubscribed == (Link(context["request"].value.user.value.id, user.id) in subscriptions)
  {
    match GetIsSubscribed(context, subscriptions, user)
    case Err(e) => Err(e)
    case Ok(b) => Ok(UserRep(user.email, user.id, user.username, user.firstName, user.lastName, b))
  }

  /** The reverse accessor of `IngredientInRecipe.recipe` on a recipe
      (`related_name` at backend/recipes/models.py:140). */
  const EntriesAccessor: string := "recipe_ingredients"

  /** The `source` the `ingredients` field is declared with (line 59). */
  const IngredientsSource: string := "recipe"

  /** Reading the `ingredients` field: DRF fetches attribute `source` of the recipe.
      Of the two names in question, the reverse accessor yields the join rows and the
      declared `recipe`, which a recipe lacks, raises AttributeError (the field is
      required, so it is not skipped). */
  function IngredientsAttribute(entries: seq<IngredientInRecipe>, rid: RecipeId, source: string)
    : (r: Result<seq<IngredientInRecipe>>)
    requires source == IngredientsSource || source == EntriesAccessor
    ensures r.Ok? <==> source == EntriesAccessor
    ensures r.Err? ==> r.error == AttributeError(IngredientsSource)
    ensures r.Ok? ==> r.value == RecipeEntries(entries, rid)
  {
    if source == EntriesAccessor then Ok(RecipeEntries(entries, rid)) else Err(AttributeError(source))
  }

  function IngredientReps(es: seq<IngredientInRecipe>, ingredients: seq<IngredientRow>): (r: seq<IngredientRep>)
    requires EntriesHaveIngredients(es, ingredients)
    ensures |r| == |es|
    ensures forall k :: 0 <= k < |es| ==> r[k].id == es[k].ingredient && r[k].amount == es[k].amount
    ensures forall k :: 0 <= k < |es| ==>
      exists row :: row in ingredients && row.id == es[k].ingredient &&
        r[k].name == row.name && r[k].measurementUnit == row.measurementUnit
  {
    var r := seq(|es|, k requires 0 <= k < |es| =>
      var row := FindIngredient(ingredients, es[k].ingredient).value;
      IngredientRep(es[k].ingredient, row.name, row.measurementUnit, es[k].amount));
    assert forall k :: 0 <= k < |es| ==> FindIngredient(ingredients, es[k].ingredient).value in ingredients;
    r
  }

  /** The full tag records of the recipe's tag ids (lines 70-74). */
  function TagReps(tags: map<TagId, TagRow>, recipeTags: set<RecipeTag>, rid: RecipeId): (r: set<TagRow>)
    requires forall rt :: rt in recipeTags ==> rt.tag in tags
    requires forall id :: id in tags ==> tags[id].id == id
    ensures (set t | t in r :: t.id) == TagIdsOf(recipeTags, rid)
    ensures forall t :: t in r ==> t.id in tags && tags[t.id] == t
  {
    var r := set id | id in TagIdsOf(recipeTags, rid) :: tags[id];
    assert forall id :: id in TagIdsOf(recipeTags, rid) ==> tags[id] in r;
    r
  }

  /** `RecipeSerializer.to_representation`, reading the ingredients from `source`.
      Fields are produced in declaration order, so the author's flag (which reads
      the context) is evaluated before the ingredients. */
  function RepresentationWith(db: Db, rid: RecipeId, context: Context, source: string): (r: Result<RecipeRep>)
    reads db, db.favorites, db.carts, db.subscriptions
    requires db.Valid() && rid in db.recipes
    requires source == IngredientsSource || source == EntriesAccessor
    ensures var author := UserRepresentation(context, db.subscriptions.rows, db.users[db.recipes[rid].author]);
      && (author.Err? ==> r == Err(author.error))
      && (author.Ok? && source == IngredientsSource ==> r == Err(AttributeError(IngredientsSource)))
    ensures var author := UserRepresentation(context, db.subscriptions.rows, db.users[db.recipes[rid].author]);
      var favorited := GetIsFavorited(context, db.favorites.rows, rid);
      var inCart := GetIsInShoppingCart(context, db.carts.rows, rid);
      var recipe := db.recipes[rid];
      && (r.Ok? <==> source == EntriesAccessor && author.Ok? && favorited.Ok? && inCart.Ok?)
      && (r.Ok? ==>
            EntriesHaveIngredients(RecipeEntries(db.entries, rid), db.ingredients) &&
            r.value == RecipeRep(rid, TagReps(db.tags, db.recipeTags, rid), author.value,
                                 IngredientReps(RecipeEntries(db.entries, rid), db.ingredients),
                                 favorited.value, inCart.value, recipe.name, recipe.image, recipe.text,
                                 recipe.cookingTime))
  {
    var recipe := db.recipes[rid];
    match UserRepresentation(context, db.subscriptions.rows, db.users[recipe.author])
    case Err(e) => Err(e)
    case Ok(author) =>
      match IngredientsAttribute(db.entries, rid, source)
      case Err(e) => Err(e)
      case Ok(es) =>
        assert EntriesHaveIngredients(es, db.ingredients);
        match GetIsFavorited(context, db.favorites.rows, rid)
        case Err(e) => Err(e)
        case Ok(favorited) =>
          match GetIsInShoppingCart(context, db.carts.rows, rid)
          case Err(e) => Err(e)
          case Ok(inCart) =>
            Ok(RecipeRep(rid, TagReps(db.tags, db.recipeTags, rid), author, IngredientReps(es, db.ingredients),
                         favorited, inCart, recipe.name, recipe.image, recipe.text, recipe.cookingTime))
  }

  /** `to_representation` as written: the recipe has no attribute `recipe`, so no
      recipe can be read back. */
  function ToRepresentationAsWritten(db: Db, rid: RecipeId, context: Context): (r: Result<RecipeRep>)
    reads db, db.favorites, db.carts, db.subscriptions
    requires db.Valid() && rid in db.recipes
  {
    RepresentationWith(db, rid, context, IngredientsSource)
  }

  lemma AsWrittenNeverSucceeds(db: Db, rid: RecipeId, context: Context)
    requires db.Valid() && rid in db.recipes
    ensures ToRepresentationAsWritten(db, rid, context).Err?
    ensures "request" !in context ==> ToRepresentationAsWritten(db, rid, context) == Err(KeyError("request"))
    ensures "request" in context && context["request"].Some? && context["request"].value.user.Some? ==>
      ToRepresentationAsWritten(db, rid, context) == Err(AttributeError("recipe"))
  {
  }

  /** `to_representation` reading the ingredients through the reverse accessor: in
      a request context it succeeds, `tags` holds the records of exactly the
      recipe's tag ids, `ingredients` one item per join row of the recipe with its
      amount, and the flags say whether the caller has the recipe in favorites and
      in the cart. */
  function ToRepresentation(db: Db, rid: RecipeId, context: Context): (r: Result<RecipeRep>)
    reads db, db.favorites, db.carts, db.subscriptions
    requires db.Valid() && rid in db.recipes
    ensures "request" in context && context["request"].Some? && context["request"].value.user.Some? ==> r.Ok?
    ensures r.Ok? ==>
      && r.value.id == rid
      && (set t | t in r.value.tags :: t.id) == TagIdsOf(db.recipeTags, rid)
      && |r.value.ingredients| == |RecipeEntries(db.entries, rid)|
      && (forall k :: 0 <= k < |r.value.ingredients| ==>
            r.value.ingredients[k].id == RecipeEntries(db.entries, rid)[k].ingredient &&
            r.value.ingredients[k].amount == RecipeEntries(db.entries, rid)[k].amount)
      && (forall k :: 0 <= k < |r.value.ingredients| ==>
            exists row :: row in db.ingredients && row.id == r.value.ingredients[k].id &&
              r.value.ingredients[k].name == row.name && r.value.ingredients[k].measurementUnit == row.measurementUnit)
      && (forall t :: t in r.value.tags ==> t.id in db.tags && db.tags[t.id] == t)
      && r.value.name == db.recipes[rid].name && r.value.image == db.recipes[rid].image
      && r.value.text == db.recipes[rid].text && r.value.cookingTime == db.recipes[rid].cookingTime
      && r.value.author.id == db.recipes[rid].author
      && r.value.author.username == db.users[db.recipes[rid].author].username
    ensures r.Ok? && "request" in context && context["request"].Some? && IsAuthenticated(context["request"].value.user) ==>
      var caller := context["request"].value.user.value.id;
      r.value.isFavorited == (Link(caller, rid) in db.favorites.rows) &&
      r.value.isInShoppingCart == (Link(caller, rid) in db.carts.rows)
  {
    RepresentationWith(db, rid, context, EntriesAccessor)
  }
}
