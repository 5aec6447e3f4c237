# Foodgram core in Dafny

Foodgram is a recipe-sharing HTTP API built on Django and Django REST Framework.
Users publish recipes made of ingredient amounts and tags. They mark recipes as
favorites, put them in a shopping cart, download the cart as a plain-text
shopping list, and subscribe to other authors. This project models the part of
it that holds decisions, over an in-memory store of tables:

- the data model and its database constraints (users, tags, ingredients,
  recipes, recipe–ingredient rows, recipe–tag rows, favorites, cart rows,
  subscriptions);
- the favorite, shopping-cart and subscription toggles, with the permission
  check and the framework's method dispatch that run before them;
- the shopping-list aggregation (group by ingredient, sum the amounts) and its
  text rendering;
- the author-or-read-only permission;
- the "is linked" flag the serializers show (`is_favorited`,
  `is_in_shopping_cart`, `is_subscribed`);
- recipe create and update, as the serializer writes them, and the recipe
  representation it reads back;
- the ingredient import command's de-duplicating bulk insert.

Modules: `Base` (ids, `Option`/`Result`, the exceptions, requests), `Text`
(decimal rendering, line splitting), `UsersModels`, `RecipesModels`, `Database`
(the store: a `LinkTable` class per link table and a `Db` class holding every
other table), `Utilities`, `Permissions`, `ImportJson`, `ShoppingList`,
`Serializers`, `Views`. State that the source changes in place lives in the
`LinkTable` and `Db` classes; the methods that change it name the fields they
write in `modifies` clauses. `Db.Valid()` is the store invariant: primary keys,
the unique constraints, and the foreign keys of recipes, join rows and tag rows.
Every method that changes the store keeps it.

Where the code and its design description differ, the model follows the code:

- `amount` and `cooking_time` admit 0, because Django's positive integer fields
  accept 0;
- a recipe with no ingredients or no tags is accepted, because
  `Recipe.validate_ingredients` is a model validator that the serializer path
  never calls;
- an update without an ingredient list fails with a TypeError after the recipe's
  ingredient rows are already deleted.

The "is linked" getters follow `check_model` as written, so a serializer context
without a request raises KeyError. The recipe viewset and the subscription views
(backend/api/views.py:257-258, 283-284) pass one, and with a request the intended
reading `CheckModelGuarded` agrees with the code.

The tag lookup in `create`/`update` is `Tag.objects.get(name=tag)`, where `tag`
is a Tag object. Django coerces it to its `__str__`, which is its name. Names
are unique, so the lookup finds that same tag, and `AddTags` proves exactly that.

## Model

| member | source | states |
|---|---|---|
| Database.LinkTable.Insert | backend/recipes/models.py:176-180 | the unique constraint: inserting a stored pair fails with IntegrityError naming the constraint and changes nothing; otherwise exactly that pair is added |
| Database.LinkTable.Remove | backend/api/views.py:64-68 | `get(...).delete()`: a stored pair is removed and nothing else; a missing one raises DoesNotExist naming the model (`Favorite`, `ShoppingCart`, `Subscription`) and nothing changes |
| Database.LinkTable.Exists | backend/api/views.py:54 | `filter(recipe=..., user=...).exists()`: whether the pair is stored (used by `Post`) |
| Database.LinkTable.Post | backend/api/views.py:53-62 | POST on a stored pair answers 400 and leaves the table unchanged; on an absent pair it adds exactly that pair and answers 201 |
| Database.LinkTable.Delete | backend/api/views.py:63-72 | DELETE on a stored pair removes exactly it and answers 204; on an absent pair it answers 400 and changes nothing |
| Database.FindIngredient | backend/api/serializers.py:140-141 | `Ingredient.objects.get(id=...)` finds a row exactly when the id is stored, and the row found has that id |
| Database.Db.CreateUser | backend/users/models.py:14-38 | a taken username or email is refused with IntegrityError and nothing changes; otherwise one row is added under a fresh id with the default role |
| Database.Db.CreateTag | backend/recipes/models.py:13-26 | a taken name, color or slug is refused and nothing changes; otherwise one row is added under a fresh id |
| UsersModels.NewUser | backend/users/models.py:34-38 | a new user has every given field and the role `user`, so it is not an admin |
| UsersModels.IsAdmin | backend/users/models.py:52-54 | `is_admin`: the role is `admin` (its partner is `IsAdminOnlyForAdminRole`) |
| UsersModels.IsAdminOnlyForAdminRole | backend/users/models.py:52-54 | `is_admin` holds exactly for the role `admin`, and never for the default role |
| UsersModels.AddUserKeepsUnique | backend/users/models.py:14-24 | adding a user whose username and email are unused keeps both unique |
| UsersModels.UserStr | backend/users/models.py:49-50 | `User.__str__` is the username |
| UsersModels.UserStrIdentifies | backend/users/models.py:49-50 | usernames are unique, so two distinct stored users print differently |
| UsersModels.SubscriptionStr | backend/users/models.py:77-78 | the text is the follower's username, " подписан на ", then the followed user's username, in that order and with those lengths |
| RecipesModels.AddTagKeepsUnique | backend/recipes/models.py:13-26 | adding a tag whose name, color and slug are all unused keeps each of the three unique |
| RecipesModels.RecipeEntries | backend/recipes/models.py:137-142 | the join rows of a recipe all belong to it and come from the table |
| RecipesModels.RecipeEntriesAppend | backend/recipes/models.py:137-142 | the rows of a recipe in two concatenated tables are its rows in each, in order |
| RecipesModels.RecipeEntriesEmpty | backend/recipes/models.py:112 | a recipe has no join rows exactly when no row of the table names it |
| RecipesModels.ValidateIngredients | backend/recipes/models.py:108-115 | for a saved recipe, ValidationError with the fixed message exactly when no join row names it; for an unsaved instance, the ValueError of its many-to-many manager |
| RecipesModels.Clean | backend/recipes/models.py:120-122 | passes exactly when the recipe is saved and some join row names it; an unsaved instance raises ValueError |
| RecipesModels.InsertByDatePermutes | backend/recipes/models.py:101 | inserting a row into the ordered sequence adds exactly that one row and loses none |
| RecipesModels.InsertByDateSorted | backend/recipes/models.py:101 | inserting a row into a newest-first sequence keeps it newest first |
| RecipesModels.NewestFirstPermutes | backend/recipes/models.py:101 | ordering the recipes loses and adds no row |
| RecipesModels.NewestFirstSorted | backend/recipes/models.py:101 | the ordered recipes run from the newest `create_date` to the oldest |
| RecipesModels.NewestFirstSortsAndPermutes | backend/recipes/models.py:101 | the default ordering is newest `create_date` first and lists every recipe as often as the table holds it |
| RecipesModels.NewestFirst | backend/recipes/models.py:101 | the default ordering, by insertion on `create_date`; the three lemmas above are its properties |
| RecipesModels.TagStr | backend/recipes/models.py:32-33 | `Tag.__str__` is the name |
| RecipesModels.TagStrIdentifies | backend/recipes/models.py:32-33 | tag names are unique, so two distinct stored tags print differently |
| RecipesModels.IngredientStr | backend/recipes/models.py:53-54 | `Ingredient.__str__` is the name; names are not unique, so it does not identify an ingredient |
| RecipesModels.RecipeStr | backend/recipes/models.py:105-106 | `Recipe.__str__` is the name |
| RecipesModels.IngredientInRecipeStr | backend/recipes/models.py:152-156 | `IngredientInRecipe.__str__`: "{name} {amount} {unit}" |
| RecipesModels.IngredientInRecipeStrExtends | backend/recipes/models.py:152-156 | the join row prints as its ingredient does, followed by a space and more text |
| RecipesModels.IngredientInRecipeStrReadsBack | backend/recipes/models.py:152-156 | "{name} {amount} {unit}" splits on spaces back into the name, the amount's digits (which parse to the amount) and the unit, when name and unit have no space |
| RecipesModels.FavoriteStr | backend/recipes/models.py:182-183 | the text is the recipe name, " в избранном у ", then the username |
| RecipesModels.ShoppingCartStr | backend/recipes/models.py:209-212 | the text is the recipe name, " в списке покупок у ", then the username |
| Text.NatToString | backend/api/views.py:222-224 | the decimal form of a number: digits only, at least one, no leading zero, no newline |
| Text.ParseNatToString | backend/api/views.py:222-224 | rendering a number in decimal and reading it back gives the number |
| Text.NatToStringInjective | backend/api/views.py:222-224 | distinct numbers render differently |
| Utilities.Message | backend/api/utilities.py:1-30 | `MESSAGES[action][kind]` succeeds exactly for the keys in the table; a missing action raises KeyError(action), a missing kind KeyError(kind) |
| Utilities.MessagesComplete | backend/api/utilities.py:1-30 | each of `shopping_cart`, `favorite` and `subscribe` has both a `cr_error` and a `del_error` message |
| Utilities.SubscribeMessagesRepeatFavorite | backend/api/utilities.py:20-29 | the subscription messages are word for word the favorites messages |
| Utilities.CheckModel | backend/api/utilities.py:33-43 | as written: no request key raises KeyError, a None request or user raises AttributeError, an anonymous user gives false, an authenticated one gives whether its pair is stored |
| Utilities.CheckModelGuarded | backend/api/utilities.py:38-43 | as the guard intends: a missing or None request gives false; otherwise the same as the code; true only if the caller's pair is stored |
| Utilities.CheckModelFailsWithoutRequest | backend/api/utilities.py:38-41 | on an empty context the code raises KeyError where the guard means to answer false |
| Permissions.HasObjectPermission | backend/api/permissions.py:11-14 | a safe method passes for anyone; an unsafe one passes exactly when the object's author is the caller |
| Permissions.HasPermission | backend/api/permissions.py:17-22 | a safe method passes even anonymously; an unsafe one passes exactly for a present, authenticated user |
| Permissions.Allowed | backend/api/permissions.py:11-22 | both checks together pass exactly for a safe method or the author |
| Permissions.UnauthenticatedWriteDenied | backend/api/permissions.py:17-22 | an unauthenticated write is refused at view level, whoever the author is |
| Permissions.NonAuthorWriteDenied | backend/api/permissions.py:11-22 | an authenticated non-author passes the view check but fails the object check |
| ImportJson.ReadItem | backend/recipes/management/commands/import_json.py:20-21 | reading an item succeeds exactly when it has both keys, and then yields their values; a missing `name` raises KeyError("name"), else a missing unit KeyError("measurement_unit") |
| ImportJson.ReadItems | backend/recipes/management/commands/import_json.py:19-21 | reading all items in order: it succeeds exactly when every item reads, and then item k yields the pair item k reads to |
| ImportJson.ReadItemsPrefixError | backend/recipes/management/commands/import_json.py:19-21 | once an item fails to read, the whole run fails with that error |
| ImportJson.Materialize | backend/recipes/management/commands/import_json.py:31 | `bulk_create` gives the k-th created row the k-th fresh id and the item's name and unit |
| ImportJson.HasPair | backend/recipes/management/commands/import_json.py:23-25 | `filter(name=..., measurement_unit=...).exists()`: some row has that name and unit |
| ImportJson.Survivors | backend/recipes/management/commands/import_json.py:19-30 | the queue `ingredients_to_create`, never longer than the input; the lemmas below are its properties |
| ImportJson.SurvivorsMembership | backend/recipes/management/commands/import_json.py:23-30 | an item is queued exactly when it is in the input and its pair is not stored |
| ImportJson.SurvivorsAppend | backend/recipes/management/commands/import_json.py:19-30 | the queue keeps input order |
| ImportJson.SurvivorsKeepDuplicates | backend/recipes/management/commands/import_json.py:23-31 | a new pair that occurs n times in the input is queued n times, because the check reads the table before the insert |
| ImportJson.NoSurvivorsWhenAllPresent | backend/recipes/management/commands/import_json.py:23-25 | when every pair is stored, nothing is queued |
| ImportJson.SecondImportAddsNothing | backend/recipes/management/commands/import_json.py:18-31 | importing the same input again after an import adds nothing |
| ImportJson.IngredientIdsGrow | backend/recipes/management/commands/import_json.py:31 | appending rows never loses a stored id |
| ImportJson.BulkCreateKeepsValid | backend/recipes/management/commands/import_json.py:31 | the rows `bulk_create` adds keep the ingredient keys distinct and below the counter, and every join row keeps its ingredient |
| ImportJson.ReadFails | backend/recipes/management/commands/import_json.py:19-21 | the first item without a key decides the error of the whole run |
| ImportJson.Handle | backend/recipes/management/commands/import_json.py:18-31 | the loop: a missing key aborts with nothing inserted; otherwise the table becomes the old table followed by one new row per queued item, in input order |
| ShoppingList.CartRecipes | backend/api/views.py:207-209 | a recipe is in the caller's cart set exactly when the caller's cart row for it is stored |
| ShoppingList.CartEntries | backend/api/views.py:207-209 | the filtered rows all come from the table and belong to cart recipes |
| ShoppingList.CartEntriesExact | backend/api/views.py:207-209 | the filter keeps each join row of a cart recipe as often as the table holds it, and no other row |
| ShoppingList.Aggregate | backend/api/views.py:210-211 | `.values('ingredient').annotate(sum_amount=Sum('amount'))`: one group per ingredient, in first-occurrence order; `AggregateCorrect` is its partner |
| ShoppingList.AggregateCorrect | backend/api/views.py:210-211 | grouping gives one group per distinct ingredient of the rows, no ingredient twice, and each group's sum is the total of that ingredient's amounts |
| ShoppingList.DistinctCount | backend/api/views.py:210-211 | distinct groups are as many as their ingredients, and no two name the same ingredient |
| ShoppingList.IngredientsOfExact | backend/api/views.py:210 | an ingredient is among the grouped ones exactly when some filtered row names it |
| ShoppingList.Items | backend/api/views.py:212-216 | each item carries its group's sum and the stored name and unit of its ingredient |
| ShoppingList.CartItems | backend/api/views.py:206-217 | the export items of the caller's cart: the aggregated cart rows with the stored names and units |
| ShoppingList.CartItemsCorrect | backend/api/views.py:206-217 | the export has exactly one item per distinct ingredient of the caller's cart recipes, each with its stored name, unit and the sum of its amounts |
| ShoppingList.UncartedRecipes | backend/api/views.py:207-209 | a NULL user test across the reverse relation selects exactly the recipes no cart row names |
| ShoppingList.LineText | backend/api/views.py:222-224 | one line `"{i}. {name} - {sum} {unit}"` (without its newline) |
| ShoppingList.ShoppingListText | backend/api/views.py:219-225 | the header line followed by one numbered line per item; `Render` computes it and `ShoppingListLines` reads it back |
| ShoppingList.Render | backend/api/views.py:219-225 | the accumulating loop produces the header followed by one numbered line per item |
| ShoppingList.BodyLines | backend/api/views.py:220-225 | the numbered lines split back into exactly the lines `"{i}. {name} - {sum} {unit}"`, i from 1 |
| ShoppingList.ShoppingListLines | backend/api/views.py:219-225 | the text has one line more than the items; the first is "Список покупок:", and line i+1 is item i's line, numbered i |
| Serializers.EntriesFor | backend/api/serializers.py:142-146 | one join row per entry, in order, with that entry's ingredient id and amount |
| Serializers.FirstUnknown | backend/api/serializers.py:139-141 | the position where `Ingredient.objects.get` first fails: every id before it is stored, the one at it is not |
| Serializers.WithoutRecipe | backend/api/serializers.py:168 | after `ingredients.clear()` no row of the recipe is left and the rest come from the table |
| Serializers.WithoutTags | backend/api/serializers.py:180 | after `tags.clear()` a tag row remains exactly when it belongs to another recipe |
| Serializers.Patched | backend/api/serializers.py:159-163 | each of name, image, text and cooking_time takes the supplied value when present and keeps the old one otherwise; id, author and date never change |
| Serializers.PatchedKeepsAndSettles | backend/api/serializers.py:159-163 | a patch without those keys keeps the row, and applying a patch twice equals applying it once |
| Serializers.WithoutRecipeHasNone | backend/api/serializers.py:168 | the cleared recipe has no join rows |
| Serializers.WithoutRecipeKeepsOthers | backend/api/serializers.py:168 | clearing one recipe keeps every other recipe's join rows, in order |
| Serializers.EntriesForOwnRecipe | backend/api/serializers.py:142-146 | the created rows all belong to the recipe and to no other |
| Serializers.UpdateReplacesEntries | backend/api/serializers.py:166-176 | after the update the recipe's join rows are exactly those of the supplied list, each with its amount, and no old row is left |
| Serializers.UpdateKeepsOtherEntries | backend/api/serializers.py:166-176 | the update leaves every other recipe's join rows as they were |
| Serializers.CreateGivesEntries | backend/api/serializers.py:136-146 | a new recipe's join rows are exactly one per supplied entry, with its amount |
| Serializers.RetagExact | backend/api/serializers.py:179-183 | after re-tagging the recipe's tag ids are exactly the supplied ones, and other recipes keep theirs |
| Serializers.AddEntries | backend/api/serializers.py:139-146 | the rows before the first unknown ingredient id are created, in order; that id raises DoesNotExist |
| Serializers.AddTags | backend/api/serializers.py:148-151 | the tag loop adds exactly one tag row per supplied tag; the lookup by name finds that tag |
| Serializers.Create | backend/api/serializers.py:130-155 | the recipe row is stored under a fresh id, then the join rows, then the tags; an unknown ingredient stops it with DoesNotExist, leaving the recipe and the rows before it |
| Serializers.Update | backend/api/serializers.py:157-186 | no ingredient list: TypeError with the join rows cleared; an unknown ingredient: DoesNotExist; no tag list: TypeError with tags cleared; otherwise the patched row, the new join rows and exactly the new tags |
| Serializers.SetTags | backend/api/serializers.py:179-183 | the recipe's tag rows become exactly the supplied tags; other tag rows stay |
| Serializers.Save | backend/api/serializers.py:185 | `save()` writes the row and keeps the store's invariant |
| Serializers.GetIsSubscribed | backend/api/serializers.py:21-22 | `check_model` as written: for an authenticated caller, whether the caller follows the user; false for an anonymous one; the code's errors otherwise |
| Serializers.GetIsFavorited | backend/api/serializers.py:92-93 | `check_model` as written: for an authenticated caller, whether the caller's favorite row for the recipe is stored; false for an anonymous one; the code's errors otherwise |
| Serializers.GetIsInShoppingCart | backend/api/serializers.py:95-96 | `check_model` as written: for an authenticated caller, whether the caller's cart row for the recipe is stored; false for an anonymous one; the code's errors otherwise |
| Serializers.UserRepresentation | backend/api/serializers.py:13-22 | the user's email, id, username, first and last name as stored, and `is_subscribed` as `get_is_subscribed` computes it (whether the caller follows the user); it fails exactly when, and as, that flag does |
| Serializers.IngredientsAttribute | backend/api/serializers.py:58-59 | of the two sources in question, the reverse accessor `recipe_ingredients` yields the recipe's join rows and the declared `recipe` raises AttributeError |
| Serializers.IngredientReps | backend/api/serializers.py:40-49 | one item per join row, with that row's ingredient id and amount and the name and measurement unit of the stored ingredient with that id |
| Serializers.TagReps | backend/api/serializers.py:69-74 | the tag records are exactly those of the recipe's tag ids, each as stored |
| Serializers.RepresentationWith | backend/api/serializers.py:64-75 | the fields in declaration order: an author that cannot be represented decides the error; after it, reading the ingredients through `recipe` raises AttributeError; it succeeds exactly through `recipe_ingredients` with every flag computable, and then holds the stored row's fields, the tag records, one item per join row and the flags |
| Serializers.AsWrittenNeverSucceeds | backend/api/serializers.py:58-59 | with `source='recipe'` no recipe can be represented; without a request the author's flag raises KeyError first, and in a request context the failure is AttributeError on `recipe` |
| Serializers.ToRepresentationAsWritten | backend/api/serializers.py:58-75 | `to_representation` with the declared `source='recipe'`; `AsWrittenNeverSucceeds` states its outcome |
| Serializers.ToRepresentation | backend/api/serializers.py:64-75 | in a request context it succeeds; `tags` holds exactly the recipe's tag records, each as stored; `ingredients` one item per join row with its amount and the stored name and unit; name, image, text and cooking time as stored; the author is the recipe's; the flags match the caller's rows |
| Views.AfterToggle | backend/api/views.py:53-72 | a toggle changes at most its own pair: POST leaves it stored, DELETE leaves it absent |
| Views.ToggleStatus | backend/api/views.py:53-72 | POST answers 201 exactly for an absent pair and 400 for a stored one; DELETE answers 204 exactly for a stored pair and 400 for an absent one |
| Views.ToggleSucceedsIffChanges | backend/api/views.py:53-72 | a toggle answers success exactly when it changes the table |
| Views.ToggleUndo | backend/api/views.py:53-72 | POST then DELETE of an absent pair, or DELETE then POST of a stored one, restores the table |
| Views.ToggleRepeatRefused | backend/api/views.py:53-72 | repeating a request changes nothing more and is answered 400 |
| Views.ErrorReply | backend/api/views.py:55-58 | the 400 reply carries `MESSAGES[name][kind]`; a missing key gives 500 with the KeyError |
| Views.ToggleReply | backend/api/views.py:53-72 | 201 carries the created payload, 204 nothing, 400 the creation or deletion message |
| Views.RefusalsCarryMessages | backend/api/views.py:53-72 | for the three message keys every refusal is a 400 carrying that key's message for the verb |
| Views.Toggle | backend/api/views.py:53-72 | the table becomes the toggled table and the reply is the toggle reply |
| Views.HandleAction | backend/api/views.py:45-72 | unknown recipe: 404, nothing changes; other methods: None; a known caller toggles its pair; an anonymous one gets TypeError; with no user a POST hits the NOT NULL column and a DELETE finds nothing |
| Views.ActionGate | backend/api/views.py:138 | the action runs exactly for a permitted POST or DELETE; an unpermitted request gets 401 |
| Views.RecipeToggle | backend/api/views.py:139-198 | the gate answers first with nothing changed; then an unknown recipe gives 404 with nothing changed; then the caller's pair toggles in the one table |
| Views.Favorite | backend/api/views.py:139-167 | the favorites toggle as above; the cart and subscription tables never change |
| Views.ShoppingCart | backend/api/views.py:169-198 | the cart toggle as above; the favorites and subscription tables never change |
| Views.Subscribe | backend/api/views.py:262-300 | an unauthenticated caller gets 401; an unknown user 404 with nothing changed; otherwise the caller's pair toggles, the caller itself included |
| Views.Following | backend/api/views.py:253 | exactly the users `u` whose pair (caller, u) is stored |
| Views.ReadGate | backend/api/views.py:200 | the GET action runs exactly for a permitted GET or HEAD |
| Views.Subscriptions | backend/api/views.py:240-260 | 401 for an unauthenticated caller; otherwise 200 with exactly the users the caller follows |
| Views.DownloadShoppingCart | backend/api/views.py:200-230 | a known caller gets the rendered list of its cart; an anonymous one TypeError; with no user, the list of the recipes in nobody's cart |
| Views.PerformCreate | backend/api/views.py:132-136 | the created recipe's author is the caller, and every stored recipe keeps its row |

## Left out

- HTTP response objects, headers (the Content-Disposition header included), JSON rendering and pagination: a response is a status and an abstract body.
- The minified-recipe and user-with-recipes payloads: their serializers are not part of this model, so a body only names the object it describes.
- The URL router: it registers no viewsets; the views are modelled as if routed.
- Request validation by the serializer fields (`is_valid`, the 400 for bad input): the serializer methods take validated data; tags are then stored Tag objects, which `Create` and `Update` require.
- The race between `exists()` and `create()` under concurrent requests: every call is sequential. `Database.LinkTable.Insert` models the database constraint that decides such a race.
- Transactions: each ORM call takes effect at once, so a failure leaves the writes made before it.
- Token issuance and login (`CustomTokenCreateView`): the logic lives in a library that is not shown.
- Base64 image decoding and storage: an image is an opaque string.
- Reading and parsing the JSON file of the import command, and its success message on stdout: `ImportJson.Handle` takes the parsed items.
- The filter classes (backend/api/filters.py): framework configuration, and their lookups name relations that do not exist.
- The admin configuration and pagination class: framework configuration.
- The `print` calls: debug output.
- The tag and ingredient read-only viewsets and the ingredient name search: framework defaults with no logic of their own.
- Cascading deletes of users, recipes and ingredients: no modelled operation deletes those rows.
- Column length limits, the username character validator and the e-mail format: the model keeps strings unbounded.
- Database integer ranges: ids, amounts and cooking times are unbounded naturals.
- The timestamp of `auto_now_add`: the caller passes it in.
- ShoppingList.CartItemsCorrect: the order of the groups is fixed to first occurrence in the table; facts about the groups hold for any order, but the database's own order is not modelled.
- The body of a HEAD response: it is modelled like the GET response.
- Serializers.TagReps: the tag records come as a set; the order of the `tags` list in the response is not modelled.
- Views.Subscriptions: the users come as a set; the queryset's order and the page split are not modelled.

## Findings

| source | as written | input that shows it | evidently intended | confidence | as-written member | corrected member |
|---|---|---|---|---|---|---|
| backend/api/serializers.py:58-59 | the `ingredients` field reads attribute `recipe` of a recipe; the reverse accessor of the join rows is `recipe_ingredients` (backend/recipes/models.py:140), so a required field fails with AttributeError whenever a recipe is represented | any stored recipe read in a request context | read the join rows through `recipe_ingredients` | not executed | Serializers.AsWrittenNeverSucceeds | Serializers.ToRepresentation |
| backend/api/utilities.py:38-41 | `self.context['request'].user` is read before the guard, so a serializer context without a request raises KeyError | an empty context | a missing request answers false, as the guard on line 41 intends | not executed | Utilities.CheckModelFailsWithoutRequest | Utilities.CheckModelGuarded |
