/** The relational store as in-memory tables: the rows of every model the core
    touches, the constraints the database enforces, and the ORM calls the core
    makes on them (`create`, `get(...).delete()`, `filter(...).exists()`). */
module Database {
  import opened Base
  import opened UsersModels
  import opened RecipesModels

  /** A row of Favorite or ShoppingCart (`user`, `recipe`) or of Subscription
      (`user`, `subscribing`): the user and the thing the link points at. */
  datatype Link = Link(user: UserId, target: nat)

  /** A link table with its `UniqueConstraint` over the pair (backend/recipes/models.py,
      backend/users/models.py). Being a set, it holds each pair at most once. */
  class LinkTable {
    var rows: set<Link>
    /** The model's class name, reported by `Model.DoesNotExist`. */
    const model: string
    /** The constraint's name, reported when a duplicate insert is refused. */
    const constraint: string

    constructor (model: string, constraint: string)
      ensures rows == {} && this.model == model && this.constraint == constraint
    {
      rows := {};
      this.model := model;
      this.constraint := constraint;
    }

    /** `Model.objects.filter(user=user, <field>=target).exists()`. */
    predicate Exists(user: UserId, target: nat)
      reads this
    {
      Link(user, target) in rows
    }

    /** `Model.objects.create(...)`: the database refuses a pair that is already
        stored with an IntegrityError naming the constraint. */
    method Insert(l: Link) returns (r: Result<()>)
      modifies this
      ensures l in old(rows) ==> r == Err(IntegrityError(constraint)) && rows == old(rows)
      ensures l !in old(rows) ==> r == Ok(()) && rows == old(rows) + {l}
    {
      if l in rows {
        r := Err(IntegrityError(constraint));
      } else {
        rows := rows + {l};
        r := Ok(());
      }
    }

    /** `Model.objects.get(...)` followed by `.delete()`: DoesNotExist when the
        pair is not stored. */
    method Remove(l: Link) returns (r: Result<()>)
      modifies this
      ensures l in old(rows) ==> r == Ok(()) && rows == old(rows) - {l}
      ensures l !in old(rows) ==> r == Err(DoesNotExist(model)) && rows == old(rows)
    {
      if l in rows {
        rows := rows - {l};
        r := Ok(());
      } else {
        r := Err(DoesNotExist(model));
      }
    }

    /** The POST branch of the toggle (backend/api/views.py:53-62): an existing pair
        is refused with 400 and nothing changes; otherwise exactly that pair is
        added and the answer is 201. The database constraint is never reached. */
    method Post(user: UserId, target: nat) returns (status: Status)
      modifies this
      ensures Link(user, target) in old(rows) ==> status == BadRequest400 && rows == old(rows)
      ensures Link(user, target) !in old(rows) ==>
        status == Created201 && rows == old(rows) + {Link(user, target)}
    {
      if Exists(user, target) {
        status := BadRequest400;
      } else {
        var r := Insert(Link(user, target));
        assert r.Ok?;
        status := Created201;
      }
    }

    /** The DELETE branch of the toggle (backend/api/views.py:63-72): a stored pair
        is removed with 204; a missing one is answered with 400 and nothing changes. */
    method Delete(user: UserId, target: nat) returns (status: Status)
      modifies this
      ensures Link(user, target) in old(rows) ==>
        status == NoContent204 && rows == old(rows) - {Link(user, target)}
      ensures Link(user, target) !in old(rows) ==> status == BadRequest400 && rows == old(rows)
    {
      var r := Remove(Link(user, target));
      status := if r.Ok? then NoContent204 else BadRequest400;
    }
  }

  /** The ids of an ingredient table. */
  function IngredientIds(rows: seq<IngredientRow>): set<IngredientId>
  {
    set k | 0 <= k < |rows| :: rows[k].id
  }

  /** `Ingredient.objects.get(id=id)`, as an Option: the first row with that id. */
  function FindIngredient(rows: seq<IngredientRow>, id: IngredientId): (r: Option<IngredientRow>)
    ensures r.Some? <==> id in IngredientIds(rows)
    ensures r.Some? ==> r.value.id == id && r.value in rows
  {
    if rows == [] then None
    else if rows[0].id == id then Some(rows[0])
    else
      var r := FindIngredient(rows[1..], id);
      assert IngredientIds(rows) == {rows[0].id} + IngredientIds(rows[1..]) by {
        assert forall k :: 0 < k < |rows| ==> rows[k] == rows[1..][k - 1];
      }
      r
  }

  /** The primary keys of the ingredient table are distinct and below the counter
      the next insert draws from. */
  ghost predicate IngredientsValid(rows: seq<IngredientRow>, nextId: nat)
  {
    && (forall k :: 0 <= k < |rows| ==> rows[k].id < nextId)
    && (forall j, k :: 0 <= j < k < |rows| ==> rows[j].id != rows[k].id)
  }

  /** Every join row refers to a stored ingredient (the foreign key to Ingredient). */
  predicate EntriesHaveIngredients(entries: seq<IngredientInRecipe>, ingredients: seq<IngredientRow>)
  {
    forall k :: 0 <= k < |entries| ==> entries[k].ingredient in IngredientIds(ingredients)
  }

  /** Both foreign keys of the join rows hold. */
  ghost predicate EntriesValid(entries: seq<IngredientInRecipe>, ingredients: seq<IngredientRow>,
                               recipes: map<RecipeId, RecipeRow>)
  {
    && EntriesHaveIngredients(entries, ingredients)
    && forall k :: 0 <= k < |entries| ==> entries[k].recipe in recipes
  }

  ghost predicate UsersValid(users: map<UserId, UserRow>, nextId: nat)
  {
    UsersUnique(users) && forall id :: id in users ==> id < nextId
  }

  ghost predicate TagsValid(tags: map<TagId, TagRow>, nextId: nat)
  {
    TagsUnique(tags) && forall id :: id in tags ==> id < nextId
  }

  /** Recipe keys are below the counter and name their row; every author is stored. */
  ghost predicate RecipesValid(recipes: map<RecipeId, RecipeRow>, nextId: nat, users: map<UserId, UserRow>)
  {
    forall id :: id in recipes ==> id < nextId && recipes[id].id == id && recipes[id].author in users
  }

  /** Both foreign keys of the recipe-tag rows hold. */
  ghost predicate RecipeTagsValid(recipeTags: set<RecipeTag>, recipes: map<RecipeId, RecipeRow>,
                                  tags: map<TagId, TagRow>)
  {
    forall rt :: rt in recipeTags ==> rt.recipe in recipes && rt.tag in tags
  }

  /** Appending a join row whose ingredient and recipe are stored keeps both foreign keys. */
  lemma EntriesValidSnoc(entries: seq<IngredientInRecipe>, ingredients: seq<IngredientRow>,
                         recipes: map<RecipeId, RecipeRow>, e: IngredientInRecipe)
    requires EntriesValid(entries, ingredients, recipes)
    requires e.ingredient in IngredientIds(ingredients) && e.recipe in recipes
    ensures EntriesValid(entries + [e], ingredients, recipes)
  {
    assert forall k :: 0 <= k < |entries| ==> (entries + [e])[k] == entries[k];
  }

  /** The whole store. */
  class Db {
    var users: map<UserId, UserRow>
    var nextUserId: nat
    var tags: map<TagId, TagRow>
    var nextTagId: nat
    var ingredients: seq<IngredientRow>
    var nextIngredientId: nat
    var recipes: map<RecipeId, RecipeRow>
    var nextRecipeId: nat
    var entries: seq<IngredientInRecipe>
    var recipeTags: set<RecipeTag>
    const favorites: LinkTable
    const carts: LinkTable
    const subscriptions: LinkTable

    /** The store invariant: keys, unique constraints and foreign keys of
        every table, each stated over the tables it relates. */
    ghost predicate Valid()
      reads this
    {
      && favorites != carts && favorites != subscriptions && carts != subscriptions
      && UsersValid(users, nextUserId)
      && TagsValid(tags, nextTagId)
      && IngredientsValid(ingredients, nextIngredientId)
      && RecipesValid(recipes, nextRecipeId, users)
      && EntriesValid(entries, ingredients, recipes)
      && RecipeTagsValid(recipeTags, recipes, tags)
    }

    constructor ()
      ensures Valid() && fresh(favorites) && fresh(carts) && fresh(subscriptions)
      ensures users == map[] && tags == map[] && ingredients == [] && recipes == map[]
      ensures entries == [] && recipeTags == {}
      ensures favorites.rows == {} && carts.rows == {} && subscriptions.rows == {}
      ensures favorites.model == "Favorite" && favorites.constraint == "unique_favorite"
      ensures carts.model == "ShoppingCart" && carts.constraint == "unique_shopping_cart"
      ensures subscriptions.model == "Subscription" && subscriptions.constraint == "unique_subscription"
    {
      users, nextUserId := map[], 0;
      tags, nextTagId := map[], 0;
      ingredients, nextIngredientId := [], 0;
      recipes, nextRecipeId := map[], 0;
      entries, recipeTags := [], {};
      favorites := new LinkTable("Favorite", "unique_favorite");
      carts := new LinkTable("ShoppingCart", "unique_shopping_cart");
      subscriptions := new LinkTable("Subscription", "unique_subscription");
    }

    /** `User.objects.create(...)`: username and email must be unused (each is
        `unique=True`), and the role takes its default. */
    method CreateUser(username: string, email: string, firstName: string, lastName: string,
                      password: string) returns (r: Result<UserId>)
      requires Valid()
      modifies this`users, this`nextUserId
      ensures Valid()
      ensures UsernameTaken(old(users), username) ==>
        r == Err(IntegrityError("username")) && users == old(users)
      ensures !UsernameTaken(old(users), username) && EmailTaken(old(users), email) ==>
        r == Err(IntegrityError("email")) && users == old(users)
      ensures !UsernameTaken(old(users), username) && !EmailTaken(old(users), email) ==>
        && r.Ok? && r.value !in old(users)
        && users == old(users)[r.value := NewUser(r.value, username, email, firstName, lastName, password)]
    {
      if UsernameTaken(users, username) {
        r := Err(IntegrityError("username"));
      } else if EmailTaken(users, email) {
        r := Err(IntegrityError("email"));
      } else {
        var id := nextUserId;
        var u := NewUser(id, username, email, firstName, lastName, password);
        AddUserKeepsUnique(users, u);
        users := users[id := u];
        nextUserId := nextUserId + 1;
        r := Ok(id);
      }
    }

    /** `Tag.objects.create(...)`: name, color and slug must each be unused. */
    method CreateTag(name: string, color: string, slug: string) returns (r: Result<TagId>)
      requires Valid()
      modifies this`tags, this`nextTagId
      ensures Valid()
      ensures (exists id :: id in old(tags) &&
                 (old(tags)[id].name == name || old(tags)[id].color == color || old(tags)[id].slug == slug)) ==>
        r.Err? && r.error.IntegrityError? && tags == old(tags)
      ensures (forall id :: id in old(tags) ==>
                 old(tags)[id].name != name && old(tags)[id].color != color && old(tags)[id].slug != slug) ==>
        && r.Ok? && r.value !in old(tags)
        && tags == old(tags)[r.value := TagRow(r.value, name, color, slug)]
    {
      if exists id :: id in tags && tags[id].name == name {
        r := Err(IntegrityError("name"));
      } else if exists id :: id in tags && tags[id].color == color {
        r := Err(IntegrityError("color"));
      } else if exists id :: id in tags && tags[id].slug == slug {
        r := Err(IntegrityError("slug"));
      } else {
        var id := nextTagId;
        var t := TagRow(id, name, color, slug);
        AddTagKeepsUnique(tags, t);
        tags := tags[id := t];
        nextTagId := nextTagId + 1;
        r := Ok(id);
      }
    }
  }
}
