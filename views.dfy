/** The API views (backend/api/views.py): the favorite, shopping-cart and
    subscription toggles, the shopping-list download, the subscription list and
    the recipe author on create. Each view first runs its permission check, then
    the framework's method dispatch, then its own code. */
module Views {
  import opened Base
  import opened RecipesModels
  import opened Database
  import opened Utilities
  import Permissions
  import ShoppingList
  import Serializers

  /** What a response carries. The minified recipe and the user-with-recipes
      payloads are named by the object they describe. */
  datatype Body =
    | Empty
    | Errors(message: string)
    | RecipeMinified(recipe: RecipeId)
    | UserWithRecipes(user: UserId)
    | Users(ids: set<UserId>)
    | Attachment(content: string)
    | Raised(error: Error)

  datatype Response = Response(status: Status, body: Body)

  // ---- the toggle, as a specification ----

  /** The link table after a POST or DELETE on pair `l`: only `l` may change; POST
      leaves it stored and DELETE leaves it absent. */
  function AfterToggle(rows: set<Link>, verb: Method, l: Link): (r: set<Link>)
    ensures forall x :: x != l ==> (x in r <==> x in rows)
    ensures verb == Post ==> l in r
    ensures verb == Delete ==> l !in r
    ensures verb != Post && verb != Delete ==> r == rows
  {
    if verb == Post then rows + {l} else if verb == Delete then rows - {l} else rows
  }

  /** The status of a POST or DELETE on pair `l`. */
  function ToggleStatus(rows: set<Link>, verb: Method, l: Link): (s: Status)
    requires verb == Post || verb == Delete
    ensures verb == Post ==> (s == Created201 <==> l !in rows) && (s == BadRequest400 <==> l in rows)
    ensures verb == Delete ==> (s == NoContent204 <==> l in rows) && (s == BadRequest400 <==> l !in rows)
  {
    if verb == Post then (if l in rows then BadRequest400 else Created201)
    else if l in rows then NoContent204 else BadRequest400
  }

  /** A toggle succeeds exactly when it changes the table, and a refused toggle
      changes nothing. */
  lemma ToggleSucceedsIffChanges(rows: set<Link>, verb: Method, l: Link)
    requires verb == Post || verb == Delete
    ensures ToggleStatus(rows, verb, l) != BadRequest400 <==> AfterToggle(rows, verb, l) != rows
  {
    if verb == Post && l !in rows {
      assert l in AfterToggle(rows, verb, l);
    } else if verb == Delete && l in rows {
      assert l !in AfterToggle(rows, verb, l);
    }
  }

  /** Adding an absent pair and then deleting it restores the table; deleting a
      stored pair and then adding it back restores it too. */
  lemma ToggleUndo(rows: set<Link>, l: Link)
    ensures l !in rows ==> AfterToggle(AfterToggle(rows, Post, l), Delete, l) == rows
    ensures l in rows ==> AfterToggle(AfterToggle(rows, Delete, l), Post, l) == rows
  {
  }

  /** Repeating a request has no further effect, and the repeat is refused. */
  lemma ToggleRepeatRefused(rows: set<Link>, verb: Method, l: Link)
    requires verb == Post || verb == Delete
    ensures AfterToggle(AfterToggle(rows, verb, l), verb, l) == AfterToggle(rows, verb, l)
    ensures ToggleStatus(AfterToggle(rows, verb, l), verb, l) == BadRequest400
  {
  }

  /** The 400 reply with `MESSAGES[errorName][kind]`; a missing key raises (500). */
  function ErrorReply(errorName: string, kind: string): (r: Response)
    ensures Message(errorName, kind).Ok? ==> r == Response(BadRequest400, Errors(Message(errorName, kind).value))
    ensures Message(errorName, kind).Err? ==> r == Response(ServerError500, Raised(Message(errorName, kind).error))
  {
    match Message(errorName, kind)
    case Ok(m) => Response(BadRequest400, Errors(m))
    case Err(e) => Response(ServerError500, Raised(e))
  }

  /** The reply to a toggle by a known user on pair `l` of `rows`. */
  function ToggleReply(rows: set<Link>, verb: Method, l: Link, errorName: string, created: Body): (r: Response)
    requires verb == Post || verb == Delete
    ensures ToggleStatus(rows, verb, l) == Created201 ==> r == Response(Created201, created)
    ensures ToggleStatus(rows, verb, l) == NoContent204 ==> r == Response(NoContent204, Empty)
    ensures ToggleStatus(rows, verb, l) == BadRequest400 ==>
      r == ErrorReply(errorName, if verb == Post then "cr_error" else "del_error")
  {
    match ToggleStatus(rows, verb, l)
    case Created201 => Response(Created201, created)
    case NoContent204 => Response(NoContent204, Empty)
    case _ => ErrorReply(errorName, if verb == Post then "cr_error" else "del_error")
  }

  /** For the three actions of the message table, every refused toggle is a 400
      carrying that action's message. */
  lemma RefusalsCarryMessages(rows: set<Link>, verb: Method, l: Link, errorName: string, created: Body)
    requires verb == Post || verb == Delete
    requires errorName == "favorite" || errorName == "shopping_cart" || errorName == "subscribe"
    requires ToggleStatus(rows, verb, l) == BadRequest400
    ensures ToggleReply(rows, verb, l, errorName, created).status == BadRequest400
    ensures ToggleReply(rows, verb, l, errorName, created).body ==
      Errors(Messages[errorName][if verb == Post then "cr_error" else "del_error"])
  {
    MessagesComplete();
  }

  // ---- the toggle, as the views run it ----

  /** The POST / DELETE branches shared by every toggle view: the existence check,
      then the insert or the lookup-and-delete. */
  method Toggle(table: LinkTable, verb: Method, user: UserId, target: nat, errorName: string, created: Body)
    returns (r: Response)
    requires verb == Post || verb == Delete
    modifies table
    ensures table.rows == AfterToggle(old(table.rows), verb, Link(user, target))
    ensures r == ToggleReply(old(table.rows), verb, Link(user, target), errorName, created)
  {
    var status: Status;
    if verb == Post {
      status := table.Post(user, target);
    } else {
      status := table.Delete(user, target);
    }
    if status == BadRequest400 {
      r := ErrorReply(errorName, if verb == Post then "cr_error" else "del_error");
    } else if status == Created201 {
      r := Response(Created201, created);
    } else {
      r := Response(NoContent204, Empty);
    }
  }

  /** `handle_action` (lines 45-72), which no view calls: an unknown recipe is 404;
      a POST or DELETE toggles the caller's pair; any other method falls off the
      end and returns None. An anonymous user makes the ORM lookup raise TypeError;
      with no user object at all the lookups match no row, so a POST inserts a row
      without a user (refused by the NOT NULL column) and a DELETE finds nothing. */
  method HandleAction(db: Db, table: LinkTable, request: Request, pk: RecipeId, errorName: string)
    returns (r: Option<Response>)
    modifies table
    ensures pk !in db.recipes ==> r == Some(Response(NotFound404, Empty)) && table.rows == old(table.rows)
    ensures pk in db.recipes && request.verb != Post && request.verb != Delete ==>
      r == None && table.rows == old(table.rows)
    ensures pk in db.recipes && (request.verb == Post || request.verb == Delete) ==>
      match request.user
      case Some(Known(u)) =>
        && table.rows == AfterToggle(old(table.rows), request.verb, Link(u, pk))
        && r == Some(ToggleReply(old(table.rows), request.verb, Link(u, pk), errorName, RecipeMinified(pk)))
      case Some(Anonymous) =>
        r == Some(Response(ServerError500, Raised(TypeError))) && table.rows == old(table.rows)
      case None =>
        && table.rows == old(table.rows)
        && r == Some(if request.verb == Post then Response(ServerError500, Raised(IntegrityError("user_id")))
                     else ErrorReply(errorName, "del_error"))
  {
    if pk !in db.recipes {
      return Some(Response(NotFound404, Empty));
    }
    if request.verb != Post && request.verb != Delete {
      return None;
    }
    match request.user {
      case Some(Known(u)) =>
        var reply := Toggle(table, request.verb, u, pk, errorName, RecipeMinified(pk));
        r := Some(reply);
      case Some(Anonymous) =>
        r := Some(Response(ServerError500, Raised(TypeError)));
      case None =>
        r := Some(if request.verb == Post then Response(ServerError500, Raised(IntegrityError("user_id")))
                  else ErrorReply(errorName, "del_error"));
    }
  }

  /** The framework's handling before a POST/DELETE action runs: the permission
      check (401), OPTIONS answered by the metadata handler, and 405 for any
      other method the action does not accept. None means the action runs. */
  function ActionGate(permitted: bool, verb: Method): (r: Option<Response>)
    ensures r.None? <==> permitted && (verb == Post || verb == Delete)
    ensures !permitted ==> r == Some(Response(Unauthorized401, Empty))
  {
    if !permitted then Some(Response(Unauthorized401, Empty))
    else if verb == Options then Some(Response(Ok200, Empty))
    else if verb != Post && verb != Delete then Some(Response(MethodNotAllowed405, Empty))
    else None
  }

  /** `RecipeViewSet.favorite` and `.shopping_cart` (lines 139-198) share this body:
      a write needs an authenticated caller, an unknown recipe is 404 before any
      table is touched, and only the caller's pair in the one table changes. */
  method RecipeToggle(db: Db, table: LinkTable, request: Request, pk: RecipeId, errorName: string)
    returns (r: Response)
    requires db.Valid() && (table == db.favorites || table == db.carts)
    modifies table
    ensures ActionGate(Permissions.HasPermission(request), request.verb).Some? ==>
      r == ActionGate(Permissions.HasPermission(request), request.verb).value && table.rows == old(table.rows)
    ensures ActionGate(Permissions.HasPermission(request), request.verb).None? && pk !in db.recipes ==>
      r == Response(NotFound404, Empty) && table.rows == old(table.rows)
    ensures ActionGate(Permissions.HasPermission(request), request.verb).None? && pk in db.recipes ==>
      var l := Link(request.user.value.id, pk);
      && table.rows == AfterToggle(old(table.rows), request.verb, l)
      && r == ToggleReply(old(table.rows), request.verb, l, errorName, RecipeMinified(pk))
  {
    var gate := ActionGate(Permissions.HasPermission(request), request.verb);
    if gate.Some? {
      return gate.value;
    }
    if pk !in db.recipes {
      return Response(NotFound404, Empty);
    }
    r := Toggle(table, request.verb, request.user.value.id, pk, errorName, RecipeMinified(pk));
  }

  /** `RecipeViewSet.favorite`: the shopping cart and the subscriptions are untouched. */
  method Favorite(db: Db, request: Request, pk: RecipeId) returns (r: Response)
    requires db.Valid()
    modifies db.favorites
    ensures db.carts.rows == old(db.carts.rows) && db.subscriptions.rows == old(db.subscriptions.rows)
    ensures ActionGate(Permissions.HasPermission(request), request.verb).None? && pk in db.recipes ==>
      var l := Link(request.user.value.id, pk);
      && db.favorites.rows == AfterToggle(old(db.favorites.rows), request.verb, l)
      && r == ToggleReply(old(db.favorites.rows), request.verb, l, "favorite", RecipeMinified(pk))
    ensures ActionGate(Permissions.HasPermission(request), request.verb).Some? || pk !in db.recipes ==>
      db.favorites.rows == old(db.favorites.rows) && r.status != Created201 && r.status != NoContent204
  {
    r := RecipeToggle(db, db.favorites, request, pk, "favorite");
  }

  /** `RecipeViewSet.shopping_cart`: the favorites and the subscriptions are untouched. */
  method ShoppingCart(db: Db, request: Request, pk: RecipeId) returns (r: Response)
    requires db.Valid()
    modifies db.carts
    ensures db.favorites.rows == old(db.favorites.rows) && db.subscriptions.rows == old(db.subscriptions.rows)
    ensures ActionGate(Permissions.HasPermission(request), request.verb).None? && pk in db.recipes ==>
      var l := Link(request.user.value.id, pk);
      && db.carts.rows == AfterToggle(old(db.carts.rows), request.verb, l)
      && r == ToggleReply(old(db.carts.rows), request.verb, l, "shopping_cart", RecipeMinified(pk))
    ensures ActionGate(Permissions.HasPermission(request), request.verb).Some? || pk !in db.recipes ==>
      db.carts.rows == old(db.carts.rows) && r.status != Created201 && r.status != NoContent204
  {
    r := RecipeToggle(db, db.carts, request, pk, "shopping_cart");
  }

  /** `CustomUserViewSet.subscribe` (lines 267-300): the action demands an
      authenticated caller; an unknown user id is 404; otherwise the caller's pair
      toggles. Nothing refuses a caller subscribing to themselves. */
  method Subscribe(db: Db, request: Request, id: UserId) returns (r: Response)
    requires db.Valid()
    modifies db.subscriptions
    ensures db.favorites.rows == old(db.favorites.rows) && db.carts.rows == old(db.carts.rows)
    ensures ActionGate(IsAuthenticated(request.user), request.verb).Some? ==>
      r == ActionGate(IsAuthenticated(request.user), request.verb).value &&
      db.subscriptions.rows == old(db.subscriptions.rows)
    ensures ActionGate(IsAuthenticated(request.user), request.verb).None? && id !in db.users ==>
      r == Response(NotFound404, Empty) && db.subscriptions.rows == old(db.subscriptions.rows)
    ensures ActionGate(IsAuthenticated(request.user), request.verb).None? && id in db.users ==>
      var l := Link(request.user.value.id, id);
      && db.subscriptions.rows == AfterToggle(old(db.subscriptions.rows), request.verb, l)
      && r == ToggleReply(old(db.subscriptions.rows), request.verb, l, "subscribe", UserWithRecipes(id))
  {
    var gate := ActionGate(IsAuthenticated(request.user), request.verb);
    if gate.Some? {
      return gate.value;
    }
    if id !in db.users {
      return Response(NotFound404, Empty);
    }
    r := Toggle(db.subscriptions, request.verb, request.user.value.id, id, "subscribe", UserWithRecipes(id));
  }

  /** `User.objects.filter(subscribing__user=user)`: the users the caller follows. */
  function Following(db: Db, caller: UserId): (r: set<UserId>)
    reads db, db.subscriptions
    ensures forall u :: u in r <==> u in db.users && Link(caller, u) in db.subscriptions.rows
  {
    set u | u in db.users && Link(caller, u) in db.subscriptions.rows
  }

  /** The framework's handling before a GET action runs (HEAD is served by GET). */
  function ReadGate(permitted: bool, verb: Method): (r: Option<Response>)
    ensures r.None? <==> permitted && (verb == Get || verb == Head)
    ensures !permitted ==> r == Some(Response(Unauthorized401, Empty))
  {
    if !permitted then Some(Response(Unauthorized401, Empty))
    else if verb == Options then Some(Response(Ok200, Empty))
    else if verb != Get && verb != Head then Some(Response(MethodNotAllowed405, Empty))
    else None
  }

  /** `CustomUserViewSet.subscriptions` (lines 246-260): for an authenticated caller,
      exactly the users they follow; anyone else gets 401. */
  function Subscriptions(db: Db, request: Request): (r: Response)
    reads db, db.subscriptions
    ensures !IsAuthenticated(request.user) ==> r == Response(Unauthorized401, Empty)
    ensures ReadGate(IsAuthenticated(request.user), request.verb).None? ==>
      && r.status == Ok200 && r.body.Users?
      && forall u :: u in r.body.ids <==> u in db.users && Link(request.user.value.id, u) in db.subscriptions.rows
  {
    match ReadGate(IsAuthenticated(request.user), request.verb)
    case Some(reply) => reply
    case None => Response(Ok200, Users(Following(db, request.user.value.id)))
  }

  /** `RecipeViewSet.download_shopping_cart` (lines 200-230). The view's permission
      lets a read through for anyone. For a known caller the content is the list of
      the caller's cart; filtering by an anonymous user raises TypeError; with no
      user object the filter becomes a NULL test across the reverse relation, which
      matches the join rows of every recipe that is in nobody's cart. */
  method DownloadShoppingCart(db: Db, request: Request) returns (r: Response)
    requires db.Valid()
    ensures ReadGate(Permissions.HasPermission(request), request.verb).Some? ==>
      r == ReadGate(Permissions.HasPermission(request), request.verb).value
    ensures ReadGate(Permissions.HasPermission(request), request.verb).None? ==>
      match request.user
      case Some(Known(u)) =>
        r == Response(Ok200, Attachment(ShoppingList.ShoppingListText(
               ShoppingList.CartItems(db.entries, db.ingredients, db.carts.rows, u))))
      case Some(Anonymous) => r == Response(ServerError500, Raised(TypeError))
      case None =>
        r == Response(Ok200, Attachment(ShoppingList.ShoppingListText(ShoppingList.RecipesItems(
               db.entries, db.ingredients, ShoppingList.UncartedRecipes(db.recipes.Keys, db.carts.rows)))))
  {
    var gate := ReadGate(Permissions.HasPermission(request), request.verb);
    if gate.Some? {
      return gate.value;
    }
    match request.user {
      case Some(Known(u)) =>
        var items := ShoppingList.CartItems(db.entries, db.ingredients, db.carts.rows, u);
        var content := ShoppingList.Render(items);
        r := Response(Ok200, Attachment(content));
      case Some(Anonymous) =>
        r := Response(ServerError500, Raised(TypeError));
      case None =>
        var items := ShoppingList.RecipesItems(db.entries, db.ingredients,
                                               ShoppingList.UncartedRecipes(db.recipes.Keys, db.carts.rows));
        var content := ShoppingList.Render(items);
        r := Response(Ok200, Attachment(content));
    }
  }

  /** `RecipeViewSet.perform_create` (lines 132-136): the recipe is saved with the
      caller as its author. */
  method PerformCreate(db: Db, request: Request, data: Serializers.RecipeData, now: int)
    returns (r: Result<RecipeId>)
    requires db.Valid() && IsAuthenticated(request.user) && request.user.value.id in db.users
    requires forall k :: 0 <= k < |data.tags| ==> data.tags[k] in db.tags
    modifies db`recipes, db`nextRecipeId, db`entries, db`recipeTags
    ensures db.Valid()
    ensures var rid := old(db.nextRecipeId);
      && rid !in old(db.recipes) && rid in db.recipes
      && db.recipes[rid].author == request.user.value.id
      && (r.Ok? ==> r.value == rid)
      && (forall id :: id in old(db.recipes) ==> id in db.recipes && db.recipes[id] == old(db.recipes)[id])
  {
    r := Serializers.Create(db, request.user.value.id, data, now);
  }
}
