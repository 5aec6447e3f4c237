/** The error-message table and the "is linked" check of the serializers
    (backend/api/utilities.py). */
module Utilities {
  import opened Base
  import opened Database

  /** The message table, keyed by action and then by "cr_error" / "del_error". */
  const Messages: map<string, map<string, string>> := map[
    "shopping_cart" := map[
      "cr_error" := "Ошибка добавления в список покупок. Рецепт уже есть в списке.",
      "del_error" := "Ошибка удаления из списка покупок. Рецепт не найден в списке."],
    "favorite" := map[
      "cr_error" := "Ошибка добавления в список избранного. Рецепт уже есть в списке.",
      "del_error" := "Ошибка удаления из списка избранного. Рецепт не найден в списке."],
    "subscribe" := map[
      "cr_error" := "Ошибка добавления в список избранного. Рецепт уже есть в списке.",
      "del_error" := "Ошибка удаления из списка избранного. Рецепт не найден в списке."]]

  /** `MESSAGES[action][kind]`, failing with KeyError on a missing key. */
  function Message(action: string, kind: string): (r: Result<string>)
    ensures r.Ok? <==> action in Messages && kind in Messages[action]
    ensures r.Ok? ==> r.value == Messages[action][kind]
    ensures action !in Messages ==> r == Err(KeyError(action))
    ensures action in Messages && kind !in Messages[action] ==> r == Err(KeyError(kind))
  {
    if action !in Messages then Err(KeyError(action))
    else if kind !in Messages[action] then Err(KeyError(kind))
    else Ok(Messages[action][kind])
  }

  /** Each of the three actions has both a creation and a deletion message. */
  lemma MessagesComplete()
    ensures Message("shopping_cart", "cr_error").Ok? && Message("shopping_cart", "del_error").Ok?
    ensures Message("favorite", "cr_error").Ok? && Message("favorite", "del_error").Ok?
    ensures Message("subscribe", "cr_error").Ok? && Message("subscribe", "del_error").Ok?
  {
  }

  /** The subscription messages are word for word those of the favorites list. */
  lemma SubscribeMessagesRepeatFavorite()
    ensures Messages["subscribe"] == Messages["favorite"]
  {
  }

  /** The serializer context: the values stored under each key; a key may hold None. */
  type Context = map<string, Option<Request>>

  /** `check_model` as written: `self.context['request'].user` is read before the
      guard, so a context without "request" raises KeyError and one whose request
      is None raises AttributeError; an unauthenticated user gives false; an
      authenticated one gives whether the (user, obj) row exists. */
  function CheckModel(context: Context, rows: set<Link>, obj: nat): (r: Result<bool>)
    ensures "request" !in context ==> r == Err(KeyError("request"))
    ensures "request" in context && context["request"].None? ==> r == Err(AttributeError("user"))
    ensures "request" in context && context["request"].Some? ==>
      var user := context["request"].value.user;
      && (user.None? ==> r == Err(AttributeError("is_authenticated")))
      && (user == Some(Anonymous) ==> r == Ok(false))
      && (IsAuthenticated(user) ==> r == Ok(Link(user.value.id, obj) in rows))
  {
    if "request" !in context then Err(KeyError("request"))
    else match context["request"]
      case None => Err(AttributeError("user"))
      case Some(request) =>
        match request.user
        case None => Err(AttributeError("is_authenticated"))
        case Some(Anonymous) => Ok(false)
        case Some(Known(user)) => Ok(Link(user, obj) in rows)
  }

  /** `check_model` as its guard intends: the user is read from the request
      fetched with `.get`, so a missing or None request gives false. */
  function CheckModelGuarded(context: Context, rows: set<Link>, obj: nat): (r: Result<bool>)
    ensures ("request" !in context || context["request"].None?) ==> r == Ok(false)
    ensures "request" in context && context["request"].Some? ==> r == CheckModel(context, rows, obj)
    ensures r.Ok? && r.value ==>
      exists user :: Link(user, obj) in rows && context["request"].value.user == Some(Known(user))
  {
    if "request" !in context then Ok(false)
    else match context["request"]
      case None => Ok(false)
      case Some(request) =>
        match request.user
        case None => Err(AttributeError("is_authenticated"))
        case Some(Anonymous) => Ok(false)
        case Some(Known(user)) => Ok(Link(user, obj) in rows)
  }

  /** The two readings differ on the empty context: the code raises, the guard
      meant to answer false. */
  lemma CheckModelFailsWithoutRequest(rows: set<Link>, obj: nat)
    ensures CheckModel(map[], rows, obj) == Err(KeyError("request"))
    ensures CheckModelGuarded(map[], rows, obj) == Ok(false)
  {
  }
}
