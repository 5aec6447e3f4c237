/** Identifiers, failure wrappers and the request shape shared by every module. */
module Base {

  type UserId = nat
  type RecipeId = nat
  type IngredientId = nat
  type TagId = nat

  datatype Option<T> = None | Some(value: T)

  /** The Python exceptions the core can raise; an uncaught one becomes an HTTP 500. */
  datatype Error =
    | KeyError(key: string)
    | AttributeError(name: string)
    | TypeError
    | DoesNotExist(model: string)
    | IntegrityError(constraint: string)
    /** Raised by a many-to-many manager of an instance that has no primary key yet. */
    | ValueError

  datatype Result<T> = Ok(value: T) | Err(error: Error)

  /** `request.user`: Django's AnonymousUser, or a stored user. */
  datatype Principal = Anonymous | Known(id: UserId)

  datatype Method = Get | Head | Options | Post | Put | Patch | Delete

  /** The parts of an HTTP request the core reads. `user` is None only when the
      framework is configured without an unauthenticated-user object. */
  datatype Request = Request(verb: Method, user: Option<Principal>)

  /** The HTTP status codes the handlers answer with. */
  datatype Status =
    | Ok200 | Created201 | NoContent204
    | BadRequest400 | Unauthorized401 | NotFound404 | MethodNotAllowed405
    | ServerError500

  predicate IsAuthenticated(user: Option<Principal>)
  {
    user.Some? && user.value.Known?
  }
}
