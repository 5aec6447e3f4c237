/** The author-or-read-only access rule (backend/api/permissions.py). */
module Permissions {
  import opened Base

  /** DRF's SAFE_METHODS. */
  predicate IsSafe(m: Method)
  {
    m == Get || m == Head || m == Options
  }

  /** `has_object_permission`: a safe method is always allowed; any other only
      when the object's author is the requesting user. */
  function HasObjectPermission(request: Request, author: UserId): (r: bool)
    ensures IsSafe(request.verb) ==> r
    ensures !IsSafe(request.verb) ==> (r <==> request.user == Some(Known(author)))
  {
    IsSafe(request.verb) || request.user == Some(Known(author))
  }

  /** `has_permission`: a safe method is always allowed, even anonymously; any
      other needs a present, authenticated user. */
  function HasPermission(request: Request): (r: bool)
    ensures IsSafe(request.verb) ==> r
    ensures !IsSafe(request.verb) ==> (r <==> IsAuthenticated(request.user))
  {
    IsSafe(request.verb) || (request.user.Some? && request.user.value.Known?)
  }

  /** Both levels together, as DRF applies them to an object view: reads pass,
      writes pass exactly for the author. */
  function Allowed(request: Request, author: UserId): (r: bool)
    ensures r <==> IsSafe(request.verb) || request.user == Some(Known(author))
  {
    HasPermission(request) && HasObjectPermission(request, author)
  }

  /** An unauthenticated write is refused at the view level, whoever the author is. */
  lemma UnauthenticatedWriteDenied(request: Request, author: UserId)
    requires !IsSafe(request.verb) && !IsAuthenticated(request.user)
    ensures !HasPermission(request) && !Allowed(request, author)
  {
  }

  /** An authenticated non-author passes the view check but not the object check. */
  lemma NonAuthorWriteDenied(request: Request, author: UserId)
    requires !IsSafe(request.verb) && IsAuthenticated(request.user)
    requires request.user.value.id != author
    ensures HasPermission(request) && !HasObjectPermission(request, author)
  {
  }
}
