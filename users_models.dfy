/** The user table and its subscription relation (backend/users/models.py). */
module UsersModels {
  import opened Base

  /** The stored values of the `role` choice field. */
  const RoleUser: string := "user"
  const RoleAdmin: string := "admin"

  datatype UserRow = UserRow(
    id: UserId,
    username: string,
    email: string,
    firstName: string,
    lastName: string,
    role: string,
    password: string)

  /** A freshly created user: every field as given, the role left at its default. */
  function NewUser(id: UserId, username: string, email: string, firstName: string,
                   lastName: string, password: string): (u: UserRow)
    ensures u.role == RoleUser && !IsAdmin(u)
    ensures u.id == id && u.username == username && u.email == email
    ensures u.firstName == firstName && u.lastName == lastName && u.password == password
  {
    UserRow(id, username, email, firstName, lastName, RoleUser, password)
  }

  /** The `is_admin` property. */
  predicate IsAdmin(u: UserRow)
  {
    u.role == RoleAdmin
  }

  /** `is_admin` holds exactly for the admin role, so no other stored role
      (the default one included) grants it. */
  lemma IsAdminOnlyForAdminRole(u: UserRow)
    ensures IsAdmin(u) <==> u.role == RoleAdmin
    ensures u.role == RoleUser ==> !IsAdmin(u)
  {
  }

  /** The `unique=True` constraints on username and email, and the primary key. */
  ghost predicate UsersUnique(users: map<UserId, UserRow>)
  {
    && (forall id :: id in users ==> users[id].id == id)
    && (forall a, b :: a in users && b in users && a != b ==> users[a].username != users[b].username)
    && (forall a, b :: a in users && b in users && a != b ==> users[a].email != users[b].email)
  }

  predicate UsernameTaken(users: map<UserId, UserRow>, username: string)
  {
    exists id :: id in users && users[id].username == username
  }

  predicate EmailTaken(users: map<UserId, UserRow>, email: string)
  {
    exists id :: id in users && users[id].email == email
  }

  /** Adding a row whose username and email are both unused, under a fresh key,
      keeps both constraints. */
  lemma AddUserKeepsUnique(users: map<UserId, UserRow>, u: UserRow)
    requires UsersUnique(users)
    requires u.id !in users
    requires !UsernameTaken(users, u.username) && !EmailTaken(users, u.email)
    ensures UsersUnique(users[u.id := u])
  {
    var users' := users[u.id := u];
    forall a, b | a in users' && b in users' && a != b
      ensures users'[a].username != users'[b].username
      ensures users'[a].email != users'[b].email
    {
      if a == u.id {
        assert users'[b] == users[b];
      } else if b == u.id {
        assert users'[a] == users[a];
      }
    }
  }

  /** `User.__str__`. */
  function UserStr(u: UserRow): (s: string)
  {
    u.username
  }

  /** Usernames are unique, so distinct stored users print differently. */
  lemma UserStrIdentifies(users: map<UserId, UserRow>, a: UserId, b: UserId)
    requires UsersUnique(users) && a in users && b in users && a != b
    ensures UserStr(users[a]) != UserStr(users[b])
  {
  }

  /** `Subscription.__str__`: "{follower} подписан на {followed}". */
  function SubscriptionStr(follower: UserRow, followed: UserRow): (s: string)
    ensures |s| == |follower.username| + |" подписан на "| + |followed.username|
    ensures s[..|follower.username|] == follower.username
    ensures s[|follower.username|..|s| - |followed.username|] == " подписан на "
    ensures s[|s| - |followed.username|..] == followed.username
  {
    UserStr(follower) + " подписан на " + UserStr(followed)
  }
}
