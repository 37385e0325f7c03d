/**
 * The user handlers: registration, fetch, partial update (including a new
 * password) and delete. Users are answered with `UserOut`, a projection of
 * the row without its password hash.
 */
module UserRoutes {
  import opened Common
  import opened Entities
  import opened Tables
  import opened ErrorShape
  import opened Services
  import opened Auth

  datatype CreateUserReq = CreateUserReq(username: string, email: string, password: string)

  datatype UpdateUserReq = UpdateUserReq(username: Option<string>, email: Option<string>, password: Option<string>)

  /** The public view of a user. */
  datatype UserOut = UserOut(id: int, username: string, email: string, createdAt: string, updatedAt: string)

  /** The `From` conversion: copies every public field of the row, leaving out only the password hash. */
  function ToUserOut(u: User): (o: UserOut)
    ensures o.id == u.id && o.username == u.username && o.email == u.email
    ensures o.createdAt == u.createdAt && o.updatedAt == u.updatedAt
  {
    UserOut(u.id, u.username, u.email, u.createdAt, u.updatedAt)
  }

  /**
   * The view never reveals the password hash: rows that differ only in
   * their hash look the same, and rows that look the same differ at most in
   * their hash.
   */
  lemma UserOutHidesPasswordHash(u: User, v: User)
    ensures ToUserOut(u) == ToUserOut(v) <==> u.(passwordHash := v.passwordHash) == v
  {
  }

  const UserNotFound: string := "user not found"
  const UsernameExists: string := "username already exists"
  const EmailExists: string := "email already exists"

  /**
   * The friendly pre-checks of registration let the request through: the
   * lookup by username did not find a row (or failed), and neither did the
   * lookup by email. A failing lookup is not an answer.
   */
  ghost predicate PassesPrechecks(
    users: map<int, User>, body: CreateUserReq, usernameFault: Option<DbErr>, emailFault: Option<DbErr>)
  {
    && !(usernameFault.None? && UsernameTaken(users, body.username, None))
    && !(emailFault.None? && EmailTaken(users, body.email, None))
  }

  /**
   * `post_user`: 409 when the username, and then the email, is already
   * held; otherwise the password is hashed and the row inserted: 201 with
   * its view, or 500 with the error's text. Each step's database failure is
   * its own `...Fault` parameter. A duplicate that slips past a failed lookup
   * is caught by the unique keys, the email's first.
   */
  method PostUser(
    db: Database, body: CreateUserReq, bcrypt: Bcrypt, now: string,
    usernameFault: Option<DbErr>, emailFault: Option<DbErr>, insertFault: Option<DbErr>)
    returns (reply: Reply<UserOut>)
    requires db.Valid()
    modifies db
    ensures db.Valid()
    ensures usernameFault.None? && UsernameTaken(old(db.users), body.username, None) ==>
      reply == Fail(StatusConflict, UsernameExists)
    ensures !(usernameFault.None? && UsernameTaken(old(db.users), body.username, None))
            && emailFault.None? && EmailTaken(old(db.users), body.email, None) ==>
      reply == Fail(StatusConflict, EmailExists)
    ensures PassesPrechecks(old(db.users), body, usernameFault, emailFault) && bcrypt.hash(body.password).Err? ==>
      reply == Internal(bcrypt.hash(body.password).error)
    ensures PassesPrechecks(old(db.users), body, usernameFault, emailFault) && bcrypt.hash(body.password).Ok? ==>
      var hash := bcrypt.hash(body.password).value;
      && (insertFault.Some? ==> reply == Internal(insertFault.value.message))
      // A lookup that failed lets a duplicate through to the unique keys.
      && (insertFault.None? && EmailTaken(old(db.users), body.email, None) ==>
            reply == Internal(UniqueViolation("users.email").message))
      && (insertFault.None? && !EmailTaken(old(db.users), body.email, None)
          && UsernameTaken(old(db.users), body.username, None) ==>
            reply == Internal(UniqueViolation("users.username").message))
      && (insertFault.None? && !UsernameTaken(old(db.users), body.username, None)
          && !EmailTaken(old(db.users), body.email, None) ==>
            && reply.Done? && reply.status == StatusCreated
            && reply.body.id !in old(db.users)
            && db.users == old(db.users)[reply.body.id := User(reply.body.id, body.username, body.email, hash, now, now)]
            && reply.body == ToUserOut(db.users[reply.body.id])
            && db.accounts == old(db.accounts) && db.transactions == old(db.transactions)
            && db.assets == old(db.assets))
    ensures reply.Fail? ==> unchanged(db)
  {
    var byUsername := db.GetUserByUsername(body.username, usernameFault);
    if byUsername.Ok? && byUsername.value.Some? {
      return Fail(StatusConflict, UsernameExists);
    }
    var byEmail := db.GetUserByEmail(body.email, emailFault);
    if byEmail.Ok? && byEmail.value.Some? {
      return Fail(StatusConflict, EmailExists);
    }
    var hash := bcrypt.hash(body.password);
    if hash.Err? {
      return Internal(hash.error);
    }
    var created := db.CreateUser(body.username, body.email, hash.value, now, insertFault);
    if created.Err? {
      return Internal(created.error.message);
    }
    reply := Done(StatusCreated, ToUserOut(created.value));
  }

  /** `get_user`: 200 with the user's view, 404 when there is none, 500 on a database error. */
  method GetUser(db: Database, id: int, fault: Option<DbErr>) returns (reply: Reply<UserOut>)
    ensures fault.Some? ==> reply == Fail(StatusInternal, fault.value.message)
    ensures fault.None? && id in db.users ==> reply == Done(StatusOk, ToUserOut(db.users[id]))
    ensures fault.None? && id !in db.users ==> reply == Fail(StatusNotFound, "user not found")
  {
    var found := db.GetUserById(id, fault);
    if found.Err? {
      return Internal(found.error.message);
    }
    if found.value.None? {
      return Fail(StatusNotFound, UserNotFound);
    }
    reply := Done(StatusOk, ToUserOut(found.value.value));
  }

  /** The password step of a patch goes through: no password given, or hashed and stored (or the id absent). */
  predicate PasswordStepOk(body: UpdateUserReq, bcrypt: Bcrypt, passwordFault: Option<DbErr>) {
    body.password.None? || (bcrypt.hash(body.password.value).Ok? && passwordFault.None?)
  }

  /** The users table after the password step of a patch of row `id`. */
  function AfterPasswordStep(users: map<int, User>, id: int, body: UpdateUserReq, bcrypt: Bcrypt): map<int, User>
    requires body.password.Some? ==> bcrypt.hash(body.password.value).Ok?
  {
    if body.password.Some? && id in users then
      users[id := users[id].(passwordHash := bcrypt.hash(body.password.value).value)]
    else users
  }

  /**
   * `patch_user`: a provided password is hashed and stored first, in its
   * own write; then the provided username and email are merged into the
   * row: 200 with its view, 404 when there is none, 500 with the error's
   * text otherwise, including a username or email held by another user.
   * When the second write fails the new password stays stored.
   */
  method PatchUser(
    db: Database, id: int, body: UpdateUserReq, bcrypt: Bcrypt,
    passwordFault: Option<DbErr>, updateFault: Option<DbErr>)
    returns (reply: Reply<UserOut>)
    requires db.Valid()
    modifies db
    ensures db.Valid()
    ensures body.password.Some? && bcrypt.hash(body.password.value).Err? ==>
      reply == Internal(bcrypt.hash(body.password.value).error) && unchanged(db)
    ensures body.password.Some? && bcrypt.hash(body.password.value).Ok? && passwordFault.Some? ==>
      reply == Internal(passwordFault.value.message) && unchanged(db)
    ensures PasswordStepOk(body, bcrypt, passwordFault) ==>
      var staged := AfterPasswordStep(old(db.users), id, body, bcrypt);
      && (updateFault.Some? ==> reply == Internal(updateFault.value.message) && db.users == staged)
      && (updateFault.None? && id !in old(db.users) ==> reply == Fail(StatusNotFound, UserNotFound) && db.users == staged)
      && (updateFault.None? && id in old(db.users) ==>
            var v := PatchedUser(staged[id], UserPatch(body.username, body.email));
            if EmailTaken(old(db.users), v.email, Some(id)) then
              reply == Internal(UniqueViolation("users.email").message) && db.users == staged
            else if UsernameTaken(old(db.users), v.username, Some(id)) then
              reply == Internal(UniqueViolation("users.username").message) && db.users == staged
            else
              reply == Done(StatusOk, ToUserOut(v)) && db.users == staged[id := v])
    // Without a password, or for an absent id, a failed patch changes nothing.
    ensures body.password.None? && reply.Fail? ==> unchanged(db)
    ensures PasswordStepOk(body, bcrypt, passwordFault) && updateFault.None? && id !in old(db.users) ==> unchanged(db)
    ensures db.accounts == old(db.accounts) && db.transactions == old(db.transactions) && db.assets == old(db.assets)
  {
    if body.password.Some? {
      var hashed := bcrypt.hash(body.password.value);
      if hashed.Err? {
        return Internal(hashed.error);
      }
      var stored := db.UpdateUserPassword(id, hashed.value, passwordFault);
      if stored.Err? {
        return Internal(stored.error.message);
      }
    }
    assert db.users == AfterPasswordStep(old(db.users), id, body, bcrypt);
    var updated := db.UpdateUser(id, UserPatch(body.username, body.email), updateFault);
    if updated.Err? {
      return Internal(updated.error.message);
    }
    if updated.value.None? {
      return Fail(StatusNotFound, UserNotFound);
    }
    reply := Done(StatusOk, ToUserOut(updated.value.value));
  }

  /**
   * `delete_user_route`: 204 when the user existed and is gone with its
   * accounts, assets and their transactions; 404 when there was none
   * (nothing changes); 500 on a database error.
   */
  method DeleteUserRoute(db: Database, id: int, fault: Option<DbErr>) returns (reply: Reply<()>)
    requires db.Valid()
    modifies db
    ensures db.Valid()
    ensures fault.Some? ==> reply == Internal(fault.value.message)
    ensures fault.None? && id !in old(db.users) ==> reply == Fail(StatusNotFound, UserNotFound)
    ensures fault.None? && id in old(db.users) ==>
      && reply == Done(StatusNoContent, ())
      && db.users == old(db.users) - {id}
      && db.accounts == AccountsNotOwnedBy(old(db.accounts), id)
      && db.assets == AssetsNotOwnedBy(old(db.assets), id)
      && db.transactions == TransactionsWithin(old(db.transactions), db.accounts)
    ensures reply.Fail? ==> unchanged(db)
  {
    var affected := db.DeleteUser(id, fault);
    reply := FromDeleted(affected, UserNotFound);
  }
}
