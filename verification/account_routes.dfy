/**
 * The account handlers: create, fetch, list by owner, partial update and
 * delete. The balance arrives as decimal text and is parsed before the
 * database is touched; a text that does not parse is a 400 with the parse
 * error's display text.
 */
module AccountRoutes {
  import opened Common
  import opened Entities
  import opened Tables
  import opened ErrorShape
  import opened Services

  datatype CreateAccountReq = CreateAccountReq(
    userId: int, name: string, accountType: string, balance: string, currency: string)

  datatype UpdateAccountReq = UpdateAccountReq(
    name: Option<string>, accountType: Option<string>, balance: Option<string>, currency: Option<string>)

  const AccountNotFound: string := "account not found"

  /** `post_account`: 201 with the new row, 400 on a bad balance, 500 on any database error. */
  method PostAccount(db: Database, body: CreateAccountReq, parse: DecimalParser, now: string, fault: Option<DbErr>)
    returns (reply: Reply<Account>)
    requires db.Valid()
    modifies db
    ensures db.Valid()
    ensures parse(body.balance).Err? ==> reply == BadRequest(parse(body.balance).error)
    ensures parse(body.balance).Ok? && fault.Some? ==> reply == Internal(fault.value.message)
    ensures parse(body.balance).Ok? && fault.None? && body.userId !in old(db.users) ==>
      reply == Internal(ForeignKeyViolation.message)
    ensures parse(body.balance).Ok? && fault.None? && body.userId in old(db.users) ==>
      && reply.Done? && reply.status == StatusCreated
      && reply.body == Account(reply.body.id, body.userId, body.name, body.accountType,
                               parse(body.balance).value, body.currency, now)
      && reply.body.id !in old(db.accounts)
      && db.accounts == old(db.accounts)[reply.body.id := reply.body]
      && db.users == old(db.users) && db.transactions == old(db.transactions) && db.assets == old(db.assets)
    ensures reply.Fail? ==> unchanged(db)
  {
    var balance := parse(body.balance);
    if balance.Err? {
      return BadRequest(balance.error);
    }
    var created := db.CreateAccount(body.userId, body.name, body.accountType, balance.value, body.currency, now, fault);
    if created.Err? {
      return Internal(created.error.message);
    }
    reply := Done(StatusCreated, created.value);
  }

  /** `get_account`: 200 with the row, 404 when there is none, 500 on a database error. */
  method GetAccount(db: Database, id: int, fault: Option<DbErr>) returns (reply: Reply<Account>)
    ensures fault.Some? ==> reply == Fail(StatusInternal, fault.value.message)
    ensures fault.None? && id in db.accounts ==> reply == Done(StatusOk, db.accounts[id])
    ensures fault.None? && id !in db.accounts ==> reply == Fail(StatusNotFound, "account not found")
  {
    var found := db.GetAccountById(id, fault);
    reply := FromFound(found, AccountNotFound);
  }

  /** `list_accounts`: 200 with exactly the accounts of the user in the query, or 500. */
  method ListAccounts(db: Database, userId: int, fault: Option<DbErr>) returns (reply: Reply<set<Account>>)
    ensures fault.Some? ==> reply == Fail(StatusInternal, fault.value.message)
    ensures fault.None? ==> reply.Done? && reply.status == StatusOk
    ensures fault.None? ==> forall a :: a in reply.body ==> a in db.accounts.Values && a.userId == userId
    ensures fault.None? ==> forall k :: k in db.accounts && db.accounts[k].userId == userId ==> db.accounts[k] in reply.body
  {
    var list := db.FindAccountsByUser(userId, fault);
    if list.Err? {
      return Internal(list.error.message);
    }
    reply := Done(StatusOk, list.value);
  }

  /**
   * `patch_account`: parses a provided balance first (400 on failure), then
   * merges the provided fields into the row: 200 with the merged row, 404
   * when there is none, 500 on a database error.
   */
  method PatchAccount(db: Database, id: int, body: UpdateAccountReq, parse: DecimalParser, fault: Option<DbErr>)
    returns (reply: Reply<Account>)
    requires db.Valid()
    modifies db
    ensures db.Valid()
    ensures ParseOptional(parse, body.balance).Err? ==>
      reply == BadRequest(ParseOptional(parse, body.balance).error)
    ensures ParseOptional(parse, body.balance).Ok? ==>
      var patch := AccountPatch(body.name, body.accountType, ParseOptional(parse, body.balance).value, body.currency);
      && (fault.Some? ==> reply == Internal(fault.value.message))
      && (fault.None? && id !in old(db.accounts) ==> reply == Fail(StatusNotFound, AccountNotFound))
      && (fault.None? && id in old(db.accounts) ==>
            && reply == Done(StatusOk, PatchedAccount(old(db.accounts)[id], patch))
            && db.accounts == old(db.accounts)[id := reply.body])
    ensures db.users == old(db.users) && db.transactions == old(db.transactions) && db.assets == old(db.assets)
    ensures reply.Fail? ==> unchanged(db)
  {
    var balance := ParseOptional(parse, body.balance);
    if balance.Err? {
      return BadRequest(balance.error);
    }
    var updated := db.UpdateAccount(id, AccountPatch(body.name, body.accountType, balance.value, body.currency), fault);
    reply := FromFound(updated, AccountNotFound);
  }

  /**
   * `delete_account_route`: 204 when the account existed and is gone with
   * its transactions, 404 when there was none (nothing changes), 500 on a
   * database error.
   */
  method DeleteAccountRoute(db: Database, id: int, fault: Option<DbErr>) returns (reply: Reply<()>)
    requires db.Valid()
    modifies db
    ensures db.Valid()
    ensures fault.Some? ==> reply == Internal(fault.value.message)
    ensures fault.None? && id !in old(db.accounts) ==> reply == Fail(StatusNotFound, AccountNotFound)
    ensures fault.None? && id in old(db.accounts) ==>
      && reply == Done(StatusNoContent, ())
      && db.accounts == old(db.accounts) - {id}
      && db.transactions == TransactionsNotOn(old(db.transactions), id)
      && db.users == old(db.users) && db.assets == old(db.assets)
    ensures reply.Fail? ==> unchanged(db)
  {
    var affected := db.DeleteAccount(id, fault);
    reply := FromDeleted(affected, AccountNotFound);
  }
}
