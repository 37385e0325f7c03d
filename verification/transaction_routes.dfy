/**
 * The transaction handlers: create, fetch, list by account, partial update
 * and delete. The amount arrives as decimal text and is parsed before the
 * database is touched.
 */
module TransactionRoutes {
  import opened Common
  import opened Entities
  import opened Tables
  import opened ErrorShape
  import opened Services

  datatype CreateTransactionReq = CreateTransactionReq(
    accountId: int, transactionType: string, amount: string, description: string, category: Option<string>)

  datatype UpdateTransactionReq = UpdateTransactionReq(
    transactionType: Option<string>, amount: Option<string>, description: Option<string>, category: Option<string>)

  const TransactionNotFound: string := "transaction not found"

  /** `post_transaction`: 201 with the new row, 400 on a bad amount, 500 on any database error. */
  method PostTransaction(db: Database, body: CreateTransactionReq, parse: DecimalParser, now: string, fault: Option<DbErr>)
    returns (reply: Reply<Transaction>)
    requires db.Valid()
    modifies db
    ensures db.Valid()
    ensures parse(body.amount).Err? ==> reply == BadRequest(parse(body.amount).error)
    ensures parse(body.amount).Ok? && fault.Some? ==> reply == Internal(fault.value.message)
    ensures parse(body.amount).Ok? && fault.None? && body.accountId !in old(db.accounts) ==>
      reply == Internal(ForeignKeyViolation.message)
    ensures parse(body.amount).Ok? && fault.None? && body.accountId in old(db.accounts) ==>
      && reply.Done? && reply.status == StatusCreated
      && reply.body == Transaction(reply.body.id, body.accountId, body.transactionType,
                                   parse(body.amount).value, body.description, body.category, now)
      && reply.body.id !in old(db.transactions)
      && db.transactions == old(db.transactions)[reply.body.id := reply.body]
      && db.users == old(db.users) && db.accounts == old(db.accounts) && db.assets == old(db.assets)
    ensures reply.Fail? ==> unchanged(db)
  {
    var amount := parse(body.amount);
    if amount.Err? {
      return BadRequest(amount.error);
    }
    var created := db.CreateTransaction(body.accountId, body.transactionType, amount.value, body.description,
                                        body.category, now, fault);
    if created.Err? {
      return Internal(created.error.message);
    }
    reply := Done(StatusCreated, created.value);
  }

  /** `get_transaction`: 200 with the row, 404 when there is none, 500 on a database error. */
  method GetTransaction(db: Database, id: int, fault: Option<DbErr>) returns (reply: Reply<Transaction>)
    ensures fault.Some? ==> reply == Fail(StatusInternal, fault.value.message)
    ensures fault.None? && id in db.transactions ==> reply == Done(StatusOk, db.transactions[id])
    ensures fault.None? && id !in db.transactions ==> reply == Fail(StatusNotFound, "transaction not found")
  {
    var found := db.GetTransactionById(id, fault);
    reply := FromFound(found, TransactionNotFound);
  }

  /** `list_transactions`: 200 with exactly the transactions of the account in the query, or 500. */
  method ListTransactions(db: Database, accountId: int, fault: Option<DbErr>) returns (reply: Reply<set<Transaction>>)
    ensures fault.Some? ==> reply == Fail(StatusInternal, fault.value.message)
    ensures fault.None? ==> reply.Done? && reply.status == StatusOk
    ensures fault.None? ==> forall t :: t in reply.body ==> t in db.transactions.Values && t.accountId == accountId
    ensures fault.None? ==>
      forall k :: k in db.transactions && db.transactions[k].accountId == accountId ==> db.transactions[k] in reply.body
  {
    var list := db.FindTransactionsByAccount(accountId, fault);
    if list.Err? {
      return Internal(list.error.message);
    }
    reply := Done(StatusOk, list.value);
  }

  /**
   * `patch_transaction`: parses a provided amount first (400 on failure),
   * then merges the provided fields into the row: 200 with the merged row,
   * 404 when there is none, 500 on a database error.
   */
  method PatchTransaction(db: Database, id: int, body: UpdateTransactionReq, parse: DecimalParser, fault: Option<DbErr>)
    returns (reply: Reply<Transaction>)
    requires db.Valid()
    modifies db
    ensures db.Valid()
    ensures ParseOptional(parse, body.amount).Err? ==>
      reply == BadRequest(ParseOptional(parse, body.amount).error)
    ensures ParseOptional(parse, body.amount).Ok? ==>
      var patch := TransactionPatch(body.transactionType, ParseOptional(parse, body.amount).value,
                                    body.description, body.category);
      && (fault.Some? ==> reply == Internal(fault.value.message))
      && (fault.None? && id !in old(db.transactions) ==> reply == Fail(StatusNotFound, TransactionNotFound))
      && (fault.None? && id in old(db.transactions) ==>
            && reply == Done(StatusOk, PatchedTransaction(old(db.transactions)[id], patch))
            && db.transactions == old(db.transactions)[id := reply.body])
    ensures db.users == old(db.users) && db.accounts == old(db.accounts) && db.assets == old(db.assets)
    ensures reply.Fail? ==> unchanged(db)
  {
    var amount := ParseOptional(parse, body.amount);
    if amount.Err? {
      return BadRequest(amount.error);
    }
    var patch := TransactionPatch(body.transactionType, amount.value, body.description, body.category);
    var updated := db.UpdateTransaction(id, patch, fault);
    reply := FromFound(updated, TransactionNotFound);
  }

  /** `delete_transaction_route`: 204 when the row existed and is gone, 404 when there was none, 500 on a database error. */
  method DeleteTransactionRoute(db: Database, id: int, fault: Option<DbErr>) returns (reply: Reply<()>)
    requires db.Valid()
    modifies db
    ensures db.Valid()
    ensures fault.Some? ==> reply == Internal(fault.value.message)
    ensures fault.None? && id !in old(db.transactions) ==> reply == Fail(StatusNotFound, TransactionNotFound)
    ensures fault.None? && id in old(db.transactions) ==>
      && reply == Done(StatusNoContent, ())
      && db.transactions == old(db.transactions) - {id}
      && db.users == old(db.users) && db.accounts == old(db.accounts) && db.assets == old(db.assets)
    ensures reply.Fail? ==> unchanged(db)
  {
    var affected := db.DeleteTransaction(id, fault);
    reply := FromDeleted(affected, TransactionNotFound);
  }
}
