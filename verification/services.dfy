/**
 * The repository layer: create, read, update and delete on the four
 * tables. The database is one object whose tables the operations change in
 * place. A driver failure (lost connection, I/O error, ...) cannot be
 * predicted from the tables, so every operation takes it as a parameter
 * `fault`: `Some(e)` means the call fails with `e` and changes nothing.
 */
module Services {
  import opened Common
  import opened Entities
  import opened Tables

  /** The error the database reports when an insert or update breaks a unique key. */
  function UniqueViolation(columns: string): DbErr {
    DbErr("UNIQUE constraint failed: " + columns)
  }

  /** The error the database reports when an insert names a parent row that does not exist. */
  const ForeignKeyViolation: DbErr := DbErr("FOREIGN KEY constraint failed")

  class Database {
    var users: map<int, User>
    var accounts: map<int, Account>
    var transactions: map<int, Transaction>
    var assets: map<int, Asset>
    // Auto-increment counters: the id the next insert into each table receives.
    var nextUserId: int
    var nextAccountId: int
    var nextTransactionId: int
    var nextAssetId: int

    ghost predicate Valid()
      reads this
    {
      && UsersKeyed(users, nextUserId)
      && AccountsKeyed(accounts, nextAccountId)
      && TransactionsKeyed(transactions, nextTransactionId)
      && AssetsKeyed(assets, nextAssetId)
      && nextUserId >= 1 && nextAccountId >= 1 && nextTransactionId >= 1 && nextAssetId >= 1
      && Integrity(users, accounts, transactions, assets)
    }

    /** A freshly migrated, empty database. */
    constructor ()
      ensures Valid()
      ensures users == map[] && accounts == map[] && transactions == map[] && assets == map[]
      ensures nextUserId == 1 && nextAccountId == 1 && nextTransactionId == 1 && nextAssetId == 1
    {
      users, accounts, transactions, assets := map[], map[], map[], map[];
      nextUserId, nextAccountId, nextTransactionId, nextAssetId := 1, 1, 1, 1;
    }

    // ---------------------------------------------------------------- users

    /**
     * `create_user`: inserts a row under a fresh id, unless a unique key is
     * already held; when both are, the email is the one reported.
     */
    method CreateUser(username: string, email: string, passwordHash: string, now: string, fault: Option<DbErr>)
      returns (r: Result<User, DbErr>)
      requires Valid()
      modifies this
      ensures Valid()
      ensures fault.Some? ==> r == Err(fault.value)
      // The unique index created last, on the email, is checked first.
      ensures fault.None? && EmailTaken(old(users), email, None) ==>
        r == Err(UniqueViolation("users.email"))
      ensures fault.None? && !EmailTaken(old(users), email, None) && UsernameTaken(old(users), username, None) ==>
        r == Err(UniqueViolation("users.username"))
      ensures fault.None? && !EmailTaken(old(users), email, None) && !UsernameTaken(old(users), username, None) ==>
        r.Ok?
      ensures r.Err? ==> unchanged(this)
      ensures r.Ok? ==>
        && r.value == User(old(nextUserId), username, email, passwordHash, now, now)
        && r.value.id >= 1 && r.value.id !in old(users)
        && users == old(users)[r.value.id := r.value]
        && nextUserId == old(nextUserId) + 1
        && accounts == old(accounts) && transactions == old(transactions) && assets == old(assets)
        && nextAccountId == old(nextAccountId) && nextTransactionId == old(nextTransactionId)
        && nextAssetId == old(nextAssetId)
    {
      if fault.Some? {
        return Err(fault.value);
      }
      if EmailTaken(users, email, None) {
        return Err(UniqueViolation("users.email"));
      }
      if UsernameTaken(users, username, None) {
        return Err(UniqueViolation("users.username"));
      }
      var u := User(nextUserId, username, email, passwordHash, now, now);
      users := users[u.id := u];
      nextUserId := nextUserId + 1;
      r := Ok(u);
    }

    /** `get_user_by_id`: the row under `id`, `None` exactly when there is none. */
    method GetUserById(id: int, fault: Option<DbErr>) returns (r: Result<Option<User>, DbErr>)
      ensures fault.Some? ==> r == Err(fault.value)
      ensures fault.None? ==> r.Ok? && (r.value.Some? <==> id in users)
      ensures fault.None? && id in users ==> r.value.value == users[id]
    {
      if fault.Some? {
        return Err(fault.value);
      }
      r := Ok(if id in users then Some(users[id]) else None);
    }

    /**
     * `get_user_by_username`: the row with that username, `None` exactly when
     * there is none; by the unique key it is the only such row.
     */
    method GetUserByUsername(username: string, fault: Option<DbErr>) returns (r: Result<Option<User>, DbErr>)
      requires Valid()
      ensures fault.Some? ==> r == Err(fault.value)
      ensures fault.None? ==> r.Ok? && (r.value.Some? <==> UsernameTaken(users, username, None))
      ensures fault.None? && r.value.Some? ==>
        && r.value.value.username == username
        && r.value.value.id in users && users[r.value.value.id] == r.value.value
        && forall k :: k in users && users[k].username == username ==> k == r.value.value.id
    {
      if fault.Some? {
        return Err(fault.value);
      }
      r := Ok(UserWithUsername(users, username));
    }

    /**
     * `get_user_by_email`: the row with that email, `None` exactly when there
     * is none; by the unique key it is the only such row.
     */
    method GetUserByEmail(email: string, fault: Option<DbErr>) returns (r: Result<Option<User>, DbErr>)
      requires Valid()
      ensures fault.Some? ==> r == Err(fault.value)
      ensures fault.None? ==> r.Ok? && (r.value.Some? <==> EmailTaken(users, email, None))
      ensures fault.None? && r.value.Some? ==>
        && r.value.value.email == email
        && r.value.value.id in users && users[r.value.value.id] == r.value.value
        && forall k :: k in users && users[k].email == email ==> k == r.value.value.id
    {
      if fault.Some? {
        return Err(fault.value);
      }
      r := Ok(UserWithEmail(users, email));
    }

    /**
     * `update_user`: overwrites the provided username and email of row `id`;
     * `None` for an absent id; a unique-key clash with another row is an error,
     * reported for the email when both keys clash.
     * Whatever fails leaves the tables unchanged.
     */
    method UpdateUser(id: int, patch: UserPatch, fault: Option<DbErr>) returns (r: Result<Option<User>, DbErr>)
      requires Valid()
      modifies this
      ensures Valid()
      ensures fault.Some? ==> r == Err(fault.value)
      ensures fault.None? && id !in old(users) ==> r == Ok(None)
      ensures fault.None? && id in old(users) ==>
        var v := PatchedUser(old(users)[id], patch);
        if EmailTaken(old(users), v.email, Some(id)) then r == Err(UniqueViolation("users.email"))
        else if UsernameTaken(old(users), v.username, Some(id)) then r == Err(UniqueViolation("users.username"))
        else r == Ok(Some(v))
      ensures r.Ok? && r.value.Some? ==> users == old(users)[id := r.value.value]
      ensures !(r.Ok? && r.value.Some?) ==> unchanged(this)
      ensures accounts == old(accounts) && transactions == old(transactions) && assets == old(assets)
      ensures nextUserId == old(nextUserId) && nextAccountId == old(nextAccountId)
      ensures nextTransactionId == old(nextTransactionId) && nextAssetId == old(nextAssetId)
    {
      if fault.Some? {
        return Err(fault.value);
      }
      if id !in users {
        return Ok(None);
      }
      var active := users[id];
      if patch.username.Some? {
        active := active.(username := patch.username.value);
      }
      if patch.email.Some? {
        active := active.(email := patch.email.value);
      }
      if EmailTaken(users, active.email, Some(id)) {
        return Err(UniqueViolation("users.email"));
      }
      if UsernameTaken(users, active.username, Some(id)) {
        return Err(UniqueViolation("users.username"));
      }
      users := users[id := active];
      r := Ok(Some(active));
    }

    /** `update_user_password`: replaces only the password hash of row `id`; `None` for an absent id. */
    method UpdateUserPassword(id: int, passwordHash: string, fault: Option<DbErr>)
      returns (r: Result<Option<User>, DbErr>)
      requires Valid()
      modifies this
      ensures Valid()
      ensures fault.Some? ==> r == Err(fault.value)
      ensures fault.None? && id !in old(users) ==> r == Ok(None)
      ensures fault.None? && id in old(users) ==> r == Ok(Some(old(users)[id].(passwordHash := passwordHash)))
      ensures r.Ok? && r.value.Some? ==> users == old(users)[id := r.value.value]
      ensures !(r.Ok? && r.value.Some?) ==> unchanged(this)
      ensures accounts == old(accounts) && transactions == old(transactions) && assets == old(assets)
      ensures nextUserId == old(nextUserId) && nextAccountId == old(nextAccountId)
      ensures nextTransactionId == old(nextTransactionId) && nextAssetId == old(nextAssetId)
    {
      if fault.Some? {
        return Err(fault.value);
      }
      if id !in users {
        return Ok(None);
      }
      var active := users[id];
      active := active.(passwordHash := passwordHash);
      users := users[id := active];
      r := Ok(Some(active));
    }

    /**
     * `delete_user`: removes row `id` and reports the rows affected, 1 or 0.
     * The cascades of the schema remove the user's accounts and assets and
     * the transactions of those accounts.
     */
    method DeleteUser(id: int, fault: Option<DbErr>) returns (r: Result<nat, DbErr>)
      requires Valid()
      modifies this
      ensures Valid()
      ensures fault.Some? ==> r == Err(fault.value) && unchanged(this)
      ensures fault.None? ==>
        && r == Ok(if id in old(users) then 1 else 0)
        && users == old(users) - {id}
        && accounts == AccountsNotOwnedBy(old(accounts), id)
        && assets == AssetsNotOwnedBy(old(assets), id)
        && transactions == TransactionsWithin(old(transactions), accounts)
      ensures fault.None? && id !in old(users) ==> unchanged(this)
      ensures nextUserId == old(nextUserId) && nextAccountId == old(nextAccountId)
      ensures nextTransactionId == old(nextTransactionId) && nextAssetId == old(nextAssetId)
    {
      if fault.Some? {
        return Err(fault.value);
      }
      if id !in users {
        AbsentUserCascade(users, accounts, transactions, assets, id);
        assert users - {id} == users;
        return Ok(0);
      }
      r := Ok(1);
      UserCascade(users, accounts, transactions, assets, id);
      users := users - {id};
      accounts := AccountsNotOwnedBy(accounts, id);
      assets := AssetsNotOwnedBy(assets, id);
      transactions := TransactionsWithin(transactions, accounts);
    }

    // ------------------------------------------------------------- accounts

    /** `create_account`: inserts a row under a fresh id, unless the owning user does not exist. */
    method CreateAccount(
      userId: int, name: string, accountType: string, balance: Decimal, currency: string,
      now: string, fault: Option<DbErr>)
      returns (r: Result<Account, DbErr>)
      requires Valid()
      modifies this
      ensures Valid()
      ensures fault.Some? ==> r == Err(fault.value)
      ensures fault.None? && userId !in users ==> r == Err(ForeignKeyViolation)
      ensures fault.None? && userId in users ==> r.Ok?
      ensures r.Err? ==> unchanged(this)
      ensures r.Ok? ==>
        && r.value == Account(old(nextAccountId), userId, name, accountType, balance, currency, now)
        && r.value.id >= 1 && r.value.id !in old(accounts)
        && accounts == old(accounts)[r.value.id := r.value]
        && nextAccountId == old(nextAccountId) + 1
        && users == old(users) && transactions == old(transactions) && assets == old(assets)
        && nextUserId == old(nextUserId) && nextTransactionId == old(nextTransactionId)
        && nextAssetId == old(nextAssetId)
    {
      if fault.Some? {
        return Err(fault.value);
      }
      if userId !in users {
        return Err(ForeignKeyViolation);
      }
      var a := Account(nextAccountId, userId, name, accountType, balance, currency, now);
      accounts := accounts[a.id := a];
      nextAccountId := nextAccountId + 1;
      r := Ok(a);
    }

    /** `get_account_by_id`: the row under `id`, `None` exactly when there is none. */
    method GetAccountById(id: int, fault: Option<DbErr>) returns (r: Result<Option<Account>, DbErr>)
      ensures fault.Some? ==> r == Err(fault.value)
      ensures fault.None? ==> r.Ok? && (r.value.Some? <==> id in accounts)
      ensures fault.None? && id in accounts ==> r.value.value == accounts[id]
    {
      if fault.Some? {
        return Err(fault.value);
      }
      r := Ok(if id in accounts then Some(accounts[id]) else None);
    }

    /** `find_accounts_by_user`: exactly the rows owned by `userId`, in no particular order. */
    method FindAccountsByUser(userId: int, fault: Option<DbErr>) returns (r: Result<set<Account>, DbErr>)
      ensures fault.Some? ==> r == Err(fault.value)
      ensures fault.None? ==> r.Ok?
      ensures r.Ok? ==> forall a :: a in r.value ==> a in accounts.Values && a.userId == userId
      ensures r.Ok? ==> forall k :: k in accounts && accounts[k].userId == userId ==> accounts[k] in r.value
    {
      if fault.Some? {
        return Err(fault.value);
      }
      r := Ok(AccountsOfUser(accounts, userId));
    }

    /**
     * `update_account`: overwrites the provided fields of row `id`; `None`
     * and no change for an absent id.
     */
    method UpdateAccount(id: int, patch: AccountPatch, fault: Option<DbErr>)
      returns (r: Result<Option<Account>, DbErr>)
      requires Valid()
      modifies this
      ensures Valid()
      ensures fault.Some? ==> r == Err(fault.value)
      ensures fault.None? && id !in old(accounts) ==> r == Ok(None)
      ensures fault.None? && id in old(accounts) ==> r == Ok(Some(PatchedAccount(old(accounts)[id], patch)))
      ensures r.Ok? && r.value.Some? ==> accounts == old(accounts)[id := r.value.value]
      ensures !(r.Ok? && r.value.Some?) ==> unchanged(this)
      ensures users == old(users) && transactions == old(transactions) && assets == old(assets)
      ensures nextUserId == old(nextUserId) && nextAccountId == old(nextAccountId)
      ensures nextTransactionId == old(nextTransactionId) && nextAssetId == old(nextAssetId)
    {
      if fault.Some? {
        return Err(fault.value);
      }
      if id !in accounts {
        return Ok(None);
      }
      var active := accounts[id];
      if patch.name.Some? {
        active := active.(name := patch.name.value);
      }
      if patch.accountType.Some? {
        active := active.(accountType := patch.accountType.value);
      }
      if patch.balance.Some? {
        active := active.(balance := patch.balance.value);
      }
      if patch.currency.Some? {
        active := active.(currency := patch.currency.value);
      }
      accounts := accounts[id := active];
      r := Ok(Some(active));
    }

    /**
     * `delete_account`: removes row `id` and reports the rows affected, 1 or 0;
     * the cascade removes the account's transactions.
     */
    method DeleteAccount(id: int, fault: Option<DbErr>) returns (r: Result<nat, DbErr>)
      requires Valid()
      modifies this
      ensures Valid()
      ensures fault.Some? ==> r == Err(fault.value) && unchanged(this)
      ensures fault.None? ==>
        && r == Ok(if id in old(accounts) then 1 else 0)
        && accounts == old(accounts) - {id}
        && transactions == TransactionsNotOn(old(transactions), id)
      ensures fault.None? && id !in old(accounts) ==> unchanged(this)
      ensures users == old(users) && assets == old(assets)
      ensures nextUserId == old(nextUserId) && nextAccountId == old(nextAccountId)
      ensures nextTransactionId == old(nextTransactionId) && nextAssetId == old(nextAssetId)
    {
      if fault.Some? {
        return Err(fault.value);
      }
      if id !in accounts {
        AbsentAccountCascade(users, accounts, transactions, assets, id);
        assert accounts - {id} == accounts;
        return Ok(0);
      }
      r := Ok(1);
      AccountCascade(users, accounts, transactions, assets, id);
      accounts := accounts - {id};
      transactions := TransactionsNotOn(transactions, id);
    }

    // --------------------------------------------------------------- assets

    /**
     * `create_asset`: inserts a row under a fresh id, unless the user already
     * holds an asset with this symbol or the user does not exist.
     */
    method CreateAsset(
      userId: int, symbol: string, name: string, quantity: Decimal, avgPrice: Decimal, assetType: string,
      now: string, fault: Option<DbErr>)
      returns (r: Result<Asset, DbErr>)
      requires Valid()
      modifies this
      ensures Valid()
      ensures fault.Some? ==> r == Err(fault.value)
      ensures fault.None? && SymbolHeld(old(assets), userId, symbol) ==>
        r == Err(UniqueViolation("assets.user_id, assets.symbol"))
      ensures fault.None? && !SymbolHeld(old(assets), userId, symbol) && userId !in users ==>
        r == Err(ForeignKeyViolation)
      ensures fault.None? && !SymbolHeld(old(assets), userId, symbol) && userId in users ==> r.Ok?
      ensures r.Err? ==> unchanged(this)
      ensures r.Ok? ==>
        && r.value == Asset(old(nextAssetId), userId, symbol, name, quantity, avgPrice, assetType, now, now)
        && r.value.id >= 1 && r.value.id !in old(assets)
        && assets == old(assets)[r.value.id := r.value]
        && nextAssetId == old(nextAssetId) + 1
        && users == old(users) && accounts == old(accounts) && transactions == old(transactions)
        && nextUserId == old(nextUserId) && nextAccountId == old(nextAccountId)
        && nextTransactionId == old(nextTransactionId)
    {
      if fault.Some? {
        return Err(fault.value);
      }
      if SymbolHeld(assets, userId, symbol) {
        return Err(UniqueViolation("assets.user_id, assets.symbol"));
      }
      if userId !in users {
        return Err(ForeignKeyViolation);
      }
      var a := Asset(nextAssetId, userId, symbol, name, quantity, avgPrice, assetType, now, now);
      assets := assets[a.id := a];
      nextAssetId := nextAssetId + 1;
      r := Ok(a);
    }

    /** `get_asset_by_id`: the row under `id`, `None` exactly when there is none. */
    method GetAssetById(id: int, fault: Option<DbErr>) returns (r: Result<Option<Asset>, DbErr>)
      ensures fault.Some? ==> r == Err(fault.value)
      ensures fault.None? ==> r.Ok? && (r.value.Some? <==> id in assets)
      ensures fault.None? && id in assets ==> r.value.value == assets[id]
    {
      if fault.Some? {
        return Err(fault.value);
      }
      r := Ok(if id in assets then Some(assets[id]) else None);
    }

    /** `find_assets_by_user`: exactly the rows owned by `userId`, in no particular order. */
    method FindAssetsByUser(userId: int, fault: Option<DbErr>) returns (r: Result<set<Asset>, DbErr>)
      ensures fault.Some? ==> r == Err(fault.value)
      ensures fault.None? ==> r.Ok?
      ensures r.Ok? ==> forall a :: a in r.value ==> a in assets.Values && a.userId == userId
      ensures r.Ok? ==> forall k :: k in assets && assets[k].userId == userId ==> assets[k] in r.value
    {
      if fault.Some? {
        return Err(fault.value);
      }
      r := Ok(AssetsOfUser(assets, userId));
    }

    /**
     * `update_asset`: overwrites the provided fields of row `id`, which never
     * include the owner or the symbol; `None` and no change for an absent id.
     */
    method UpdateAsset(id: int, patch: AssetPatch, fault: Option<DbErr>)
      returns (r: Result<Option<Asset>, DbErr>)
      requires Valid()
      modifies this
      ensures Valid()
      ensures fault.Some? ==> r == Err(fault.value)
      ensures fault.None? && id !in old(assets) ==> r == Ok(None)
      ensures fault.None? && id in old(assets) ==> r == Ok(Some(PatchedAsset(old(assets)[id], patch)))
      ensures r.Ok? && r.value.Some? ==> assets == old(assets)[id := r.value.value]
      ensures !(r.Ok? && r.value.Some?) ==> unchanged(this)
      ensures users == old(users) && accounts == old(accounts) && transactions == old(transactions)
      ensures nextUserId == old(nextUserId) && nextAccountId == old(nextAccountId)
      ensures nextTransactionId == old(nextTransactionId) && nextAssetId == old(nextAssetId)
    {
      if fault.Some? {
        return Err(fault.value);
      }
      if id !in assets {
        return Ok(None);
      }
      var active := assets[id];
      if patch.name.Some? {
        active := active.(name := patch.name.value);
      }
      if patch.quantity.Some? {
        active := active.(quantity := patch.quantity.value);
      }
      if patch.avgPrice.Some? {
        active := active.(avgPrice := patch.avgPrice.value);
      }
      if patch.assetType.Some? {
        active := active.(assetType := patch.assetType.value);
      }
      assets := assets[id := active];
      r := Ok(Some(active));
    }

    /** `delete_asset`: removes row `id` and reports the rows affected, 1 or 0. */
    method DeleteAsset(id: int, fault: Option<DbErr>) returns (r: Result<nat, DbErr>)
      requires Valid()
      modifies this
      ensures Valid()
      ensures fault.Some? ==> r == Err(fault.value) && unchanged(this)
      ensures fault.None? && id !in old(assets) ==> r == Ok(0) && unchanged(this)
      ensures fault.None? && id in old(assets) ==> r == Ok(1) && assets == old(assets) - {id}
      ensures users == old(users) && accounts == old(accounts) && transactions == old(transactions)
      ensures nextUserId == old(nextUserId) && nextAccountId == old(nextAccountId)
      ensures nextTransactionId == old(nextTransactionId) && nextAssetId == old(nextAssetId)
    {
      if fault.Some? {
        return Err(fault.value);
      }
      if id !in assets {
        return Ok(0);
      }
      assets := assets - {id};
      r := Ok(1);
    }

    // --------------------------------------------------------- transactions

    /**
     * `create_transaction`: inserts a row under a fresh id, category exactly
     * as given, unless the account does not exist.
     */
    method CreateTransaction(
      accountId: int, transactionType: string, amount: Decimal, description: string, category: Option<string>,
      now: string, fault: Option<DbErr>)
      returns (r: Result<Transaction, DbErr>)
      requires Valid()
      modifies this
      ensures Valid()
      ensures fault.Some? ==> r == Err(fault.value)
      ensures fault.None? && accountId !in accounts ==> r == Err(ForeignKeyViolation)
      ensures fault.None? && accountId in accounts ==> r.Ok?
      ensures r.Err? ==> unchanged(this)
      ensures r.Ok? ==>
        && r.value == Transaction(old(nextTransactionId), accountId, transactionType, amount, description, category, now)
        && r.value.id >= 1 && r.value.id !in old(transactions)
        && transactions == old(transactions)[r.value.id := r.value]
        && nextTransactionId == old(nextTransactionId) + 1
        && users == old(users) && accounts == old(accounts) && assets == old(assets)
        && nextUserId == old(nextUserId) && nextAccountId == old(nextAccountId)
        && nextAssetId == old(nextAssetId)
    {
      if fault.Some? {
        return Err(fault.value);
      }
      if accountId !in accounts {
        return Err(ForeignKeyViolation);
      }
      var t := Transaction(nextTransactionId, accountId, transactionType, amount, description, category, now);
      transactions := transactions[t.id := t];
      nextTransactionId := nextTransactionId + 1;
      r := Ok(t);
    }

    /** `get_transaction_by_id`: the row under `id`, `None` exactly when there is none. */
    method GetTransactionById(id: int, fault: Option<DbErr>) returns (r: Result<Option<Transaction>, DbErr>)
      ensures fault.Some? ==> r == Err(fault.value)
      ensures fault.None? ==> r.Ok? && (r.value.Some? <==> id in transactions)
      ensures fault.None? && id in transactions ==> r.value.value == transactions[id]
    {
      if fault.Some? {
        return Err(fault.value);
      }
      r := Ok(if id in transactions then Some(transactions[id]) else None);
    }

    /** `find_transactions_by_account`: exactly the rows booked on `accountId`, in no particular order. */
    method FindTransactionsByAccount(accountId: int, fault: Option<DbErr>)
      returns (r: Result<set<Transaction>, DbErr>)
      ensures fault.Some? ==> r == Err(fault.value)
      ensures fault.None? ==> r.Ok?
      ensures r.Ok? ==> forall t :: t in r.value ==> t in transactions.Values && t.accountId == accountId
      ensures r.Ok? ==>
        forall k :: k in transactions && transactions[k].accountId == accountId ==> transactions[k] in r.value
    {
      if fault.Some? {
        return Err(fault.value);
      }
      r := Ok(TransactionsOfAccount(transactions, accountId));
    }

    /**
     * `update_transaction`: overwrites the provided fields of row `id`, a
     * provided category as `Some` of it; `None` and no change for an absent id.
     */
    method UpdateTransaction(id: int, patch: TransactionPatch, fault: Option<DbErr>)
      returns (r: Result<Option<Transaction>, DbErr>)
      requires Valid()
      modifies this
      ensures Valid()
      ensures fault.Some? ==> r == Err(fault.value)
      ensures fault.None? && id !in old(transactions) ==> r == Ok(None)
      ensures fault.None? && id in old(transactions) ==>
        r == Ok(Some(PatchedTransaction(old(transactions)[id], patch)))
      ensures r.Ok? && r.value.Some? ==> transactions == old(transactions)[id := r.value.value]
      ensures !(r.Ok? && r.value.Some?) ==> unchanged(this)
      ensures users == old(users) && accounts == old(accounts) && assets == old(assets)
      ensures nextUserId == old(nextUserId) && nextAccountId == old(nextAccountId)
      ensures nextTransactionId == old(nextTransactionId) && nextAssetId == old(nextAssetId)
    {
      if fault.Some? {
        return Err(fault.value);
      }
      if id !in transactions {
        return Ok(None);
      }
      var active := transactions[id];
      if patch.transactionType.Some? {
        active := active.(transactionType := patch.transactionType.value);
      }
      if patch.amount.Some? {
        active := active.(amount := patch.amount.value);
      }
      if patch.description.Some? {
        active := active.(description := patch.description.value);
      }
      if patch.category.Some? {
        active := active.(category := Some(patch.category.value));
      }
      transactions := transactions[id := active];
      r := Ok(Some(active));
    }

    /** `delete_transaction`: removes row `id` and reports the rows affected, 1 or 0. */
    method DeleteTransaction(id: int, fault: Option<DbErr>) returns (r: Result<nat, DbErr>)
      requires Valid()
      modifies this
      ensures Valid()
      ensures fault.Some? ==> r == Err(fault.value) && unchanged(this)
      ensures fault.None? && id !in old(transactions) ==> r == Ok(0) && unchanged(this)
      ensures fault.None? && id in old(transactions) ==> r == Ok(1) && transactions == old(transactions) - {id}
      ensures users == old(users) && accounts == old(accounts) && assets == old(assets)
      ensures nextUserId == old(nextUserId) && nextAccountId == old(nextAccountId)
      ensures nextTransactionId == old(nextTransactionId) && nextAssetId == old(nextAssetId)
    {
      if fault.Some? {
        return Err(fault.value);
      }
      if id !in transactions {
        return Ok(0);
      }
      transactions := transactions - {id};
      r := Ok(1);
    }
  }
}
