/**
 * The database as four tables, each a map from primary key to row, and the
 * facts the schema makes the database keep about them: unique usernames
 * and emails, a unique (owner, symbol) pair per asset, and foreign keys
 * whose deletes cascade.
 */
module Tables {
  import opened Common
  import opened Entities

  /** Every row sits under its own id, ids are positive and below the next id to hand out. */
  ghost predicate UsersKeyed(users: map<int, User>, next: int) {
    forall k :: k in users ==> users[k].id == k && 1 <= k < next
  }

  ghost predicate AccountsKeyed(accounts: map<int, Account>, next: int) {
    forall k :: k in accounts ==> accounts[k].id == k && 1 <= k < next
  }

  ghost predicate TransactionsKeyed(transactions: map<int, Transaction>, next: int) {
    forall k :: k in transactions ==> transactions[k].id == k && 1 <= k < next
  }

  ghost predicate AssetsKeyed(assets: map<int, Asset>, next: int) {
    forall k :: k in assets ==> assets[k].id == k && 1 <= k < next
  }

  /** The unique keys on `users.username` and `users.email`. */
  ghost predicate UniqueUserKeys(users: map<int, User>) {
    forall i, j :: i in users && j in users && i != j ==>
      users[i].username != users[j].username && users[i].email != users[j].email
  }

  /** The unique index on `assets (user_id, symbol)`. */
  ghost predicate UniqueAssetKeys(assets: map<int, Asset>) {
    forall i, j :: i in assets && j in assets && i != j ==>
      assets[i].userId != assets[j].userId || assets[i].symbol != assets[j].symbol
  }

  /** Foreign keys: every account and asset has its user, every transaction its account. */
  ghost predicate AccountsOwned(accounts: map<int, Account>, users: map<int, User>) {
    forall k :: k in accounts ==> accounts[k].userId in users
  }

  ghost predicate AssetsOwned(assets: map<int, Asset>, users: map<int, User>) {
    forall k :: k in assets ==> assets[k].userId in users
  }

  ghost predicate TransactionsOwned(transactions: map<int, Transaction>, accounts: map<int, Account>) {
    forall k :: k in transactions ==> transactions[k].accountId in accounts
  }

  /** Every constraint the schema declares across the four tables. */
  ghost predicate Integrity(
    users: map<int, User>, accounts: map<int, Account>,
    transactions: map<int, Transaction>, assets: map<int, Asset>)
  {
    && UniqueUserKeys(users)
    && UniqueAssetKeys(assets)
    && AccountsOwned(accounts, users)
    && AssetsOwned(assets, users)
    && TransactionsOwned(transactions, accounts)
  }

  predicate UsernameTaken(users: map<int, User>, username: string, except: Option<int>) {
    exists k :: k in users && Some(k) != except && users[k].username == username
  }

  predicate EmailTaken(users: map<int, User>, email: string, except: Option<int>) {
    exists k :: k in users && Some(k) != except && users[k].email == email
  }

  predicate SymbolHeld(assets: map<int, Asset>, userId: int, symbol: string) {
    exists k :: k in assets && assets[k].userId == userId && assets[k].symbol == symbol
  }

  /** The row with this username; by the unique key there is at most one. */
  function UserWithUsername(users: map<int, User>, username: string): (r: Option<User>)
    requires UniqueUserKeys(users)
    ensures r.Some? <==> UsernameTaken(users, username, None)
    ensures r.Some? ==> r.value in users.Values && r.value.username == username
  {
    if UsernameTaken(users, username, None) then
      var k :| k in users && users[k].username == username; Some(users[k])
    else
      None
  }

  /** The row with this email; by the unique key there is at most one. */
  function UserWithEmail(users: map<int, User>, email: string): (r: Option<User>)
    requires UniqueUserKeys(users)
    ensures r.Some? <==> EmailTaken(users, email, None)
    ensures r.Some? ==> r.value in users.Values && r.value.email == email
  {
    if EmailTaken(users, email, None) then
      var k :| k in users && users[k].email == email; Some(users[k])
    else
      None
  }

  /** Exactly the accounts owned by the user. */
  function AccountsOfUser(accounts: map<int, Account>, userId: int): (r: set<Account>)
    ensures forall a :: a in r ==> a in accounts.Values && a.userId == userId
    ensures forall k :: k in accounts && accounts[k].userId == userId ==> accounts[k] in r
  {
    set k | k in accounts && accounts[k].userId == userId :: accounts[k]
  }

  /** Exactly the assets owned by the user. */
  function AssetsOfUser(assets: map<int, Asset>, userId: int): (r: set<Asset>)
    ensures forall a :: a in r ==> a in assets.Values && a.userId == userId
    ensures forall k :: k in assets && assets[k].userId == userId ==> assets[k] in r
  {
    set k | k in assets && assets[k].userId == userId :: assets[k]
  }

  /** Exactly the transactions booked on the account. */
  function TransactionsOfAccount(transactions: map<int, Transaction>, accountId: int): (r: set<Transaction>)
    ensures forall t :: t in r ==> t in transactions.Values && t.accountId == accountId
    ensures forall k :: k in transactions && transactions[k].accountId == accountId ==> transactions[k] in r
  {
    set k | k in transactions && transactions[k].accountId == accountId :: transactions[k]
  }

  /** The accounts left after the cascade from deleting user `userId`. */
  function AccountsNotOwnedBy(accounts: map<int, Account>, userId: int): map<int, Account> {
    map k | k in accounts && accounts[k].userId != userId :: accounts[k]
  }

  /** The assets left after the cascade from deleting user `userId`. */
  function AssetsNotOwnedBy(assets: map<int, Asset>, userId: int): map<int, Asset> {
    map k | k in assets && assets[k].userId != userId :: assets[k]
  }

  /** The transactions whose account survives in `accounts`. */
  function TransactionsWithin(transactions: map<int, Transaction>, accounts: map<int, Account>): map<int, Transaction> {
    map k | k in transactions && transactions[k].accountId in accounts :: transactions[k]
  }

  /**
   * Deleting user `userId` with its cascades removes exactly the user, the
   * accounts and assets it owned and the transactions of those accounts, and
   * leaves every constraint in force.
   */
  lemma UserCascade(
    users: map<int, User>, accounts: map<int, Account>,
    transactions: map<int, Transaction>, assets: map<int, Asset>, userId: int)
    requires Integrity(users, accounts, transactions, assets)
    ensures var accounts' := AccountsNotOwnedBy(accounts, userId);
      var transactions' := TransactionsWithin(transactions, accounts');
      var assets' := AssetsNotOwnedBy(assets, userId);
      && Integrity(users - {userId}, accounts', transactions', assets')
      && (forall k :: k in accounts' <==> k in accounts && accounts[k].userId != userId)
      && (forall k :: k in assets' <==> k in assets && assets[k].userId != userId)
      && (forall k :: k in transactions' <==>
            k in transactions && accounts[transactions[k].accountId].userId != userId)
      && (forall k :: k in accounts' ==> accounts'[k] == accounts[k])
      && (forall k :: k in assets' ==> assets'[k] == assets[k])
      && (forall k :: k in transactions' ==> transactions'[k] == transactions[k])
  {
  }

  /** Deleting a user that does not exist cascades to nothing. */
  lemma AbsentUserCascade(
    users: map<int, User>, accounts: map<int, Account>,
    transactions: map<int, Transaction>, assets: map<int, Asset>, userId: int)
    requires Integrity(users, accounts, transactions, assets)
    requires userId !in users
    ensures AccountsNotOwnedBy(accounts, userId) == accounts
    ensures AssetsNotOwnedBy(assets, userId) == assets
    ensures TransactionsWithin(transactions, accounts) == transactions
  {
    forall k | k in accounts ensures k in AccountsNotOwnedBy(accounts, userId) {
      assert accounts[k].userId in users;
    }
    forall k | k in assets ensures k in AssetsNotOwnedBy(assets, userId) {
      assert assets[k].userId in users;
    }
    forall k | k in transactions ensures k in TransactionsWithin(transactions, accounts) {
      assert transactions[k].accountId in accounts;
    }
  }

  /** The transactions left after the cascade from deleting account `accountId`. */
  function TransactionsNotOn(transactions: map<int, Transaction>, accountId: int): map<int, Transaction> {
    map k | k in transactions && transactions[k].accountId != accountId :: transactions[k]
  }

  /**
   * Deleting account `accountId` with its cascade removes exactly its
   * transactions and leaves every constraint in force.
   */
  lemma AccountCascade(
    users: map<int, User>, accounts: map<int, Account>,
    transactions: map<int, Transaction>, assets: map<int, Asset>, accountId: int)
    requires Integrity(users, accounts, transactions, assets)
    ensures var transactions' := TransactionsNotOn(transactions, accountId);
      && Integrity(users, accounts - {accountId}, transactions', assets)
      && (forall k :: k in transactions' <==> k in transactions && transactions[k].accountId != accountId)
      && (forall k :: k in transactions' ==> transactions'[k] == transactions[k])
  {
  }

  /** Deleting an account that does not exist cascades to nothing. */
  lemma AbsentAccountCascade(
    users: map<int, User>, accounts: map<int, Account>,
    transactions: map<int, Transaction>, assets: map<int, Asset>, accountId: int)
    requires Integrity(users, accounts, transactions, assets)
    requires accountId !in accounts
    ensures TransactionsNotOn(transactions, accountId) == transactions
  {
    forall k | k in transactions ensures k in TransactionsNotOn(transactions, accountId) {
      assert transactions[k].accountId in accounts;
    }
  }
}
