/**
 * Row shapes of the four tables and the partial updates (PATCH bodies)
 * applied to them. Timestamps are opaque text set by the database.
 */
module Entities {
  import opened Common

  /** A fixed-point decimal: an unscaled integer and its number of fractional digits. */
  datatype Decimal = Decimal(unscaled: int, scale: nat)

  /** `Decimal::from_str`: the decimal a text denotes, or the parse error's display text. */
  type DecimalParser = string -> Result<Decimal, string>

  datatype User = User(
    id: int,
    username: string,
    email: string,
    passwordHash: string,
    createdAt: string,
    updatedAt: string)

  datatype Account = Account(
    id: int,
    userId: int,
    name: string,
    accountType: string,
    balance: Decimal,
    currency: string,
    createdAt: string)

  datatype Transaction = Transaction(
    id: int,
    accountId: int,
    transactionType: string,
    amount: Decimal,
    description: string,
    category: Option<string>,
    createdAt: string)

  datatype Asset = Asset(
    id: int,
    userId: int,
    symbol: string,
    name: string,
    quantity: Decimal,
    avgPrice: Decimal,
    assetType: string,
    createdAt: string,
    updatedAt: string)

  /** The provided value, or the kept one when none was provided. */
  function Or<T>(provided: Option<T>, kept: T): T {
    if provided.Some? then provided.value else kept
  }

  datatype UserPatch = UserPatch(username: Option<string>, email: Option<string>)

  datatype AccountPatch = AccountPatch(
    name: Option<string>,
    accountType: Option<string>,
    balance: Option<Decimal>,
    currency: Option<string>)

  datatype AssetPatch = AssetPatch(
    name: Option<string>,
    quantity: Option<Decimal>,
    avgPrice: Option<Decimal>,
    assetType: Option<string>)

  datatype TransactionPatch = TransactionPatch(
    transactionType: Option<string>,
    amount: Option<Decimal>,
    description: Option<string>,
    category: Option<string>)

  /**
   * `update_user`'s merge: a provided username or email overwrites, an
   * absent one keeps the old value; the id, the password hash and the
   * timestamps are kept.
   */
  function PatchedUser(u: User, p: UserPatch): (v: User)
    ensures v.id == u.id && v.passwordHash == u.passwordHash
    ensures v.createdAt == u.createdAt && v.updatedAt == u.updatedAt
    ensures p.username.Some? ==> v.username == p.username.value
    ensures p.username.None? ==> v.username == u.username
    ensures p.email.Some? ==> v.email == p.email.value
    ensures p.email.None? ==> v.email == u.email
  {
    u.(username := Or(p.username, u.username), email := Or(p.email, u.email))
  }

  /**
   * `update_account`'s merge: provided name, type, balance and currency
   * overwrite, absent ones are kept; the id, owner and creation time are kept.
   */
  function PatchedAccount(a: Account, p: AccountPatch): (b: Account)
    ensures b.id == a.id && b.userId == a.userId && b.createdAt == a.createdAt
    ensures p.name.Some? ==> b.name == p.name.value
    ensures p.name.None? ==> b.name == a.name
    ensures p.accountType.Some? ==> b.accountType == p.accountType.value
    ensures p.accountType.None? ==> b.accountType == a.accountType
    ensures p.balance.Some? ==> b.balance == p.balance.value
    ensures p.balance.None? ==> b.balance == a.balance
    ensures p.currency.Some? ==> b.currency == p.currency.value
    ensures p.currency.None? ==> b.currency == a.currency
  {
    a.(name := Or(p.name, a.name),
       accountType := Or(p.accountType, a.accountType),
       balance := Or(p.balance, a.balance),
       currency := Or(p.currency, a.currency))
  }

  /**
   * `update_asset`'s merge: provided name, quantity, average price and type
   * overwrite, absent ones are kept; the owner and the symbol, and so the
   * (user, symbol) key, never change.
   */
  function PatchedAsset(a: Asset, p: AssetPatch): (b: Asset)
    ensures b.id == a.id && b.userId == a.userId && b.symbol == a.symbol
    ensures b.createdAt == a.createdAt && b.updatedAt == a.updatedAt
    ensures p.name.Some? ==> b.name == p.name.value
    ensures p.name.None? ==> b.name == a.name
    ensures p.quantity.Some? ==> b.quantity == p.quantity.value
    ensures p.quantity.None? ==> b.quantity == a.quantity
    ensures p.avgPrice.Some? ==> b.avgPrice == p.avgPrice.value
    ensures p.avgPrice.None? ==> b.avgPrice == a.avgPrice
    ensures p.assetType.Some? ==> b.assetType == p.assetType.value
    ensures p.assetType.None? ==> b.assetType == a.assetType
  {
    a.(name := Or(p.name, a.name),
       quantity := Or(p.quantity, a.quantity),
       avgPrice := Or(p.avgPrice, a.avgPrice),
       assetType := Or(p.assetType, a.assetType))
  }

  /**
   * `update_transaction`'s merge: provided type, amount and description
   * overwrite; a provided category is stored wrapped in `Some` and an absent
   * one keeps the old value, so a category once set is never cleared; the
   * id, account and creation time are kept.
   */
  function PatchedTransaction(t: Transaction, p: TransactionPatch): (u: Transaction)
    ensures u.id == t.id && u.accountId == t.accountId && u.createdAt == t.createdAt
    ensures p.transactionType.Some? ==> u.transactionType == p.transactionType.value
    ensures p.transactionType.None? ==> u.transactionType == t.transactionType
    ensures p.amount.Some? ==> u.amount == p.amount.value
    ensures p.amount.None? ==> u.amount == t.amount
    ensures p.description.Some? ==> u.description == p.description.value
    ensures p.description.None? ==> u.description == t.description
    ensures p.category.Some? ==> u.category == Some(p.category.value)
    ensures p.category.None? ==> u.category == t.category
    ensures t.category.Some? ==> u.category.Some?
  {
    t.(transactionType := Or(p.transactionType, t.transactionType),
       amount := Or(p.amount, t.amount),
       description := Or(p.description, t.description),
       category := if p.category.Some? then Some(p.category.value) else t.category)
  }

  /**
   * Applying a user patch twice is the same as applying it once, and a patch
   * that provides nothing changes nothing.
   */
  lemma UserPatchMerges(u: User, p: UserPatch)
    ensures PatchedUser(PatchedUser(u, p), p) == PatchedUser(u, p)
    ensures PatchedUser(u, UserPatch(None, None)) == u
  {
  }

  /** An account patch is idempotent, and the empty patch changes nothing. */
  lemma AccountPatchMerges(a: Account, p: AccountPatch)
    ensures PatchedAccount(PatchedAccount(a, p), p) == PatchedAccount(a, p)
    ensures PatchedAccount(a, AccountPatch(None, None, None, None)) == a
  {
  }

  /** An asset patch is idempotent, and the empty patch changes nothing. */
  lemma AssetPatchMerges(a: Asset, p: AssetPatch)
    ensures PatchedAsset(PatchedAsset(a, p), p) == PatchedAsset(a, p)
    ensures PatchedAsset(a, AssetPatch(None, None, None, None)) == a
  {
  }

  /** A transaction patch is idempotent, and the empty patch changes nothing. */
  lemma TransactionPatchMerges(t: Transaction, p: TransactionPatch)
    ensures PatchedTransaction(PatchedTransaction(t, p), p) == PatchedTransaction(t, p)
    ensures PatchedTransaction(t, TransactionPatch(None, None, None, None)) == t
  {
  }

  /** An optional decimal text: absent stays absent, present is parsed, and a parse error is passed on. */
  function ParseOptional(parse: DecimalParser, text: Option<string>): (r: Result<Option<Decimal>, string>)
    ensures text.None? ==> r == Ok(None)
    ensures text.Some? ==> (r.Ok? <==> parse(text.value).Ok?)
    ensures text.Some? && r.Ok? ==> r.value == Some(parse(text.value).value)
    ensures text.Some? && r.Err? ==> r.error == parse(text.value).error
  {
    match text
    case None => Ok(None)
    case Some(t) =>
      match parse(t)
      case Err(e) => Err(e)
      case Ok(d) => Ok(Some(d))
  }
}
