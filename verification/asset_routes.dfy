/**
 * The asset handlers: create, fetch, list by owner, partial update and
 * delete. Quantity and average price arrive as decimal text and are parsed,
 * quantity first, before the database is touched.
 */
module AssetRoutes {
  import opened Common
  import opened Entities
  import opened Tables
  import opened ErrorShape
  import opened Services

  datatype CreateAssetReq = CreateAssetReq(
    userId: int, symbol: string, name: string, quantity: string, avgPrice: string, assetType: string)

  datatype UpdateAssetReq = UpdateAssetReq(
    name: Option<string>, quantity: Option<string>, avgPrice: Option<string>, assetType: Option<string>)

  const AssetNotFound: string := "asset not found"

  /**
   * `post_asset`: 201 with the new row; 400 when the quantity, or else the
   * average price, does not parse; 500 on any database error, including a
   * second asset with the same symbol for one user.
   */
  method PostAsset(db: Database, body: CreateAssetReq, parse: DecimalParser, now: string, fault: Option<DbErr>)
    returns (reply: Reply<Asset>)
    requires db.Valid()
    modifies db
    ensures db.Valid()
    ensures parse(body.quantity).Err? ==> reply == BadRequest(parse(body.quantity).error)
    ensures parse(body.quantity).Ok? && parse(body.avgPrice).Err? ==> reply == BadRequest(parse(body.avgPrice).error)
    ensures parse(body.quantity).Ok? && parse(body.avgPrice).Ok? ==>
      && (fault.Some? ==> reply == Internal(fault.value.message))
      && (fault.None? && SymbolHeld(old(db.assets), body.userId, body.symbol) ==>
            reply == Internal(UniqueViolation("assets.user_id, assets.symbol").message))
      && (fault.None? && !SymbolHeld(old(db.assets), body.userId, body.symbol) && body.userId !in old(db.users) ==>
            reply == Internal(ForeignKeyViolation.message))
      && (fault.None? && !SymbolHeld(old(db.assets), body.userId, body.symbol) && body.userId in old(db.users) ==>
            && reply.Done? && reply.status == StatusCreated
            && reply.body == Asset(reply.body.id, body.userId, body.symbol, body.name,
                                   parse(body.quantity).value, parse(body.avgPrice).value, body.assetType, now, now)
            && reply.body.id !in old(db.assets)
            && db.assets == old(db.assets)[reply.body.id := reply.body]
            && db.users == old(db.users) && db.accounts == old(db.accounts)
            && db.transactions == old(db.transactions))
    ensures reply.Fail? ==> unchanged(db)
  {
    var quantity := parse(body.quantity);
    if quantity.Err? {
      return BadRequest(quantity.error);
    }
    var avgPrice := parse(body.avgPrice);
    if avgPrice.Err? {
      return BadRequest(avgPrice.error);
    }
    var created := db.CreateAsset(body.userId, body.symbol, body.name, quantity.value, avgPrice.value,
                                  body.assetType, now, fault);
    if created.Err? {
      return Internal(created.error.message);
    }
    reply := Done(StatusCreated, created.value);
  }

  /** `get_asset`: 200 with the row, 404 when there is none, 500 on a database error. */
  method GetAsset(db: Database, id: int, fault: Option<DbErr>) returns (reply: Reply<Asset>)
    ensures fault.Some? ==> reply == Fail(StatusInternal, fault.value.message)
    ensures fault.None? && id in db.assets ==> reply == Done(StatusOk, db.assets[id])
    ensures fault.None? && id !in db.assets ==> reply == Fail(StatusNotFound, "asset not found")
  {
    var found := db.GetAssetById(id, fault);
    reply := FromFound(found, AssetNotFound);
  }

  /** `list_assets`: 200 with exactly the assets of the user in the query, or 500. */
  method ListAssets(db: Database, userId: int, fault: Option<DbErr>) returns (reply: Reply<set<Asset>>)
    ensures fault.Some? ==> reply == Fail(StatusInternal, fault.value.message)
    ensures fault.None? ==> reply.Done? && reply.status == StatusOk
    ensures fault.None? ==> forall a :: a in reply.body ==> a in db.assets.Values && a.userId == userId
    ensures fault.None? ==> forall k :: k in db.assets && db.assets[k].userId == userId ==> db.assets[k] in reply.body
  {
    var list := db.FindAssetsByUser(userId, fault);
    if list.Err? {
      return Internal(list.error.message);
    }
    reply := Done(StatusOk, list.value);
  }

  /**
   * `patch_asset`: parses a provided quantity, then a provided average
   * price (400 on the first failure), then merges the provided fields into
   * the row: 200 with the merged row, 404 when there is none, 500 on a
   * database error.
   */
  method PatchAsset(db: Database, id: int, body: UpdateAssetReq, parse: DecimalParser, fault: Option<DbErr>)
    returns (reply: Reply<Asset>)
    requires db.Valid()
    modifies db
    ensures db.Valid()
    ensures ParseOptional(parse, body.quantity).Err? ==>
      reply == BadRequest(ParseOptional(parse, body.quantity).error)
    ensures ParseOptional(parse, body.quantity).Ok? && ParseOptional(parse, body.avgPrice).Err? ==>
      reply == BadRequest(ParseOptional(parse, body.avgPrice).error)
    ensures ParseOptional(parse, body.quantity).Ok? && ParseOptional(parse, body.avgPrice).Ok? ==>
      var patch := AssetPatch(body.name, ParseOptional(parse, body.quantity).value,
                              ParseOptional(parse, body.avgPrice).value, body.assetType);
      && (fault.Some? ==> reply == Internal(fault.value.message))
      && (fault.None? && id !in old(db.assets) ==> reply == Fail(StatusNotFound, AssetNotFound))
      && (fault.None? && id in old(db.assets) ==>
            && reply == Done(StatusOk, PatchedAsset(old(db.assets)[id], patch))
            && db.assets == old(db.assets)[id := reply.body])
    ensures db.users == old(db.users) && db.accounts == old(db.accounts) && db.transactions == old(db.transactions)
    ensures reply.Fail? ==> unchanged(db)
  {
    var quantity := ParseOptional(parse, body.quantity);
    if quantity.Err? {
      return BadRequest(quantity.error);
    }
    var avgPrice := ParseOptional(parse, body.avgPrice);
    if avgPrice.Err? {
      return BadRequest(avgPrice.error);
    }
    var updated := db.UpdateAsset(id, AssetPatch(body.name, quantity.value, avgPrice.value, body.assetType), fault);
    reply := FromFound(updated, AssetNotFound);
  }

  /** `delete_asset_route`: 204 when the asset existed and is gone, 404 when there was none, 500 on a database error. */
  method DeleteAssetRoute(db: Database, id: int, fault: Option<DbErr>) returns (reply: Reply<()>)
    requires db.Valid()
    modifies db
    ensures db.Valid()
    ensures fault.Some? ==> reply == Internal(fault.value.message)
    ensures fault.None? && id !in old(db.assets) ==> reply == Fail(StatusNotFound, AssetNotFound)
    ensures fault.None? && id in old(db.assets) ==>
      && reply == Done(StatusNoContent, ())
      && db.assets == old(db.assets) - {id}
      && db.users == old(db.users) && db.accounts == old(db.accounts) && db.transactions == old(db.transactions)
    ensures reply.Fail? ==> unchanged(db)
  {
    var affected := db.DeleteAsset(id, fault);
    reply := FromDeleted(affected, AssetNotFound);
  }
}
