/** `/items`: the request checks of `ItemResource`, how it maps what its DAO did to a
    response, and the search criteria it collects from the query string. The resource itself is wired
    to the stored-procedure DAO, whose procedures are not part of this model; `Search`
    composes it with the inline `ItemDao` of the same table instead. */
module ItemResource {
  import opened Common
  import opened Store
  import opened Http
  import opened Query
  import ItemDao

  const NAME_REQUIRED := "Required field 'name' cannot be null or empty"
  const NEGATIVE_AMOUNT := "Price and stock quantity must be non-negative"
  const FOR_UPDATE := " for update"
  const ADD_FAILED := "Failed to add item"
  const ADD_CONFLICT := "Duplicate entry for item name: "
  const UPDATE_CONFLICT := "Duplicate entry for item name during update: "
  const UPDATED := "Item updated successfully"
  const DELETED := "Item deleted successfully"

  function NotFound(id: int): string
  {
    "Item with ID " + IntToString(id) + " not found"
  }

  /** The item passes both checks: a non-empty name, and neither price nor stock negative. */
  predicate Acceptable(item: Item)
  {
    NonEmpty(item.name) && item.price >= 0 && item.stockQuantity >= 0
  }

  /** `getItemById`: 404 when the DAO finds nothing. */
  function GetItemResponse(id: int, dao: Outcome<Option<Item>>): (r: Response<Item>)
    ensures dao == Done(None) ==> r == Error(NOT_FOUND, NotFound(id))
    ensures forall item :: dao == Done(Some(item)) ==> r == Reply(OK, Entity(item))
    ensures dao.Raised? ==> r == DatabaseError(dao.failure)
  {
    FoundOrNotFound(dao, NotFound(id))
  }

  /** `addItem`: the name first, then price and stock; only then does the DAO's result count. */
  function AddItemResponse(item: Item, dao: Outcome<int>): (r: Response<Item>)
    ensures r.Reply? && r.status == CREATED <==> Acceptable(item) && dao.Done? && dao.value != -1
    ensures !Acceptable(item) ==> r.Reply? && r.status == BAD_REQUEST
  {
    if !NonEmpty(item.name) then Error(BAD_REQUEST, NAME_REQUIRED)
    else if item.price < 0 || item.stockQuantity < 0 then Error(BAD_REQUEST, NEGATIVE_AMOUNT)
    else CreatedOrFailed(dao, ADD_FAILED, Some(ADD_CONFLICT))
  }

  /** `updateItem`: the path id replaces the body's, the same two checks run with their
      update messages, and the DAO is handed the item carrying the path id. */
  function UpdateItemResponse(id: int, item: Item, dao: Item -> Outcome<bool>): (r: Response<Item>)
    ensures r.Reply? && r.status == OK <==> Acceptable(item) && dao(item.(id := id)) == Done(true)
    ensures !Acceptable(item) ==> r.Reply? && r.status == BAD_REQUEST
  {
    var updated := item.(id := id);
    if !NonEmpty(updated.name) then Error(BAD_REQUEST, NAME_REQUIRED + FOR_UPDATE)
    else if updated.price < 0 || updated.stockQuantity < 0 then Error(BAD_REQUEST, NEGATIVE_AMOUNT + FOR_UPDATE)
    else MatchedOrNotFound(dao(updated), UPDATED, NotFound(id), Some(UPDATE_CONFLICT))
  }

  /** `deleteItem`: 200 when a row went, 404 otherwise; no conflict mapping. */
  function DeleteItemResponse(id: int, dao: Outcome<bool>): (r: Response<Item>)
    ensures dao == Done(true) ==> r == Reply(OK, SuccessBody(DELETED))
    ensures dao == Done(false) ==> r == Error(NOT_FOUND, NotFound(id))
    ensures dao.Raised? ==> r == DatabaseError(dao.failure)
  {
    MatchedOrNotFound(dao, DELETED, NotFound(id), None)
  }

  // ---------------------------------------------------------------------------
  // Search

  const SEARCH_KEYS := {"name", "description", "category_id", "stock_min", "stock_max"}

  /** The criteria `searchItems` collects: each text parameter that is a non-empty string
      under its key, each stock bound that is present as its decimal text, and nothing else. */
  predicate ItemCriteria(criteria: map<string, string>, name: Option<string>, description: Option<string>,
                         categoryId: Option<string>, stockMin: Option<int>, stockMax: Option<int>)
  {
    && Collected(criteria, "name", name)
    && Collected(criteria, "description", description)
    && Collected(criteria, "category_id", categoryId)
    && ("stock_min" in criteria <==> stockMin.Some?)
    && (stockMin.Some? ==> criteria["stock_min"] == IntToString(stockMin.value))
    && ("stock_max" in criteria <==> stockMax.Some?)
    && (stockMax.Some? ==> criteria["stock_max"] == IntToString(stockMax.value))
    && criteria.Keys <= SEARCH_KEYS
  }

  /** Filling the criteria map with one `put` per present parameter. */
  method SearchCriteria(name: Option<string>, description: Option<string>, categoryId: Option<string>,
                        stockMin: Option<int>, stockMax: Option<int>) returns (criteria: map<string, string>)
    ensures ItemCriteria(criteria, name, description, categoryId, stockMin, stockMax)
  {
    criteria := PutIfNonEmpty(map[], "name", name);
    criteria := PutIfNonEmpty(criteria, "description", description);
    criteria := PutIfNonEmpty(criteria, "category_id", categoryId);
    if stockMin.Some? {
      criteria := criteria["stock_min" := IntToString(stockMin.value)];
    }
    if stockMax.Some? {
      criteria := criteria["stock_max" := IntToString(stockMax.value)];
    }
  }

  /** What the request's parameters ask of an item: the texts occur in its name and
      description, the category id is its category, and its stock lies within the bounds,
      both inclusive. */
  predicate RequestMatches(item: Item, name: Option<string>, description: Option<string>,
                           categoryId: Option<string>, stockMin: Option<int>, stockMax: Option<int>)
  {
    && (NonEmpty(name) ==> item.name.Some? && Contains(item.name.value, name.value))
    && (NonEmpty(description) ==> item.description.Some? && Contains(item.description.value, description.value))
    && (NonEmpty(categoryId) ==> item.categoryId.Some? && ParseInt(categoryId.value) == item.categoryId)
    && (stockMin.Some? ==> stockMin.value <= item.stockQuantity)
    && (stockMax.Some? ==> item.stockQuantity <= stockMax.value)
  }

  /** Fed to the inline search, the collected criteria fail only on a category id that
      `Integer.parseInt` rejects (the stock bounds are 32-bit `Integer`s and print back to
      text that parses), and otherwise ask of an item exactly what the parameters say. */
  lemma SearchCriteriaMeaning(criteria: map<string, string>, name: Option<string>, description: Option<string>,
                              categoryId: Option<string>, stockMin: Option<int>, stockMax: Option<int>)
    requires ItemCriteria(criteria, name, description, categoryId, stockMin, stockMax)
    requires stockMin.Some? ==> IsInt32(stockMin.value)
    requires stockMax.Some? ==> IsInt32(stockMax.value)
    ensures var q := Build(ItemDao.ITEM_BASE, ItemDao.ITEM_KEYS, Some(criteria));
      q.Err? <==> NonEmpty(categoryId) && ParseInt(categoryId.value).None?
    ensures var q := Build(ItemDao.ITEM_BASE, ItemDao.ITEM_KEYS, Some(criteria));
      q.Err? ==> q.error == NumberFormat(categoryId.value)
    ensures forall item :: ItemDao.Wanted(item, Some(criteria)) <==>
      RequestMatches(item, name, description, categoryId, stockMin, stockMax)
  {
    ItemDao.ItemQueryMeaning(criteria);
    if stockMin.Some? {
      ParseIntOfIntToString(stockMin.value);
    }
    if stockMax.Some? {
      ParseIntOfIntToString(stockMax.value);
    }
    forall item ensures ItemDao.Wanted(item, Some(criteria)) <==>
      RequestMatches(item, name, description, categoryId, stockMin, stockMax)
    {
      CriteriaAskFor(item, criteria, name, description, categoryId, stockMin, stockMax);
    }
  }

  /** One item at a time: the collected criteria ask of it what the parameters say. */
  lemma CriteriaAskFor(item: Item, criteria: map<string, string>, name: Option<string>, description: Option<string>,
                       categoryId: Option<string>, stockMin: Option<int>, stockMax: Option<int>)
    requires ItemCriteria(criteria, name, description, categoryId, stockMin, stockMax)
    requires stockMin.Some? ==> IsInt32(stockMin.value)
    requires stockMax.Some? ==> IsInt32(stockMax.value)
    ensures ItemDao.ItemMatches(item, criteria) <==>
      RequestMatches(item, name, description, categoryId, stockMin, stockMax)
  {
    if stockMin.Some? {
      ParseIntOfIntToString(stockMin.value);
    }
    if stockMax.Some? {
      ParseIntOfIntToString(stockMax.value);
    }
  }

  /** `searchItems` over the inline DAO: a category id that does not parse leaves the
      resource as a `NumberFormatException`, which its `catch (SQLException e)` does not
      catch. The DAO parses before it connects, so only then does the SELECT reach the
      server: 500 when the server refuses it, otherwise 200 with exactly the stored items
      the parameters ask for. */
  method Search(db: Database, name: Option<string>, description: Option<string>, categoryId: Option<string>,
                stockMin: Option<int>, stockMax: Option<int>, server: Verdict) returns (r: Response<seq<Item>>)
    requires db.Valid()
    requires stockMin.Some? ==> IsInt32(stockMin.value)
    requires stockMax.Some? ==> IsInt32(stockMax.value)
    ensures r.Propagated? <==> NonEmpty(categoryId) && ParseInt(categoryId.value).None?
    ensures r.Propagated? ==> r.failure == NumberFormat(categoryId.value)
    ensures r.Reply? && server.Refused? ==> r == Error(INTERNAL_SERVER_ERROR, "Database error: " + server.message)
    ensures r.Reply? && server.Runs? ==> r.status == OK && r.body.Entity?
    ensures r.Reply? && server.Runs? ==> forall x :: x in r.body.value ==>
      exists id :: id in db.items && db.items[id] == x && RequestMatches(x, name, description, categoryId, stockMin, stockMax)
    ensures r.Reply? && server.Runs? ==> forall id :: id in db.items && RequestMatches(db.items[id], name, description, categoryId, stockMin, stockMax) ==>
      db.items[id] in r.body.value
  {
    var criteria := SearchCriteria(name, description, categoryId, stockMin, stockMax);
    SearchCriteriaMeaning(criteria, name, description, categoryId, stockMin, stockMax);
    var found := ItemDao.SearchItems(db, Some(criteria));
    r := Listed(if found.Done? then Read(server, found.value) else found);
  }

  // ---------------------------------------------------------------------------
  // Properties

  /** A rejected item answers 400 with the message of the first failing check, whatever the
      DAO would have done: the DAO is not called. */
  lemma AddRejectedBeforeDao(item: Item, dao: Outcome<int>, other: Outcome<int>)
    requires !Acceptable(item)
    ensures AddItemResponse(item, dao) == AddItemResponse(item, other)
    ensures AddItemResponse(item, dao) == Error(BAD_REQUEST, if !NonEmpty(item.name) then NAME_REQUIRED else NEGATIVE_AMOUNT)
  {
  }

  /** For an accepted item: 201 with any id but -1, 500 "Failed to add item" for -1, 409 for
      an SQLException naming a duplicate entry, 500 for any other, and any other exception
      escapes. */
  lemma AddAcceptedMapping(item: Item, dao: Outcome<int>)
    requires Acceptable(item)
    ensures forall id :: dao == Done(id) && id != -1 ==> AddItemResponse(item, dao) == Reply(CREATED, CreatedId(id))
    ensures dao == Done(-1) ==> AddItemResponse(item, dao) == Error(INTERNAL_SERVER_ERROR, ADD_FAILED)
    ensures forall m :: dao == Raised(SqlException(m)) && Contains(m, DUPLICATE_ENTRY) ==>
      AddItemResponse(item, dao) == Error(CONFLICT, ADD_CONFLICT + m)
    ensures forall m :: dao == Raised(SqlException(m)) && !Contains(m, DUPLICATE_ENTRY) ==>
      AddItemResponse(item, dao) == Error(INTERNAL_SERVER_ERROR, "Database error: " + m)
    ensures dao.Raised? && !dao.failure.SqlException? ==> AddItemResponse(item, dao) == Propagated(dao.failure)
  {
  }

  /** A rejected update answers 400 with the update message of the first failing check and
      never reaches the DAO. */
  lemma UpdateRejectedBeforeDao(id: int, item: Item, dao: Item -> Outcome<bool>, other: Item -> Outcome<bool>)
    requires !Acceptable(item)
    ensures UpdateItemResponse(id, item, dao) == UpdateItemResponse(id, item, other)
    ensures UpdateItemResponse(id, item, dao) ==
      Error(BAD_REQUEST, (if !NonEmpty(item.name) then NAME_REQUIRED else NEGATIVE_AMOUNT) + FOR_UPDATE)
  {
  }

  /** The id in the body never matters: only the path id reaches the DAO and the messages. */
  lemma UpdateIgnoresBodyId(id: int, item: Item, dao: Item -> Outcome<bool>, bodyId: int)
    ensures UpdateItemResponse(id, item, dao) == UpdateItemResponse(id, item.(id := bodyId), dao)
  {
    assert item.(id := bodyId).(id := id) == item.(id := id);
  }

  /** For an accepted update, what the DAO did with the item under the path id decides:
      200 when a row matched, 404 naming the path id when none did, 409 or 500 for an
      SQLException, and any other exception escapes. */
  lemma UpdateAcceptedMapping(id: int, item: Item, dao: Item -> Outcome<bool>)
    requires Acceptable(item)
    ensures var o := dao(item.(id := id));
      o == Done(true) ==> UpdateItemResponse(id, item, dao) == Reply(OK, SuccessBody(UPDATED))
    ensures var o := dao(item.(id := id));
      o == Done(false) ==> UpdateItemResponse(id, item, dao) == Error(NOT_FOUND, NotFound(id))
    ensures var o := dao(item.(id := id));
      o.Raised? ==> UpdateItemResponse(id, item, dao) == ConflictOrDatabaseError(o.failure, UPDATE_CONFLICT)
  {
  }
}
