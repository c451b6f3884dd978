/** `/categories`: the name check of `CategoryResource`, how it maps what its DAO did to a
    response, and the search criteria it collects. The resource itself is wired to the
    stored-procedure DAO, whose procedures are not part of this model; `Search` composes
    it with the inline `CategoryDao` of the same table instead. */
module CategoryResource {
  import opened Common
  import opened Store
  import opened Http
  import opened Query
  import CategoryDao

  const NAME_REQUIRED := "Required field 'name' cannot be null or empty"
  const FOR_UPDATE := " for update"
  const ADD_FAILED := "Failed to add category"
  const ADD_CONFLICT := "Duplicate entry for category name: "
  const UPDATE_CONFLICT := "Duplicate entry for category name during update: "
  const UPDATED := "Category updated successfully"
  const DELETED := "Category deleted successfully"

  function NotFound(id: int): string
  {
    "Category with ID " + IntToString(id) + " not found"
  }

  /** `getCategoryById`: 404 when the DAO finds nothing. */
  function GetCategoryResponse(id: int, dao: Outcome<Option<Category>>): (r: Response<Category>)
    ensures dao == Done(None) ==> r == Error(NOT_FOUND, NotFound(id))
    ensures forall c :: dao == Done(Some(c)) ==> r == Reply(OK, Entity(c))
    ensures dao.Raised? ==> r == DatabaseError(dao.failure)
  {
    FoundOrNotFound(dao, NotFound(id))
  }

  /** `addCategory`: the name must be a non-empty string; only then does the DAO's result
      count. */
  function AddCategoryResponse(c: Category, dao: Outcome<int>): (r: Response<Category>)
    ensures r.Reply? && r.status == CREATED <==> NonEmpty(c.name) && dao.Done? && dao.value != -1
    ensures !NonEmpty(c.name) ==> r.Reply? && r.status == BAD_REQUEST
  {
    if !NonEmpty(c.name) then Error(BAD_REQUEST, NAME_REQUIRED)
    else CreatedOrFailed(dao, ADD_FAILED, Some(ADD_CONFLICT))
  }

  /** `updateCategory`: the path id replaces the body's, the name is checked, and the DAO is
      handed the category carrying the path id. */
  function UpdateCategoryResponse(id: int, c: Category, dao: Category -> Outcome<bool>): (r: Response<Category>)
    ensures r.Reply? && r.status == OK <==> NonEmpty(c.name) && dao(c.(id := id)) == Done(true)
    ensures !NonEmpty(c.name) ==> r.Reply? && r.status == BAD_REQUEST
  {
    var updated := c.(id := id);
    if !NonEmpty(updated.name) then Error(BAD_REQUEST, NAME_REQUIRED + FOR_UPDATE)
    else MatchedOrNotFound(dao(updated), UPDATED, NotFound(id), Some(UPDATE_CONFLICT))
  }

  /** `deleteCategory`: 200 when a row went, 404 otherwise; no conflict mapping. */
  function DeleteCategoryResponse(id: int, dao: Outcome<bool>): (r: Response<Category>)
    ensures dao == Done(true) ==> r == Reply(OK, SuccessBody(DELETED))
    ensures dao == Done(false) ==> r == Error(NOT_FOUND, NotFound(id))
    ensures dao.Raised? ==> r == DatabaseError(dao.failure)
  {
    MatchedOrNotFound(dao, DELETED, NotFound(id), None)
  }

  // ---------------------------------------------------------------------------
  // Search

  /** The criteria `searchCategories` collects: a non-empty name and a non-empty
      description under their keys, and nothing else. */
  predicate CategoryCriteria(criteria: map<string, string>, name: Option<string>, description: Option<string>)
  {
    && Collected(criteria, "name", name)
    && Collected(criteria, "description", description)
    && criteria.Keys <= {"name", "description"}
  }

  method SearchCriteria(name: Option<string>, description: Option<string>) returns (criteria: map<string, string>)
    ensures CategoryCriteria(criteria, name, description)
  {
    criteria := PutIfNonEmpty(map[], "name", name);
    criteria := PutIfNonEmpty(criteria, "description", description);
  }

  /** What the request's parameters ask of a category: each given text occurs in its
      column. */
  predicate RequestMatches(c: Category, name: Option<string>, description: Option<string>)
  {
    && (NonEmpty(name) ==> c.name.Some? && Contains(c.name.value, name.value))
    && (NonEmpty(description) ==> c.description.Some? && Contains(c.description.value, description.value))
  }

  /** `searchCategories` over the inline DAO: 200 with exactly the stored categories the
      parameters ask for (with neither parameter, every category), or 500 when the server
      refuses the SELECT. */
  method Search(db: Database, name: Option<string>, description: Option<string>, server: Verdict)
    returns (r: Response<seq<Category>>)
    requires db.Valid()
    ensures server.Refused? ==> r == Error(INTERNAL_SERVER_ERROR, "Database error: " + server.message)
    ensures server.Runs? ==> r.Reply? && r.status == OK && r.body.Entity?
    ensures server.Runs? ==> forall x :: x in r.body.value ==>
      exists id :: id in db.categories && db.categories[id] == x && RequestMatches(x, name, description)
    ensures server.Runs? ==> forall id :: id in db.categories && RequestMatches(db.categories[id], name, description) ==>
      db.categories[id] in r.body.value
  {
    var criteria := SearchCriteria(name, description);
    var found := CategoryDao.SearchCategories(db, Some(criteria));
    r := Listed(Read(server, found));
  }

  // ---------------------------------------------------------------------------
  // Properties

  /** A nameless category answers 400 whatever the DAO would have done. */
  lemma AddRejectedBeforeDao(c: Category, dao: Outcome<int>, other: Outcome<int>)
    requires !NonEmpty(c.name)
    ensures AddCategoryResponse(c, dao) == AddCategoryResponse(c, other) == Error(BAD_REQUEST, NAME_REQUIRED)
  {
  }

  /** For a named category: 201 with any id but -1, 500 "Failed to add category" for -1,
      409 for an SQLException naming a duplicate entry and 500 for any other. */
  lemma AddAcceptedMapping(c: Category, dao: Outcome<int>)
    requires NonEmpty(c.name)
    ensures forall id :: dao == Done(id) && id != -1 ==> AddCategoryResponse(c, dao) == Reply(CREATED, CreatedId(id))
    ensures dao == Done(-1) ==> AddCategoryResponse(c, dao) == Error(INTERNAL_SERVER_ERROR, ADD_FAILED)
    ensures forall m :: dao == Raised(SqlException(m)) && Contains(m, DUPLICATE_ENTRY) ==>
      AddCategoryResponse(c, dao) == Error(CONFLICT, ADD_CONFLICT + m)
    ensures forall m :: dao == Raised(SqlException(m)) && !Contains(m, DUPLICATE_ENTRY) ==>
      AddCategoryResponse(c, dao) == Error(INTERNAL_SERVER_ERROR, "Database error: " + m)
  {
  }

  /** A nameless update answers 400 and never reaches the DAO; the body's id never matters;
      otherwise the DAO's result for the category under the path id decides. */
  lemma UpdateMapping(id: int, c: Category, dao: Category -> Outcome<bool>, other: Category -> Outcome<bool>, bodyId: int)
    ensures UpdateCategoryResponse(id, c, dao) == UpdateCategoryResponse(id, c.(id := bodyId), dao)
    ensures !NonEmpty(c.name) ==>
      UpdateCategoryResponse(id, c, dao) == UpdateCategoryResponse(id, c, other) == Error(BAD_REQUEST, NAME_REQUIRED + FOR_UPDATE)
    ensures NonEmpty(c.name) && dao(c.(id := id)) == Done(true) ==>
      UpdateCategoryResponse(id, c, dao) == Reply(OK, SuccessBody(UPDATED))
    ensures NonEmpty(c.name) && dao(c.(id := id)) == Done(false) ==>
      UpdateCategoryResponse(id, c, dao) == Error(NOT_FOUND, NotFound(id))
    ensures NonEmpty(c.name) && dao(c.(id := id)).Raised? ==>
      UpdateCategoryResponse(id, c, dao) == ConflictOrDatabaseError(dao(c.(id := id)).failure, UPDATE_CONFLICT)
  {
    assert c.(id := bodyId).(id := id) == c.(id := id);
  }
}
