/** The HTTP side of the resource classes: status codes, the JSON bodies they send, and the
    catch blocks they share. A resource method is modelled as a function of the request and of
    what its DAO call did. */
module Http {
  import opened Common

  const OK := 200
  const CREATED := 201
  const BAD_REQUEST := 400
  const UNAUTHORIZED := 401
  const FORBIDDEN := 403
  const NOT_FOUND := 404
  const CONFLICT := 409
  const INTERNAL_SERVER_ERROR := 500

  const DUPLICATE_ENTRY := "Duplicate entry"

  /** The entity of a response: `ErrorResponse`, `SuccessResponse`, a new id, or a record. */
  datatype Body<+T> =
    | ErrorBody(error: string)
    | SuccessBody(message: string)
    | CreatedId(id: int)
    | Entity(value: T)

  /** What a resource method produces: a response, or an exception that is not an
      SQLException and so leaves the method uncaught. */
  datatype Response<+T> = Reply(status: int, body: Body<T>) | Propagated(failure: Failure)

  function Error<T>(status: int, message: string): Response<T>
  {
    Reply(status, ErrorBody(message))
  }

  /** `catch (SQLException e)`: 500 with the message; anything else is not caught. */
  function DatabaseError<T>(f: Failure): (r: Response<T>)
    ensures r.Reply? <==> f.SqlException?
    ensures f.SqlException? ==> r == Error(INTERNAL_SERVER_ERROR, "Database error: " + f.message)
    ensures !f.SqlException? ==> r == Propagated(f)
  {
    match f
    case SqlException(m) => Error(INTERNAL_SERVER_ERROR, "Database error: " + m)
    case _ => Propagated(f)
  }

  /** The same catch block with the unique-key test first: a message containing
      "Duplicate entry" gives 409. */
  function ConflictOrDatabaseError<T>(f: Failure, conflict: string): (r: Response<T>)
    ensures r.Reply? <==> f.SqlException?
    ensures f.SqlException? ==>
      r.status == (if Contains(f.message, DUPLICATE_ENTRY) then CONFLICT else INTERNAL_SERVER_ERROR)
    ensures f.SqlException? && Contains(f.message, DUPLICATE_ENTRY) ==> r.body == ErrorBody(conflict + f.message)
    ensures !f.SqlException? ==> r == Propagated(f)
  {
    if f.SqlException? && Contains(f.message, DUPLICATE_ENTRY) then Error(CONFLICT, conflict + f.message)
    else DatabaseError(f)
  }

  /** A create call that returns the generated id or -1: 201 with the id, or 500. */
  function CreatedOrFailed<T>(dao: Outcome<int>, failed: string, conflict: Option<string>): (r: Response<T>)
    ensures r.Reply? && r.status == CREATED <==> dao.Done? && dao.value != -1
    ensures dao.Done? && dao.value != -1 ==> r == Reply(CREATED, CreatedId(dao.value))
    ensures dao == Done(-1) ==> r == Error(INTERNAL_SERVER_ERROR, failed)
    ensures dao.Raised? ==> r == (if conflict.Some? then ConflictOrDatabaseError(dao.failure, conflict.value)
                                  else DatabaseError(dao.failure))
  {
    match dao
    case Done(id) => if id != -1 then Reply(CREATED, CreatedId(id)) else Error(INTERNAL_SERVER_ERROR, failed)
    case Raised(f) => if conflict.Some? then ConflictOrDatabaseError(f, conflict.value) else DatabaseError(f)
  }

  /** An update, approve, reject or delete call that reports whether a row matched:
      200 on true, 404 on false. */
  function MatchedOrNotFound<T>(dao: Outcome<bool>, success: string, notFound: string, conflict: Option<string>)
    : (r: Response<T>)
    ensures r.Reply? && r.status == OK <==> dao == Done(true)
    ensures dao == Done(true) ==> r == Reply(OK, SuccessBody(success))
    ensures dao == Done(false) ==> r == Error(NOT_FOUND, notFound)
    ensures dao.Raised? ==> r == (if conflict.Some? then ConflictOrDatabaseError(dao.failure, conflict.value)
                                  else DatabaseError(dao.failure))
  {
    match dao
    case Done(matched) => if matched then Reply(OK, SuccessBody(success)) else Error(NOT_FOUND, notFound)
    case Raised(f) => if conflict.Some? then ConflictOrDatabaseError(f, conflict.value) else DatabaseError(f)
  }

  /** A lookup by id: 200 with the record, or 404 when the DAO returns null. */
  function FoundOrNotFound<T>(dao: Outcome<Option<T>>, notFound: string): (r: Response<T>)
    ensures r.Reply? && r.status == NOT_FOUND <==> dao == Done(None)
    ensures dao.Done? && dao.value.Some? ==> r == Reply(OK, Entity(dao.value.value))
    ensures dao == Done(None) ==> r == Error(NOT_FOUND, notFound)
    ensures dao.Raised? ==> r == DatabaseError(dao.failure)
  {
    match dao
    case Done(found) => if found.Some? then Reply(OK, Entity(found.value)) else Error(NOT_FOUND, notFound)
    case Raised(f) => DatabaseError(f)
  }
  /** A create call whose id is sent back unchecked: 201 with whatever the DAO returned,
      -1 included. */
  function CreatedAny<T>(dao: Outcome<int>, conflict: Option<string>): (r: Response<T>)
    ensures r.Reply? && r.status == CREATED <==> dao.Done?
    ensures dao.Done? ==> r == Reply(CREATED, CreatedId(dao.value))
    ensures dao.Raised? ==> r == (if conflict.Some? then ConflictOrDatabaseError(dao.failure, conflict.value)
                                  else DatabaseError(dao.failure))
  {
    match dao
    case Done(id) => Reply(CREATED, CreatedId(id))
    case Raised(f) => if conflict.Some? then ConflictOrDatabaseError(f, conflict.value) else DatabaseError(f)
  }

  /** A search or a report: 200 with what the DAO returned, or the database error. */
  function Listed<T>(dao: Outcome<T>): (r: Response<T>)
    ensures r.Reply? && r.status == OK <==> dao.Done?
    ensures dao.Done? ==> r == Reply(OK, Entity(dao.value))
    ensures dao.Raised? ==> r == DatabaseError(dao.failure)
  {
    match dao
    case Done(v) => Reply(OK, Entity(v))
    case Raised(f) => DatabaseError(f)
  }
  const INVALID_LOGIN := "Invalid username or email"

  /** A login: 401 when the DAO finds no account, 403 when the account it finds is not
      approved, 200 with the account otherwise. */
  function LoginReply<T>(dao: Outcome<Option<T>>, approved: T -> bool, forbidden: string): (r: Response<T>)
    ensures r.Reply? <==> dao.Done? || dao.failure.SqlException?
    ensures r.Reply? && r.status == UNAUTHORIZED <==> dao == Done(None)
    ensures r.Reply? && r.status == FORBIDDEN <==> dao.Done? && dao.value.Some? && !approved(dao.value.value)
    ensures r.Reply? && r.status == OK <==> dao.Done? && dao.value.Some? && approved(dao.value.value)
    ensures r.Reply? && r.status == OK ==> r.body == Entity(dao.value.value)
  {
    match dao
    case Done(None) => Error(UNAUTHORIZED, INVALID_LOGIN)
    case Done(Some(account)) => if approved(account) then Reply(OK, Entity(account)) else Error(FORBIDDEN, forbidden)
    case Raised(f) => DatabaseError(f)
  }
}
