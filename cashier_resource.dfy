/** `/cashiers`: `CashierResource` is wired to the inline cashier DAO, so each endpoint is
    modelled as the resource's checks composed with that DAO's operation on the store. */
module CashierResource {
  import opened Common
  import opened Store
  import opened Http
  import opened Query
  import CashierDao

  const REQUIRED := "Required fields (name, gender, dob, address, nic, email) cannot be null"
  const APPROVED := "Cashier approved successfully"
  const REJECTED := "Cashier rejected successfully"
  const UPDATED := "Cashier updated successfully"
  const DELETED := "Cashier deleted successfully"
  const NOT_APPROVED := "Only approved cashiers can log in"

  function NotFound(id: int): string
  {
    "Cashier with ID " + IntToString(id) + " not found"
  }

  /** None of name, gender, dob, address, nic and email is null; phone may be. */
  predicate HasRequired(c: Cashier)
  {
    c.name.Some? && c.gender.Some? && c.dob.Some? && c.address.Some? && c.nic.Some? && c.email.Some?
  }

  predicate Approved(c: Cashier)
  {
    c.status == Some(STATUS_APPROVED)
  }

  /** `registerCashier`: the required fields, then 201 with whatever id the DAO returns;
      every SQLException is a 500, with no duplicate-entry case. */
  function RegisterCashierResponse(c: Cashier, dao: Outcome<int>): (r: Response<Cashier>)
    ensures r.Reply? && r.status == CREATED <==> HasRequired(c) && dao.Done?
    ensures !HasRequired(c) ==> r == Error(BAD_REQUEST, REQUIRED)
    ensures HasRequired(c) && dao.Raised? ==> r == DatabaseError(dao.failure)
  {
    if !HasRequired(c) then Error(BAD_REQUEST, REQUIRED)
    else CreatedAny(dao, None)
  }

  /** `updateCashier`: no field is checked; 200 when a row matched, 404 otherwise. */
  function UpdateCashierResponse(id: int, dao: Outcome<bool>): (r: Response<Cashier>)
    ensures dao == Done(true) ==> r == Reply(OK, SuccessBody(UPDATED))
    ensures dao == Done(false) ==> r == Error(NOT_FOUND, NotFound(id))
    ensures dao.Raised? ==> r == DatabaseError(dao.failure)
  {
    MatchedOrNotFound(dao, UPDATED, NotFound(id), None)
  }

  /** `loginCashier`. */
  function LoginResponse(dao: Outcome<Option<Cashier>>): (r: Response<Cashier>)
    ensures r.Reply? && r.status == OK <==> dao.Done? && dao.value.Some? && Approved(dao.value.value)
    ensures r.Reply? && r.status == OK ==> r.body == Entity(dao.value.value)
    ensures r.Reply? && r.status == UNAUTHORIZED <==> dao == Done(None)
    ensures r.Reply? && r.status == FORBIDDEN <==> dao.Done? && dao.value.Some? && !Approved(dao.value.value)
    ensures r.Reply? && r.status == FORBIDDEN ==> r.body == ErrorBody(NOT_APPROVED)
  {
    LoginReply(dao, Approved, NOT_APPROVED)
  }

  // ---------------------------------------------------------------------------
  // Endpoints over the store

  /** `GET /cashiers/{id}`: 200 with the stored cashier, 404 naming the id, or 500 when the
      server refuses the SELECT. */
  method Get(db: Database, id: int, server: Verdict) returns (r: Response<Cashier>)
    requires db.Valid()
    ensures server.Refused? ==> r == Error(INTERNAL_SERVER_ERROR, "Database error: " + server.message)
    ensures server.Runs? && id in db.cashiers ==> r == Reply(OK, Entity(db.cashiers[id]))
    ensures server.Runs? && id !in db.cashiers ==> r == Error(NOT_FOUND, NotFound(id))
  {
    var found := CashierDao.GetCashierById(db, id);
    r := FoundOrNotFound(Read(server, found), NotFound(id));
  }

  /** `POST /cashiers`: a registration missing a required field is answered 400 and the
      store is untouched; any other takes the next id, and either stores a pending cashier
      and is answered 201 with the DAO's id, -1 included, or is refused by the server and
      answered 500. */
  method Register(db: Database, c: Cashier, server: Verdict, keyReported: bool) returns (r: Response<Cashier>)
    requires db.Valid()
    modifies db`cashiers, db`nextCashierId
    ensures db.Valid()
    ensures !HasRequired(c) ==> r == Error(BAD_REQUEST, REQUIRED) && unchanged(db)
    ensures HasRequired(c) ==> db.nextCashierId == old(db.nextCashierId) + 1
    ensures HasRequired(c) && server.Refused? ==>
      r == Error(INTERNAL_SERVER_ERROR, "Database error: " + server.message) && db.cashiers == old(db.cashiers)
    ensures HasRequired(c) && server.Runs? ==>
      r == Reply(CREATED, CreatedId(if keyReported then old(db.nextCashierId) else -1))
    ensures HasRequired(c) && server.Runs? ==> (db.cashiers ==
      old(db.cashiers)[old(db.nextCashierId) := c.(id := old(db.nextCashierId), status := Some(STATUS_PENDING))])
  {
    if !HasRequired(c) {
      return Error(BAD_REQUEST, REQUIRED);
    }
    var id := CashierDao.RegisterCashier(db, c, server, keyReported);
    r := RegisterCashierResponse(c, id);
  }

  /** `PUT /cashiers/{id}`: the DAO gets the body under the path id. With no field check, a
      null date of birth reaches the DAO, whose `NullPointerException` leaves the resource
      uncaught; otherwise 200 exactly when the path id exists, and the status is kept, or
      500 when the server refuses the update. */
  method Update(db: Database, id: int, c: Cashier, server: Verdict) returns (r: Response<Cashier>)
    requires db.Valid()
    modifies db`cashiers
    ensures db.Valid()
    ensures c.dob.None? ==> r == Propagated(NullPointer) && db.cashiers == old(db.cashiers)
    ensures c.dob.Some? && server.Refused? ==>
      r == Error(INTERNAL_SERVER_ERROR, "Database error: " + server.message) && db.cashiers == old(db.cashiers)
    ensures c.dob.Some? && server.Runs? && id in old(db.cashiers) ==> (r == Reply(OK, SuccessBody(UPDATED)) &&
      db.cashiers == old(db.cashiers)[id := c.(id := id, status := old(db.cashiers)[id].status)])
    ensures c.dob.Some? && server.Runs? && id !in old(db.cashiers) ==> (r == Error(NOT_FOUND, NotFound(id)) &&
      db.cashiers == old(db.cashiers))
  {
    var matched := CashierDao.UpdateCashier(db, c.(id := id), server);
    r := UpdateCashierResponse(id, matched);
  }

  /** `PUT /cashiers/{id}/approve`: only that cashier's status changes, to `approved`. */
  method Approve(db: Database, id: int, server: Verdict) returns (r: Response<Cashier>)
    requires db.Valid()
    modifies db`cashiers
    ensures db.Valid()
    ensures server.Refused? ==>
      r == Error(INTERNAL_SERVER_ERROR, "Database error: " + server.message) && db.cashiers == old(db.cashiers)
    ensures server.Runs? && id in old(db.cashiers) ==> (r == Reply(OK, SuccessBody(APPROVED)) &&
      db.cashiers == old(db.cashiers)[id := old(db.cashiers)[id].(status := Some(STATUS_APPROVED))])
    ensures server.Runs? && id !in old(db.cashiers) ==>
      r == Error(NOT_FOUND, NotFound(id)) && db.cashiers == old(db.cashiers)
  {
    var matched := CashierDao.ApproveCashier(db, id, server);
    r := MatchedOrNotFound(matched, APPROVED, NotFound(id), None);
  }

  /** `PUT /cashiers/{id}/reject`: only that cashier's status changes, to `rejected`. */
  method Reject(db: Database, id: int, server: Verdict) returns (r: Response<Cashier>)
    requires db.Valid()
    modifies db`cashiers
    ensures db.Valid()
    ensures server.Refused? ==>
      r == Error(INTERNAL_SERVER_ERROR, "Database error: " + server.message) && db.cashiers == old(db.cashiers)
    ensures server.Runs? && id in old(db.cashiers) ==> (r == Reply(OK, SuccessBody(REJECTED)) &&
      db.cashiers == old(db.cashiers)[id := old(db.cashiers)[id].(status := Some(STATUS_REJECTED))])
    ensures server.Runs? && id !in old(db.cashiers) ==>
      r == Error(NOT_FOUND, NotFound(id)) && db.cashiers == old(db.cashiers)
  {
    var matched := CashierDao.RejectCashier(db, id, server);
    r := MatchedOrNotFound(matched, REJECTED, NotFound(id), None);
  }

  /** `DELETE /cashiers/{id}`: the cashier goes; 200 when it was there, 500 when the
      server refuses the delete. */
  method Delete(db: Database, id: int, server: Verdict) returns (r: Response<Cashier>)
    requires db.Valid()
    modifies db`cashiers
    ensures db.Valid()
    ensures server.Refused? ==>
      r == Error(INTERNAL_SERVER_ERROR, "Database error: " + server.message) && db.cashiers == old(db.cashiers)
    ensures server.Runs? ==> db.cashiers == old(db.cashiers) - {id}
    ensures server.Runs? && id in old(db.cashiers) ==> r == Reply(OK, SuccessBody(DELETED))
    ensures server.Runs? && id !in old(db.cashiers) ==> r == Error(NOT_FOUND, NotFound(id))
  {
    var matched := CashierDao.DeleteCashier(db, id, server);
    r := MatchedOrNotFound(matched, DELETED, NotFound(id), None);
  }

  // ---------------------------------------------------------------------------
  // Search

  const SEARCH_KEYS := {"name", "gender", "nic", "email", "phone", "status"}

  /** The criteria `searchCashiers` collects: each parameter that is a non-empty string
      under its key, and nothing else. */
  predicate CashierCriteria(criteria: map<string, string>, name: Option<string>, gender: Option<string>,
                            nic: Option<string>, email: Option<string>, phone: Option<string>, status: Option<string>)
  {
    && Collected(criteria, "name", name)
    && Collected(criteria, "gender", gender)
    && Collected(criteria, "nic", nic)
    && Collected(criteria, "email", email)
    && Collected(criteria, "phone", phone)
    && Collected(criteria, "status", status)
    && criteria.Keys <= SEARCH_KEYS
  }

  /** Filling the criteria map with one `put` per non-empty parameter. */
  method SearchCriteria(name: Option<string>, gender: Option<string>, nic: Option<string>, email: Option<string>,
                        phone: Option<string>, status: Option<string>) returns (criteria: map<string, string>)
    ensures CashierCriteria(criteria, name, gender, nic, email, phone, status)
  {
    criteria := PutIfNonEmpty(map[], "name", name);
    assert criteria.Keys <= {"name"};
    criteria := PutIfNonEmpty(criteria, "gender", gender);
    assert criteria.Keys <= {"name", "gender"};
    criteria := PutIfNonEmpty(criteria, "nic", nic);
    assert criteria.Keys <= {"name", "gender", "nic"};
    criteria := PutIfNonEmpty(criteria, "email", email);
    assert criteria.Keys <= {"name", "gender", "nic", "email"};
    criteria := PutIfNonEmpty(criteria, "phone", phone);
    assert criteria.Keys <= {"name", "gender", "nic", "email", "phone"};
    criteria := PutIfNonEmpty(criteria, "status", status);
  }

  /** A text parameter compared with `=`: when given, the column holds exactly it. */
  predicate Equal(v: Option<string>, param: Option<string>)
  {
    NonEmpty(param) ==> v == param
  }

  /** What the request's parameters ask of a cashier: the name contains the given text and
      every other given value equals its column. */
  predicate RequestMatches(c: Cashier, name: Option<string>, gender: Option<string>, nic: Option<string>,
                           email: Option<string>, phone: Option<string>, status: Option<string>)
  {
    && (NonEmpty(name) ==> c.name.Some? && Contains(c.name.value, name.value))
    && Equal(c.gender, gender) && Equal(c.nic, nic) && Equal(c.email, email) && Equal(c.phone, phone)
    && Equal(c.status, status)
  }

  /** The collected criteria ask of a cashier exactly what the parameters say. */
  lemma SearchCriteriaMeaning(criteria: map<string, string>, name: Option<string>, gender: Option<string>,
                              nic: Option<string>, email: Option<string>, phone: Option<string>,
                              status: Option<string>, c: Cashier)
    requires CashierCriteria(criteria, name, gender, nic, email, phone, status)
    ensures CashierDao.Wanted(c, Some(criteria)) <==> RequestMatches(c, name, gender, nic, email, phone, status)
  {
  }

  /** `GET /cashiers/search`: 200 with exactly the stored cashiers the parameters ask for,
      or 500 when the server refuses the SELECT. The caller's role that the resource
      computes takes no part. */
  method Search(db: Database, name: Option<string>, gender: Option<string>, nic: Option<string>, email: Option<string>,
                phone: Option<string>, status: Option<string>, server: Verdict) returns (r: Response<seq<Cashier>>)
    requires db.Valid()
    ensures server.Refused? ==> r == Error(INTERNAL_SERVER_ERROR, "Database error: " + server.message)
    ensures server.Runs? ==> r.Reply? && r.status == OK && r.body.Entity?
    ensures server.Runs? ==> forall x :: x in r.body.value ==> exists id :: (id in db.cashiers && db.cashiers[id] == x &&
      RequestMatches(x, name, gender, nic, email, phone, status))
    ensures server.Runs? ==> forall id :: (id in db.cashiers && RequestMatches(db.cashiers[id], name, gender, nic, email, phone, status)) ==>
      db.cashiers[id] in r.body.value
  {
    var criteria := SearchCriteria(name, gender, nic, email, phone, status);
    var found := CashierDao.SearchCashiers(db, Some(criteria));
    forall x ensures CashierDao.Wanted(x, Some(criteria)) <==> RequestMatches(x, name, gender, nic, email, phone, status) {
      SearchCriteriaMeaning(criteria, name, gender, nic, email, phone, status, x);
    }
    r := Listed(Read(server, found));
  }

  /** `POST /cashiers/login`: 500 when the server refuses the SELECT; otherwise 401 exactly
      when no stored cashier matches. The DAO's query already demands `approved`, so with
      exact string comparison the resource's 403 branch is unreachable and a 200 carries a
      stored, approved cashier with that name and email. */
  method Login(db: Database, username: Option<string>, email: Option<string>, server: Verdict) returns (r: Response<Cashier>)
    requires db.Valid()
    ensures server.Refused? ==> r == Error(INTERNAL_SERVER_ERROR, "Database error: " + server.message)
    ensures r.Reply? && r.status != FORBIDDEN
    ensures server.Runs? ==> (r.status == UNAUTHORIZED <==>
      forall id :: id in db.cashiers ==> !CashierDao.LoginMatches(db.cashiers[id], username, email))
    ensures server.Runs? ==> r.status != INTERNAL_SERVER_ERROR
    ensures r.status == OK ==> (r.body.Entity? && r.body.value.id in db.cashiers &&
      db.cashiers[r.body.value.id] == r.body.value && Approved(r.body.value) &&
      r.body.value.name == username && r.body.value.email == email)
  {
    var found := CashierDao.AuthenticateCashier(db, username, email);
    r := LoginResponse(Read(server, found));
  }

  // ---------------------------------------------------------------------------
  // Properties

  /** Registration answers 400 for a missing required field whatever the DAO would have
      done; otherwise 201 with the DAO's id, -1 included, and every SQLException is a 500,
      a duplicate entry included. */
  lemma RegisterMapping(c: Cashier, dao: Outcome<int>, other: Outcome<int>)
    ensures !HasRequired(c) ==> RegisterCashierResponse(c, dao) == RegisterCashierResponse(c, other)
    ensures !HasRequired(c) ==> RegisterCashierResponse(c, dao) == Error(BAD_REQUEST, REQUIRED)
    ensures HasRequired(c) && dao.Done? ==> RegisterCashierResponse(c, dao) == Reply(CREATED, CreatedId(dao.value))
    ensures forall m :: HasRequired(c) && dao == Raised(SqlException(m)) ==>
      RegisterCashierResponse(c, dao) == Error(INTERNAL_SERVER_ERROR, "Database error: " + m)
  {
  }

  /** The login rule on any DAO result: 401 for null, 403 for a cashier whose status is not
      `approved` (null included), 200 with the cashier otherwise. */
  lemma LoginMapping(dao: Outcome<Option<Cashier>>)
    ensures dao == Done(None) ==> LoginResponse(dao) == Error(UNAUTHORIZED, INVALID_LOGIN)
    ensures forall c :: dao == Done(Some(c)) && !Approved(c) ==> LoginResponse(dao) == Error(FORBIDDEN, NOT_APPROVED)
    ensures forall c :: dao == Done(Some(c)) && Approved(c) ==> LoginResponse(dao) == Reply(OK, Entity(c))
    ensures dao.Raised? ==> LoginResponse(dao) == DatabaseError(dao.failure)
  {
  }
}
