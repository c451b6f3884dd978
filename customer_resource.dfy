/** `/customers`: the required-field check of `CustomerResource`, how it maps what its DAO
    did to a response, the search criteria it collects and the login rule. The resource
    itself is wired to the stored-procedure DAO, whose procedures are not part of this
    model; `Search` and `Login` compose it with the inline `CustomerDao` instead. */
module CustomerResource {
  import opened Common
  import opened Store
  import opened Http
  import opened Query
  import CustomerDao

  const REQUIRED := "Required fields (name, gender, dob, address, nic, email) cannot be null"
  const DUPLICATE := "Duplicate entry for NIC or email: "
  const APPROVED := "Customer approved successfully"
  const REJECTED := "Customer rejected successfully"
  const UPDATED := "Customer updated successfully"
  const DELETED := "Customer deleted successfully"
  const NOT_APPROVED := "Only approved customers can log in"

  function NotFound(id: int): string
  {
    "Customer with ID " + IntToString(id) + " not found"
  }

  /** None of name, gender, dob, address, nic and email is null; empty strings pass, and
      phone and account number may be null. */
  predicate HasRequired(c: Customer)
  {
    c.name.Some? && c.gender.Some? && c.dob.Some? && c.address.Some? && c.nic.Some? && c.email.Some?
  }

  /** `getCustomerById`: 404 when the DAO finds nothing. */
  function GetCustomerResponse(id: int, dao: Outcome<Option<Customer>>): (r: Response<Customer>)
    ensures dao == Done(None) ==> r == Error(NOT_FOUND, NotFound(id))
    ensures forall c :: dao == Done(Some(c)) ==> r == Reply(OK, Entity(c))
    ensures dao.Raised? ==> r == DatabaseError(dao.failure)
  {
    FoundOrNotFound(dao, NotFound(id))
  }

  /** `registerCustomer`: the required fields, then 201 with whatever id the DAO returns. */
  function RegisterCustomerResponse(c: Customer, dao: Outcome<int>): (r: Response<Customer>)
    ensures r.Reply? && r.status == CREATED <==> HasRequired(c) && dao.Done?
    ensures !HasRequired(c) ==> r.Reply? && r.status == BAD_REQUEST
  {
    if !HasRequired(c) then Error(BAD_REQUEST, REQUIRED)
    else CreatedAny(dao, Some(DUPLICATE))
  }

  /** `updateCustomer`: the path id replaces the body's, the required fields are checked,
      and the DAO is handed the customer carrying the path id. */
  function UpdateCustomerResponse(id: int, c: Customer, dao: Customer -> Outcome<bool>): (r: Response<Customer>)
    ensures r.Reply? && r.status == OK <==> HasRequired(c) && dao(c.(id := id)) == Done(true)
    ensures !HasRequired(c) ==> r.Reply? && r.status == BAD_REQUEST
  {
    var updated := c.(id := id);
    if !HasRequired(updated) then Error(BAD_REQUEST, REQUIRED)
    else MatchedOrNotFound(dao(updated), UPDATED, NotFound(id), Some(DUPLICATE))
  }

  /** `approveCustomer`: 200 when the row matched, 404 otherwise. */
  function ApproveCustomerResponse(id: int, dao: Outcome<bool>): (r: Response<Customer>)
    ensures dao == Done(true) ==> r == Reply(OK, SuccessBody(APPROVED))
    ensures dao == Done(false) ==> r == Error(NOT_FOUND, NotFound(id))
    ensures dao.Raised? ==> r == DatabaseError(dao.failure)
  {
    MatchedOrNotFound(dao, APPROVED, NotFound(id), None)
  }

  /** `rejectCustomer`: 200 when the row matched, 404 otherwise. */
  function RejectCustomerResponse(id: int, dao: Outcome<bool>): (r: Response<Customer>)
    ensures dao == Done(true) ==> r == Reply(OK, SuccessBody(REJECTED))
    ensures dao == Done(false) ==> r == Error(NOT_FOUND, NotFound(id))
    ensures dao.Raised? ==> r == DatabaseError(dao.failure)
  {
    MatchedOrNotFound(dao, REJECTED, NotFound(id), None)
  }

  /** `deleteCustomer`: 200 when a row went, 404 otherwise. */
  function DeleteCustomerResponse(id: int, dao: Outcome<bool>): (r: Response<Customer>)
    ensures dao == Done(true) ==> r == Reply(OK, SuccessBody(DELETED))
    ensures dao == Done(false) ==> r == Error(NOT_FOUND, NotFound(id))
    ensures dao.Raised? ==> r == DatabaseError(dao.failure)
  {
    MatchedOrNotFound(dao, DELETED, NotFound(id), None)
  }

  predicate Approved(c: Customer)
  {
    c.status == Some(STATUS_APPROVED)
  }

  /** `loginCustomer`. */
  function LoginResponse(dao: Outcome<Option<Customer>>): (r: Response<Customer>)
    ensures r.Reply? && r.status == OK <==> dao.Done? && dao.value.Some? && Approved(dao.value.value)
    ensures r.Reply? && r.status == OK ==> r.body == Entity(dao.value.value)
    ensures r.Reply? && r.status == UNAUTHORIZED <==> dao == Done(None)
    ensures r.Reply? && r.status == FORBIDDEN <==> dao.Done? && dao.value.Some? && !Approved(dao.value.value)
    ensures r.Reply? && r.status == FORBIDDEN ==> r.body == ErrorBody(NOT_APPROVED)
  {
    LoginReply(dao, Approved, NOT_APPROVED)
  }

  // ---------------------------------------------------------------------------
  // Search

  const SEARCH_KEYS := {"name", "gender", "nic", "email", "phone", "accountNumber", "status"}

  /** The criteria `searchCustomers` collects: each parameter that is a non-empty string
      under its key (the account number as `accountNumber`), and nothing else. */
  predicate CustomerCriteria(criteria: map<string, string>, name: Option<string>, gender: Option<string>,
                             nic: Option<string>, email: Option<string>, phone: Option<string>,
                             accountNumber: Option<string>, status: Option<string>)
  {
    && Collected(criteria, "name", name)
    && Collected(criteria, "gender", gender)
    && Collected(criteria, "nic", nic)
    && Collected(criteria, "email", email)
    && Collected(criteria, "phone", phone)
    && Collected(criteria, "accountNumber", accountNumber)
    && Collected(criteria, "status", status)
    && criteria.Keys <= SEARCH_KEYS
  }

  /** Filling the criteria map with one `put` per non-empty parameter. */
  method SearchCriteria(name: Option<string>, gender: Option<string>, nic: Option<string>, email: Option<string>,
                        phone: Option<string>, accountNumber: Option<string>, status: Option<string>)
    returns (criteria: map<string, string>)
    ensures CustomerCriteria(criteria, name, gender, nic, email, phone, accountNumber, status)
  {
    criteria := PutIfNonEmpty(map[], "name", name);
    assert criteria.Keys <= {"name"};
    criteria := PutIfNonEmpty(criteria, "gender", gender);
    assert criteria.Keys <= {"name", "gender"};
    criteria := PutIfNonEmpty(criteria, "nic", nic);
    assert criteria.Keys <= {"name", "gender", "nic"};
    criteria := PutIfNonEmpty(criteria, "email", email);
    assert criteria.Keys <= {"name", "gender", "nic", "email"};
    criteria := PutIfNonEmpty(criteria, "phone", phone);
    assert criteria.Keys <= {"name", "gender", "nic", "email", "phone"};
    criteria := PutIfNonEmpty(criteria, "accountNumber", accountNumber);
    assert criteria.Keys <= {"name", "gender", "nic", "email", "phone", "accountNumber"};
    criteria := PutIfNonEmpty(criteria, "status", status);
  }

  /** A text parameter compared with `=`: when given, the column holds exactly it. */
  predicate Equal(v: Option<string>, param: Option<string>)
  {
    NonEmpty(param) ==> v == param
  }

  /** What the request's parameters ask of a customer: the name contains the given text and
      every other given value equals its column. */
  predicate RequestMatches(c: Customer, name: Option<string>, gender: Option<string>, nic: Option<string>,
                           email: Option<string>, phone: Option<string>, accountNumber: Option<string>,
                           status: Option<string>)
  {
    && (NonEmpty(name) ==> c.name.Some? && Contains(c.name.value, name.value))
    && Equal(c.gender, gender) && Equal(c.nic, nic) && Equal(c.email, email) && Equal(c.phone, phone)
    && Equal(c.accountNumber, accountNumber) && Equal(c.status, status)
  }

  /** The collected criteria ask of a customer exactly what the parameters say. */
  lemma SearchCriteriaMeaning(criteria: map<string, string>, name: Option<string>, gender: Option<string>,
                              nic: Option<string>, email: Option<string>, phone: Option<string>,
                              accountNumber: Option<string>, status: Option<string>, c: Customer)
    requires CustomerCriteria(criteria, name, gender, nic, email, phone, accountNumber, status)
    ensures CustomerDao.Wanted(c, Some(criteria)) <==>
      RequestMatches(c, name, gender, nic, email, phone, accountNumber, status)
  {
  }

  /** `searchCustomers` over the inline DAO: 200 with exactly the stored customers the
      parameters ask for, or 500 when the server refuses the SELECT; building the query
      itself never fails. */
  method Search(db: Database, name: Option<string>, gender: Option<string>, nic: Option<string>, email: Option<string>,
                phone: Option<string>, accountNumber: Option<string>, status: Option<string>, server: Verdict)
    returns (r: Response<seq<Customer>>)
    requires db.Valid()
    ensures server.Refused? ==> r == Error(INTERNAL_SERVER_ERROR, "Database error: " + server.message)
    ensures server.Runs? ==> r.Reply? && r.status == OK && r.body.Entity?
    ensures server.Runs? ==> forall x :: x in r.body.value ==> exists id :: (id in db.customers && db.customers[id] == x &&
      RequestMatches(x, name, gender, nic, email, phone, accountNumber, status))
    ensures server.Runs? ==> forall id :: (id in db.customers &&
      RequestMatches(db.customers[id], name, gender, nic, email, phone, accountNumber, status)) ==>
      db.customers[id] in r.body.value
  {
    var criteria := SearchCriteria(name, gender, nic, email, phone, accountNumber, status);
    var found := CustomerDao.SearchCustomers(db, Some(criteria));
    forall x ensures CustomerDao.Wanted(x, Some(criteria)) <==>
      RequestMatches(x, name, gender, nic, email, phone, accountNumber, status)
    {
      SearchCriteriaMeaning(criteria, name, gender, nic, email, phone, accountNumber, status, x);
    }
    r := Listed(Read(server, found));
  }

  /** `loginCustomer` over the inline DAO: 500 when the server refuses the SELECT; otherwise
      401 exactly when no stored customer matches. Since the query already demands
      `approved`, with exact string comparison 403 never happens and a 200 carries a stored,
      approved customer with that name and email. */
  method Login(db: Database, username: Option<string>, email: Option<string>, server: Verdict) returns (r: Response<Customer>)
    requires db.Valid()
    ensures server.Refused? ==> r == Error(INTERNAL_SERVER_ERROR, "Database error: " + server.message)
    ensures r.Reply? && r.status != FORBIDDEN
    ensures server.Runs? ==> (r.status == UNAUTHORIZED <==>
      forall id :: id in db.customers ==> !CustomerDao.LoginMatches(db.customers[id], username, email))
    ensures server.Runs? ==> r.status != INTERNAL_SERVER_ERROR
    ensures r.status == OK ==> (r.body.Entity? && r.body.value.id in db.customers &&
      db.customers[r.body.value.id] == r.body.value && Approved(r.body.value) &&
      r.body.value.name == username && r.body.value.email == email)
  {
    var found := CustomerDao.AuthenticateCustomer(db, username, email);
    r := LoginResponse(Read(server, found));
  }

  // ---------------------------------------------------------------------------
  // Properties

  /** A registration missing a required field answers 400 and never reaches the DAO. */
  lemma RegisterRejectedBeforeDao(c: Customer, dao: Outcome<int>, other: Outcome<int>)
    requires !HasRequired(c)
    ensures RegisterCustomerResponse(c, dao) == RegisterCustomerResponse(c, other)
    ensures RegisterCustomerResponse(c, dao) == Error(BAD_REQUEST, REQUIRED)
  {
  }

  /** For a complete registration: 201 with whatever id the DAO returned, -1 included; 409
      for an SQLException naming a duplicate entry, 500 for any other. */
  lemma RegisterAcceptedMapping(c: Customer, dao: Outcome<int>)
    requires HasRequired(c)
    ensures forall id :: dao == Done(id) ==> RegisterCustomerResponse(c, dao) == Reply(CREATED, CreatedId(id))
    ensures RegisterCustomerResponse(c, Done(-1)) == Reply(CREATED, CreatedId(-1))
    ensures forall m :: dao == Raised(SqlException(m)) && Contains(m, DUPLICATE_ENTRY) ==>
      RegisterCustomerResponse(c, dao) == Error(CONFLICT, DUPLICATE + m)
    ensures forall m :: dao == Raised(SqlException(m)) && !Contains(m, DUPLICATE_ENTRY) ==>
      RegisterCustomerResponse(c, dao) == Error(INTERNAL_SERVER_ERROR, "Database error: " + m)
  {
  }

  /** The inline DAO dereferences the date of birth; the resource never lets a null one
      through, so neither registration nor update meets that NullPointerException. */
  lemma NullDobRejected(id: int, c: Customer, reg: Outcome<int>, upd: Customer -> Outcome<bool>)
    requires c.dob.None?
    ensures RegisterCustomerResponse(c, reg) == Error(BAD_REQUEST, REQUIRED)
    ensures UpdateCustomerResponse(id, c, upd) == Error(BAD_REQUEST, REQUIRED)
  {
  }

  /** An update missing a required field answers 400 and never reaches the DAO. */
  lemma UpdateRejectedBeforeDao(id: int, c: Customer, dao: Customer -> Outcome<bool>, other: Customer -> Outcome<bool>)
    requires !HasRequired(c)
    ensures UpdateCustomerResponse(id, c, dao) == UpdateCustomerResponse(id, c, other)
    ensures UpdateCustomerResponse(id, c, dao) == Error(BAD_REQUEST, REQUIRED)
  {
  }

  /** The id in the body never matters: only the path id reaches the DAO and the messages. */
  lemma UpdateIgnoresBodyId(id: int, c: Customer, dao: Customer -> Outcome<bool>, bodyId: int)
    ensures UpdateCustomerResponse(id, c, dao) == UpdateCustomerResponse(id, c.(id := bodyId), dao)
  {
    assert c.(id := bodyId).(id := id) == c.(id := id);
  }

  /** For a complete update, what the DAO did with the customer under the path id decides. */
  lemma UpdateAcceptedMapping(id: int, c: Customer, dao: Customer -> Outcome<bool>)
    requires HasRequired(c)
    ensures var o := dao(c.(id := id));
      o == Done(true) ==> UpdateCustomerResponse(id, c, dao) == Reply(OK, SuccessBody(UPDATED))
    ensures var o := dao(c.(id := id));
      o == Done(false) ==> UpdateCustomerResponse(id, c, dao) == Error(NOT_FOUND, NotFound(id))
    ensures var o := dao(c.(id := id));
      o.Raised? ==> UpdateCustomerResponse(id, c, dao) == ConflictOrDatabaseError(o.failure, DUPLICATE)
  {
  }

  /** The login rule on any DAO result: 401 for null, 403 for a customer whose status is
      not `approved` (null included), 200 with the customer otherwise. */
  lemma LoginMapping(dao: Outcome<Option<Customer>>)
    ensures dao == Done(None) ==> LoginResponse(dao) == Error(UNAUTHORIZED, INVALID_LOGIN)
    ensures forall c :: dao == Done(Some(c)) && !Approved(c) ==> LoginResponse(dao) == Error(FORBIDDEN, NOT_APPROVED)
    ensures forall c :: dao == Done(Some(c)) && Approved(c) ==> LoginResponse(dao) == Reply(OK, Entity(c))
    ensures dao.Raised? ==> LoginResponse(dao) == DatabaseError(dao.failure)
  {
  }
}
