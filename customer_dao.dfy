/** The inline-SQL Customer DAO: lookup, registration, update, deletion, approval and
    rejection on the customer table, the search query with its seven optional criteria, and
    login by name and email. */
module CustomerDao {
  import opened Common
  import opened Store
  import opened Query

  const CUSTOMER_BASE := "SELECT id, name, gender, dob, address, " + "nic, email, phone, account_number, " +
    "status, created_at, updated_at " + "FROM customer WHERE 1=1"

  /** The search blocks in the order the builder tests them; the account-number criterion is
      keyed `accountNumber` but compares the `account_number` column. */
  const CUSTOMER_KEYS := [
    KeySpec("name", "name", Like, Wrapped),
    KeySpec("gender", "gender", Equals, Verbatim),
    KeySpec("nic", "nic", Equals, Verbatim),
    KeySpec("email", "email", Equals, Verbatim),
    KeySpec("phone", "phone", Equals, Verbatim),
    KeySpec("accountNumber", "account_number", Equals, Verbatim),
    KeySpec("status", "status", Equals, Verbatim)]

  /** A customer row's searchable columns as the database compares them. */
  function CustomerRow(c: Customer): Row
  {
    map[
      "id" := Number(c.id),
      "name" := TextOrNull(c.name),
      "gender" := TextOrNull(c.gender),
      "nic" := TextOrNull(c.nic),
      "email" := TextOrNull(c.email),
      "phone" := TextOrNull(c.phone),
      "account_number" := TextOrNull(c.accountNumber),
      "status" := TextOrNull(c.status)]
  }

  // ---------------------------------------------------------------------------
  // Table operations

  /** `getCustomerById`: the row with that id, or null. */
  method GetCustomerById(db: Database, id: int) returns (r: Option<Customer>)
    requires db.Valid()
    ensures r.Some? <==> id in db.customers
    ensures r.Some? ==> r.value == db.customers[id] && r.value.id == id
  {
    if id in db.customers {
      return Some(db.customers[id]);
    }
    return None;
  }

  /** `registerCustomer`: `Date.valueOf` of a null date of birth throws before the insert;
      otherwise the insert takes the next id and, when `server` runs it, stores the row with
      the given fields, the account number included, and status `pending` whatever status
      was supplied. The id is returned
      when the driver reports it, -1 otherwise; a refused insert raises its message. */
  method RegisterCustomer(db: Database, c: Customer, server: Verdict, keyReported: bool) returns (r: Outcome<int>)
    requires db.Valid()
    modifies db`customers, db`nextCustomerId
    ensures db.Valid()
    ensures c.dob.None? ==> r == Raised(NullPointer) && unchanged(db)
    ensures c.dob.Some? ==> db.nextCustomerId == old(db.nextCustomerId) + 1
    ensures c.dob.Some? && server.Refused? ==>
      r == Raised(SqlException(server.message)) && db.customers == old(db.customers)
    ensures c.dob.Some? && server.Runs? ==>
      && db.customers == old(db.customers)[old(db.nextCustomerId) := c.(id := old(db.nextCustomerId), status := Some(STATUS_PENDING))]
      && r == Done(if keyReported then old(db.nextCustomerId) else -1)
  {
    if c.dob.None? {
      return Raised(NullPointer);
    }
    var key := db.nextCustomerId;
    db.nextCustomerId := key + 1;
    if server.Refused? {
      return Raised(SqlException(server.message));
    }
    db.customers := db.customers[key := c.(id := key, status := Some(STATUS_PENDING))];
    r := Done(if keyReported then key else -1);
  }

  /** `updateCustomer`: a null date of birth throws before the update; otherwise name,
      gender, date of birth, address, NIC, email, phone and account number are overwritten and
      the status is kept; true exactly when a row with that id exists. A refused update raises. */
  method UpdateCustomer(db: Database, c: Customer, server: Verdict) returns (r: Outcome<bool>)
    requires db.Valid()
    modifies db`customers
    ensures db.Valid()
    ensures c.dob.None? ==> r == Raised(NullPointer) && db.customers == old(db.customers)
    ensures c.dob.Some? && server.Refused? ==>
      r == Raised(SqlException(server.message)) && db.customers == old(db.customers)
    ensures c.dob.Some? && server.Runs? ==> r == Done(c.id in old(db.customers))
    ensures c.dob.Some? && server.Runs? ==> (db.customers ==
      if c.id in old(db.customers) then old(db.customers)[c.id := c.(status := old(db.customers)[c.id].status)]
      else old(db.customers))
  {
    if c.dob.None? {
      return Raised(NullPointer);
    }
    if server.Refused? {
      return Raised(SqlException(server.message));
    }
    var matched := c.id in db.customers;
    if matched {
      db.customers := db.customers[c.id := c.(status := db.customers[c.id].status)];
    }
    r := Done(matched);
  }

  /** `deleteCustomer`: the row goes; true exactly when it was there. A refused delete
      raises and the row stays. */
  method DeleteCustomer(db: Database, id: int, server: Verdict) returns (r: Outcome<bool>)
    requires db.Valid()
    modifies db`customers
    ensures db.Valid()
    ensures server.Refused? ==> r == Raised(SqlException(server.message)) && db.customers == old(db.customers)
    ensures server.Runs? ==> r == Done(id in old(db.customers)) && db.customers == old(db.customers) - {id}
    ensures server.Runs? ==> id !in db.customers
  {
    if server.Refused? {
      return Raised(SqlException(server.message));
    }
    r := Done(id in db.customers);
    db.customers := db.customers - {id};
  }

  /** `updateStatus`: only the status of the row with that id changes; true exactly when the
      row exists. A refused update raises. */
  method UpdateStatus(db: Database, id: int, status: string, server: Verdict) returns (r: Outcome<bool>)
    requires db.Valid()
    modifies db`customers
    ensures db.Valid()
    ensures server.Refused? ==> r == Raised(SqlException(server.message)) && db.customers == old(db.customers)
    ensures server.Runs? ==> r == Done(id in old(db.customers))
    ensures server.Runs? ==> (db.customers ==
      if id in old(db.customers) then old(db.customers)[id := old(db.customers)[id].(status := Some(status))]
      else old(db.customers))
  {
    if server.Refused? {
      return Raised(SqlException(server.message));
    }
    var matched := id in db.customers;
    if matched {
      db.customers := db.customers[id := db.customers[id].(status := Some(status))];
    }
    r := Done(matched);
  }

  /** `approveCustomer`: the status becomes `approved`. */
  method ApproveCustomer(db: Database, id: int, server: Verdict) returns (r: Outcome<bool>)
    requires db.Valid()
    modifies db`customers
    ensures db.Valid()
    ensures server.Refused? ==> r == Raised(SqlException(server.message)) && db.customers == old(db.customers)
    ensures server.Runs? ==> r == Done(id in old(db.customers))
    ensures server.Runs? ==> (db.customers ==
      if id in old(db.customers) then old(db.customers)[id := old(db.customers)[id].(status := Some(STATUS_APPROVED))]
      else old(db.customers))
  {
    r := UpdateStatus(db, id, STATUS_APPROVED, server);
  }

  /** `rejectCustomer`: the status becomes `rejected`. */
  method RejectCustomer(db: Database, id: int, server: Verdict) returns (r: Outcome<bool>)
    requires db.Valid()
    modifies db`customers
    ensures db.Valid()
    ensures server.Refused? ==> r == Raised(SqlException(server.message)) && db.customers == old(db.customers)
    ensures server.Runs? ==> r == Done(id in old(db.customers))
    ensures server.Runs? ==> (db.customers ==
      if id in old(db.customers) then old(db.customers)[id := old(db.customers)[id].(status := Some(STATUS_REJECTED))]
      else old(db.customers))
  {
    r := UpdateStatus(db, id, STATUS_REJECTED, server);
  }

  // ---------------------------------------------------------------------------
  // Login

  /** `WHERE name = ? AND email = ? AND status = 'approved'`: a null parameter compares
      equal to nothing. */
  predicate LoginMatches(c: Customer, username: Option<string>, email: Option<string>)
  {
    username.Some? && c.name == username && email.Some? && c.email == email && c.status == Some(STATUS_APPROVED)
  }

  /** `authenticateCustomer`: some row that matches, or null when none does; which of several
      matching rows comes first is the database's choice. */
  method AuthenticateCustomer(db: Database, username: Option<string>, email: Option<string>) returns (r: Option<Customer>)
    requires db.Valid()
    ensures r.None? <==> forall id :: id in db.customers ==> !LoginMatches(db.customers[id], username, email)
    ensures r.Some? ==> r.value.id in db.customers && db.customers[r.value.id] == r.value
    ensures r.Some? ==> LoginMatches(r.value, username, email)
  {
    if id :| id in db.customers && LoginMatches(db.customers[id], username, email) {
      return Some(db.customers[id]);
    }
    return None;
  }

  /** A pending or rejected customer never logs in; an approved one logs in exactly with
      its own name and email. */
  lemma LoginNeedsApproval(c: Customer, username: Option<string>, email: Option<string>)
    ensures c.status != Some(STATUS_APPROVED) ==> !LoginMatches(c, username, email)
    ensures c.status == Some(STATUS_APPROVED) && c.name.Some? && c.email.Some? ==>
      (LoginMatches(c, username, email) <==> username == c.name && email == c.email)
  {
  }

  // ---------------------------------------------------------------------------
  // Search

  /** What a search with these criteria asks of a customer, stated on its fields: the name
      contains the given text and every other given value equals its column. A `NULL`
      column matches no condition on it. */
  predicate CustomerMatches(c: Customer, criteria: map<string, string>)
  {
    && TextLike(c.name, criteria, "name")
    && TextIs(c.gender, criteria, "gender")
    && TextIs(c.nic, criteria, "nic")
    && TextIs(c.email, criteria, "email")
    && TextIs(c.phone, criteria, "phone")
    && TextIs(c.accountNumber, criteria, "accountNumber")
    && TextIs(c.status, criteria, "status")
  }

  /** A customer the search asks for. */
  predicate Wanted(c: Customer, criteria: Option<map<string, string>>)
  {
    criteria.None? || CustomerMatches(c, criteria.value)
  }

  /** The builder as written: the seven blocks in order. */
  method BuildCustomerQuery(criteria: Option<map<string, string>>) returns (r: Result<SqlQuery, Failure>)
    ensures r == Build(CUSTOMER_BASE, CUSTOMER_KEYS, criteria)
  {
    r := Ok(SqlQuery(CUSTOMER_BASE, []));
    if criteria.Some? {
      var c := criteria.value;
      ghost var start := r;
      r := AppendBlock(r, CUSTOMER_KEYS[0], c);
      r := AppendBlock(r, CUSTOMER_KEYS[1], c);
      r := AppendBlock(r, CUSTOMER_KEYS[2], c);
      r := AppendBlock(r, CUSTOMER_KEYS[3], c);
      r := AppendBlock(r, CUSTOMER_KEYS[4], c);
      r := AppendBlock(r, CUSTOMER_KEYS[5], c);
      r := AppendBlock(r, CUSTOMER_KEYS[6], c);
      CustomerFold(start, c);
    }
  }

  lemma CustomerFold(acc: Result<SqlQuery, Failure>, c: map<string, string>)
    ensures Fold(acc, CUSTOMER_KEYS, c) ==
      Step(Step(Step(Step(Step(Step(Step(acc, CUSTOMER_KEYS[0], c), CUSTOMER_KEYS[1], c), CUSTOMER_KEYS[2], c),
        CUSTOMER_KEYS[3], c), CUSTOMER_KEYS[4], c), CUSTOMER_KEYS[5], c), CUSTOMER_KEYS[6], c)
  {
    var k := CUSTOMER_KEYS;
    assert k[1..][1..] == k[2..] && k[2..][1..] == k[3..] && k[3..][1..] == k[4..];
    assert k[4..][1..] == k[5..] && k[5..][1..] == k[6..] && k[6..][1..] == [];
    FoldFirst(acc, k, c);
    var a1 := Step(acc, k[0], c);
    FoldFirst(a1, k[1..], c);
    var a2 := Step(a1, k[1], c);
    FoldFirst(a2, k[2..], c);
    var a3 := Step(a2, k[2], c);
    FoldFirst(a3, k[3..], c);
    var a4 := Step(a3, k[3], c);
    FoldFirst(a4, k[4..], c);
    var a5 := Step(a4, k[4], c);
    FoldFirst(a5, k[5..], c);
    var a6 := Step(a5, k[5], c);
    FoldFirst(a6, k[6..], c);
  }

  /** No customer criterion is numeric, and no base text or column holds a placeholder. */
  lemma CustomerKeysFacts()
    ensures forall i :: 0 <= i < |CUSTOMER_KEYS| ==> CUSTOMER_KEYS[i].conversion != Parsed
    ensures forall i :: 0 <= i < |CUSTOMER_KEYS| ==> '?' !in CUSTOMER_KEYS[i].column
    ensures '?' !in CUSTOMER_BASE
  {
    CustomerBaseFree();
    forall i | 0 <= i < |CUSTOMER_KEYS|
      ensures CUSTOMER_KEYS[i].conversion != Parsed && '?' !in CUSTOMER_KEYS[i].column
    {
      if i == 0 {} else if i == 1 {} else if i == 2 {} else if i == 3 {}
      else if i == 4 {} else if i == 5 {} else {}
    }
  }

  lemma CustomerBaseFree()
    ensures '?' !in CUSTOMER_BASE
  {
    NoMark("SELECT id, name, gender, dob, address, ");
    NoMark("nic, email, phone, account_number, ");
    NoMark("status, created_at, updated_at ");
    NoMark("FROM customer WHERE 1=1");
  }

  /** The search query never fails; its placeholders and parameters agree in number, and its
      conditions hold of a customer exactly when the customer matches the criteria. */
  lemma CustomerQueryMeaning(criteria: map<string, string>)
    ensures Build(CUSTOMER_BASE, CUSTOMER_KEYS, Some(criteria)).Ok?
    ensures var q := Build(CUSTOMER_BASE, CUSTOMER_KEYS, Some(criteria)).value;
      Occurrences(q.sql, '?') == |q.params|
    ensures forall c :: Holds(CustomerRow(c), Conditions(CUSTOMER_KEYS, criteria)) <==> CustomerMatches(c, criteria)
  {
    CustomerKeysFacts();
    NothingParsed(CUSTOMER_KEYS, criteria);
    BuildOk(CUSTOMER_BASE, CUSTOMER_KEYS, Some(criteria));
    Placeholders(CUSTOMER_BASE, CUSTOMER_KEYS, Some(criteria));
    forall c ensures Holds(CustomerRow(c), Conditions(CUSTOMER_KEYS, criteria)) <==> CustomerMatches(c, criteria) {
      HoldsBlocks(CustomerRow(c), CUSTOMER_KEYS, criteria);
      CustomerBlocks(c, criteria);
    }
  }

  /** Block by block, each condition states one conjunct of `CustomerMatches`. */
  lemma CustomerBlocks(cu: Customer, criteria: map<string, string>)
    requires FirstUnconvertible(CUSTOMER_KEYS, criteria).None?
    ensures (forall i :: 0 <= i < |CUSTOMER_KEYS| ==> BlockHolds(CustomerRow(cu), CUSTOMER_KEYS[i], criteria))
            <==> CustomerMatches(cu, criteria)
  {
    var row := CustomerRow(cu);
    var c := criteria;
    var k := CUSTOMER_KEYS;
    LikeBlock(row, k[0], c, cu.name);
    EqualsBlock(row, k[1], c, cu.gender);
    EqualsBlock(row, k[2], c, cu.nic);
    EqualsBlock(row, k[3], c, cu.email);
    EqualsBlock(row, k[4], c, cu.phone);
    EqualsBlock(row, k[5], c, cu.accountNumber);
    EqualsBlock(row, k[6], c, cu.status);
    if CustomerMatches(cu, c) {
      forall i | 0 <= i < |k| ensures BlockHolds(row, k[i], c) {
        if i == 0 {} else if i == 1 {} else if i == 2 {} else if i == 3 {}
        else if i == 4 {} else if i == 5 {} else {}
      }
    }
  }

  /** `searchCustomers`: every customer that matches the criteria, each once; null criteria
      select every customer. */
  method SearchCustomers(db: Database, criteria: Option<map<string, string>>) returns (r: seq<Customer>)
    requires db.Valid()
    ensures forall x :: x in r ==> exists id :: id in db.customers && db.customers[id] == x && Wanted(x, criteria)
    ensures forall id :: id in db.customers && Wanted(db.customers[id], criteria) ==> db.customers[id] in r
    ensures |r| == |set id | id in db.customers && Wanted(db.customers[id], criteria)|
  {
    var q := BuildCustomerQuery(criteria);
    var c := if criteria.Some? then criteria.value else map[];
    r := Select(db.customers, CustomerRow, Conditions(CUSTOMER_KEYS, c));
    SearchSelects(db.customers, criteria, c, r);
  }

  /** The rows the conditions select are the customers the criteria ask for. */
  lemma SearchSelects(customers: map<int, Customer>, criteria: Option<map<string, string>>, c: map<string, string>, rows: seq<Customer>)
    requires c == if criteria.Some? then criteria.value else map[]
    requires forall x :: x in rows <==>
      exists id :: id in MatchingIds(customers, CustomerRow, Conditions(CUSTOMER_KEYS, c)) && customers[id] == x
    ensures MatchingIds(customers, CustomerRow, Conditions(CUSTOMER_KEYS, c)) == set id | id in customers && Wanted(customers[id], criteria)
    ensures forall x :: x in rows ==> exists id :: id in customers && customers[id] == x && Wanted(x, criteria)
    ensures forall id :: id in customers && Wanted(customers[id], criteria) ==> customers[id] in rows
  {
    var cs := Conditions(CUSTOMER_KEYS, c);
    forall id | id in customers ensures Holds(CustomerRow(customers[id]), cs) <==> Wanted(customers[id], criteria) {
      SearchMeaning(criteria, c, customers[id]);
    }
    Selected(customers, CustomerRow, cs, x => Wanted(x, criteria), rows);
  }

  lemma SearchMeaning(criteria: Option<map<string, string>>, c: map<string, string>, x: Customer)
    requires c == if criteria.Some? then criteria.value else map[]
    ensures Holds(CustomerRow(x), Conditions(CUSTOMER_KEYS, c)) <==> Wanted(x, criteria)
  {
    if criteria.Some? {
      CustomerQueryMeaning(c);
    } else {
      NoKeys(CUSTOMER_KEYS);
    }
  }
}
