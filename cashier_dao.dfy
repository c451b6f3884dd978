/** The inline-SQL Cashier DAO: lookup, registration, update, deletion, approval and
    rejection on the cashier table, the search query with its six optional criteria, and
    login by name and email. */
module CashierDao {
  import opened Common
  import opened Store
  import opened Query

  const CASHIER_BASE := "SELECT * FROM cashier WHERE 1=1"

  /** The search blocks in the order the builder tests them; a cashier has no account
      number. */
  const CASHIER_KEYS := [
    KeySpec("name", "name", Like, Wrapped),
    KeySpec("gender", "gender", Equals, Verbatim),
    KeySpec("nic", "nic", Equals, Verbatim),
    KeySpec("email", "email", Equals, Verbatim),
    KeySpec("phone", "phone", Equals, Verbatim),
    KeySpec("status", "status", Equals, Verbatim)]

  /** A cashier row's searchable columns as the database compares them. */
  function CashierRow(c: Cashier): Row
  {
    map[
      "id" := Number(c.id),
      "name" := TextOrNull(c.name),
      "gender" := TextOrNull(c.gender),
      "nic" := TextOrNull(c.nic),
      "email" := TextOrNull(c.email),
      "phone" := TextOrNull(c.phone),
      "status" := TextOrNull(c.status)]
  }

  // ---------------------------------------------------------------------------
  // Table operations

  /** `getCashierById`: the row with that id, or null. */
  method GetCashierById(db: Database, id: int) returns (r: Option<Cashier>)
    requires db.Valid()
    ensures r.Some? <==> id in db.cashiers
    ensures r.Some? ==> r.value == db.cashiers[id] && r.value.id == id
  {
    if id in db.cashiers {
      return Some(db.cashiers[id]);
    }
    return None;
  }

  /** `registerCashier`: `Date.valueOf` of a null date of birth throws before the insert;
      otherwise the insert takes the next id and, when `server` runs it, stores the row with
      the given fields and status `pending`, whatever status was supplied. The id is returned
      when the driver reports it, -1 otherwise; a refused insert raises its message. */
  method RegisterCashier(db: Database, c: Cashier, server: Verdict, keyReported: bool) returns (r: Outcome<int>)
    requires db.Valid()
    modifies db`cashiers, db`nextCashierId
    ensures db.Valid()
    ensures c.dob.None? ==> r == Raised(NullPointer) && unchanged(db)
    ensures c.dob.Some? ==> db.nextCashierId == old(db.nextCashierId) + 1
    ensures c.dob.Some? && server.Refused? ==>
      r == Raised(SqlException(server.message)) && db.cashiers == old(db.cashiers)
    ensures c.dob.Some? && server.Runs? ==>
      && db.cashiers == old(db.cashiers)[old(db.nextCashierId) := c.(id := old(db.nextCashierId), status := Some(STATUS_PENDING))]
      && r == Done(if keyReported then old(db.nextCashierId) else -1)
  {
    if c.dob.None? {
      return Raised(NullPointer);
    }
    var key := db.nextCashierId;
    db.nextCashierId := key + 1;
    if server.Refused? {
      return Raised(SqlException(server.message));
    }
    db.cashiers := db.cashiers[key := c.(id := key, status := Some(STATUS_PENDING))];
    r := Done(if keyReported then key else -1);
  }

  /** `updateCashier`: a null date of birth throws before the update; otherwise name,
      gender, date of birth, address, NIC, email and phone are overwritten and the status is
      kept; true exactly when a row with that id exists. A refused update raises. */
  method UpdateCashier(db: Database, c: Cashier, server: Verdict) returns (r: Outcome<bool>)
    requires db.Valid()
    modifies db`cashiers
    ensures db.Valid()
    ensures c.dob.None? ==> r == Raised(NullPointer) && db.cashiers == old(db.cashiers)
    ensures c.dob.Some? && server.Refused? ==>
      r == Raised(SqlException(server.message)) && db.cashiers == old(db.cashiers)
    ensures c.dob.Some? && server.Runs? ==> r == Done(c.id in old(db.cashiers))
    ensures c.dob.Some? && server.Runs? ==> (db.cashiers ==
      if c.id in old(db.cashiers) then old(db.cashiers)[c.id := c.(status := old(db.cashiers)[c.id].status)]
      else old(db.cashiers))
  {
    if c.dob.None? {
      return Raised(NullPointer);
    }
    if server.Refused? {
      return Raised(SqlException(server.message));
    }
    var matched := c.id in db.cashiers;
    if matched {
      db.cashiers := db.cashiers[c.id := c.(status := db.cashiers[c.id].status)];
    }
    r := Done(matched);
  }

  /** `deleteCashier`: the row goes; true exactly when it was there. A refused delete
      raises and the row stays. */
  method DeleteCashier(db: Database, id: int, server: Verdict) returns (r: Outcome<bool>)
    requires db.Valid()
    modifies db`cashiers
    ensures db.Valid()
    ensures server.Refused? ==> r == Raised(SqlException(server.message)) && db.cashiers == old(db.cashiers)
    ensures server.Runs? ==> r == Done(id in old(db.cashiers)) && db.cashiers == old(db.cashiers) - {id}
    ensures server.Runs? ==> id !in db.cashiers
  {
    if server.Refused? {
      return Raised(SqlException(server.message));
    }
    r := Done(id in db.cashiers);
    db.cashiers := db.cashiers - {id};
  }

  /** `updateStatus`: only the status of the row with that id changes; true exactly when the
      row exists. A refused update raises. */
  method UpdateStatus(db: Database, id: int, status: string, server: Verdict) returns (r: Outcome<bool>)
    requires db.Valid()
    modifies db`cashiers
    ensures db.Valid()
    ensures server.Refused? ==> r == Raised(SqlException(server.message)) && db.cashiers == old(db.cashiers)
    ensures server.Runs? ==> r == Done(id in old(db.cashiers))
    ensures server.Runs? ==> (db.cashiers ==
      if id in old(db.cashiers) then old(db.cashiers)[id := old(db.cashiers)[id].(status := Some(status))]
      else old(db.cashiers))
  {
    if server.Refused? {
      return Raised(SqlException(server.message));
    }
    var matched := id in db.cashiers;
    if matched {
      db.cashiers := db.cashiers[id := db.cashiers[id].(status := Some(status))];
    }
    r := Done(matched);
  }

  /** `approveCashier`: the status becomes `approved`. */
  method ApproveCashier(db: Database, id: int, server: Verdict) returns (r: Outcome<bool>)
    requires db.Valid()
    modifies db`cashiers
    ensures db.Valid()
    ensures server.Refused? ==> r == Raised(SqlException(server.message)) && db.cashiers == old(db.cashiers)
    ensures server.Runs? ==> r == Done(id in old(db.cashiers))
    ensures server.Runs? ==> (db.cashiers ==
      if id in old(db.cashiers) then old(db.cashiers)[id := old(db.cashiers)[id].(status := Some(STATUS_APPROVED))]
      else old(db.cashiers))
  {
    r := UpdateStatus(db, id, STATUS_APPROVED, server);
  }

  /** `rejectCashier`: the status becomes `rejected`. */
  method RejectCashier(db: Database, id: int, server: Verdict) returns (r: Outcome<bool>)
    requires db.Valid()
    modifies db`cashiers
    ensures db.Valid()
    ensures server.Refused? ==> r == Raised(SqlException(server.message)) && db.cashiers == old(db.cashiers)
    ensures server.Runs? ==> r == Done(id in old(db.cashiers))
    ensures server.Runs? ==> (db.cashiers ==
      if id in old(db.cashiers) then old(db.cashiers)[id := old(db.cashiers)[id].(status := Some(STATUS_REJECTED))]
      else old(db.cashiers))
  {
    r := UpdateStatus(db, id, STATUS_REJECTED, server);
  }

  // ---------------------------------------------------------------------------
  // Login

  /** `WHERE name = ? AND email = ? AND status = 'approved'`: a null parameter compares
      equal to nothing. */
  predicate LoginMatches(c: Cashier, username: Option<string>, email: Option<string>)
  {
    username.Some? && c.name == username && email.Some? && c.email == email && c.status == Some(STATUS_APPROVED)
  }

  /** `authenticateCashier`: some row that matches, or null when none does; which of several
      matching rows comes first is the database's choice. */
  method AuthenticateCashier(db: Database, username: Option<string>, email: Option<string>) returns (r: Option<Cashier>)
    requires db.Valid()
    ensures r.None? <==> forall id :: id in db.cashiers ==> !LoginMatches(db.cashiers[id], username, email)
    ensures r.Some? ==> r.value.id in db.cashiers && db.cashiers[r.value.id] == r.value
    ensures r.Some? ==> LoginMatches(r.value, username, email)
  {
    if id :| id in db.cashiers && LoginMatches(db.cashiers[id], username, email) {
      return Some(db.cashiers[id]);
    }
    return None;
  }

  /** A pending or rejected cashier never logs in; an approved one logs in exactly with
      its own name and email. */
  lemma LoginNeedsApproval(c: Cashier, username: Option<string>, email: Option<string>)
    ensures c.status != Some(STATUS_APPROVED) ==> !LoginMatches(c, username, email)
    ensures c.status == Some(STATUS_APPROVED) && c.name.Some? && c.email.Some? ==>
      (LoginMatches(c, username, email) <==> username == c.name && email == c.email)
  {
  }

  // ---------------------------------------------------------------------------
  // Search

  /** What a search with these criteria asks of a cashier, stated on its fields: the name
      contains the given text and every other given value equals its column. A `NULL`
      column matches no condition on it. */
  predicate CashierMatches(c: Cashier, criteria: map<string, string>)
  {
    && TextLike(c.name, criteria, "name")
    && TextIs(c.gender, criteria, "gender")
    && TextIs(c.nic, criteria, "nic")
    && TextIs(c.email, criteria, "email")
    && TextIs(c.phone, criteria, "phone")
    && TextIs(c.status, criteria, "status")
  }

  /** A cashier the search asks for. */
  predicate Wanted(c: Cashier, criteria: Option<map<string, string>>)
  {
    criteria.None? || CashierMatches(c, criteria.value)
  }

  /** The builder as written: the six blocks in order. */
  method BuildCashierQuery(criteria: Option<map<string, string>>) returns (r: Result<SqlQuery, Failure>)
    ensures r == Build(CASHIER_BASE, CASHIER_KEYS, criteria)
  {
    r := Ok(SqlQuery(CASHIER_BASE, []));
    if criteria.Some? {
      var c := criteria.value;
      ghost var start := r;
      r := AppendBlock(r, CASHIER_KEYS[0], c);
      r := AppendBlock(r, CASHIER_KEYS[1], c);
      r := AppendBlock(r, CASHIER_KEYS[2], c);
      r := AppendBlock(r, CASHIER_KEYS[3], c);
      r := AppendBlock(r, CASHIER_KEYS[4], c);
      r := AppendBlock(r, CASHIER_KEYS[5], c);
      CashierFold(start, c);
    }
  }

  lemma CashierFold(acc: Result<SqlQuery, Failure>, c: map<string, string>)
    ensures Fold(acc, CASHIER_KEYS, c) ==
      Step(Step(Step(Step(Step(Step(acc, CASHIER_KEYS[0], c), CASHIER_KEYS[1], c), CASHIER_KEYS[2], c),
        CASHIER_KEYS[3], c), CASHIER_KEYS[4], c), CASHIER_KEYS[5], c)
  {
    var k := CASHIER_KEYS;
    assert k[1..][1..] == k[2..] && k[2..][1..] == k[3..] && k[3..][1..] == k[4..];
    assert k[4..][1..] == k[5..] && k[5..][1..] == [];
    FoldFirst(acc, k, c);
    var a1 := Step(acc, k[0], c);
    FoldFirst(a1, k[1..], c);
    var a2 := Step(a1, k[1], c);
    FoldFirst(a2, k[2..], c);
    var a3 := Step(a2, k[2], c);
    FoldFirst(a3, k[3..], c);
    var a4 := Step(a3, k[3], c);
    FoldFirst(a4, k[4..], c);
    var a5 := Step(a4, k[4], c);
    FoldFirst(a5, k[5..], c);
  }

  /** No cashier criterion is numeric, and no base text or column holds a placeholder. */
  lemma CashierKeysFacts()
    ensures forall i :: 0 <= i < |CASHIER_KEYS| ==> CASHIER_KEYS[i].conversion != Parsed
    ensures forall i :: 0 <= i < |CASHIER_KEYS| ==> '?' !in CASHIER_KEYS[i].column
    ensures '?' !in CASHIER_BASE
  {
    CashierBaseFree();
    forall i | 0 <= i < |CASHIER_KEYS|
      ensures CASHIER_KEYS[i].conversion != Parsed && '?' !in CASHIER_KEYS[i].column
    {
      if i == 0 {} else if i == 1 {} else if i == 2 {} else if i == 3 {}
      else if i == 4 {} else {}
    }
  }

  lemma CashierBaseFree()
    ensures '?' !in CASHIER_BASE
  {
    NoMark(CASHIER_BASE);
  }

  /** The search query never fails; its placeholders and parameters agree in number, and its
      conditions hold of a cashier exactly when the cashier matches the criteria. */
  lemma CashierQueryMeaning(criteria: map<string, string>)
    ensures Build(CASHIER_BASE, CASHIER_KEYS, Some(criteria)).Ok?
    ensures var q := Build(CASHIER_BASE, CASHIER_KEYS, Some(criteria)).value;
      Occurrences(q.sql, '?') == |q.params|
    ensures forall c :: Holds(CashierRow(c), Conditions(CASHIER_KEYS, criteria)) <==> CashierMatches(c, criteria)
  {
    CashierKeysFacts();
    NothingParsed(CASHIER_KEYS, criteria);
    BuildOk(CASHIER_BASE, CASHIER_KEYS, Some(criteria));
    Placeholders(CASHIER_BASE, CASHIER_KEYS, Some(criteria));
    forall c ensures Holds(CashierRow(c), Conditions(CASHIER_KEYS, criteria)) <==> CashierMatches(c, criteria) {
      HoldsBlocks(CashierRow(c), CASHIER_KEYS, criteria);
      CashierBlocks(c, criteria);
    }
  }

  /** Block by block, each condition states one conjunct of `CashierMatches`. */
  lemma CashierBlocks(cu: Cashier, criteria: map<string, string>)
    requires FirstUnconvertible(CASHIER_KEYS, criteria).None?
    ensures (forall i :: 0 <= i < |CASHIER_KEYS| ==> BlockHolds(CashierRow(cu), CASHIER_KEYS[i], criteria))
            <==> CashierMatches(cu, criteria)
  {
    var row := CashierRow(cu);
    var c := criteria;
    var k := CASHIER_KEYS;
    LikeBlock(row, k[0], c, cu.name);
    EqualsBlock(row, k[1], c, cu.gender);
    EqualsBlock(row, k[2], c, cu.nic);
    EqualsBlock(row, k[3], c, cu.email);
    EqualsBlock(row, k[4], c, cu.phone);
    EqualsBlock(row, k[5], c, cu.status);
    if CashierMatches(cu, c) {
      forall i | 0 <= i < |k| ensures BlockHolds(row, k[i], c) {
        if i == 0 {} else if i == 1 {} else if i == 2 {} else if i == 3 {}
        else if i == 4 {} else {}
      }
    }
  }

  /** `searchCashiers`: every cashier that matches the criteria, each once; null criteria
      select every cashier. */
  method SearchCashiers(db: Database, criteria: Option<map<string, string>>) returns (r: seq<Cashier>)
    requires db.Valid()
    ensures forall x :: x in r ==> exists id :: id in db.cashiers && db.cashiers[id] == x && Wanted(x, criteria)
    ensures forall id :: id in db.cashiers && Wanted(db.cashiers[id], criteria) ==> db.cashiers[id] in r
    ensures |r| == |set id | id in db.cashiers && Wanted(db.cashiers[id], criteria)|
  {
    var q := BuildCashierQuery(criteria);
    var c := if criteria.Some? then criteria.value else map[];
    r := Select(db.cashiers, CashierRow, Conditions(CASHIER_KEYS, c));
    SearchSelects(db.cashiers, criteria, c, r);
  }

  /** The rows the conditions select are the cashiers the criteria ask for. */
  lemma SearchSelects(cashiers: map<int, Cashier>, criteria: Option<map<string, string>>, c: map<string, string>, rows: seq<Cashier>)
    requires c == if criteria.Some? then criteria.value else map[]
    requires forall x :: x in rows <==>
      exists id :: id in MatchingIds(cashiers, CashierRow, Conditions(CASHIER_KEYS, c)) && cashiers[id] == x
    ensures MatchingIds(cashiers, CashierRow, Conditions(CASHIER_KEYS, c)) == set id | id in cashiers && Wanted(cashiers[id], criteria)
    ensures forall x :: x in rows ==> exists id :: id in cashiers && cashiers[id] == x && Wanted(x, criteria)
    ensures forall id :: id in cashiers && Wanted(cashiers[id], criteria) ==> cashiers[id] in rows
  {
    var cs := Conditions(CASHIER_KEYS, c);
    forall id | id in cashiers ensures Holds(CashierRow(cashiers[id]), cs) <==> Wanted(cashiers[id], criteria) {
      SearchMeaning(criteria, c, cashiers[id]);
    }
    Selected(cashiers, CashierRow, cs, x => Wanted(x, criteria), rows);
  }

  lemma SearchMeaning(criteria: Option<map<string, string>>, c: map<string, string>, x: Cashier)
    requires c == if criteria.Some? then criteria.value else map[]
    ensures Holds(CashierRow(x), Conditions(CASHIER_KEYS, c)) <==> Wanted(x, criteria)
  {
    if criteria.Some? {
      CashierQueryMeaning(c);
    } else {
      NoKeys(CASHIER_KEYS);
    }
  }
}
