/** `POST /bills` and `GET /bills/{id}`: the request checks and the mapping of the
    stored-procedure DAO's result to a response. */
module BillingResource {
  import opened Common
  import opened Store
  import opened Http
  import opened BillValidation

  const CUSTOMER_REQUIRED := "Customer ID is required"
  const ITEM_REQUIRED := "At least one bill item is required"
  const INVALID_ITEM := "Invalid bill item: itemId, quantity, and unitPrice must be valid"
  const CREATE_FAILED := "Failed to create bill"

  predicate ValidLine(line: BillItem)
  {
    line.itemId > 0 && line.quantity > 0 && line.unitPrice >= 0
  }

  /** The request passes every check the resource makes. */
  predicate Accepted(bill: Billing)
  {
    && bill.customerId > 0
    && bill.billItems.Some? && bill.billItems.value != []
    && forall k :: 0 <= k < |bill.billItems.value| ==> ValidLine(bill.billItems.value[k])
  }

  /** `createBill`: customer, then items, then lines; only then the DAO's result counts. */
  function CreateBillResponse(bill: Billing, dao: Outcome<int>): (r: Response<Billing>)
    ensures r.Reply? && r.status == CREATED <==> Accepted(bill) && dao.Done? && dao.value != -1
    ensures !Accepted(bill) ==> r.Reply? && r.status == BAD_REQUEST
  {
    if bill.customerId <= 0 then Error(BAD_REQUEST, CUSTOMER_REQUIRED)
    else if bill.billItems.None? || bill.billItems.value == [] then Error(BAD_REQUEST, ITEM_REQUIRED)
    else if exists k :: 0 <= k < |bill.billItems.value| && !ValidLine(bill.billItems.value[k]) then Error(BAD_REQUEST, INVALID_ITEM)
    else CreatedOrFailed(dao, CREATE_FAILED, None)
  }

  /** `getBillById`: 404 when the DAO finds nothing. */
  function GetBillResponse(id: int, dao: Outcome<Option<Billing>>): (r: Response<Billing>)
    ensures dao == Done(None) ==> r == Error(NOT_FOUND, "Bill with ID " + IntToString(id) + " not found")
    ensures forall b :: dao == Done(Some(b)) ==> r == Reply(OK, Entity(b))
    ensures dao.Raised? ==> r == DatabaseError(dao.failure)
  {
    FoundOrNotFound(dao, "Bill with ID " + IntToString(id) + " not found")
  }

  // ---------------------------------------------------------------------------
  // Properties

  /** A rejected request answers 400 with the message of the first failing check, whatever
      the DAO would have done: the DAO is not called. */
  lemma RejectedBeforeDao(bill: Billing, dao: Outcome<int>, other: Outcome<int>)
    requires !Accepted(bill)
    ensures CreateBillResponse(bill, dao) == CreateBillResponse(bill, other)
    ensures CreateBillResponse(bill, dao) == Error(BAD_REQUEST,
      if bill.customerId <= 0 then CUSTOMER_REQUIRED
      else if bill.billItems.None? || bill.billItems.value == [] then ITEM_REQUIRED
      else INVALID_ITEM)
  {
  }

  /** For an accepted request: 201 with any id but -1, 500 "Failed to create bill" for -1,
      500 with the message for an SQLException, and any other exception escapes. */
  lemma AcceptedMapping(bill: Billing, dao: Outcome<int>)
    requires Accepted(bill)
    ensures forall id :: dao == Done(id) && id != -1 ==> CreateBillResponse(bill, dao) == Reply(CREATED, CreatedId(id))
    ensures dao == Done(-1) ==> CreateBillResponse(bill, dao) == Error(INTERNAL_SERVER_ERROR, CREATE_FAILED)
    ensures forall m :: dao == Raised(SqlException(m)) ==>
      CreateBillResponse(bill, dao) == Error(INTERNAL_SERVER_ERROR, "Database error: " + m)
    ensures dao.Raised? && !dao.failure.SqlException? ==> CreateBillResponse(bill, dao) == Propagated(dao.failure)
  {
    assert !exists k :: 0 <= k < |bill.billItems.value| && !ValidLine(bill.billItems.value[k]);
  }

  /** Wired to the stored-procedure DAO: the resource never lets an empty list through, so the
      DAO's emptiness check never fires from here; an accepted bill with a wrong subtotal
      ends in an IllegalArgumentException the resource does not catch, and any other
      accepted bill gets the procedure's result mapped as above. */
  lemma WiredSubtotalMismatch(bill: Billing, procedure: Outcome<int>)
    requires Accepted(bill)
    ensures var lines := bill.billItems.value;
      DaoCreateBill(bill, procedure) ==
        match FirstMismatch(lines)
        case Some(k) => Raised(IllegalArgument(SUBTOTAL_MISMATCH + IntToString(lines[k].itemId)))
        case None => procedure
    ensures FirstMismatch(bill.billItems.value).Some? ==>
      CreateBillResponse(bill, DaoCreateBill(bill, procedure)).Propagated?
    ensures FirstMismatch(bill.billItems.value).None? ==>
      CreateBillResponse(bill, DaoCreateBill(bill, procedure)) == CreateBillResponse(bill, procedure)
  {
    AcceptedMapping(bill, DaoCreateBill(bill, procedure));
  }
}
