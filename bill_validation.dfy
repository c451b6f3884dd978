/** The checks the stored-procedure bill DAO makes before it calls `sp_create_bill`, and the
    arguments it passes: the customer id, the total, and one JSON object per bill line. */
module BillValidation {
  import opened Common
  import opened Store

  const ITEMS_EMPTY := "Bill items cannot be empty"
  const SUBTOTAL_MISMATCH := "Subtotal mismatch for item ID "

  /** A JSON property holding a number (amounts in cents). */
  datatype JsonProperty = JsonProperty(name: string, value: int)

  /** A JSON object: its properties in insertion order. */
  datatype JsonObject = JsonObject(properties: seq<JsonProperty>)

  /** The arguments of `sp_create_bill`: customer id, total amount, item payload. */
  datatype ProcedureCall = ProcedureCall(customerId: int, totalAmount: int, payload: seq<JsonObject>)

  /** Bill lines are checked as `subtotal == quantity * unitPrice`. */
  predicate SubtotalMatches(line: BillItem)
  {
    line.subtotal == line.quantity * line.unitPrice
  }

  /** The position of the first line, in list order, whose subtotal is wrong. */
  function FirstMismatch(lines: seq<BillItem>): (r: Option<nat>)
    ensures r.None? <==> forall k :: 0 <= k < |lines| ==> SubtotalMatches(lines[k])
    ensures r.Some? ==> r.value < |lines| && !SubtotalMatches(lines[r.value])
    ensures r.Some? ==> forall k :: 0 <= k < r.value ==> SubtotalMatches(lines[k])
  {
    if lines == [] then None
    else if !SubtotalMatches(lines[0]) then Some(0)
    else match FirstMismatch(lines[1..])
      case None => None
      case Some(k) => Some(k + 1)
  }

  /** The JSON object built for one line. */
  function LineJson(line: BillItem): JsonObject
  {
    JsonObject([
      JsonProperty("item_id", line.itemId),
      JsonProperty("quantity", line.quantity),
      JsonProperty("unit_price", line.unitPrice),
      JsonProperty("subtotal", line.subtotal)])
  }

  /** The value of the first property called `name`, as a JSON reader looks it up. */
  function Lookup(o: JsonObject, name: string): Option<int>
  {
    LookupIn(o.properties, name)
  }

  function LookupIn(properties: seq<JsonProperty>, name: string): Option<int>
  {
    if properties == [] then None
    else if properties[0].name == name then Some(properties[0].value)
    else LookupIn(properties[1..], name)
  }

  /** The stored procedure's view of one payload object: item id, quantity, unit price and
      subtotal, or nothing when a property is missing. */
  function ReadLine(o: JsonObject): Option<(int, int, int, int)>
  {
    match (Lookup(o, "item_id"), Lookup(o, "quantity"), Lookup(o, "unit_price"), Lookup(o, "subtotal"))
    case (Some(i), Some(q), Some(u), Some(s)) => Some((i, q, u, s))
    case _ => None
  }

  /** The four properties of a line's object read back as the line's own fields. */
  lemma ReadLineJson(line: BillItem)
    ensures ReadLine(LineJson(line)) == Some((line.itemId, line.quantity, line.unitPrice, line.subtotal))
  {
    var ps := LineJson(line).properties;
    assert ps[1..][1..] == ps[2..] && ps[2..][1..] == ps[3..];
    assert "quantity"[0] != "subtotal"[0];
    assert LookupIn(ps, "item_id") == Some(line.itemId);
    assert LookupIn(ps, "quantity") == LookupIn(ps[1..], "quantity") == Some(line.quantity);
    assert LookupIn(ps, "unit_price") == LookupIn(ps[1..], "unit_price") == LookupIn(ps[2..], "unit_price") == Some(line.unitPrice);
    assert LookupIn(ps[2..], "subtotal") == LookupIn(ps[3..], "subtotal") == Some(line.subtotal);
    assert LookupIn(ps, "subtotal") == LookupIn(ps[1..], "subtotal") == LookupIn(ps[2..], "subtotal");
  }

  /** The validation and the call `createBill` makes: an IllegalArgumentException when the
      list is null or empty or a subtotal is wrong, otherwise the procedure's arguments. */
  function CreateBillCall(bill: Billing): Result<ProcedureCall, Failure>
  {
    if bill.billItems.None? || bill.billItems.value == [] then Err(IllegalArgument(ITEMS_EMPTY))
    else
      var lines := bill.billItems.value;
      match FirstMismatch(lines)
      case Some(k) => Err(IllegalArgument(SUBTOTAL_MISMATCH + IntToString(lines[k].itemId)))
      case None => Ok(ProcedureCall(bill.customerId, bill.totalAmount, seq(|lines|, k requires 0 <= k < |lines| => LineJson(lines[k]))))
  }

  /** `createBill` as a whole: validation first, then the procedure's result, so a rejected
      bill never reaches the database. */
  function DaoCreateBill(bill: Billing, procedure: Outcome<int>): Outcome<int>
  {
    match CreateBillCall(bill)
    case Err(f) => Raised(f)
    case Ok(_) => procedure
  }

  // ---------------------------------------------------------------------------
  // Properties

  /** A null or empty item list is rejected before the procedure is called. */
  lemma EmptyItemsRejected(bill: Billing, procedure: Outcome<int>)
    requires bill.billItems.None? || bill.billItems.value == []
    ensures DaoCreateBill(bill, procedure) == Raised(IllegalArgument(ITEMS_EMPTY))
  {
  }

  /** Given a non-empty list, the procedure is skipped exactly when some subtotal is wrong,
      and the first wrong subtotal in list order is the one reported. */
  lemma MismatchRejected(bill: Billing, procedure: Outcome<int>)
    requires bill.billItems.Some? && bill.billItems.value != []
    ensures var lines := bill.billItems.value;
      CreateBillCall(bill).Err? <==> exists k :: 0 <= k < |lines| && !SubtotalMatches(lines[k])
    ensures var lines := bill.billItems.value;
      (forall k :: 0 <= k < |lines| ==> SubtotalMatches(lines[k])) ==> DaoCreateBill(bill, procedure) == procedure
    ensures var lines := bill.billItems.value;
      forall k :: 0 <= k < |lines| && !SubtotalMatches(lines[k]) && (forall j :: 0 <= j < k ==> SubtotalMatches(lines[j])) ==>
        DaoCreateBill(bill, procedure) == Raised(IllegalArgument(SUBTOTAL_MISMATCH + IntToString(lines[k].itemId)))
  {
    var lines := bill.billItems.value;
    var m := FirstMismatch(lines);
    if m.Some? {
      assert !SubtotalMatches(lines[m.value]);
    }
    forall k | 0 <= k < |lines| && !SubtotalMatches(lines[k]) && (forall j :: 0 <= j < k ==> SubtotalMatches(lines[j]))
      ensures m == Some(k)
    {
      assert m.Some?;
    }
  }

  /** An accepted bill passes the customer id and the total through unchanged, whatever the
      sum of the subtotals, and one payload object per line in order, carrying that line's
      item id, quantity, unit price and subtotal. */
  lemma AcceptedCall(bill: Billing)
    requires CreateBillCall(bill).Ok?
    ensures var call := CreateBillCall(bill).value;
      var lines := bill.billItems.value;
      && call.customerId == bill.customerId && call.totalAmount == bill.totalAmount
      && |call.payload| == |lines|
      && forall k :: 0 <= k < |lines| ==>
           ReadLine(call.payload[k]) == Some((lines[k].itemId, lines[k].quantity, lines[k].unitPrice, lines[k].subtotal))
    ensures forall t :: CreateBillCall(bill.(totalAmount := t)).Ok?
  {
    var lines := bill.billItems.value;
    forall k | 0 <= k < |lines| {
      ReadLineJson(lines[k]);
    }
  }

  // ---------------------------------------------------------------------------
  // The loops of `createBill`

  /** The validation loop and the payload loop, as the Java code runs them. */
  method PrepareCreateBill(bill: Billing) returns (r: Result<ProcedureCall, Failure>)
    ensures r == CreateBillCall(bill)
  {
    if bill.billItems.None? || bill.billItems.value == [] {
      return Err(IllegalArgument(ITEMS_EMPTY));
    }
    var lines := bill.billItems.value;
    var i := 0;
    while i < |lines|
      invariant 0 <= i <= |lines|
      invariant forall k :: 0 <= k < i ==> SubtotalMatches(lines[k])
      invariant FirstMismatch(lines).None? || i <= FirstMismatch(lines).value
    {
      if lines[i].subtotal != lines[i].quantity * lines[i].unitPrice {
        assert FirstMismatch(lines) == Some(i);
        return Err(IllegalArgument(SUBTOTAL_MISMATCH + IntToString(lines[i].itemId)));
      }
      i := i + 1;
    }
    var payload: seq<JsonObject> := [];
    i := 0;
    while i < |lines|
      invariant 0 <= i <= |lines|
      invariant |payload| == i
      invariant forall k :: 0 <= k < i ==> payload[k] == LineJson(lines[k])
    {
      var line := lines[i];
      payload := payload + [JsonObject([
        JsonProperty("item_id", line.itemId),
        JsonProperty("quantity", line.quantity),
        JsonProperty("unit_price", line.unitPrice),
        JsonProperty("subtotal", line.subtotal)])];
      i := i + 1;
    }
    assert payload == seq(|lines|, k requires 0 <= k < |lines| => LineJson(lines[k]));
    return Ok(ProcedureCall(bill.customerId, bill.totalAmount, payload));
  }
}
