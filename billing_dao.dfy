/** The inline-SQL bill DAO: the bill-creation transaction (header, then per line a stock
    check, a stock decrement and a bill-item row; commit, or roll back every row while the
    ids already taken stay used) and the two read-backs. */
module BillingDao {
  import opened Common
  import opened Store
  import opened BillNumber

  // ---------------------------------------------------------------------------
  // Specification of the stock pass

  /** Why a bill line stops the transaction. */
  datatype LineError = ItemNotFound(itemId: int) | InsufficientStock(itemId: int)

  /** The message of the SQLException raised for a failing line. */
  function LineErrorMessage(e: LineError): string
  {
    match e
    case ItemNotFound(id) => "Item ID " + IntToString(id) + " not found"
    case InsufficientStock(id) => "Insufficient stock for item ID " + IntToString(id)
  }

  /** The lines in caller order: each one reads the stock its predecessors left, fails when
      the item is missing or the stock is below the quantity, and otherwise decrements it. */
  function ApplyLines(items: map<int, Item>, lines: seq<BillItem>): (r: Result<map<int, Item>, LineError>)
    ensures r.Ok? ==> r.value.Keys == items.Keys
    decreases |lines|
  {
    if lines == [] then Ok(items)
    else
      var id := lines[0].itemId;
      if id !in items then Err(ItemNotFound(id))
      else if items[id].stockQuantity < lines[0].quantity then Err(InsufficientStock(id))
      else ApplyLines(items[id := items[id].(stockQuantity := items[id].stockQuantity - lines[0].quantity)], lines[1..])
  }

  /** How many leading lines the pass applies: every line on success, otherwise the lines
      before the one that stops it. Each applied line has inserted one bill-item row. */
  function Applied(items: map<int, Item>, lines: seq<BillItem>): (n: nat)
    ensures n <= |lines|
    decreases |lines|
  {
    if lines == [] then 0
    else
      var id := lines[0].itemId;
      if id !in items || items[id].stockQuantity < lines[0].quantity then 0
      else 1 + Applied(items[id := items[id].(stockQuantity := items[id].stockQuantity - lines[0].quantity)], lines[1..])
  }

  /** The total quantity the lines take from item `id`. */
  function QuantityFor(lines: seq<BillItem>, id: int): int
  {
    if lines == [] then 0
    else (if lines[0].itemId == id then lines[0].quantity else 0) + QuantityFor(lines[1..], id)
  }

  /** Line `k` finds its item, and enough stock after the lines before it. */
  predicate LineFits(items: map<int, Item>, lines: seq<BillItem>, k: int)
    requires 0 <= k < |lines|
  {
    var id := lines[k].itemId;
    id in items && items[id].stockQuantity - QuantityFor(lines[..k], id) >= lines[k].quantity
  }

  /** The error line `k` raises when it does not fit. */
  function FailureAt(items: map<int, Item>, lines: seq<BillItem>, k: int): LineError
    requires 0 <= k < |lines|
  {
    if lines[k].itemId !in items then ItemNotFound(lines[k].itemId) else InsufficientStock(lines[k].itemId)
  }

  function StockAfter(items: map<int, Item>, lines: seq<BillItem>): map<int, Item>
  {
    map id | id in items :: items[id].(stockQuantity := items[id].stockQuantity - QuantityFor(lines, id))
  }

  lemma QuantityForPrefix(lines: seq<BillItem>, k: int, id: int)
    requires 0 <= k < |lines|
    ensures QuantityFor(lines[..k + 1], id) == (if lines[0].itemId == id then lines[0].quantity else 0) + QuantityFor(lines[1..][..k], id)
  {
    assert lines[..k + 1][1..] == lines[1..][..k];
  }

  /** On success every item's stock drops by the quantities of the lines naming it, and
      nothing else about any item changes. */
  lemma {:induction false} ApplyLinesStock(items: map<int, Item>, lines: seq<BillItem>)
    requires ApplyLines(items, lines).Ok?
    ensures ApplyLines(items, lines).value == StockAfter(items, lines)
    decreases |lines|
  {
    if lines != [] {
      var id := lines[0].itemId;
      var next := items[id := items[id].(stockQuantity := items[id].stockQuantity - lines[0].quantity)];
      ApplyLinesStock(next, lines[1..]);
      assert StockAfter(next, lines[1..]) == StockAfter(items, lines);
    }
  }

  /** A successful pass never turns a non-negative stock negative. */
  lemma {:induction false} ApplyLinesNonNegative(items: map<int, Item>, lines: seq<BillItem>, id: int)
    requires ApplyLines(items, lines).Ok?
    requires id in items && items[id].stockQuantity >= 0
    ensures id in ApplyLines(items, lines).value
    ensures ApplyLines(items, lines).value[id].stockQuantity >= 0
    decreases |lines|
  {
    if lines != [] {
      var l := lines[0].itemId;
      ApplyLinesNonNegative(items[l := items[l].(stockQuantity := items[l].stockQuantity - lines[0].quantity)], lines[1..], id);
    }
  }

  /** The pass succeeds exactly when every line fits, and then applies every line; when it
      fails, it has applied the lines before the first one that does not fit, and the error
      is the one that line raises. */
  lemma {:induction false} ApplyLinesOutcome(items: map<int, Item>, lines: seq<BillItem>)
    ensures ApplyLines(items, lines).Ok? <==> forall k :: 0 <= k < |lines| ==> LineFits(items, lines, k)
    ensures ApplyLines(items, lines).Ok? ==> Applied(items, lines) == |lines|
    ensures ApplyLines(items, lines).Err? ==>
      var k := Applied(items, lines);
      && k < |lines| && !LineFits(items, lines, k)
      && (forall j :: 0 <= j < k ==> LineFits(items, lines, j))
      && ApplyLines(items, lines).error == FailureAt(items, lines, k)
    decreases |lines|
  {
    if lines != [] {
      var id := lines[0].itemId;
      assert lines[..0] == [];
      if id in items && items[id].stockQuantity >= lines[0].quantity {
        var next := items[id := items[id].(stockQuantity := items[id].stockQuantity - lines[0].quantity)];
        ApplyLinesOutcome(next, lines[1..]);
        forall k | 0 <= k < |lines| - 1
          ensures LineFits(next, lines[1..], k) <==> LineFits(items, lines, k + 1)
          ensures FailureAt(next, lines[1..], k) == FailureAt(items, lines, k + 1)
        {
          QuantityForPrefix(lines, k, lines[k + 1].itemId);
        }
        if ApplyLines(items, lines).Ok? {
          forall k | 0 <= k < |lines| ensures LineFits(items, lines, k) {
            if k > 0 {
              assert LineFits(next, lines[1..], k - 1);
            }
          }
        } else {
          var k := Applied(next, lines[1..]);
          assert !LineFits(items, lines, k + 1);
          forall j | 0 <= j < k + 1 ensures LineFits(items, lines, j) {
            if j > 0 {
              assert LineFits(next, lines[1..], j - 1);
            }
          }
        }
      } else {
        assert !LineFits(items, lines, 0);
      }
    }
  }

  // ---------------------------------------------------------------------------
  // Rows written by a committed bill, and the read-back shapes

  /** The bill-item rows of bill `billId`, one per line in line order, numbered from `first`. */
  function ItemRows(billId: int, first: int, lines: seq<BillItem>): (rows: seq<BillItemRow>)
    ensures |rows| == |lines|
  {
    seq(|lines|, k requires 0 <= k < |lines| =>
      BillItemRow(first + k, billId, lines[k].itemId, lines[k].quantity, lines[k].unitPrice, lines[k].subtotal))
  }

  lemma ItemRowsAppend(billId: int, first: int, lines: seq<BillItem>, i: int)
    requires 0 <= i < |lines|
    ensures ItemRows(billId, first, lines[..i + 1]) ==
      ItemRows(billId, first, lines[..i])
      + [BillItemRow(first + i, billId, lines[i].itemId, lines[i].quantity, lines[i].unitPrice, lines[i].subtotal)]
  {
  }

  /** The lines as they read back: the same lines, carrying their new row ids. */
  function Numbered(lines: seq<BillItem>, first: int): (r: seq<BillItem>)
    ensures |r| == |lines|
  {
    seq(|lines|, k requires 0 <= k < |lines| => lines[k].(id := first + k))
  }

  function ToBillItem(row: BillItemRow): BillItem
  {
    BillItem(row.id, row.itemId, row.quantity, row.unitPrice, row.subtotal)
  }

  /** `SELECT ... FROM BillItem WHERE bill_id = ?`, in table order. */
  function BillItemsOf(rows: seq<BillItemRow>, billId: int): (r: seq<BillItem>)
    ensures |r| <= |rows|
  {
    if rows == [] then []
    else
      BillItemsOf(rows[..|rows| - 1], billId)
      + if rows[|rows| - 1].billId == billId then [ToBillItem(rows[|rows| - 1])] else []
  }

  /** The read-back holds exactly the rows of that bill. */
  lemma {:induction false} BillItemsOfMembers(rows: seq<BillItemRow>, billId: int, x: BillItem)
    ensures x in BillItemsOf(rows, billId) <==> exists i :: 0 <= i < |rows| && rows[i].billId == billId && x == ToBillItem(rows[i])
  {
    if rows != [] {
      var front := rows[..|rows| - 1];
      BillItemsOfMembers(front, billId, x);
      if x in BillItemsOf(front, billId) {
        var i :| 0 <= i < |front| && front[i].billId == billId && x == ToBillItem(front[i]);
        assert rows[i] == front[i];
      }
      if exists i :: 0 <= i < |rows| && rows[i].billId == billId && x == ToBillItem(rows[i]) {
        var i :| 0 <= i < |rows| && rows[i].billId == billId && x == ToBillItem(rows[i]);
        if i < |front| {
          assert front[i] == rows[i];
        }
      }
    }
  }

  lemma {:induction false} BillItemsOfAppend(rows: seq<BillItemRow>, more: seq<BillItemRow>, billId: int)
    ensures BillItemsOf(rows + more, billId) == BillItemsOf(rows, billId) + BillItemsOf(more, billId)
    decreases |more|
  {
    if more == [] {
      assert rows + more == rows;
    } else {
      var front := more[..|more| - 1];
      assert (rows + more)[..|rows + more| - 1] == rows + front;
      BillItemsOfAppend(rows, front, billId);
    }
  }

  lemma {:induction false} BillItemsOfNone(rows: seq<BillItemRow>, billId: int)
    requires forall i :: 0 <= i < |rows| ==> rows[i].billId != billId
    ensures BillItemsOf(rows, billId) == []
  {
    if rows != [] {
      BillItemsOfNone(rows[..|rows| - 1], billId);
    }
  }

  lemma {:induction false} BillItemsOfItemRows(billId: int, first: int, lines: seq<BillItem>)
    ensures BillItemsOf(ItemRows(billId, first, lines), billId) == Numbered(lines, first)
    decreases |lines|
  {
    if lines != [] {
      var n := |lines| - 1;
      var rows := ItemRows(billId, first, lines);
      assert rows[..n] == ItemRows(billId, first, lines[..n]);
      BillItemsOfItemRows(billId, first, lines[..n]);
      assert Numbered(lines, first) == Numbered(lines[..n], first) + [lines[n].(id := first + n)];
    }
  }

  /** `SELECT ... FROM Bill WHERE id = ?`. */
  function LookupBill(bills: seq<BillRow>, id: int): (r: Option<BillRow>)
    ensures r.Some? ==> r.value in bills && r.value.id == id
    ensures r.None? <==> forall i :: 0 <= i < |bills| ==> bills[i].id != id
  {
    if bills == [] then None
    else if bills[0].id == id then Some(bills[0])
    else LookupBill(bills[1..], id)
  }

  /** The bill as `getBillById` reads it back: the header with exactly its item rows. */
  function ReadBack(header: BillRow, rows: seq<BillItemRow>): Billing
  {
    Billing(header.id, Some(header.billNo), header.customerId, header.totalAmount, Some(BillItemsOf(rows, header.id)))
  }

  /** Which headers `getBillsByCustomerId` selects: all of them for customer 0. */
  function SelectBills(bills: seq<BillRow>, customerId: int): (r: seq<BillRow>)
    ensures |r| <= |bills|
  {
    if bills == [] then []
    else
      SelectBills(bills[..|bills| - 1], customerId)
      + if customerId == 0 || bills[|bills| - 1].customerId == customerId then [bills[|bills| - 1]] else []
  }

  lemma {:induction false} SelectBillsAll(bills: seq<BillRow>)
    ensures SelectBills(bills, 0) == bills
  {
    if bills != [] {
      SelectBillsAll(bills[..|bills| - 1]);
      assert bills[..|bills| - 1] + [bills[|bills| - 1]] == bills;
    }
  }

  /** A non-zero customer id selects exactly that customer's bills. */
  lemma {:induction false} SelectBillsMembers(bills: seq<BillRow>, customerId: int, b: BillRow)
    requires customerId != 0
    ensures b in SelectBills(bills, customerId) <==> b in bills && b.customerId == customerId
  {
    if bills != [] {
      var front := bills[..|bills| - 1];
      SelectBillsMembers(front, customerId, b);
      assert bills == front + [bills[|bills| - 1]];
    }
  }

  function BillNumbers(bills: seq<BillRow>): (r: seq<string>)
    ensures |r| == |bills|
  {
    seq(|bills|, i requires 0 <= i < |bills| => bills[i].billNo)
  }

  // ---------------------------------------------------------------------------
  // The DAO methods

  /** `createBill`. `header` is the server's verdict on the header insert (a customer id
      with no customer row breaks its foreign key); `keyReported` says whether the driver
      returned the generated key of the header row; `today` is the clock's date. A rollback
      restores every row but not the AUTO_INCREMENT counters: the ids taken by rolled-back
      inserts stay used. */
  method CreateBill(db: Database, bill: Billing, today: Date, header: Verdict, keyReported: bool)
    returns (r: Outcome<int>)
    requires db.Valid() && today.Valid()
    modifies db`items, db`bills, db`billItems, db`nextBillId, db`nextBillItemId
    ensures db.Valid()
    ensures db.nextBillId == old(db.nextBillId) + 1
    ensures WellNumbered(BillNumbers(old(db.bills))) ==> WellNumbered(BillNumbers(db.bills))
    ensures var row := BillRow(old(db.nextBillId), Generate(today, BillNumbers(old(db.bills))),
                               bill.customerId, bill.totalAmount);
      if header.Refused? then
        // the insert fails: the catch block rolls back and rethrows
        && r == Raised(SqlException(header.message))
        && db.bills == old(db.bills) && db.items == old(db.items) && db.billItems == old(db.billItems)
        && db.nextBillItemId == old(db.nextBillItemId)
      else if !keyReported then
        // no key: roll back, return -1
        && r == Done(-1)
        && db.bills == old(db.bills) && db.items == old(db.items) && db.billItems == old(db.billItems)
        && db.nextBillItemId == old(db.nextBillItemId)
      else if bill.billItems.None? then
        // the item loop dereferences null; closing the connection commits the header
        && r == Raised(NullPointer)
        && db.bills == old(db.bills) + [row]
        && db.items == old(db.items) && db.billItems == old(db.billItems)
        && db.nextBillItemId == old(db.nextBillItemId)
      else
        var lines := bill.billItems.value;
        match ApplyLines(old(db.items), lines)
        case Err(e) =>
          && r == Raised(SqlException(LineErrorMessage(e)))
          && db.bills == old(db.bills) && db.items == old(db.items) && db.billItems == old(db.billItems)
          && db.nextBillItemId == old(db.nextBillItemId) + Applied(old(db.items), lines)
        case Ok(stock) =>
          && r == Done(row.id)
          && db.items == stock
          && db.bills == old(db.bills) + [row]
          && db.billItems == old(db.billItems) + ItemRows(row.id, old(db.nextBillItemId), lines)
          && db.nextBillItemId == old(db.nextBillItemId) + |lines|
  {
    var bills0, billItems0, nextBill0 := db.bills, db.billItems, db.nextBillId;
    var billNo := Generate(today, BillNumbers(db.bills));
    var billId := db.nextBillId;
    var row := BillRow(billId, billNo, bill.customerId, bill.totalAmount);
    AppendBillValid(db.bills, db.billItems, db.nextBillId, db.nextBillItemId, row);
    NumbersAppend(db.bills, row, today);
    db.nextBillId := db.nextBillId + 1;
    RaiseCountersValid(bills0, billItems0, nextBill0, db.nextBillItemId, db.nextBillId, db.nextBillItemId);
    if header.Refused? {
      return Raised(SqlException(header.message));
    }
    db.bills := db.bills + [row];
    if !keyReported {
      db.bills := bills0;
      return Done(-1);
    }
    if bill.billItems.None? {
      return Raised(NullPointer);
    }

    var failure := TakeStock(db, billId, bill.billItems.value);
    if failure.Some? {
      RaiseCountersValid(bills0, billItems0, db.nextBillId, old(db.nextBillItemId), db.nextBillId, db.nextBillItemId);
      db.bills := bills0;
      return Raised(SqlException(LineErrorMessage(failure.value)));
    }
    return Done(billId);
  }

  /** A header numbered by `Generate` keeps a well-numbered bill table well numbered. */
  lemma NumbersAppend(bills: seq<BillRow>, row: BillRow, today: Date)
    requires today.Valid() && row.billNo == Generate(today, BillNumbers(bills))
    ensures WellNumbered(BillNumbers(bills)) ==> WellNumbered(BillNumbers(bills + [row]))
  {
    assert BillNumbers(bills + [row]) == BillNumbers(bills) + [row.billNo];
    if WellNumbered(BillNumbers(bills)) {
      GenerateIsFresh(today, BillNumbers(bills));
    }
  }

  /** The item loop of `createBill`, inside the open transaction of bill `billId`: per line,
      the stock check, the decrement and the bill-item row. It stops at the first line that
      does not fit, rolls back the rows of the lines taken so far (their ids stay used) and
      reports why; the caller then rolls back the header. */
  method TakeStock(db: Database, billId: int, lines: seq<BillItem>) returns (failure: Option<LineError>)
    requires db.Valid() && billId < db.nextBillId
    modifies db`items, db`billItems, db`nextBillItemId
    ensures db.Valid()
    ensures failure.None? <==> ApplyLines(old(db.items), lines).Ok?
    ensures failure.Some? ==> ApplyLines(old(db.items), lines) == Err(failure.value)
    ensures failure.Some? ==> unchanged(db`items, db`billItems)
    ensures db.nextBillItemId == old(db.nextBillItemId) + Applied(old(db.items), lines)
    ensures failure.None? ==>
      && db.items == ApplyLines(old(db.items), lines).value
      && db.billItems == old(db.billItems) + ItemRows(billId, old(db.nextBillItemId), lines)
      && Applied(old(db.items), lines) == |lines|
  {
    var items0, billItems0 := db.items, db.billItems;
    var i := 0;
    while i < |lines|
      invariant 0 <= i <= |lines|
      invariant ItemsKeyed(db.items, db.nextItemId)
      invariant db.billItems == old(db.billItems) + ItemRows(billId, old(db.nextBillItemId), lines[..i])
      invariant forall k :: 0 <= k < |db.billItems| ==> db.billItems[k].billId < db.nextBillId
      invariant db.nextBillItemId == old(db.nextBillItemId) + i
      invariant PassedTo(old(db.items), lines, i, db.items)
    {
      var line := lines[i];
      if line.itemId !in db.items || db.items[line.itemId].stockQuantity < line.quantity {
        var e := if line.itemId !in db.items then ItemNotFound(line.itemId) else InsufficientStock(line.itemId);
        StopLineStep(old(db.items), lines, i, db.items);
        RaiseCountersValid(db.bills, billItems0, db.nextBillId, old(db.nextBillItemId), db.nextBillId, db.nextBillItemId);
        db.items, db.billItems := items0, billItems0;
        return Some(e);
      }
      var current := db.items[line.itemId].stockQuantity;
      var stock := db.items[line.itemId := db.items[line.itemId].(stockQuantity := current - line.quantity)];
      var row := BillItemRow(db.nextBillItemId, billId, line.itemId, line.quantity, line.unitPrice, line.subtotal);
      TakeLineStep(old(db.items), lines, i, db.items, stock, db.nextItemId);
      ItemRowsAppend(billId, old(db.nextBillItemId), lines, i);
      db.items, db.billItems, db.nextBillItemId := stock, db.billItems + [row], db.nextBillItemId + 1;
      i := i + 1;
    }
    assert lines[..i] == lines;
    assert lines[i..] == [];
    return None;
  }

  /** The item loop has taken the first `i` lines from stock `start` and holds stock
      `items`: the pass over the remaining lines ends as the whole pass does, and the lines
      it applies are the ones still to come. */
  ghost predicate PassedTo(start: map<int, Item>, lines: seq<BillItem>, i: int, items: map<int, Item>)
    requires 0 <= i <= |lines|
  {
    && ApplyLines(start, lines) == ApplyLines(items, lines[i..])
    && Applied(start, lines) == i + Applied(items, lines[i..])
  }

  /** One turn of the item loop over a line that fits: the pass continues from the
      decremented stock, and the keys stay as they were. */
  lemma TakeLineStep(start: map<int, Item>, lines: seq<BillItem>, i: int, items: map<int, Item>,
                      next: map<int, Item>, nextItemId: int)
    requires 0 <= i < |lines| && PassedTo(start, lines, i, items)
    requires lines[i].itemId in items && lines[i].quantity <= items[lines[i].itemId].stockQuantity
    requires next == items[lines[i].itemId :=
      items[lines[i].itemId].(stockQuantity := items[lines[i].itemId].stockQuantity - lines[i].quantity)]
    requires ItemsKeyed(items, nextItemId)
    ensures PassedTo(start, lines, i + 1, next) && ItemsKeyed(next, nextItemId)
  {
    assert lines[i..][1..] == lines[i + 1..];
  }

  /** The turn that stops the item loop: a line naming a missing item or more than its stock
      ends the whole pass with that error, after the `i` lines before it. */
  lemma StopLineStep(start: map<int, Item>, lines: seq<BillItem>, i: int, items: map<int, Item>)
    requires 0 <= i < |lines| && PassedTo(start, lines, i, items)
    requires lines[i].itemId !in items || items[lines[i].itemId].stockQuantity < lines[i].quantity
    ensures ApplyLines(start, lines) ==
      Err(if lines[i].itemId !in items then ItemNotFound(lines[i].itemId) else InsufficientStock(lines[i].itemId))
    ensures Applied(start, lines) == i
  {
    assert lines[i..][0] == lines[i];
  }

  /** The item loop of the read-backs: every row of that bill, in table order. */
  method CollectBillItems(db: Database, billId: int) returns (result: seq<BillItem>)
    ensures result == BillItemsOf(db.billItems, billId)
  {
    var rows := db.billItems;
    result := [];
    var i := 0;
    while i < |rows|
      invariant 0 <= i <= |rows|
      invariant result == BillItemsOf(rows[..i], billId)
    {
      assert rows[..i + 1][..i] == rows[..i];
      if rows[i].billId == billId {
        result := result + [ToBillItem(rows[i])];
      }
      i := i + 1;
    }
    assert rows[..i] == rows;
  }

  /** `getBillById`: null for an absent id, otherwise the header with exactly its items. */
  method GetBillById(db: Database, id: int) returns (r: Option<Billing>)
    ensures r.None? <==> forall i :: 0 <= i < |db.bills| ==> db.bills[i].id != id
    ensures r.Some? ==> exists h :: h in db.bills && h.id == id && r.value == ReadBack(h, db.billItems)
  {
    var header := LookupBill(db.bills, id);
    if header.None? {
      return None;
    }
    var items := CollectBillItems(db, id);
    r := Some(Billing(id, Some(header.value.billNo), header.value.customerId, header.value.totalAmount, Some(items)));
    assert r.value == ReadBack(header.value, db.billItems);
  }

  /** `getBillsByCustomerId`: the selected headers in table order, each with its items. */
  method GetBillsByCustomerId(db: Database, customerId: int) returns (r: seq<Billing>)
    ensures |r| == |SelectBills(db.bills, customerId)|
    ensures forall k :: 0 <= k < |r| ==> r[k] == ReadBack(SelectBills(db.bills, customerId)[k], db.billItems)
  {
    var headers := SelectBills(db.bills, customerId);
    r := [];
    var i := 0;
    while i < |headers|
      invariant 0 <= i <= |headers|
      invariant |r| == i
      invariant forall k :: 0 <= k < i ==> r[k] == ReadBack(headers[k], db.billItems)
    {
      var h := headers[i];
      var items := CollectBillItems(db, h.id);
      r := r + [Billing(h.id, Some(h.billNo), h.customerId, h.totalAmount, Some(items))];
      i := i + 1;
    }
  }

  // ---------------------------------------------------------------------------
  // Properties of a committed bill

  /** A committed bill reads back with its header and exactly its lines, in order, each
      carrying its new row id: no earlier row can belong to the new bill id. */
  lemma CreatedBillReadsBack(bills: seq<BillRow>, rows: seq<BillItemRow>, header: BillRow, first: int, lines: seq<BillItem>)
    requires BillIdsBelow(bills, header.id)
    requires forall i :: 0 <= i < |rows| ==> rows[i].billId < header.id
    ensures LookupBill(bills + [header], header.id) == Some(header)
    ensures BillItemsOf(rows + ItemRows(header.id, first, lines), header.id) == Numbered(lines, first)
    ensures ReadBack(header, rows + ItemRows(header.id, first, lines)).billItems == Some(Numbered(lines, first))
  {
    BillItemsOfAppend(rows, ItemRows(header.id, first, lines), header.id);
    BillItemsOfNone(rows, header.id);
    BillItemsOfItemRows(header.id, first, lines);
    LookupAfterAppend(bills, header);
  }

  lemma {:induction false} LookupAfterAppend(bills: seq<BillRow>, header: BillRow)
    requires BillIdsBelow(bills, header.id)
    ensures LookupBill(bills + [header], header.id) == Some(header)
  {
    if bills != [] {
      assert (bills + [header])[1..] == bills[1..] + [header];
      LookupAfterAppend(bills[1..], header);
    }
  }

  /** The number `CreateBill` gives a new bill differs from every stored bill's number,
      on a well-numbered bill table; `CreateBill` keeps the table well numbered. */
  lemma NewNumberIsFresh(bills: seq<BillRow>, today: Date)
    requires today.Valid() && WellNumbered(BillNumbers(bills))
    ensures forall i :: 0 <= i < |bills| ==> bills[i].billNo != Generate(today, BillNumbers(bills))
  {
    GenerateIsFresh(today, BillNumbers(bills));
    forall i | 0 <= i < |bills| ensures bills[i].billNo != Generate(today, BillNumbers(bills)) {
      assert BillNumbers(bills)[i] == bills[i].billNo;
    }
  }
}
