/** The relational store the DAOs work on: one record type per table row, the request
    and read-back shapes of a bill, and the database itself as an object whose tables are
    fields that the DAO operations update in place. Money is held in integer cents. */
module Store {
  import opened Common

  /** A row of `Item`; `categoryId` is a nullable foreign key. */
  datatype Item = Item(
    id: int,
    name: Option<string>,
    description: Option<string>,
    price: int,
    stockQuantity: int,
    categoryId: Option<int>)

  /** A row of `customer`. */
  datatype Customer = Customer(
    id: int,
    name: Option<string>,
    gender: Option<string>,
    dob: Option<Date>,
    address: Option<string>,
    nic: Option<string>,
    email: Option<string>,
    phone: Option<string>,
    accountNumber: Option<string>,
    status: Option<string>)

  /** A row of `cashier`: a customer's shape without the account number. */
  datatype Cashier = Cashier(
    id: int,
    name: Option<string>,
    gender: Option<string>,
    dob: Option<Date>,
    address: Option<string>,
    nic: Option<string>,
    email: Option<string>,
    phone: Option<string>,
    status: Option<string>)

  /** A row of `Category`. */
  datatype Category = Category(id: int, name: Option<string>, description: Option<string>)

  /** A row of `Bill` (the header). */
  datatype BillRow = BillRow(id: int, billNo: string, customerId: int, totalAmount: int)

  /** A row of `BillItem`, linked to its header by `billId`. */
  datatype BillItemRow = BillItemRow(
    id: int,
    billId: int,
    itemId: int,
    quantity: int,
    unitPrice: int,
    subtotal: int)

  /** `Billing.BillItem`: one line of a bill, as a request carries it and as it is read back. */
  datatype BillItem = BillItem(id: int, itemId: int, quantity: int, unitPrice: int, subtotal: int)

  /** `Billing`: a bill as a request carries it and as it is read back; either reference
      may be null in a request. */
  datatype Billing = Billing(
    id: int,
    billNo: Option<string>,
    customerId: int,
    totalAmount: int,
    billItems: Option<seq<BillItem>>)

  /** What the server does with one statement: it runs it, or refuses it and the driver
      raises an SQLException with this message (a duplicate key, a foreign key with no row
      behind it, a NULL in a NOT NULL column, a lost connection). A refused INSERT has already
      taken its AUTO_INCREMENT value, which InnoDB never gives back. */
  datatype Verdict = Runs | Refused(message: string)

  /** A SELECT that would read `rows`: they come back when the server runs it, its
      SQLException when the server refuses it. */
  function Read<T>(server: Verdict, rows: T): Outcome<T>
  {
    if server.Refused? then Raised(SqlException(server.message)) else Done(rows)
  }

  const STATUS_PENDING := "pending"
  const STATUS_APPROVED := "approved"
  const STATUS_REJECTED := "rejected"

  /** The database: keyed tables, the two bill tables in insertion order, and the
      AUTO_INCREMENT counter of each table. */
  class Database {
    var items: map<int, Item>
    var customers: map<int, Customer>
    var cashiers: map<int, Cashier>
    var categories: map<int, Category>
    var bills: seq<BillRow>
    var billItems: seq<BillItemRow>
    var nextItemId: int
    var nextCustomerId: int
    var nextCashierId: int
    var nextCategoryId: int
    var nextBillId: int
    var nextBillItemId: int

    /** Every key is a positive id below its table's counter and equals the row's own id;
        bill ids increase along the table; every bill item points below the bill counter. */
    ghost predicate Valid()
      reads this
    {
      && ItemsKeyed(items, nextItemId)
      && CustomersKeyed(customers, nextCustomerId)
      && CashiersKeyed(cashiers, nextCashierId)
      && CategoriesKeyed(categories, nextCategoryId)
      && BillsValid(bills, billItems, nextBillId, nextBillItemId)
    }

    constructor ()
      ensures Valid()
      ensures items == map[] && customers == map[] && cashiers == map[] && categories == map[]
      ensures bills == [] && billItems == []
    {
      items, customers, cashiers, categories := map[], map[], map[], map[];
      bills, billItems := [], [];
      nextItemId, nextCustomerId, nextCashierId := 1, 1, 1;
      nextCategoryId, nextBillId, nextBillItemId := 1, 1, 1;
    }
  }

  ghost predicate ItemsKeyed(items: map<int, Item>, next: int)
  {
    1 <= next && forall id :: id in items ==> 1 <= id < next && items[id].id == id
  }

  /** Besides the keys: every stored customer has a date of birth, since no insert or update
      reaches the database with a null one. */
  ghost predicate CustomersKeyed(customers: map<int, Customer>, next: int)
  {
    1 <= next && forall id :: id in customers ==> 1 <= id < next && customers[id].id == id && customers[id].dob.Some?
  }

  ghost predicate CashiersKeyed(cashiers: map<int, Cashier>, next: int)
  {
    1 <= next && forall id :: id in cashiers ==> 1 <= id < next && cashiers[id].id == id && cashiers[id].dob.Some?
  }

  ghost predicate CategoriesKeyed(categories: map<int, Category>, next: int)
  {
    1 <= next && forall id :: id in categories ==> 1 <= id < next && categories[id].id == id
  }

  ghost predicate BillsValid(bills: seq<BillRow>, billItems: seq<BillItemRow>, nextBillId: int, nextBillItemId: int)
  {
    && 1 <= nextBillId && 1 <= nextBillItemId
    && BillIdsBelow(bills, nextBillId)
    && BillIdsIncreasing(bills)
    && forall i :: 0 <= i < |billItems| ==> billItems[i].billId < nextBillId
  }

  ghost predicate BillIdsBelow(bills: seq<BillRow>, bound: int)
  {
    forall i :: 0 <= i < |bills| ==> 1 <= bills[i].id < bound
  }

  ghost predicate BillIdsIncreasing(bills: seq<BillRow>)
  {
    forall i, j :: 0 <= i < j < |bills| ==> bills[i].id < bills[j].id
  }

  /** Appending a header under the bill counter, and advancing the counter, keeps the bill
      tables valid. */
  lemma AppendBillValid(bills: seq<BillRow>, billItems: seq<BillItemRow>, nextBillId: int, nextBillItemId: int, header: BillRow)
    requires BillsValid(bills, billItems, nextBillId, nextBillItemId) && header.id == nextBillId
    ensures BillsValid(bills + [header], billItems, nextBillId + 1, nextBillItemId)
  {
  }

  /** Raising the counters keeps the bill tables valid: what a rolled-back insert leaves. */
  lemma RaiseCountersValid(bills: seq<BillRow>, billItems: seq<BillItemRow>, nextBillId: int, nextBillItemId: int,
                           billBound: int, itemBound: int)
    requires BillsValid(bills, billItems, nextBillId, nextBillItemId)
    requires nextBillId <= billBound && nextBillItemId <= itemBound
    ensures BillsValid(bills, billItems, billBound, itemBound)
  {
  }
}
