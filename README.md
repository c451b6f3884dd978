# Bookshop billing backend: a Dafny model

This project models the logic of a JAX-RS/JDBC bookshop billing service. The service keeps
items, categories, customers, cashiers, bills and bill items in a MySQL database. Its REST
resources validate requests, call a DAO and turn the DAO's result or exception into an HTTP
status.

The model covers:

- **Bill numbers** (`BillNumber`). `generateBillNo` builds `BILL-<yyyyMMdd>-<n>`, where `n`
  is one more than the number of existing bill numbers with that date's prefix, zero-padded
  to four digits. The model proves the shape of the number, that the literal fallback agrees
  with the first number of a day, and that every number issued this way is fresh.
- **The bill-creation transaction** of the inline-SQL `BillingDAO` (`BillingDao`). It is a
  method on the in-memory `Store.Database`. The method inserts the header, walks the lines
  in order checking and decrementing stock and writing one bill-item row per line, then
  commits or rolls back. Its specification is the function `ApplyLines`. The read-backs
  `getBillById` and `getBillsByCustomerId` are loops over the same store.
- **The stored-procedure `BillingDAO`'s checks** (`BillValidation`). These are the
  empty-list and subtotal checks and the JSON payload, which all run before the procedure
  is called.
- **The inline-SQL table DAOs** for items, categories, customers and cashiers (`ItemDao`,
  `CategoryDao`, `CustomerDao`, `CashierDao`). Their INSERT/UPDATE/DELETE statements become
  updates of one map field of the store. Their search builders share one model of the
  "`WHERE 1=1` + one `AND <column> <op> ?` block per present key" pattern (`Query`). For
  that pattern the model proves:
  - the placeholder count equals the parameter count;
  - the text is exactly the clauses the parameters belong to;
  - a row satisfies the rendered query exactly when it satisfies a field-level predicate.
- **The REST resources** (`BillingResource`, `ItemResource`, `CategoryResource`,
  `CustomerResource`, `CashierResource`, with the shared mappings in `Http`):
  - the request checks;
  - the mapping from a DAO outcome to a response;
  - the search criteria built from the query string;
  - the login decision.

Modelling conventions:

- Money is in integer cents.
- The date a bill is created on is a parameter (`today`).
- `keyReported` says whether the JDBC driver returned a generated key. When it did not,
  the source returns `-1`.
- A `Store.Verdict` parameter says what the server does with a statement: it runs it
  (`Runs`), or it refuses it (`Refused(message)`), for example for a duplicate key, a
  foreign key with no row behind it or a lost connection. A refused statement raises an
  SQLException with that message, and the table is left as it was. The endpoints over the
  store take one for their SELECT too (`Store.Read`), so a failed read answers 500. A refused INSERT has still used up its
  AUTO_INCREMENT value, and so has an insert that a rollback undoes: InnoDB never hands
  those ids out again.
- A Java exception is a `Common.Failure`, and a DAO call returns `Outcome<T>`
  (`Done(value)` or `Raised(failure)`).
- A resource either replies (`Reply(status, body)`) or lets an exception it does not catch
  escape (`Propagated(failure)`).
- `LIKE '%v%'` is substring containment, and "a row was affected" means "a row with that
  id exists".

Two behaviours of the code that the model states directly:

- `createBill` with a null item list has already inserted the header when the loop
  dereferences the list. The `finally` block then switches auto-commit back on, which
  commits the open transaction. So the header stays, and `CreateBill` models exactly that.
  Every other failure rolls back completely.
- The total amount of a bill is never checked against the sum of its subtotals, by either
  `BillingDAO`.

Wiring:

- `BillingResource`, `ItemResource`, `CategoryResource` and `CustomerResource` are wired to
  the stored-procedure DAOs. Their response functions therefore take the DAO's outcome as
  an input.
- `ItemResource.Search`, `CategoryResource.Search`, `CustomerResource.Search` and
  `CustomerResource.Login` compose a resource with the inline DAO of the same table. This
  is the one DAO whose behaviour is visible.
- `DAO.CustomerDAO`, the DAO `CustomerResource` is wired to, has no `approveCustomer`,
  `rejectCustomer` or `authenticateCustomer`, though the resource calls all three. The model
  composes those three endpoints with the methods of the same name in the inline
  `Utils.CustomerDAO`: `CustomerDao.ApproveCustomer`, `CustomerDao.RejectCustomer` and
  `CustomerDao.AuthenticateCustomer`.
- `CashierResource` is wired to the inline `CashierDAO`, so its operations are methods on
  the store. Because that DAO's login query already demands status `approved`, the
  resource's 403 branch cannot be reached (`CashierResource.Login`), as long as the
  server compares strings exactly (see "## Left out").

## Model

| member | source | states |
|---|---|---|
| BillNumber.DatePart | billingServices/src/main/java/Utils/BillingDAO.java:19-26 | the `yyyyMMdd` part of a bill number is always eight characters |
| BillNumber.GenerateShape | billingServices/src/main/java/Utils/BillingDAO.java:19-26 | a generated number is `BILL-` + date + `-` + a digit string whose value is one more than the count of numbers with that date's prefix; it has at least four digits, exactly four below 10000, and is never truncated |
| BillNumber.Generate | billingServices/src/main/java/Utils/BillingDAO.java:18-31 | the number carries its day's `BILL-<date>` prefix, so issuing it raises that day's count by one |
| BillNumber.FirstOfDay | billingServices/src/main/java/Utils/BillingDAO.java:25-30 | with no existing number for that date the result is serial 1, and equals the literal fallback `BILL-<date>-0001` |
| BillNumber.FormatInjective | billingServices/src/main/java/Utils/BillingDAO.java:26 | two bill numbers are equal only for the same date and the same serial |
| BillNumber.FormatPrefix | billingServices/src/main/java/Utils/BillingDAO.java:21-24 | a bill number starts with the `BILL-<date>` prefix exactly when it was issued for that date, so the count sees only that day's bills |
| BillNumber.GenerateIsFresh | billingServices/src/main/java/Utils/BillingDAO.java:18-31 | on a table whose serials never exceed their day's count, the generated number is not yet in the table, and adding it keeps that invariant |
| BillNumber.IssuedDistinct | billingServices/src/main/java/Utils/BillingDAO.java:18-31 | numbers issued one after another, on any sequence of dates, are pairwise distinct |
| Common.ZeroPadDigits | billingServices/src/main/java/Utils/BillingDAO.java:26 | `%04d` yields only digits, of length max(4, digits of n), whose value is n |
| Common.ParseIntOfIntToString | billingServices/src/main/java/com/mycompany/billingservices/resources/ItemResource.java:221-222 | `Integer.parseInt` reads back the decimal text of any integer, so a numeric query parameter reaches the DAO unchanged |
| Common.JavaDigit | billingServices/src/main/java/Utils/ItemDAO.java:174 | `Character.digit(c, 10)`, which `Integer.parseInt` applies to each character, read off the table of decimal-digit blocks: an ASCII digit keeps its usual value, and every digit's value is below 10 |
| Common.AsciiJavaDigits | billingServices/src/main/java/Utils/ItemDAO.java:174 | a string of ASCII digits has the same value as a string of Java digits |
| Common.DigitInRun | billingServices/src/main/java/Utils/ItemDAO.java:174 | a code point in a digit block has its offset in the block as its value |
| Common.ArabicIndicDigit | billingServices/src/main/java/Utils/ItemDAO.java:174 | an Arabic-Indic digit (U+0660 to U+0669) is a digit with its usual value |
| Common.ParseTwoDigits | billingServices/src/main/java/Utils/ItemDAO.java:174 | two digits of any script parse to ten times the first plus the second, so `"١٢"` parses to 12 |
| BillingDao.CreateBill | billingServices/src/main/java/Utils/BillingDAO.java:33-117 | the bill counter always advances. A refused header insert raises its SQL error; no generated key gives -1; a missing item or short stock raises an SQL error naming the item, with the item-row counter advanced past the lines already written. In those three cases every table is as before (the rollback). A null line list raises with the header already committed. Otherwise: one header with the generated number and the caller's customer and total, and one bill-item row per line in order, with the stock as `ApplyLines` leaves it. A well-numbered bill table stays well numbered |
| BillingDao.TakeStock | billingServices/src/main/java/Utils/BillingDAO.java:64-94 | the loop fails exactly when `ApplyLines` does, with the same error. It then leaves stock and bill items as they were (the rollback), but the item-row counter stays advanced by the lines `Applied` had written. On success the stock is `ApplyLines`'s result, and one row per line is added, numbered consecutively, copying item id, quantity, unit price and subtotal |
| BillingDao.ApplyLinesStock | billingServices/src/main/java/Utils/BillingDAO.java:64-78 | after a successful pass each item's stock is its old stock minus the sum of the quantities of all lines naming it; unreferenced items are unchanged |
| BillingDao.ApplyLinesNonNegative | billingServices/src/main/java/Utils/BillingDAO.java:69-73 | a successful pass never makes a non-negative stock negative |
| BillingDao.ApplyLinesOutcome | billingServices/src/main/java/Utils/BillingDAO.java:69-82 | the pass succeeds exactly when every line fits the stock left by the earlier lines, and then `Applied` counts every line. Otherwise `Applied` counts the lines before the first one that does not fit, and the error names that line: missing item or insufficient stock |
| BillingDao.ApplyLines | billingServices/src/main/java/Utils/BillingDAO.java:64-94 | the pass the item loop makes over the stock; a successful pass keeps exactly the same item ids: no item is added or removed |
| BillingDao.TakeLineStep | billingServices/src/main/java/Utils/BillingDAO.java:69-78 | a line that fits decrements its item's stock, and the pass over the remaining lines continues from there; the keys stay as they were |
| BillingDao.StopLineStep | billingServices/src/main/java/Utils/BillingDAO.java:68-81 | a line whose item is missing, or whose stock is below its quantity, is where the whole pass stops: `ApplyLines` reports that item as not found or short of stock, and exactly the lines before it count as applied |
| BillingDao.NumbersAppend | billingServices/src/main/java/Utils/BillingDAO.java:39-47 | a header numbered by `generateBillNo` keeps a well-numbered bill table well numbered |
| Store.RaiseCountersValid | billingServices/src/main/java/Utils/BillingDAO.java:98-106 | the tables stay valid when a rollback restores the rows but leaves the id counters raised |
| BillingDao.CollectBillItems | billingServices/src/main/java/Utils/BillingDAO.java:142-157 | the loop returns exactly the rows with that bill id, in table order (rows come back in primary-key order, see "## Left out") |
| BillingDao.BillItemsOfMembers | billingServices/src/main/java/Utils/BillingDAO.java:140-157 | a line is read back exactly when some row with that bill id carries it |
| BillingDao.LookupBill | billingServices/src/main/java/Utils/BillingDAO.java:120-138 | the header found is a stored one with that id, and none is found exactly when no header has that id |
| BillingDao.GetBillById | billingServices/src/main/java/Utils/BillingDAO.java:119-162 | null exactly for an absent id; otherwise a stored header with that id plus exactly its items |
| BillingDao.GetBillsByCustomerId | billingServices/src/main/java/Utils/BillingDAO.java:164-209 | one bill per selected header, in table order (rows come back in primary-key order, see "## Left out"), each with exactly its items |
| BillingDao.SelectBillsAll | billingServices/src/main/java/Utils/BillingDAO.java:166-168 | customer id 0 selects every bill |
| BillingDao.SelectBillsMembers | billingServices/src/main/java/Utils/BillingDAO.java:166-168 | any other customer id selects exactly that customer's bills |
| BillingDao.CreatedBillReadsBack | billingServices/src/main/java/Utils/BillingDAO.java:39-93 | after a successful create, `getBillById` of the new id finds the new header and exactly the created lines, in input order (rows come back in primary-key order, see "## Left out") |
| BillingDao.NewNumberIsFresh | billingServices/src/main/java/Utils/BillingDAO.java:18-31 | the number given to a new bill differs from every stored bill's number |
| BillValidation.FirstMismatch | billingServices/src/main/java/DAO/BillingDAO.java:35-39 | finds the first line, in list order, whose subtotal is not quantity times unit price, or none when all match |
| BillValidation.ReadLineJson | billingServices/src/main/java/DAO/BillingDAO.java:42-51 | each payload object carries back the line's item id, quantity, unit price and subtotal under `item_id`, `quantity`, `unit_price`, `subtotal` |
| BillValidation.EmptyItemsRejected | billingServices/src/main/java/DAO/BillingDAO.java:32-34 | a null or empty item list raises IllegalArgumentException whatever the procedure would do |
| BillValidation.MismatchRejected | billingServices/src/main/java/DAO/BillingDAO.java:35-39 | the procedure is skipped exactly when some subtotal is wrong; the exception names the first wrong line's item id; with all subtotals right the procedure's result is returned |
| BillValidation.AcceptedCall | billingServices/src/main/java/DAO/BillingDAO.java:42-56 | an accepted call passes customer id and total unchanged (any total is accepted) and one payload object per line in order |
| BillValidation.PrepareCreateBill | billingServices/src/main/java/DAO/BillingDAO.java:28-56 | the two loops build exactly the call the validation function prescribes, or its error |
| BillingResource.RejectedBeforeDao | billingServices/src/main/java/com/mycompany/billingservices/resources/BillingResource.java:46-62 | a bad customer id, a missing or empty list, or a bad line gives 400 with the message of the first failing check, whatever the DAO would do |
| BillingResource.AcceptedMapping | billingServices/src/main/java/com/mycompany/billingservices/resources/BillingResource.java:63-77 | an accepted bill gives 201 with the DAO's id, 500 for -1, 500 "Database error" for an SQL exception, and lets any other exception escape |
| BillingResource.CreateBillResponse | billingServices/src/main/java/com/mycompany/billingservices/resources/BillingResource.java:43-78 | 201 exactly for a request that passes every check and a DAO id other than -1; a request that fails a check always gets 400 |
| BillingResource.WiredSubtotalMismatch | billingServices/src/main/java/com/mycompany/billingservices/resources/BillingResource.java:30 | through the wired DAO, an accepted bill with a wrong subtotal ends in an uncaught IllegalArgumentException; otherwise the procedure's result is mapped as usual |
| BillingResource.GetBillResponse | billingServices/src/main/java/com/mycompany/billingservices/resources/BillingResource.java:89-104 | null gives 404 naming the id, a bill gives 200 with it, an SQL exception gives 500 |
| Http.DatabaseError | billingServices/src/main/java/com/mycompany/billingservices/resources/ItemResource.java:75-80 | only SQLException is caught, as 500 "Database error: " + message; anything else escapes |
| Http.ConflictOrDatabaseError | billingServices/src/main/java/com/mycompany/billingservices/resources/ItemResource.java:115-124 | an SQL message containing "Duplicate entry" gives 409, any other SQL message 500, anything else escapes |
| Http.CreatedOrFailed | billingServices/src/main/java/com/mycompany/billingservices/resources/ItemResource.java:106-124 | 201 exactly when the DAO returned an id other than -1; -1 gives 500 |
| Http.MatchedOrNotFound | billingServices/src/main/java/com/mycompany/billingservices/resources/ItemResource.java:152-169 | 200 exactly when the DAO matched a row, 404 when it matched none |
| Http.FoundOrNotFound | billingServices/src/main/java/com/mycompany/billingservices/resources/ItemResource.java:65-81 | 404 exactly when the DAO found nothing; otherwise 200 with the entity |
| Http.CreatedAny | billingServices/src/main/java/com/mycompany/billingservices/resources/CustomerResource.java:102-104 | 201 with whatever id the DAO returned, -1 included |
| Http.Listed | billingServices/src/main/java/com/mycompany/billingservices/resources/ItemResource.java:242-251 | 200 exactly when the DAO returned, with its value |
| Http.LoginReply | billingServices/src/main/java/com/mycompany/billingservices/resources/CustomerResource.java:291-311 | 401 exactly when nobody matched, 403 exactly for a match that is not approved, 200 exactly for an approved match, carrying it |
| Query.Convert | billingServices/src/main/java/Utils/ItemDAO.java:165-182 | a value fails to convert exactly when the key is numeric and `parseInt` rejects it, raising NumberFormatException with that value |
| Query.AppendBlock | billingServices/src/main/java/Utils/ItemDAO.java:164-183 | one `if (criteria.containsKey(..))` block appends exactly the step the builder specification prescribes |
| Query.FoldRenders | billingServices/src/main/java/Utils/ItemDAO.java:160-190 | when every value converts, the query text is the base plus one ` AND <column> <op> ?` per present key in key order, and the parameters are those clauses' values in the same order |
| Query.FoldFails | billingServices/src/main/java/Utils/ItemDAO.java:170-182 | otherwise the build fails with the first unconvertible value in key order |
| Query.BuildOk | billingServices/src/main/java/Utils/ItemDAO.java:158-190 | the build succeeds exactly when the criteria are null or every present numeric value parses |
| Query.NoCriteria | billingServices/src/main/java/Utils/ItemDAO.java:163 | null or empty criteria give the base query with no parameters |
| Query.Placeholders | billingServices/src/main/java/Utils/ItemDAO.java:186-190 | the number of `?` in the text equals the number of bound parameters |
| Query.LikeWrapped | billingServices/src/main/java/Utils/ItemDAO.java:165-168 | `LIKE '%v%'` holds exactly when the column contains v |
| Query.HoldsBlocks | billingServices/src/main/java/Utils/ItemDAO.java:164-183 | a row satisfies the rendered conditions exactly when it satisfies every present key's block |
| Query.Select | billingServices/src/main/java/Utils/ItemDAO.java:191-204 | the row loop returns each matching table row, and as many as there are matching ids |
| Query.Selected | billingServices/src/main/java/Utils/ItemDAO.java:191-204 | the rows returned are exactly the table rows a field-level predicate picks |
| Query.PutIfNonEmpty | billingServices/src/main/java/com/mycompany/billingservices/resources/CustomerResource.java:263-269 | one `if (x != null && !x.isEmpty()) criteria.put(..)` stores the key exactly for a non-empty value and keeps every other entry |
| ItemDao.GetItemById | billingServices/src/main/java/Utils/ItemDAO.java:57-78 | the stored item with that id, or null exactly when there is none |
| ItemDao.AddItem | billingServices/src/main/java/Utils/ItemDAO.java:87-108 | the item is stored under the next id, category id as given (NULL included); the result is that id, or -1 when no key was returned; a refused insert raises its SQL error and stores nothing, though it still uses up the id |
| ItemDao.UpdateItem | billingServices/src/main/java/Utils/ItemDAO.java:117-133 | true exactly when a row with that id exists, which is then replaced; otherwise nothing changes; a statement the server refuses raises its SQL error and changes nothing |
| ItemDao.DeleteItem | billingServices/src/main/java/Utils/ItemDAO.java:142-149 | true exactly when the row existed; afterwards no item has that id, so `getItemById` returns null; a statement the server refuses raises its SQL error and changes nothing |
| ItemDao.BuildItemQuery | billingServices/src/main/java/Utils/ItemDAO.java:158-190 | the StringBuilder loop builds exactly the query of the five-key builder |
| ItemDao.ItemQueryMeaning | billingServices/src/main/java/Utils/ItemDAO.java:160-190 | an unparsable category_id, stock_min or stock_max (checked in that order) raises; otherwise placeholders equal parameters, and a row matches exactly when name and description contain the given text, the category equals the given one and stock_min ≤ stock ≤ stock_max |
| ItemDao.SearchItems | billingServices/src/main/java/Utils/ItemDAO.java:158-207 | raises exactly when the build fails; otherwise returns exactly the stored items the criteria ask for, no more and no fewer |
| ItemDao.StockRangeCounts | billingServices/src/main/java/Utils/ItemDAO.java:215-231 | the map has exactly the keys `0_50`, `50_100`, `100_plus`, counting items with stock 0..50, 51..100 and above 100 |
| ItemDao.RangesPartition | billingServices/src/main/java/Utils/ItemDAO.java:217-220 | the buckets are disjoint and cover every non-negative stock; a negative stock is in none |
| ItemDao.CountsAddUp | billingServices/src/main/java/Utils/ItemDAO.java:217-227 | the three counts add up to the number of items with non-negative stock |
| CategoryDao.GetCategoryById | billingServices/src/main/java/Utils/CategoryDAO.java:53-71 | the stored category with that id, or null exactly when there is none |
| CategoryDao.AddCategory | billingServices/src/main/java/Utils/CategoryDAO.java:80-94 | the category is stored under the next id; the result is that id or -1; a refused insert raises its SQL error and stores nothing, though it still uses up the id |
| CategoryDao.UpdateCategory | billingServices/src/main/java/Utils/CategoryDAO.java:103-112 | true exactly when the row exists, whose name and description are then replaced; otherwise nothing changes; a statement the server refuses raises its SQL error and changes nothing |
| CategoryDao.DeleteCategory | billingServices/src/main/java/Utils/CategoryDAO.java:121-128 | true exactly when the row existed; afterwards it is gone; a statement the server refuses raises its SQL error and changes nothing |
| CategoryDao.BuildCategoryQuery | billingServices/src/main/java/Utils/CategoryDAO.java:137-157 | the StringBuilder loop builds exactly the query of the two-key builder |
| CategoryDao.CategoryQueryMeaning | billingServices/src/main/java/Utils/CategoryDAO.java:139-157 | the build never fails, placeholders equal parameters, and a row matches exactly when its name and description contain the given text |
| CategoryDao.SearchCategories | billingServices/src/main/java/Utils/CategoryDAO.java:137-171 | exactly the stored categories the criteria ask for, all of them when the criteria are null |
| CustomerDao.GetCustomerById | billingServices/src/main/java/Utils/CustomerDAO.java:62-88 | the stored customer with that id, or null exactly when there is none |
| CustomerDao.RegisterCustomer | billingServices/src/main/java/Utils/CustomerDAO.java:97-118 | a null date of birth raises with nothing stored; otherwise the customer is stored under the next id with status `pending`, whatever was supplied, and the result is that id or -1; a refused insert raises its SQL error and stores nothing, though it still uses up the id |
| CustomerDao.UpdateCustomer | billingServices/src/main/java/Utils/CustomerDAO.java:127-143 | true exactly when the row exists, which then takes every field from the request except its status, which is kept; a statement the server refuses raises its SQL error and changes nothing |
| CustomerDao.DeleteCustomer | billingServices/src/main/java/Utils/CustomerDAO.java:152-159 | true exactly when the row existed; afterwards it is gone; a statement the server refuses raises its SQL error and changes nothing |
| CustomerDao.UpdateStatus | billingServices/src/main/java/Utils/CustomerDAO.java:191-199 | true exactly when the row exists, whose status alone then changes; a statement the server refuses raises its SQL error and changes nothing |
| CustomerDao.ApproveCustomer | billingServices/src/main/java/Utils/CustomerDAO.java:168-170 | sets status `approved` and nothing else, true exactly when the row exists; a statement the server refuses raises its SQL error and changes nothing |
| CustomerDao.RejectCustomer | billingServices/src/main/java/Utils/CustomerDAO.java:179-181 | sets status `rejected` and nothing else, true exactly when the row exists; a statement the server refuses raises its SQL error and changes nothing |
| CustomerDao.AuthenticateCustomer | billingServices/src/main/java/Utils/CustomerDAO.java:280-307 | null exactly when no stored customer has that name and email and status `approved`; otherwise such a stored customer |
| CustomerDao.LoginNeedsApproval | billingServices/src/main/java/Utils/CustomerDAO.java:282 | a customer who is not approved never logs in; an approved one logs in exactly with their own name and email |
| CustomerDao.BuildCustomerQuery | billingServices/src/main/java/Utils/CustomerDAO.java:208-249 | the StringBuilder loop builds exactly the query of the seven-key builder |
| CustomerDao.CustomerQueryMeaning | billingServices/src/main/java/Utils/CustomerDAO.java:211-249 | the build never fails, placeholders equal parameters, and a row matches exactly when the name contains the given text and gender, nic, email, phone, account number and status equal the given values |
| CustomerDao.SearchCustomers | billingServices/src/main/java/Utils/CustomerDAO.java:208-270 | exactly the stored customers the criteria ask for |
| CashierDao.GetCashierById | billingServices/src/main/java/Utils/CashierDAO.java:48-72 | the stored cashier with that id, or null exactly when there is none |
| CashierDao.RegisterCashier | billingServices/src/main/java/Utils/CashierDAO.java:74-93 | a null date of birth raises with nothing stored; otherwise the cashier is stored under the next id with status `pending`, and the result is that id or -1; a refused insert raises its SQL error and stores nothing, though it still uses up the id |
| CashierDao.UpdateCashier | billingServices/src/main/java/Utils/CashierDAO.java:95-109 | true exactly when the row exists, which then takes the seven personal fields from the request and keeps its status; a statement the server refuses raises its SQL error and changes nothing |
| CashierDao.DeleteCashier | billingServices/src/main/java/Utils/CashierDAO.java:111-118 | true exactly when the row existed; afterwards it is gone; a statement the server refuses raises its SQL error and changes nothing |
| CashierDao.UpdateStatus | billingServices/src/main/java/Utils/CashierDAO.java:128-136 | true exactly when the row exists, whose status alone then changes; a statement the server refuses raises its SQL error and changes nothing |
| CashierDao.ApproveCashier | billingServices/src/main/java/Utils/CashierDAO.java:120-122 | sets status `approved` and nothing else; a statement the server refuses raises its SQL error and changes nothing |
| CashierDao.RejectCashier | billingServices/src/main/java/Utils/CashierDAO.java:124-126 | sets status `rejected` and nothing else; a statement the server refuses raises its SQL error and changes nothing |
| CashierDao.AuthenticateCashier | billingServices/src/main/java/Utils/CashierDAO.java:194-219 | null exactly when no stored cashier has that name and email and status `approved`; otherwise such a stored cashier |
| CashierDao.LoginNeedsApproval | billingServices/src/main/java/Utils/CashierDAO.java:195 | a cashier who is not approved never logs in; an approved one logs in exactly with their own name and email |
| CashierDao.BuildCashierQuery | billingServices/src/main/java/Utils/CashierDAO.java:138-172 | the StringBuilder loop builds exactly the query of the six-key builder, which has no account number |
| CashierDao.CashierQueryMeaning | billingServices/src/main/java/Utils/CashierDAO.java:140-172 | the build never fails, placeholders equal parameters, and a row matches exactly when the name contains the given text and gender, nic, email, phone and status equal the given values |
| CashierDao.SearchCashiers | billingServices/src/main/java/Utils/CashierDAO.java:138-192 | exactly the stored cashiers the criteria ask for |
| ItemResource.GetItemResponse | billingServices/src/main/java/com/mycompany/billingservices/resources/ItemResource.java:65-81 | null gives 404 naming the id, an item 200, an SQL exception 500 |
| ItemResource.AddRejectedBeforeDao | billingServices/src/main/java/com/mycompany/billingservices/resources/ItemResource.java:96-105 | a null or empty name, then a negative price or stock, gives 400 with that check's message, whatever the DAO would do |
| ItemResource.AddAcceptedMapping | billingServices/src/main/java/com/mycompany/billingservices/resources/ItemResource.java:106-125 | an acceptable item gives 201 with the id, 500 for -1, 409 for a duplicate entry, 500 for any other SQL error |
| ItemResource.AddItemResponse | billingServices/src/main/java/com/mycompany/billingservices/resources/ItemResource.java:93-126 | 201 exactly for an acceptable item (a name, no negative price or stock) and a DAO id other than -1; an unacceptable item always gets 400 |
| ItemResource.UpdateRejectedBeforeDao | billingServices/src/main/java/com/mycompany/billingservices/resources/ItemResource.java:142-151 | an item failing the same checks gives 400, whatever the DAO would do |
| ItemResource.UpdateIgnoresBodyId | billingServices/src/main/java/com/mycompany/billingservices/resources/ItemResource.java:141 | the id in the request body never matters; the path id is forced onto it |
| ItemResource.UpdateAcceptedMapping | billingServices/src/main/java/com/mycompany/billingservices/resources/ItemResource.java:152-169 | an acceptable item is updated under the path id: 200 when matched, 404 when not, 409/500 for SQL errors |
| ItemResource.UpdateItemResponse | billingServices/src/main/java/com/mycompany/billingservices/resources/ItemResource.java:139-170 | 200 exactly for an acceptable item whose update under the path id matched a row; an unacceptable item always gets 400 |
| ItemResource.DeleteItemResponse | billingServices/src/main/java/com/mycompany/billingservices/resources/ItemResource.java:181-196 | true gives 200, false 404 naming the id, an SQL exception 500 |
| ItemResource.SearchCriteria | billingServices/src/main/java/com/mycompany/billingservices/resources/ItemResource.java:217-222 | the map holds name and description exactly when non-empty, and the three numbers exactly when present, under `category_id`, `stock_min`, `stock_max` |
| ItemResource.SearchCriteriaMeaning | billingServices/src/main/java/com/mycompany/billingservices/resources/ItemResource.java:211-232 | the criteria built from the request select exactly the items matching the request's parameters |
| ItemResource.Search | billingServices/src/main/java/com/mycompany/billingservices/resources/ItemResource.java:211-232 | over the inline DAO: an unparsable category id escapes as NumberFormatException before the SELECT is sent; otherwise 500 "Database error" when the server refuses the SELECT, and 200 with exactly the stored items matching the request when it runs it |
| CategoryResource.GetCategoryResponse | billingServices/src/main/java/com/mycompany/billingservices/resources/CategoryResource.java:66-83 | null gives 404 naming the id, a category 200, an SQL exception 500 |
| CategoryResource.AddRejectedBeforeDao | billingServices/src/main/java/com/mycompany/billingservices/resources/CategoryResource.java:98-102 | a null or empty name gives 400 whatever the DAO would do |
| CategoryResource.AddAcceptedMapping | billingServices/src/main/java/com/mycompany/billingservices/resources/CategoryResource.java:103-125 | a named category gives 201 with the id, 500 for -1, 409 for a duplicate entry, 500 for any other SQL error |
| CategoryResource.AddCategoryResponse | billingServices/src/main/java/com/mycompany/billingservices/resources/CategoryResource.java:95-125 | 201 exactly for a named category and a DAO id other than -1; an empty or null name always gets 400 |
| CategoryResource.UpdateMapping | billingServices/src/main/java/com/mycompany/billingservices/resources/CategoryResource.java:138-168 | the body id is ignored; an empty name gives 400; otherwise 200 when matched, 404 when not, 409/500 for SQL errors |
| CategoryResource.UpdateCategoryResponse | billingServices/src/main/java/com/mycompany/billingservices/resources/CategoryResource.java:138-168 | 200 exactly for a named category whose update under the path id matched a row; an empty or null name always gets 400 |
| CategoryResource.DeleteCategoryResponse | billingServices/src/main/java/com/mycompany/billingservices/resources/CategoryResource.java:179-195 | true gives 200, false 404 naming the id, an SQL exception 500 |
| CategoryResource.SearchCriteria | billingServices/src/main/java/com/mycompany/billingservices/resources/CategoryResource.java:210-212 | the map holds name and description exactly when non-empty |
| CategoryResource.Search | billingServices/src/main/java/com/mycompany/billingservices/resources/CategoryResource.java:207-223 | over the inline DAO: 500 "Database error" when the server refuses the SELECT; otherwise 200 with exactly the stored categories whose name and description contain the non-empty parameters |
| CustomerResource.GetCustomerResponse | billingServices/src/main/java/com/mycompany/billingservices/resources/CustomerResource.java:65-81 | null gives 404 naming the id, a customer 200, an SQL exception 500 |
| CustomerResource.RegisterRejectedBeforeDao | billingServices/src/main/java/com/mycompany/billingservices/resources/CustomerResource.java:96-101 | a null name, gender, date of birth, address, nic or email gives 400 whatever the DAO would do |
| CustomerResource.RegisterAcceptedMapping | billingServices/src/main/java/com/mycompany/billingservices/resources/CustomerResource.java:102-115 | otherwise 201 with whatever id the DAO returns, -1 included; 409 for a duplicate entry and 500 for any other SQL error |
| CustomerResource.RegisterCustomerResponse | billingServices/src/main/java/com/mycompany/billingservices/resources/CustomerResource.java:93-116 | 201 exactly when every required field is present and the DAO returned, whatever the id; a missing field always gets 400 |
| CustomerResource.NullDobRejected | billingServices/src/main/java/com/mycompany/billingservices/resources/CustomerResource.java:96-101 | a null date of birth never reaches the DAO on register or update |
| CustomerResource.UpdateRejectedBeforeDao | billingServices/src/main/java/com/mycompany/billingservices/resources/CustomerResource.java:183-188 | update applies the same required-field check before the DAO |
| CustomerResource.UpdateIgnoresBodyId | billingServices/src/main/java/com/mycompany/billingservices/resources/CustomerResource.java:183 | the id in the request body never matters; the path id is forced onto it |
| CustomerResource.UpdateAcceptedMapping | billingServices/src/main/java/com/mycompany/billingservices/resources/CustomerResource.java:189-209 | 200 when matched, 404 when not, 409/500 for SQL errors |
| CustomerResource.UpdateCustomerResponse | billingServices/src/main/java/com/mycompany/billingservices/resources/CustomerResource.java:181-209 | 200 exactly when every required field is present and the update under the path id matched a row; a missing field always gets 400 |
| CustomerResource.ApproveCustomerResponse | billingServices/src/main/java/com/mycompany/billingservices/resources/CustomerResource.java:127-142 | true gives 200 "approved", false 404, an SQL exception 500 |
| CustomerResource.RejectCustomerResponse | billingServices/src/main/java/com/mycompany/billingservices/resources/CustomerResource.java:153-168 | true gives 200 "rejected", false 404, an SQL exception 500 |
| CustomerResource.DeleteCustomerResponse | billingServices/src/main/java/com/mycompany/billingservices/resources/CustomerResource.java:220-235 | true gives 200, false 404, an SQL exception 500 |
| CustomerResource.LoginMapping | billingServices/src/main/java/com/mycompany/billingservices/resources/CustomerResource.java:291-311 | no match gives 401, a match that is not approved 403, an approved match 200 with the customer, an SQL exception 500 |
| CustomerResource.LoginResponse | billingServices/src/main/java/com/mycompany/billingservices/resources/CustomerResource.java:291-311 | 200 with the customer exactly for an approved match, 401 exactly when nobody matched, 403 with "Only approved customers can log in" exactly for a match that is not approved |
| CustomerResource.SearchCriteria | billingServices/src/main/java/com/mycompany/billingservices/resources/CustomerResource.java:262-269 | each of the seven keys is stored exactly when its parameter is non-empty, the account number under `accountNumber` |
| CustomerResource.SearchCriteriaMeaning | billingServices/src/main/java/com/mycompany/billingservices/resources/CustomerResource.java:253-279 | those criteria select exactly the customers matching the request's parameters |
| CustomerResource.Search | billingServices/src/main/java/com/mycompany/billingservices/resources/CustomerResource.java:253-279 | over the inline DAO: 500 "Database error" when the server refuses the SELECT; otherwise 200 with exactly the stored customers matching the request |
| CustomerResource.Login | billingServices/src/main/java/com/mycompany/billingservices/resources/CustomerResource.java:291-311 | over the inline DAO: 500 "Database error" when the server refuses the SELECT; otherwise 401 exactly when no approved customer has that name and email, and 200 with such a stored customer. With exact string comparison, never 403 |
| CashierResource.Get | billingServices/src/main/java/com/mycompany/billingservices/resources/CashierResource.java:45-60 | 500 "Database error" when the server refuses the SELECT; otherwise 200 with the stored cashier, or 404 naming the id |
| CashierResource.Register | billingServices/src/main/java/com/mycompany/billingservices/resources/CashierResource.java:65-82 | a missing required field gives 400 with the store unchanged. Otherwise the cashier counter advances by one: a refused insert gives 500 "Database error: " + message with no cashier stored; else 201 with the DAO's id (-1 when no key was returned) and the cashier stored as pending |
| CashierResource.RegisterMapping | billingServices/src/main/java/com/mycompany/billingservices/resources/CashierResource.java:65-82 | the required-field check runs before the DAO; every SQL exception gives 500, with no 409 case |
| CashierResource.RegisterCashierResponse | billingServices/src/main/java/com/mycompany/billingservices/resources/CashierResource.java:65-82 | 201 exactly when every required field is present and the DAO returned, whatever the id; a missing field gives 400; an SQL error from the DAO gives 500, with no 409 case |
| CashierResource.Update | billingServices/src/main/java/com/mycompany/billingservices/resources/CashierResource.java:126-141 | no field check: a null date of birth escapes as NullPointerException; otherwise 200 and the row updated under the path id when it exists, 404 with the store unchanged when it does not; an update the server refuses gives 500 "Database error: " + message with nothing changed |
| CashierResource.UpdateCashierResponse | billingServices/src/main/java/com/mycompany/billingservices/resources/CashierResource.java:128-140 | true gives 200, false 404, an SQL exception 500 |
| CashierResource.Approve | billingServices/src/main/java/com/mycompany/billingservices/resources/CashierResource.java:87-101 | 200 and status `approved` when the cashier exists, 404 with nothing changed when not; an update the server refuses gives 500 "Database error: " + message with nothing changed |
| CashierResource.Reject | billingServices/src/main/java/com/mycompany/billingservices/resources/CashierResource.java:106-120 | 200 and status `rejected` when the cashier exists, 404 with nothing changed when not; an update the server refuses gives 500 "Database error: " + message with nothing changed |
| CashierResource.Delete | billingServices/src/main/java/com/mycompany/billingservices/resources/CashierResource.java:146-160 | the cashier is gone afterwards; 200 when it existed, 404 when not; a delete the server refuses gives 500 "Database error: " + message with the cashier kept |
| CashierResource.SearchCriteria | billingServices/src/main/java/com/mycompany/billingservices/resources/CashierResource.java:176-181 | each of the six keys is stored exactly when its parameter is non-empty; there is no account-number key |
| CashierResource.SearchCriteriaMeaning | billingServices/src/main/java/com/mycompany/billingservices/resources/CashierResource.java:165-189 | those criteria select exactly the cashiers matching the request's parameters |
| CashierResource.Search | billingServices/src/main/java/com/mycompany/billingservices/resources/CashierResource.java:165-189 | 500 "Database error" when the server refuses the SELECT; otherwise 200 with exactly the stored cashiers matching the request; the computed role plays no part |
| CashierResource.LoginMapping | billingServices/src/main/java/com/mycompany/billingservices/resources/CashierResource.java:195-214 | no match gives 401, a match that is not approved 403, an approved match 200, an SQL exception 500 |
| CashierResource.LoginResponse | billingServices/src/main/java/com/mycompany/billingservices/resources/CashierResource.java:195-214 | 200 with the cashier exactly for an approved match, 401 exactly when nobody matched, 403 with "Only approved cashiers can log in" exactly for a match that is not approved |
| CashierResource.Login | billingServices/src/main/java/com/mycompany/billingservices/resources/CashierResource.java:195-214 | 500 "Database error" when the server refuses the SELECT; otherwise 401 exactly when no approved cashier has that name and email, and 200 with such a stored cashier. With exact string comparison, through the wired DAO 403 never happens |

## Left out

- `getBillingStatistics` and `getMonthlyBillDetails`, in both `BillingDAO`s and in `BillingResource`: they rest on SQL date arithmetic and floating-point `SUM` aggregation.
- The stored procedures behind `DAO/BillingDAO`, `DAO/ItemDAO`, `DAO/CategoryDAO`, `DAO/CustomerDAO` and `DAO/CashierDAO`, including `getCustomerEmail` and `getBillContentForSending`: their `sp_*` bodies are not part of this model. A resource wired to one of them takes the DAO's outcome as an input.
- `Utils/DatabaseUtil.java`: driver loading, configuration and connections are I/O. The store is the in-memory `Store.Database`.
- The `getAll*` operations of every DAO and resource: they are a plain read of a whole table, the same as a search with null criteria (`Query.NoCriteria`).
- The `getBillsByCustomerId` and `stock-counts` endpoints of the resources: they reply 200 with the DAO's value or 500 on an SQL exception, which is `Http.Listed`.
- Concurrency: the `FOR UPDATE` lock and the race between two callers counting the same day's bill numbers. One transaction runs at a time.
- Floating point: prices, subtotals and totals are integer cents, so the exact `double` comparison of the subtotal check becomes an exact integer comparison. The two disagree: the subtotal check in `DAO/BillingDAO.java` compares with `!=` on doubles, so Java rejects a line of 3 at 0.10 with subtotal 0.30 (3 × 0.10 is 0.30000000000000004), while `BillValidation.SubtotalMatches` accepts it (3 × 10 = 30 cents).
- MySQL specifics: collation and case-insensitivity of `LIKE` and of `=`, `%` and `_` inside search values, and affected-row counts. Every string comparison is exact, as under a binary collation; under MySQL's default case-insensitive collation "JOHN" would match a stored "john" in a login or an equality search. `LIKE '%v%'` is substring containment, and a row is affected when a row with that id exists.
- JSON-B and Gson serialisation, `Response` and `UriBuilder` construction and `printStackTrace`: responses are a status and a body value.
- Timestamps (`NOW()`, `created_at`, `updated_at`) and the clock: the bill date is the parameter `today`, and no timestamp column is stored.
- The 32-bit width of Java `int` ids, quantities and counters: integers are unbounded. Only `Integer.parseInt`'s range is modelled (`Common.ParseInt`).
- Which of several rows matching a login comes first is the database's choice. `AuthenticateCustomer` and `AuthenticateCashier` may return any one of them.
- CashierResource.Login: 403 is unreachable only under exact string comparison. Under a case-insensitive collation a stored status "Approved" passes the query's `status = 'approved'` but fails the resource's `"approved".equals(...)`, and the endpoint answers 403.
- CustomerResource.Login: likewise, 403 is unreachable only under exact string comparison; a stored status "Approved" would answer 403.
- BillingDao.CollectBillItems: its SELECT has no `ORDER BY`, so the order of the rows is the server's choice. The model assumes primary-key order, which is insertion order here.
- BillingDao.GetBillsByCustomerId: likewise, the headers are assumed to come back in primary-key order.
- BillingDao.CreatedBillReadsBack: "in input order" rests on the same primary-key order assumption for the bill-item rows.
- A null request body or a null `LoginRequest`: every resource method that takes a body dereferences it before any check and throws NullPointerException. The model's requests are values and are never null.
- The order of search results: `SELECT` without `ORDER BY` has no defined order, so the searches state which rows come back and how many, not in what order.
- The model classes (`Model/*.java`, `Utils/Cashier.java`) are used only as datatype shapes. The six-argument `BillItem` constructor, which always throws, is not modelled.
- A null element in a bill's item list: `createBill`'s loop and the subtotal check dereference it and throw NullPointerException. The model's lines are values and are never null.
- An SQLException whose message is null: `"Database error: " + null` reads "Database error: null". `SqlException` always carries a string.
- `BillingDao.CreateBill`: only the header insert may be refused. The stock updates and bill-item inserts inside the loop always run, and a refusal there is not modelled.
- A statement that fails before the server allocates an id (a lost connection, a statement the server cannot parse) is not told apart from a refused insert: the model always counts the id as used.
