# CRM write side, modelled in Dafny

This project models the mutations of a small CRM GraphQL API. The API keeps
customers, products and orders. The model covers:

- creating a customer, with email uniqueness and phone-format checks;
- creating customers in bulk, with per-item success or error;
- creating a product, with price and stock checks;
- creating an order, which selects existing products and sums their prices;
- the low-stock maintenance mutation, which tops up every product holding fewer than 10 units.

The store is a class `Crm.Store`. It holds one sequence per table, in insertion
order, and one counter per table that hands out the next primary key (starting
at 1, like an auto-increment key). The mutations are methods that change these
fields. Their postconditions give the new state and the result in terms of pure
functions. The properties are proved about those functions as lemmas:

- `Validation`: the input checks.
- `Phone`: the phone pattern.
- `Bulk`: the bulk loop as a function.
- `Orders`: product selection and totals.
- `LowStock`: the restock and its report.

Record shapes follow the fields the API exposes for each model, because the
model definitions themselves are not part of this model:

- Customer: id, name, email, phone, created_at.
- Product: id, name, price, stock.
- Order: id, customer, products, total_amount, order_date.

Modelling choices:
- Prices and totals are whole numbers of cents, not floats.
- Time is an integer `Timestamp`. "Now" is an explicit parameter: of `CreateOrder` for the default order date, and of the customer mutations for `created_at`. We assume `created_at` is set on insertion. The model reads the clock once per mutation, so all customers of one bulk batch share one `created_at`, where the source's timestamps, taken at each save, can differ.
- A phone is `Option<string>`. `None` and `""` both skip the format check, because the source tests the phone's truthiness. The stored phone is exactly what was supplied.
- The stock argument of product creation is `Option<int>` and defaults to 0.
- Ids in requests are natural numbers.
- The `\d` of the phone pattern is an ASCII digit. `$` is read as the end of the string.

The model follows the code on these points:
- Email format is not validated, and a customer name may be empty: the code checks neither.
- Bulk creation has partial success. Successful items stay stored next to the error strings of failed ones. The code catches each item's failure inside the loop, so the atomic wrapper rolls nothing back as long as no database error occurs (see Left out).
- An order has no status field. `OrderType` exposes none.
- "Stock is never negative" is not an invariant of the store. Product creation refuses a negative stock, but nothing else in the code enforces it. The restock properties that need it take it as a hypothesis.

## Model

| member | source | states |
|---|---|---|
| `Text.DigitRun` | crm/schema.py:85 | the greedy digit run from a position: every character in it is a digit, and it stops at the end or at a non-digit |
| `Phone.PhonePatternExact` | crm/schema.py:85 | the left-to-right match of the anchored two-alternative phone pattern accepts exactly `+` followed by 9 to 15 digits, or `DDD-DDD-DDDD` |
| `Phone.PhoneAcceptedExact` | crm/schema.py:85 | a phone passes exactly when it is absent, empty, or of one of the two formats |
| `Phone.DashedPhoneAccepted` | crm/schema.py:85 | `123-456-7890` is accepted |
| `Phone.InternationalPhoneAccepted` | crm/schema.py:85 | `+` with 9 digits and `+` with 15 digits are accepted |
| `Phone.PhoneRejectedExamples` | crm/schema.py:85 | `12345`, `+` with 8 or 16 digits, and a misplaced dash are refused |
| `Phone.MatchesPhonePattern` | crm/schema.py:85 | the anchored pattern as a match of either alternative; what it accepts is stated by `Phone.PhonePatternExact` |
| `Phone.PhoneAccepted` | crm/schema.py:85 | the phone check of both customer mutations: absent, empty, or matching; `Phone.PhoneAcceptedExact` gives its meaning |
| `Validation.EmailTaken` | crm/schema.py:81 | some stored customer has exactly this email; the checks and the bulk lemmas state its consequences |
| `Validation.CheckCustomer` | crm/schema.py:80-86 | customer creation fails exactly when the email is taken or the phone is of neither format; a taken email reports "Email already exists." whatever the phone; only then is the phone's "Invalid phone number format." reported |
| `Validation.CheckProduct` | crm/schema.py:139-142 | product creation fails exactly when price <= 0 or stock < 0; a non-positive price is reported first |
| `Crm.Store.CreateCustomer` | crm/schema.py:79-89 | on a failed check: the check's message, store unchanged; otherwise one customer with the given name, email and phone and a fresh key is appended, nothing else changes, and the result carries it with "Customer created successfully."; distinct emails stay distinct |
| `Bulk.DuplicateEmailError` | crm/schema.py:114 | the error string has the email between a 6-character prefix and a 16-character suffix, so the email reads back from it |
| `Bulk.InvalidPhoneError` | crm/schema.py:117 | the error string has the item's name between a 25-character prefix and a 1-character suffix |
| `Bulk.Step` | crm/schema.py:112-122 | one iteration puts its item in exactly one of the two lists, and creates it exactly when the email is not stored yet and the phone passes |
| `Bulk.Run` | crm/schema.py:111-124 | the loop as a fold over the items: the two lists together grow by exactly the number of items |
| `Bulk.RunCreatesFreshItem` | crm/schema.py:111-122 | an item whose email is in neither the original table nor the earlier created customers, and whose phone passes, is created with the next key and adds no error |
| `Crm.Store.BulkCreateCustomers` | crm/schema.py:107-126 | the loop computes `Bulk.Run` on the old table: the new table is the old one plus the created customers, and created plus errors count the input items |
| `Bulk.RunAccounting` | crm/schema.py:108-126 | every item ends in exactly one of the two lists; the table grows by exactly the created customers, which take consecutive keys starting at the counter, and the counter advances by their number |
| `Bulk.RunKeepsIdsOk` | crm/schema.py:120-121 | customer keys stay pairwise distinct and below the next key |
| `Bulk.RunKeepsEmailsDistinct` | crm/schema.py:113-122 | if stored emails are pairwise distinct before the batch, they are after it |
| `Bulk.RunCreatedFromItems` | crm/schema.py:111-122 | each created customer carries the name, email and phone of an input item whose phone passed, and an email the original table did not hold |
| `Bulk.RunRejectsRepeatedEmail` | crm/schema.py:113-115 | an item repeating the email of a customer created earlier in the batch adds "Email … already exists." and changes nothing else |
| `Bulk.OneValidOneDuplicate` | crm/schema.py:111-126 | a valid item followed by one with the same email gives exactly one customer and one error naming the email |
| `Validation.StockOrDefault` | crm/schema.py:134 | the stock argument, or 0 when it is not supplied (no contract of its own; `Crm.Store.CreateProduct` states the default) |
| `Crm.Store.CreateProduct` | crm/schema.py:138-145 | on a failed check: its message, table unchanged; otherwise one product with the given values (stock 0 if omitted) and a fresh key is appended, with price > 0 and stock >= 0 |
| `Orders.Selected` | crm/schema.py:163 | the selected products are exactly the stored products whose id is requested, and there are at most as many as stored products |
| `Orders.SelectedIgnoresOrderAndRepeats` | crm/schema.py:163 | the selection depends only on the set of requested ids, so repeated ids collapse |
| `Orders.SelectedDistinct` | crm/schema.py:163 | over a table with distinct keys, each product is selected at most once |
| `Orders.SelectedIds` | crm/schema.py:171 | the order's product links are the requested ids that name stored products |
| `Orders.Total` | crm/schema.py:167 | the price sum of the selection; with positive prices it is at least the number of products, so a non-empty selection has a positive total |
| `Orders.TotalExample` | crm/schema.py:167 | prices 10.00 and 5.50 give a total of 15.50 |
| `Crm.Store.CreateOrder` | crm/schema.py:157-174 | an unknown customer gives "Invalid customer ID."; no stored product among the ids (including no ids) gives "No valid products found for provided IDs."; in both cases no order is stored. Otherwise one order is appended with the customer, the selected product ids, the sum of their prices, and the given date or else `now` |
| `Crm.Store.SaveProduct` | alx_backend_graphql/schema.py:25 | writing back a product under its own key replaces it in place and keeps the store consistent |
| `LowStock.RestockOne` | alx_backend_graphql/schema.py:20-24 | only the stock can change; a stock below 10 becomes that stock plus 10 and any other stays, so it changes exactly when the product is below 10; a product whose stock was not negative holds at least 10 units afterwards |
| `LowStock.RestockAll` | alx_backend_graphql/schema.py:20-25 | the product table after the restock has the same length as before; `LowStock.RestockAllAt` gives it position by position |
| `LowStock.UpdatedProducts` | alx_backend_graphql/schema.py:20-26 | the reported products are no more than the stored ones; `LowStock.UpdatedProductsExactlyLow` and `LowStock.UpdatedInStoreOrder` say which, and in what order |
| `LowStock.RestockAllAt` | alx_backend_graphql/schema.py:20-25 | position by position, the table after the restock holds each product topped up if it was low and unchanged otherwise |
| `LowStock.RestockChangesOnlyLowStock` | alx_backend_graphql/schema.py:20-25 | the table keeps its length; a product below 10 gains 10 units, others keep their stock; no id, name or price changes |
| `LowStock.LowPositions` | alx_backend_graphql/schema.py:20 | the positions of the products below 10, strictly increasing, and every such position |
| `LowStock.UpdatedInStoreOrder` | alx_backend_graphql/schema.py:20-26 | the report lists the restocked product at each low position, in store order, and nothing else |
| `LowStock.UpdatedProductsExactlyLow` | alx_backend_graphql/schema.py:20-26 | a product is reported exactly when some stored product was below 10 and this is it with 10 more units |
| `LowStock.CountMessage` | alx_backend_graphql/schema.py:28 | the number at the head of the success message reads back as the count it was built from |
| `Text.DecimalRoundTrip` | alx_backend_graphql/schema.py:28 | reading a rendered count back gives the count |
| `LowStock.RestockKeepsStocksNonNegative` | alx_backend_graphql/schema.py:20-24 | with no negative stock before, none after, and every reported product holds at least 10 |
| `LowStock.SecondRestockChangesNothing` | alx_backend_graphql/schema.py:20-28 | with no negative stock before, a second restock right after the first reports nothing and changes nothing |
| `LowStock.RestockExample` | alx_backend_graphql/schema.py:20-26 | stocks 3, 12, 9 become 13, 12, 19, and the first and third products are reported |
| `LowStock.UpdateLowStockProducts` | alx_backend_graphql/schema.py:19-29 | the loop leaves the product table as `RestockAll` of the old one, returns `UpdatedProducts` of it, reports their count in the message, and keeps the store consistent |

## Left out

- Query resolvers and their `order_by` argument, the `hello` field, and the GraphQL/ORM type declarations and schema wiring: they are framework plumbing with no logic of their own.
- The scheduled jobs (heartbeat, low-stock job, order reminders, report): they only make HTTP calls to the API, read the clock and append lines to log files.
- Database transactions and database failures: database errors and any database-level unique constraint are not visible in the code. If `customer.save()` raised inside the atomic bulk mutation, the database would roll back the whole batch, including customers already reported as created; the model has no database errors, so it never does this.
- A null entry in the bulk input list: the list argument cannot be null but its entries can, and reading the email of a null entry raises, which the `except Exception` branch turns into an error string. The model's items are never null, so it does not model this path; nothing is stored for such an entry, so the bulk accounting properties still hold for it.
- Python regex corner cases: `\d` also matches non-ASCII digits, and `$` also matches before a trailing newline. The model reads both in the ASCII, end-of-string sense.
- Floating-point prices and their float sum: prices are whole cents.
- Ids that are not numbers: the model takes ids as naturals, so the error a malformed id would raise is not modelled.
- Validation.StockOrDefault: an explicit `null` stock argument is not modelled. In the source the check `stock < 0` then raises, so product creation fails; the model treats it like an omitted stock and stores the product with stock 0.
- Concurrency between writers (the restock job against manual edits, simultaneous customer creation): the model is sequential.
