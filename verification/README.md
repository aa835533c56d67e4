# ims back office, modelled in Dafny

This project models the server-side core of **ims**, a multi-tenant inventory-management web
app. Each business that signs up is a *group*. The group's users manage its categories,
products, customers and orders. The model covers:

- the form schemas and `validate` functions of every action (trimming, lower-casing, minimum
  lengths, e-mail shape, required numbers, and the flattened `fieldErrors` with the source's
  messages);
- the duplicate lookups those validators run against the tables, per group or across groups;
- every write action as a pure transition of a `Store`, a datatype holding one sequence of rows
  per table (groups, users, categories, products, customers, customer_address, orders,
  order_details, order_tracking, payments);
- the arithmetic helpers: the order net amount, the sales-report folds, and the dashboard
  revenue loop;
- the role filter of the dashboard side bar.

A SQL `WHERE` clause is a predicate on a row. `UPDATE` is `Seqs.UpdateWhere`, `DELETE` is
`Seqs.Filter` with the negated predicate, and `const [row] = await sql…` is `Seqs.First`.
Each action states what it writes and, through a frame `r.(t := s.t) == s`, that no other table
changes. A generated UUID, the clock and argon2 are parameters of the action: an id, a date,
and a `hash`/`verify` function. An exception caught by an action's `try` is modelled as the
writes made before the throwing statement and none after.

Files: `wrappers.dfy` (Option), `seqs.dfy` (table helpers and their lemmas), `text.dfy` (trim,
ASCII lower-case, e-mail shape), `forms.dfy` (zod's checks and flattened errors), `schema.dfy`
(rows and store), then one module per source file.

Behaviour the model follows as written:
- `OrderTracking.UpdateOrderTracking` has no forward-only guard and no pairing of status and column.
- `OrderCreate.CreateOrder` stores the submitted total without recomputing it. The
  `calculateNetAmount` helper is only used by the page.
- Several statements are not group-scoped:
  - the line-item delete;
  - the payments update;
  - the order's address lookup;
  - the customer-address update and delete.
- Sign-up keeps the business name's case while login lower-cases it, so a business name with a
  capital letter can never log in (`Login.CapitalisedSignUpLocksOut`).
- The product description check is `.min(3)`, although its message says 10 characters
  (`ProductCreate.ShortDescriptionPasses`).
- The sales-report profit subtracts one selling price per row, whatever the quantity.

## Model

| member | source | states |
|---|---|---|
| NetAmount.CalculateNetAmount | app/routes/_dashboard.dashboard_.orders_.create/utils.ts:1-19 | an absent or zero discount leaves the sub-total whole, and an absent or zero delivery charge adds nothing |
| NetAmount.DiscountTakesItsShare | app/routes/_dashboard.dashboard_.orders_.create/utils.ts:16 | a discount of d percent takes exactly d% of the sub-total off the undiscounted amount |
| NetAmount.FullDiscountLeavesDelivery | app/routes/_dashboard.dashboard_.orders_.create/utils.ts:16 | a 100% discount leaves exactly the delivery charge |
| NetAmount.DeliveryIsAdditive | app/routes/_dashboard.dashboard_.orders_.create/utils.ts:12-16 | raising the delivery charge by d raises the total by exactly d, also from or to a falsy zero |
| NetAmount.TotalIsBounded | app/routes/_dashboard.dashboard_.orders_.create/utils.ts:16 | with sub-total ≥ 0 and discount in [0, 100], delivery ≤ total ≤ sub-total + delivery |
| SalesReport.CalculateGrandTotal | app/routes/_dashboard.dashboard_.sales-report/utils.ts:3-15 | undefined in, undefined out; otherwise the loop's result is the sum of every row's total |
| SalesReport.CalculateProfit | app/routes/_dashboard.dashboard_.sales-report/utils.ts:17-30 | undefined in, undefined out; otherwise the loop's result is the sum over rows of purchase × quantity − selling |
| SalesReport.EmptyReportIsZero | app/routes/_dashboard.dashboard_.sales-report/utils.ts:8-14 | an empty report gives 0 on both folds |
| SalesReport.GrandTotalOfConcatenation | app/routes/_dashboard.dashboard_.sales-report/utils.ts:10-12 | the grand total of two reports together is the sum of their grand totals |
| SalesReport.ProfitIgnoresQuantityOnSellingSide | app/routes/_dashboard.dashboard_.sales-report/utils.ts:24-26 | a row's selling price is charged once, not per unit (2 units at 10/15 give profit 5) |
| SalesReport.FoldsIgnoreRowOrder | app/routes/_dashboard.dashboard_.sales-report/utils.ts:10-27 | any permutation of the rows gives the same grand total and profit |
| Dashboard.GetTotalRevenue | app/lib/data/dashboard.ts:3-18 | the summing loop returns the sum of totals over exactly the group's orders |
| Dashboard.NoOrdersNoRevenue | app/lib/data/dashboard.ts:5-14 | a group without orders has revenue 0 |
| Dashboard.AddingAnOrder | app/lib/data/dashboard.ts:6-12 | a new order of the group adds its total; one of another group adds nothing |
| Dashboard.OtherGroupsContributeNothing | app/lib/data/dashboard.ts:6 | orders of other groups, before or after, never change a group's revenue |
| OrderCreate.SchemaErrors | app/lib/actions/orders/create.ts:4-41 | no errors exactly when every product name is non-blank, every quantity and price and the sub-total and total are filled, and the customer is non-blank; product errors come first; a blank customer reports "select a customer" |
| OrderCreate.Parse | app/lib/actions/orders/create.ts:4-41 | product names are trimmed, lower-cased and non-empty, numbers read element by element, the customer id trimmed |
| OrderCreate.Validate | app/lib/actions/orders/create.ts:43-53 | valid exactly when the schema passes, with the parsed form; otherwise the schema's errors, at least one and none empty |
| OrderCreate.LineItems | app/lib/actions/orders/create.ts:86-101 | row i is (order id, product[i], quantity[i], price[i]), for as many rows as the shortest array allows |
| OrderCreate.CreateOrder | app/lib/actions/orders/create.ts:55-118 | no address for the customer: nothing written; otherwise one order row with the caller's group, that address and 0 for absent charges, the line items, and one tracking row only when the item loop completes; other tables unchanged |
| OrderCreate.CompleteOrderWritesOneItemPerProduct | app/lib/actions/orders/create.ts:64-114 | with every quantity and price present: one order, exactly one line item per product, one tracking row |
| OrderCreate.ForeignCustomerIsAccepted | app/lib/actions/orders/create.ts:59-61 | the address lookup ignores groups: another group's customer gets an order filed under the caller's group |
| OrderCreate.MismatchedArraysPassValidation | app/lib/actions/orders/create.ts:5-23 | fewer quantities than products passes validation and leaves the order incomplete |
| OrderTracking.Advance | app/lib/actions/orders/update-tracking.ts:13-15 | a targeted row gets the status and the one named timestamp; other timestamps and the ids stay |
| OrderTracking.UpdateOrderTracking | app/lib/actions/orders/update-tracking.ts:3-21 | every row of the order in the caller's group is advanced, every other row kept, no other table changes |
| OrderTracking.UpdateTrackingIdempotent | app/lib/actions/orders/update-tracking.ts:12-16 | repeating the update with the same date changes nothing more |
| OrderTracking.UpdateWithoutTargetChangesNothing | app/lib/actions/orders/update-tracking.ts:16 | with no matching (order, group) row the store is unchanged |
| OrderTracking.LaterStatusWinsAndStampsAccumulate | app/lib/actions/orders/update-tracking.ts:12-16 | two updates on different columns keep both timestamps and the later status |
| OrderTracking.BackwardMoveIsAccepted | app/lib/actions/orders/update-tracking.ts:3-16 | a delivered order can be set back to processing and keeps its delivery time |
| OrderDelete.DeleteOrder | app/lib/actions/orders/delete.ts:3-21 | line items of the order go whatever their group, tracking and order rows only in the caller's group; every other row stays as many times as it was there, in order |
| OrderDelete.DeleteOrderIdempotent | app/lib/actions/orders/delete.ts:5-17 | deleting twice is deleting once |
| OrderDelete.ForeignDeleteStripsLineItems | app/lib/actions/orders/delete.ts:6-16 | naming another group's order keeps the order but deletes its line items |
| OrderDelete.CreateThenDeleteRestores | app/lib/actions/orders/delete.ts:3-21 | deleting an order just created under fresh ids restores the store |
| OrderUpdate.SchemaErrors | app/lib/actions/orders/update.ts:4-14 | no errors exactly when the payment id is filled and status and method are non-blank, with "reqired", "select a status" and "select a payment method" in schema order |
| OrderUpdate.Validate | app/lib/actions/orders/update.ts:16-26 | valid exactly when the schema passes, with trimmed non-empty status and method |
| OrderUpdate.UpdateOrder | app/lib/actions/orders/update.ts:28-44 | every payment of the order, of any group, gets the method, payment id and status; other payments and tables stay |
| OrderUpdate.UpdateOrderIdempotent | app/lib/actions/orders/update.ts:34-40 | saving twice is saving once |
| OrderUpdate.UpdateOrderReachesEveryPayment | app/lib/actions/orders/update.ts:34-40 | afterwards every payment row of the order carries the submitted values |
| UserCreate.SchemaErrors | app/lib/actions/users/create.ts:6-31 | no errors exactly when the trimmed names are 3+ characters, the e-mail is well formed, the password is 8 to 64 characters and the role is non-blank |
| UserCreate.BlankFirstNameReportsBoth | app/lib/actions/users/create.ts:7-11 | a blank first name reports both its messages, first |
| UserCreate.BlankRoleReportedLast | app/lib/actions/users/create.ts:30 | a blank role is reported last with "roles required" |
| UserCreate.Validate | app/lib/actions/users/create.ts:33-57 | valid exactly when the schema passes and no user of any group has the e-mail; a taken e-mail gives "user already exists" |
| UserCreate.CreateUser | app/lib/actions/users/create.ts:59-89 | one user row with the group, the parsed fields and the hashed password, appended; other tables unchanged |
| UserCreate.ValidatedCreateKeepsEmailUnique | app/lib/actions/users/create.ts:44-85 | after a validated create exactly one user has that e-mail |
| UserCreate.AnyRoleIsStored | app/lib/actions/users/create.ts:67-85 | any non-blank role text, "admin" included, is stored as typed |
| UserUpdate.Parse | app/lib/actions/users/update.ts:5-24 | names trimmed and lower-cased, e-mail and role only trimmed; there is no password field |
| UserUpdate.Checks | app/lib/actions/users/update.ts:5-24 | on parsed values: no errors exactly when both names have 3+ characters, the e-mail is well formed and the role is non-blank |
| UserUpdate.SchemaErrors | app/lib/actions/users/update.ts:5-24 | no errors exactly when the trimmed names have 3+ characters, the trimmed e-mail is well formed and the trimmed role is non-blank; each message names its field |
| UserUpdate.Validate | app/lib/actions/users/update.ts:26-50 | valid exactly when the schema passes and no user has the e-mail; otherwise the schema's errors or "user already exists" |
| UserUpdate.UpdateUser | app/lib/actions/users/update.ts:52-71 | the row with that id in the caller's group gets the names, e-mail and role; other rows and tables stay |
| UserUpdate.KeepingOwnEmailIsRefused | app/lib/actions/users/update.ts:37-47 | resubmitting any user's current e-mail, the edited user's own included, is refused |
| UserUpdate.UpdateUserKeepsCredentials | app/lib/actions/users/update.ts:61-65 | no update changes a password, id or group |
| UserUpdate.UpdateUserIdempotent | app/lib/actions/users/update.ts:60-66 | saving twice is saving once |
| UserUpdate.OtherGroupsUntouched | app/lib/actions/users/update.ts:66 | a user of another group is never edited |
| UserDelete.DeleteUser | app/lib/actions/users/delete.ts:3-21 | an admin found first is reported and kept; no match changes nothing; otherwise every matching row goes and every other row stays as many times as it was there, in order |
| UserDelete.AdminIsNeverDeleted | app/lib/actions/users/delete.ts:11-17 | with unique ids an admin row survives every delete |
| UserDelete.DuplicateIdHidesAdmin | app/lib/actions/users/delete.ts:7-17 | without unique ids, a non-admin duplicate read first takes the admin with it |
| UserDelete.OtherGroupsAreKept | app/lib/actions/users/delete.ts:15-17 | a user of another group is never deleted |
| UserDelete.CreateThenDeleteRestores | app/lib/actions/users/delete.ts:3-21 | deleting a non-admin just created under a fresh id restores the store |
| CategoryCreate.SchemaErrors | app/lib/actions/categories/create.ts:4-13 | no errors exactly when the trimmed name has 3+ characters, with both messages for a blank name and one for a short name |
| CategoryCreate.Validate | app/lib/actions/categories/create.ts:15-46 | valid exactly when the name passes and the group has no category of the normalised name; otherwise "category name already exists" |
| CategoryCreate.CreateCategory | app/lib/actions/categories/create.ts:48-60 | one (group, name) row appended; other tables unchanged |
| CategoryCreate.ValidatedCreateKeepsNamesUnique | app/lib/actions/categories/create.ts:29-56 | after a validated create the group has exactly one category of that name |
| CategoryCreate.CaseVariantIsRefused | app/lib/actions/categories/create.ts:4-43 | a name differing only in case or surrounding blanks is refused |
| CategoryCreate.OtherGroupDoesNotBlock | app/lib/actions/categories/create.ts:34 | the same name in another group does not block |
| CategoryDelete.DeleteCategory | app/lib/actions/categories/delete.ts:3-16 | every copy of the category with that id in the caller's group goes; every other row stays as many times as it was there, in order |
| CategoryDelete.DeleteCategoryIdempotent | app/lib/actions/categories/delete.ts:8-12 | deleting twice is deleting once |
| CategoryDelete.CreateThenDeleteRestores | app/lib/actions/categories/delete.ts:3-16 | deleting a category just created under a fresh id restores the store |
| ProductCreate.SchemaErrors | app/lib/actions/products/create.ts:5-40 | no errors exactly when name and description have 3+ characters, category and status are non-blank and the three numbers are filled |
| ProductCreate.SafeParse | app/lib/actions/products/create.ts:5-40 | valid exactly when the schema passes, with the normalised text and the numbers |
| ProductCreate.Validate | app/lib/actions/products/create.ts:42-70 | valid exactly when the schema passes and the group has no product of that name; otherwise "product already exists" |
| ProductCreate.AddProduct | app/lib/actions/products/create.ts:72-114 | one row appended with the group, the parsed fields and SKU "HWMP-001"; other tables unchanged |
| ProductCreate.ValidatedAddKeepsNamesUnique | app/lib/actions/products/create.ts:56-110 | after a validated add the group has exactly one product of that name |
| ProductCreate.SkuIsShared | app/lib/actions/products/create.ts:95 | two products added in a row carry the same SKU |
| ProductCreate.ShortDescriptionPasses | app/lib/actions/products/create.ts:12-17 | a description under the 10 characters its message asks for is accepted |
| ProductUpdate.Validate | app/lib/actions/products/update.ts:5-55 | the add form's schema alone decides, with no name lookup: valid exactly when it passes, carrying every normalised text field and the three numbers; otherwise exactly the schema's errors |
| ProductUpdate.UpdateProduct | app/lib/actions/products/update.ts:57-88 | the product with that id in the caller's group gets every field; other rows and tables stay |
| ProductUpdate.UpdateKeepsGroupsIdsAndSkus | app/lib/actions/products/update.ts:74-83 | no row changes group, id or SKU |
| ProductUpdate.UpdateProductIdempotent | app/lib/actions/products/update.ts:73-84 | saving twice is saving once |
| ProductUpdate.EditCanDuplicateName | app/lib/actions/products/update.ts:42-84 | an edit can give a product the name of another product of its group |
| ProductDelete.DeleteProduct | app/lib/actions/products/delete.ts:3-15 | every copy of the product with that id in the caller's group goes; every other row stays as many times as it was there, in order |
| ProductDelete.DeleteProductIdempotent | app/lib/actions/products/delete.ts:8-11 | deleting twice is deleting once |
| ProductDelete.CreateThenDeleteRestores | app/lib/actions/products/delete.ts:3-15 | deleting a product just added under a fresh id restores the store |
| CustomerCreate.SchemaErrors | app/lib/actions/customers/create.ts:5-46 | no errors exactly when the names have 3+ characters, the e-mail is well formed, phone and postal code are filled and street, city and province are non-blank |
| CustomerCreate.SafeParse | app/lib/actions/customers/create.ts:5-46 | valid exactly when the schema passes, carrying the normalised text (names and address lower-cased, the e-mail only trimmed) and the phone and postal numbers |
| CustomerCreate.Validate | app/lib/actions/customers/create.ts:48-76 | valid exactly when the schema passes and the group has no customer with the e-mail; otherwise "customer already exists" |
| CustomerCreate.CreateCustomer | app/lib/actions/customers/create.ts:78-131 | a failed customer insert writes nothing; otherwise one customer row with the group and one address row pointing at it |
| CustomerCreate.ValidatedCreateKeepsEmailsUnique | app/lib/actions/customers/create.ts:60-110 | after a validated create the group has exactly one customer with that e-mail |
| CustomerCreate.AddressBelongsToNewCustomer | app/lib/actions/customers/create.ts:112-127 | the new address's customer id is the new customer's id |
| CustomerCreate.CaseVariantEmailIsAccepted | app/lib/actions/customers/create.ts:60-73 | an e-mail that differs from a stored one only in case is accepted |
| CustomerUpdate.Validate | app/lib/actions/customers/update.ts:4-47 | valid exactly when names, e-mail and phone pass; the optional address fields are only normalised; no e-mail lookup |
| CustomerUpdate.EditAddress | app/lib/actions/customers/update.ts:75-82 | each address column takes the submitted value or "" / 0 when absent; id and customer id stay |
| CustomerUpdate.UpdateCustomer | app/lib/actions/customers/update.ts:49-86 | the customer with that id in the caller's group is edited and every address of that customer id, of any group, is rewritten; nothing else changes |
| CustomerUpdate.UpdateCustomerIdempotent | app/lib/actions/customers/update.ts:66-82 | saving twice is saving once |
| CustomerUpdate.OmittedAddressIsBlanked | app/lib/actions/customers/update.ts:77-80 | a form without address fields blanks the address |
| CustomerUpdate.ForeignUpdateRewritesAddress | app/lib/actions/customers/update.ts:66-82 | naming another group's customer leaves the customer alone but rewrites its address |
| CustomerDelete.DeleteCustomer | app/lib/actions/customers/delete.ts:3-19 | the addresses of that customer id go whatever the group, the customer only in the caller's group; every other row stays as many times as it was there, in order |
| CustomerDelete.DeleteCustomerIdempotent | app/lib/actions/customers/delete.ts:8-15 | deleting twice is deleting once |
| CustomerDelete.ForeignDeleteStripsAddresses | app/lib/actions/customers/delete.ts:8-15 | naming another group's customer keeps it but deletes its addresses |
| CustomerDelete.CreateThenDeleteRestores | app/lib/actions/customers/delete.ts:3-19 | deleting a customer just created under fresh ids restores the store |
| Signup.SchemaErrors | app/lib/actions/auth/signup.ts:5-32 | no errors exactly when names and business name have 3+ characters, the e-mail is well formed and the password is 8 to 64 characters |
| Signup.MemberByEmail | app/lib/actions/auth/signup.ts:55-61 | the join row: a user with the e-mail whose group exists, with that group; none exactly when no such user has a group |
| Signup.Validate | app/lib/actions/auth/signup.ts:34-78 | undefined exactly when the schema passes and no user has the e-mail; a passing schema can only fail with "user already exists" |
| Signup.SignUp | app/lib/actions/auth/signup.ts:80-110 | a failed group insert writes nothing; otherwise one group and one admin user in it |
| Signup.BusinessNameNeverReported | app/lib/actions/auth/signup.ts:51-77 | "business name already exists" is never returned |
| Signup.TakenBusinessNameIsRegisteredAgain | app/lib/actions/auth/signup.ts:34-106 | a business name already registered passes and gets a second group |
| Signup.SignUpCreatesSoleAdmin | app/lib/actions/auth/signup.ts:86-106 | with a fresh e-mail, the new user is the only one with it, an admin of the new group, and the one the e-mail lookup finds |
| Signup.ValidatedEmailIsFresh | app/lib/actions/auth/signup.ts:51-69 | a validated sign-up's e-mail belongs to no user |
| Login.SchemaErrors | app/lib/actions/auth/login.ts:6-24 | no errors exactly when the business name has 3+ characters, the e-mail is well formed and the password is 8 to 64 characters |
| Login.Answer | app/lib/actions/auth/login.ts:48-76 | no join row: e-mail/password error; then a business-name mismatch; then a failed verify; success only when both match |
| Login.Validate | app/lib/actions/auth/login.ts:26-77 | valid exactly when the schema passes, a join row exists, its business name equals the lower-cased one and the password verifies |
| Login.Authentication | app/lib/actions/auth/login.ts:79-93 | the session of a user with that e-mail; none exactly when no user has it |
| Login.SessionIsCheckedUser | app/lib/actions/auth/login.ts:79-93 | with unique e-mails, the session is that of the user whose password was checked |
| Login.CapitalisedBusinessNeverLogsIn | app/lib/actions/auth/login.ts:57-63 | a stored business name with a capital letter never matches |
| Login.SignedUpMember | app/lib/actions/auth/signup.ts:86-106 | the join row of a user just signed up is that user with its new group |
| Login.SignUpThenLogIn | app/lib/actions/auth/login.ts:26-93 | signing up with a lower-case business name, then logging in with the same details, opens an admin session in the new group |
| Login.CapitalisedSignUpLocksOut | app/lib/actions/auth/signup.ts:16-20 | a sign-up whose business name has a capital letter can never log in |
| Navigation.VisibleLinks | app/routes/_dashboard/side-navigation-bar.tsx:13-19 | the links shown keep their order, and are all of them for an admin and all but user management otherwise |
| Navigation.AdminSeesEverything | app/routes/_dashboard/side-navigation-bar.tsx:14-16 | an admin sees all six links in order |
| Navigation.OthersLoseOnlyUserManagement | app/routes/_dashboard/links.ts:4-35 | any other role sees the first five links in order |

## Left out

- Rendering, route loaders and actions, redirects and cookies are left out; the model gives each
  action the parsed data its signature names and describes the actions as they behave when
  called. Route behaviour around them:
  - Seven routes test `if (errors)` on the whole result of `validate`: login, categories,
    customer add and edit, order create, product add and user create. That result is an
    object, and so truthy, even on success. As written these routes return before the action
    runs; past that test they would pass the raw form, not the parsed data.
  - The order, product and user edit routes destructure `{ safeParse, errors }` and pass
    `safeParse.data`.
  - Sign-up's `validate` returns `undefined` on success, so its `if (errors)` works as intended.
- argon2 is a `hash` function and a `verify` predicate passed in, not modelled.
- UUIDs and `new Date()` are parameters: the model does not generate ids or read a clock.
- The SQL client is replaced by in-memory tables. Database-level errors are modelled only where
  the code's failure point is known:
  - the dereference of a missing row inside `try`;
  - postgres.js refusing an `undefined` parameter;
  - the `RETURNING id` insert of customers/create and signup, as an `Option` id.
- Column constraints and defaults are not modelled, except the `admin` role default of a new
  user. The order_tracking DDL is not part of this model; a new tracking row is assumed to
  start as `order_created` with `created_at` set.
- Concurrent requests are left out: each check-then-insert runs alone.
- `parseInt`'s `NaN` is not modelled. A numeric field is empty or an integer, and optional
  numbers are already parsed.
- `.toLowerCase()` is modelled for ASCII letters only; other Unicode case mappings are not
  modelled.
- `.trim()` strips the JavaScript white-space set; zod's `.email()` regular expression is
  approximated by one `@`, a non-empty local part and a dot inside the domain.
- Floating-point rounding in `calculateNetAmount` is not modelled; it uses exact `real`.
- The report and revenue rows are exact integers.
- The read-only data modules other than `getTotalRevenue` are not part of this model:
  `getTotalCustomer`, `getPaidAmount`, `getPendingAmount`, and the list queries.
