# Storefront back end: a Dafny model

This project models the request handlers of a small Express/Mongoose
storefront: users, a product catalog with categories, one cart per user,
and invoices. The centre of the model is the **cart-to-invoice commit**
(`createInvoice`). It takes the caller's cart and checks every line against
current stock, adding up the total before anything is written. Then it
stores an invoice that snapshots each line's unit price. It takes the sold
units off stock and adds them to the sales counters. Finally it empties the
cart and pushes the invoice id onto the user's purchase history.

Each product `save()` in the stock pass runs the schema validators
(`required` on the name, `min: 0` on price and stock). A save they reject throws, and the handler
answers 500. By then the invoice and the earlier saves are already stored,
the cart has not been emptied, and the user's history has no new entry.
The model follows this: the stock pass stops at the first rejected save,
and the commit reports `SaveRejected` with exactly that partial state.

The commit completes only because every cart operation keeps **at most one
line per product**. The stock check looks at each line separately against
the stock read before the commit. The model proves that add, update, remove
and clear keep that invariant. Given that invariant, a schema-valid catalog
and a passing check, it proves every save goes through
(`InvoiceController.AllSaved`). Two lines for one product with one unit in
stock both pass the check. Without the validator the arithmetic would end
at -1; with it, the second save is rejected and the commit stops halfway
(`InvoiceController.DuplicateLinesPartialCommit`). A negative price is
rejected the same way on the first save
(`InvoiceController.NegativePriceSaveRejected`). The unvalidated product
update can store such a price.

Every MongoDB collection is a class. Each holds a `map` from document id to
record, plus a counter that hands out fresh ids. That counter stands for
ObjectId generation, and ids below it are the ones handed out so far.
Every handler that writes is a method that takes the collections it
touches and modifies only those. Read-only handlers (`getInvoiceById`,
`getProductById`, `getProducts`, `getOutOfStockProducts`,
`getTopSellingProducts`, `getUserInvoices`) are functions of the
collections' contents. Where the HTTP handler answers with a status code, the
method returns a `Result` with one error constructor per distinct answer.
The route gates (`CLIENT_ROLE` for the commit and the purchase history,
`ADMIN_ROLE` for the admin user handlers and the invoice status update)
become `requires` clauses on a `Caller` parameter.

Modules, one per source file:

- `Common`: `Option`, `Result`, id types, and JavaScript truthiness of optional request fields.
- `ProductModel`, `CategoryModel`, `CartModel`, `InvoiceModel`, `UserModel`: the records, their schema invariants and the collections.
- `CartController`, `InvoiceController`, `ProductController`, `CategoryController`, `UserController`: the handlers.

Money is in integer cents (799.99 is `79999`). `findOne` without a sort is
modelled as the document with the least id that matches, which is the first
in insertion order.

Where the behaviour documented for the system and the code disagree, the
model follows the code:

- Quantities may be zero or negative, because `addItemToCart` never checks their sign.
- Any whitelisted status may replace any other, including a move out of CANCELLED.
- The commit is a sequence of independent writes, not an atomic unit.
- The invoice is stored before the stock pass.
- The stock error names the product, not its id.

## Model

| member | source | states |
|---|---|---|
| Common.Pick | src/users/user.controller.js:133-138 | `if (x) update.x = x`: a truthy supplied value replaces the current one; otherwise the current one stays |
| ProductModel.NewProduct | src/products/product.model.js:5-14 | a product created without a sales count has `salesCount` 0; it passes the schema validators iff its name is not empty, price ≥ 0 and stock ≥ 0 |
| CategoryModel.FindByName | src/categories/category.controller.js:92 | the id found has that name and no smaller id does; `None` means no id below the bound has the name |
| CategoryModel.FindByNameComplete | src/categories/category.controller.js:11-12 | when all ids are below the bound, the lookup finds something iff some category has the name |
| CartModel.QuantityOfUnique | src/cart/cart.controller.js:39-45 | with one line per product, the total quantity of a product in the cart is its line's quantity, or 0 when it has no line |
| CartController.AddLine | src/cart/cart.controller.js:39-45 | after adding, the cart has a line for the product; it is one line longer exactly when it had none |
| CartController.SetLine | src/cart/cart.controller.js:67-77 | setting the quantity removes one line exactly when the product has a line and `q <= 0`; otherwise the length stays |
| CartController.RemoveProduct | src/cart/cart.controller.js:99 | the filter keeps only lines of the cart, none for the product, and never lengthens it |
| CartController.FirstIndex | src/cart/cart.controller.js:39 | the position of the first line for a product the cart has |
| CartController.AddLineAt | src/cart/cart.controller.js:39-45 | adding to a cart without a line for the product appends one line at the end; otherwise only that line's quantity grows, by exactly `q` |
| CartController.SetLineAt | src/cart/cart.controller.js:67-77 | updating with `q <= 0` splices out the product's line, keeping the others in order; otherwise only that line changes, to quantity `q` |
| CartController.SetLineAbsent | src/cart/cart.controller.js:67-70 | setting the quantity of a product without a line leaves the cart as it was |
| CartController.SetLineFirst | src/cart/cart.controller.js:67-77 | setting the quantity rewrites only the product's first line: it is dropped for `q <= 0`, otherwise replaced by a line of quantity `q` |
| CartController.RemoveProductAt | src/cart/cart.controller.js:99 | after removal no line for the product remains; an absent product leaves the lines unchanged, and a present one is spliced out at its position |
| CartController.RemoveProductAbsent | src/cart/cart.controller.js:99 | filtering out a product the cart has no line for keeps every line |
| CartController.RemoveProductConcat | src/cart/cart.controller.js:99 | the filter works line by line: filtering a concatenation is concatenating the filtered parts |
| CartController.RemoveProductLeavesNone | src/cart/cart.controller.js:99 | after the filter no line for the product is left, whatever the cart held |
| CartController.RemoveProductIdempotent | src/cart/cart.controller.js:99 | removing the same product twice equals removing it once |
| CartController.NonPositiveSetIsRemove | src/cart/cart.controller.js:73-74 | with one line per product, an update to a quantity ≤ 0 is the same as removing the product |
| CartController.AddLineKeepsUnique | src/cart/cart.controller.js:39-45 | add-merge keeps at most one line per product |
| CartController.SetLineKeepsUnique | src/cart/cart.controller.js:67-77 | update keeps at most one line per product |
| CartController.RemoveProductKeepsUnique | src/cart/cart.controller.js:99 | remove keeps at most one line per product and introduces no line |
| CartController.FindLine | src/cart/cart.controller.js:67 | `findIndex`: the first line for the product, or -1 exactly when there is none |
| CartController.GetCart | src/cart/cart.controller.js:9-14 | a user without a cart gets an empty one; an existing cart is returned unchanged |
| CartController.AddItemToCart | src/cart/cart.controller.js:29-47 | an unknown product is refused with no cart changed; otherwise the cart, created if missing, becomes the add-merge result; other users' carts are untouched |
| CartController.UpdateItemQuantity | src/cart/cart.controller.js:62-79 | a missing cart, or no line for the product, is not found with nothing changed; otherwise the cart becomes the set-quantity result |
| CartController.RemoveItemFromCart | src/cart/cart.controller.js:94-100 | a missing cart is not found; otherwise every line for the product is dropped and the rest stay in order |
| CartController.ClearCart | src/cart/cart.controller.js:114-119 | a missing cart is not found; otherwise the cart is left with no lines |
| InvoiceModel.ParseStatus | src/invoices/invoice.controller.js:103 | a status string is accepted iff it is CREATED, PAID or CANCELLED, and the parsed status prints back as the same string |
| InvoiceModel.StatusNameParses | src/invoices/invoice.model.js:17-20 | every status of the enum is a whitelisted string |
| InvoiceModel.Total | src/invoices/invoice.controller.js:17-23 | with no negative price or quantity on any line, the total is not negative |
| InvoiceModel.NewInvoice | src/invoices/invoice.model.js:14-20 | a new invoice has status CREATED and the given user, lines and total |
| InvoiceController.Validate | src/invoices/invoice.controller.js:17-24 | the check succeeds iff every line's product exists and has stock ≥ the line's quantity |
| InvoiceController.ValidateTotal | src/invoices/invoice.controller.js:17-31 | on success every product is present and the running total is the sum of price × quantity over the snapshot lines |
| InvoiceController.ValidateFirstFailure | src/invoices/invoice.controller.js:19-22 | on failure the error is the one of the first line that does not pass; all earlier lines pass |
| InvoiceController.ValidateErrPersists | src/invoices/invoice.controller.js:19-22 | once a prefix of the cart fails, the whole cart fails with the same error |
| InvoiceController.Snapshot | src/invoices/invoice.controller.js:27-31 | the invoice lines are the cart lines in order, same length, each with product, quantity and the product's current price |
| InvoiceController.CheckStock | src/invoices/invoice.controller.js:17-24 | the validation loop returns exactly the result of the check |
| InvoiceController.Sold | src/invoices/invoice.controller.js:43-44 | one sale lowers stock by `q` and raises the sales count by `q`, leaving name, price, category and description |
| InvoiceController.ApplySale | src/invoices/invoice.controller.js:41-46 | the stock pass changes no product's presence: the catalog keeps exactly its ids |
| InvoiceController.ApplySaleAt | src/invoices/invoice.controller.js:41-46 | after the stock pass each product has lost from stock, and gained in sales, the total quantity of its lines |
| InvoiceController.SaleEffect | src/invoices/invoice.controller.js:41-46 | with one line per product, a product in the cart changes by exactly its line's quantity, and a product not in the cart is unchanged |
| InvoiceController.SaleKeepsCatalogValid | src/invoices/invoice.controller.js:41-46 | with one line per product and a passing check, every stock stays ≥ 0 and every price ≥ 0 |
| InvoiceController.SavedFrom | src/invoices/invoice.controller.js:41-46 | the stock pass saves lines up to, and not including, the first line whose sold product fails the schema's rules (a non-empty name, price and stock ≥ 0); every line before it is saved |
| InvoiceController.AllSaved | src/invoices/invoice.controller.js:41-46 | on a schema-valid catalog, with one line per product and a passing check, every save goes through |
| InvoiceController.SaveOkOnValid | src/invoices/invoice.controller.js:45 | under the same conditions, the save of any one line goes through |
| InvoiceController.DuplicateLinesPartialCommit | src/invoices/invoice.controller.js:19-46 | two lines of one unit against a stock of one both pass the check; the arithmetic alone would leave -1, but the second save is rejected, so only the first line is saved, leaving 0 |
| InvoiceController.NegativePriceSaveRejected | src/invoices/invoice.controller.js:19-45 | a product with price -1 passes the stock check, with total -1, and its save is rejected, so no line is saved |
| InvoiceController.TwoOfThreeExample | src/invoices/invoice.controller.js:17-46 | two units at price 100 from a stock of three: total 200, line price 100, the save goes through, one unit left, two more sales |
| InvoiceController.TwoOfOneExample | src/invoices/invoice.controller.js:20-21 | two units from a stock of one fail with the product's name |
| InvoiceController.SaleStep | src/invoices/invoice.controller.js:41-46 | one turn of the loop: the line's product is still in the catalog, and the next catalog is this one with that product sold once more |
| InvoiceController.TakeStock | src/invoices/invoice.controller.js:41-46 | the loop saves exactly the first `SavedFrom(old catalog, items, 0)` lines; the catalog is the old one with that prefix of lines sold; it never stores a product the schema rejects, so a valid catalog stays valid |
| InvoiceController.Commit | src/invoices/invoice.controller.js:33-58 | the writes store the snapshot invoice under a fresh id and run the stock pass; if every save goes through, they empty the cart and push the id onto the user's history; otherwise the answer is `SaveRejected`, and the cart and the users are unchanged |
| InvoiceController.CreateInvoice | src/invoices/invoice.controller.js:9-60 | a missing or empty cart gives "Cart is empty", and a failing line gives its error, each with no collection changed; otherwise the full new state of all four collections is given, both for a completed commit and for one stopped by a rejected save |
| InvoiceController.GetInvoiceById | src/invoices/invoice.controller.js:67-76 | an unknown id is not found first; otherwise the invoice is returned iff the caller is an admin or its owner, else access is denied |
| InvoiceController.UpdateInvoiceStatus | src/invoices/invoice.controller.js:101-111 | a status off the whitelist is refused before the lookup with nothing changed; an unknown id is not found; otherwise only that invoice's status changes; only invoices are modified |
| InvoiceController.StatusChangeKeepsInvoice | src/invoices/invoice.controller.js:107 | a status change keeps owner, lines and total, so the total still matches the lines |
| UserModel.ParseRole | src/users/user.model.js:36 | a role string is accepted iff it is CLIENT_ROLE or ADMIN_ROLE, and it prints back as the same string |
| UserModel.RoleNameParses | src/users/user.model.js:36 | every role of the enum is an accepted string |
| UserModel.NewUser | src/users/user.model.js:36-41 | a new user is active, has no deletion date and an empty purchase history |
| UserModel.RecordInvoice | src/invoices/invoice.controller.js:53 | `$push`: the user's history gains the invoice id at the end; no other user changes |
| UserModel.ReplaceKeepsUnique | src/users/user.model.js:32-33 | replacing a record by one with the same username and email keeps both unique |
| UserModel.RecordInvoiceKeepsUnique | src/invoices/invoice.controller.js:53 | pushing an invoice id keeps usernames and emails unique |
| ProductController.CreateProduct | src/products/product.controller.js:9-17 | a used name is refused with nothing changed; an empty name or a negative price or stock fails validation with nothing changed; otherwise exactly one product is added, with sales count 0; runs on any catalog, and a valid one stays valid |
| ProductController.OutOfStock | src/products/product.controller.js:127 | exactly the products with stock ≤ 0, as stored |
| ProductController.OutOfStockIsZeroStock | src/products/product.controller.js:127 | in a valid catalog the out-of-stock products are those with stock exactly 0 |
| ProductController.ByCategory | src/products/product.controller.js:42-47 | exactly the products whose category is the given id, as stored |
| ProductController.GetProducts | src/products/product.controller.js:34-47 | without a category every product, with one the category filter |
| ProductController.CategoriesPartition | src/products/product.controller.js:42-47 | two categories' listings never share a product, and every product is in its own category's listing |
| ProductController.Listing | src/products/product.controller.js:145 | `find()`: every product below the bound once, as stored, in id order |
| ProductController.Insert | src/products/product.controller.js:146 | insertion keeps the list ordered by non-increasing sales and makes it one longer |
| ProductController.InsertPermutes | src/products/product.controller.js:146 | insertion adds exactly the one entry and loses none |
| ProductController.SortedTail | src/products/product.controller.js:146 | a list ordered by sales stays ordered without its head |
| ProductController.SortBySales | src/products/product.controller.js:146 | the result is ordered by non-increasing sales and is a permutation of the input |
| ProductController.TopSelling | src/products/product.controller.js:145-148 | `sort({ salesCount: -1 }).limit(10)`: the first ten entries of the ranking, or all of them when there are fewer |
| ProductController.TopSellingSize | src/products/product.controller.js:145-148 | the top-selling list holds as many products as the catalog, up to ten |
| ProductController.TopSellingEntries | src/products/product.controller.js:145-148 | each entry of the top-selling list is a catalog product as stored, none twice |
| ProductController.TopSellingRanks | src/products/product.controller.js:145-148 | the top-selling list is in non-increasing order of sales, and no product left out sold more than one kept |
| ProductController.GetProductById | src/products/product.controller.js:62-66 | an absent id is not found; a present one returns its product |
| ProductController.ApplyUpdate | src/products/product.controller.js:81-85 | the supplied fields replace the stored ones; absent fields and the sales count stay |
| ProductController.UpdateProductAsWritten | src/products/product.controller.js:83-91 | as written: an absent id is not found, otherwise the update is stored without validation |
| ProductController.UnvalidatedUpdateBreaksStock | src/products/product.controller.js:83-87 | as written, an update takes a valid product's stock to -5 |
| ProductController.UpdateProduct | src/products/product.controller.js:80-91 | with the schema validators applied: an empty name or a negative price or stock is refused; an absent id is not found; otherwise it stores what the as-written update stores; runs on any catalog, and a valid one stays valid |
| ProductController.DeleteProduct | src/products/product.controller.js:109-111 | an absent id is not found; otherwise only that product is removed; runs on any catalog, and a valid one stays valid |
| ProductController.DefaultProduct | src/products/product.controller.js:172-244 | each default product is valid and belongs to the given category |
| ProductController.DefaultProducts | src/products/product.controller.js:172-244 | the defaults are eight valid products of the given category |
| ProductController.Numbered | src/products/product.controller.js:247 | `insertMany`: consecutive fresh ids from the counter, one per product, in order |
| ProductController.SeedProductsResult | src/products/product.controller.js:160-247 | a non-empty catalog, or no "Electrónica" category, is kept as is; otherwise the catalog holds exactly eight fresh ids from the counter, each a valid product of that category |
| ProductController.SeedProductsIdempotent | src/products/product.controller.js:160-170 | seeding twice adds nothing the second time |
| ProductController.SeedProducts | src/products/product.controller.js:159-257 | a non-empty catalog, or a missing "Electrónica" category, leaves the catalog unchanged; otherwise the eight defaults are inserted; runs on any catalog, and a valid one stays valid |
| CategoryController.CreateCategory | src/categories/category.controller.js:9-16 | a used name is refused with nothing changed; otherwise exactly one category is added, and distinct names stay distinct |
| CategoryController.ApplyCategoryUpdate | src/categories/category.controller.js:66-71 | supplied fields replace the stored ones; absent ones stay |
| CategoryController.UpdateCategory | src/categories/category.controller.js:65-73 | an unknown id is not found with nothing changed; otherwise only that category changes |
| CategoryController.RenameCanDuplicate | src/categories/category.controller.js:67-71 | the handler does not check the new name against the other categories, so the stored map can hold two categories with one name |
| CategoryController.Reassign | src/categories/category.controller.js:98-101 | each product of the old category moves to the target; its other fields and all other products stay |
| CategoryController.ReassignEmptiesCategory | src/categories/category.controller.js:98-101 | after the move the old category has no products, the target has its own plus the moved ones, and the catalog stays valid |
| CategoryController.DeleteCategory | src/categories/category.controller.js:90-107 | without "Default" nothing changes; otherwise products move to "Default" first; an unknown id is then not found with the move kept; otherwise only that category is removed; runs on any catalog, and a valid one stays valid |
| CategoryController.DefaultCategories | src/categories/category.controller.js:126-135 | the defaults are "Default" then "Electrónica" |
| CategoryController.SeedCategoriesResult | src/categories/category.controller.js:124-138 | a non-empty store is kept as is; otherwise it holds exactly two fresh ids, "Default" then "Electrónica" |
| CategoryController.SeedCategoriesProperties | src/categories/category.controller.js:124-138 | seeding twice adds nothing the second time; seeding an empty store makes "Default" and "Electrónica" findable, under distinct names |
| CategoryController.SeedCategories | src/categories/category.controller.js:124-138 | only an empty store is seeded; the result is the seeding function's |
| UserController.InsertKeepsUnique | src/users/user.model.js:32-33 | adding a record whose username and email nobody holds keeps both unique |
| UserController.AddAccount | src/users/user.controller.js:36 | the save stores the record under a fresh id and keeps both indexes unique |
| UserController.RegisterUser | src/users/user.controller.js:11-36 | a username or email held by anyone is refused with nothing changed; an empty name, surname, username, email or hashed password fails the schema's `required` validators with nothing changed; otherwise one client account is added with the hashed password and preferences defaulting to {} |
| UserController.NormalizeRole | src/users/user.controller.js:249-252 | the stored role is admin iff ADMIN_ROLE was requested; a whitelisted role is kept, anything else becomes CLIENT_ROLE |
| UserController.CreateUserByAdmin | src/users/user.controller.js:225-255 | the same uniqueness check and `required` validators, each failing with nothing changed; otherwise one account with the normalised role |
| UserController.ApplyProfile | src/users/user.controller.js:132-143 | only truthy fields among name, surname, username, email, phone and preferences change; role and password never do |
| UserController.ApplyProfileIdempotent | src/users/user.controller.js:132-143 | applying the same profile update twice equals applying it once |
| UserController.ProfileKeepsUnique | src/users/user.controller.js:110-141 | an update that passed the email and username checks keeps both unique |
| UserController.UpdateUserProfile | src/users/user.controller.js:101-143 | an unknown caller is not found; then a new email held by another user is refused, then a new username likewise, each with nothing changed; otherwise the profile update is stored |
| UserController.SoftDeleted | src/users/user.controller.js:187-191 | the record is disabled and stamped with the time; nothing else changes |
| UserController.DeleteUser | src/users/user.controller.js:162-204 | in order: admins are refused, then a missing password, then an unknown user, then a wrong password; on success the record is kept disabled and exactly one audit entry is appended |
| UserController.DeleteUserByAdmin | src/users/user.controller.js:345-353 | deleting one's own id is refused; an unknown id is not found; otherwise the record is removed entirely |
| UserController.ApplyAdminUpdate | src/users/user.controller.js:309-323 | truthy fields replace name, surname, phone, role and preferences, and a new password is stored hashed; username, email and history stay |
| UserController.UpdateUserByAdmin | src/users/user.controller.js:308-328 | a role off the whitelist is refused before the lookup with nothing changed; an unknown id is not found; otherwise the admin update is stored |
| UserController.Populate | src/users/user.controller.js:401 | `populate`: the referenced invoices in history order; when all exist, one per reference |
| UserController.PopulateAfterCommit | src/users/user.controller.js:401-402 | after a commit the populated history is the earlier invoices followed by the new one |
| UserController.PopulateUnaffected | src/users/user.controller.js:401 | storing an invoice that no reference in the history points to leaves the populated history as it was |
| UserController.GetUserInvoices | src/users/user.controller.js:399-402 | a missing caller record makes the handler fail; otherwise the result is the caller's populated history: the referenced invoices in history order, no more than the references |
| UserController.HistoryAfterCommit | src/users/user.controller.js:399-402 | after a commit stores an invoice and pushes its id onto the caller, the purchase history is the earlier one followed by the new invoice |
| UserController.DefaultUsersDistinct | src/users/user.controller.js:447-476 | the two default accounts have different usernames and different emails |
| UserController.DefaultUsers | src/users/user.controller.js:447-476 | the two defaults are an admin and a client with distinct usernames and emails, both active, both with the hashed default password |
| UserController.SeedUsersResult | src/users/user.controller.js:445-476 | a non-empty store is kept as is; otherwise it holds exactly two fresh ids, an admin then a client, both active with the hashed default password |
| UserController.SeedUsersProperties | src/users/user.controller.js:445-477 | seeding twice adds nothing the second time, and the seeded store keeps usernames and emails unique |
| UserController.SeedUsers | src/users/user.controller.js:443-479 | only an empty store is seeded; the result is the seeding function's |

## Left out

- Routes and middleware: token validation and role checks are not modelled. Where a handler reads the caller, its route gate is a `requires`. The admin-only product and category handlers do not read the caller, so their gate does not appear.
- Password hashing and checking are function parameters of the model. `loginUser`, `updatePassword` and token generation are not part of this model. Salting, which makes two hashes of one password differ, is not modelled.
- `getUserProfile`, `getAllUsers`, `getUserById`, `getAllInvoices`, `getCategories` and `getCategoryById` are not modelled. Each is a plain read with at most a not-found answer.
- The case-insensitive regex name search in `getProducts` is not modelled; its semantics belong to MongoDB.
- Money is in integer cents. Floating-point prices and the floating-point total are not modelled.
- Concurrency and crash atomicity are not modelled. The model is single-threaded and runs the commit's writes in the source's order.
- The audit log keeps only the user and the action. The IP address, the details object and the date are not kept.
- `populate`, `select`, timestamps, logging, and the exact HTTP status codes and messages are not modelled; errors are constructors of a result type.
- Required-field absence in request bodies and the 500 answers from failed casts are not modelled. Of the failed saves, those of the commit's stock pass (`SaveRejected`), of `createProduct`, of `registerUser` and of `createUserByAdmin` (`ValidationFailed`) are modelled.
- The `cart` array on the user record is not modelled; no handler writes it.
- The category schema file and the cart schema file are not part of this model. The records carry the fields the handlers use.
- Among products with equal sales, the top-selling order is not specified by the database; `ProductController.SortBySales` fixes one order.
- `ProductController.TopSellingEntries`: the catalog is listed up to the id counter, so "every product" means every product with an id below it. That covers the whole catalog in a valid collection.
- `UserController.GetUserInvoices`: an invoice reference whose invoice no longer exists is dropped, as `populate` drops it.
- `UserController.DeleteUserByAdmin`: the self-deletion guard compares ids as values. The source compares a route string with the token's id, and the token's id type is not visible.
- Hard deletion of a user leaves their cart and invoices in place, as the source does.

## Findings

| source | as written | input that shows it | evidently intended | confidence | as-written member | corrected member |
|---|---|---|---|---|---|---|
| src/products/product.controller.js:83-87 | `findByIdAndUpdate` runs without `runValidators`, so the schema's `min: 0` on price and stock and `required` on the name are not checked and any value is stored | an update of an existing product with `stock: -5` stores stock -5 | an update is held to the same rules as creation, so names stay non-empty and stock and price stay ≥ 0 | medium, not executed | ProductController.UnvalidatedUpdateBreaksStock | ProductController.UpdateProduct |
