# Analogue store back end: carts, checkout, product listing and users

This project models the data-access layer of an online record shop's back end in Dafny. It proves properties of the model. The model covers three objects:

- **Carts** (`Carts.CartDAO`). A cart is a sequence of line items `{ product, quantity }` kept in a table by cart id. There are small edits: merge-or-append a product, remove a product, replace the lines, set a line's quantity, and empty the cart. There is also the **checkout** (`purchaseCart`):
  - it walks the lines in order and re-reads each line's product;
  - a line is bought when the stock it sees covers its quantity: the stock is lowered and price × quantity is added to the total;
  - otherwise the line is set aside;
  - at the end one ticket is issued for the total, and the cart keeps only the lines that were set aside.

  The walk is the function `Purchase.Run` / `Purchase.Checkout`. The method `Carts.CartDAO.PurchaseCart` is a loop proved against that function. The lemmas of module `Purchase` state what the walk guarantees.
- **Products** (`Products.ProductDAO`). A product collection keyed by id, kept in its natural order (modelled as insertion order, which MongoDB does not guarantee; the listing with an unrecognised sort value returns this order), with create, get, update (the given fields override) and delete. The listing `getAllProducts` is `Pagination.GetAllProducts`, a function of the collection: its argument `all` stands for the stored documents in natural order, `ProductDAO.Documents()` (Pagination.ListingFromStore). It filters by category, applies the sort rule, pages with skip/limit, and builds the pagination record with flags, neighbour pages and `prevLink`/`nextLink`.
- **Users, file-system store** (`Users.UserDAO`). The users are one JSON array in a file. The lookups (all users, by id, by email, by reset token) only read the array. Create, delete and an update that finds its record write the array back; an update that finds no record writes nothing.

Collaborators that are outside the model are parameters:
- Generated ids and the ticket's `uuidv4()` code are arguments. Each comes with the requirement that it is new.
- The product and ticket collections that the checkout uses are objects handed to `CartDAO`'s constructor.
- The users file is represented by what reading it yields.

The source and the model part ways at these points:

- `cartDAO.js` refers to `ProductDAO` and `TicketModel` without importing them, and calls `ProductDAO`'s instance methods as if they were static (src/dao/models/cartDAO.js:95, 98, 106). As written, the first reference to `ProductDAO` or `TicketModel` raises a `ReferenceError` (for an empty cart the loop does not run, and the first one is `new TicketModel` at src/dao/models/cartDAO.js:106). The model follows the evident intent: the checkout reads and writes the product collection and the ticket collection.
- `userDAO.js` uses `fs` in `_ensureFileExists` without importing it (src/dao/models/userDAO.js:20). The model follows the evident intent: a missing file is created holding `[]`.
- A cart line whose product is no longer stored is not reported as "not purchased". The cart is loaded with `populate('products.product')` (src/dao/models/cartDAO.js:87), so such a line's `product` is `null`, and reading `item.product._id` throws at line 95 before the product is looked up. So the model returns `ProductNotFound`. The stock written for the earlier lines stays written, no ticket is issued, and the cart is not rewritten.
- A ticket is issued even when nothing was bought, with amount 0.

## Model

| member | source | states |
|---|---|---|
| Purchase.Step | src/dao/models/cartDAO.js:95-103 | One loop iteration: a line whose product is not stored stops the walk; a line whose stock covers its quantity is bought, lowering that stock and adding price × quantity; any other line is set aside. Its properties are the lemmas below |
| Purchase.Run | src/dao/models/cartDAO.js:94-104 | The loop after its first n iterations, from the stored table with nothing bought and total 0 |
| Purchase.Checkout | src/dao/models/cartDAO.js:94-104 | The whole loop over every line of the cart, the specification that Carts.CartDAO.WalkLines meets |
| Purchase.Amount | src/dao/models/cartDAO.js:100 | The reference sum of price × quantity over a list of lines at the prices of a table, against which Purchase.CheckoutTotal states the total |
| Purchase.RunShape | src/dao/models/cartDAO.js:94-104 | The walk after n lines decides at most n lines and never adds or removes a product id from the table |
| Purchase.StockBoundary | src/dao/models/cartDAO.js:96-103 | A line asking for exactly the stock it sees is bought and leaves 0; one unit more is not bought, and the table and total stay as they were |
| Purchase.MissingStopsCheckout | src/dao/models/cartDAO.js:95-96 | Once a product is found missing, later lines change nothing |
| Purchase.CheckoutSplitsLines | src/dao/models/cartDAO.js:94-104 | The purchased and not-purchased lists are the lines decided true and false, each in cart order; every line is reached unless a product is missing, and then the walk stopped exactly at the missing one |
| Purchase.CheckoutIsPermutation | src/dao/models/cartDAO.js:94-104 | Purchased plus not-purchased is a rearrangement of the evaluated lines, and of all the lines when no product is missing |
| Purchase.CheckoutStock | src/dao/models/cartDAO.js:96-98 | Only stock changes; each product's stock goes down by exactly the total quantity of its purchased lines |
| Purchase.CheckoutKeepsStockNonNegative | src/dao/models/cartDAO.js:96-98 | Stock that starts non-negative stays non-negative |
| Purchase.CheckoutKeepsPrice | src/dao/models/cartDAO.js:96-98 | Every product the walk's table holds was stored at the start, at the same price |
| Purchase.CheckoutTotal | src/dao/models/cartDAO.js:92-100 | The total is the sum of price × quantity over exactly the purchased lines, at the stored prices |
| Purchase.CheckoutCompletes | src/dao/models/cartDAO.js:94-95 | The walk completes exactly when every line's product is stored |
| Purchase.DecisionsOfPrefix | src/dao/models/cartDAO.js:94 | The decisions on a prefix of the cart are a prefix of the decisions on the whole cart |
| Purchase.ReachedLine | src/dao/models/cartDAO.js:94-96 | A line that got a decision was reached with no product missing, after exactly one decision per earlier line, and its product is stored |
| Purchase.CheckoutDecision | src/dao/models/cartDAO.js:95-103 | Line i is bought exactly when its product's stock at that moment (the original stock minus the earlier purchased lines of that product) covers its quantity |
| Purchase.NothingFulfillable | src/dao/models/cartDAO.js:94-104 | When no line can be fulfilled, nothing is bought or written, the total is 0, and every line stays behind |
| Purchase.TwoLineExample | src/dao/models/cartDAO.js:94-104 | X (stock 5, price 10) × 3 is bought and Y (stock 1, price 20) × 2 is not: total 30, X left with 2, Y with 1 |
| Carts.CartDAO.PurchaseCart | src/dao/models/cartDAO.js:86-120 | A missing cart fails with nothing changed. Otherwise the product table becomes the walk's table. A missing product fails with no ticket and the cart untouched. Otherwise exactly one ticket (code, total, user) is appended, the cart becomes the not-purchased lines, and those lines are returned |
| Carts.CartDAO.WalkLines | src/dao/models/cartDAO.js:92-104 | The loop leaves exactly the walk Checkout's table, purchased and not-purchased lines, total and missing product, and keeps the product collection consistent |
| Carts.CartDAO.CheckLine | src/dao/models/cartDAO.js:95-103 | One iteration is one Step of the walk: a missing product is reported with nothing written; otherwise the line is recorded as bought, with the lowered stock written and price × quantity reported, or as not bought |
| Carts.CartDAO.constructor | src/dao/models/cartDAO.js:6-9 | No carts; the given product and ticket collections |
| Carts.CartDAO.CreateCart | src/dao/models/cartDAO.js:11-22 | A new cart with exactly the given lines is stored under a fresh id; other carts are unchanged |
| Carts.CartDAO.GetCartById | src/dao/models/cartDAO.js:24-34 | The stored cart exactly when the id is stored, else nothing |
| Carts.CartDAO.AddProductToCart | src/dao/models/cartDAO.js:36-50 | A missing cart fails; otherwise the cart's lines become AddLine of the old lines and that cart is returned |
| Carts.CartDAO.DeleteProductFromCart | src/dao/models/cartDAO.js:52-58 | A missing cart fails; otherwise the cart's lines become RemoveLines of the old lines |
| Carts.CartDAO.UpdateCart | src/dao/models/cartDAO.js:60-65 | A missing cart fails; otherwise the cart's lines are replaced by the given ones |
| Carts.CartDAO.UpdateQuantity | src/dao/models/cartDAO.js:67-78 | A missing cart fails; with no line for the product nothing is saved and nothing returned; otherwise SetQuantity is saved and returned |
| Carts.CartDAO.EmptyCart | src/dao/models/cartDAO.js:80-84 | A missing cart fails; otherwise the cart has no lines |
| CartLines.FindLine | src/dao/models/cartDAO.js:38-40 | `findIndex` of the first line for the product; its properties are those of Seqs.IndexOf |
| CartLines.QtyOf | src/dao/models/cartDAO.js:42-46 | The total quantity a cart's lines request of one product, the measure in which the cart edits and the stock decrements are stated |
| CartLines.AddLine | src/dao/models/cartDAO.js:38-46 | With a line for the product, only that first line changes and its quantity grows by q, with the same length. With none, one line `{product, q}` is appended |
| CartLines.AddLineQuantities | src/dao/models/cartDAO.js:42-46 | The quantity requested of the product grows by exactly q; every other product's stays the same |
| CartLines.AddLineKeepsOneLinePerProduct | src/dao/models/cartDAO.js:42-46 | Merging instead of appending keeps at most one line per product |
| CartLines.RemoveLines | src/dao/models/cartDAO.js:54-56 | No line for the product remains; every other line is kept with its multiplicity |
| CartLines.RemoveLinesIdempotent | src/dao/models/cartDAO.js:54-56 | Removing twice is removing once; a cart with no line for the product is left as it is |
| CartLines.QtyOfKept | src/dao/models/cartDAO.js:54-56 | Dropping the lines for one product leaves the quantity requested of every other product |
| CartLines.RemoveLinesQuantities | src/dao/models/cartDAO.js:54-56 | Nothing of the product is requested afterwards; other products' quantities are unchanged |
| CartLines.SetQuantity | src/dao/models/cartDAO.js:69-77 | No result exactly when no line has the product; otherwise only the first such line changes, to quantity q |
| CartLines.SetQuantityQuantities | src/dao/models/cartDAO.js:73-74 | With one line per product, after the update exactly q of the product is requested |
| Tickets.TicketStore.Issue | src/dao/models/cartDAO.js:106-111 | Appends exactly one ticket (code, amount, purchaser) and keeps codes distinct |
| Tickets.TicketStore.constructor | src/dao/models/cartDAO.js:106-111 | An empty ticket collection, with distinct codes |
| Products.ProductDAO.constructor | src/dao/models/productDAO.js:5-8 | An empty, consistent collection |
| Products.ProductDAO.Documents | src/dao/models/productDAO.js:37-38 | The stored products in natural order (modelled as insertion order), each stored product exactly once |
| Products.ProductDAO.CreateProduct | src/dao/models/productDAO.js:10-14 | Stores the product with the given fields under a fresh id, appended to the natural order |
| Products.ProductDAO.GetProductById | src/dao/models/productDAO.js:16-18 | A product exactly when the id is stored, and it carries that id |
| Products.ProductDAO.UpdateProduct | src/dao/models/productDAO.js:70-74 | The fields in the patch override the stored ones and the new product is returned; an unknown id changes nothing and returns nothing |
| Products.ProductDAO.DeleteProduct | src/dao/models/productDAO.js:76-78 | Removes the product and returns it, or returns nothing; the natural order loses exactly that id |
| Products.Patched | src/dao/models/productDAO.js:70-74 | The record `findByIdAndUpdate(id, patch, { new: true })` returns: each field present in the patch replaces the stored one, the id and the absent fields stay |
| Products.StockPatchOnlyStock | src/dao/models/cartDAO.js:98 | `updateProduct(id, { stock })` changes the stock and nothing else |
| Products.PatchesCompose | src/dao/models/productDAO.js:70-74 | Two updates equal one update with the fields merged (later fields win); repeating an update changes nothing |
| Pagination.SortOrderOf | src/dao/models/productDAO.js:28-35 | No sort value or an empty one sorts by id descending; "asc" and "desc" sort by price; any other value leaves the order alone |
| Pagination.Matching | src/dao/models/productDAO.js:22-26 | All products with no query or an empty one, otherwise exactly those whose category is the query |
| Pagination.Insert | src/dao/models/productDAO.js:39 | Inserts a product before the first one whose key is not smaller; InsertSorted and InsertAddsOne state its properties |
| Pagination.Sort | src/dao/models/productDAO.js:39 | `.sort(sortOptions)` as a stable insertion sort by the order's key; SortSorted states its properties |
| Pagination.Skip | src/dao/models/productDAO.js:21 | `(page - 1) * limit` with the defaults 10 and 1 applied |
| Pagination.Window | src/dao/models/productDAO.js:40-41 | `.skip(skip).limit(limit)`: the products after the first `skip`, at most `limit` of them; PageIsWindow states it |
| Pagination.CeilDiv | src/dao/models/productDAO.js:45 | `Math.ceil(n / d)` by repeated subtraction; CeilDivIsCeiling states it |
| Pagination.Paginate | src/dao/models/productDAO.js:45-67 | The record returned around one page: flags, neighbour pages and links; NeighbourPages and ListingLinks state it |
| Pagination.Link | src/dao/models/productDAO.js:57-66 | `/api/products?limit=…&page=…&sort=…&query=…`; LinkRoundTrip states that it parses back |
| Pagination.GetAllProducts | src/dao/models/productDAO.js:20-68 | At most `limit` documents, and the page number echoed back (defaults 10 and 1 applied) |
| Pagination.InsertSorted | src/dao/models/productDAO.js:28-39 | Inserting into a sorted list keeps it sorted |
| Pagination.InsertAddsOne | src/dao/models/productDAO.js:28-39 | Inserting adds exactly that product and loses none |
| Pagination.SortSorted | src/dao/models/productDAO.js:28-39 | The result is in the requested order and is a permutation of the input |
| Pagination.SortUnsortedKeepsOrder | src/dao/models/productDAO.js:29-32 | A truthy sort value other than "asc"/"desc" keeps the natural order |
| Pagination.TimesIsProduct | src/dao/models/productDAO.js:21 | The repeated addition used for `(page - 1) * limit` is the product |
| Pagination.CeilDivIsCeiling | src/dao/models/productDAO.js:45 | `Math.ceil(n / d)` is the least k with k·d ≥ n, and 0 exactly when n is 0 |
| Pagination.PageIsWindow | src/dao/models/productDAO.js:21-41 | The page is the block of the ordered products starting after (page − 1)·limit of them, of length min(limit, what is left) |
| Pagination.OrderedIsPermutation | src/dao/models/productDAO.js:37-43 | The ordered listing holds exactly the products matching the query, as the count does |
| Pagination.TotalPagesIsCeiling | src/dao/models/productDAO.js:43-45 | totalPages is the fewest pages of `limit` holding every matching product, and 0 exactly when none matches |
| Pagination.NeighbourPages | src/dao/models/productDAO.js:46-53 | hasPrevPage iff page > 1; hasNextPage iff page < totalPages; prevPage and nextPage are page − 1 and page + 1 exactly when their flags hold |
| Pagination.PageNonEmptyIff | src/dao/models/productDAO.js:21-41 | A page holds a product exactly when its skip count is below the number of matching products |
| Pagination.NextPageNonEmpty | src/dao/models/productDAO.js:21-47 | hasNextPage holds exactly when the next page holds a product |
| Pagination.DocsMatchQuery | src/dao/models/productDAO.js:24-26 | Every listed product is one of the products listed from, and with a truthy query it is in that category |
| Pagination.ListingFromStore | src/dao/models/productDAO.js:37-41 | Listing the store's own documents lists only stored products, each exactly as stored under its id |
| Pagination.DocsInOrder | src/dao/models/productDAO.js:28-39 | "asc" gives ascending price, "desc" descending price, no sort gives id descending, and any other value keeps natural order |
| Pagination.PagesUpToIsPrefix | src/dao/models/productDAO.js:21-41 | Pages 1..n concatenated are the first n·limit ordered products |
| Pagination.PagesAreWindows | src/dao/models/productDAO.js:21-41 | Page k is the k-th block of `limit` ordered products |
| Pagination.PagesCoverListing | src/dao/models/productDAO.js:21-45 | Pages 1..totalPages concatenated are the whole ordered listing |
| Pagination.LaterPagesEmpty | src/dao/models/productDAO.js:21-45 | Every page after totalPages is empty |
| Pagination.LinkRoundTrip | src/dao/models/productDAO.js:57-66 | A link parses back to the limit and page it was built from, followed by the sort and query text |
| Pagination.ListingLinks | src/dao/models/productDAO.js:57-66 | prevLink/nextLink exist exactly with their flags and point to page − 1 and page + 1 with the same limit, sort and query |
| Decimal.Digits | src/dao/models/productDAO.js:58-60 | A number renders as one or more decimal digits, with no leading zero |
| Decimal.DigitsRoundTrip | src/dao/models/productDAO.js:58-60 | A rendered number reads back as itself |
| Decimal.DigitsInjective | src/dao/models/productDAO.js:58-60 | Different numbers render differently |
| Decimal.SpanDigitsOf | src/dao/models/productDAO.js:58-60 | Reading digits stops exactly where the rendered number ends |
| Seqs.IndexOf | src/dao/models/cartDAO.js:38-40 | `findIndex`: the first index whose element satisfies the test, and none exactly when no element does |
| Seqs.Find | src/dao/models/userDAO.js:105 | `find`: an element that satisfies the test with no satisfying element before it (the element at IndexOf's index), and nothing exactly when no element satisfies the test |
| Seqs.Filter | src/dao/models/cartDAO.js:54-56 | `filter`: the result is no longer than the input and every kept element satisfies the test |
| Seqs.FilterCounts | src/dao/models/cartDAO.js:54-56 | Each element satisfying the test is kept as often as it occurs, and no other element is kept |
| Seqs.FilterConcat | src/dao/models/cartDAO.js:54-56 | Filtering distributes over concatenation, which fixes the order of what is kept |
| Seqs.FilterIdempotent | src/dao/models/userDAO.js:93 | Filtering twice by the same test is filtering once |
| Seqs.FindFilter | src/dao/models/userDAO.js:93 | Filtering keeps the first element satisfying a stronger test |
| Seqs.SelectPartition | src/dao/models/cartDAO.js:99-102 | Splitting lines by their decisions loses and invents nothing |
| Users.NewUser | src/dao/models/userDAO.js:34 | `{ _id, ...userData }` has the given fields plus `_id`; the given fields win, and `_id` is the new id unless the data has one |
| Users.NewUserIdOverridden | src/dao/models/userDAO.js:34 | An `_id` in the given data replaces the generated one |
| Users.FindById | src/dao/models/userDAO.js:55-56 | The first record whose `_id` is that string; nothing exactly when no record has it |
| Users.FindByEmail | src/dao/models/userDAO.js:65-66 | The first record whose `email` is that string; nothing exactly when no record has it |
| Users.UpdateById | src/dao/models/userDAO.js:77-82 | No result exactly when no record has the id; otherwise only the first such record changes, to `{ ...record, ...patch }`, and the length is kept |
| Users.DeleteById | src/dao/models/userDAO.js:92-93 | No record with the id remains; every other record is kept with its multiplicity |
| Users.TokenThrows | src/dao/models/userDAO.js:105 | A record whose `resetToken` is absent or null, on which `user.resetToken.token` throws |
| Users.TokenIs | src/dao/models/userDAO.js:105 | `user.resetToken.token === token`: only an object `resetToken` with that string `token` matches |
| Users.FindByResetToken | src/dao/models/userDAO.js:104-105 | A found record is stored and its `resetToken.token` is the token |
| Users.CreateThenFind | src/dao/models/userDAO.js:33-37 | After appending a record with a fresh id (not overridden by the data), looking that id up finds it |
| Users.UpdateThenFind | src/dao/models/userDAO.js:77-84 | After an update that does not touch `_id`, the record is still found; the patched fields hold their new values and the rest are unchanged |
| Users.DeleteThenFind | src/dao/models/userDAO.js:92-95 | After a delete the id is not found, and deleting again changes nothing |
| Users.DeleteKeepsOthers | src/dao/models/userDAO.js:92-95 | Deleting one id does not change the lookup of another |
| Users.ResetTokenFails | src/dao/models/userDAO.js:104-105 | The lookup throws exactly when a record without `resetToken` (absent or null) is reached before a match |
| Users.ResetTokenFindsFirst | src/dao/models/userDAO.js:104-105 | Whenever the lookup does not throw, it yields the first record whose token matches, or nothing when none does; records after the match are never reached |
| Users.ResetTokenNeverThrows | src/dao/models/userDAO.js:104-105 | With a `resetToken` on every record the lookup never throws, and so finds the first match |
| Users.UserDAO.constructor | src/dao/models/userDAO.js:10-24 | A file that does not exist starts as `[]`; an existing file is kept |
| Users.UserDAO.GetAllUsers | src/dao/models/userDAO.js:46 | The stored array, or `[]` when reading yields nothing |
| Users.UserDAO.CreateUser | src/dao/models/userDAO.js:33-37 | Appends exactly one record `{ _id: id, ...data }` and returns it; earlier records are unchanged |
| Users.UserDAO.GetUserById | src/dao/models/userDAO.js:55-56 | The first stored record with that `_id` (no earlier record has it), as `users.find` returns; nothing exactly when no record has it |
| Users.UserDAO.GetUserByEmail | src/dao/models/userDAO.js:65-66 | The first stored record with that email (no earlier record has it), as `users.find` returns; nothing exactly when no record has it |
| Users.UserDAO.UpdateUserById | src/dao/models/userDAO.js:77-84 | With no match nothing is written and nothing returned; otherwise the array after UpdateById is written and the merged record returned |
| Users.UserDAO.DeleteUserById | src/dao/models/userDAO.js:92-95 | Writes the array without the records with that id and returns true every time |
| Users.UserDAO.GetUserByResetToken | src/dao/models/userDAO.js:104-105 | A found record is stored and carries the token; whenever the lookup does not throw, its result is the first matching stored record, or nothing when none matches |

## Left out

- Storage engines: MongoDB (queries, `populate`, `markModified`, `save`, schemas, timestamps, ObjectId) and the file-system manager. The file-system manager is not part of this model. The collections are maps and sequences, and a users file is represented by what reading it yields.
- The MongoDB branch of `UserDAO` (src/dao/models/userDAO.js:29-31, 43-44, 52-53, 62-63, 72-75, 89-90, 101-102): it only passes the call to the store.
- Logging (`console.log`/`console.error`) and the `try`/`catch` blocks that log an error and throw it again.
- Asynchrony and concurrency. The checkout reads the stock and then writes it as two separate steps (src/dao/models/cartDAO.js:95-98), with no atomicity. The model runs one call after another and claims nothing about interleaved purchases.
- Generated values: `uuidv4()` for a user id or ticket code, and a new document's id, are arguments with a "not yet used" requirement.
- Product ids are natural numbers and are compared as values. The source compares `_id.toString()` with a request string.
- Numbers are unbounded integers. There are no floating-point prices or quantities, no string quantities (which `+=` would concatenate) and no negative-quantity checks (the source makes none). Numbers in links are rendered as plain decimals.
- Pagination.GetAllProducts: requires a limit and page of at least 1 after the defaults. A zero, negative, non-integer or string limit or page (which the source would turn into `Infinity`, `NaN` or a negative skip) is not modelled.
- Products.ProductDAO.Documents: MongoDB's natural order is not guaranteed to be insertion order; the model fixes it as insertion order, so what an unrecognised sort value (Pagination.SortUnsortedKeepsOrder) and ties in a sort return depends on that choice.
- Pagination.SortSorted: the sort is a stable insertion sort. Among equal prices the store's tie order is unspecified; the model keeps the natural order.
- Product fields other than title, category, price and stock are not modelled. The patch of `updateProduct` covers only those four.
- Users: record fields are JSON values. Lookups compare a field with a string using `===`. A lookup with a non-string key is not modelled.
- Users.FindByResetToken: its own contract states only that a found record is stored and carries the token. The first-match property is stated by Users.ResetTokenFindsFirst (for every lookup that does not throw) and the throwing case by Users.ResetTokenFails.
- Carts.CartDAO.PurchaseCart: when a product is missing, the model reports failure after the earlier stock writes. It does not model the unhandled `TypeError` itself.
