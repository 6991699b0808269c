# A verified model of the cart microservice

The cart service keeps shopping carts in two relational tables, `carts` and
`line_items`, and serves them over gRPC. It has three layers:

- `Storage` (storage.go) runs the SQL statements. Most operations run in one
  transaction that commits or rolls back.
- `Carts` (cart.go) is the business layer. It hands its arguments to the
  store and returns the store's results, errors included.
- `Server` (rpc.go) holds the gRPC handlers. They check the request, call
  `Carts`, convert domain carts to their wire form and map errors to status
  codes.

The model has five modules:

- `Domain` (`domain.dfy`) holds the values of cart.go: `LineItem`, `Cart`,
  the not-found sentinel, and unsigned 32-bit quantities with wrap-around
  addition.
- `Tables` (`tables.dfy`) gives the meaning of each SQL statement as a pure
  function over the rows: lookup by (cart, product), insert, update, delete
  by pair, delete by cart, select by cart, and restamp of a cart row. It
  also holds `AddedProduct`, the specification of a committed AddProduct,
  and the lemmas about all of these.
- `Store` (`storage.dfy`) is the `Storage` class. Its fields are the two
  tables (carts as a map from cart ID to row, line items as a sequence
  where new rows go at the end and updated rows keep their place) and the
  cart ID sequence. A transaction works on local
  copies and writes them back at commit, so an early return is a rollback.
  Each method's `ensures` gives its new state as a function of the old one.
- `Service` (`service.dfy`) is the `Carts` class over a `Storage`.
- `Rpc` (`rpc.dfy`) holds the wire conversion and the `Server` class with
  its six handlers.

Store failures are a parameter. `Fault` says which numbered statement of an
operation fails, if any. Each statement is counted: begin, each query or
exec, reading the rows, commit.

Whether the database driver answers a statement that matches no row with
`sql.ErrNoRows` is the constant `noRowsWhenNoMatch` of the store.
`database/sql` does so only for `QueryRow`, but the code checks for it after
`Exec` and `Query` too (storage.go:114, 150, 192, 218, 253). The one flag
covers all of these: the model assumes the driver answers an `Exec` and a
`Query` that match no row alike. The model covers both kinds of driver. Some consequences:

- With such a driver, reading a cart that has no items gives not-found
  (storage.go:144-152).
- With such a driver, emptying an unknown cart gives not-found
  (storage.go:248-255).
- With either kind of driver, DeleteCart never reports not-found, because
  storage.go:208-224 swallows both no-row answers. The NotFound branch of
  the DeleteCart handler (rpc.go:103-105) therefore cannot be reached. The
  handler's contract states that every one of its failures is Internal.

Quantities are `uint32` in the source, and `li.Quantity += quantity`
(storage.go:85) wraps. `AddProductTwice` states the sum a line item holds
after two additions. It equals the plain sum only below 2^32.

The uniqueness of (cart, product) among line items is a class invariant of
`Storage` (`Valid`). No schema is part of the repository, so no
foreign key from `line_items` to `carts` is modelled. Line items may name a
cart that has no row.

## Model

| member | source | states |
|---|---|---|
| Domain.AddUint32 | storage.go:85 | quantity addition is the plain sum below 2^32 and the sum minus 2^32 at or above it; the result is smaller than the stored quantity exactly when the addition wrapped |
| Tables.FindRow | storage.go:18 | the first row of the pair, if there is one; no row of the pair before it; none at all when absent |
| Tables.Lookup | storage.go:18 | the quantity query finds a row of the table keyed by (cart, product), and finds nothing exactly when no row has that key |
| Tables.QueryLineItem | storage.go:36-50 | the quantity lookup fails exactly when the pair has no row, and then with the not-found sentinel; otherwise the item carries the product, the stored quantity and zero timestamps |
| Tables.Filter | storage.go:17 | a selection keeps exactly the rows that satisfy its condition and is never longer than the table |
| Tables.LinesByCartID | storage.go:17 | the cart's selection holds exactly the table's rows of that cart |
| Tables.CartLines | storage.go:158-164 | one scanned line item per selected row of the cart: item i has the product and quantity of the i-th selected row, and zero timestamps |
| Tables.CreateLineItem | storage.go:52-55 | the insert keeps every existing row and adds one row of the pair with the item's quantity and timestamps |
| Tables.UpdateLineItem | storage.go:57-60 | the update keeps the number of rows and every row's key and created_at; rows of the pair get the item's quantity and updated_at; other rows are unchanged |
| Tables.DeleteLineItem | storage.go:22 | the delete keeps exactly the rows that are not of the pair |
| Tables.DeleteCartItems | storage.go:23 | the delete keeps exactly the rows of other carts |
| Tables.AddedProduct | storage.go:68-96 | a committed AddProduct adds one row when the pair had none and keeps the row count otherwise; every old row keeps its key, and every row of another pair is unchanged |
| Tables.UpdateCartTS | storage.go:15 | the cart update keeps every cart; it sets only the updated_at of the named cart, keeping its user and created_at; every other cart is unchanged |
| Tables.FindRowSameKeys | storage.go:21 | an update that keeps every row's key finds the same row for the pair |
| Tables.LookupUnique | storage.go:18 | with unique keys, looking up a row's key finds that very row |
| Tables.LookupCons | storage.go:18 | a lookup finds the first row of the table when it has the key, otherwise it searches the rest |
| Tables.LookupAppend | storage.go:18-20 | after appending a row, a lookup finds the old row if there was one, else the appended row if it matches |
| Tables.UniqueCons | storage.go:68-96 | a table with a row in front has unique keys exactly when the rest does and the row's key is new |
| Tables.FilterAppend | storage.go:17-23 | selecting from two concatenated tables is the concatenation of the selections |
| Tables.FilterKeepsAll | storage.go:208-215 | a delete whose condition matches no row leaves the table as it was |
| Tables.FilterKeepsNone | storage.go:17 | a selection whose condition no row satisfies is empty |
| Tables.FilterKeepsUnique | storage.go:22-23 | deleting or selecting rows keeps keys unique |
| Tables.FilterLookup | storage.go:22-23 | a lookup of a pair that the delete's condition keeps gives the same row before and after the delete |
| Tables.FilterNarrow | storage.go:17-23 | a narrower selection of a selection is the narrower selection of the table |
| Tables.DeleteLineItemAgree | storage.go:22 | two tables that differ only in the rows of the pair are equal after the pair's row is deleted |
| Tables.AddProductInserts | storage.go:88-95 | with no row for the pair, AddProduct appends exactly one row, with the quantity and created_at = updated_at = now |
| Tables.AddProductAccumulates | storage.go:84-87 | with a row for the pair, AddProduct keeps the number of rows; the pair's row gets old quantity + quantity (wrapping), updated_at = now, and its created_at unchanged |
| Tables.AddProductFrame | storage.go:62-110 | AddProduct changes no row except that of the pair: deleting the pair from before and from after gives the same table, and every other pair looks up the same row |
| Tables.AddProductKeepsUnique | storage.go:68-96 | AddProduct inserts only when the pair has no row, so it keeps "at most one line item per (cart, product)" |
| Tables.AddProductTwice | storage.go:84-95 | adding a product twice to a cart without it leaves one row holding the wrapped sum of both quantities, created at the first and updated at the second call; below 2^32 that is the plain sum |
| Tables.DeleteLineItemEffect | storage.go:112-122 | deleting a product removes the pair's row and no other; with no row the table is unchanged; unique keys stay unique |
| Tables.DeleteCartItemsEffect | storage.go:190-200 | deleting a cart's items leaves the cart no rows; every other cart keeps its rows, its items and its lookups; unique keys stay unique |
| Tables.CartLinesExact | storage.go:144-164 | with unique keys, a cart's items contain (product, q) exactly when the table holds that pair's row with quantity q |
| Tables.CartLinesDistinct | storage.go:144-164 | with unique keys, no product appears twice among a cart's items |
| Tables.CartLinesAfterDelete | storage.go:17-23 | after its items are deleted, a cart reads back with no items |
| Store.DeleteLineItemsInTx | storage.go:190-200 | the in-transaction delete of a cart's items gives the table without them, or not-found exactly when the driver reports no match and the cart has no items, or another error when the statement fails |
| Store.Storage.constructor | storage.go:26-32 | a store over a fresh database has empty tables, a sequence starting at 1, and keeps its invariant |
| Store.Storage.Open | storage.go:26-32 | a store over a database that already holds rows has exactly those tables and sequence, and keeps its invariant when they satisfy it |
| Store.Storage.AddProduct | storage.go:62-110 | succeeds exactly when no statement fails; on success the line items become AddedProduct of the old ones; on failure the error is a store error and the line items are rolled back; carts and sequence never change |
| Store.Storage.DeleteProduct | storage.go:112-122 | a failing statement gives a store error; otherwise not-found exactly when the driver reports no match and the pair has no row; on success the pair's row is deleted; on failure nothing changes |
| Store.Storage.CartByID | storage.go:124-179 | not-found exactly when the cart has no row, or the driver reports no match for a cart with no items; on success the ID, the stored user and timestamps, and exactly the cart's line items in the model's row order; the zero cart beside every error |
| Store.Storage.CreateCart | storage.go:181-188 | on success, one cart row with the input's user and timestamps under an ID not used before; the input cart is returned with that ID; the sequence advances; line items never change; on failure the zero cart and a store error |
| Store.Storage.DeleteCart | storage.go:202-231 | succeeds exactly when no statement fails, even for a cart with no items or no row; on success the cart's items and row are gone and everything else stays; on failure a store error and nothing changes |
| Store.Storage.DeleteLineItems | storage.go:233-265 | on success the cart's items are gone and its row is kept with updated_at = now; not-found exactly when the driver reports no match for an unknown cart; on failure nothing changes |
| Service.NewCart | cart.go:85-92 | the cart Create hands to the store has the user's ID, created_at = updated_at = now, and no items |
| Service.Carts.constructor | cart.go:29-32 | the service holds the store it was given |
| Service.Carts.AddProduct | cart.go:52-59 | passes its arguments to the store unchanged and returns the store's error unchanged, with the store's effect |
| Service.Carts.DeleteProduct | cart.go:62-69 | passes its arguments to the store unchanged and returns the store's error unchanged, with the store's effect |
| Service.Carts.Cart | cart.go:72-82 | returns the store's cart, or the zero cart with the store's error; not-found passes through as the same sentinel |
| Service.Carts.Create | cart.go:85-101 | stores an empty cart for the user stamped now and returns exactly what the store returns, including the assigned ID; on failure the zero cart and the store's error |
| Service.Carts.Delete | cart.go:103-110 | passes the cart ID to the store and returns the store's error unchanged, with the store's effect |
| Service.Carts.Empty | cart.go:112-119 | passes the cart ID to the store and returns the store's error unchanged, with the store's effect |
| Rpc.ToProtoLineItem | rpc.go:17-22 | the wire line item has the product and quantity of the domain one |
| Rpc.ToProtoLineItems | rpc.go:24-32 | a list of the same length and order whose element i has the product and quantity of input i; an empty input gives an empty list |
| Rpc.ToProtoCart | rpc.go:34-51 | the wire cart copies ID, user and converted items, with both timestamps converted; an error exactly when either timestamp has no wire form |
| Rpc.CheckQuantity | rpc.go:65-67 | InvalidArgument exactly for a zero quantity |
| Rpc.InternalOnError | rpc.go:69-90 | every service error becomes Internal, and no error becomes no status |
| Rpc.NotFoundOrInternal | rpc.go:102-132 | the not-found sentinel becomes NotFound, every other error Internal, and no error becomes no status |
| Rpc.Server.constructor | rpc.go:58-61 | the server holds the service it was given |
| Rpc.Server.AddProduct | rpc.go:64-74 | a zero quantity gives InvalidArgument and changes nothing; otherwise the empty reply exactly when the store commits, with the line items becoming AddedProduct of the old ones; every other failure is Internal and changes nothing |
| Rpc.Server.DelProduct | rpc.go:77-83 | the empty reply exactly when the store deletes the pair's row; every failure, not-found included, is Internal and changes nothing |
| Rpc.Server.CreateCart | rpc.go:86-98 | the reply carries the new cart with the assigned ID, the user, no items and both timestamps converted; a store failure or a timestamp without wire form gives Internal; the cart row is stored whenever the store succeeds |
| Rpc.Server.DeleteCart | rpc.go:101-110 | the empty reply exactly when the store commits, with the cart's items and row gone; every failure is Internal and changes nothing |
| Rpc.Server.EmptyCart | rpc.go:113-122 | the empty reply exactly when the store empties the cart; NotFound exactly when the store reports not-found; any other failure Internal; a failure changes nothing |
| Rpc.Server.GetCart | rpc.go:125-140 | NotFound exactly when the store reports not-found; otherwise on success the wire cart holds the ID, the user, both converted timestamps and exactly the cart's items in the order the store returns them; every other failure Internal |

## Left out

- Concurrency: two requests that interleave can each read the same quantity and lose an update. The model runs one operation at a time, and each operation is atomic.
- The database itself: SQL text, connection handling, `context` cancellation and the statements' bookkeeping (`Rollback` errors and their logging). A store failure is a `Fault`; a failed rollback leaves the tables unchanged in the model, as the database does.
- Clocks: `time.Now()` is the `now` parameter of the operations that stamp rows.
- Timestamp conversion (`ptypes.TimestampProto`) is the `stamp` parameter; its range check is not modelled.
- Error messages: `fmt.Errorf` wrapping and `log.Printf` output. Only whether an error is the not-found sentinel is kept.
- int64 overflow of cart, user and product IDs and of the ID sequence: IDs are unbounded integers.
- The `storage` interface of cart.go:15-22 and its mock in cart_test.go: `Carts` works over the concrete `Storage`.
- The ID sequence is modelled as advancing only when the insert commits. A database sequence may also skip values on failure; this does not change what the code returns.
- Row order: the line items query (storage.go:17) has no ORDER BY, so the database promises no order, and an UPDATE need not keep a row's place. The model returns a cart's rows in one order the database may use: insertion order, with updated rows kept in place. No claim is made about the order a real database returns.
- cmd/cart/main.go and cmd/cartclient/cartclient.go are not part of this model.
- Rpc.Server.CreateCart: states that the reply's cart has no items. It does not state the proto-level distinction between a nil and an empty list, because sequences have no nil.
