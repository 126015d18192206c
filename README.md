# E-commerce dashboard: order totals, slice reducers, user-delete cascade, status lock

A Dafny model of the data layer of a small Redux dashboard over three remote collections (users,
products, orders). It covers:

- the order total: a left fold over an order's product ids. Each occurrence adds the price of the
  first product with that id, or 0 when no product has it. The model proves this equals the sum over
  occurrences, plus the facts that follow from that;
- the enrichment `fetchOrders` applies to the fetched orders, and the records that `addOrder` and
  `updateOrder` send;
- the reducers of the orders, products and users slices. These are classes whose methods change the
  list and the flags in place. They append, replace the first entry with a matching id, remove every
  entry with an id, and set the loading and error flags;
- the `deleteUser` cascade, run against an in-memory remote store (`Remote.RemoteStore`). The store
  holds three id-keyed maps and a fixed oracle of requests that fail with a network error. The same
  store is used by the product update/delete thunks and their 404 error mapping. Its invariant
  (`Valid`) is that every record is stored under its own id, so deleting the key of a listed order is
  deleting `/orders/${order.id}`;
- the order-status popover: the five status options, the lock on `delivered`/`cancelled`, and the
  change handler.

Files: `wrappers.dfy` (Option, Result), `lists.dfy` (findIndex, filter and their lemmas),
`entities.dfy` (records and the id tests passed to findIndex/filter), `remote.dfy` (HTTP error shape,
reject messages, the store), `orders.dfy`, `order_status.dfy`, `products.dfy`, `users.dfy`.

## Behaviour as written

- Loading orders does not prune product ids that no product carries. `EnrichOrders` keeps every
  `productIds` unchanged, and such ids contribute 0 to the total.
- Deleting a product touches only the products collection. Orders that reference it are left as they
  are (`Products.DeleteProduct` ensures `store.orders` is unchanged).
- `deleteUser` issues the delete of every listed order. `Promise.all` starts them all, so the model
  attempts every one, in an arbitrary order. Only then does it reject if any of them failed. So once every
  issued delete has finished, exactly the listed orders whose delete did not fail are gone, and the
  user is untouched. (`Promise.all` rejects at the first failure in time, while other deletes may still
  be in flight; the model describes the store after they have all settled.) The user delete is issued
  only when every order delete succeeded.
- The status lock exists only in the popover. `updateOrderStatus` itself patches any status.

## Model

| member | source | states |
|---|---|---|
| Lists.FindIndex | src/features/orders/ordersSlice.js:82 | -1 exactly when no element matches; otherwise the index of a matching element with no match before it |
| Lists.Filter | src/features/products/productsSlice.js:98 | the result holds exactly the elements of the input that pass the test, and is no longer than the input |
| Lists.FilterIsSubsequence | src/features/products/productsSlice.js:98 | filtering keeps the relative order of the kept elements (the result is a subsequence) |
| Lists.FilterConcat | src/features/users/usersSlice.js:86 | filtering a concatenation is the concatenation of the filtered parts |
| Lists.FilterIdempotent | src/features/users/usersSlice.js:86 | filtering again with the same test changes nothing |
| Lists.FilterKeepsAll | src/features/products/productsSlice.js:98 | when every element passes, the filter returns its input unchanged |
| Orders.PriceOf | src/features/orders/ordersSlice.js:13-14 | one occurrence adds the price of the first product with that id, and 0 when no product has it |
| Orders.FoldTotal | src/features/orders/ordersSlice.js:12-15 | the reduce started at t yields t plus the sum over occurrences |
| Orders.TotalPrice | src/features/orders/ordersSlice.js:9-16 | calculateTotalPrice equals the sum, over each occurrence of an id, of that id's first-match price or 0 |
| Orders.SumConcat | src/features/orders/ordersSlice.js:12-15 | the total of a concatenation is the sum of the totals of its parts |
| Orders.SumAppend | src/features/orders/ordersSlice.js:12-15 | appending an id adds exactly what that id contributes |
| Orders.UnknownIdAddsNothing | src/features/orders/ordersSlice.js:14 | an id no product has raises no error, and appending it leaves the total unchanged |
| Orders.KnownIdAddsPrice | src/features/orders/ordersSlice.js:13-14 | appending the id of the first product carrying it adds exactly that product's price |
| Orders.TotalNonNegative | src/features/orders/ordersSlice.js:12-15 | with no negative price, no total is negative |
| Orders.TotalDependsOnOccurrences | src/features/orders/ordersSlice.js:12-15 | duplicates count once per occurrence: two id sequences with the same multiset have the same total |
| Orders.TwoOfOneAndOneOfTwo | src/features/orders/ordersSlice.js:12-15 | with products 1 and 2 priced 10 and 20, ids [1, 2, 1] total 40 |
| Orders.WithTotal | src/features/orders/ordersSlice.js:53-58 | the record updateOrder sends is the input with totalPrice set to the sum and every other field unchanged |
| Orders.EnrichOrders | src/features/orders/ordersSlice.js:27-33 | same length and order as the fetched orders; each element is the original with only totalPrice set, so productIds are not pruned |
| Orders.EnrichIdempotent | src/features/orders/ordersSlice.js:27-33 | enriching twice against the same products gives what enriching once gives |
| Orders.NewOrderRecord | src/features/orders/ordersSlice.js:46-51 | the record addOrder sends is the input plus the summed totalPrice and the given createdAt, all else unchanged |
| Orders.OrdersState.constructor | src/features/orders/ordersSlice.js:62-66 | empty list, not loading, nothing selected |
| Orders.OrdersState.SelectOrder | src/features/orders/ordersSlice.js:68-70 | selectedOrder becomes the payload; nothing else changes |
| Orders.OrdersState.FetchOrdersPending | src/features/orders/ordersSlice.js:74-76 | loading becomes true; list and selection unchanged |
| Orders.OrdersState.FetchOrdersFulfilled | src/features/orders/ordersSlice.js:77-80 | loading false and the list replaced by the payload |
| Orders.OrdersState.UpdateOrderStatusFulfilled | src/features/orders/ordersSlice.js:81-89 | only the first order with the payload's id is replaced, length kept, nothing changes on no match; the selection is replaced only on a match and when its id equals the payload's |
| Orders.OrdersState.AddOrderFulfilled | src/features/orders/ordersSlice.js:90-92 | the payload is appended; the length grows by one and the prefix is unchanged |
| Orders.OrdersState.UpdateOrderFulfilled | src/features/orders/ordersSlice.js:93-101 | the same first-match replacement and selection rule as for a status update |
| OrderStatus.StatusOf | src/features/orders/ordersStatus.jsx:46 | a key finds the option whose key it is, and finds nothing when no option has that key |
| OrderStatus.OptionsAreExactlyTheStatuses | src/features/orders/ordersStatus.jsx:13-39 | there are exactly five options with distinct keys and distinct labels, and every status is found under its own key |
| OrderStatus.IsLocked | src/features/orders/ordersStatus.jsx:45 | locked exactly when the status is delivered or cancelled |
| OrderStatus.LockedStatuses | src/features/orders/ordersStatus.jsx:45 | of the five options, exactly Delivered and Cancelled are locked |
| OrderStatus.HandleChange | src/features/orders/ordersStatus.jsx:48-56 | dispatches exactly when unlocked and the target differs from the current status; the dispatch carries the order's id and the target key; the popover ends closed |
| OrderStatus.ClickOption | src/features/orders/ordersStatus.jsx:65 | for an order whose status is an option key (the only orders the popover renders for), a locked order's options have no handler, so a click changes nothing; otherwise the click is handleChange |
| OrderStatus.LockedNeverDispatches | src/features/orders/ordersStatus.jsx:45-65 | a locked order never dispatches, for every target including the current status |
| OrderStatus.SameStatusNeverDispatches | src/features/orders/ordersStatus.jsx:49-52 | choosing the current status never dispatches |
| OrderStatus.AnyUnlockedReachesAnyOther | src/features/orders/ordersStatus.jsx:54-65 | from any unlocked status, every other status is one click away; the click dispatches one change and closes the popover |
| Remote.ServerMessage | src/features/users/usersSlice.js:39 | the response body's message when there is a response, and none when there is not |
| Remote.RejectMessage | src/features/users/usersSlice.js:20 | the server's message when it is non-empty, otherwise the client error's message |
| Remote.RemoteStore.ReplyFor | src/features/users/usersSlice.js:33-36 | a request succeeds exactly when the id is stored and the request is not faulty; a faulty one fails with a network error, a missing id with 404 |
| Remote.RemoteStore.ListOrdersOfUser | src/features/users/usersSlice.js:29-30 | the listing yields exactly the ids of the stored orders owned by the user, or a network error |
| Remote.RemoteStore.RemoveOrder | src/features/users/usersSlice.js:33 | the order is removed exactly when the delete succeeds; otherwise the orders are unchanged |
| Remote.RemoteStore.RemoveUser | src/features/users/usersSlice.js:36 | the user is removed exactly when the delete succeeds; otherwise the users are unchanged |
| Remote.RemoteStore.RemoveProduct | src/features/products/productsSlice.js:47 | the product is removed exactly when the delete succeeds; otherwise the products are unchanged |
| Remote.RemoteStore.ReplaceProduct | src/features/products/productsSlice.js:31 | the stored product is fully replaced exactly when the PUT succeeds |
| Products.ProductRejectMessage | src/features/products/productsSlice.js:34-38 | status 404 yields "Product not found"; otherwise the server message if non-empty, else the error message |
| Products.NotFoundWinsOverServerMessage | src/features/products/productsSlice.js:35-36 | a 404 yields the not-found text even when the server sent a message |
| Products.NoReplyYieldsClientMessage | src/features/products/productsSlice.js:37 | a failure with no response yields the client-side message |
| Products.WithoutProduct | src/features/products/productsSlice.js:98 | no product with the id remains; exactly the others remain, in their relative order |
| Products.WithoutProductIdempotent | src/features/products/productsSlice.js:98 | deleting the same id twice equals deleting it once |
| Products.WithoutAbsentProduct | src/features/products/productsSlice.js:98 | deleting an id no product has changes nothing |
| Products.UpdateProduct | src/features/products/productsSlice.js:27-41 | resolves exactly when the product is stored and the request is not faulty, replacing it; a missing id rejects with "Product not found"; orders and users are untouched |
| Products.DeleteProduct | src/features/products/productsSlice.js:43-57 | resolves to the id exactly when the delete succeeds; a missing id rejects with "Product not found"; orders and users are not modified |
| Products.ProductsState.constructor | src/features/products/productsSlice.js:61-65 | no products, not loading, no error |
| Products.ProductsState.ClearError | src/features/products/productsSlice.js:67-69 | error becomes null; nothing else changes |
| Products.ProductsState.FetchProductsPending | src/features/products/productsSlice.js:73-76 | loading true and error null |
| Products.ProductsState.FetchProductsFulfilled | src/features/products/productsSlice.js:77-80 | loading false and products replaced by the payload |
| Products.ProductsState.FetchProductsRejected | src/features/products/productsSlice.js:81-84 | loading false and error non-null: the payload if non-empty, else the error's message |
| Products.ProductsState.AddProductFulfilled | src/features/products/productsSlice.js:86-88 | exactly one product appended at the end; the existing ones unchanged |
| Products.ProductsState.UpdateProductFulfilled | src/features/products/productsSlice.js:90-95 | only the first product with the payload's id is replaced, the length is kept, and nothing changes on no match |
| Products.ProductsState.DeleteProductFulfilled | src/features/products/productsSlice.js:97-99 | no product with that id remains, and the rest keep their relative order |
| Users.DeleteUser | src/features/users/usersSlice.js:25-42 | resolves exactly when the listing and every owned-order delete succeed and then the user delete succeeds; on success no order of the user and no user with the id remain; on any failure the user is untouched; other users' orders and the products are unchanged |
| Users.WithoutUser | src/features/users/usersSlice.js:86 | no user with the id remains; exactly the others remain, in their relative order |
| Users.WithoutUserIdempotent | src/features/users/usersSlice.js:86 | removing the same user twice equals removing it once |
| Users.UsersState.constructor | src/features/users/usersSlice.js:47-53 | empty list, not loading, no error, empty search term and role filter |
| Users.UsersState.SetSearchTerm | src/features/users/usersSlice.js:55-57 | only searchTerm changes |
| Users.UsersState.SetRoleFilter | src/features/users/usersSlice.js:58-60 | only roleFilter changes |
| Users.UsersState.ClearUserError | src/features/users/usersSlice.js:61-63 | only error changes, to null |
| Users.UsersState.FetchUsersPending | src/features/users/usersSlice.js:67-69 | loading true; nothing else changes |
| Users.UsersState.FetchUsersFulfilled | src/features/users/usersSlice.js:70-73 | loading false and the list replaced by the payload |
| Users.UsersState.FetchUsersRejected | src/features/users/usersSlice.js:74-77 | loading false and the thunk's error recorded; the list is unchanged |
| Users.UsersState.UpdateUserFulfilled | src/features/users/usersSlice.js:78-81 | only the first user with the payload's id is replaced; nothing changes on no match |
| Users.UsersState.UpdateUserRejected | src/features/users/usersSlice.js:82-84 | error set to the rejection value; the list is unchanged |
| Users.UsersState.DeleteUserFulfilled | src/features/users/usersSlice.js:85-87 | every user with that id is removed; the others keep their order |
| Users.UsersState.DeleteUserRejected | src/features/users/usersSlice.js:88-90 | error set to the rejection value; the list is unchanged |

## Left out

- HTTP transport, axios and the base URLs read from the environment. Only the requests the cascade
  and the product update/delete make go through the in-memory store. The other thunks (fetchOrders,
  fetchProducts, fetchUsers, addOrder, updateOrder, updateOrderStatus, addProduct, updateUser) are
  modelled by their pure parts only: the total, the enrichment and the record building. The server's
  reply reaches the model as the payload of a reducer.
- `Promise.all` concurrency in `fetchOrders` and `deleteUser` is run as sequential steps. In
  `deleteUser` the order deletes run in an arbitrary order, and every one is attempted.
- Prices are `int`. JavaScript floating-point addition is not modelled.
- `new Date().toISOString()` is replaced by the `now` parameter of `NewOrderRecord`.
- Redux Toolkit and Immer internals, and the `createAsyncThunk` lifecycle. Each reducer case is a
  method of the slice's state class, and each thunk's result is a `Result`.
- Ids are one integer type. The `String(...)` coercion in the order form is not modelled.
- An order whose status is none of the five option keys: the badge's lookup finds no option and the
  popover fails to render, so it has no options to click. The model does not represent the failed
  render; `ClickOption` requires a status that is an option key.
- The popover's icons, colors and `onOpenChange` wiring are not modelled. Only the option keys and
  labels, the lock, and the handler are.
- `fetchUsers.rejected` stores the serialized error object. The model keeps its message only.
- src/features/orders/ordersForm.jsx, src/App.jsx and mock-api/server.js are rendering, routing and
  server wiring with no logic of their own.
- Users.DeleteUser: the ensures does not say which failure's message the rejection carries. The model
  uses the first failure it meets, whereas `Promise.all` uses the first failure in time.
- Products.UpdateProduct: for a request that fails without a 404, the ensures does not state the
  rejection text. `ProductRejectMessage` states it.
- Products.DeleteProduct: the same holds for its non-404 rejection text.
