# Order creation and product-info projection of the e-commerce platform

This project models the two pieces of the platform that hold logic:

- **`CreateOrder`** of the order service. It collects the product ids of the
  requested items and makes one `GetProductInfo` request to the inventory
  service. It builds an id → price map from the answer, where a later entry
  overwrites an earlier one. It then walks the caller's items left to right,
  writing each item's price into it in place and adding price × quantity to a
  running total. The first item whose product has no price stops the walk with
  `ErrNoPrice`. Otherwise a `PENDING` order with that total is handed to the
  order repository, and the repository's answer is returned. `GetOrderByID`
  returns whatever the repository's lookup returns.
- **`GetProductInfo`** of the inventory gRPC server. It turns the products the
  inventory service returns into `ProductInfo{Id, Name, Price}` records, one per
  product, in order, and passes a lookup error through unchanged.

Modules:

- `Base` holds `Option`, `Result` and the error kinds.
- `InventoryModel` and `OrderModel` hold the records.
- `InventoryGrpc` holds the projection and the server class.
- `OrderRepository` is an in-memory order store, standing for the repository
  interface.
- `OrderPricing` holds the functions that specify CreateOrder's loops, with
  their lemmas.
- `OrderService` holds the loops as methods, and the service class.

Collaborators whose code is not modelled are inputs:

- The inventory service's `GetProductsByIDs` and the order service's gRPC
  client are total functions from a request to a `Result`. Every contract
  names the exact request sent.
- What the repository decides for one insert is a `StorageIo` parameter: the
  uuid it generates for the order, the `created_at` and `updated_at` values the
  database returns for the new row, and whether the insert fails.
- A collaborator's error is its message; the order service reports it as
  `Failure(message)`, so `ErrNoPrice` only ever comes from the pricing step.

Prices and totals are exact `real`s. This abstracts float64 arithmetic.

The model keeps these behaviours of the code:

- Items are not validated: an empty list or a zero or negative quantity is
  accepted. An empty list gives total 0.
- The ids sent to the inventory service are the items' ids with duplicates
  kept, not a set.
- Errors from the inventory call and from the repository are returned with
  their message unchanged, not turned into new kinds.
- Items are priced in the caller's array. On `ErrNoPrice` the items before the
  failing one keep their new price.

## Model

| member | source | states |
|---|---|---|
| InventoryGrpc.Project | services/inventory/grpc/server.go:27-34 | one record per product, same length and order, each with the product's id, name and price |
| InventoryGrpc.ProjectIgnoresStockAndTimestamps | services/inventory/grpc/server.go:29-33 | stock quantity and timestamps do not reach the response: lists agreeing on id, name and price project alike |
| InventoryGrpc.ProjectEmpty | services/inventory/grpc/server.go:27-36 | an empty product list gives an empty response |
| InventoryGrpc.Server.constructor | services/inventory/grpc/server.go:14-18 | the server keeps the inventory service it is given |
| InventoryGrpc.Server.GetProductInfo | services/inventory/grpc/server.go:20-37 | a lookup error is returned unchanged with no response; otherwise the response is the projection of the returned products |
| OrderRepository.Stamp | services/order/repository/postgres/order_pg_repo.go:24-30 | the order as stored: the generated uuid as its id, and the `created_at` and `updated_at` the insert returns |
| OrderRepository.FindById | services/order/repository/order_repo.go:10 | finds the most recently stored order with the id; ErrNoRows exactly when no stored order has it |
| OrderRepository.FindAfterStore | services/order/repository/order_repo.go:9-10 | after storing an order, a lookup of its id finds it, and lookups of other ids are unchanged |
| OrderRepository.OrderStore.Create | services/order/repository/order_repo.go:9 | stores the order with the generated id and timestamps and returns it; a storage fault is returned and nothing is stored |
| OrderRepository.OrderStore.FindByID | services/order/repository/order_repo.go:10 | returns the lookup result over the stored orders |
| OrderPricing.ProductIds | services/order/service/order_service.go:40-43 | the ids sent are exactly the items' product ids, in item order, duplicates kept |
| OrderPricing.PriceMap | services/order/service/order_service.go:51-54 | the map's keys are exactly the ids in the response |
| OrderPricing.PriceMapLastWins | services/order/service/order_service.go:51-54 | an id listed more than once is priced by its last entry |
| OrderPricing.FirstUnpriced | services/order/service/order_service.go:57-63 | the index where the walk stops: every earlier item has a price, the item there has none, or it is the item count |
| OrderPricing.PricedPrefix | services/order/service/order_service.go:57-65 | the first k items carry their map price with id and quantity kept; items from k on are untouched |
| OrderPricing.Total | services/order/service/order_service.go:56-66 | the running total: price × quantity summed over the items left to right, an unpriced item adding nothing |
| OrderPricing.TotalAppend | services/order/service/order_service.go:56-67 | the running total is additive over a split of the items |
| OrderPricing.TotalOfFullyPriced | services/order/service/order_service.go:56-67 | when all items are priced, the total equals the sum of map price × quantity |
| OrderPricing.EmptyOrderTotalsZero | services/order/service/order_service.go:56-67 | an empty item list is fully priced and totals 0 |
| OrderPricing.ExampleTwoItems | services/order/service/order_service.go:51-67 | P1 × 2 at 10.00 and P2 × 1 at 5.00 are fully priced and total 25.00 |
| OrderPricing.ExampleDuplicateIdLastWins | services/order/service/order_service.go:51-54 | P1 listed at 10.00 and then at 12.00 is priced 12.00 |
| OrderService.PendingOrder | services/order/service/order_service.go:69-77 | the order handed to the repository: the user, the priced items, their Total and status PENDING, with id and timestamps unset |
| OrderService.CollectProductIds | services/order/service/order_service.go:40-43 | the collected list is the items' product ids in order |
| OrderService.BuildPriceMap | services/order/service/order_service.go:51-54 | the loop builds exactly the last-wins price map |
| OrderService.PriceItems | services/order/service/order_service.go:56-67 | items are priced in place up to the first unpriced one and the rest is untouched; success exactly when every item is priced, and then the total is the sum of price × quantity |
| OrderService.OrderServiceImpl.constructor | services/order/service/order_service.go:122-128 | the service keeps its repository and inventory client |
| OrderService.OrderServiceImpl.CreateOrder | services/order/service/order_service.go:35-89 | one request for the items' ids. If it fails, its error is returned with nothing priced or stored. ErrNoPrice is returned exactly when the response lacks an item's price; then the items before that one are priced and nothing is stored. Otherwise the PENDING order with the user, the priced items and their total is stored; a storage error is returned with its message; a created order is found again by its id |
| OrderService.OrderServiceImpl.GetOrderByID | services/order/service/order_service.go:91-104 | returns exactly what the repository lookup returns, an order or an error |

## Left out

- The order transition handlers `HandlePaymentSucceeded`, `HandlePaymentFailed`, `HandleStockReserved` and `HandleStockUnavailable` are not modelled. In the source they only panic with "not implemented", so there is no behaviour and no order state machine to model.
- The inventory service's `HandleReserveStock`, `GetPrice` and `AddProduct` are not modelled. The first is a panic stub; the other two only delegate to the product repository.
- The inventory service's `GetProductsByIDs` is not modelled. It is not declared on the service interface, and the model takes it as an arbitrary lookup function.
- The repository's `UpdateStatus` is not modelled, because no modelled operation calls it.
- The Postgres repositories are not modelled, including SQL, uuid generation and database timestamps. Their outcome for one insert is the `StorageIo` parameter.
- OrderRepository.OrderStore.FindByID: database read errors other than "no rows" are not modelled, so the lookup only fails with ErrNoRows.
- The JSON marshalling of the items into the order is not modelled. In the source it ignores its error and assigns bytes to a field of item-list type. The order's `items` is the priced item sequence.
- float64 rounding of prices and of the total is not modelled; arithmetic is exact over reals.
- HTTP handlers, process bootstrap, logging, request contexts and ids, and the gRPC/protobuf wire types are not modelled; the records are plain datatypes.
