/** The order service: creating an order priced from the inventory service,
    and reading an order back. */
module OrderService {
  import opened Base
  import opened OrderModel
  import opened InventoryGrpc
  import opened OrderRepository
  import opened OrderPricing

  /** The order handed to the repository: the caller's user, the priced items,
      their total, status PENDING; id and timestamps still unset. */
  function PendingOrder(userId: string, items: seq<OrderItem>): Order {
    Order("", userId, items, Total(items), Pending, 0, 0)
  }

  /** The loop that collects the items' product ids for the inventory request. */
  method CollectProductIds(items: array<OrderItem>) returns (productIDs: seq<string>)
    ensures productIDs == ProductIds(items[..])
  {
    productIDs := [];
    for i := 0 to items.Length
      invariant productIDs == ProductIds(items[..i])
    {
      assert items[..i + 1][..i] == items[..i];
      productIDs := productIDs + [items[i].productId];
    }
    assert items[..items.Length] == items[..];
  }

  /** The loop that fills the id -> price map from the inventory response. */
  method BuildPriceMap(infos: seq<ProductInfo>) returns (priceMap: map<string, real>)
    ensures priceMap == PriceMap(infos)
  {
    priceMap := map[];
    for j := 0 to |infos|
      invariant priceMap == PriceMap(infos[..j])
    {
      assert infos[..j + 1][..j] == infos[..j];
      priceMap := priceMap[infos[j].id := infos[j].price];
    }
    assert infos[..|infos|] == infos;
  }

  /** The pricing loop: writes each item's map price into the array, left to
      right, and sums price x quantity; stops at the first item whose product
      has no price, leaving it and the items after it untouched. */
  method PriceItems(items: array<OrderItem>, priceMap: map<string, real>) returns (priced: bool, totalPrice: real)
    modifies items
    ensures priced <==> FirstUnpriced(old(items[..]), priceMap) == items.Length
    ensures items[..] == PricedPrefix(old(items[..]), priceMap, FirstUnpriced(old(items[..]), priceMap))
    ensures priced ==> totalPrice == Total(items[..])
  {
    ghost var before := items[..];
    totalPrice := 0.0;
    for i := 0 to items.Length
      invariant i <= FirstUnpriced(before, priceMap)
      invariant items[..] == PricedPrefix(before, priceMap, i)
      invariant totalPrice == Total(items[..i])
    {
      var item := items[i];
      if item.productId !in priceMap {
        return false, totalPrice;
      }
      var price := priceMap[item.productId];
      items[i] := item.(price := Some(price));
      assert items[..i + 1][..i] == items[..i];
      totalPrice := totalPrice + price * item.quantity as real;
    }
    assert items[..items.Length] == items[..];
    priced := true;
  }

  class OrderServiceImpl {
    const orderRepo: OrderStore
    const inventoryClient: InventoryClient

    constructor (orderRepo: OrderStore, inventoryClient: InventoryClient)
      ensures this.orderRepo == orderRepo && this.inventoryClient == inventoryClient
    {
      this.orderRepo := orderRepo;
      this.inventoryClient := inventoryClient;
    }

    /** Creates an order for `userId` from `items`. One inventory request asks
        for the items' product ids; a failed request is returned as is. Items
        are then priced left to right in place; the first item without a price
        stops the walk with ErrNoPrice, the items before it keeping their new
        price. Only when all are priced is a PENDING order with their total
        handed to the repository, whose answer is returned. `io` is what the
        storage decides for that insert. */
    method CreateOrder(userId: string, items: array<OrderItem>, io: StorageIo) returns (r: Result<Order, Error>)
      modifies items, orderRepo
      // the inventory request fails: nothing is priced or stored
      ensures var resp := inventoryClient(GetProductInfoRequest(ProductIds(old(items[..]))));
              resp.Err? ==>
                r == Err(Failure(resp.error)) && items[..] == old(items[..]) && orderRepo.orders == old(orderRepo.orders)
      // the response arrives: items are priced up to the first unpriced one
      ensures var resp := inventoryClient(GetProductInfoRequest(ProductIds(old(items[..]))));
              resp.Ok? ==>
                var pm := PriceMap(resp.value.products);
                var k := FirstUnpriced(old(items[..]), pm);
                items[..] == PricedPrefix(old(items[..]), pm, k)
                && (k < items.Length ==> r == Err(ErrNoPrice) && orderRepo.orders == old(orderRepo.orders))
                && (k == items.Length && io.fault.Some? ==>
                      r == Err(Failure(io.fault.value)) && orderRepo.orders == old(orderRepo.orders))
                && (k == items.Length && io.fault.None? ==>
                      r == Ok(Stamp(PendingOrder(userId, items[..]), io))
                      && orderRepo.orders == old(orderRepo.orders) + [r.value])
      // ErrNoPrice is reported exactly when the response lacks an item's price
      ensures var resp := inventoryClient(GetProductInfoRequest(ProductIds(old(items[..]))));
              r == Err(ErrNoPrice) <==>
                resp.Ok? && FirstUnpriced(old(items[..]), PriceMap(resp.value.products)) < items.Length
      // what a created order holds, and that it can be read back
      ensures r.Ok? ==>
                r.value.userId == userId && r.value.status == Pending
                && r.value.items == items[..] && r.value.totalPrice == Total(items[..])
                && r.value.id == io.newId
                && FindById(orderRepo.orders, r.value.id) == r
    {
      var productIDs := CollectProductIds(items);
      var products := inventoryClient(GetProductInfoRequest(productIDs));
      if products.Err? {
        return Err(Failure(products.error));
      }
      var priceMap := BuildPriceMap(products.value.products);
      var priced, totalPrice := PriceItems(items, priceMap);
      if !priced {
        return Err(ErrNoPrice);
      }
      var order := Order("", userId, items[..], totalPrice, Pending, 0, 0);
      r := orderRepo.Create(order, io);
    }

    /** Returns exactly what the repository's lookup returns: the order, or its error. */
    method GetOrderByID(id: string) returns (r: Result<Order, Error>)
      ensures r == FindById(orderRepo.orders, id)
    {
      var order := orderRepo.FindByID(id);
      if order.Err? {
        return Err(order.error);
      }
      return order;
    }
  }
}
