/** What the three loops of `CreateOrder` compute, as functions of their
    inputs, and the properties the order service relies on. */
module OrderPricing {
  import opened Base
  import opened OrderModel
  import opened InventoryGrpc

  /** The product ids of the items, in item order, duplicates kept: the list
      the order service sends to the inventory endpoint. */
  function ProductIds(items: seq<OrderItem>): (ids: seq<string>)
    ensures |ids| == |items|
    ensures forall i :: 0 <= i < |items| ==> ids[i] == items[i].productId
  {
    if items == [] then []
    else ProductIds(items[..|items| - 1]) + [items[|items| - 1].productId]
  }

  /** The id -> price map built from the inventory response, entry by entry,
      a later entry overwriting an earlier one with the same id. */
  function PriceMap(infos: seq<ProductInfo>): (pm: map<string, real>)
    ensures pm.Keys == set i | 0 <= i < |infos| :: infos[i].id
  {
    if infos == [] then map[]
    else
      var last := infos[|infos| - 1];
      PriceMap(infos[..|infos| - 1])[last.id := last.price]
  }

  /** Last entry wins: an id is priced by the last response entry carrying it. */
  lemma {:induction false} PriceMapLastWins(infos: seq<ProductInfo>, i: nat)
    requires i < |infos|
    requires forall j :: i < j < |infos| ==> infos[j].id != infos[i].id
    ensures infos[i].id in PriceMap(infos)
    ensures PriceMap(infos)[infos[i].id] == infos[i].price
  {
    if i < |infos| - 1 {
      var init := infos[..|infos| - 1];
      PriceMapLastWins(init, i);
    }
  }

  /** The index of the first item whose product has no price in `pm`, or the
      number of items when every item has one. */
  function FirstUnpriced(items: seq<OrderItem>, pm: map<string, real>): (k: nat)
    ensures k <= |items|
    ensures forall i :: 0 <= i < k ==> items[i].productId in pm
    ensures k < |items| ==> items[k].productId !in pm
  {
    if items == [] || items[0].productId !in pm then 0
    else 1 + FirstUnpriced(items[1..], pm)
  }

  function WithPrice(item: OrderItem, price: real): OrderItem {
    item.(price := Some(price))
  }

  /** The item list after its first `k` items were given their map price in
      place; the items from `k` on are untouched. */
  function PricedPrefix(items: seq<OrderItem>, pm: map<string, real>, k: nat): (r: seq<OrderItem>)
    requires k <= |items|
    requires forall i :: 0 <= i < k ==> items[i].productId in pm
    ensures |r| == |items|
    ensures forall i :: 0 <= i < k ==>
              r[i].productId == items[i].productId && r[i].quantity == items[i].quantity
              && r[i].price == Some(pm[items[i].productId])
    ensures forall i :: k <= i < |items| ==> r[i] == items[i]
  {
    if k == 0 then items
    else PricedPrefix(items, pm, k - 1)[k - 1 := WithPrice(items[k - 1], pm[items[k - 1].productId])]
  }

  /** price x quantity of one item; an unpriced item contributes nothing. */
  function LineTotal(item: OrderItem): real {
    match item.price
    case None => 0.0
    case Some(p) => p * item.quantity as real
  }

  /** The running total of the pricing loop, summed left to right. */
  function Total(items: seq<OrderItem>): real {
    if items == [] then 0.0
    else Total(items[..|items| - 1]) + LineTotal(items[|items| - 1])
  }

  /** The total is additive over a split of the item list. */
  lemma {:induction false} TotalAppend(a: seq<OrderItem>, b: seq<OrderItem>)
    ensures Total(a + b) == Total(a) + Total(b)
  {
    if b == [] {
      assert a + b == a;
    } else {
      var b' := b[..|b| - 1];
      assert (a + b)[..|a + b| - 1] == a + b';
      TotalAppend(a, b');
    }
  }

  /** Reference definition: the sum over the items of map price x quantity. */
  function MapTotal(items: seq<OrderItem>, pm: map<string, real>): real
    requires forall i :: 0 <= i < |items| ==> items[i].productId in pm
  {
    if items == [] then 0.0
    else pm[items[0].productId] * items[0].quantity as real + MapTotal(items[1..], pm)
  }

  /** Once every item is priced from `pm`, the running total equals the sum
      of map price x quantity over the items. */
  lemma {:induction false} TotalOfFullyPriced(items: seq<OrderItem>, pm: map<string, real>)
    requires forall i :: 0 <= i < |items| ==> items[i].productId in pm
    ensures Total(PricedPrefix(items, pm, |items|)) == MapTotal(items, pm)
  {
    if items != [] {
      var priced := PricedPrefix(items, pm, |items|);
      var rest := PricedPrefix(items[1..], pm, |items| - 1);
      assert priced == [priced[0]] + rest;
      TotalAppend([priced[0]], rest);
      assert [priced[0]][..0] == [];
      TotalOfFullyPriced(items[1..], pm);
    }
  }

  /** An empty item list is fully priced by any map and totals zero. */
  lemma EmptyOrderTotalsZero(pm: map<string, real>)
    ensures FirstUnpriced([], pm) == 0
    ensures Total(PricedPrefix([], pm, 0)) == 0.0
  {
  }

  /** Two items, P1 x 2 at 10.00 and P2 x 1 at 5.00, are fully priced and total 25.00. */
  lemma ExampleTwoItems()
    ensures var items := [OrderItem("P1", 2, None), OrderItem("P2", 1, None)];
            var pm := PriceMap([ProductInfo("P1", "Pen", 10.0), ProductInfo("P2", "Pad", 5.0)]);
            FirstUnpriced(items, pm) == 2 && Total(PricedPrefix(items, pm, 2)) == 25.0
  {
    var items := [OrderItem("P1", 2, None), OrderItem("P2", 1, None)];
    var infos := [ProductInfo("P1", "Pen", 10.0), ProductInfo("P2", "Pad", 5.0)];
    var pm := PriceMap(infos);
    PriceMapLastWins(infos, 0);
    PriceMapLastWins(infos, 1);
    assert items[0].productId in pm && items[1].productId in pm;
    TotalOfFullyPriced(items, pm);
  }

  /** A product listed twice in the response is priced by its second entry. */
  lemma ExampleDuplicateIdLastWins()
    ensures PriceMap([ProductInfo("P1", "Pen", 10.0), ProductInfo("P1", "Pen", 12.0)])["P1"] == 12.0
  {
  }
}
