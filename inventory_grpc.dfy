/** The inventory service's gRPC endpoint `GetProductInfo`: it asks the
    inventory service for the products with the requested ids and answers with
    one `ProductInfo` per product, in the order the service returned them. */
module InventoryGrpc {
  import opened Base
  import opened InventoryModel

  /** What the endpoint tells a caller about one product: no stock, no timestamps. */
  datatype ProductInfo = ProductInfo(id: string, name: string, price: real)

  datatype GetProductInfoRequest = GetProductInfoRequest(productIds: seq<string>)

  datatype GetProductInfoResponse = GetProductInfoResponse(products: seq<ProductInfo>)

  /** The inventory service's lookup of products by id, a collaborator whose
      code is not part of this model: any answer, or any error message, for any list of ids. */
  type ProductLookup = seq<string> -> Result<seq<Product>, string>

  /** The remote call as an order-service client sees it: the response, or the
      message of a service or transport error. */
  type InventoryClient = GetProductInfoRequest -> Result<GetProductInfoResponse, string>

  function ToProductInfo(p: Product): ProductInfo {
    ProductInfo(p.id, p.name, p.price)
  }

  /** The projection the endpoint's loop computes, appending one record per product. */
  function Project(products: seq<Product>): (infos: seq<ProductInfo>)
    ensures |infos| == |products|
    ensures forall i :: 0 <= i < |products| ==>
              infos[i].id == products[i].id
              && infos[i].name == products[i].name
              && infos[i].price == products[i].price
  {
    if products == [] then []
    else Project(products[..|products| - 1]) + [ToProductInfo(products[|products| - 1])]
  }

  /** The response does not depend on stock quantities or timestamps: two
      product lists that agree on ids, names and prices project alike. */
  lemma ProjectIgnoresStockAndTimestamps(a: seq<Product>, b: seq<Product>)
    requires |a| == |b|
    requires forall i :: 0 <= i < |a| ==>
               a[i].id == b[i].id && a[i].name == b[i].name && a[i].price == b[i].price
    ensures Project(a) == Project(b)
  {
  }

  /** An empty product list yields an empty response. */
  lemma ProjectEmpty()
    ensures Project([]) == []
  {
  }

  /** The gRPC server; `service` is the inventory service it was built with. */
  class Server {
    const service: ProductLookup

    constructor (service: ProductLookup)
      ensures this.service == service
    {
      this.service := service;
    }

    /** A lookup error is returned as is, with no response; otherwise the
        response holds the projection of the products, one per product, in order. */
    method GetProductInfo(req: GetProductInfoRequest) returns (r: Result<GetProductInfoResponse, string>)
      ensures service(req.productIds).Err? ==> r == Err(service(req.productIds).error)
      ensures service(req.productIds).Ok? ==>
                r == Ok(GetProductInfoResponse(Project(service(req.productIds).value)))
    {
      var lookup := service(req.productIds);
      if lookup.Err? {
        return Err(lookup.error);
      }
      var products := lookup.value;
      var productInfos: seq<ProductInfo> := [];
      for i := 0 to |products|
        invariant productInfos == Project(products[..i])
      {
        assert products[..i + 1][..i] == products[..i];
        productInfos := productInfos + [ProductInfo(products[i].id, products[i].name, products[i].price)];
      }
      assert products[..|products|] == products;
      return Ok(GetProductInfoResponse(productInfos));
    }
  }
}
