/** The inventory service's product record. */
module InventoryModel {
  import opened Base

  /** A catalogue product. Prices are exact reals: the float64 rounding of the
      service is abstracted away. */
  datatype Product = Product(
    id: string,
    name: string,
    price: real,
    stockQuantity: int,
    createdAt: Timestamp,
    updatedAt: Timestamp)
}
