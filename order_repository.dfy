/** The order repository as the order service uses it: `Create` stores a new
    order and gives it an id and timestamps, `FindByID` reads one back. This is
    an in-memory port; the SQL of the Postgres adapter is not part of this model. */
module OrderRepository {
  import opened Base
  import opened OrderModel

  /** What the repository decides when one order is inserted: the uuid it
      generates for the order, the `created_at` and `updated_at` values the
      database returns for the new row, and whether the insert fails (with the
      message of the database error). */
  datatype StorageIo = StorageIo(newId: string, createdAt: Timestamp, updatedAt: Timestamp, fault: Option<string>)

  /** The order as stored: with the generated id and the row's timestamps. */
  function Stamp(order: Order, io: StorageIo): Order {
    order.(id := io.newId, createdAt := io.createdAt, updatedAt := io.updatedAt)
  }

  /** The order a lookup by `id` finds among `orders` (kept in insertion
      order): the most recently stored one with that id, or ErrNoRows. */
  function FindById(orders: seq<Order>, id: string): (r: Result<Order, Error>)
    ensures r.Ok? ==> r.value.id == id
    ensures r.Ok? ==> exists i :: 0 <= i < |orders| && orders[i] == r.value
                                  && forall j :: i < j < |orders| ==> orders[j].id != id
    ensures r.Err? ==> r.error == ErrNoRows && forall i :: 0 <= i < |orders| ==> orders[i].id != id
  {
    if orders == [] then Err(ErrNoRows)
    else if orders[|orders| - 1].id == id then Ok(orders[|orders| - 1])
    else FindById(orders[..|orders| - 1], id)
  }

  /** Storing one more order makes it the one found under its id and leaves
      every other id's lookup as it was. */
  lemma FindAfterStore(orders: seq<Order>, o: Order, id: string)
    ensures FindById(orders + [o], id) == if o.id == id then Ok(o) else FindById(orders, id)
  {
  }

  /** The in-memory repository: the orders stored so far, oldest first. */
  class OrderStore {
    var orders: seq<Order>

    constructor ()
      ensures orders == []
    {
      orders := [];
    }

    /** Stores `order` with the id and timestamps the storage assigns and
        returns it as stored; on a storage fault returns that error and stores nothing. */
    method Create(order: Order, io: StorageIo) returns (r: Result<Order, Error>)
      modifies this
      ensures io.fault.Some? ==> r == Err(Failure(io.fault.value)) && orders == old(orders)
      ensures io.fault.None? ==> r == Ok(Stamp(order, io)) && orders == old(orders) + [Stamp(order, io)]
      ensures r.Ok? ==> FindById(orders, r.value.id) == r
    {
      if io.fault.Some? {
        return Err(Failure(io.fault.value));
      }
      var stored := Stamp(order, io);
      FindAfterStore(orders, stored, stored.id);
      orders := orders + [stored];
      return Ok(stored);
    }

    /** The stored order with this id, or ErrNoRows. */
    method FindByID(id: string) returns (r: Result<Order, Error>)
      ensures r == FindById(orders, id)
    {
      r := FindById(orders, id);
    }
  }
}
