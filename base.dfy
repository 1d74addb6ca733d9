/** Shared value wrappers: an optional value, and the (value, error) pair that
    every Go operation of the platform returns, as one sum type. */
module Base {

  /** An optional value; stands for a Go pointer that may be nil (`*float64`). */
  datatype Option<+T> = None | Some(value: T)

  /** Seconds since an epoch; the database fills these in. */
  type Timestamp = int

  /** The errors of the order service.
      - ErrNoPrice: some order item has no price in the inventory response;
        only the pricing step produces it.
      - ErrNoRows: the order repository holds no order with the requested id.
      - Failure: an error raised by a collaborator (the inventory service, the
        gRPC transport, the database), carrying that error's message unchanged. */
  datatype Error = ErrNoPrice | ErrNoRows | Failure(message: string)

  /** The result of an operation: a value, or the error that stopped it.
      Collaborators report errors as their message (`E = string`); the order
      service reports an `Error`. */
  datatype Result<+T, +E> = Ok(value: T) | Err(error: E)
}
