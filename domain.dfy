/**
 * The domain values of the cart service: line items, carts and the two kinds
 * of error the layers above the store tell apart.
 */
module Domain {

  /** A point in time; the zero value of a timestamp is ZeroTime. */
  type Time = int

  const ZeroTime: Time := 0

  const TwoTo32: int := 0x1_0000_0000

  /** An unsigned 32-bit quantity. */
  type Uint32 = x: int | 0 <= x < 0x1_0000_0000

  /** Unsigned 32-bit addition, which wraps around modulo 2^32. */
  function AddUint32(a: Uint32, b: Uint32): (r: Uint32)
    ensures a + b < TwoTo32 ==> r == a + b
    ensures a + b >= TwoTo32 ==> r == a + b - TwoTo32
    ensures r < a <==> a + b >= TwoTo32
  {
    (a + b) % TwoTo32
  }

  /**
   * The errors the service distinguishes: the not-found sentinel, and every
   * other error (store failures, wrapped messages).
   */
  datatype Error = NotFound | Other

  datatype Option<T> = None | Some(value: T)

  datatype Result<T> = Ok(value: T) | Err(error: Error)

  /** A single product and its quantity in a cart. */
  datatype LineItem = LineItem(productID: int, quantity: Uint32, createdAt: Time, updatedAt: Time)

  /** The line items a user holds. */
  datatype Cart = Cart(id: int, userID: int, items: seq<LineItem>, createdAt: Time, updatedAt: Time)

  /** The zero value of a Cart, returned beside every error. */
  const ZeroCart: Cart := Cart(0, 0, [], ZeroTime, ZeroTime)
}
