/**
 * The Carts service: the business layer the gRPC handlers call. Every
 * method hands its arguments to the store unchanged and returns the store's
 * error unchanged; only Create builds a value of its own, the new cart.
 */
module Service {
  import opened Domain
  import opened Tables
  import opened Store

  /** The cart Create asks the store to insert: the user's, stamped now, with no items. */
  function NewCart(userID: int, now: Time): (c: Cart)
    ensures c.userID == userID
    ensures c.createdAt == c.updatedAt == now
    ensures c.items == []
  {
    Cart(0, userID, [], now, now)
  }

  class Carts {
    const storage: Storage

    constructor (s: Storage)
      ensures storage == s
    {
      storage := s;
    }

    method AddProduct(cartID: int, productID: int, quantity: Uint32, now: Time, fault: Fault)
      returns (err: Option<Error>)
      requires storage.Valid()
      modifies storage
      ensures storage.Valid()
      ensures storage.carts == old(storage.carts) && storage.nextCartID == old(storage.nextCartID)
      ensures err.None? <==> !fault.Before(4)
      ensures err.Some? ==> err.value == Other && storage.lineItems == old(storage.lineItems)
      ensures err.None? ==>
        storage.lineItems == AddedProduct(old(storage.lineItems), cartID, productID, quantity, now)
    {
      err := storage.AddProduct(cartID, productID, quantity, now, fault);
    }

    method DeleteProduct(cartID: int, productID: int, fault: Fault) returns (err: Option<Error>)
      requires storage.Valid()
      modifies storage
      ensures storage.Valid()
      ensures storage.carts == old(storage.carts) && storage.nextCartID == old(storage.nextCartID)
      ensures err == Some(Other) <==> fault.At(0)
      ensures err == Some(NotFound) <==>
        !fault.At(0) && storage.noRowsWhenNoMatch && Lookup(old(storage.lineItems), cartID, productID).None?
      ensures err.Some? ==> storage.lineItems == old(storage.lineItems)
      ensures err.None? ==> storage.lineItems == DeleteLineItem(old(storage.lineItems), cartID, productID)
    {
      err := storage.DeleteProduct(cartID, productID, fault);
    }

    /** The cart with the given ID; a not-found error from the store passes through as it is. */
    method Cart(id: int, fault: Fault) returns (c: Domain.Cart, err: Option<Error>)
      ensures err.Some? ==> c == ZeroCart
      ensures err.None? <==>
        && !fault.Before(5)
        && id in storage.carts
        && !(storage.noRowsWhenNoMatch && LinesByCartID(storage.lineItems, id) == [])
      ensures err == Some(NotFound) <==>
        && !fault.Before(2)
        && (id !in storage.carts
            || (!fault.At(2) && storage.noRowsWhenNoMatch && LinesByCartID(storage.lineItems, id) == []))
      ensures err.None? ==>
        var row := storage.carts[id];
        c == Domain.Cart(id, row.userID, CartLines(storage.lineItems, id), row.createdAt, row.updatedAt)
    {
      c, err := storage.CartByID(id, fault);
      if err.Some? {
        return ZeroCart, err;
      }
    }

    /** Creates an empty cart for the user, stamped now; the store assigns its ID. */
    method Create(userID: int, now: Time, fault: Fault) returns (c: Domain.Cart, err: Option<Error>)
      requires storage.Valid()
      modifies storage
      ensures storage.Valid()
      ensures storage.lineItems == old(storage.lineItems)
      ensures err.None? <==> !fault.At(0)
      ensures err.Some? ==>
        && err.value == Other && c == ZeroCart
        && storage.carts == old(storage.carts) && storage.nextCartID == old(storage.nextCartID)
      ensures err.None? ==>
        && c == Domain.Cart(old(storage.nextCartID), userID, [], now, now)
        && storage.nextCartID == old(storage.nextCartID) + 1
        && c.id !in old(storage.carts)
        && storage.carts == old(storage.carts)[c.id := CartRow(userID, now, now)]
    {
      var cart := NewCart(userID, now);
      c, err := storage.CreateCart(cart, fault);
      if err.Some? {
        return ZeroCart, err;
      }
    }

    method Delete(cartID: int, fault: Fault) returns (err: Option<Error>)
      requires storage.Valid()
      modifies storage
      ensures storage.Valid()
      ensures storage.nextCartID == old(storage.nextCartID)
      ensures err.None? <==> !fault.Before(4)
      ensures err.Some? ==>
        err.value == Other && storage.carts == old(storage.carts) && storage.lineItems == old(storage.lineItems)
      ensures err.None? ==>
        && storage.lineItems == DeleteCartItems(old(storage.lineItems), cartID)
        && storage.carts == old(storage.carts) - {cartID}
    {
      err := storage.DeleteCart(cartID, fault);
    }

    method Empty(cartID: int, now: Time, fault: Fault) returns (err: Option<Error>)
      requires storage.Valid()
      modifies storage
      ensures storage.Valid()
      ensures storage.nextCartID == old(storage.nextCartID)
      ensures err.None? <==> !fault.Before(4) && !(storage.noRowsWhenNoMatch && cartID !in old(storage.carts))
      ensures err == Some(NotFound) <==>
        !fault.Before(3) && storage.noRowsWhenNoMatch && cartID !in old(storage.carts)
      ensures err.Some? ==> storage.carts == old(storage.carts) && storage.lineItems == old(storage.lineItems)
      ensures err.None? ==>
        && storage.lineItems == DeleteCartItems(old(storage.lineItems), cartID)
        && storage.carts == UpdateCartTS(old(storage.carts), cartID, now)
    {
      err := storage.DeleteLineItems(cartID, now, fault);
    }
  }
}
