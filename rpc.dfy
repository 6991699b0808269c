/**
 * The gRPC front of the cart service: conversion of domain carts to their
 * wire form, and handlers that validate requests, call the Carts service
 * and turn its errors into status codes.
 */
module Rpc {
  import opened Domain
  import opened Tables
  import opened Store
  import opened Service

  /** The gRPC status codes the handlers return. */
  datatype Code = InvalidArgument | NotFound | Internal

  /** A handler's answer: a response message, or a status error with its code. */
  datatype Response<T> = Reply(value: T) | Status(code: Code)

  /** A wire timestamp; converting a Time to one is the `stamp` parameter. */
  datatype Timestamp = Timestamp(seconds: int, nanos: int)

  datatype ProtoLineItem = ProtoLineItem(productId: int, quantity: Uint32)

  datatype ProtoCart = ProtoCart(
    id: int, userId: int, items: seq<ProtoLineItem>, createdAt: Timestamp, updatedAt: Timestamp)

  datatype Empty = Empty

  datatype CartResponse = CartResponse(cart: ProtoCart)

  datatype AddProductRequest = AddProductRequest(cartId: int, productId: int, quantity: Uint32)
  datatype DelProductRequest = DelProductRequest(cartId: int, productId: int)
  datatype CartCreateRequest = CartCreateRequest(userId: int)
  datatype CartDeleteRequest = CartDeleteRequest(id: int)
  datatype EmptyCartRequest = EmptyCartRequest(cartId: int)
  datatype CartRequest = CartRequest(id: int)

  /** The wire form of a line item carries its product and quantity, not its timestamps. */
  function ToProtoLineItem(li: LineItem): (p: ProtoLineItem)
    ensures p.productId == li.productID && p.quantity == li.quantity
  {
    ProtoLineItem(li.productID, li.quantity)
  }

  /** Converts every line item, keeping their number and order. */
  method ToProtoLineItems(lis: seq<LineItem>) returns (result: seq<ProtoLineItem>)
    ensures |result| == |lis|
    ensures forall i :: 0 <= i < |lis| ==>
      result[i].productId == lis[i].productID && result[i].quantity == lis[i].quantity
  {
    result := [];
    for i := 0 to |lis|
      invariant |result| == i
      invariant forall k :: 0 <= k < i ==> result[k] == ToProtoLineItem(lis[k])
    {
      result := result + [ToProtoLineItem(lis[i])];
    }
  }

  /**
   * The wire form of a cart, or an Other error when one of its timestamps
   * has no wire form.
   */
  method ToProtoCart(c: Cart, stamp: Time -> Option<Timestamp>) returns (r: Result<ProtoCart>)
    ensures r.Ok? <==> stamp(c.createdAt).Some? && stamp(c.updatedAt).Some?
    ensures r.Err? ==> r.error == Other
    ensures r.Ok? ==>
      && r.value.id == c.id && r.value.userId == c.userID
      && r.value.createdAt == stamp(c.createdAt).value && r.value.updatedAt == stamp(c.updatedAt).value
      && |r.value.items| == |c.items|
      && forall i :: 0 <= i < |c.items| ==>
           r.value.items[i].productId == c.items[i].productID && r.value.items[i].quantity == c.items[i].quantity
  {
    var createdAt := stamp(c.createdAt);
    if createdAt.None? {
      return Err(Other);
    }
    var updatedAt := stamp(c.updatedAt);
    if updatedAt.None? {
      return Err(Other);
    }
    var items := ToProtoLineItems(c.items);
    return Ok(ProtoCart(c.id, c.userID, items, createdAt.value, updatedAt.value));
  }

  /** AddProduct refuses a zero quantity before anything else. */
  function CheckQuantity(quantity: Uint32): (status: Option<Code>)
    ensures status.Some? <==> quantity == 0
    ensures status.Some? ==> status.value == InvalidArgument
  {
    if quantity == 0 then Some(InvalidArgument) else None
  }

  /** The status of AddProduct, DelProduct and CreateCart: every service error is Internal. */
  function InternalOnError(err: Option<Error>): (status: Option<Code>)
    ensures status.None? <==> err.None?
    ensures status.Some? ==> status.value == Internal
  {
    if err.Some? then Some(Internal) else None
  }

  /**
   * The status of DeleteCart, EmptyCart and GetCart: the not-found sentinel
   * becomes NotFound, every other error Internal.
   */
  function NotFoundOrInternal(err: Option<Error>): (status: Option<Code>)
    ensures status.None? <==> err.None?
    ensures status == Some(Code.NotFound) <==> err == Some(Error.NotFound)
    ensures status == Some(Internal) <==> err == Some(Error.Other)
  {
    match err
    case None => None
    case Some(e) =>
      match e
      case NotFound => Some(Code.NotFound)
      case Other => Some(Internal)
  }

  function Respond<T>(status: Option<Code>, value: T): Response<T> {
    match status
    case None => Reply(value)
    case Some(code) => Status(code)
  }

  class Server {
    const carts: Carts

    constructor (c: Carts)
      ensures carts == c
    {
      carts := c;
    }

    method AddProduct(req: AddProductRequest, now: Time, fault: Fault) returns (r: Response<Empty>)
      requires carts.storage.Valid()
      modifies carts.storage
      ensures carts.storage.Valid()
      ensures req.quantity == 0 ==> r == Status(InvalidArgument)
      ensures req.quantity != 0 ==> (r.Reply? <==> !fault.Before(4))
      ensures req.quantity != 0 && r.Status? ==> r.code == Internal
      ensures r.Status? ==> carts.storage.Contents() == old(carts.storage.Contents())
      ensures r.Reply? ==>
        && carts.storage.lineItems
             == AddedProduct(old(carts.storage.lineItems), req.cartId, req.productId, req.quantity, now)
        && carts.storage.carts == old(carts.storage.carts)
        && carts.storage.nextCartID == old(carts.storage.nextCartID)
    {
      var invalid := CheckQuantity(req.quantity);
      if invalid.Some? {
        return Status(invalid.value);
      }
      var err := carts.AddProduct(req.cartId, req.productId, req.quantity, now, fault);
      r := Respond(InternalOnError(err), Empty);
    }

    method DelProduct(req: DelProductRequest, fault: Fault) returns (r: Response<Empty>)
      requires carts.storage.Valid()
      modifies carts.storage
      ensures carts.storage.Valid()
      ensures r.Reply? <==>
        !fault.At(0) && !(carts.storage.noRowsWhenNoMatch && Lookup(old(carts.storage.lineItems), req.cartId, req.productId).None?)
      ensures r.Status? ==> r.code == Internal && carts.storage.Contents() == old(carts.storage.Contents())
      ensures r.Reply? ==>
        && carts.storage.lineItems == DeleteLineItem(old(carts.storage.lineItems), req.cartId, req.productId)
        && carts.storage.carts == old(carts.storage.carts)
        && carts.storage.nextCartID == old(carts.storage.nextCartID)
    {
      var err := carts.DeleteProduct(req.cartId, req.productId, fault);
      r := Respond(InternalOnError(err), Empty);
      if err.Some? {
        var e: Error := err.value;
        assert e.Other? || e.NotFound?;
      }
    }

    /**
     * Creates a cart. A cart whose timestamps have no wire form is still
     * created, and the caller gets Internal.
     */
    method CreateCart(req: CartCreateRequest, now: Time, fault: Fault, stamp: Time -> Option<Timestamp>)
      returns (r: Response<CartResponse>)
      requires carts.storage.Valid()
      modifies carts.storage
      ensures carts.storage.Valid()
      ensures carts.storage.lineItems == old(carts.storage.lineItems)
      ensures r.Reply? <==> !fault.At(0) && stamp(now).Some?
      ensures r.Status? ==> r.code == Internal
      ensures fault.At(0) ==> carts.storage.Contents() == old(carts.storage.Contents())
      ensures !fault.At(0) ==>
        && carts.storage.nextCartID == old(carts.storage.nextCartID) + 1
        && old(carts.storage.nextCartID) !in old(carts.storage.carts)
        && carts.storage.carts
             == old(carts.storage.carts)[old(carts.storage.nextCartID) := CartRow(req.userId, now, now)]
      ensures r.Reply? ==>
        r.value.cart == ProtoCart(old(carts.storage.nextCartID), req.userId, [], stamp(now).value, stamp(now).value)
    {
      var cart, err := carts.Create(req.userId, now, fault);
      if err.Some? {
        return Status(Internal);
      }
      var converted := ToProtoCart(cart, stamp);
      if converted.Err? {
        return Status(Internal);
      }
      return Reply(CartResponse(converted.value));
    }

    /** Deletes a cart; the store never reports not-found here, so every failure is Internal. */
    method DeleteCart(req: CartDeleteRequest, fault: Fault) returns (r: Response<Empty>)
      requires carts.storage.Valid()
      modifies carts.storage
      ensures carts.storage.Valid()
      ensures r.Reply? <==> !fault.Before(4)
      ensures r.Status? ==> r.code == Internal && carts.storage.Contents() == old(carts.storage.Contents())
      ensures r.Reply? ==>
        && carts.storage.lineItems == DeleteCartItems(old(carts.storage.lineItems), req.id)
        && carts.storage.carts == old(carts.storage.carts) - {req.id}
        && carts.storage.nextCartID == old(carts.storage.nextCartID)
    {
      var err := carts.Delete(req.id, fault);
      r := Respond(NotFoundOrInternal(err), Empty);
    }

    method EmptyCart(req: EmptyCartRequest, now: Time, fault: Fault) returns (r: Response<Empty>)
      requires carts.storage.Valid()
      modifies carts.storage
      ensures carts.storage.Valid()
      ensures r.Reply? <==>
        !fault.Before(4) && !(carts.storage.noRowsWhenNoMatch && req.cartId !in old(carts.storage.carts))
      ensures r == Status(Code.NotFound) <==>
        !fault.Before(3) && carts.storage.noRowsWhenNoMatch && req.cartId !in old(carts.storage.carts)
      ensures r.Status? ==> r.code != InvalidArgument && carts.storage.Contents() == old(carts.storage.Contents())
      ensures r.Reply? ==>
        && carts.storage.lineItems == DeleteCartItems(old(carts.storage.lineItems), req.cartId)
        && carts.storage.carts == UpdateCartTS(old(carts.storage.carts), req.cartId, now)
        && carts.storage.nextCartID == old(carts.storage.nextCartID)
    {
      var err := carts.Empty(req.cartId, now, fault);
      r := Respond(NotFoundOrInternal(err), Empty);
    }

    method GetCart(req: CartRequest, fault: Fault, stamp: Time -> Option<Timestamp>)
      returns (r: Response<CartResponse>)
      ensures r == Status(Code.NotFound) <==>
        && !fault.Before(2)
        && (req.id !in carts.storage.carts
            || (!fault.At(2) && carts.storage.noRowsWhenNoMatch && LinesByCartID(carts.storage.lineItems, req.id) == []))
      ensures r.Status? ==> r.code != InvalidArgument
      ensures r.Reply? <==>
        && !fault.Before(5)
        && req.id in carts.storage.carts
        && !(carts.storage.noRowsWhenNoMatch && LinesByCartID(carts.storage.lineItems, req.id) == [])
        && stamp(carts.storage.carts[req.id].createdAt).Some?
        && stamp(carts.storage.carts[req.id].updatedAt).Some?
      ensures r.Reply? ==>
        var row := carts.storage.carts[req.id];
        var items := CartLines(carts.storage.lineItems, req.id);
        && r.value.cart.id == req.id && r.value.cart.userId == row.userID
        && r.value.cart.createdAt == stamp(row.createdAt).value
        && r.value.cart.updatedAt == stamp(row.updatedAt).value
        && |r.value.cart.items| == |items|
        && forall i :: 0 <= i < |items| ==>
             r.value.cart.items[i] == ProtoLineItem(items[i].productID, items[i].quantity)
    {
      var cart, err := carts.Cart(req.id, fault);
      if err.Some? {
        return Status(NotFoundOrInternal(err).value);
      }
      var converted := ToProtoCart(cart, stamp);
      if converted.Err? {
        return Status(Internal);
      }
      return Reply(CartResponse(converted.value));
    }
  }
}
