/**
 * The cart store: the carts and line_items tables and the operations that
 * change them, each one atomic.
 *
 * A transaction works on local copies of the tables and writes them back
 * only when it commits; returning early is a rollback. Which statement the
 * relational store fails, if any, is the `fault` parameter of each
 * operation, and its steps are numbered in each operation's comment.
 */
module Store {
  import opened Domain
  import opened Tables

  /**
   * How the relational store answers one operation: every statement
   * succeeds, or the statement numbered `step` fails with an error that is
   * neither sql.ErrNoRows nor the not-found sentinel.
   */
  datatype Fault = NoFault | FailsAt(step: nat) {
    predicate At(n: nat) {
      FailsAt? && step == n
    }

    /** One of the statements numbered below n fails. */
    predicate Before(n: nat) {
      FailsAt? && step < n
    }
  }

  /**
   * The Go helper that deletes a cart's line items inside a transaction:
   * the table without the cart's rows, or the not-found sentinel when the
   * driver answers a DELETE that matches no row with sql.ErrNoRows, or an
   * Other error when the statement fails.
   */
  function DeleteLineItemsInTx(rows: seq<ItemRow>, cartID: int, noRowsWhenNoMatch: bool, fails: bool)
    : (r: Result<seq<ItemRow>>)
    ensures r.Ok? <==> !fails && !(noRowsWhenNoMatch && LinesByCartID(rows, cartID) == [])
    ensures r.Err? ==> (r.error == NotFound <==> !fails)
    ensures r.Ok? ==> r.value == DeleteCartItems(rows, cartID)
  {
    if fails then Err(Other)
    else if noRowsWhenNoMatch && LinesByCartID(rows, cartID) == [] then Err(NotFound)
    else Ok(DeleteCartItems(rows, cartID))
  }

  class Storage {
    /** The carts table: cart_id to (user_id, created_at, updated_at). */
    var carts: map<int, CartRow>
    /** The line_items table, in the order the model returns its rows. */
    var lineItems: seq<ItemRow>
    /** The next value of the cart ID sequence. */
    var nextCartID: int
    /**
     * Whether the database driver answers a statement that matches no row
     * with sql.ErrNoRows (database/sql itself never does for Exec).
     */
    const noRowsWhenNoMatch: bool

    ghost predicate Valid()
      reads this
    {
      && Unique(lineItems)
      && forall id :: id in carts ==> id < nextCartID
    }

    /** The contents of both tables and the sequence, which a failed operation leaves as they were. */
    ghost function Contents(): (map<int, CartRow>, seq<ItemRow>, int)
      reads this
    {
      (carts, lineItems, nextCartID)
    }

    constructor (noRowsWhenNoMatch: bool)
      ensures Valid()
      ensures carts == map[] && lineItems == [] && nextCartID == 1
      ensures this.noRowsWhenNoMatch == noRowsWhenNoMatch
    {
      carts := map[];
      lineItems := [];
      nextCartID := 1;
      this.noRowsWhenNoMatch := noRowsWhenNoMatch;
    }

    /**
     * A store over a database that already holds rows: the tables as given,
     * with at most one line item per pair, and a sequence past every cart ID.
     */
    constructor Open(carts: map<int, CartRow>, lineItems: seq<ItemRow>, nextCartID: int, noRowsWhenNoMatch: bool)
      requires Unique(lineItems)
      requires forall id :: id in carts ==> id < nextCartID
      ensures Valid()
      ensures this.carts == carts && this.lineItems == lineItems && this.nextCartID == nextCartID
      ensures this.noRowsWhenNoMatch == noRowsWhenNoMatch
    {
      this.carts := carts;
      this.lineItems := lineItems;
      this.nextCartID := nextCartID;
      this.noRowsWhenNoMatch := noRowsWhenNoMatch;
    }

    /**
     * Merges a quantity into the cart's line item for the product.
     * Steps: 0 begin, 1 quantity lookup, 2 insert or update, 3 commit.
     */
    method AddProduct(cartID: int, productID: int, quantity: Uint32, now: Time, fault: Fault)
      returns (err: Option<Error>)
      requires Valid()
      modifies this
      ensures Valid()
      ensures carts == old(carts) && nextCartID == old(nextCartID)
      ensures err.None? <==> !fault.Before(4)
      ensures err.Some? ==> err.value == Other && lineItems == old(lineItems)
      ensures err.None? ==> lineItems == AddedProduct(old(lineItems), cartID, productID, quantity, now)
    {
      if fault.At(0) {
        return Some(Other);
      }
      var rows := lineItems;

      var rowExists := true;
      if fault.At(1) {
        return Some(Other);
      }
      var li: LineItem;
      match QueryLineItem(rows, cartID, productID) {
        case Ok(found) =>
          li := found;
        case Err(_) =>
          rowExists := false;
          li := LineItem(0, 0, ZeroTime, ZeroTime);
      }

      if rowExists {
        li := li.(quantity := AddUint32(li.quantity, quantity), updatedAt := now);
        rows := UpdateLineItem(rows, cartID, li);
      } else {
        li := LineItem(productID, quantity, now, now);
        rows := CreateLineItem(rows, cartID, li);
      }

      if fault.At(2) || fault.At(3) {
        return Some(Other);
      }
      AddProductKeepsUnique(lineItems, cartID, productID, quantity, now);
      lineItems := rows;
      return None;
    }

    /**
     * Deletes the line item of (cartID, productID) with a single statement,
     * outside a transaction. Steps: 0 the delete.
     */
    method DeleteProduct(cartID: int, productID: int, fault: Fault) returns (err: Option<Error>)
      requires Valid()
      modifies this
      ensures Valid()
      ensures carts == old(carts) && nextCartID == old(nextCartID)
      ensures err == Some(Other) <==> fault.At(0)
      ensures err == Some(NotFound) <==>
        !fault.At(0) && noRowsWhenNoMatch && Lookup(old(lineItems), cartID, productID).None?
      ensures err.Some? ==> lineItems == old(lineItems)
      ensures err.None? ==> lineItems == DeleteLineItem(old(lineItems), cartID, productID)
    {
      if fault.At(0) {
        return Some(Other);
      }
      if noRowsWhenNoMatch && Lookup(lineItems, cartID, productID).None? {
        return Some(NotFound);
      }
      DeleteLineItemEffect(lineItems, cartID, productID);
      lineItems := DeleteLineItem(lineItems, cartID, productID);
      return None;
    }

    /**
     * Reads a cart and its line items in one read-only transaction.
     * Steps: 0 begin, 1 cart row query, 2 line items query, 3 reading the
     * item rows, 4 commit.
     */
    method CartByID(id: int, fault: Fault) returns (c: Cart, err: Option<Error>)
      ensures err.Some? ==> c == ZeroCart
      ensures err.None? <==>
        && !fault.Before(5)
        && id in carts
        && !(noRowsWhenNoMatch && LinesByCartID(lineItems, id) == [])
      ensures err == Some(NotFound) <==>
        && !fault.Before(2)
        && (id !in carts || (!fault.At(2) && noRowsWhenNoMatch && LinesByCartID(lineItems, id) == []))
      ensures err.None? ==>
        c == Cart(id, carts[id].userID, CartLines(lineItems, id), carts[id].createdAt, carts[id].updatedAt)
    {
      if fault.At(0) {
        return ZeroCart, Some(Other);
      }
      c := Cart(id, 0, [], ZeroTime, ZeroTime);

      if fault.At(1) {
        return ZeroCart, Some(Other);
      }
      if id !in carts {
        return ZeroCart, Some(NotFound);
      }
      var row := carts[id];
      c := c.(userID := row.userID, createdAt := row.createdAt, updatedAt := row.updatedAt);

      if fault.At(2) {
        return ZeroCart, Some(Other);
      }
      var selected := LinesByCartID(lineItems, id);
      if noRowsWhenNoMatch && selected == [] {
        return ZeroCart, Some(NotFound);
      }

      var i := 0;
      while i < |selected|
        invariant 0 <= i <= |selected|
        invariant c.id == id && c.userID == row.userID
        invariant c.createdAt == row.createdAt && c.updatedAt == row.updatedAt
        invariant |c.items| == i
        invariant forall k :: 0 <= k < i ==> c.items[k] == Scanned(selected[k])
      {
        if fault.At(3) {
          return ZeroCart, Some(Other);
        }
        c := c.(items := c.items + [Scanned(selected[i])]);
        i := i + 1;
      }

      if fault.At(3) || fault.At(4) {
        return ZeroCart, Some(Other);
      }
      assert c.items == CartLines(lineItems, id);
      return c, None;
    }

    /**
     * Inserts a cart row for the given cart and returns the cart with the
     * ID the sequence assigned. Its items are not stored. Steps: 0 the insert.
     */
    method CreateCart(cart: Cart, fault: Fault) returns (c: Cart, err: Option<Error>)
      requires Valid()
      modifies this
      ensures Valid()
      ensures lineItems == old(lineItems)
      ensures err.None? <==> !fault.At(0)
      ensures err.Some? ==>
        err.value == Other && c == ZeroCart && carts == old(carts) && nextCartID == old(nextCartID)
      ensures err.None? ==>
        && c == cart.(id := old(nextCartID))
        && nextCartID == old(nextCartID) + 1
        && c.id !in old(carts)
        && carts == old(carts)[c.id := CartRow(cart.userID, cart.createdAt, cart.updatedAt)]
    {
      if fault.At(0) {
        return ZeroCart, Some(Other);
      }
      var id := nextCartID;
      carts := carts[id := CartRow(cart.userID, cart.createdAt, cart.updatedAt)];
      nextCartID := nextCartID + 1;
      return cart.(id := id), None;
    }

    /**
     * Deletes a cart's line items and then its row, in one transaction.
     * Statements that match no row are not errors. Steps: 0 begin, 1 delete
     * items, 2 delete cart, 3 commit.
     */
    method DeleteCart(cartID: int, fault: Fault) returns (err: Option<Error>)
      requires Valid()
      modifies this
      ensures Valid()
      ensures nextCartID == old(nextCartID)
      ensures err.None? <==> !fault.Before(4)
      ensures err.Some? ==> err.value == Other && carts == old(carts) && lineItems == old(lineItems)
      ensures err.None? ==>
        lineItems == DeleteCartItems(old(lineItems), cartID) && carts == old(carts) - {cartID}
    {
      if fault.At(0) {
        return Some(Other);
      }
      var rows, cartRows := lineItems, carts;

      match DeleteLineItemsInTx(rows, cartID, noRowsWhenNoMatch, fault.At(1)) {
        case Ok(remaining) =>
          rows := remaining;
        case Err(e) =>
          if e != NotFound {
            return Some(Other);
          }
          DeleteCartItemsEffect(rows, cartID);
          FilterKeepsAll(rows, (y: ItemRow) => y.cartID != cartID);
      }

      if fault.At(2) {
        return Some(Other);
      }
      cartRows := cartRows - {cartID};

      if fault.At(3) {
        return Some(Other);
      }
      DeleteCartItemsEffect(lineItems, cartID);
      lineItems, carts := rows, cartRows;
      return None;
    }

    /**
     * Empties a cart: deletes its line items and stamps its updated_at, in
     * one transaction. Steps: 0 begin, 1 delete items, 2 update the cart
     * row, 3 commit.
     */
    method DeleteLineItems(cartID: int, now: Time, fault: Fault) returns (err: Option<Error>)
      requires Valid()
      modifies this
      ensures Valid()
      ensures nextCartID == old(nextCartID)
      ensures err.None? <==> !fault.Before(4) && !(noRowsWhenNoMatch && cartID !in old(carts))
      ensures err == Some(NotFound) <==> !fault.Before(3) && noRowsWhenNoMatch && cartID !in old(carts)
      ensures err.Some? ==> carts == old(carts) && lineItems == old(lineItems)
      ensures err.None? ==>
        lineItems == DeleteCartItems(old(lineItems), cartID) && carts == UpdateCartTS(old(carts), cartID, now)
    {
      if fault.At(0) {
        return Some(Other);
      }
      var rows, cartRows := lineItems, carts;

      match DeleteLineItemsInTx(rows, cartID, noRowsWhenNoMatch, fault.At(1)) {
        case Ok(remaining) =>
          rows := remaining;
        case Err(e) =>
          if e != NotFound {
            return Some(Other);
          }
          DeleteCartItemsEffect(rows, cartID);
          FilterKeepsAll(rows, (y: ItemRow) => y.cartID != cartID);
      }

      if fault.At(2) {
        return Some(Other);
      }
      if noRowsWhenNoMatch && cartID !in cartRows {
        return Some(NotFound);
      }
      cartRows := UpdateCartTS(cartRows, cartID, now);

      if fault.At(3) {
        return Some(Other);
      }
      DeleteCartItemsEffect(lineItems, cartID);
      lineItems, carts := rows, cartRows;
      return None;
    }
  }
}
