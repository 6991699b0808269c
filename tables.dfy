/**
 * The two tables behind the cart store and what each SQL statement of the
 * store does to them.
 *
 * The carts table maps a cart ID to its row. The line_items table is a
 * sequence of rows: new rows go at the end and updated rows keep their
 * place, which is one of the orders the database may return them in. Every statement is a function from
 * table contents to table contents (or to the rows it selects); the lemmas
 * state what the store's operations do at the level of table contents.
 */
module Tables {
  import opened Domain

  /** A row of the carts table, keyed by cart ID. */
  datatype CartRow = CartRow(userID: int, createdAt: Time, updatedAt: Time)

  /** A row of the line_items table. */
  datatype ItemRow = ItemRow(cartID: int, productID: int, quantity: Uint32, createdAt: Time, updatedAt: Time)

  predicate IsRowOf(r: ItemRow, cartID: int, productID: int) {
    r.cartID == cartID && r.productID == productID
  }

  /** At most one line item per (cart, product) pair. */
  ghost predicate Unique(rows: seq<ItemRow>) {
    forall i, j :: 0 <= i < j < |rows| ==> !IsRowOf(rows[j], rows[i].cartID, rows[i].productID)
  }

  // ---------------------------------------------------------------------------
  // Selecting rows

  /** The position of the first row for (cartID, productID), if there is one. */
  function FindRow(rows: seq<ItemRow>, cartID: int, productID: int): (k: Option<nat>)
    ensures k.Some? ==> k.value < |rows| && IsRowOf(rows[k.value], cartID, productID)
    ensures k.Some? ==> forall i :: 0 <= i < k.value ==> !IsRowOf(rows[i], cartID, productID)
    ensures k.None? ==> forall i :: 0 <= i < |rows| ==> !IsRowOf(rows[i], cartID, productID)
  {
    if rows == [] then None
    else if IsRowOf(rows[0], cartID, productID) then Some(0)
    else match FindRow(rows[1..], cartID, productID)
      case None => None
      case Some(k) => Some(k + 1)
  }

  /** The row for (cartID, productID), if there is one. */
  function Lookup(rows: seq<ItemRow>, cartID: int, productID: int): (r: Option<ItemRow>)
    ensures r.Some? ==> r.value in rows && IsRowOf(r.value, cartID, productID)
    ensures r.None? <==> forall x :: x in rows ==> !IsRowOf(x, cartID, productID)
  {
    match FindRow(rows, cartID, productID)
    case None => None
    case Some(k) => Some(rows[k])
  }

  /**
   * The product quantity query: the line item of (cartID, productID) with
   * only ProductID and Quantity filled in, or the not-found error when the
   * query yields no row.
   */
  function QueryLineItem(rows: seq<ItemRow>, cartID: int, productID: int): (r: Result<LineItem>)
    ensures r.Err? <==> Lookup(rows, cartID, productID).None?
    ensures r.Err? ==> r.error == NotFound
    ensures r.Ok? ==>
      r.value == LineItem(productID, Lookup(rows, cartID, productID).value.quantity, ZeroTime, ZeroTime)
  {
    match Lookup(rows, cartID, productID)
    case None => Err(NotFound)
    case Some(row) => Ok(Scanned(row))
  }

  /** The rows that `keep` accepts, in their order. */
  function Filter(rows: seq<ItemRow>, keep: ItemRow -> bool): (r: seq<ItemRow>)
    ensures |r| <= |rows|
    ensures forall x :: x in r <==> x in rows && keep(x)
  {
    if rows == [] then []
    else if keep(rows[0]) then [rows[0]] + Filter(rows[1..], keep)
    else Filter(rows[1..], keep)
  }

  /** The line items query of one cart, in table order. */
  function LinesByCartID(rows: seq<ItemRow>, cartID: int): (r: seq<ItemRow>)
    ensures |r| <= |rows|
    ensures forall x :: x in r <==> x in rows && x.cartID == cartID
  {
    Filter(rows, (r: ItemRow) => r.cartID == cartID)
  }

  /** A line item as the cart query scans it: product ID and quantity only. */
  function Scanned(r: ItemRow): LineItem {
    LineItem(r.productID, r.quantity, ZeroTime, ZeroTime)
  }

  /** The items of a cart as the cart query returns them. */
  function CartLines(rows: seq<ItemRow>, cartID: int): (items: seq<LineItem>)
    ensures |items| == |LinesByCartID(rows, cartID)|
    ensures forall i :: 0 <= i < |items| ==>
      && items[i].productID == LinesByCartID(rows, cartID)[i].productID
      && items[i].quantity == LinesByCartID(rows, cartID)[i].quantity
    ensures forall li :: li in items ==> li.createdAt == ZeroTime && li.updatedAt == ZeroTime
  {
    var selected := LinesByCartID(rows, cartID);
    seq(|selected|, i requires 0 <= i < |selected| => Scanned(selected[i]))
  }

  // ---------------------------------------------------------------------------
  // Changing rows

  /** INSERT of a new line item for the cart. */
  function CreateLineItem(rows: seq<ItemRow>, cartID: int, li: LineItem): (r: seq<ItemRow>)
    ensures |r| == |rows| + 1 && r[..|rows|] == rows
    ensures IsRowOf(r[|rows|], cartID, li.productID)
    ensures r[|rows|].quantity == li.quantity
    ensures r[|rows|].createdAt == li.createdAt && r[|rows|].updatedAt == li.updatedAt
  {
    rows + [ItemRow(cartID, li.productID, li.quantity, li.createdAt, li.updatedAt)]
  }

  /** The effect of the line item UPDATE on one row. */
  function Touched(r: ItemRow, cartID: int, li: LineItem): ItemRow {
    if IsRowOf(r, cartID, li.productID) then r.(quantity := li.quantity, updatedAt := li.updatedAt) else r
  }

  /** UPDATE of quantity and updated_at on the rows of (cartID, li.productID). */
  function UpdateLineItem(rows: seq<ItemRow>, cartID: int, li: LineItem): (r: seq<ItemRow>)
    ensures |r| == |rows|
    ensures forall i :: 0 <= i < |rows| ==>
      && r[i].cartID == rows[i].cartID && r[i].productID == rows[i].productID
      && r[i].createdAt == rows[i].createdAt
    ensures forall i :: 0 <= i < |rows| && IsRowOf(rows[i], cartID, li.productID) ==>
      r[i].quantity == li.quantity && r[i].updatedAt == li.updatedAt
    ensures forall i :: 0 <= i < |rows| && !IsRowOf(rows[i], cartID, li.productID) ==> r[i] == rows[i]
  {
    seq(|rows|, i requires 0 <= i < |rows| => Touched(rows[i], cartID, li))
  }

  /** DELETE of the rows of (cartID, productID). */
  function DeleteLineItem(rows: seq<ItemRow>, cartID: int, productID: int): (r: seq<ItemRow>)
    ensures |r| <= |rows|
    ensures forall x :: x in r <==> x in rows && !IsRowOf(x, cartID, productID)
  {
    Filter(rows, (r: ItemRow) => !IsRowOf(r, cartID, productID))
  }

  /** DELETE of every row of the cart. */
  function DeleteCartItems(rows: seq<ItemRow>, cartID: int): (r: seq<ItemRow>)
    ensures |r| <= |rows|
    ensures forall x :: x in r <==> x in rows && x.cartID != cartID
  {
    Filter(rows, (r: ItemRow) => r.cartID != cartID)
  }

  /** UPDATE of a cart's updated_at; a missing cart row is left missing. */
  function UpdateCartTS(carts: map<int, CartRow>, cartID: int, now: Time): (r: map<int, CartRow>)
    ensures r.Keys == carts.Keys
    ensures forall id :: id in carts && id != cartID ==> r[id] == carts[id]
    ensures cartID in carts ==> r[cartID] == CartRow(carts[cartID].userID, carts[cartID].createdAt, now)
  {
    if cartID in carts then carts[cartID := carts[cartID].(updatedAt := now)] else carts
  }

  /**
   * What a committed AddProduct does to the line items: with no row for
   * (cartID, productID), insert one with the quantity; otherwise add the
   * quantity to the stored one and restamp the row.
   */
  function AddedProduct(rows: seq<ItemRow>, cartID: int, productID: int, quantity: Uint32, now: Time)
    : (r: seq<ItemRow>)
    ensures Lookup(rows, cartID, productID).None? ==> |r| == |rows| + 1
    ensures Lookup(rows, cartID, productID).Some? ==> |r| == |rows|
    ensures forall i :: 0 <= i < |rows| ==> r[i].cartID == rows[i].cartID && r[i].productID == rows[i].productID
    ensures forall i :: 0 <= i < |rows| && !IsRowOf(rows[i], cartID, productID) ==> r[i] == rows[i]
  {
    match QueryLineItem(rows, cartID, productID)
    case Ok(li) => UpdateLineItem(rows, cartID, li.(quantity := AddUint32(li.quantity, quantity), updatedAt := now))
    case Err(_) => CreateLineItem(rows, cartID, LineItem(productID, quantity, now, now))
  }

  // ---------------------------------------------------------------------------
  // Lookup and uniqueness

  /** Two tables with the same keys at every position find the same position. */
  lemma FindRowSameKeys(a: seq<ItemRow>, b: seq<ItemRow>, cartID: int, productID: int)
    requires |a| == |b|
    requires forall i :: 0 <= i < |a| ==> a[i].cartID == b[i].cartID && a[i].productID == b[i].productID
    ensures FindRow(a, cartID, productID) == FindRow(b, cartID, productID)
  {
    assert forall i :: 0 <= i < |a| ==> IsRowOf(a[i], cartID, productID) == IsRowOf(b[i], cartID, productID);
  }

  /** In a table with unique keys, the row of a key is the one Lookup finds. */
  lemma LookupUnique(rows: seq<ItemRow>, x: ItemRow)
    requires Unique(rows)
    requires x in rows
    ensures Lookup(rows, x.cartID, x.productID) == Some(x)
  {
    var j :| 0 <= j < |rows| && rows[j] == x;
    var k := FindRow(rows, x.cartID, x.productID);
    assert k.Some? by { assert IsRowOf(rows[j], x.cartID, x.productID); }
  }

  lemma LookupCons(x: ItemRow, s: seq<ItemRow>, cartID: int, productID: int)
    ensures Lookup([x] + s, cartID, productID)
         == if IsRowOf(x, cartID, productID) then Some(x) else Lookup(s, cartID, productID)
  {
    assert ([x] + s)[1..] == s;
  }

  lemma LookupAppend(rows: seq<ItemRow>, x: ItemRow, cartID: int, productID: int)
    ensures Lookup(rows + [x], cartID, productID)
         == if Lookup(rows, cartID, productID).Some? then Lookup(rows, cartID, productID)
            else if IsRowOf(x, cartID, productID) then Some(x) else None
  {
    var s := rows + [x];
    assert forall i :: 0 <= i < |rows| ==> s[i] == rows[i];
    assert s[|rows|] == x;
  }

  lemma UniqueCons(x: ItemRow, s: seq<ItemRow>)
    ensures Unique([x] + s) <==> Unique(s) && forall y :: y in s ==> !IsRowOf(y, x.cartID, x.productID)
  {
    var t := [x] + s;
    if Unique(t) {
      forall i, j | 0 <= i < j < |s|
        ensures !IsRowOf(s[j], s[i].cartID, s[i].productID)
      {
        assert t[i + 1] == s[i] && t[j + 1] == s[j];
      }
      forall y | y in s
        ensures !IsRowOf(y, x.cartID, x.productID)
      {
        var j :| 0 <= j < |s| && s[j] == y;
        assert t[0] == x && t[j + 1] == y;
      }
    }
    if Unique(s) && forall y :: y in s ==> !IsRowOf(y, x.cartID, x.productID) {
      forall i, j | 0 <= i < j < |t|
        ensures !IsRowOf(t[j], t[i].cartID, t[i].productID)
      {
        if i == 0 {
          assert t[j] == s[j - 1];
        } else {
          assert t[i] == s[i - 1] && t[j] == s[j - 1];
        }
      }
    }
  }

  // ---------------------------------------------------------------------------
  // Filters

  lemma {:induction false} FilterAppend(a: seq<ItemRow>, b: seq<ItemRow>, keep: ItemRow -> bool)
    ensures Filter(a + b, keep) == Filter(a, keep) + Filter(b, keep)
  {
    if a == [] {
      assert a + b == b;
    } else {
      assert (a + b)[1..] == a[1..] + b;
      FilterAppend(a[1..], b, keep);
    }
  }

  /** A filter that keeps every row returns the table unchanged. */
  lemma {:induction false} FilterKeepsAll(rows: seq<ItemRow>, keep: ItemRow -> bool)
    requires forall x :: x in rows ==> keep(x)
    ensures Filter(rows, keep) == rows
  {
    if rows != [] {
      assert rows[0] in rows;
      assert forall x :: x in rows[1..] ==> x in rows;
      FilterKeepsAll(rows[1..], keep);
    }
  }

  /** A filter that keeps no row returns no row. */
  lemma {:induction false} FilterKeepsNone(rows: seq<ItemRow>, keep: ItemRow -> bool)
    requires forall x :: x in rows ==> !keep(x)
    ensures Filter(rows, keep) == []
  {
    if rows != [] {
      assert rows[0] in rows;
      assert forall x :: x in rows[1..] ==> x in rows;
      FilterKeepsNone(rows[1..], keep);
    }
  }

  /** Dropping rows cannot introduce a duplicate key. */
  lemma {:induction false} FilterKeepsUnique(rows: seq<ItemRow>, keep: ItemRow -> bool)
    requires Unique(rows)
    ensures Unique(Filter(rows, keep))
  {
    if rows != [] {
      assert rows == [rows[0]] + rows[1..];
      UniqueCons(rows[0], rows[1..]);
      FilterKeepsUnique(rows[1..], keep);
      if keep(rows[0]) {
        UniqueCons(rows[0], Filter(rows[1..], keep));
      }
    }
  }

  /** A filter that keeps every row of a key does not change what Lookup finds for it. */
  lemma {:induction false} FilterLookup(rows: seq<ItemRow>, keep: ItemRow -> bool, cartID: int, productID: int)
    requires forall x :: IsRowOf(x, cartID, productID) ==> keep(x)
    ensures Lookup(Filter(rows, keep), cartID, productID) == Lookup(rows, cartID, productID)
  {
    if rows != [] {
      assert rows == [rows[0]] + rows[1..];
      LookupCons(rows[0], rows[1..], cartID, productID);
      FilterLookup(rows[1..], keep, cartID, productID);
      if keep(rows[0]) {
        LookupCons(rows[0], Filter(rows[1..], keep), cartID, productID);
      }
    }
  }

  /** Filtering with a weaker condition first does not change a filter. */
  lemma {:induction false} FilterNarrow(rows: seq<ItemRow>, wide: ItemRow -> bool, narrow: ItemRow -> bool)
    requires forall x :: narrow(x) ==> wide(x)
    ensures Filter(Filter(rows, wide), narrow) == Filter(rows, narrow)
  {
    if rows != [] {
      FilterNarrow(rows[1..], wide, narrow);
      if wide(rows[0]) {
        assert ([rows[0]] + Filter(rows[1..], wide))[1..] == Filter(rows[1..], wide);
      }
    }
  }

  /**
   * Two tables that have the same keys at every position and agree on every
   * row outside (cartID, productID) are equal once that pair is deleted.
   */
  lemma {:induction false} DeleteLineItemAgree(a: seq<ItemRow>, b: seq<ItemRow>, cartID: int, productID: int)
    requires |a| == |b|
    requires forall i :: 0 <= i < |a| ==> IsRowOf(a[i], cartID, productID) == IsRowOf(b[i], cartID, productID)
    requires forall i :: 0 <= i < |a| && !IsRowOf(a[i], cartID, productID) ==> a[i] == b[i]
    ensures DeleteLineItem(a, cartID, productID) == DeleteLineItem(b, cartID, productID)
  {
    if a != [] {
      DeleteLineItemAgree(a[1..], b[1..], cartID, productID);
      assert IsRowOf(a[0], cartID, productID) == IsRowOf(b[0], cartID, productID);
    }
  }

  // ---------------------------------------------------------------------------
  // AddProduct

  /** With no row for the pair, AddProduct inserts exactly one, stamped now. */
  lemma AddProductInserts(rows: seq<ItemRow>, cartID: int, productID: int, quantity: Uint32, now: Time)
    requires Lookup(rows, cartID, productID).None?
    ensures AddedProduct(rows, cartID, productID, quantity, now) == rows + [ItemRow(cartID, productID, quantity, now, now)]
    ensures Lookup(AddedProduct(rows, cartID, productID, quantity, now), cartID, productID)
         == Some(ItemRow(cartID, productID, quantity, now, now))
  {
    LookupAppend(rows, ItemRow(cartID, productID, quantity, now, now), cartID, productID);
  }

  /**
   * With a row for the pair, AddProduct adds the quantity to it (wrapping at
   * 2^32) and restamps updated_at; created_at and the number of rows stay.
   */
  lemma AddProductAccumulates(rows: seq<ItemRow>, cartID: int, productID: int, quantity: Uint32, now: Time)
    requires Lookup(rows, cartID, productID).Some?
    ensures |AddedProduct(rows, cartID, productID, quantity, now)| == |rows|
    ensures var old_ := Lookup(rows, cartID, productID).value;
      Lookup(AddedProduct(rows, cartID, productID, quantity, now), cartID, productID)
        == Some(ItemRow(cartID, productID, AddUint32(old_.quantity, quantity), old_.createdAt, now))
  {
    var old_ := Lookup(rows, cartID, productID).value;
    var li := LineItem(productID, AddUint32(old_.quantity, quantity), ZeroTime, now);
    var r := UpdateLineItem(rows, cartID, li);
    assert AddedProduct(rows, cartID, productID, quantity, now) == r;
    FindRowSameKeys(rows, r, cartID, productID);
  }

  /** AddProduct changes no row except that of (cartID, productID). */
  lemma AddProductFrame(rows: seq<ItemRow>, cartID: int, productID: int, quantity: Uint32, now: Time)
    ensures DeleteLineItem(AddedProduct(rows, cartID, productID, quantity, now), cartID, productID)
         == DeleteLineItem(rows, cartID, productID)
    ensures forall c, p :: !(c == cartID && p == productID) ==>
      Lookup(AddedProduct(rows, cartID, productID, quantity, now), c, p) == Lookup(rows, c, p)
  {
    var r := AddedProduct(rows, cartID, productID, quantity, now);
    var x := ItemRow(cartID, productID, quantity, now, now);
    if Lookup(rows, cartID, productID).None? {
      assert r == rows + [x];
      FilterAppend(rows, [x], y => !IsRowOf(y, cartID, productID));
      assert DeleteLineItem([x], cartID, productID) == [];
      forall c, p | !(c == cartID && p == productID)
        ensures Lookup(r, c, p) == Lookup(rows, c, p)
      {
        LookupAppend(rows, x, c, p);
      }
    } else {
      var old_ := Lookup(rows, cartID, productID).value;
      var li := LineItem(productID, AddUint32(old_.quantity, quantity), ZeroTime, now);
      assert r == UpdateLineItem(rows, cartID, li);
      DeleteLineItemAgree(r, rows, cartID, productID);
      forall c, p | !(c == cartID && p == productID)
        ensures Lookup(r, c, p) == Lookup(rows, c, p)
      {
        FindRowSameKeys(rows, r, c, p);
      }
    }
  }

  /** AddProduct keeps at most one line item per (cart, product). */
  lemma AddProductKeepsUnique(rows: seq<ItemRow>, cartID: int, productID: int, quantity: Uint32, now: Time)
    requires Unique(rows)
    ensures Unique(AddedProduct(rows, cartID, productID, quantity, now))
  {
    var r := AddedProduct(rows, cartID, productID, quantity, now);
    if Lookup(rows, cartID, productID).None? {
      assert r == rows + [ItemRow(cartID, productID, quantity, now, now)];
      forall i, j | 0 <= i < j < |r|
        ensures !IsRowOf(r[j], r[i].cartID, r[i].productID)
      {
        if j == |rows| {
          assert r[i] in rows;
        }
      }
    } else {
      assert |r| == |rows|;
      assert forall i :: 0 <= i < |r| ==> r[i].cartID == rows[i].cartID && r[i].productID == rows[i].productID;
    }
  }

  /**
   * Adding q1 and then q2 of a product the cart did not hold leaves one row
   * with q1 + q2 (modulo 2^32), created at the first add and updated at the second.
   */
  lemma AddProductTwice(rows: seq<ItemRow>, cartID: int, productID: int, q1: Uint32, q2: Uint32, t1: Time, t2: Time)
    requires Lookup(rows, cartID, productID).None?
    ensures Lookup(AddedProduct(AddedProduct(rows, cartID, productID, q1, t1), cartID, productID, q2, t2), cartID, productID)
         == Some(ItemRow(cartID, productID, AddUint32(q1, q2), t1, t2))
    ensures q1 + q2 < TwoTo32 ==>
      Lookup(AddedProduct(AddedProduct(rows, cartID, productID, q1, t1), cartID, productID, q2, t2), cartID, productID).value.quantity
        == q1 + q2
  {
    AddProductInserts(rows, cartID, productID, q1, t1);
    AddProductAccumulates(AddedProduct(rows, cartID, productID, q1, t1), cartID, productID, q2, t2);
  }

  // ---------------------------------------------------------------------------
  // DeleteProduct, DeleteCart, DeleteLineItems

  /**
   * Deleting a product removes its row and nothing else; with no row the
   * table is unchanged.
   */
  lemma DeleteLineItemEffect(rows: seq<ItemRow>, cartID: int, productID: int)
    ensures Lookup(DeleteLineItem(rows, cartID, productID), cartID, productID).None?
    ensures forall c, p :: !(c == cartID && p == productID) ==>
      Lookup(DeleteLineItem(rows, cartID, productID), c, p) == Lookup(rows, c, p)
    ensures Lookup(rows, cartID, productID).None? ==> DeleteLineItem(rows, cartID, productID) == rows
    ensures Unique(rows) ==> Unique(DeleteLineItem(rows, cartID, productID))
  {
    var keep := (y: ItemRow) => !IsRowOf(y, cartID, productID);
    forall c, p | !(c == cartID && p == productID)
      ensures Lookup(DeleteLineItem(rows, cartID, productID), c, p) == Lookup(rows, c, p)
    {
      FilterLookup(rows, keep, c, p);
    }
    if Lookup(rows, cartID, productID).None? {
      FilterKeepsAll(rows, keep);
    }
    if Unique(rows) {
      FilterKeepsUnique(rows, keep);
    }
  }

  /**
   * Deleting a cart's items leaves that cart without items and every other
   * cart's items, in order, as they were.
   */
  lemma DeleteCartItemsEffect(rows: seq<ItemRow>, cartID: int)
    ensures LinesByCartID(DeleteCartItems(rows, cartID), cartID) == []
    ensures forall c :: c != cartID ==> LinesByCartID(DeleteCartItems(rows, cartID), c) == LinesByCartID(rows, c)
    ensures forall c :: c != cartID ==> CartLines(DeleteCartItems(rows, cartID), c) == CartLines(rows, c)
    ensures forall c, p :: c != cartID ==> Lookup(DeleteCartItems(rows, cartID), c, p) == Lookup(rows, c, p)
    ensures Unique(rows) ==> Unique(DeleteCartItems(rows, cartID))
  {
    var keep := (y: ItemRow) => y.cartID != cartID;
    var r := DeleteCartItems(rows, cartID);
    FilterKeepsNone(r, (y: ItemRow) => y.cartID == cartID);
    forall c | c != cartID
      ensures LinesByCartID(r, c) == LinesByCartID(rows, c)
    {
      FilterNarrow(rows, keep, (y: ItemRow) => y.cartID == c);
    }
    forall c, p | c != cartID
      ensures Lookup(r, c, p) == Lookup(rows, c, p)
    {
      FilterLookup(rows, keep, c, p);
    }
    if Unique(rows) {
      FilterKeepsUnique(rows, keep);
    }
  }

  // ---------------------------------------------------------------------------
  // CartByID

  /**
   * With unique keys, a cart's items hold product p with quantity q exactly
   * when the table holds a row for (cartID, p) with quantity q.
   */
  lemma CartLinesExact(rows: seq<ItemRow>, cartID: int, productID: int, quantity: Uint32)
    requires Unique(rows)
    ensures LineItem(productID, quantity, ZeroTime, ZeroTime) in CartLines(rows, cartID)
        <==> Lookup(rows, cartID, productID).Some? && Lookup(rows, cartID, productID).value.quantity == quantity
  {
    var selected := LinesByCartID(rows, cartID);
    var items := CartLines(rows, cartID);
    var li := LineItem(productID, quantity, ZeroTime, ZeroTime);
    if li in items {
      var i :| 0 <= i < |items| && items[i] == li;
      assert selected[i] in selected;
      LookupUnique(rows, selected[i]);
    }
    var found := Lookup(rows, cartID, productID);
    if found.Some? && found.value.quantity == quantity {
      assert found.value in selected;
      var i :| 0 <= i < |selected| && selected[i] == found.value;
      assert items[i] == li;
    }
  }

  /** With unique keys, no product appears twice among a cart's items. */
  lemma CartLinesDistinct(rows: seq<ItemRow>, cartID: int)
    requires Unique(rows)
    ensures forall i, j :: 0 <= i < j < |CartLines(rows, cartID)| ==>
      CartLines(rows, cartID)[i].productID != CartLines(rows, cartID)[j].productID
  {
    var selected := LinesByCartID(rows, cartID);
    FilterKeepsUnique(rows, (r: ItemRow) => r.cartID == cartID);
    forall i, j | 0 <= i < j < |selected|
      ensures selected[i].productID != selected[j].productID
    {
      assert selected[i] in selected && selected[j] in selected;
      assert !IsRowOf(selected[j], selected[i].cartID, selected[i].productID);
    }
  }

  /** The items of a cart emptied by DeleteCartItems are none. */
  lemma CartLinesAfterDelete(rows: seq<ItemRow>, cartID: int)
    ensures CartLines(DeleteCartItems(rows, cartID), cartID) == []
  {
    DeleteCartItemsEffect(rows, cartID);
  }
}
