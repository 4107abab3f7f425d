/**
 * The +, − and remove controls of one cart row
 * (frontend/src/components/Cart/CartItem.tsx). Each handler decides which
 * callback, if any, the row fires; the callbacks are the cart store's
 * `updateQuantity` and `removeFromCart`.
 */
module CartItemControls {
  import opened Wrappers
  import opened CartContext

  /** A callback the row fires: `onUpdateQuantity(id, quantity)` or `onRemoveItem(id)`. */
  datatype Callback = UpdateQuantity(id: string, quantity: int) | RemoveItem(id: string)

  /** `handleDecrease` (lines 25-29): ask for one less, but only above 1. */
  function HandleDecrease(id: string, quantity: int): (r: Option<Callback>)
    ensures r.Some? <==> quantity > 1
    ensures r.Some? ==> r.value.UpdateQuantity? && r.value.id == id && r.value.quantity == quantity - 1 >= 1
  {
    if quantity > 1 then Some(UpdateQuantity(id, quantity - 1)) else None
  }

  /** `handleIncrease` (lines 31-33): always ask for one more. */
  function HandleIncrease(id: string, quantity: int): (r: Callback)
    ensures r.UpdateQuantity? && r.id == id && r.quantity == quantity + 1
  {
    UpdateQuantity(id, quantity + 1)
  }

  /** `handleRemove` (lines 35-37): remove the row's own dish. */
  function HandleRemove(id: string): (r: Callback)
    ensures r.RemoveItem? && r.id == id
  {
    RemoveItem(id)
  }

  /** The decrease button's `disabled` attribute (line 72). */
  predicate DecreaseDisabled(quantity: int)
  {
    quantity <= 1
  }

  /** The callbacks wired to the cart store. */
  function Dispatch(lines: seq<CartLine>, cb: Callback): seq<CartLine>
  {
    match cb
    case UpdateQuantity(id, q) => UpdateLines(lines, id, q)
    case RemoveItem(id) => RemoveLines(lines, id)
  }

  /** The button is disabled exactly when its handler would do nothing. */
  lemma DecreaseDisabledIffInert(id: string, quantity: int)
    ensures DecreaseDisabled(quantity) <==> HandleDecrease(id, quantity).None?
  {
  }

  /**
   * On a row of a well-formed cart, the decrease path never reaches the
   * removal branch of `updateQuantity`: the line stays, one unit lower, and the
   * cart stays well-formed.
   */
  lemma {:induction false} DecreaseNeverRemoves(lines: seq<CartLine>, k: nat)
    requires WellFormed(lines) && k < |lines|
    ensures var line := lines[k];
      match HandleDecrease(line.item.id, line.quantity)
      case None => line.quantity == 1
      case Some(cb) =>
        && Dispatch(lines, cb) == lines[k := line.(quantity := line.quantity - 1)]
        && WellFormed(Dispatch(lines, cb))
        && QuantityOf(Dispatch(lines, cb), line.item.id) == line.quantity - 1
  {
    var line := lines[k];
    if line.quantity > 1 {
      var cb := UpdateQuantity(line.item.id, line.quantity - 1);
      UpdateCases(lines, line.item.id, line.quantity - 1);
      UpdatePreservesWellFormed(lines, line.item.id, line.quantity - 1);
      assert HasId(lines, line.item.id);
    }
  }

  /** The increase path raises the row's quantity by one and leaves the others. */
  lemma {:induction false} IncreaseAddsOne(lines: seq<CartLine>, k: nat)
    requires WellFormed(lines) && k < |lines|
    ensures var line := lines[k];
      Dispatch(lines, HandleIncrease(line.item.id, line.quantity)) == lines[k := line.(quantity := line.quantity + 1)]
  {
    var line := lines[k];
    UpdateCases(lines, line.item.id, line.quantity + 1);
  }

  /** The remove path takes the row out of the cart and its quantity off the item count. */
  lemma {:induction false} RemoveTakesRowOut(lines: seq<CartLine>, k: nat)
    requires WellFormed(lines) && k < |lines|
    ensures var line := lines[k];
      && !HasId(Dispatch(lines, HandleRemove(line.item.id)), line.item.id)
      && SumQuantities(Dispatch(lines, HandleRemove(line.item.id))) == SumQuantities(lines) - line.quantity
  {
    var line := lines[k];
    RemoveKeepsOthers(lines, line.item.id);
    RemoveTotals(lines, line.item.id);
    QuantityOfWellFormed(lines, line.item.id);
  }
}
