/**
 * The shopping-cart store of the front end (frontend/src/contexts/CartContext.tsx).
 *
 * The store keeps an ordered list of lines, one dish record plus a quantity
 * each. Every action replaces the list with a transformed copy; the copy is
 * computed by the pure functions below, and the provider class holds the
 * current list and mirrors it into browser storage after every change.
 */
module CartContext {
  import opened Wrappers
  import opened MenuTypes
  import Sequences

  /** A cart row: the dish record spread into the row, plus its quantity. */
  datatype CartLine = CartLine(item: MenuItem, quantity: int)

  predicate HasId(lines: seq<CartLine>, id: string)
  {
    exists i | 0 <= i < |lines| :: lines[i].item.id == id
  }

  /** The cart invariant: at most one line per dish id, and every quantity at least 1. */
  predicate WellFormed(lines: seq<CartLine>)
  {
    && (forall i, j | 0 <= i < j < |lines| :: lines[i].item.id != lines[j].item.id)
    && (forall i | 0 <= i < |lines| :: lines[i].quantity >= 1)
  }

  /** `lines.find(l => l.id === id)`, as the index of the first line with that id. */
  function Find(lines: seq<CartLine>, id: string): (r: Option<nat>)
    ensures r.None? <==> !HasId(lines, id)
    ensures r.Some? ==> r.value < |lines| && lines[r.value].item.id == id
    ensures r.Some? ==> forall j | 0 <= j < r.value :: lines[j].item.id != id
  {
    if lines == [] then None
    else if lines[0].item.id == id then Some(0)
    else
      match Find(lines[1..], id)
      case None => None
      case Some(k) => Some(k + 1)
  }

  /** Lines whose ids agree position by position are searched alike. */
  lemma {:induction false} FindSameIds(a: seq<CartLine>, b: seq<CartLine>, id: string)
    requires |a| == |b| && forall i | 0 <= i < |a| :: a[i].item.id == b[i].item.id
    ensures Find(a, id) == Find(b, id)
  {
    if a != [] {
      FindSameIds(a[1..], b[1..], id);
    }
  }

  /** Searching a list extended at the end. */
  lemma {:induction false} FindSnoc(lines: seq<CartLine>, line: CartLine, id: string)
    ensures Find(lines + [line], id) ==
      if HasId(lines, id) then Find(lines, id)
      else if line.item.id == id then Some(|lines|) else None
  {
    if lines != [] {
      assert (lines + [line])[1..] == lines[1..] + [line];
      FindSnoc(lines[1..], line, id);
    }
  }

  /** `getItemQuantity` (lines 103-106): the first matching line's quantity, or 0. */
  function QuantityOf(lines: seq<CartLine>, id: string): (q: int)
    ensures !HasId(lines, id) ==> q == 0
  {
    match Find(lines, id)
    case Some(k) => lines[k].quantity
    case None => 0
  }

  /** In a well-formed cart the quantity reported is the one line's quantity, hence positive exactly when present. */
  lemma QuantityOfWellFormed(lines: seq<CartLine>, id: string)
    requires WellFormed(lines)
    ensures QuantityOf(lines, id) >= 1 <==> HasId(lines, id)
    ensures forall i | 0 <= i < |lines| && lines[i].item.id == id :: QuantityOf(lines, id) == lines[i].quantity
  {
  }

  /** The `map` on lines 62-66: every line with this id gains one unit. */
  function IncrementLines(lines: seq<CartLine>, id: string): seq<CartLine>
  {
    seq(|lines|, i requires 0 <= i < |lines| =>
      if lines[i].item.id == id then lines[i].(quantity := lines[i].quantity + 1) else lines[i])
  }

  /** `addToCart` (lines 55-72): bump the existing line, or append a new line of quantity 1. */
  function AddLine(lines: seq<CartLine>, item: MenuItem): seq<CartLine>
  {
    if Find(lines, item.id).Some? then IncrementLines(lines, item.id)
    else lines + [CartLine(item, 1)]
  }

  /** `removeFromCart` (lines 75-79): keep the lines whose id differs. */
  function RemoveLines(lines: seq<CartLine>, id: string): seq<CartLine>
  {
    Sequences.Filter(lines, (l: CartLine) => l.item.id != id)
  }

  /** The `map` on lines 89-93: every line with this id gets the given quantity. */
  function SetQuantityLines(lines: seq<CartLine>, id: string, quantity: int): seq<CartLine>
  {
    seq(|lines|, i requires 0 <= i < |lines| =>
      if lines[i].item.id == id then lines[i].(quantity := quantity) else lines[i])
  }

  /** `updateQuantity` (lines 82-95): a quantity of 0 or less removes the line. */
  function UpdateLines(lines: seq<CartLine>, id: string, quantity: int): seq<CartLine>
  {
    if quantity <= 0 then RemoveLines(lines, id) else SetQuantityLines(lines, id, quantity)
  }

  /** The `totalItems` reduce (lines 50-52), accumulated left to right. */
  function SumQuantities(lines: seq<CartLine>): (n: int)
    ensures WellFormed(lines) ==> n >= |lines| && (n == 0 <==> lines == [])
  {
    if lines == [] then 0 else SumQuantities(lines[..|lines| - 1]) + lines[|lines| - 1].quantity
  }

  /** One line's share of the amount: `item.priceSek * item.quantity`. */
  function LineAmount(line: CartLine): int
  {
    line.item.priceSek * line.quantity
  }

  /** The `totalAmount` reduce (lines 45-47), accumulated left to right. */
  function SumAmounts(lines: seq<CartLine>): int
  {
    if lines == [] then 0 else SumAmounts(lines[..|lines| - 1]) + LineAmount(lines[|lines| - 1])
  }

  // ----- what the actions do to the list -----

  /** Adding a dish already in a well-formed cart raises exactly its line by one; order and the other lines stay. */
  lemma AddExistingBumpsItsLine(lines: seq<CartLine>, item: MenuItem, k: nat)
    requires WellFormed(lines) && k < |lines| && lines[k].item.id == item.id
    ensures AddLine(lines, item) == lines[k := lines[k].(quantity := lines[k].quantity + 1)]
  {
  }

  /** Adding a dish not yet in the cart appends one line of quantity 1 at the end. */
  lemma AddAbsentAppends(lines: seq<CartLine>, item: MenuItem)
    requires !HasId(lines, item.id)
    ensures AddLine(lines, item) == lines + [CartLine(item, 1)]
  {
  }

  /** `getItemQuantity` after `addToCart`: one more of the added dish, the same of every other. */
  lemma {:induction false} AddCounts(lines: seq<CartLine>, item: MenuItem, id: string)
    ensures QuantityOf(AddLine(lines, item), id) ==
      QuantityOf(lines, id) + (if id == item.id then 1 else 0)
  {
    var r := AddLine(lines, item);
    if Find(lines, item.id).Some? {
      FindSameIds(lines, r, id);
    } else {
      FindSnoc(lines, CartLine(item, 1), id);
    }
  }

  /** `n` calls of `addToCart` with one dish. */
  function AddTimes(lines: seq<CartLine>, item: MenuItem, n: nat): seq<CartLine>
  {
    if n == 0 then lines else AddLine(AddTimes(lines, item, n - 1), item)
  }

  /** After `n` adds of a dish that was absent, `getItemQuantity` reports `n`. */
  lemma {:induction false} AddTimesCounts(lines: seq<CartLine>, item: MenuItem, n: nat)
    ensures QuantityOf(AddTimes(lines, item, n), item.id) == QuantityOf(lines, item.id) + n
    ensures !HasId(lines, item.id) ==> QuantityOf(AddTimes(lines, item, n), item.id) == n
  {
    if n > 0 {
      AddTimesCounts(lines, item, n - 1);
      AddCounts(AddTimes(lines, item, n - 1), item, item.id);
    }
  }

  /** `removeFromCart` keeps exactly the other lines, in order, and is a no-op for an absent id. */
  lemma RemoveKeepsOthers(lines: seq<CartLine>, id: string)
    ensures forall l :: l in RemoveLines(lines, id) <==> l in lines && l.item.id != id
    ensures Sequences.IsSubsequence(RemoveLines(lines, id), lines)
    ensures !HasId(RemoveLines(lines, id), id)
    ensures !HasId(lines, id) ==> RemoveLines(lines, id) == lines
  {
    Sequences.FilterIsSubsequence(lines, (l: CartLine) => l.item.id != id);
    if !HasId(lines, id) {
      Sequences.FilterKeepsAll(lines, (l: CartLine) => l.item.id != id);
    }
  }

  /** `updateQuantity`: non-positive means remove, positive means set (not add), absent means no-op. */
  lemma UpdateCases(lines: seq<CartLine>, id: string, quantity: int)
    ensures quantity <= 0 ==> UpdateLines(lines, id, quantity) == RemoveLines(lines, id)
    ensures !HasId(lines, id) ==> UpdateLines(lines, id, quantity) == lines
    ensures quantity > 0 && WellFormed(lines) ==>
      forall k | 0 <= k < |lines| && lines[k].item.id == id ::
        UpdateLines(lines, id, quantity) == lines[k := lines[k].(quantity := quantity)]
    ensures quantity > 0 ==> QuantityOf(UpdateLines(lines, id, quantity), id) == if HasId(lines, id) then quantity else 0
  {
    if quantity <= 0 {
      RemoveKeepsOthers(lines, id);
    } else {
      SetQuantityCases(lines, id, quantity);
    }
  }

  /** The positive branch of `updateQuantity`: the matching line takes the quantity, nothing else moves. */
  lemma SetQuantityCases(lines: seq<CartLine>, id: string, quantity: int)
    requires quantity > 0
    ensures !HasId(lines, id) ==> SetQuantityLines(lines, id, quantity) == lines
    ensures WellFormed(lines) ==>
      forall k | 0 <= k < |lines| && lines[k].item.id == id ::
        SetQuantityLines(lines, id, quantity) == lines[k := lines[k].(quantity := quantity)]
    ensures QuantityOf(SetQuantityLines(lines, id, quantity), id) == if HasId(lines, id) then quantity else 0
  {
    var r := SetQuantityLines(lines, id, quantity);
    FindSameIds(lines, r, id);
    if !HasId(lines, id) {
      assert forall i | 0 <= i < |lines| :: r[i] == lines[i];
    }
  }

  // ----- the invariant -----

  /** A filter of a well-formed cart is well-formed. */
  lemma {:induction false} FilterWellFormed(lines: seq<CartLine>, p: CartLine -> bool)
    requires WellFormed(lines)
    ensures WellFormed(Sequences.Filter(lines, p))
  {
    if lines != [] {
      var init, last := lines[..|lines| - 1], lines[|lines| - 1];
      FilterWellFormed(init, p);
      var r := Sequences.Filter(init, p);
      forall i | 0 <= i < |r| ensures r[i].item.id != last.item.id {
        assert r[i] in init;
      }
    }
  }

  /** `addToCart` keeps the cart invariant. */
  lemma AddPreservesWellFormed(lines: seq<CartLine>, item: MenuItem)
    requires WellFormed(lines)
    ensures WellFormed(AddLine(lines, item))
  {
    if !HasId(lines, item.id) {
      assert WellFormed(lines + [CartLine(item, 1)]);
    }
  }

  /** `removeFromCart` keeps the cart invariant. */
  lemma RemovePreservesWellFormed(lines: seq<CartLine>, id: string)
    requires WellFormed(lines)
    ensures WellFormed(RemoveLines(lines, id))
  {
    FilterWellFormed(lines, (l: CartLine) => l.item.id != id);
  }

  /** `updateQuantity` keeps the cart invariant, whatever the quantity asked for. */
  lemma UpdatePreservesWellFormed(lines: seq<CartLine>, id: string, quantity: int)
    requires WellFormed(lines)
    ensures WellFormed(UpdateLines(lines, id, quantity))
  {
    RemovePreservesWellFormed(lines, id);
  }

  // ----- the totals -----

  lemma {:induction false} SumsSnoc(lines: seq<CartLine>, line: CartLine)
    ensures SumQuantities(lines + [line]) == SumQuantities(lines) + line.quantity
    ensures SumAmounts(lines + [line]) == SumAmounts(lines) + LineAmount(line)
  {
    assert (lines + [line])[..|lines|] == lines;
  }

  /** Replacing one line changes the item count by that line's difference. */
  lemma {:induction false} QuantitiesReplace(lines: seq<CartLine>, k: nat, line: CartLine)
    requires k < |lines|
    ensures SumQuantities(lines[k := line]) == SumQuantities(lines) - lines[k].quantity + line.quantity
  {
    var n := |lines|;
    if k < n - 1 {
      QuantitiesReplace(lines[..n - 1], k, line);
      assert lines[k := line][..n - 1] == lines[..n - 1][k := line];
    } else {
      assert lines[k := line][..n - 1] == lines[..n - 1];
    }
  }

  /** Replacing one line changes the amount by that line's difference. */
  /** With no negative price and no negative quantity, the amount is not negative. */
  lemma {:induction false} AmountsNonNegative(lines: seq<CartLine>)
    ensures (forall i | 0 <= i < |lines| :: lines[i].item.priceSek >= 0 && lines[i].quantity >= 0) ==> SumAmounts(lines) >= 0
  {
    if lines != [] {
      var last := lines[|lines| - 1];
      AmountsNonNegative(lines[..|lines| - 1]);
      if last.item.priceSek >= 0 && last.quantity >= 0 {
        assert LineAmount(last) >= 0;
      }
    }
  }

  lemma {:induction false} AmountsReplace(lines: seq<CartLine>, k: nat, line: CartLine)
    requires k < |lines|
    ensures SumAmounts(lines[k := line]) == SumAmounts(lines) - LineAmount(lines[k]) + LineAmount(line)
  {
    var n := |lines|;
    if k < n - 1 {
      AmountsReplace(lines[..n - 1], k, line);
      assert lines[k := line][..n - 1] == lines[..n - 1][k := line];
    } else {
      assert lines[k := line][..n - 1] == lines[..n - 1];
    }
  }

  /** `totalItems` grows by one per `addToCart`; `totalAmount` by the price on the line that grew. */
  lemma AddTotals(lines: seq<CartLine>, item: MenuItem)
    requires WellFormed(lines)
    ensures SumQuantities(AddLine(lines, item)) == SumQuantities(lines) + 1
    ensures SumAmounts(AddLine(lines, item)) == SumAmounts(lines) +
      match Find(lines, item.id)
      case Some(k) => lines[k].item.priceSek
      case None => item.priceSek
  {
    match Find(lines, item.id)
    case Some(k) =>
      AddExistingBumpsItsLine(lines, item, k);
      BumpTotals(lines, k);
    case None =>
      SumsSnoc(lines, CartLine(item, 1));
  }

  /** Raising one line by one adds one to the item count and that line's price to the amount. */
  lemma {:induction false} BumpTotals(lines: seq<CartLine>, k: nat)
    requires k < |lines|
    ensures SumQuantities(lines[k := lines[k].(quantity := lines[k].quantity + 1)]) == SumQuantities(lines) + 1
    ensures SumAmounts(lines[k := lines[k].(quantity := lines[k].quantity + 1)]) == SumAmounts(lines) + lines[k].item.priceSek
  {
    var line := lines[k];
    var bumped := line.(quantity := line.quantity + 1);
    QuantitiesReplace(lines, k, bumped);
    AmountsReplace(lines, k, bumped);
    BumpedLineAmount(line);
    ghost var total := SumAmounts(lines[k := bumped]);
    assert total == SumAmounts(lines) + line.item.priceSek;
    assert lines[k := bumped] == lines[k := lines[k].(quantity := lines[k].quantity + 1)];
    assert SumAmounts(lines[k := lines[k].(quantity := lines[k].quantity + 1)]) == total;
  }

  lemma BumpedLineAmount(line: CartLine)
    ensures LineAmount(line.(quantity := line.quantity + 1)) == LineAmount(line) + line.item.priceSek
  {
    assert line.item.priceSek * (line.quantity + 1) == line.item.priceSek * line.quantity + line.item.priceSek;
  }

  /** `removeFromCart` takes the removed line's quantity off `totalItems`. */
  lemma {:induction false} RemoveTotals(lines: seq<CartLine>, id: string)
    requires WellFormed(lines)
    ensures SumQuantities(RemoveLines(lines, id)) == SumQuantities(lines) - QuantityOf(lines, id)
  {
    if lines != [] {
      var init, last := lines[..|lines| - 1], lines[|lines| - 1];
      assert init + [last] == lines;
      assert WellFormed(init);
      RemoveTotals(init, id);
      Sequences.FilterSnoc(init, last, (l: CartLine) => l.item.id != id);
      FindSnoc(init, last, id);
      if last.item.id == id {
        assert !HasId(init, id) by {
          forall i | 0 <= i < |init| ensures init[i].item.id != id {
            assert lines[i].item.id != lines[|lines| - 1].item.id;
          }
        }
        assert RemoveLines(lines, id) == RemoveLines(init, id);
        assert QuantityOf(lines, id) == last.quantity;
      } else {
        assert RemoveLines(lines, id) == RemoveLines(init, id) + [last];
        SumsSnoc(RemoveLines(init, id), last);
        match Find(init, id)
        case Some(k) =>
          assert QuantityOf(lines, id) == lines[k].quantity == init[k].quantity;
        case None =>
      }
      SumsSnoc(init, last);
    }
  }

  /** SE-001 (139 kr) added once and SE-002 (149 kr) twice: 3 items, 437 kr; the cleared cart has 0 and 0. */
  lemma ScenarioTotals()
    ensures var cart := AddLine(AddLine(AddLine([], Kottbullar), Kalops), Kalops);
      SumQuantities(cart) == 3 && SumAmounts(cart) == 437
    ensures SumQuantities([]) == 0 && SumAmounts([]) == 0
  {
    var first, second := CartLine(Kottbullar, 1), CartLine(Kalops, 1);
    var c1 := [first];
    AddAbsentAppends([], Kottbullar);
    assert [] + [first] == c1;
    assert !HasId(c1, Kalops.id);
    AddAbsentAppends(c1, Kalops);
    var c2 := c1 + [second];
    assert WellFormed(c2);
    AddExistingBumpsItsLine(c2, Kalops, 1);
    var doubled := CartLine(Kalops, 2);
    assert c2[1 := second.(quantity := 2)] == c1 + [doubled];
    SumsSnoc([], first);
    SumsSnoc(c1, doubled);
    assert LineAmount(first) == 139 && LineAmount(doubled) == 298;
  }

  // ----- the store -----

  /** Browser storage, reduced to its one key 'cart'; the JSON text is treated as an exact encoding of the lines. */
  class BrowserStorage {
    var cart: Option<seq<CartLine>>

    constructor (saved: Option<seq<CartLine>>)
      ensures cart == saved
    {
      cart := saved;
    }
  }

  /** The `CartProvider` component: its `items` state and the storage it mirrors it to. */
  class CartProvider {
    var items: seq<CartLine>
    const storage: BrowserStorage

    ghost predicate Valid()
      reads this
    {
      WellFormed(items)
    }

    /**
     * Mounting: the state starts empty (line 42), then the two effects run in
     * declaration order: the save effect writes the empty list, and only then
     * does the load effect read the key back. A cart saved by an earlier
     * session is therefore overwritten, not restored.
     */
    constructor (storage: BrowserStorage)
      modifies storage
      ensures this.storage == storage
      ensures items == [] && storage.cart == Some([])
      ensures Valid()
    {
      this.storage := storage;
      items := [];
      new;
      SaveEffect();
      LoadEffect();
    }

    /** The effect on lines 109-115: the whole list is written under 'cart'. */
    method SaveEffect()
      modifies storage
      ensures storage.cart == Some(items)
    {
      storage.cart := Some(items);
    }

    /** The effect on lines 118-127: a stored list replaces the items as it is, without validation. */
    method LoadEffect()
      modifies this
      ensures items == if storage.cart.Some? then storage.cart.value else old(items)
    {
      if storage.cart.Some? {
        items := storage.cart.value;
      }
    }

    method AddToCart(item: MenuItem)
      modifies this, storage
      ensures items == AddLine(old(items), item) && storage.cart == Some(items)
      ensures old(Valid()) ==> Valid()
    {
      if Valid() {
        AddPreservesWellFormed(items, item);
      }
      items := AddLine(items, item);
      SaveEffect();
    }

    method RemoveFromCart(id: string)
      modifies this, storage
      ensures items == RemoveLines(old(items), id) && storage.cart == Some(items)
      ensures old(Valid()) ==> Valid()
    {
      if Valid() {
        RemovePreservesWellFormed(items, id);
      }
      items := RemoveLines(items, id);
      SaveEffect();
    }

    method UpdateQuantity(id: string, quantity: int)
      modifies this, storage
      ensures items == UpdateLines(old(items), id, quantity) && storage.cart == Some(items)
      ensures old(Valid()) ==> Valid()
    {
      if quantity <= 0 {
        RemoveFromCart(id);
        return;
      }
      if Valid() {
        UpdatePreservesWellFormed(items, id, quantity);
      }
      items := SetQuantityLines(items, id, quantity);
      SaveEffect();
    }

    method ClearCart()
      modifies this, storage
      ensures items == [] && storage.cart == Some([])
      ensures Valid()
    {
      items := [];
      SaveEffect();
    }

    function GetItemQuantity(id: string): (q: int)
      reads this
      ensures !HasId(items, id) ==> q == 0
      ensures Valid() ==> (q >= 1 <==> HasId(items, id))
      ensures Valid() ==> forall i | 0 <= i < |items| && items[i].item.id == id :: q == items[i].quantity
    {
      if WellFormed(items) then QuantityOfWellFormed(items, id); QuantityOf(items, id)
      else QuantityOf(items, id)
    }

    function TotalItems(): (n: int)
      reads this
      ensures Valid() ==> n >= |items| && (n == 0 <==> items == [])
    {
      SumQuantities(items)
    }

    function TotalAmount(): (a: int)
      reads this
      ensures items == [] ==> a == 0
      ensures Valid() && (forall i | 0 <= i < |items| :: items[i].item.priceSek >= 0) ==> a >= 0
    {
      AmountsNonNegative(items);
      SumAmounts(items)
    }
  }
}
