/** The shopping state of the storefront: an ordered cart of lines with
    quantities, an ordered list of favourites, the display currency and two
    UI flags.  The pure queries (`getCartTotal`, `getCartItemsCount`,
    `isFavorite`) and the new contents each mutator writes are functions over
    the sequences; `ShopStore` is the store object whose methods overwrite its
    fields with them. */
module Store {
  import opened Seqs

  /** A catalogue entry as the cart receives it (`Omit<CartItem, 'quantity'>`),
      and as a favourite is stored. */
  datatype ItemDetails = ItemDetails(id: string, name: string, price: real, image: string, slug: string)

  type Favorite = ItemDetails

  /** One cart line. */
  datatype CartItem = CartItem(id: string, name: string, price: real, image: string, quantity: int, slug: string)

  /** `{ ...item, quantity: 1 }`. */
  function LineOf(item: ItemDetails): CartItem
  {
    CartItem(item.id, item.name, item.price, item.image, 1, item.slug)
  }

  // ---------------------------------------------------------------------------
  // Invariants
  // ---------------------------------------------------------------------------

  /** `items.find(i => i.id === id)` is truthy: some line carries `id`. */
  predicate HasLine(items: seq<CartItem>, id: string)
  {
    exists k :: 0 <= k < |items| && items[k].id == id
  }

  /** At most one line per id. */
  ghost predicate UniqueIds(items: seq<CartItem>)
  {
    forall i, j :: 0 <= i < |items| && 0 <= j < |items| && i != j ==> items[i].id != items[j].id
  }

  /** Every line has a quantity of at least one. */
  ghost predicate PositiveQuantities(items: seq<CartItem>)
  {
    forall k :: 0 <= k < |items| ==> items[k].quantity >= 1
  }

  ghost predicate CartInvariant(items: seq<CartItem>)
  {
    UniqueIds(items) && PositiveQuantities(items)
  }

  /** At most one favourite per id. */
  ghost predicate UniqueFavoriteIds(favs: seq<Favorite>)
  {
    forall i, j :: 0 <= i < |favs| && 0 <= j < |favs| && i != j ==> favs[i].id != favs[j].id
  }

  // ---------------------------------------------------------------------------
  // Cart contents written by the mutators
  // ---------------------------------------------------------------------------

  /** `items.map(i => i.id === id ? { ...i, quantity: i.quantity + 1 } : i)`. */
  function Incremented(items: seq<CartItem>, id: string): seq<CartItem>
  {
    seq(|items|, k requires 0 <= k < |items| =>
      if items[k].id == id then items[k].(quantity := items[k].quantity + 1) else items[k])
  }

  /** `items.map(item => item.id === id ? { ...item, quantity } : item)`. */
  function WithQuantity(items: seq<CartItem>, id: string, quantity: int): seq<CartItem>
  {
    seq(|items|, k requires 0 <= k < |items| =>
      if items[k].id == id then items[k].(quantity := quantity) else items[k])
  }

  /** The cart after `addToCart(item)`: a new id is appended with quantity one
      behind the unchanged earlier lines; a known id only has its quantity
      raised by one, keeping its stored details and position. */
  function AddedToCart(items: seq<CartItem>, item: ItemDetails): (r: seq<CartItem>)
    ensures !HasLine(items, item.id) ==>
      |r| == |items| + 1 && r[..|items|] == items && r[|items|] == LineOf(item)
    ensures HasLine(items, item.id) ==>
      |r| == |items| &&
      forall k :: 0 <= k < |items| ==>
        && r[k].(quantity := 0) == items[k].(quantity := 0)
        && r[k].quantity == items[k].quantity + (if items[k].id == item.id then 1 else 0)
  {
    if HasLine(items, item.id) then Incremented(items, item.id)
    else items + [LineOf(item)]
  }

  /** The test `item.id !== id` as a function value. */
  function OtherLine(id: string): CartItem -> bool
  {
    (x: CartItem) => x.id != id
  }

  /** The cart after `removeFromCart(id)`: exactly the lines with other ids. */
  function RemovedFromCart(items: seq<CartItem>, id: string): (r: seq<CartItem>)
    ensures |r| <= |items|
    ensures forall k :: 0 <= k < |r| ==> r[k].id != id
  {
    Filter(items, OtherLine(id))
  }

  /** The cart after `updateCartItemQuantity(id, quantity)`: removal when the
      quantity is not positive, otherwise the quantity of the lines with `id`
      replaced and every other line as it was. */
  function UpdatedQuantity(items: seq<CartItem>, id: string, quantity: int): (r: seq<CartItem>)
    ensures quantity <= 0 ==> r == RemovedFromCart(items, id)
    ensures quantity > 0 ==>
      |r| == |items| &&
      forall k :: 0 <= k < |items| ==>
        r[k] == (if items[k].id == id then items[k].(quantity := quantity) else items[k])
  {
    if quantity <= 0 then RemovedFromCart(items, id) else WithQuantity(items, id, quantity)
  }

  // ---------------------------------------------------------------------------
  // Aggregates: left folds, as `reduce` computes them
  // ---------------------------------------------------------------------------

  /** `getCartItemsCount`: the sum of the quantities (not the number of lines). */
  function ItemsCount(items: seq<CartItem>): (count: int)
    ensures PositiveQuantities(items) ==> count >= |items|
  {
    if items == [] then 0
    else ItemsCount(items[..|items| - 1]) + items[|items| - 1].quantity
  }

  /** What one line costs: its price times its quantity. */
  function LineTotal(c: CartItem): real
  {
    c.price * (c.quantity as real)
  }

  /** `getCartTotal`: the sum of price times quantity. */
  function CartTotal(items: seq<CartItem>): real
  {
    if items == [] then 0.0
    else CartTotal(items[..|items| - 1]) + LineTotal(items[|items| - 1])
  }

  /** A cart of lines with non-negative prices and positive quantities never
      costs less than nothing. */
  lemma {:induction false} CartTotalNonNegative(items: seq<CartItem>)
    requires PositiveQuantities(items)
    requires forall k :: 0 <= k < |items| ==> items[k].price >= 0.0
    ensures CartTotal(items) >= 0.0
  {
    if items != [] {
      var last := items[|items| - 1];
      assert last.quantity >= 1 && last.price >= 0.0;
      assert LineTotal(last) >= 0.0;
      CartTotalNonNegative(items[..|items| - 1]);
    }
  }

  /** The line counts add up over a concatenation. */
  lemma {:induction false} CountConcat(a: seq<CartItem>, b: seq<CartItem>)
    ensures ItemsCount(a + b) == ItemsCount(a) + ItemsCount(b)
    decreases |b|
  {
    if b == [] {
      assert a + b == a;
    } else {
      var b' := b[..|b| - 1];
      assert (a + b)[..|a + b| - 1] == a + b';
      assert (a + b)[|a + b| - 1] == b[|b| - 1];
      CountConcat(a, b');
    }
  }

  /** The line totals add up over a concatenation. */
  lemma {:induction false} TotalConcat(a: seq<CartItem>, b: seq<CartItem>)
    ensures CartTotal(a + b) == CartTotal(a) + CartTotal(b)
    decreases |b|
  {
    if b == [] {
      assert a + b == a;
    } else {
      var b' := b[..|b| - 1];
      assert (a + b)[..|a + b| - 1] == a + b';
      assert (a + b)[|a + b| - 1] == b[|b| - 1];
      TotalConcat(a, b');
    }
  }

  /** The aggregates of a single line. */
  lemma AggregatesOfOne(c: CartItem)
    ensures ItemsCount([c]) == c.quantity && CartTotal([c]) == LineTotal(c)
  {
    assert [c][..0] == [];
  }

  /** Replacing one line changes each aggregate by that line's difference. */
  lemma AggregatesPointUpdate(items: seq<CartItem>, k: int, c: CartItem)
    requires 0 <= k < |items|
    ensures ItemsCount(items[k := c]) == ItemsCount(items) - items[k].quantity + c.quantity
    ensures CartTotal(items[k := c]) == CartTotal(items) - LineTotal(items[k]) + LineTotal(c)
  {
    var pre, post := items[..k], items[k + 1..];
    assert items == pre + [items[k]] + post;
    assert items[k := c] == pre + [c] + post;
    CountConcat(pre + [items[k]], post);
    CountConcat(pre + [c], post);
    CountConcat(pre, [items[k]]);
    CountConcat(pre, [c]);
    TotalConcat(pre + [items[k]], post);
    TotalConcat(pre + [c], post);
    TotalConcat(pre, [items[k]]);
    TotalConcat(pre, [c]);
    AggregatesOfOne(items[k]);
    AggregatesOfOne(c);
  }

  /** `clearCart` leaves nothing to count or pay. */
  lemma ClearedCartIsEmpty()
    ensures ItemsCount([]) == 0 && CartTotal([]) == 0.0
  {
  }

  // ---------------------------------------------------------------------------
  // Laws of the cart mutators
  // ---------------------------------------------------------------------------

  /** Under unique ids the line carrying `id` is the only one the map touches. */
  lemma MapTouchesOneLine(items: seq<CartItem>, k: int)
    requires UniqueIds(items) && 0 <= k < |items|
    ensures Incremented(items, items[k].id) == items[k := items[k].(quantity := items[k].quantity + 1)]
    ensures forall q :: WithQuantity(items, items[k].id, q) == items[k := items[k].(quantity := q)]
  {
  }

  /** One more unit of a line costs one more of its price. */
  lemma OneMoreUnit(c: CartItem)
    ensures LineTotal(c.(quantity := c.quantity + 1)) == LineTotal(c) + c.price
  {
    assert c.price * ((c.quantity + 1) as real) == c.price * (c.quantity as real) + c.price;
  }

  /** `addToCart` raises the item count by exactly one.  The total rises by
      the new item's price when its id is new, and by the price already
      stored on the cart's line when it is not. */
  lemma AddRaisesCountByOne(items: seq<CartItem>, item: ItemDetails)
    requires UniqueIds(items)
    ensures ItemsCount(AddedToCart(items, item)) == ItemsCount(items) + 1
    ensures !HasLine(items, item.id) ==> CartTotal(AddedToCart(items, item)) == CartTotal(items) + item.price
    ensures forall k :: 0 <= k < |items| && items[k].id == item.id ==>
      CartTotal(AddedToCart(items, item)) == CartTotal(items) + items[k].price
  {
    if HasLine(items, item.id) {
      var k :| 0 <= k < |items| && items[k].id == item.id;
      MapTouchesOneLine(items, k);
      AddKnownLine(items, k);
    } else {
      AddNewLine(items, item);
    }
  }

  lemma AddNewLine(items: seq<CartItem>, item: ItemDetails)
    requires !HasLine(items, item.id)
    ensures ItemsCount(AddedToCart(items, item)) == ItemsCount(items) + 1
    ensures CartTotal(AddedToCart(items, item)) == CartTotal(items) + item.price
  {
    assert AddedToCart(items, item) == items + [LineOf(item)];
    CountConcat(items, [LineOf(item)]);
    TotalConcat(items, [LineOf(item)]);
    AggregatesOfOne(LineOf(item));
  }

  lemma AddKnownLine(items: seq<CartItem>, k: int)
    requires 0 <= k < |items|
    ensures ItemsCount(items[k := items[k].(quantity := items[k].quantity + 1)]) == ItemsCount(items) + 1
    ensures CartTotal(items[k := items[k].(quantity := items[k].quantity + 1)]) == CartTotal(items) + items[k].price
  {
    AggregatesPointUpdate(items, k, items[k].(quantity := items[k].quantity + 1));
    OneMoreUnit(items[k]);
  }

  /** The filter keeps the lines that carried another id, and no others. */
  lemma RemovedMembership(items: seq<CartItem>, id: string, x: CartItem)
    ensures x in RemovedFromCart(items, id) <==> x in items && x.id != id
  {
    FilterMembership(items, OtherLine(id), x);
  }

  /** Removal keeps the order of what remains: with unique ids, removing the
      id of line `k` is cutting line `k` out. */
  lemma RemoveCutsLine(items: seq<CartItem>, k: int)
    requires UniqueIds(items) && 0 <= k < |items|
    ensures RemovedFromCart(items, items[k].id) == items[..k] + items[k + 1..]
  {
    var p := OtherLine(items[k].id);
    forall i | 0 <= i < |items| && i != k ensures p(items[i]) { }
    FilterCutsOne(items, k, p);
  }

  /** Removing an id the cart does not hold changes nothing. */
  lemma RemoveAbsentIsNoOp(items: seq<CartItem>, id: string)
    requires !HasLine(items, id)
    ensures RemovedFromCart(items, id) == items
  {
    FilterAllPass(items, OtherLine(id));
  }

  /** Updating an id the cart does not hold changes nothing, whatever the
      quantity. */
  lemma UpdateAbsentIsNoOp(items: seq<CartItem>, id: string, quantity: int)
    requires !HasLine(items, id)
    ensures UpdatedQuantity(items, id, quantity) == items
  {
    if quantity <= 0 {
      RemoveAbsentIsNoOp(items, id);
    }
  }

  /** A positive update of line `k` sets its quantity and nothing else. */
  lemma UpdateSetsOneLine(items: seq<CartItem>, k: int, quantity: int)
    requires UniqueIds(items) && 0 <= k < |items| && quantity > 0
    ensures UpdatedQuantity(items, items[k].id, quantity) == items[k := items[k].(quantity := quantity)]
  {
    MapTouchesOneLine(items, k);
  }

  /** Removing right after adding is the same as removing. */
  lemma {:induction false} RemoveUndoesAdd(items: seq<CartItem>, item: ItemDetails)
    ensures RemovedFromCart(AddedToCart(items, item), item.id) == RemovedFromCart(items, item.id)
  {
    var p := OtherLine(item.id);
    if HasLine(items, item.id) {
      RemoveIgnoresIncrement(items, item.id);
    } else {
      FilterConcat(items, [LineOf(item)], p);
      assert Filter([LineOf(item)], p) == [];
    }
  }

  /** Raising the quantity of the lines that removal drops anyway has no effect on it. */
  lemma {:induction false} RemoveIgnoresIncrement(items: seq<CartItem>, id: string)
    ensures RemovedFromCart(Incremented(items, id), id) == RemovedFromCart(items, id)
  {
    if items != [] {
      var m := Incremented(items, id);
      assert m[1..] == Incremented(items[1..], id);
      RemoveIgnoresIncrement(items[1..], id);
    }
  }

  /** Removal keeps one line per id and every quantity positive. */
  lemma {:induction false} RemovePreservesInvariant(items: seq<CartItem>, id: string)
    requires CartInvariant(items)
    ensures CartInvariant(RemovedFromCart(items, id))
  {
    if items != [] {
      var p := OtherLine(id);
      var tail := items[1..];
      assert CartInvariant(tail) by {
        assert forall i :: 0 <= i < |tail| ==> tail[i] == items[i + 1];
      }
      RemovePreservesInvariant(tail, id);
      if p(items[0]) {
        var rt := RemovedFromCart(tail, id);
        var r := [items[0]] + rt;
        assert RemovedFromCart(items, id) == r;
        forall j | 0 <= j < |rt| ensures rt[j].id != items[0].id {
          RemovedMembership(tail, id, rt[j]);
          var m :| 0 <= m < |tail| && tail[m] == rt[j];
          assert tail[m] == items[m + 1];
        }
        assert forall j :: 1 <= j < |r| ==> r[j] == rt[j - 1];
      }
    }
  }

  /** `addToCart` keeps one line per id and every quantity positive. */
  lemma AddPreservesInvariant(items: seq<CartItem>, item: ItemDetails)
    requires CartInvariant(items)
    ensures CartInvariant(AddedToCart(items, item))
  {
  }

  /** `updateCartItemQuantity` keeps one line per id and every quantity positive. */
  lemma UpdatePreservesInvariant(items: seq<CartItem>, id: string, quantity: int)
    requires CartInvariant(items)
    ensures CartInvariant(UpdatedQuantity(items, id, quantity))
  {
    if quantity <= 0 {
      RemovePreservesInvariant(items, id);
    }
  }

  // ---------------------------------------------------------------------------
  // Favourites
  // ---------------------------------------------------------------------------

  /** `favorites.some(item => item.id === id)`. */
  predicate IsFavorite(favs: seq<Favorite>, id: string)
  {
    Any(favs, (f: Favorite) => f.id == id)
  }

  /** The favourites after `addToFavorites(item)`: appended only when no
      favourite has its id. */
  function AddedToFavorites(favs: seq<Favorite>, item: Favorite): (r: seq<Favorite>)
    ensures IsFavorite(r, item.id)
    ensures IsFavorite(favs, item.id) ==> r == favs
    ensures !IsFavorite(favs, item.id) ==> r == favs + [item]
  {
    if IsFavorite(favs, item.id) then favs
    else
      assert (favs + [item])[|favs|] == item;
      favs + [item]
  }

  function OtherFavorite(id: string): Favorite -> bool
  {
    (f: Favorite) => f.id != id
  }

  /** The favourites after `removeFromFavorites(id)`: those with other ids. */
  function RemovedFromFavorites(favs: seq<Favorite>, id: string): (r: seq<Favorite>)
    ensures !IsFavorite(r, id)
    ensures |r| <= |favs|
  {
    Filter(favs, OtherFavorite(id))
  }

  /** Adding a favourite whose id is already there, twice or with other
      details, changes nothing. */
  lemma AddFavoriteIdempotent(favs: seq<Favorite>, item: Favorite, again: Favorite)
    requires again.id == item.id
    ensures AddedToFavorites(AddedToFavorites(favs, item), again) == AddedToFavorites(favs, item)
  {
  }

  /** Adding keeps favourite ids unique. */
  lemma AddFavoriteKeepsUnique(favs: seq<Favorite>, item: Favorite)
    requires UniqueFavoriteIds(favs)
    ensures UniqueFavoriteIds(AddedToFavorites(favs, item))
  {
  }

  /** An element survives the favourite filter exactly when its id differs. */
  lemma RemovedFavoriteMembership(favs: seq<Favorite>, id: string, x: Favorite)
    ensures x in RemovedFromFavorites(favs, id) <==> x in favs && x.id != id
  {
    FilterMembership(favs, OtherFavorite(id), x);
  }

  /** Removing an id that no favourite carries changes nothing. */
  lemma RemoveAbsentFavoriteIsNoOp(favs: seq<Favorite>, id: string)
    requires !IsFavorite(favs, id)
    ensures RemovedFromFavorites(favs, id) == favs
  {
    FilterAllPass(favs, OtherFavorite(id));
  }

  /** With distinct ids, removal cuts out exactly favourite `k` and keeps the
      others in their order. */
  lemma RemoveFavoriteCutsOne(favs: seq<Favorite>, k: int)
    requires UniqueFavoriteIds(favs) && 0 <= k < |favs|
    ensures RemovedFromFavorites(favs, favs[k].id) == favs[..k] + favs[k + 1..]
  {
    var p := OtherFavorite(favs[k].id);
    forall i | 0 <= i < |favs| && i != k ensures p(favs[i]) { }
    FilterCutsOne(favs, k, p);
  }

  /** Removing keeps favourite ids unique. */
  lemma {:induction false} RemoveFavoriteKeepsUnique(favs: seq<Favorite>, id: string)
    requires UniqueFavoriteIds(favs)
    ensures UniqueFavoriteIds(RemovedFromFavorites(favs, id))
  {
    if favs != [] {
      var tail := favs[1..];
      assert UniqueFavoriteIds(tail) by {
        assert forall i :: 0 <= i < |tail| ==> tail[i] == favs[i + 1];
      }
      RemoveFavoriteKeepsUnique(tail, id);
      if OtherFavorite(id)(favs[0]) {
        var rt := RemovedFromFavorites(tail, id);
        var r := [favs[0]] + rt;
        assert RemovedFromFavorites(favs, id) == r;
        forall j | 0 <= j < |rt| ensures rt[j].id != favs[0].id {
          RemovedFavoriteMembership(tail, id, rt[j]);
          var m :| 0 <= m < |tail| && tail[m] == rt[j];
          assert tail[m] == favs[m + 1];
        }
        assert forall j :: 1 <= j < |r| ==> r[j] == rt[j - 1];
      }
    }
  }

  /** Adding a favourite marks exactly its id in addition to those already marked. */
  lemma IsFavoriteAfterAdd(favs: seq<Favorite>, item: Favorite, id: string)
    ensures IsFavorite(AddedToFavorites(favs, item), id) <==> IsFavorite(favs, id) || id == item.id
  {
    if !IsFavorite(favs, item.id) {
      var r := favs + [item];
      if IsFavorite(r, id) && id != item.id {
        var k :| 0 <= k < |r| && r[k].id == id;
        assert r[k] == favs[k];
      }
      if IsFavorite(favs, id) {
        var k :| 0 <= k < |favs| && favs[k].id == id;
        assert r[k] == favs[k];
      }
    }
  }

  /** Removing a favourite unmarks exactly its id. */
  lemma IsFavoriteAfterRemove(favs: seq<Favorite>, removed: string, id: string)
    ensures IsFavorite(RemovedFromFavorites(favs, removed), id) <==> IsFavorite(favs, id) && id != removed
  {
    var r := RemovedFromFavorites(favs, removed);
    if IsFavorite(r, id) {
      var k :| 0 <= k < |r| && r[k].id == id;
      RemovedFavoriteMembership(favs, removed, r[k]);
    }
    if IsFavorite(favs, id) && id != removed {
      var k :| 0 <= k < |favs| && favs[k].id == id;
      RemovedFavoriteMembership(favs, removed, favs[k]);
      var m :| 0 <= m < |r| && r[m] == favs[k];
    }
  }

  // ---------------------------------------------------------------------------
  // The store object
  // ---------------------------------------------------------------------------

  /** The part of the state that `partialize` hands to persistence. */
  datatype PersistedState = PersistedState(cartItems: seq<CartItem>, favorites: seq<Favorite>, currency: string)

  class ShopStore {
    var cartItems: seq<CartItem>
    var favorites: seq<Favorite>
    var currency: string
    var isCartOpen: bool
    var isMobileMenuOpen: bool

    ghost predicate Valid()
      reads this
    {
      CartInvariant(cartItems) && UniqueFavoriteIds(favorites)
    }

    /** The initial state: empty cart and favourites, "USD", both panels closed. */
    constructor ()
      ensures Valid()
      ensures cartItems == [] && favorites == [] && currency == "USD"
      ensures !isCartOpen && !isMobileMenuOpen
    {
      cartItems := [];
      favorites := [];
      currency := "USD";
      isCartOpen := false;
      isMobileMenuOpen := false;
    }

    /** `partialize`: cart, favourites and currency, without the UI flags. */
    function Persisted(): PersistedState
      reads this
    {
      PersistedState(cartItems, favorites, currency)
    }

    method AddToCart(item: ItemDetails)
      requires Valid()
      modifies this
      ensures Valid()
      ensures cartItems == AddedToCart(old(cartItems), item)
      ensures ItemsCount(cartItems) == ItemsCount(old(cartItems)) + 1
      ensures !HasLine(old(cartItems), item.id) ==> CartTotal(cartItems) == CartTotal(old(cartItems)) + item.price
      ensures favorites == old(favorites) && currency == old(currency)
      ensures isCartOpen == old(isCartOpen) && isMobileMenuOpen == old(isMobileMenuOpen)
    {
      AddPreservesInvariant(cartItems, item);
      AddRaisesCountByOne(cartItems, item);
      cartItems := AddedToCart(cartItems, item);
    }

    method RemoveFromCart(id: string)
      requires Valid()
      modifies this
      ensures Valid()
      ensures cartItems == RemovedFromCart(old(cartItems), id)
      ensures !HasLine(cartItems, id)
      ensures favorites == old(favorites) && currency == old(currency)
      ensures isCartOpen == old(isCartOpen) && isMobileMenuOpen == old(isMobileMenuOpen)
    {
      RemovePreservesInvariant(cartItems, id);
      cartItems := RemovedFromCart(cartItems, id);
    }

    method UpdateCartItemQuantity(id: string, quantity: int)
      requires Valid()
      modifies this
      ensures Valid()
      ensures cartItems == UpdatedQuantity(old(cartItems), id, quantity)
      ensures quantity <= 0 ==> cartItems == RemovedFromCart(old(cartItems), id)
      ensures favorites == old(favorites) && currency == old(currency)
      ensures isCartOpen == old(isCartOpen) && isMobileMenuOpen == old(isMobileMenuOpen)
    {
      if quantity <= 0 {
        RemoveFromCart(id);
        return;
      }
      UpdatePreservesInvariant(cartItems, id, quantity);
      cartItems := WithQuantity(cartItems, id, quantity);
    }

    method ClearCart()
      requires Valid()
      modifies this
      ensures Valid()
      ensures cartItems == [] && ItemsCount(cartItems) == 0 && CartTotal(cartItems) == 0.0
      ensures favorites == old(favorites) && currency == old(currency)
      ensures isCartOpen == old(isCartOpen) && isMobileMenuOpen == old(isMobileMenuOpen)
    {
      cartItems := [];
    }

    method AddToFavorites(item: Favorite)
      requires Valid()
      modifies this
      ensures Valid()
      ensures favorites == AddedToFavorites(old(favorites), item)
      ensures IsFavorite(favorites, item.id)
      ensures cartItems == old(cartItems) && currency == old(currency)
      ensures isCartOpen == old(isCartOpen) && isMobileMenuOpen == old(isMobileMenuOpen)
    {
      AddFavoriteKeepsUnique(favorites, item);
      if !IsFavorite(favorites, item.id) {
        favorites := favorites + [item];
      }
    }

    method RemoveFromFavorites(id: string)
      requires Valid()
      modifies this
      ensures Valid()
      ensures favorites == RemovedFromFavorites(old(favorites), id)
      ensures !IsFavorite(favorites, id)
      ensures cartItems == old(cartItems) && currency == old(currency)
      ensures isCartOpen == old(isCartOpen) && isMobileMenuOpen == old(isMobileMenuOpen)
    {
      RemoveFavoriteKeepsUnique(favorites, id);
      favorites := RemovedFromFavorites(favorites, id);
    }

    method SetCurrency(newCurrency: string)
      requires Valid()
      modifies this
      ensures Valid()
      ensures currency == newCurrency
      ensures cartItems == old(cartItems) && favorites == old(favorites)
      ensures isCartOpen == old(isCartOpen) && isMobileMenuOpen == old(isMobileMenuOpen)
    {
      currency := newCurrency;
    }

    method SetCartOpen(open: bool)
      requires Valid()
      modifies this
      ensures Valid()
      ensures isCartOpen == open && isMobileMenuOpen == old(isMobileMenuOpen)
      ensures Persisted() == old(Persisted())
    {
      isCartOpen := open;
    }

    method SetMobileMenuOpen(open: bool)
      requires Valid()
      modifies this
      ensures Valid()
      ensures isMobileMenuOpen == open && isCartOpen == old(isCartOpen)
      ensures Persisted() == old(Persisted())
    {
      isMobileMenuOpen := open;
    }
  }
}
