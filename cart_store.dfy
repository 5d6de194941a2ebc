/**
 * The cart store: `CartProvider`'s `products` state together with the one
 * storage slot, `@GoMarketplace:car`, that holds a snapshot of it, and the
 * `useCart` hook that hands the store to its callers.
 *
 * Each command is written as the source writes it: a `find` for the first
 * matching line, a change to that line, a `filter` and an append, then the
 * assignment of the new list to `products` and of its snapshot to the slot.
 * The lists they build are specified by the functions of `CartLines`.
 */
module CartStore {
  import opened Wrappers
  import opened CartLines

  /** The message `useCart` throws with when no provider is mounted above it. */
  const OUTSIDE_PROVIDER := "useCart must be used within a CartProvider"

  class Cart {
    /** The in-memory list of lines (the `products` state). */
    var products: seq<Product>
    /** The `@GoMarketplace:car` storage slot; `None` while nothing has ever been stored. */
    var saved: Option<seq<Product>>

    /** Invariant I3: the stored snapshot is the in-memory list. */
    ghost predicate Synced()
      reads this
    {
      saved == Some(products)
    }

    /** Mounting the provider: the list starts empty, storage holds what an earlier session left. */
    constructor (stored: Option<seq<Product>>)
      ensures products == [] && saved == stored
    {
      products := [];
      saved := stored;
    }

    /**
     * `loadProducts`, run once on mount. An empty slot is initialised with an
     * empty list; otherwise the stored list is adopted as it is, unchecked.
     */
    method Hydrate()
      modifies this
      ensures old(saved).None? ==> products == [] && saved == Some([])
      ensures old(saved).Some? ==> products == old(saved).value && saved == old(saved)
      ensures Synced()
    {
      var current := saved;
      if current.None? {
        saved := Some([]);
        products := [];
      } else {
        products := current.value;
      }
    }

    /**
     * `addToCart(item)`. For an id already in the cart the first matching line's
     * quantity goes up by one in place, and neither `products` is reassigned nor
     * the slot written, so the snapshot keeps its earlier value. For a new id a
     * line with quantity 1 is appended and the new list is written through.
     */
    method AddToCart(item: Item)
      modifies this
      ensures products == Added(old(products), item)
      ensures Contains(old(products), item.id) ==> saved == old(saved)
      ensures !Contains(old(products), item.id) ==> Synced()
      ensures Valid(old(products)) ==> Valid(products)
    {
      ghost var before := products;
      var found := Find(products, item.id);
      if found.Some? {
        var i := found.value;
        products := products[i := products[i].(quantity := products[i].quantity + 1)];
      } else {
        var newCart := products + [NewLine(item)];
        products := newCart;
        saved := Some(newCart);
      }
      if Valid(before) {
        AddedValid(before, item);
      }
    }

    /**
     * `increment(id)`. The first matching line, its quantity one higher, moves
     * behind the lines with other ids and the result is written through. An
     * absent id changes nothing.
     */
    method Increment(id: string)
      modifies this
      ensures products == Incremented(old(products), id)
      ensures Contains(old(products), id) ==> Synced()
      ensures !Contains(old(products), id) ==> saved == old(saved)
      ensures Valid(old(products)) ==> Valid(products)
    {
      ghost var before := products;
      var found := Find(products, id);
      if found.Some? {
        var line := products[found.value];
        line := line.(quantity := line.quantity + 1);
        var others := Without(products, id);
        var newCart := others + [line];
        products := newCart;
        saved := Some(newCart);
      }
      if Valid(before) {
        IncrementedValid(before, id);
      }
    }

    /**
     * `decrement(id)`. A first matching line with quantity 1 is filtered out
     * together with every line of its id; otherwise its quantity drops by one
     * and it moves behind the other lines. Either way the result is written
     * through. An absent id changes nothing.
     */
    method Decrement(id: string)
      modifies this
      ensures products == Decremented(old(products), id)
      ensures Contains(old(products), id) ==> Synced()
      ensures !Contains(old(products), id) ==> saved == old(saved)
      ensures Valid(old(products)) ==> Valid(products)
    {
      ghost var before := products;
      var found := Find(products, id);
      if found.Some? {
        var line := products[found.value];
        if line.quantity == 1 {
          var newProducts := Without(products, id);
          products := newProducts;
          saved := Some(newProducts);
        } else {
          line := line.(quantity := line.quantity - 1);
          var others := Without(products, id);
          var newCart := others + [line];
          products := newCart;
          saved := Some(newCart);
        }
      }
      if Valid(before) {
        DecrementedValid(before, id);
      }
    }

    /**
     * addToCart as invariant I3 requires it: an existing id is incremented,
     * so the new list is written through too.
     */
    method AddToCartWriteThrough(item: Item)
      modifies this
      ensures products == if Contains(old(products), item.id)
                          then Incremented(old(products), item.id)
                          else Added(old(products), item)
      ensures Synced()
      ensures Valid(old(products)) ==> Valid(products)
    {
      if Contains(products, item.id) {
        Increment(item.id);
      } else {
        AddToCart(item);
      }
    }
  }

  /** `useCart()`: the store from the nearest provider, or an error when there is none. */
  function UseCart(context: Option<Cart>): (r: Result<Cart, string>)
    ensures r.Success? <==> context.Some?
    ensures r.Success? ==> r.value == context.value
    ensures r.Failure? ==> r.error == OUTSIDE_PROVIDER
  {
    match context
    case None => Failure(OUTSIDE_PROVIDER)
    case Some(cart) => Success(cart)
  }

  /** The product of the scenarios below. */
  function Shirt(): Item {
    Item("p1", "Shirt", "u", 20.0)
  }

  /**
   * Adding a product twice to an empty cart, as the source does it: the list
   * holds the line with quantity 2, the stored snapshot still the line with
   * quantity 1, so the next session hydrates the older cart.
   */
  method StaleSnapshotAfterAdd() returns (cart: Cart)
    ensures cart.products == [NewLine(Shirt()).(quantity := 2)]
    ensures cart.saved == Some([NewLine(Shirt())])
    ensures !cart.Synced()
  {
    cart := new Cart(None);
    cart.Hydrate();
    cart.AddToCart(Shirt());
    assert cart.products == [NewLine(Shirt())];
    cart.AddToCart(Shirt());
  }

  /** The same two additions with the write-through correction: the snapshot keeps up. */
  method CurrentSnapshotAfterAdd() returns (cart: Cart)
    ensures cart.products == [NewLine(Shirt()).(quantity := 2)]
    ensures cart.saved == Some(cart.products)
  {
    cart := new Cart(None);
    cart.Hydrate();
    cart.AddToCartWriteThrough(Shirt());
    assert cart.products == [NewLine(Shirt())];
    cart.AddToCartWriteThrough(Shirt());
  }
}
