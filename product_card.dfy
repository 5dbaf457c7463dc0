/**
 * The product card (src/components/ProductCard.tsx): quick add to cart,
 * the wishlist toggle, and the category label.
 */
module ProductCard {
  import opened Options
  import opened CartReducer
  import CartProvider
  import ProductTypes
  import Seqs

  /** The state after the heart button: the product leaves the wishlist if it is in it, joins otherwise. */
  function Toggled(state: CartState, product: Product): (r: CartState)
    ensures r.cartItems == state.cartItems
    ensures InWishlist(r.wishlistItems, product.id) <==> !InWishlist(state.wishlistItems, product.id)
    ensures forall p :: p in state.wishlistItems && p.id != product.id ==> p in r.wishlistItems
  {
    if InWishlist(state.wishlistItems, product.id) then
      RemoveFromWishlistDropsId(state, product.id);
      Reduce(state, RemoveFromWishlist(product.id))
    else
      var r := Reduce(state, AddToWishlist(product));
      assert r.wishlistItems[|state.wishlistItems|] == product;
      r
  }

  /** Toggling twice from outside the wishlist restores it exactly. */
  lemma ToggleTwiceRestores(state: CartState, product: Product)
    requires !InWishlist(state.wishlistItems, product.id)
    ensures Toggled(Toggled(state, product), product) == state
  {
    var w := state.wishlistItems;
    var keep := (p: Product) => p.id != product.id;
    assert WishlistAdd(w, product) == w + [product];
    Seqs.FilterAppend(w, [product], keep);
    Seqs.FilterKeepsAll(w, keep);
    assert [product][1..] == [];
  }

  /** Toggling twice from inside the wishlist keeps it, now at the end, with any duplicates gone. */
  lemma ToggleTwiceFromInside(state: CartState, product: Product)
    requires InWishlist(state.wishlistItems, product.id)
    ensures var r := Toggled(Toggled(state, product), product);
      && r.cartItems == state.cartItems
      && InWishlist(r.wishlistItems, product.id)
      && r.wishlistItems == WishlistRemove(state.wishlistItems, product.id) + [product]
  {
  }

  /** `handleToggleWishlist`. */
  method HandleToggleWishlist(store: CartProvider.Store, product: Product)
    requires store.Valid()
    modifies store
    ensures store.Valid()
    ensures store.State() == Toggled(old(store.State()), product)
  {
    if store.IsInWishlist(product.id) {
      store.RemoveFromWishlist(product.id);
    } else {
      store.AddToWishlist(product);
    }
  }

  /** `handleAddToCart`: one unit, no variation, no weight. */
  method HandleAddToCart(store: CartProvider.Store, product: Product)
    requires store.Valid()
    modifies store
    ensures store.Valid()
    ensures store.State() == Reduce(old(store.State()), CartAction.AddToCart(product, 1, None, None))
  {
    store.AddToCart(product);
  }

  /** The category label: the given category name if non-empty, else the joined category's name, else "Uncategorized". */
  function CategoryName(categoryName: Option<string>, category: Option<ProductTypes.Category>): (r: string)
    ensures Truthy(categoryName) ==> r == categoryName.value
    ensures !Truthy(categoryName) && category.Some? ==> r == category.value.name
    ensures !Truthy(categoryName) && category.None? ==> r == "Uncategorized"
  {
    if Truthy(categoryName) then categoryName.value
    else if category.Some? then category.value.name
    else "Uncategorized"
  }

  /** The label is blank only when no name is given and the joined category's own name is blank. */
  lemma CategoryNameBlank(categoryName: Option<string>, category: Option<ProductTypes.Category>)
    ensures CategoryName(categoryName, category) == "" <==>
      !Truthy(categoryName) && category.Some? && category.value.name == ""
  {
  }
}
