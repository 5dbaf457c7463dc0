/**
 * The cart provider (src/contexts/CartContext.tsx): one mutable store
 * holding the cart lines and the wishlist, changed only by dispatching a
 * reducer action. Each method is one of the provider's callbacks.
 */
module CartProvider {
  import opened Options
  import opened CartReducer

  class Store {
    var cartItems: seq<CartItem>
    var wishlistItems: seq<Product>

    /** The store's contents as a reducer state. */
    function State(): CartState
      reads this
    {
      CartState(cartItems, wishlistItems)
    }

    /** The invariants every reachable store satisfies. */
    ghost predicate Valid()
      reads this
    {
      UniqueKeys(cartItems) && UniqueWishlist(wishlistItems)
    }

    /** The provider starts from the empty initial state. */
    constructor ()
      ensures State() == InitialState
      ensures Valid()
    {
      cartItems := [];
      wishlistItems := [];
    }

    /** `dispatch`: replace the state by the reducer's result. */
    method Dispatch(action: CartAction)
      requires Valid()
      modifies this
      ensures Valid()
      ensures State() == Reduce(old(State()), action)
    {
      ReduceKeepsUniqueKeys(State(), action);
      ReduceKeepsUniqueWishlist(State(), action);
      var next := Reduce(State(), action);
      cartItems := next.cartItems;
      wishlistItems := next.wishlistItems;
    }

    /** `addToCart`, with the quantity defaulting to 1 and no variation or weight. */
    method AddToCart(product: Product, quantity: int := 1,
                     selectedVariation: Option<Selection> := None, selectedWeight: Option<int> := None)
      requires Valid()
      modifies this
      ensures Valid()
      ensures State() == Reduce(old(State()), CartAction.AddToCart(product, quantity, selectedVariation, selectedWeight))
      ensures wishlistItems == old(wishlistItems)
    {
      Dispatch(CartAction.AddToCart(product, quantity, selectedVariation, selectedWeight));
    }

    method RemoveFromCart(productId: ProductId)
      requires Valid()
      modifies this
      ensures Valid()
      ensures cartItems == RemoveProduct(old(cartItems), productId)
      ensures wishlistItems == old(wishlistItems)
    {
      Dispatch(CartAction.RemoveFromCart(productId));
    }

    method UpdateQuantity(productId: ProductId, quantity: int)
      requires Valid()
      modifies this
      ensures Valid()
      ensures quantity <= 0 ==> cartItems == RemoveProduct(old(cartItems), productId)
      ensures quantity > 0 ==> cartItems == SetQuantity(old(cartItems), productId, quantity)
      ensures wishlistItems == old(wishlistItems)
    {
      Dispatch(CartAction.UpdateQuantity(productId, quantity));
    }

    method ClearCart()
      requires Valid()
      modifies this
      ensures Valid()
      ensures cartItems == [] && wishlistItems == old(wishlistItems)
    {
      Dispatch(CartAction.ClearCart);
    }

    method AddToWishlist(product: Product)
      requires Valid()
      modifies this
      ensures Valid()
      ensures wishlistItems == WishlistAdd(old(wishlistItems), product)
      ensures cartItems == old(cartItems)
    {
      Dispatch(CartAction.AddToWishlist(product));
    }

    method RemoveFromWishlist(productId: ProductId)
      requires Valid()
      modifies this
      ensures Valid()
      ensures wishlistItems == WishlistRemove(old(wishlistItems), productId)
      ensures cartItems == old(cartItems)
    {
      Dispatch(CartAction.RemoveFromWishlist(productId));
    }

    /** `isInWishlist`: true exactly when some wishlist entry has the id. */
    function IsInWishlist(productId: ProductId): (found: bool)
      reads this
      ensures found <==> exists p :: p in wishlistItems && p.id == productId
    {
      InWishlist(wishlistItems, productId)
    }
  }
}
