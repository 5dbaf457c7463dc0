/**
 * The cart and wishlist reducer of the storefront (src/contexts/CartContext.tsx).
 *
 * The state is two lists: cart lines and wishlist products. A cart line is
 * identified by (product id, serialised variation selection, weight). The
 * variation selection is a record whose serialisation lists its entries in
 * insertion order, so it is modelled as an optional sequence of
 * (axis, option) pairs compared structurally: the same pairs in another
 * order are a different selection, and an absent selection is not the
 * empty one.
 */
module CartReducer {
  import opened Options
  import Seqs

  type ProductId = int

  /** A named variation axis and its options, e.g. "Type": Raw, Roasted, Salted. */
  datatype VariationAxis = VariationAxis(name: string, options: seq<string>)

  /** The weight options a product is sold in and their unit. */
  datatype WeightAxis = WeightAxis(options: seq<int>, unit: string)

  /** A storefront product; `price` is in cents and takes part in no property. */
  datatype Product = Product(
    id: ProductId,
    name: string,
    description: string,
    price: int,
    image: string,
    category: string,
    variations: Option<seq<VariationAxis>>,
    weight: Option<WeightAxis>)

  /** A variation selection: (axis name, chosen option) pairs in insertion order. */
  type Selection = seq<(string, string)>

  datatype CartItem = CartItem(
    product: Product,
    quantity: int,
    selectedVariation: Option<Selection>,
    selectedWeight: Option<int>)

  datatype CartState = CartState(cartItems: seq<CartItem>, wishlistItems: seq<Product>)

  datatype CartAction =
    | AddToCart(product: Product, quantity: int, selectedVariation: Option<Selection>, selectedWeight: Option<int>)
    | RemoveFromCart(productId: ProductId)
    | UpdateQuantity(id: ProductId, newQuantity: int)
    | ClearCart
    | AddToWishlist(wished: Product)
    | RemoveFromWishlist(wishedId: ProductId)

  const InitialState := CartState([], [])

  /** The identity key of a cart line. */
  datatype LineKey = LineKey(id: ProductId, variation: Option<Selection>, weight: Option<int>)

  function KeyOf(item: CartItem): LineKey {
    LineKey(item.product.id, item.selectedVariation, item.selectedWeight)
  }

  /** No two cart lines share a key. */
  predicate UniqueKeys(items: seq<CartItem>) {
    Seqs.DistinctBy(items, KeyOf)
  }

  /** No product id appears twice in the wishlist. */
  predicate UniqueWishlist(wishlist: seq<Product>) {
    Seqs.DistinctBy(wishlist, (p: Product) => p.id)
  }

  predicate AllPositive(items: seq<CartItem>) {
    forall i :: 0 <= i < |items| ==> items[i].quantity > 0
  }

  /** The position of the line with the given key, or -1 (the `findIndex` of ADD_TO_CART). */
  function FindLine(items: seq<CartItem>, key: LineKey): (i: int)
    ensures -1 <= i < |items|
    ensures i == -1 <==> forall j :: 0 <= j < |items| ==> KeyOf(items[j]) != key
    ensures 0 <= i ==> KeyOf(items[i]) == key && forall j :: 0 <= j < i ==> KeyOf(items[j]) != key
  {
    Seqs.FindIndex(items, (item: CartItem) => KeyOf(item) == key)
  }

  /**
   * ADD_TO_CART: a line with the same key gets `quantity` added, in place,
   * keeping its own product; otherwise a new line is appended.
   */
  function AddLine(items: seq<CartItem>, product: Product, quantity: int,
                   variation: Option<Selection>, weight: Option<int>): (r: seq<CartItem>)
    ensures var i := FindLine(items, LineKey(product.id, variation, weight));
      if i >= 0 then
        && |r| == |items|
        && r[i] == items[i].(quantity := items[i].quantity + quantity)
        && forall j :: 0 <= j < |items| && j != i ==> r[j] == items[j]
      else
        r == items + [CartItem(product, quantity, variation, weight)]
  {
    var i := FindLine(items, LineKey(product.id, variation, weight));
    if i > -1 then
      items[i := items[i].(quantity := items[i].quantity + quantity)]
    else
      items + [CartItem(product, quantity, variation, weight)]
  }

  /** REMOVE_FROM_CART, and UPDATE_QUANTITY with a quantity <= 0: drop every line of the product. */
  function RemoveProduct(items: seq<CartItem>, id: ProductId): (r: seq<CartItem>)
    ensures forall x :: x in r <==> x in items && x.product.id != id
  {
    Seqs.Filter(items, (item: CartItem) => item.product.id != id)
  }

  /** UPDATE_QUANTITY with a quantity > 0: every line of the product gets that quantity. */
  function SetQuantity(items: seq<CartItem>, id: ProductId, quantity: int): (r: seq<CartItem>)
    ensures |r| == |items|
    ensures forall i :: 0 <= i < |items| ==>
      && KeyOf(r[i]) == KeyOf(items[i])
      && r[i].product == items[i].product
      && (items[i].product.id == id ==> r[i].quantity == quantity)
      && (items[i].product.id != id ==> r[i] == items[i])
  {
    seq(|items|, i requires 0 <= i < |items| =>
      if items[i].product.id == id then items[i].(quantity := quantity) else items[i])
  }

  /** `isInWishlist` and the check of ADD_TO_WISHLIST (`some`): some wishlist entry has the id. */
  predicate InWishlist(wishlist: seq<Product>, id: ProductId)
    ensures InWishlist(wishlist, id) <==> exists i :: 0 <= i < |wishlist| && wishlist[i].id == id
  {
    Seqs.FindIndex(wishlist, (p: Product) => p.id == id) >= 0
  }

  /** ADD_TO_WISHLIST: append unless an entry with the same id is present. */
  function WishlistAdd(wishlist: seq<Product>, product: Product): (r: seq<Product>)
    ensures InWishlist(wishlist, product.id) ==> r == wishlist
    ensures !InWishlist(wishlist, product.id) ==> r == wishlist + [product]
  {
    if InWishlist(wishlist, product.id) then wishlist
    else wishlist + [product]
  }

  /** REMOVE_FROM_WISHLIST: drop every entry with the id. */
  function WishlistRemove(wishlist: seq<Product>, id: ProductId): (r: seq<Product>)
    ensures forall p :: p in r <==> p in wishlist && p.id != id
  {
    Seqs.Filter(wishlist, (p: Product) => p.id != id)
  }

  predicate IsCartAction(action: CartAction) {
    action.AddToCart? || action.RemoveFromCart? || action.UpdateQuantity? || action.ClearCart?
  }

  /** `cartReducer`: cart actions never touch the wishlist and wishlist actions never touch the cart. */
  function Reduce(state: CartState, action: CartAction): (r: CartState)
    ensures IsCartAction(action) ==> r.wishlistItems == state.wishlistItems
    ensures !IsCartAction(action) ==> r.cartItems == state.cartItems
    ensures action.ClearCart? ==> r.cartItems == []
  {
    match action
    case AddToCart(product, quantity, variation, weight) =>
      state.(cartItems := AddLine(state.cartItems, product, quantity, variation, weight))
    case RemoveFromCart(id) =>
      state.(cartItems := RemoveProduct(state.cartItems, id))
    case UpdateQuantity(id, quantity) =>
      if quantity <= 0 then state.(cartItems := RemoveProduct(state.cartItems, id))
      else state.(cartItems := SetQuantity(state.cartItems, id, quantity))
    case ClearCart =>
      state.(cartItems := [])
    case AddToWishlist(product) =>
      state.(wishlistItems := WishlistAdd(state.wishlistItems, product))
    case RemoveFromWishlist(id) =>
      state.(wishlistItems := WishlistRemove(state.wishlistItems, id))
  }

  // ---------------------------------------------------------------------
  // Properties of ADD_TO_CART

  /** Adding never creates a second line for a key: the unique-key invariant is kept. */
  lemma AddLineKeepsUniqueKeys(items: seq<CartItem>, product: Product, quantity: int,
                               variation: Option<Selection>, weight: Option<int>)
    requires UniqueKeys(items)
    ensures UniqueKeys(AddLine(items, product, quantity, variation, weight))
  {
    var key := LineKey(product.id, variation, weight);
    var r := AddLine(items, product, quantity, variation, weight);
    var i := FindLine(items, key);
    if i >= 0 {
      assert forall j :: 0 <= j < |r| ==> KeyOf(r[j]) == KeyOf(items[j]);
    } else {
      assert forall j :: 0 <= j < |items| ==> r[j] == items[j];
      assert KeyOf(r[|items|]) == key;
    }
  }

  /**
   * Adding the same configuration twice, starting with no line for it,
   * leaves exactly one line for it, holding the sum of both quantities.
   */
  lemma AddTwiceSumsQuantities(items: seq<CartItem>, product: Product, q1: int, q2: int,
                               variation: Option<Selection>, weight: Option<int>)
    requires FindLine(items, LineKey(product.id, variation, weight)) == -1
    ensures var r := AddLine(AddLine(items, product, q1, variation, weight), product, q2, variation, weight);
      && |r| == |items| + 1
      && r[..|items|] == items
      && r[|items|] == CartItem(product, q1 + q2, variation, weight)
  {
    var key := LineKey(product.id, variation, weight);
    var once := AddLine(items, product, q1, variation, weight);
    assert forall j :: 0 <= j < |items| ==> once[j] == items[j] && KeyOf(once[j]) != key;
    assert KeyOf(once[|items|]) == key;
    assert FindLine(once, key) == |items|;
  }

  /** Only the key decides merging; a line of the same product with a different selection is left alone. */
  lemma SelectionOrderMatters(p: Product)
    ensures var raw := [("Type", "Raw"), ("Size", "Large")];
      var swapped := [("Size", "Large"), ("Type", "Raw")];
      var items := [CartItem(p, 1, Some(raw), None)];
      AddLine(items, p, 1, Some(swapped), None) == items + [CartItem(p, 1, Some(swapped), None)]
  {
    var raw := [("Type", "Raw"), ("Size", "Large")];
    var swapped := [("Size", "Large"), ("Type", "Raw")];
    assert raw[0] != swapped[0];
    var items := [CartItem(p, 1, Some(raw), None)];
    assert FindLine(items, LineKey(p.id, Some(swapped), None)) == -1;
  }

  /** An absent selection does not match an empty one, so adding with `{}` after a plain add appends. */
  lemma AbsentSelectionIsNotEmpty(p: Product, weight: Option<int>)
    ensures var items := [CartItem(p, 1, None, weight)];
      AddLine(items, p, 1, Some([]), weight) == items + [CartItem(p, 1, Some([]), weight)]
  {
    var items := [CartItem(p, 1, None, weight)];
    assert FindLine(items, LineKey(p.id, Some([]), weight)) == -1;
  }

  /** No sign check is made: adding a quantity <= 0 to an empty cart yields a line that is not positive. */
  lemma AddNonPositiveBreaksPositivity(p: Product, quantity: int)
    requires quantity <= 0
    ensures !AllPositive(Reduce(InitialState, AddToCart(p, quantity, None, None)).cartItems)
  {
    assert Reduce(InitialState, AddToCart(p, quantity, None, None)).cartItems[0].quantity == quantity;
  }

  // ---------------------------------------------------------------------
  // Properties of REMOVE_FROM_CART and UPDATE_QUANTITY

  /** Removal keeps the remaining lines in their original order. */
  lemma RemoveProductKeepsOrder(items: seq<CartItem>, id: ProductId)
    ensures Seqs.IsSubsequence(RemoveProduct(items, id), items)
  {
    Seqs.FilterIsSubsequence(items, (item: CartItem) => item.product.id != id);
  }

  /** Removing an id that no line carries changes nothing. */
  lemma RemoveAbsentProductIsIdentity(items: seq<CartItem>, id: ProductId)
    requires forall x :: x in items ==> x.product.id != id
    ensures RemoveProduct(items, id) == items
  {
    Seqs.FilterKeepsAll(items, (item: CartItem) => item.product.id != id);
  }

  /**
   * The reducer matches lines by product id only: with the Raw and Roasted
   * lines of one product in the cart, UPDATE_QUANTITY to 0 removes both.
   */
  lemma UpdateToZeroDropsEveryVariation(p: Product)
    ensures var raw := CartItem(p, 2, Some([("Type", "Raw")]), Some(500));
      var roasted := CartItem(p, 1, Some([("Type", "Roasted")]), Some(500));
      var s := Reduce(Reduce(InitialState, AddToCart(p, 2, Some([("Type", "Raw")]), Some(500))),
                      AddToCart(p, 1, Some([("Type", "Roasted")]), Some(500)));
      && s.cartItems == [raw, roasted]
      && Reduce(s, UpdateQuantity(p.id, 0)).cartItems == []
  {
    var raw := CartItem(p, 2, Some([("Type", "Raw")]), Some(500));
    var roasted := CartItem(p, 1, Some([("Type", "Roasted")]), Some(500));
    var s1 := Reduce(InitialState, AddToCart(p, 2, Some([("Type", "Raw")]), Some(500)));
    assert s1.cartItems == [raw];
    assert ("Type", "Raw") != ("Type", "Roasted");
    assert FindLine([raw], KeyOf(roasted)) == -1;
    var s2 := Reduce(s1, AddToCart(p, 1, Some([("Type", "Roasted")]), Some(500)));
    assert s2.cartItems == [raw, roasted];
    var keep := (item: CartItem) => item.product.id != p.id;
    assert [raw, roasted][1..] == [roasted];
    assert Seqs.Filter([roasted], keep) == [];
    assert Seqs.Filter([raw, roasted], keep) == [];
  }

  // ---------------------------------------------------------------------
  // Invariants kept by the whole reducer

  /** Every action keeps the cart's unique-key invariant. */
  lemma ReduceKeepsUniqueKeys(state: CartState, action: CartAction)
    requires UniqueKeys(state.cartItems)
    ensures UniqueKeys(Reduce(state, action).cartItems)
  {
    match action
    case AddToCart(product, quantity, variation, weight) =>
      AddLineKeepsUniqueKeys(state.cartItems, product, quantity, variation, weight);
    case RemoveFromCart(id) =>
      Seqs.FilterKeepsDistinct(state.cartItems, (item: CartItem) => item.product.id != id, KeyOf);
    case UpdateQuantity(id, quantity) =>
      if quantity <= 0 {
        Seqs.FilterKeepsDistinct(state.cartItems, (item: CartItem) => item.product.id != id, KeyOf);
      } else {
        var r := SetQuantity(state.cartItems, id, quantity);
        assert forall j :: 0 <= j < |r| ==> KeyOf(r[j]) == KeyOf(state.cartItems[j]);
      }
    case ClearCart =>
    case AddToWishlist(_) =>
    case RemoveFromWishlist(_) =>
  }

  /** Every action keeps the wishlist free of duplicate ids. */
  lemma ReduceKeepsUniqueWishlist(state: CartState, action: CartAction)
    requires UniqueWishlist(state.wishlistItems)
    ensures UniqueWishlist(Reduce(state, action).wishlistItems)
  {
    match action
    case AddToWishlist(product) =>
      var w := state.wishlistItems;
      if !InWishlist(w, product.id) {
        var r := w + [product];
        assert forall j :: 0 <= j < |w| ==> r[j] == w[j] && r[j].id != product.id;
      }
    case RemoveFromWishlist(id) =>
      Seqs.FilterKeepsDistinct(state.wishlistItems, (p: Product) => p.id != id, (p: Product) => p.id);
    case AddToCart(_, _, _, _) =>
    case RemoveFromCart(_) =>
    case UpdateQuantity(_, _) =>
    case ClearCart =>
  }

  /** Quantities stay positive under every action except an ADD_TO_CART of a quantity <= 0. */
  lemma ReduceKeepsPositive(state: CartState, action: CartAction)
    requires AllPositive(state.cartItems)
    requires action.AddToCart? ==> action.quantity > 0
    ensures AllPositive(Reduce(state, action).cartItems)
  {
    var items := state.cartItems;
    match action
    case AddToCart(product, quantity, variation, weight) =>
      var r := AddLine(items, product, quantity, variation, weight);
      if FindLine(items, LineKey(product.id, variation, weight)) < 0 {
        assert forall j :: 0 <= j < |items| ==> r[j] == items[j];
      }
    case RemoveFromCart(id) =>
      var r := RemoveProduct(items, id);
      assert forall j :: 0 <= j < |r| ==> r[j] in items;
    case UpdateQuantity(id, quantity) =>
      if quantity <= 0 {
        var r := RemoveProduct(items, id);
        assert forall j :: 0 <= j < |r| ==> r[j] in items;
      }
    case ClearCart =>
    case AddToWishlist(_) =>
    case RemoveFromWishlist(_) =>
  }

  // ---------------------------------------------------------------------
  // Properties of the wishlist

  /** ADD_TO_WISHLIST is idempotent and afterwards the id is in the wishlist. */
  lemma AddToWishlistIdempotent(state: CartState, product: Product)
    ensures var once := Reduce(state, AddToWishlist(product));
      && InWishlist(once.wishlistItems, product.id)
      && Reduce(once, AddToWishlist(product)) == once
  {
    var once := Reduce(state, AddToWishlist(product));
    if !InWishlist(state.wishlistItems, product.id) {
      assert once.wishlistItems[|state.wishlistItems|] == product;
    }
  }

  /** After REMOVE_FROM_WISHLIST no entry carries the id; entries with other ids stay. */
  lemma RemoveFromWishlistDropsId(state: CartState, id: ProductId)
    ensures var r := Reduce(state, RemoveFromWishlist(id)).wishlistItems;
      && !InWishlist(r, id)
      && (forall p :: p in state.wishlistItems && p.id != id ==> p in r)
      && Seqs.IsSubsequence(r, state.wishlistItems)
  {
    Seqs.FilterIsSubsequence(state.wishlistItems, (p: Product) => p.id != id);
  }

  /** Adding then removing a product leaves it out of the wishlist. */
  lemma AddThenRemoveWishlist(state: CartState, product: Product)
    ensures !InWishlist(Reduce(Reduce(state, AddToWishlist(product)), RemoveFromWishlist(product.id)).wishlistItems,
                        product.id)
  {
    RemoveFromWishlistDropsId(Reduce(state, AddToWishlist(product)), product.id);
  }
}
