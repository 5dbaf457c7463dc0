/**
 * The product detail page (src/pages/ProductDetail.tsx): catalog lookup,
 * the page's selection state (quantity, variation selection, weight),
 * the add-to-cart guard, and the "You May Also Like" list.
 */
module ProductDetail {
  import opened Options
  import opened CartReducer
  import CartProvider
  import Seqs

  /** The page's catalog; descriptions are shortened to their first sentence, prices are in cents. */
  const Catalog: seq<Product> := [
    Product(1, "Organic Cashews",
      "Ethically grown and harvested cashews from our farms in the Eastern Afram Plains.",
      1299, "https://images.unsplash.com/photo-1563412580953-7f9e99209336", "Nuts",
      Some([VariationAxis("Type", ["Raw", "Roasted", "Salted"])]),
      Some(WeightAxis([250, 500, 1000], "g"))),
    Product(2, "Tiger Nut Flour",
      "Our signature product, perfect for gluten-free baking and adding nutritional value to smoothies and recipes.",
      999, "https://images.unsplash.com/photo-1614961233913-a5113a4a34ed", "Flour",
      Some([VariationAxis("Processing", ["Fine Ground", "Coarse Ground"])]),
      Some(WeightAxis([500, 1000, 2000], "g"))),
    Product(3, "Tiger Nut Milk",
      "Creamy plant-based milk alternative rich in nutrients and natural sweetness.",
      699, "https://images.unsplash.com/photo-1550583724-b2692b85b150", "Beverages",
      Some([VariationAxis("Flavor", ["Original", "Vanilla", "Chocolate"])]),
      Some(WeightAxis([500, 1000], "ml"))),
    Product(4, "Tiger Nut Dessert",
      "Frozen treats featuring the unique flavor and nutrition of tiger nuts.",
      899, "https://images.unsplash.com/photo-1551024506-0bccd828d307", "Dessert",
      Some([VariationAxis("Flavor", ["Classic", "Berry Mix", "Chocolate"])]),
      Some(WeightAxis([250, 500], "g")))]

  /** The shown product: the first catalog entry with the requested id; None is the not-found page. */
  function LookupProduct(catalog: seq<Product>, id: ProductId): (r: Option<Product>)
    ensures r.None? <==> forall p :: p in catalog ==> p.id != id
    ensures r.Some? ==> exists i :: 0 <= i < |catalog| && catalog[i] == r.value && r.value.id == id
                                    && forall j :: 0 <= j < i ==> catalog[j].id != id
  {
    var i := Seqs.FindIndex(catalog, (p: Product) => p.id == id);
    if i >= 0 then Some(catalog[i]) else None
  }

  /** The initial weight selection: the product's first weight option, if it has one. */
  function InitialWeight(product: Product): (w: Option<int>)
    ensures w.Some? <==> product.weight.Some? && product.weight.value.options != []
    ensures w.Some? ==> w.value == product.weight.value.options[0] && w.value in product.weight.value.options
  {
    if product.weight.Some? && |product.weight.value.options| > 0
    then Some(product.weight.value.options[0]) else None
  }

  /** The number of variation axes the product declares (0 when it declares none). */
  function AxisCount(product: Product): nat {
    if product.variations.Some? then |product.variations.value| else 0
  }

  /** The keys of a selection are pairwise different, as in a record. */
  predicate DistinctKeys(sel: Selection) {
    Seqs.DistinctBy(sel, (e: (string, string)) => e.0)
  }

  /** The option chosen for an axis, if any. */
  function Lookup(sel: Selection, name: string): (r: Option<string>)
    ensures r.None? <==> forall e :: e in sel ==> e.0 != name
    ensures r.Some? ==> (name, r.value) in sel
  {
    if sel == [] then None
    else if sel[0].0 == name then Some(sel[0].1)
    else Lookup(sel[1..], name)
  }

  /**
   * `handleVariationChange`: `{ ...prev, [name]: value }`. An existing key
   * keeps its position and takes the new value; a new key goes last.
   */
  function SetKey(sel: Selection, name: string, value: string): (r: Selection)
    ensures Lookup(r, name) == Some(value)
    ensures forall k :: k != name ==> Lookup(r, k) == Lookup(sel, k)
    ensures Lookup(sel, name).Some? ==> |r| == |sel| && forall j :: 0 <= j < |sel| ==> r[j].0 == sel[j].0
    ensures Lookup(sel, name).None? ==> r == sel + [(name, value)]
  {
    if sel == [] then [(name, value)]
    else if sel[0].0 == name then [(name, value)] + sel[1..]
    else [sel[0]] + SetKey(sel[1..], name, value)
  }

  /** Setting a key keeps the keys of a selection distinct. */
  lemma SetKeyKeepsDistinctKeys(sel: Selection, name: string, value: string)
    requires DistinctKeys(sel)
    ensures DistinctKeys(SetKey(sel, name, value))
  {
    var r := SetKey(sel, name, value);
    if Lookup(sel, name).None? {
      assert forall j :: 0 <= j < |sel| ==> sel[j] in sel && r[j] == sel[j];
    }
  }

  /** The add-to-cart guard: at least as many selected keys as variation axes; which keys is not checked. */
  predicate SelectionComplete(sel: Selection, product: Product) {
    |sel| >= AxisCount(product)
  }

  /** The guard counts keys only: a selection naming the wrong axis passes it. */
  lemma GuardCountsKeysOnly()
    ensures Catalog[0].variations.value[0].name == "Type"
    ensures SelectionComplete([("Flavor", "Vanilla")], Catalog[0])
    ensures Lookup([("Flavor", "Vanilla")], "Type").None?
  {
  }

  /** The products of the catalog other than the current one, in catalog order. */
  function Others(catalog: seq<Product>, currentId: ProductId): seq<Product> {
    Seqs.Filter(catalog, (p: Product) => p.id != currentId)
  }

  /**
   * "You May Also Like": the catalog without the current product, in
   * catalog order, at most four. The shown ones are the first four others:
   * every other product with fewer than four others ahead of it is shown,
   * and a product is left out only when the list is already full.
   */
  function RelatedProducts(catalog: seq<Product>, currentId: ProductId): (r: seq<Product>)
    ensures |r| <= 4
    ensures forall p :: p in r ==> p in catalog && p.id != currentId
    ensures forall j ::
      (0 <= j < |catalog| && catalog[j].id != currentId && |Others(catalog[..j], currentId)| < 4) ==> catalog[j] in r
    ensures forall p :: p in catalog && p.id != currentId && p !in r ==> |r| == 4
  {
    var others := Others(catalog, currentId);
    FirstOthersShown(catalog, currentId);
    others[..if |others| < 4 then |others| else 4]
  }

  /** An other product with fewer than four others ahead of it is among the first four others. */
  lemma FirstOthersShown(catalog: seq<Product>, currentId: ProductId)
    ensures var others := Others(catalog, currentId);
      forall j ::
        (0 <= j < |catalog| && catalog[j].id != currentId && |Others(catalog[..j], currentId)| < 4) ==>
        catalog[j] in others[..if |others| < 4 then |others| else 4]
  {
    var others := Others(catalog, currentId);
    forall j | 0 <= j < |catalog| && catalog[j].id != currentId && |Others(catalog[..j], currentId)| < 4
      ensures catalog[j] in others[..if |others| < 4 then |others| else 4]
    {
      Seqs.FilterRank(catalog, (p: Product) => p.id != currentId, j);
      assert others[..if |others| < 4 then |others| else 4][|Others(catalog[..j], currentId)|] == catalog[j];
    }
  }

  /** The related products appear in catalog order. */
  lemma RelatedProductsInCatalogOrder(catalog: seq<Product>, currentId: ProductId)
    ensures Seqs.IsSubsequence(RelatedProducts(catalog, currentId), catalog)
  {
    var others := Others(catalog, currentId);
    Seqs.FilterIsSubsequence(catalog, (p: Product) => p.id != currentId);
    Seqs.PrefixOfSubsequence(others, catalog, if |others| < 4 then |others| else 4);
  }

  /**
   * A quick add (quantity 1, no selection, no weight) never merges with a
   * line that carries a selection, as every line added from the detail
   * form does: it is appended as a new line.
   */
  lemma QuickAddNeverMergesWithDetailLine(items: seq<CartItem>, p: Product)
    requires forall x :: x in items && x.product.id == p.id ==> x.selectedVariation.Some?
    ensures AddLine(items, p, 1, None, None) == items + [CartItem(p, 1, None, None)]
  {
  }

  /** The page's state cells and the store it adds to. */
  class DetailPage {
    const product: Product
    const store: CartProvider.Store
    var quantity: int
    var selectedVariation: Selection
    var selectedWeight: Option<int>

    ghost predicate Valid()
      reads this
    {
      quantity >= 1 && DistinctKeys(selectedVariation)
    }

    /** Quantity 1, an empty selection `{}`, and the first weight option. */
    constructor (product: Product, store: CartProvider.Store)
      ensures this.product == product && this.store == store
      ensures quantity == 1 && selectedVariation == [] && selectedWeight == InitialWeight(product)
      ensures Valid()
    {
      this.product := product;
      this.store := store;
      quantity := 1;
      selectedVariation := [];
      selectedWeight := InitialWeight(product);
    }

    /** The minus button: one less, but never below 1. */
    method Decrease()
      requires Valid()
      modifies this`quantity
      ensures Valid()
      ensures old(quantity) > 1 ==> quantity == old(quantity) - 1
      ensures old(quantity) == 1 ==> quantity == 1
    {
      quantity := if quantity - 1 > 1 then quantity - 1 else 1;
    }

    /** The plus button: one more. */
    method Increase()
      requires Valid()
      modifies this`quantity
      ensures Valid()
      ensures quantity == old(quantity) + 1
    {
      quantity := quantity + 1;
    }

    /** A weight button. */
    method SelectWeight(weight: int)
      modifies this`selectedWeight
      ensures selectedWeight == Some(weight)
    {
      selectedWeight := Some(weight);
    }

    /** `handleVariationChange`: one key takes the chosen option, every other key keeps its option. */
    method ChangeVariation(name: string, value: string)
      requires Valid()
      modifies this`selectedVariation
      ensures Valid()
      ensures selectedVariation == SetKey(old(selectedVariation), name, value)
    {
      SetKeyKeepsDistinctKeys(selectedVariation, name, value);
      selectedVariation := SetKey(selectedVariation, name, value);
    }

    /**
     * `handleAddToCart`: refused, with the cart unchanged, while fewer keys
     * are selected than the product has axes; otherwise adds exactly the
     * current quantity, selection and weight.
     */
    method AddToCart() returns (added: bool)
      requires store.Valid()
      modifies store
      ensures store.Valid()
      ensures added <==> SelectionComplete(selectedVariation, product)
      ensures !added ==> store.State() == old(store.State())
      ensures added ==>
        store.State() == Reduce(old(store.State()),
                                CartAction.AddToCart(product, quantity, Some(selectedVariation), selectedWeight))
    {
      if |selectedVariation| < AxisCount(product) {
        return false;
      }
      store.AddToCart(product, quantity, Some(selectedVariation), selectedWeight);
      return true;
    }

    /** `handleAddToWishlist`. */
    method AddToWishlist()
      requires store.Valid()
      modifies store
      ensures store.Valid()
      ensures store.State() == Reduce(old(store.State()), CartAction.AddToWishlist(product))
    {
      store.AddToWishlist(product);
    }

    /** The add button of a related product: `addToCart(relatedProduct)` with every default. */
    method AddRelatedToCart(related: Product)
      requires store.Valid()
      modifies store
      ensures store.Valid()
      ensures store.State() == Reduce(old(store.State()), CartAction.AddToCart(related, 1, None, None))
    {
      store.AddToCart(related);
    }
  }

  /** The page's lookups and defaults on its own catalog. */
  lemma CatalogFacts()
    ensures LookupProduct(Catalog, 1) == Some(Catalog[0])
    ensures LookupProduct(Catalog, 5).None?
    ensures InitialWeight(Catalog[0]) == Some(250)
  {
  }
}
