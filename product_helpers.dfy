/**
 * The database product rows (src/types/products.ts) and `extendProduct`
 * (src/utils/productHelpers.ts), which joins related categories, weights
 * and variations onto a product by foreign-key equality.
 */
module ProductTypes {
  import opened Options

  datatype Category = Category(
    id: string,
    name: string,
    description: Option<string>,
    created_at: string,
    updated_at: string)

  datatype ProductWeight = ProductWeight(
    id: string,
    product_id: string,
    weight: int,
    unit: string,
    created_at: string,
    updated_at: string)

  datatype ProductVariation = ProductVariation(
    id: string,
    product_id: string,
    name: string,
    options: map<string, seq<string>>,
    created_at: string,
    updated_at: string)

  /** The default weight shown for a product. */
  datatype WeightTag = WeightTag(weight: int, unit: string)

  /**
   * A product row plus the properties joined on from related rows.
   * `price` is in cents and takes part in no property.
   */
  datatype Product = Product(
    id: string,
    name: string,
    description: Option<string>,
    price: int,
    image_url: Option<string>,
    category_id: Option<string>,
    inventory_count: int,
    is_featured: Option<bool>,
    created_at: Option<string>,
    updated_at: Option<string>,
    category: Option<Category>,
    weights: Option<seq<ProductWeight>>,
    variations: Option<seq<ProductVariation>>,
    weight: Option<WeightTag>,
    image: Option<string>)

  /** The product's own columns, everything `extendProduct` never writes. */
  predicate SameColumns(a: Product, b: Product) {
    && a.id == b.id && a.name == b.name && a.description == b.description
    && a.price == b.price && a.image_url == b.image_url && a.category_id == b.category_id
    && a.inventory_count == b.inventory_count && a.is_featured == b.is_featured
    && a.created_at == b.created_at && a.updated_at == b.updated_at
  }
}

module ProductHelpers {
  import opened Options
  import opened ProductTypes
  import Seqs

  /** `categories.find(c => c.id === id)`. */
  function FindCategory(categories: seq<Category>, id: string): (r: Option<Category>)
    ensures r.None? <==> forall c :: c in categories ==> c.id != id
    ensures r.Some? ==> exists i :: 0 <= i < |categories| && categories[i] == r.value && r.value.id == id
                                    && forall j :: 0 <= j < i ==> categories[j].id != id
  {
    var i := Seqs.FindIndex(categories, (c: Category) => c.id == id);
    if i >= 0 then Some(categories[i]) else None
  }

  function WeightsOf(weights: seq<ProductWeight>, productId: string): seq<ProductWeight> {
    Seqs.Filter(weights, (w: ProductWeight) => w.product_id == productId)
  }

  function VariationsOf(variations: seq<ProductVariation>, productId: string): seq<ProductVariation> {
    Seqs.Filter(variations, (v: ProductVariation) => v.product_id == productId)
  }

  /**
   * `extendProduct`: a copy of `product` with the joined fields filled in.
   * The category is joined only when a category list is given and the
   * product's `category_id` is non-empty; weights and variations only when
   * at least one row belongs to the product; `image` always mirrors
   * `image_url`.
   */
  function ExtendProduct(product: Product, categories: Option<seq<Category>>,
                         weights: Option<seq<ProductWeight>>,
                         variations: Option<seq<ProductVariation>>): (r: Product)
    ensures SameColumns(r, product)
    ensures r.image == product.image_url
    ensures r.category ==
      if categories.Some? && Truthy(product.category_id)
      then FindCategory(categories.value, product.category_id.value)
      else product.category
    ensures weights.Some? && WeightsOf(weights.value, product.id) != [] ==>
      && r.weights == Some(WeightsOf(weights.value, product.id))
      && r.weight == Some(WeightTag(r.weights.value[0].weight, r.weights.value[0].unit))
    ensures !(weights.Some? && WeightsOf(weights.value, product.id) != []) ==>
      r.weights == product.weights && r.weight == product.weight
    ensures variations.Some? && VariationsOf(variations.value, product.id) != [] ==>
      r.variations == Some(VariationsOf(variations.value, product.id))
    ensures !(variations.Some? && VariationsOf(variations.value, product.id) != []) ==>
      r.variations == product.variations
  {
    var withCategory :=
      if categories.Some? && Truthy(product.category_id)
      then product.(category := FindCategory(categories.value, product.category_id.value))
      else product;
    var withWeights :=
      if weights.Some? && |WeightsOf(weights.value, product.id)| > 0 then
        var productWeights := WeightsOf(weights.value, product.id);
        withCategory.(weights := Some(productWeights),
                      weight := Some(WeightTag(productWeights[0].weight, productWeights[0].unit)))
      else withCategory;
    var withVariations :=
      if variations.Some? && |VariationsOf(variations.value, product.id)| > 0
      then withWeights.(variations := Some(VariationsOf(variations.value, product.id)))
      else withWeights;
    withVariations.(image := product.image_url)
  }

  /**
   * The joined weights are exactly the weight rows of this product, in
   * input order, and the default weight is the first such row.
   */
  lemma ExtendedWeightsAreTheProductsRows(product: Product, categories: Option<seq<Category>>,
                                          weights: seq<ProductWeight>,
                                          variations: Option<seq<ProductVariation>>)
    requires exists w :: w in weights && w.product_id == product.id
    ensures var r := ExtendProduct(product, categories, Some(weights), variations);
      && r.weights.Some?
      && (forall w :: w in r.weights.value <==> w in weights && w.product_id == product.id)
      && Seqs.IsSubsequence(r.weights.value, weights)
      && var first := weights[Seqs.FindIndex(weights, (w: ProductWeight) => w.product_id == product.id)];
         r.weight == Some(WeightTag(first.weight, first.unit))
  {
    var keep := (w: ProductWeight) => w.product_id == product.id;
    var w :| w in weights && w.product_id == product.id;
    assert w in WeightsOf(weights, product.id);
    Seqs.FilterIsSubsequence(weights, keep);
    Seqs.FilterHeadIsFirstMatch(weights, keep);
  }

  /** The joined variations are exactly the variation rows of this product, in input order. */
  lemma ExtendedVariationsAreTheProductsRows(product: Product, categories: Option<seq<Category>>,
                                             weights: Option<seq<ProductWeight>>,
                                             variations: seq<ProductVariation>)
    requires exists v :: v in variations && v.product_id == product.id
    ensures var r := ExtendProduct(product, categories, weights, Some(variations));
      && r.variations.Some?
      && (forall v :: v in r.variations.value <==> v in variations && v.product_id == product.id)
      && Seqs.IsSubsequence(r.variations.value, variations)
  {
    var v :| v in variations && v.product_id == product.id;
    assert v in VariationsOf(variations, product.id);
    Seqs.FilterIsSubsequence(variations, (v: ProductVariation) => v.product_id == product.id);
  }

  /** With no related data at all, extending only sets `image`. */
  lemma ExtendWithNothing(product: Product)
    ensures ExtendProduct(product, None, None, None) == product.(image := product.image_url)
  {
  }

  /** A product without a category id keeps its category, whatever categories are given. */
  lemma NoCategoryIdKeepsCategory(product: Product, categories: seq<Category>)
    requires product.category_id.None? || product.category_id == Some("")
    ensures ExtendProduct(product, Some(categories), None, None).category == product.category
  {
  }
}
