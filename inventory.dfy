/**
 * The admin inventory table (src/pages/admin/Inventory.tsx): a local list
 * of products the admin can delete rows from, with a stock badge coloured
 * by how much stock is left.
 */
module Inventory {
  import Seqs

  /** An inventory row; `price` is in cents and takes part in no property. */
  datatype Product = Product(
    id: int,
    name: string,
    price: int,
    category: string,
    stock: int,
    image: string)

  /** The stock badge colour. */
  datatype StockTier = Green | Yellow | Red

  /** The stock badge: more than 100 units is green, more than 50 yellow, anything else red. */
  function Tier(stock: int): (t: StockTier)
    ensures t == Green <==> stock > 100
    ensures t == Yellow <==> 50 < stock <= 100
    ensures t == Red <==> stock <= 50
  {
    if stock > 100 then Green else if stock > 50 then Yellow else Red
  }

  /** More stock never gives a worse badge. */
  lemma TierMonotone(a: int, b: int)
    requires a <= b
    ensures Tier(a) == Green ==> Tier(b) == Green
    ensures Tier(b) == Red ==> Tier(a) == Red
  {
  }

  /** The list after deleting `id`: every row with another id, in order. */
  function Deleted(products: seq<Product>, id: int): (r: seq<Product>)
    ensures forall p :: p in r <==> p in products && p.id != id
  {
    Seqs.Filter(products, (p: Product) => p.id != id)
  }

  /** Deleting keeps the remaining rows in their order. */
  lemma DeleteKeepsOrder(products: seq<Product>, id: int)
    ensures Seqs.IsSubsequence(Deleted(products, id), products)
  {
    Seqs.FilterIsSubsequence(products, (p: Product) => p.id != id);
  }

  /** Deleting an id no row has leaves the list unchanged. */
  lemma DeleteAbsentUnchanged(products: seq<Product>, id: int)
    requires forall p :: p in products ==> p.id != id
    ensures Deleted(products, id) == products
  {
    Seqs.FilterKeepsAll(products, (p: Product) => p.id != id);
  }

  /** Deleting the same id twice is deleting it once. */
  lemma DeleteIdempotent(products: seq<Product>, id: int)
    ensures Deleted(Deleted(products, id), id) == Deleted(products, id)
  {
    Seqs.FilterIdempotent(products, (p: Product) => p.id != id);
  }

  /** Deleting two ids in either order gives the same list. */
  lemma {:induction false} DeletesCommute(products: seq<Product>, a: int, b: int)
    ensures Deleted(Deleted(products, a), b) == Deleted(Deleted(products, b), a)
  {
    if products != [] {
      var keepA := (p: Product) => p.id != a;
      var keepB := (p: Product) => p.id != b;
      var head, tail := products[..1], products[1..];
      assert products == head + tail;
      Seqs.FilterAppend(head, tail, keepA);
      Seqs.FilterAppend(head, tail, keepB);
      Seqs.FilterAppend(Seqs.Filter(head, keepA), Seqs.Filter(tail, keepA), keepB);
      Seqs.FilterAppend(Seqs.Filter(head, keepB), Seqs.Filter(tail, keepB), keepA);
      DeletesCommute(tail, a, b);
      assert head[1..] == [];
      assert tail == products[1..];
    }
  }

  /** The four rows the table starts with. */
  const SampleInventory := [
    Product(1, "Organic Cashews", 1299, "Nuts", 250, "https://images.unsplash.com/photo-1563412580953-7f9e99209336"),
    Product(2, "Tiger Nut Flour", 999, "Flour", 175, "https://images.unsplash.com/photo-1614961233913-a5113a4a34ed"),
    Product(3, "Tiger Nut Milk", 699, "Beverages", 120, "https://images.unsplash.com/photo-1550583724-b2692b85b150"),
    Product(4, "Tiger Nut Dessert", 899, "Dessert", 85, "https://images.unsplash.com/photo-1551024506-0bccd828d307")]

  /** The sample stock levels: three green badges and one yellow. */
  lemma SampleTiers()
    ensures Tier(SampleInventory[0].stock) == Green && Tier(SampleInventory[1].stock) == Green
    ensures Tier(SampleInventory[2].stock) == Green && Tier(SampleInventory[3].stock) == Yellow
  {
  }

  /** The inventory page's table state. */
  class InventoryTable {
    var products: seq<Product>

    constructor ()
      ensures products == SampleInventory
    {
      products := SampleInventory;
    }

    /** `handleDelete`: drop every row with the id. */
    method HandleDelete(id: int)
      modifies this
      ensures products == Deleted(old(products), id)
    {
      products := Deleted(products, id);
    }
  }
}
