# Mosaic Grove storefront core, in Dafny

Mosaic Grove is a small storefront with an admin panel. Most of it is page
markup. This project models the parts that are plain logic over small
in-memory collections, and proves what they guarantee:

- **Cart and wishlist store** (`CartReducer`, `CartProvider`).
  - The reducer is a total function from state and action to state.
  - The provider is a class whose two sequence fields change only through `Dispatch`.
  - A cart line is keyed by product id, variation selection and weight. Adding merges into the line with the same key or appends a new line.
  - The selection is a record whose serialisation follows insertion order. It is modelled as an optional sequence of (axis, option) pairs compared structurally, so `{Type, Size}` and `{Size, Type}` are different keys and an absent selection is not `{}`.
  - Removal and quantity updates act on every line of a product id, whatever its selection or weight.
  - Proved: both store invariants are kept by every action — no two cart lines share a key, and no wishlist id repeats.
- **Order table** (`Orders`).
  - `updateOrderStatus` rewrites the status of the matching orders and checks nothing.
  - The per-status buttons form a workflow (pending → processing or cancelled, processing → shipped or cancelled, shipped → delivered). The model proves its terminal states and that every path has at most three steps.
  - The badge lookup is total.
- **Product joining** (`ProductTypes`, `ProductHelpers`). `extendProduct` joins category, weight and variation rows onto a database product by foreign-key equality, in input order.
- **Product detail page** (`ProductDetail`). Covers:
  - the catalog lookup;
  - the quantity stepper, which never goes below 1;
  - the variation selection, whose keys stay distinct;
  - the add-to-cart guard, which counts selected keys only;
  - the initial weight;
  - the related-products list;
  - the related-product quick add.
- **Customer list** (`Customers`). Covers:
  - the case-insensitive search over name and email;
  - the location cell;
  - the address line, which joins only the non-empty parts;
  - the "No Name" / "No Email" / "Not provided" fallbacks.
- **Inventory table** (`Inventory`). Covers row deletion, and the stock badge: green above 100, yellow above 50, red otherwise.
- **Product card** (`ProductCard`). Covers the heart button, the quick add and the category label.

Modelling conventions:
- Integers are unbounded `int`. Money is held in integer cents and takes part in no property.
- Strings are `seq<char>`. Lower-casing covers ASCII letters only.
- The storefront's products (`CartReducer.Product`) carry integer ids, as in the cart context. Database rows (`ProductTypes`) carry string ids, as in the database types.

Shared helpers:
- `Options`: an option type and the `a || b` fallback for optional strings.
- `Seqs`: `filter`, `findIndex`, the subsequence order, and distinctness by a key.

## Model

| member | source | states |
|---|---|---|
| CartReducer.FindLine | src/contexts/CartContext.tsx:64-68 | -1 exactly when no line has the (id, selection, weight) key; otherwise the first line with that key |
| CartReducer.AddLine | src/contexts/CartContext.tsx:62-83 | with a matching line: same length, that line's quantity grows by the added quantity (its product kept), every other line unchanged; without one: exactly one new line appended at the end |
| CartReducer.RemoveProduct | src/contexts/CartContext.tsx:84-88 | a line survives exactly when its product id differs from the removed id |
| CartReducer.SetQuantity | src/contexts/CartContext.tsx:97-102 | same length, keys and products kept, every line of the id gets the new quantity, other lines unchanged |
| CartReducer.InWishlist | src/contexts/CartContext.tsx:107 | holds exactly when some wishlist entry has the id |
| CartReducer.WishlistAdd | src/contexts/CartContext.tsx:106-115 | unchanged when the id is present, otherwise the product appended |
| CartReducer.WishlistRemove | src/contexts/CartContext.tsx:116-120 | an entry survives exactly when its id differs |
| CartReducer.Reduce | src/contexts/CartContext.tsx:60-124 | cart actions never change the wishlist, wishlist actions never change the cart, CLEAR_CART empties the cart |
| CartReducer.AddLineKeepsUniqueKeys | src/contexts/CartContext.tsx:62-83 | adding keeps "no two lines share a key" |
| CartReducer.AddTwiceSumsQuantities | src/contexts/CartContext.tsx:70-81 | two adds of a new configuration give one appended line holding the sum, earlier lines untouched |
| CartReducer.SelectionOrderMatters | src/contexts/CartContext.tsx:66 | the same pairs in another key order do not merge; a new line is appended |
| CartReducer.AbsentSelectionIsNotEmpty | src/contexts/CartContext.tsx:66 | an absent selection does not merge with `{}` |
| CartReducer.AddNonPositiveBreaksPositivity | src/contexts/CartContext.tsx:63-81 | no sign check: adding a quantity <= 0 yields a non-positive line |
| CartReducer.RemoveProductKeepsOrder | src/contexts/CartContext.tsx:87 | the remaining lines keep their order |
| CartReducer.RemoveAbsentProductIsIdentity | src/contexts/CartContext.tsx:87 | removing an id no line carries changes nothing |
| CartReducer.UpdateToZeroDropsEveryVariation | src/contexts/CartContext.tsx:89-96 | with a Raw and a Roasted line of one product, updating that id to 0 removes both |
| CartReducer.ReduceKeepsUniqueKeys | src/contexts/CartContext.tsx:60-124 | every action keeps "no two lines share a key" |
| CartReducer.ReduceKeepsUniqueWishlist | src/contexts/CartContext.tsx:106-120 | every action keeps the wishlist free of repeated ids |
| CartReducer.ReduceKeepsPositive | src/contexts/CartContext.tsx:89-103 | positive quantities stay positive under every action except an add of a quantity <= 0 |
| CartReducer.AddToWishlistIdempotent | src/contexts/CartContext.tsx:106-115 | after ADD_TO_WISHLIST the id is present, and a second identical add returns the same state |
| CartReducer.RemoveFromWishlistDropsId | src/contexts/CartContext.tsx:116-120 | afterwards no entry has the id, entries with other ids stay, order kept |
| CartReducer.AddThenRemoveWishlist | src/contexts/CartContext.tsx:106-120 | add then remove leaves the id out of the wishlist |
| CartProvider.Store.constructor | src/contexts/CartContext.tsx:53-56 | the store starts empty, with its invariants established |
| CartProvider.Store.Dispatch | src/contexts/CartContext.tsx:127 | the new state is the reducer applied to the old state; invariants kept |
| CartProvider.Store.AddToCart | src/contexts/CartContext.tsx:129-131 | dispatches ADD_TO_CART with quantity 1 and no selection or weight by default; wishlist unchanged |
| CartProvider.Store.RemoveFromCart | src/contexts/CartContext.tsx:133-135 | cart becomes the removal of every line of the id; wishlist unchanged |
| CartProvider.Store.UpdateQuantity | src/contexts/CartContext.tsx:137-139 | quantity <= 0 removes the id's lines, otherwise sets their quantity; wishlist unchanged |
| CartProvider.Store.ClearCart | src/contexts/CartContext.tsx:141-143 | cart empty, wishlist unchanged |
| CartProvider.Store.AddToWishlist | src/contexts/CartContext.tsx:145-147 | wishlist gains the product unless its id is present; cart unchanged |
| CartProvider.Store.RemoveFromWishlist | src/contexts/CartContext.tsx:149-151 | wishlist loses every entry of the id; cart unchanged |
| CartProvider.Store.IsInWishlist | src/contexts/CartContext.tsx:153-155 | true exactly when some wishlist entry has the id |
| Orders.WithStatus | src/pages/admin/Orders.tsx:72-75 | same length and order; orders with the id get the new status and nothing else changes |
| Orders.UnknownOrderUnchanged | src/pages/admin/Orders.tsx:73-75 | an unknown order id leaves the list unchanged |
| Orders.UpdateIdempotent | src/pages/admin/Orders.tsx:73-75 | applying the same update twice equals applying it once |
| Orders.UpdateSkipsWorkflow | src/pages/admin/Orders.tsx:72-80 | no legality check: a pending order can be written as delivered, which no button offers |
| Orders.OfferedMatchesTable | src/pages/admin/Orders.tsx:137-180 | the buttons offer exactly the workflow table's transitions, each once |
| Orders.TerminalStatuses | src/pages/admin/Orders.tsx:137-180 | delivered and cancelled orders are offered no action |
| Orders.PathGainsProgress | src/pages/admin/Orders.tsx:137-180 | along offered actions every step advances the workflow |
| Orders.OfferedPathsAreShort | src/pages/admin/Orders.tsx:137-180 | following offered actions no path returns to pending and none has more than three steps |
| Orders.BadgeFor | src/pages/admin/Orders.tsx:19-25 | every status has an entry in the badge table, so the lookup at line 125 is total |
| Orders.BadgesDistinct | src/pages/admin/Orders.tsx:19-25 | different statuses get different badges |
| Orders.OrderTable.constructor | src/pages/admin/Orders.tsx:29-70 | the table starts with the five sample orders |
| Orders.OrderTable.UpdateOrderStatus | src/pages/admin/Orders.tsx:72-80 | the table becomes the updated list |
| Orders.OrderTable.ActionsFor | src/pages/admin/Orders.tsx:137-180 | the actions shown for a row are exactly the workflow successors of its status |
| ProductHelpers.FindCategory | src/utils/productHelpers.ts:17 | the first category with the id, or none when no category has it |
| ProductHelpers.ExtendProduct | src/utils/productHelpers.ts:7-48 | own columns unchanged; image = image_url; category joined only with a category list and a non-empty category_id; weights, default weight and variations set only when some row belongs to the product, kept otherwise |
| ProductHelpers.ExtendedWeightsAreTheProductsRows | src/utils/productHelpers.ts:21-34 | the joined weights are exactly the product's weight rows, in input order, and the default weight is the first of them |
| ProductHelpers.ExtendedVariationsAreTheProductsRows | src/utils/productHelpers.ts:37-42 | the joined variations are exactly the product's variation rows, in input order |
| ProductHelpers.ExtendWithNothing | src/utils/productHelpers.ts:13-47 | with no related data the result is the input with only image set |
| ProductHelpers.NoCategoryIdKeepsCategory | src/utils/productHelpers.ts:16-18 | an empty or missing category_id keeps the category, whatever list is given |
| ProductDetail.LookupProduct | src/pages/ProductDetail.tsx:93 | the first catalog entry with the id; none (the not-found page) exactly when no entry has it |
| ProductDetail.InitialWeight | src/pages/ProductDetail.tsx:100-102 | the first weight option, present exactly when the product has a non-empty weight list |
| ProductDetail.SetKey | src/pages/ProductDetail.tsx:149-151 | the changed axis reads the new option, every other axis reads as before; an existing axis keeps its position, a new one goes last |
| ProductDetail.SetKeyKeepsDistinctKeys | src/pages/ProductDetail.tsx:149-151 | the selection's keys stay distinct |
| ProductDetail.GuardCountsKeysOnly | src/pages/ProductDetail.tsx:125 | a selection naming the wrong axis passes the guard |
| ProductDetail.RelatedProducts | src/pages/ProductDetail.tsx:372-374 | at most four catalog products, none the current one; the first four others are shown: every other product with fewer than four others ahead of it in the catalog is in the list, and another product is left out only when four are shown |
| ProductDetail.FirstOthersShown | src/pages/ProductDetail.tsx:373-374 | an other product with fewer than four others ahead of it sits within `slice(0, 4)` of the filtered catalog |
| ProductDetail.RelatedProductsInCatalogOrder | src/pages/ProductDetail.tsx:372-374 | the related products keep catalog order |
| ProductDetail.QuickAddNeverMergesWithDetailLine | src/pages/ProductDetail.tsx:399 | a quick add with no selection is appended rather than merged into a line carrying a selection |
| ProductDetail.CatalogFacts | src/pages/ProductDetail.tsx:93-102 | on the page's catalog, id 1 is found, id 5 is not, and the first product starts at 250 g |
| ProductDetail.DetailPage.constructor | src/pages/ProductDetail.tsx:98-102 | quantity 1, empty selection, first weight option |
| ProductDetail.DetailPage.Decrease | src/pages/ProductDetail.tsx:251 | one less, but never below 1 |
| ProductDetail.DetailPage.Increase | src/pages/ProductDetail.tsx:261 | one more |
| ProductDetail.DetailPage.SelectWeight | src/pages/ProductDetail.tsx:210 | the chosen weight becomes the selection |
| ProductDetail.DetailPage.ChangeVariation | src/pages/ProductDetail.tsx:149-151 | one axis takes the chosen option, the keys stay distinct |
| ProductDetail.DetailPage.AddToCart | src/pages/ProductDetail.tsx:124-139 | refused with the store unchanged exactly when fewer keys than axes are selected; otherwise ADD_TO_CART with the current quantity, selection and weight |
| ProductDetail.DetailPage.AddToWishlist | src/pages/ProductDetail.tsx:141-147 | dispatches ADD_TO_WISHLIST of the shown product |
| ProductDetail.DetailPage.AddRelatedToCart | src/pages/ProductDetail.tsx:399 | ADD_TO_CART of the related product with quantity 1, no selection, no weight |
| Customers.Lower | src/pages/admin/Customers.tsx:80-81 | same length, every character lower-cased |
| Customers.LowerIdempotent | src/pages/admin/Customers.tsx:80-81 | lower-casing twice is lower-casing once |
| Customers.Includes | src/pages/admin/Customers.tsx:80-81 | true exactly when the needle occurs at some position of the text |
| Customers.FilteredCustomers | src/pages/admin/Customers.tsx:79-82 | a customer is kept exactly when the lower-cased query occurs in its lower-cased name or email, a missing field counting as "" |
| Customers.FilteredInOrder | src/pages/admin/Customers.tsx:79-82 | the filtered list is an order-preserving subsequence |
| Customers.EmptyQueryKeepsAll | src/pages/admin/Customers.tsx:79-82 | an empty query keeps every customer, in order |
| Customers.SearchIgnoresQueryCase | src/pages/admin/Customers.tsx:79-82 | a query and its lower-cased form select the same customers |
| Customers.NoNameNoEmailMatchesOnlyEmpty | src/pages/admin/Customers.tsx:79-82 | a customer without name and email matches only the empty query |
| Customers.LocationCell | src/pages/admin/Customers.tsx:153-155 | "city, state" when both are non-empty, otherwise "Not provided" |
| Customers.PresentParts | src/pages/admin/Customers.tsx:231-235 | every kept text is non-empty and every non-empty part is kept |
| Customers.PresentPartsAreTheTruthyParts | src/pages/admin/Customers.tsx:231-235 | position by position, the kept texts are the values of the truthy parts in input order, as `filter(Boolean)` keeps them |
| Customers.PresentPartsOfThree | src/pages/admin/Customers.tsx:231-235 | for city, state and zip code, the kept texts are each present part in that order |
| Customers.AddressLineBlank | src/pages/admin/Customers.tsx:231-235 | the address line is blank exactly when city, state and zip code are all empty or missing |
| Customers.AddressLineExamples | src/pages/admin/Customers.tsx:231-235 | parts are joined with ", " in city, state, zip order, skipping empty ones |
| Customers.CellsNeverBlank | src/pages/admin/Customers.tsx:149-155 | no table cell is blank; a non-empty field is shown as is; a missing email reads "No Email" in the table and "Not provided" in the dialog (line 211) |
| Seqs.FilterCounts | src/contexts/CartContext.tsx:87 | a filter keeps every occurrence of a kept element and no occurrence of a dropped one, so removal, deletion, search and joining never lose or duplicate a line |
| Options.OrElse | src/pages/admin/Customers.tsx:149-151 | the field when non-empty, the fallback otherwise; blank only if both are |
| Inventory.Tier | src/pages/admin/Inventory.tsx:115-121 | green exactly above 100, yellow exactly for 51 to 100, red exactly at 50 or below |
| Inventory.TierMonotone | src/pages/admin/Inventory.tsx:115-121 | more stock never gives a worse badge |
| Inventory.Deleted | src/pages/admin/Inventory.tsx:57 | a row survives exactly when its id differs, with its fields unaltered |
| Inventory.DeleteKeepsOrder | src/pages/admin/Inventory.tsx:57 | the remaining rows keep their order |
| Inventory.DeleteAbsentUnchanged | src/pages/admin/Inventory.tsx:57 | deleting an absent id changes nothing |
| Inventory.DeleteIdempotent | src/pages/admin/Inventory.tsx:57 | deleting twice equals deleting once |
| Inventory.DeletesCommute | src/pages/admin/Inventory.tsx:57 | two deletions give the same list in either order |
| Inventory.SampleTiers | src/pages/admin/Inventory.tsx:21-54 | the seed rows show three green badges and one yellow |
| Inventory.InventoryTable.constructor | src/pages/admin/Inventory.tsx:21-54 | the table starts with the four seed rows |
| Inventory.InventoryTable.HandleDelete | src/pages/admin/Inventory.tsx:56-62 | the table becomes the list without the id's rows |
| ProductCard.Toggled | src/components/ProductCard.tsx:34-49 | membership of the product's id flips, other entries stay, the cart is unchanged |
| ProductCard.ToggleTwiceRestores | src/components/ProductCard.tsx:34-49 | from outside the wishlist, two toggles restore the whole state |
| ProductCard.ToggleTwiceFromInside | src/components/ProductCard.tsx:34-49 | from inside, two toggles keep the product but move it to the end |
| ProductCard.HandleToggleWishlist | src/components/ProductCard.tsx:34-49 | removes the product when its id is in the wishlist, adds it otherwise |
| ProductCard.HandleAddToCart | src/components/ProductCard.tsx:25-32 | ADD_TO_CART with quantity 1, no selection, no weight |
| ProductCard.CategoryName | src/components/ProductCard.tsx:55-56 | the given category name if non-empty, else the joined category's name, else "Uncategorized" |
| ProductCard.CategoryNameBlank | src/components/ProductCard.tsx:55-56 | the label is blank only when the joined category's own name is blank |

## Left out

- Network and storage. The Supabase fetch of customers, the login and profile pages, and the authentication contexts are I/O. The customer list is a parameter of the filter.
- Toasts, navigation, routing, rendering and animation: these are side effects of the page, not state of the model.
- React scheduling. `useReducer` dispatches and `setState` calls are applied at once, in call order. Stale-closure effects are not modelled.
- Floating-point money: prices and totals are integer cents. `increasedPrice` on the detail page, `formatPrice` and `toFixed` are not modelled.
- Dates: `formatDate` depends on the locale and is not modelled.
- `isInCart`, and the string/number id comparison of the `useCart` hook. They rely on an `isSameProduct` helper that is not part of this model. The store compares ids by plain equality, as the cart context does.
- Lower-casing covers ASCII letters only. Unicode case mapping is not modelled.
- JSON serialisation of a selection is modelled as the sequence of its entries in insertion order. JavaScript places integer-like keys first; that ordering is not modelled.
- The detail page's catalog keeps only the first sentence of each description.
- The inventory seed keeps the image URLs without query strings.
- Stock levels are integers, so the yellow tier reads 51 to 100. A fractional stock value is not modelled.
- Weights (the options of a product, the selected weight, and the weight rows of the database) are integers; the source's `number` also admits fractions, which are not modelled.
- ProductDetail.LookupProduct: takes the requested id as an integer. The page converts the route segment with `Number`, and a non-numeric segment becomes NaN, which matches no product and shows the not-found page; that conversion is not modelled.
- The product card takes a storefront product with an integer id, the type the cart store holds. The database row type it is declared with uses string ids; the model does not mix the two.
- A variation selection is a sequence of pairs, so a selection could repeat a key. The detail page keeps its selection's keys distinct. The reducer compares selections as given.
- The reducer and the store follow the code where it differs from the intended behaviour:
  - removal and quantity updates act on every line of a product id, whatever its variation or weight;
  - `updateOrderStatus` accepts any status.
