# Point-of-sale core, modelled in Dafny

This project models the in-memory logic of a small point-of-sale web application: a
product catalogue with stock, a cart that the cashier fills from it, sales recorded
from the cart, product maintenance, a dual-currency (CUP/USD) price resolver, and two
dashboards that aggregate sales and stock.

The repository holds two generations of the application, and each is modelled on its
own:

- The **local-storage generation** covers `App.tsx`, `components/POS.tsx`,
  `components/Products.tsx` and `components/Dashboard.tsx`. It is modelled in the
  modules `RootTypes`, `RootPos`, `RootApp`, `RootProducts` and `RootDashboard`.
  - A sale keeps the cart lines verbatim.
  - Stock is debited in place on a copy of the product list.
- The **Supabase generation** covers `src/App.tsx`, `src/components/POS.tsx`,
  `src/components/Products.tsx`, `src/components/Dashboard.tsx` and `src/lib/price.ts`.
  It is modelled in the modules `SrcTypes`, `SrcPos`, `SrcApp`, `SrcProducts`,
  `SrcDashboard` and `Price`.
  - A sale is inserted into the database, then one stock-decrement request is issued
    per cart line.
  - Product changes come back through a realtime upsert.

`Seqs` and `Text` hold the array and string operations both generations use:
`filter`, a left `reduce` to a sum, `findIndex`, `slice`, ASCII `toLowerCase` and
`toUpperCase`, and `includes`.

Each source file keeps its own form:

- Pure transforms (`map`, `filter`, `reduce`, `find`) are functions with named results.
- Views whose state variables change are classes, and each method states the whole
  new state.
  - The two point-of-sale views keep a cart invariant as `Valid()`.
  - The product view and both application states keep unique product ids as `Valid()`.
  - The creation form has no invariant beyond its ten fields.
- The `forEach` stock loop of `App.tsx` is a method over an `array`, proved equal to
  a reference function.
- The dashboard's accumulator dictionary is a loop method over a `map`, with its key
  order kept in a sequence. It is proved against reference functions.

Money in carts, sales and dashboards is whole cents (`int`). The price resolvers work on
`real`, and their loosely typed inputs (`null`, `undefined`, `NaN`) are a
`NumericInput` datatype.

Where the code and the written design disagree, the model follows the code:

- `src/components/POS.tsx` ignores a quantity above the stock, and `components/POS.tsx`
  lowers it to the stock. Neither clamps to `[1, stock]`.
- `components/POS.tsx` empties the cart right after handing it to `onSale`, whatever
  happens to the sale.
- The sales chart shows the first seven days met in the sales list, in that order. It
  does not show the latest seven days in date order.
- No price is rounded.
- Stock debited by `App.tsx` has no lower bound.
  - `RootApp.NoLowerBoundCheck` exhibits a stock going to -1.
  - `RootApp.SaleKeepsStockNonnegative` shows that the cart invariant kept by
    `components/POS.tsx` rules this out.
- The local conversion in `src/components/Products.tsx` matches only the exact code
  "USD". The shared resolver in `src/lib/price.ts` upper-cases the code first.
  `SrcProducts.ResolversAgreeIff` characterises exactly when the two agree.

## Model

| member | source | states |
|---|---|---|
| SrcTypes.IndexOfId | src/App.tsx:72 | `findIndex` by id: the first index holding the id, or -1 exactly when no product has it |
| SrcTypes.Lookup | src/components/POS.tsx:33 | `find` by id: none exactly when the id is absent, otherwise the product at the first index with that id |
| SrcTypes.LookupListed | src/components/POS.tsx:33 | with unique ids, looking up a listed product's id finds that very product |
| SrcPos.AddToCart | src/components/POS.tsx:16-29 | stock ≤ 0 leaves the cart unchanged; a product not in the cart is appended with quantity 1 at the end; otherwise every line of the product gains 1 only while below the stock, and other lines are untouched |
| SrcPos.SetQuantity | src/components/POS.tsx:39-41 | same length; the product's lines get the new quantity and keep their product; every other line is unchanged |
| SrcPos.RemoveLines | src/components/POS.tsx:37 | an order-preserving subsequence holding exactly the lines with other ids |
| SrcPos.UpdateQuantity | src/components/POS.tsx:32-43 | unknown product: unchanged; n ≤ 0: the product's lines are removed; 1 ≤ n ≤ stock: set; n > stock: unchanged |
| SrcPos.FilteredProducts | src/components/POS.tsx:45-47 | an order-preserving subsequence of the products holding exactly those whose lower-cased name contains the lower-cased term, each as many times as it is listed |
| SrcPos.EmptySearchListsAll | src/components/POS.tsx:45-47 | an empty search term lists every product |
| SrcPos.AddExistingUpdatesOneLine | src/components/POS.tsx:19-26 | with distinct lines, adding a product already in the cart changes only its line, by +1 below the stock, or nothing at the stock |
| SrcPos.TotalAfterAdd | src/components/POS.tsx:49-51 | for a valid cart, adding a listed product raises the cart total by its price when the cart changes and by nothing otherwise |
| SrcPos.AddKeepsInvariant | src/components/POS.tsx:16-29 | adding a listed product keeps line ids distinct, each line the listed product, and each quantity in [1, stock] |
| SrcPos.UpdateKeepsInvariant | src/components/POS.tsx:32-43 | any quantity change keeps the cart invariant |
| SrcPos.OpsKeepInvariant | src/components/POS.tsx:16-43 | any sequence of adds and quantity changes, starting from a valid cart such as the empty one, ends in a valid cart |
| SrcPos.CartTotal | src/components/POS.tsx:49-51 | the `reduce` total: 0 for an empty cart, and non-negative when every price and quantity is |
| SrcPos.ErrorText | src/components/POS.tsx:62 | the shown error is never empty and is the error's own message when it has one |
| SrcPos.PosView.constructor | src/components/POS.tsx:11-14 | empty cart and search, not processing, no error |
| SrcPos.PosView.Add | src/components/POS.tsx:16-29 | the cart becomes `AddToCart` of the old cart; the invariant is kept for listed products |
| SrcPos.PosView.ChangeQuantity | src/components/POS.tsx:32-43 | the cart becomes `UpdateQuantity` of the old cart; the invariant is kept |
| SrcPos.PosView.Search | src/components/POS.tsx:78 | the search box sets the search term |
| SrcPos.PosView.StartSale | src/components/POS.tsx:53-58 | an empty cart or a sale in progress changes nothing and submits nothing; otherwise the sale starts (`processing`), the error is cleared and the current cart is submitted once |
| SrcPos.PosView.FinishSale | src/components/POS.tsx:58-65 | once the sale settles, success empties the cart as it is by then, failure keeps it and sets the error to `ErrorText`, and `processing` ends false either way; the cart invariant is kept |
| SrcPos.CheckoutWithEdit | src/components/POS.tsx:53-66 | a product added while the sale is pending is not in the submitted cart, and a successful sale discards it while a failed one keeps it |
| SrcApp.Upsert | src/App.tsx:71-79 | a known id replaces only the first matching index, keeping the length and every other entry; an unseen id is appended at the end |
| SrcApp.UpsertFinds | src/App.tsx:72-78 | after the upsert, the record's id looks up to the record itself |
| SrcApp.UpsertKeepsOthers | src/App.tsx:72-78 | the upsert does not change what any other id looks up to |
| SrcApp.UpsertKeepsUniqueIds | src/App.tsx:72-78 | unique ids stay unique |
| SrcApp.UpsertIdempotent | src/App.tsx:71-79 | receiving the same change twice equals receiving it once |
| SrcApp.Items | src/App.tsx:103 | the payload items are the cart lines projected to id, name, price and quantity, in cart order |
| SrcApp.PayloadTotalMatchesItems | src/App.tsx:99-104 | the payload total (Σ price×quantity over the cart) equals Σ price×quantity over the projected items |
| SrcApp.Payload | src/App.tsx:99-104 | the inserted body carries the sale id, one item per cart line, and a total equal to Σ price×quantity over its own items |
| SrcApp.Decrements | src/App.tsx:118-123 | one decrement request per cart line, with that line's id and quantity, in cart order |
| SrcApp.App.constructor | src/App.tsx:13-18 | the given client flag, products and sales; unique ids make the state valid |
| SrcApp.App.RealtimeUpsert | src/App.tsx:70-79 | the copied list written at the found index or extended equals `Upsert` of the old list; sales are unchanged; ids stay unique |
| SrcApp.App.HandleSale | src/App.tsx:96-131 | no client: fails before any write. Insert error: fails with only the insert sent and sales unchanged. Success: sends the insert, then one decrement per line, then prepends the returned row if any. Products are never touched, so ids stay unique |
| SrcProducts.LocalPriceToCup | src/components/Products.tsx:49-52 | a falsy amount gives 0; exactly "USD" multiplies by the rate; any other code, lower-case "usd" included, returns the amount |
| SrcProducts.SaleCurrency | src/components/Products.tsx:171 | the stored currency when present and non-empty, otherwise "CUP"; never empty |
| SrcProducts.SalePriceCup | src/components/Products.tsx:170-172 | a non-zero `sale_price_amount` is converted with its currency, defaulting to CUP; otherwise the legacy `sale_price`, or 0 when that is missing |
| SrcProducts.MissingCurrencyIsCup | src/components/Products.tsx:170-171 | a product without a currency shows its amount unconverted |
| SrcProducts.ResolversAgreeIff | src/components/Products.tsx:49-52 | the local and the shared conversion agree on every amount and rate exactly when the code is "USD" or does not upper-case to "USD" |
| SrcProducts.LowerCaseUsdDiffers | src/components/Products.tsx:51 | for "usd", amount 1 and rate 2, the local conversion gives 1 and the shared one gives 2 |
| SrcProducts.InitialForm | src/components/Products.tsx:12-23 | the form's ten fields and their starting values |
| SrcProducts.CreateProductView.constructor | src/components/Products.tsx:12-23 | the form starts at its initial values |
| SrcProducts.CreateProductView.HandleChange | src/components/Products.tsx:25-30 | the named field takes the input's text and the other fields are kept |
| SrcProducts.CreateProductView.HandleSubmit | src/components/Products.tsx:32-47 | the current form is sent; it is reset to the initial values only when creation resolves |
| Price.ToNumber | src/lib/price.ts:3 | a missing or non-numeric amount is 0; a number is itself |
| Price.CurrencyCode | src/lib/price.ts:4 | a missing currency is "CUP"; otherwise the upper-cased code |
| Price.PriceToCup | src/lib/price.ts:2-9 | USD multiplies the amount by the rate; any other code returns the amount |
| Price.CupUnchanged | src/lib/price.ts:4-5 | CUP, or no currency at all, returns the amount unchanged |
| Price.UsdMultiplies | src/lib/price.ts:6 | USD gives amount × rate, and 0 when the rate is missing or not a number |
| Price.CaseInsensitive | src/lib/price.ts:4 | the currency code is matched ignoring case |
| Price.NonNegative | src/lib/price.ts:2-9 | a non-negative amount and rate give a non-negative price |
| SrcDashboard.TotalRevenue | src/components/Dashboard.tsx:28 | the `reduce` of sale totals: 0 without sales, non-negative when every total is |
| SrcDashboard.RevenueAfterInsert | src/components/Dashboard.tsx:28 | a sale put in front adds its total to the revenue |
| SrcDashboard.LowStockCount | src/components/Dashboard.tsx:29 | counts the products with stock ≤ 10 and never exceeds the product count |
| SrcDashboard.LowStockExtremes | src/components/Dashboard.tsx:29 | the count is 0 exactly when no stock is ≤ 10, and the whole list exactly when every stock is |
| SrcDashboard.RecentSales | src/components/Dashboard.tsx:65 | the first min(5, \|sales\|) sales, a prefix in list order |
| SrcDashboard.RecentAfterInsert | src/components/Dashboard.tsx:65 | a new sale in front heads the recent sales, followed by the first four older ones |
| RootTypes.IndexOfId | App.tsx:33 | `findIndex` by id: the first index holding the id, or -1 exactly when no product has it |
| RootTypes.Lookup | components/POS.tsx:42 | `find` by id: none exactly when the id is absent, otherwise the product at the first index with that id |
| RootTypes.LookupListed | components/POS.tsx:42 | with unique ids, looking up a listed product's id finds that very product |
| RootPos.LineIndex | components/POS.tsx:26 | the first cart line with the id, or -1 exactly when there is none |
| RootPos.SetQuantity | components/POS.tsx:54-56 | same length; the product's lines get the new quantity; every other line is unchanged |
| RootPos.AddToCart | components/POS.tsx:19-39 | stock ≤ 0 leaves the cart unchanged; a product not in the cart is appended with quantity 1; otherwise its first line decides, giving +1 to its lines below the stock and no change at the stock |
| RootPos.AddNotice | components/POS.tsx:19-39 | "out of stock" exactly when stock ≤ 0; "no more stock" exactly when the product is in stock but the cart is unchanged; no alert exactly when the cart changed |
| RootPos.RemoveFromCart | components/POS.tsx:60-62 | an order-preserving subsequence holding exactly the lines with other ids |
| RootPos.Clamp | components/POS.tsx:45-48 | the requested quantity lowered to the stock: at most both, and equal to one of them |
| RootPos.UpdateQuantity | components/POS.tsx:41-58 | unknown product: unchanged; otherwise the quantity is first clamped to the stock, then ≤ 0 removes the product's lines and anything else is set |
| RootPos.UpdateClamps | components/POS.tsx:45-53 | a listed product with stock ≤ 0 loses its lines whatever is asked; a request above a positive stock sets the stock |
| RootPos.FilteredProducts | components/POS.tsx:68-74 | an order-preserving subsequence whose names all contain the term ignoring case, with the category matching unless the filter is "all"; every product passing both is kept, as many times as it is listed |
| RootPos.EmptySearchListsAll | components/POS.tsx:68-74 | an empty term with every category lists every product |
| RootPos.CartTotal | components/POS.tsx:64-66 | the `reduce` total: 0 for an empty cart, and non-negative when every price and quantity is |
| RootPos.AddKeepsInvariant | components/POS.tsx:19-39 | adding a listed product keeps line ids distinct, each line the listed product, and each quantity in [1, stock] |
| RootPos.UpdateKeepsInvariant | components/POS.tsx:41-58 | any quantity change keeps the cart invariant |
| RootPos.RemoveKeepsInvariant | components/POS.tsx:60-62 | removing a product's lines keeps the cart invariant |
| RootPos.OpsKeepInvariant | components/POS.tsx:19-62 | any sequence of adds, quantity changes and removals from a valid cart ends in a valid cart |
| RootPos.PosView.constructor | components/POS.tsx:15-17 | empty cart and search, the "all" category filter |
| RootPos.PosView.Add | components/POS.tsx:19-39 | the cart becomes `AddToCart` of the old cart; the alert is `AddNotice`; the invariant is kept for listed products |
| RootPos.PosView.ChangeQuantity | components/POS.tsx:41-58 | the cart becomes `UpdateQuantity` of the old cart; the clamp alert is raised exactly when a listed product's stock is exceeded; the invariant is kept |
| RootPos.PosView.Search | components/POS.tsx:96 | the search box sets the search term |
| RootPos.PosView.SelectCategory | components/POS.tsx:101 | the dropdown sets the category filter |
| RootPos.PosView.Remove | components/POS.tsx:60-62 | the cart becomes `RemoveFromCart` of the old cart; the invariant is kept |
| RootPos.PosView.Checkout | components/POS.tsx:76-84 | an empty cart only raises the empty-cart alert; otherwise the cart is submitted once and then emptied unconditionally |
| RootApp.NewSale | App.tsx:18-26 | the sale holds the given id and date and the cart lines verbatim, and its total is Σ price×quantity |
| RootApp.DebitOne | App.tsx:32-36 | one `forEach` step: the list keeps its length; the first product with the line's id loses the line's quantity and every other entry is unchanged; no matching product changes nothing |
| RootApp.DebitAll | App.tsx:31-38 | the whole `forEach`: the list keeps its length and the id at every index |
| RootApp.IndexOfIdSameIds | App.tsx:33 | `findIndex` by id depends only on the ids in the list |
| RootApp.DebitAllEffect | App.tsx:30-39 | the list keeps its length, order and every field but stock. The first product with an id loses the summed quantity of all cart lines with that id. Every other product keeps its stock. Lines with no matching product are ignored |
| RootApp.QuantityForDistinct | App.tsx:32-36 | with one line per product, the units debited for an id are those of its line, or none |
| RootApp.NoLowerBoundCheck | App.tsx:35 | with stock 1 and a line of quantity 2, the stock becomes -1 |
| RootApp.SaleKeepsStockNonnegative | App.tsx:32-36 | a cart satisfying the point-of-sale invariant never takes a non-negative stock below zero |
| RootApp.DebitInPlace | App.tsx:31-38 | the in-place `forEach` over the array leaves it equal to the reference `DebitAll` of its old contents |
| RootApp.Store.constructor | App.tsx:13-14 | the given products and sales; unique ids make the state valid |
| RootApp.Store.HandleSale | App.tsx:16-40 | the new sale is put in front of the earlier ones, which keep their order, the products become the debited copy, and ids stay unique |
| RootProducts.WithId | components/Products.tsx:52 | the product built from the form's fields and an id has exactly that id and those fields |
| RootProducts.InitialForm | components/Products.tsx:20-27 | each field of the edited product with the `\|\|` fallback, so an empty image URL becomes the default picture; a new product starts empty, in the food category, with the default picture |
| RootProducts.Submit | components/Products.tsx:49-56 | editing submits the form's fields under the edited product's id; adding submits the bare fields |
| RootProducts.EditRoundTrip | components/Products.tsx:20-27 | an untouched edit form gives back the edited product exactly when its image URL is non-empty |
| RootProducts.ReplaceById | components/Products.tsx:105 | same length and order; every product with the id becomes the submitted one, and the others are unchanged |
| RootProducts.ReplaceAbsent | components/Products.tsx:105 | editing with an id not in the list leaves the list unchanged |
| RootProducts.ReplaceFinds | components/Products.tsx:105 | after editing a listed product, its id looks up to the new record and every other id to its old one |
| RootProducts.ReplaceKeepsUniqueIds | components/Products.tsx:105 | editing keeps ids unique |
| RootProducts.PrependNew | components/Products.tsx:106-111 | the new product, carrying the fields and the fresh id, comes first; the old list follows unchanged; the length grows by one |
| RootProducts.PrependKeepsUniqueIds | components/Products.tsx:106-111 | adding under an unused id keeps ids unique |
| RootProducts.DeleteById | components/Products.tsx:118 | an order-preserving subsequence holding exactly the products with other ids; the id no longer looks up |
| RootProducts.DeleteKeepsUniqueIds | components/Products.tsx:118 | deleting keeps ids unique |
| RootProducts.DeleteKeepsOthers | components/Products.tsx:118 | deleting an id does not change what any other id looks up to |
| RootProducts.DeleteAfterAdd | components/Products.tsx:107-118 | deleting a product just added under a fresh id gives the old list back |
| RootProducts.ProductsView.constructor | components/Products.tsx:90-91 | modal closed, nothing being edited; unique ids make the state valid |
| RootProducts.ProductsView.OpenModal | components/Products.tsx:93-96 | the modal opens on the given product, or on a new one |
| RootProducts.ProductsView.CloseModal | components/Products.tsx:98-101 | the modal closes and the edited product is cleared |
| RootProducts.ProductsView.SaveProduct | components/Products.tsx:103-114 | an edit replaces by id and an add prepends; then the modal is closed and the edited product cleared; ids stay unique when the new id is unused |
| RootProducts.ProductsView.DeleteProduct | components/Products.tsx:116-120 | a confirmed delete removes the id's products; a declined one changes nothing; ids stay unique |
| RootDashboard.TotalRevenue | components/Dashboard.tsx:25 | the `reduce` of sale totals: 0 without sales, non-negative when every total is |
| RootDashboard.ProductsSold | components/Dashboard.tsx:27 | the item quantities of every sale added up: 0 without sales, non-negative when every quantity is |
| RootDashboard.TotalInventory | components/Dashboard.tsx:28 | the stocks added up: 0 without products, non-negative when every stock is |
| RootDashboard.RevenueAfterSale | components/Dashboard.tsx:25-26 | recording a sale raises the revenue by the cart total and the sales count by one |
| RootDashboard.DebitOneInventory | components/Dashboard.tsx:28 | one line naming a listed product takes its quantity out of the total inventory |
| RootDashboard.InventoryAfterDebit | components/Dashboard.tsx:28 | when every line names a listed product, the stock update lowers the inventory by the sum of the line quantities |
| RootDashboard.SaleConservesUnits | components/Dashboard.tsx:27-28 | with a valid cart, inventory plus units sold is the same before and after a sale |
| RootDashboard.KeysInOrder | components/Dashboard.tsx:37 | the dictionary's keys: pairwise distinct, including every element's key, and holding only keys of elements |
| RootDashboard.KeyTotalAbsent | components/Dashboard.tsx:33 | a key never met accumulates nothing |
| RootDashboard.KeySumsStep | components/Dashboard.tsx:31-35 | one more element adds its value to the sum over a distinct key list exactly when its key is in it |
| RootDashboard.GroupedSumsToWhole | components/Dashboard.tsx:31-35 | the accumulated values over all keys add up to the sum of all values |
| RootDashboard.GroupTotals | components/Dashboard.tsx:31-35 | the in-place fold gives the keys in insertion order, a dictionary over exactly those keys, and each key's accumulated total |
| RootDashboard.DayTotalsSumToRevenue | components/Dashboard.tsx:25-35 | the per-day revenues add up to the total revenue |
| RootDashboard.SalesChart | components/Dashboard.tsx:30-42 | at most seven bars: the first seven distinct days met, in first-seen order, each with that day's revenue |
| RootDashboard.FlattenMembers | components/Dashboard.tsx:45 | the flattened items are exactly the items of the sales: each item of each sale is in it, and each of its items comes from a sale |
| RootDashboard.SoldIsFlattenedQuantity | components/Dashboard.tsx:27 | the units sold are the summed quantities of the flattened sale items |
| RootDashboard.NameTotalsSumToSold | components/Dashboard.tsx:44-49 | the per-name totals add up to the units sold |
| RootDashboard.Insert | components/Dashboard.tsx:52 | insertion adds exactly the one entry (multiset) |
| RootDashboard.InsertSorted | components/Dashboard.tsx:52 | insertion keeps a non-increasing list non-increasing |
| RootDashboard.SortDesc | components/Dashboard.tsx:51-52 | the sort is a permutation and non-increasing by quantity |
| RootDashboard.InsertStable | components/Dashboard.tsx:52 | an inserted entry goes in front of the entries of equal quantity |
| RootDashboard.SortStable | components/Dashboard.tsx:52 | entries of equal quantity keep their first-seen order |
| RootDashboard.TakeSortedIsTop | components/Dashboard.tsx:53 | the first n of a sorted list are at least as large as every entry left out |
| RootDashboard.SortKeepsNamesDistinct | components/Dashboard.tsx:51-52 | sorting entries with distinct names keeps them distinct |
| RootDashboard.NameEntries | components/Dashboard.tsx:51 | the dictionary's entries in key order, each name with its accumulated quantity |
| RootDashboard.TopFromEntries | components/Dashboard.tsx:51-53 | the top five are min(5, n) entries, non-increasing, drawn from the entries, and no larger than none left out |
| RootDashboard.TopEntriesAreTotals | components/Dashboard.tsx:44-53 | each listed entry is a sold name with the sum of its quantities, no name appears twice, and there are min(5, names) entries |
| RootDashboard.TopEntriesAreTop | components/Dashboard.tsx:44-53 | no name left out sold more than a listed one |
| RootDashboard.TopProducts | components/Dashboard.tsx:44-53 | the best-seller list is the first five of the stable sort of the per-name entries in first-seen order: at most five entries, non-increasing, each a sold name with its total, distinct names, and nothing left out sold more |
| RootDashboard.TopTiesKeepFirstSeenOrder | components/Dashboard.tsx:51-53 | among equal quantities the best-seller list keeps first-seen order: its entries of each quantity are the first ones of that quantity among the per-name totals |

## Left out

- Both `Reports.tsx`, `Sidebar`, `AppShell` and the `ui/` components render only. The JSX of every modelled view, `toFixed`, `toLocaleString` and the date formatting are rendering too.
- `vite.config.ts` and the `@` alias are build configuration. The alias means `src/App.tsx` renders the root `components/`. The model keeps each view with the records of its own generation and does not model that cross-wiring.
- The Supabase client, `fetchData` and its ordering of both tables, and the realtime subscription lifecycle with its channel-error banner are external I/O. The `decrement_product_stock` body runs in the database. The database's answers are parameters (`InsertResponse`), and each write is an emitted `Request`.
- `netlify/functions/*`, `services/geminiService.ts` (the AI description in `ProductForm.handleGenerateDescription`) and `src/components/AdminRatePanel.tsx` are calls to services outside the application.
- `constants.ts` seed data is random values.
- Ids from `Date.now()` and `Math.random()`, the clock behind sale dates, and `window.confirm` are inputs. The `alert` messages are the `Notice` values.
- Floating point is not modelled: the IEEE rounding of price × quantity, `parseFloat` in `ProductForm.handleChange`, and `Number(...)` on numeric strings. Cart and sale money is exact `int` cents. Prices in the resolvers are exact `real`.
- `ProductForm.handleChange` is not modelled: it only writes parsed input into the form.
- The day key of a sale (`new Date(date).toLocaleDateString()`) is the parameter `dayOf`.
- JavaScript object-key ordering is not modelled. Integer-like keys are enumerated before the others, and inherited names such as `constructor` are special cases. The model takes insertion order for every key.
- The Unicode case mapping of `toLowerCase` and `toUpperCase` is not modelled: case mapping covers the ASCII letters only.
- `types.ts` declares `Sale.locationId`, but `App.tsx` never sets it, so the model's `Sale` has no location. The root `Product` carries the `stock` field the root components read and write, although `types.ts` puts it on `ProductWithStock`.
- SrcApp.Upsert: does not model delete events. The handler subscribes to every kind of change on the products table and reads `payload.new` as a product whatever the kind. For a delete that record carries no fields, so the handler appends a record without an id and the deleted product stays listed. The model's change is always a full product record. `SrcApp.App.RealtimeUpsert` has the same gap.
- RootApp.Store.HandleSale: does not model aliasing. `App.tsx` copies only the array, so the `-=` also changes the product objects that the previous state still holds. The model's product records are values.
- React's asynchronous batching of state updates is not modelled. Neither are `StrictMode` double invocation or stock changes that arrive while a cart is open. The cart invariant is stated for a fixed product list.
- `totalSalesCount`, `totalProducts` and `totalSales` are the list lengths `|sales|` and `|products|`. No member wraps them.
