# TechShop core, modelled in Dafny

TechShop is an Android storefront for phones and laptops. It is written in
Kotlin with Jetpack Compose and backed by Firebase. This project models the
logic that the shop's screens and helpers run, and proves properties of it:

- **Local cart** (`ManagmentCart`): an item list stored under `"CartList"`
  in a device-local key-value store. Lines are identified by title. The
  operations are upsert, increment, decrement-or-remove, total fee and clear.
- **Cart screen** (`CartActivity`): the 2% tax rounded to the hundredth, the
  grand total with 25 000 đ delivery, the +/- wiring and checkout.
- **Favourites cache** (`FavoriteManager`): auth, snapshot and cancellation
  events, guarded remote writes to `favorites/{uid}/{id}`, and membership
  by id.
- **`ItemsModel` Parcel**: a field-ordered write and read, and their round
  trip.
- **Product list filters** (`ListItemsActivity`):
  - filtering by price range and by brand, RAM and storage sets;
  - sorting by price;
  - the post-processing of the description extractors;
  - `capitalize` and chip removal.
- **Search** (`SearchResultsActivity`):
  - keyword tokenisation and whole-word versus substring scoring;
  - ranking by score;
  - the price and rating sort chosen in the filter dialog.
- **Checkout** (`PaymentActivity`):
  - recipient field validation and payment-method dispatch;
  - `processPayment`, which writes an order under a freshly pushed key and
    empties the cart only when the write succeeds.
- **Admin product form** (`AddEditProductActivity`):
  - the first-failure-wins Save chain;
  - the record it builds and the key `saveProduct` stores it under.
- **Change-password dialog** (`ProfileActivity`): phone normalisation and
  the three-step dialog.

The model's conventions:

- Money and scores are integers:
  - prices are whole đồng;
  - cart-screen money is counted in hundredths of a đồng;
  - search scores are counted in tenths (3 → 30, 0.5 → 5, 2 → 20, 0.3 → 3).
- An upper price bound of `Double.MAX_VALUE` is "no upper bound".
- Clock readings, the signed-in user and keys pushed by the database are
  parameters of the events that need them.
- The database's callbacks are separate events, delivered one at a time.
- Screens whose state the source updates in place are classes whose methods
  are those events. Each method is proved against a specification function,
  and lemmas about that function state what the source promises.

Files, one module each:

- `wrappers.dfy`: `Option`.
- `items_model.dfy`: the record and its Parcel.
- `text.dfy`: the Kotlin string operations used, and `toIntOrNull`.
- `seq_util.dfy`: filter, stable insertion sort by key, subsequences.
- `filter_models.dfy`: `SortOption` and `FilterOptions`.
- `cart.dfy`, `cart_screen.dfy`, `favorites.dfy`, `list_filters.dfy`,
  `search.dfy`, `payment.dfy`, `product_form.dfy`, `profile.dfy`: one module
  per source file.

## Model

All paths are relative to `app/src/main/java/com/example/techshop/`, which
is written out in full in each cell.

| member | source | states |
|---|---|---|
| ItemsModel.NewItem | app/src/main/java/com/example/techshop/Model/ItemsModel.kt:6-17 | The default record: empty strings and lists, price, rating and quantity 0, not recommended, timestamp the current clock |
| ItemsModel.Encode | app/src/main/java/com/example/techshop/Model/ItemsModel.kt:33-45 | One record occupies exactly eleven parcel entries |
| ItemsModel.DecodeEncode | app/src/main/java/com/example/techshop/Model/ItemsModel.kt:19-45 | Reading a record back from where it was written, whatever precedes or follows it, gives the same record (all eleven fields, read in write order) |
| ItemsModel.NullsReadAsEmpty | app/src/main/java/com/example/techshop/Model/ItemsModel.kt:20-24 | A null string reads back as "" and a null string list as the empty list |
| ItemsModel.FlagIsByteNonZero | app/src/main/java/com/example/techshop/Model/ItemsModel.kt:28 | `showRecommended` reads back true exactly when its byte is non-zero |
| ItemsModel.Parcel.constructor | app/src/main/java/com/example/techshop/Model/ItemsModel.kt:19 | A new parcel is empty, with its cursor at the start |
| ItemsModel.Parcel.Write | app/src/main/java/com/example/techshop/Model/ItemsModel.kt:34-44 | A write appends one entry and leaves the cursor |
| ItemsModel.Parcel.ReadString | app/src/main/java/com/example/techshop/Model/ItemsModel.kt:20-22 | Reads the string entry at the cursor (null if there is none) and advances the cursor by one |
| ItemsModel.Parcel.CreateStringArrayList | app/src/main/java/com/example/techshop/Model/ItemsModel.kt:23-24 | Reads the list entry at the cursor (null if there is none) and advances |
| ItemsModel.Parcel.ReadDouble | app/src/main/java/com/example/techshop/Model/ItemsModel.kt:25-26 | Reads the number at the cursor (0 if there is none) and advances |
| ItemsModel.Parcel.ReadInt | app/src/main/java/com/example/techshop/Model/ItemsModel.kt:27 | Reads the int at the cursor (0 if there is none) and advances |
| ItemsModel.Parcel.ReadByte | app/src/main/java/com/example/techshop/Model/ItemsModel.kt:28 | Reads the byte at the cursor (0 if there is none) and advances |
| ItemsModel.Parcel.ReadLong | app/src/main/java/com/example/techshop/Model/ItemsModel.kt:30 | Reads the long at the cursor (0 if there is none) and advances |
| ItemsModel.WriteToParcel | app/src/main/java/com/example/techshop/Model/ItemsModel.kt:33-45 | Appends exactly the record's encoding to the parcel and leaves its cursor |
| ItemsModel.CreateFromParcel | app/src/main/java/com/example/techshop/Model/ItemsModel.kt:19-31 | Builds the record decoded at the cursor and advances the cursor past its eleven entries |
| ItemsModel.ParcelRoundTrip | app/src/main/java/com/example/techshop/Model/ItemsModel.kt:19-54 | Writing a record into a fresh parcel and creating one from it gives an equal record |
| ItemsModel.NewArray | app/src/main/java/com/example/techshop/Model/ItemsModel.kt:56-58 | `newArray(n)` is a new array of n nulls |
| Text.Lower | app/src/main/java/com/example/techshop/Activity/SearchResultsActivity.kt:75-83 | Lower-casing keeps the length and maps every character |
| Text.LowerIdempotent | app/src/main/java/com/example/techshop/Activity/SearchResultsActivity.kt:75-83 | Lower-casing twice is lower-casing once |
| Text.Upper | app/src/main/java/com/example/techshop/Activity/ListItemsActivity.kt:644 | Upper-casing keeps the length and maps every character |
| Text.Trim | app/src/main/java/com/example/techshop/Activity/SearchResultsActivity.kt:52 | The trimmed query is no longer than the input and neither starts nor ends with whitespace |
| Text.TrimSlice | app/src/main/java/com/example/techshop/Activity/SearchResultsActivity.kt:52 | `trim()` keeps one slice of the input and drops only whitespace before and after it; with `Trim`'s contract, that is the largest slice without whitespace at its ends |
| Text.TrimEmptyIffBlank | app/src/main/java/com/example/techshop/Activity/SearchResultsActivity.kt:52-69 | The trimmed query is empty exactly when the raw query is blank, so a whitespace-only query starts no search |
| Text.Split | app/src/main/java/com/example/techshop/Activity/SearchResultsActivity.kt:75-87 | `split(" ")` yields at least one piece |
| Text.SplitJoin | app/src/main/java/com/example/techshop/Activity/SearchResultsActivity.kt:75-87 | Joining the pieces of `split(" ")` with single spaces gives back the string, so no character is lost or added |
| Text.SplitPieceAt | app/src/main/java/com/example/techshop/Activity/SearchResultsActivity.kt:75-87 | Every piece of the split occurs in the string, at the position the lemma returns |
| Text.SplitPieceNoSpace | app/src/main/java/com/example/techshop/Activity/SearchResultsActivity.kt:75-87 | No piece of the split contains a space |
| Text.NonEmpty | app/src/main/java/com/example/techshop/Activity/SearchResultsActivity.kt:75-87 | `filter { it.isNotEmpty() }` keeps exactly the non-empty pieces |
| Text.Words | app/src/main/java/com/example/techshop/Activity/SearchResultsActivity.kt:75-87 | No word is empty |
| Text.RunIsPiece | app/src/main/java/com/example/techshop/Activity/SearchResultsActivity.kt:75-87 | Every space-free run with a space or an end of the string on each side is a piece of the split; the first piece exactly when it starts the string |
| Text.WordsComplete | app/src/main/java/com/example/techshop/Activity/SearchResultsActivity.kt:75-87 | Every non-empty such run is a word, the converse of `WordOccurs` |
| Text.WordOccurs | app/src/main/java/com/example/techshop/Activity/SearchResultsActivity.kt:75-87 | Every word of a string occurs in it, is non-empty and holds no space |
| Text.ParseInt | app/src/main/java/com/example/techshop/Admin/AddEditProductActivity.kt:90 | `toIntOrNull` accepts only an optional sign followed by digits, and only values in the 32-bit range |
| Text.NatToDecimal | app/src/main/java/com/example/techshop/Admin/AddEditProductActivity.kt:218 | The decimal form is non-empty, all digits, has no leading zero and denotes the number |
| Text.ParseIntToDecimal | app/src/main/java/com/example/techshop/Admin/AddEditProductActivity.kt:218 | Reading back the decimal form of a 32-bit integer gives the integer |
| Cart.IndexOfTitle | app/src/main/java/com/example/techshop/Helper/ManagmentCart.kt:16-17 | The result is the first line with the title, or -1 exactly when no line has it |
| Cart.TotalFeeAppend | app/src/main/java/com/example/techshop/Helper/ManagmentCart.kt:60-68 | The fee of two lists joined is the sum of their fees |
| Cart.TotalFeeIsSumOfLines | app/src/main/java/com/example/techshop/Helper/ManagmentCart.kt:60-68 | The loop's accumulated fee equals the sum of the line totals price × quantity |
| Cart.TotalFeeExample | app/src/main/java/com/example/techshop/Helper/ManagmentCart.kt:60-68 | Lines (100 × 2) and (50 × 3) cost 350 |
| Cart.InsertKeepsUniqueTitles | app/src/main/java/com/example/techshop/Helper/ManagmentCart.kt:15-27 | If titles are unique before an insert, they are unique after it |
| Cart.InsertExisting | app/src/main/java/com/example/techshop/Helper/ManagmentCart.kt:19-22 | Inserting an existing title overwrites that line's quantity with the new one (not additive) and stamps it with the insertion time; the line keeps every other field, and length and all other lines are unchanged |
| Cart.InsertNew | app/src/main/java/com/example/techshop/Helper/ManagmentCart.kt:23-27 | Inserting a new title appends it, stamped; the length grows by 1 and earlier lines are unchanged |
| Cart.InsertLeavesOneLine | app/src/main/java/com/example/techshop/Helper/ManagmentCart.kt:15-27 | After an insert exactly one line has the title, and its quantity is the inserted one |
| Cart.InsertKeepsPositive | app/src/main/java/com/example/techshop/Helper/ManagmentCart.kt:15-27 | Inserting a line with quantity ≥ 1 keeps every quantity ≥ 1 |
| Cart.MinusAtOneRemoves | app/src/main/java/com/example/techshop/Helper/ManagmentCart.kt:39-41 | Decrementing a line of quantity 1 removes only that line, keeping the others in order |
| Cart.MinusDecrements | app/src/main/java/com/example/techshop/Helper/ManagmentCart.kt:42-45 | Decrementing any other quantity subtracts exactly 1 and stamps the line with the time; its other fields, the length and the other lines are unchanged |
| Cart.MinusKeepsPositive | app/src/main/java/com/example/techshop/Helper/ManagmentCart.kt:38-46 | If every quantity is ≥ 1 before a decrement, every quantity is ≥ 1 after it |
| Cart.ChangeKeepsUniqueTitles | app/src/main/java/com/example/techshop/Helper/ManagmentCart.kt:38-57 | Decrement and increment keep titles unique |
| Cart.PlusIncrements | app/src/main/java/com/example/techshop/Helper/ManagmentCart.kt:52-54 | Incrementing adds exactly 1 to the chosen line and stamps it with the time; its other fields, the length and the other lines are unchanged |
| Cart.PlusRaisesTotalByPrice | app/src/main/java/com/example/techshop/Helper/ManagmentCart.kt:52-68 | Incrementing a line raises the total fee by exactly its unit price |
| Cart.ItemList.constructor | app/src/main/java/com/example/techshop/Helper/ManagmentCart.kt:33-35 | A shared list object holding the given lines |
| Cart.ManagmentCart.constructor | app/src/main/java/com/example/techshop/Helper/ManagmentCart.kt:11 | The cart over a given store, no listener calls made yet |
| Cart.ManagmentCart.InsertItem | app/src/main/java/com/example/techshop/Helper/ManagmentCart.kt:14-30 | The store's `"CartList"` becomes the upserted list, nothing else in the store changes, and no listener is called |
| Cart.ManagmentCart.MinusItem | app/src/main/java/com/example/techshop/Helper/ManagmentCart.kt:38-49 | The caller's list is decremented in place, that same list is persisted, and the listener is called once |
| Cart.ManagmentCart.PlusItem | app/src/main/java/com/example/techshop/Helper/ManagmentCart.kt:52-57 | The caller's list is incremented in place, persisted, and the listener is called once |
| Cart.ManagmentCart.GetTotalFee | app/src/main/java/com/example/techshop/Helper/ManagmentCart.kt:60-68 | The loop returns the total fee of the stored list, and 0 for an empty or absent cart |
| Cart.ManagmentCart.ClearCart | app/src/main/java/com/example/techshop/Helper/ManagmentCart.kt:71-73 | The `"CartList"` entry is removed, so the cart then reads back empty |
| CartScreen.TaxIsTwoPercent | app/src/main/java/com/example/techshop/Activity/CartActivity.kt:199-202 | For a whole-đồng total, 2% rounded to the hundredth is exactly 2 hundredths per đồng |
| CartScreen.TaxZeroAndMonotone | app/src/main/java/com/example/techshop/Activity/CartActivity.kt:200-201 | The tax of 0 is 0, and the tax never decreases as the total grows |
| CartScreen.GrandTotalFromItems | app/src/main/java/com/example/techshop/Activity/CartActivity.kt:103-105 | Item total + its tax + 25 000 delivery is 102% of the items plus 25 000 đ |
| CartScreen.IndexOf | app/src/main/java/com/example/techshop/Activity/CartActivity.kt:315 | `indexOf(item)` is the first position holding the item |
| CartScreen.Screen.constructor | app/src/main/java/com/example/techshop/Activity/CartActivity.kt:56-58 | Opening the screen loads the stored list and computes its tax, without changing the store |
| CartScreen.Screen.OnItemChange | app/src/main/java/com/example/techshop/Activity/CartActivity.kt:97-100 | The listener reloads the list from the store and recomputes the tax, so they match the store again |
| CartScreen.Screen.PlusClicked | app/src/main/java/com/example/techshop/Activity/CartActivity.kt:312-321 | "+" stores the list with the clicked line incremented, calls the listener once, and leaves the screen in step with the store |
| CartScreen.Screen.MinusClicked | app/src/main/java/com/example/techshop/Activity/CartActivity.kt:342-350 | "−" stores the list with the clicked line decremented or removed, calls the listener once, and leaves the screen in step with the store |
| CartScreen.Screen.Render | app/src/main/java/com/example/techshop/Activity/CartActivity.kt:88-109 | "Cart Is Empty" is shown exactly when the list is empty; otherwise each line shows quantity × price, the summary shows the cart's `getTotalFee`, the stored tax and fee + tax + delivery; with the tax in step with the list, the tax is `TaxCents` of the fee and the grand total in cents is 102 × the fee plus the 2 500 000 of delivery |
| CartScreen.Screen.CheckoutClicked | app/src/main/java/com/example/techshop/Activity/CartActivity.kt:172-180 | Checkout forwards exactly the current items and the displayed grand total |
| Favorites.AddStores | app/src/main/java/com/example/techshop/Helper/FavoriteManager.kt:58-65 | Adding stores the product under its id for a signed-in user when the id is non-empty; otherwise the remote tree is unchanged |
| Favorites.RemoveDeletes | app/src/main/java/com/example/techshop/Helper/FavoriteManager.kt:67-74 | Removing deletes that id for the signed-in user under the same guard; otherwise nothing changes |
| Favorites.WritesAreLocal | app/src/main/java/com/example/techshop/Helper/FavoriteManager.kt:58-74 | Neither write touches any other user or any other id |
| Favorites.WritesIdempotent | app/src/main/java/com/example/techshop/Helper/FavoriteManager.kt:58-74 | Repeating an add, or a remove, changes nothing more |
| Favorites.Decoded | app/src/main/java/com/example/techshop/Helper/FavoriteManager.kt:41-47 | The decoded list holds every child that decoded and nothing else |
| Favorites.HasId | app/src/main/java/com/example/techshop/Helper/FavoriteManager.kt:77 | `any { it.id == id }` holds exactly when some element has that id |
| Favorites.CollectFavorites | app/src/main/java/com/example/techshop/Helper/FavoriteManager.kt:41-47 | The loop collects exactly the decoded children, in snapshot order |
| Favorites.SnapshotMembership | app/src/main/java/com/example/techshop/Helper/FavoriteManager.kt:40-48 | After a snapshot delivering A and B, A is a favourite and a product with another id is not |
| Favorites.FavoriteManager.constructor | app/src/main/java/com/example/techshop/Helper/FavoriteManager.kt:19-35 | The list starts empty; a listener is attached if a user is already signed in |
| Favorites.FavoriteManager.OnAuthStateChanged | app/src/main/java/com/example/techshop/Helper/FavoriteManager.kt:21-28 | Signing out empties the list; signing in attaches one more listener and keeps the list |
| Favorites.FavoriteManager.OnDataChange | app/src/main/java/com/example/techshop/Helper/FavoriteManager.kt:40-49 | A snapshot replaces the list with exactly the decoded children in order, skipping the ones that failed |
| Favorites.FavoriteManager.OnCancelled | app/src/main/java/com/example/techshop/Helper/FavoriteManager.kt:51-54 | A cancellation resets the list to empty |
| Favorites.FavoriteManager.AddFavorite | app/src/main/java/com/example/techshop/Helper/FavoriteManager.kt:58-65 | The guarded remote write happens, and the cached list is left alone |
| Favorites.FavoriteManager.RemoveFavorite | app/src/main/java/com/example/techshop/Helper/FavoriteManager.kt:67-74 | The guarded remote delete happens, and the cached list is left alone |
| Favorites.FavoriteManager.IsFavorite | app/src/main/java/com/example/techshop/Helper/FavoriteManager.kt:76-78 | True exactly when some cached item has the same id; false when the list is empty |
| Favorites.FavoriteManager.ToggleFavorite | app/src/main/java/com/example/techshop/Activity/ListItems.kt:118-123 | The heart button removes a cached favourite and adds anything else; the cached list is not touched |
| ListFilters.Capitalize | app/src/main/java/com/example/techshop/Activity/ListItemsActivity.kt:700-706 | Keeps the length and the letters up to case; the first character is not lower-case and no later one is upper-case ("" stays "") |
| ListFilters.CapitalizeIdempotent | app/src/main/java/com/example/techshop/Activity/ListItemsActivity.kt:700-706 | Capitalizing twice is capitalizing once |
| ListFilters.BrandLabels | app/src/main/java/com/example/techshop/Activity/ListItemsActivity.kt:633-635 | Each match becomes its lower-cased, capitalized label, one for one |
| ListFilters.AddBrandLabels | app/src/main/java/com/example/techshop/Activity/ListItemsActivity.kt:633-635 | The inner loop appends one label per match of one pattern, in match order, after the labels already found |
| ListFilters.ExtractBrandsFromDescription | app/src/main/java/com/example/techshop/Activity/ListItemsActivity.kt:625-639 | The nested loop collects every label of every pattern in order, then `distinct()`; the result has no duplicates |
| ListFilters.SizeLabels | app/src/main/java/com/example/techshop/Activity/ListItemsActivity.kt:641-653 | The RAM and storage lists have no duplicates, and each holds exactly the labels of the matches |
| ListFilters.SizeLabelsWellFormed | app/src/main/java/com/example/techshop/Activity/ListItemsActivity.kt:642-652 | Every RAM or storage label has the form "<digits> <UPPER-CASE unit>" |
| ListFilters.SizeLabelShape | app/src/main/java/com/example/techshop/Activity/ListItemsActivity.kt:644 | One match's label has that form |
| ListFilters.SpaceIndexAt | app/src/main/java/com/example/techshop/Activity/ListItemsActivity.kt:644 | The label's first space is the one after the amount |
| ListFilters.FilterIfSelected | app/src/main/java/com/example/techshop/Activity/ListItemsActivity.kt:666-687 | One optional stage keeps the order and, when it is applied, keeps exactly the items passing both tests so far |
| ListFilters.EmptySelectionPassesAll | app/src/main/java/com/example/techshop/Activity/ListItemsActivity.kt:666-682 | An empty brand, RAM or storage set filters nothing |
| ListFilters.ChainIsSelects | app/src/main/java/com/example/techshop/Activity/ListItemsActivity.kt:660-687 | The four stages together are the selection predicate |
| ListFilters.SelectItems | app/src/main/java/com/example/techshop/Activity/ListItemsActivity.kt:657-687 | The filter stages keep the input order and keep every selected item, with its multiplicity, and nothing else |
| ListFilters.ApplyFilters | app/src/main/java/com/example/techshop/Activity/ListItemsActivity.kt:656-697 | The output is no longer than the input and holds exactly the items in the price range and in each non-empty set. NONE keeps input order. ASCENDING and DESCENDING sort by price as a permutation of the filtered list. Items of equal price keep their input order |
| ListFilters.SortedByPrice | app/src/main/java/com/example/techshop/Activity/ListItemsActivity.kt:689-694 | The result is a permutation of its input; ASCENDING orders it by non-decreasing price, DESCENDING by non-increasing price, NONE leaves it as it is |
| ListFilters.SortedByPriceStable | app/src/main/java/com/example/techshop/Activity/ListItemsActivity.kt:689-694 | For every price, the items of that price appear in the same order before and after the sort |
| ListFilters.SelectedMembers | app/src/main/java/com/example/techshop/Activity/ListItemsActivity.kt:660-687 | An item is in the output exactly when it is in the input and selected |
| ListFilters.RemoveBrand | app/src/main/java/com/example/techshop/Activity/ListItemsActivity.kt:290-292 | Removing a brand chip drops that brand only; the other options are unchanged |
| ListFilters.RemoveRam | app/src/main/java/com/example/techshop/Activity/ListItemsActivity.kt:316-318 | Removing a RAM chip drops that value only |
| ListFilters.RemoveStorage | app/src/main/java/com/example/techshop/Activity/ListItemsActivity.kt:342-344 | Removing a storage chip drops that value only |
| ListFilters.DialogOptions | app/src/main/java/com/example/techshop/Activity/ListItemsActivity.kt:601-611 | An unreadable minimum becomes 0 and an unreadable maximum means no upper bound; the sets and sort are passed on |
| Search.KeywordScore | app/src/main/java/com/example/techshop/Activity/SearchResultsActivity.kt:89-104 | One keyword contributes between 0 and 3.3 |
| Search.Score | app/src/main/java/com/example/techshop/Activity/SearchResultsActivity.kt:89-104 | The score is between 0 and 3.3 per keyword |
| Search.ScoreItem | app/src/main/java/com/example/techshop/Activity/SearchResultsActivity.kt:80-104 | The accumulating loop computes the item's score over the lower-cased title and category |
| Search.KeywordScorePositive | app/src/main/java/com/example/techshop/Activity/SearchResultsActivity.kt:89-104 | A keyword scores above 0 exactly when it is a substring of the lower-cased title or category |
| Search.KeywordScoreRules | app/src/main/java/com/example/techshop/Activity/SearchResultsActivity.kt:91-103 | A title word outranks; a word of both scores 3. A category word with no title match scores 0.5. A title substring that is not a word scores 2 |
| Search.ScorePositive | app/src/main/java/com/example/techshop/Activity/SearchResultsActivity.kt:89-106 | The score is positive exactly when some keyword is a substring of the title or the category |
| Search.ItemScorePositive | app/src/main/java/com/example/techshop/Activity/SearchResultsActivity.kt:82-106 | The same, for an item |
| Search.Hits | app/src/main/java/com/example/techshop/Activity/SearchResultsActivity.kt:77-110 | Every hit has a positive score equal to its item's score |
| Search.CollectHits | app/src/main/java/com/example/techshop/Activity/SearchResultsActivity.kt:73-110 | The loop over the snapshot collects exactly the hits |
| Search.RankedResults | app/src/main/java/com/example/techshop/Activity/SearchResultsActivity.kt:73-113 | The snapshot handler's computation: the items of the ranked hits, as specified by the results function |
| Search.LastChildHit | app/src/main/java/com/example/techshop/Activity/SearchResultsActivity.kt:78-108 | The last child adds a hit exactly when it decodes and scores above 0 |
| Search.HitItems | app/src/main/java/com/example/techshop/Activity/SearchResultsActivity.kt:77-110 | An item is a hit exactly when some child decodes to it (with its key as id) and scores above 0 |
| Search.RankStable | app/src/main/java/com/example/techshop/Activity/SearchResultsActivity.kt:113 | Ranking keeps the order of equally scored hits |
| Search.Rank | app/src/main/java/com/example/techshop/Activity/SearchResultsActivity.kt:113 | The ranking is a permutation of the hits, by non-increasing score, with ties in snapshot order |
| Search.ItemsOfMembers | app/src/main/java/com/example/techshop/Activity/SearchResultsActivity.kt:113 | `map { it.first }` keeps exactly the hit items |
| Search.RankMembers | app/src/main/java/com/example/techshop/Activity/SearchResultsActivity.kt:113 | Ranking neither adds nor drops an item |
| Search.ResultsMembers | app/src/main/java/com/example/techshop/Activity/SearchResultsActivity.kt:73-115 | An item is a result exactly when some child decodes to it, with its key as id, and matches a keyword |
| Search.SortByOption | app/src/main/java/com/example/techshop/Activity/SearchResultsActivity.kt:132-145 | Each optional sort is a permutation |
| Search.SortByOptionOrders | app/src/main/java/com/example/techshop/Activity/SearchResultsActivity.kt:132-145 | Each optional sort orders by its key in its direction and keeps ties in their previous order |
| Search.InOrderSubsequence | app/src/main/java/com/example/techshop/Activity/SearchResultsActivity.kt:139-145 | Part of an ordered list, taken in order, is still ordered |
| Search.SortEffect | app/src/main/java/com/example/techshop/Activity/SearchResultsActivity.kt:130-147 | The sort effect rearranges the results without adding or dropping any |
| Search.SortEffectOrder | app/src/main/java/com/example/techshop/Activity/SearchResultsActivity.kt:130-147 | The final order follows the rating option; equal ratings stay in price order; with no rating sort the price option holds; with both NONE the score order is kept |
| Search.SearchScreen.constructor | app/src/main/java/com/example/techshop/Activity/SearchResultsActivity.kt:52-65 | The query is the trimmed extra ("" if missing); results empty, loading, no sort, dialog closed |
| Search.SearchScreen.Start | app/src/main/java/com/example/techshop/Activity/SearchResultsActivity.kt:67-126 | A non-empty query starts one read; an empty query does no search and stops loading |
| Search.SearchScreen.OnDataChange | app/src/main/java/com/example/techshop/Activity/SearchResultsActivity.kt:72-116 | The results become the ranked hits, shown unsorted, and loading stops |
| Search.SearchScreen.OnCancelled | app/src/main/java/com/example/techshop/Activity/SearchResultsActivity.kt:118-122 | A read error empties both lists and stops loading |
| Search.SearchScreen.ShowResults | app/src/main/java/com/example/techshop/Activity/SearchResultsActivity.kt:113-115 | Both lists become the given results, loading stops, and the dialog and sort options keep their values |
| Search.SearchScreen.ApplySort | app/src/main/java/com/example/techshop/Activity/SearchResultsActivity.kt:130-147 | The shown list becomes the sort effect of the results under the current options |
| Search.SearchScreen.OpenFilterDialog | app/src/main/java/com/example/techshop/Activity/SearchResultsActivity.kt:393 | Opens the dialog, nothing else |
| Search.SearchScreen.Choose | app/src/main/java/com/example/techshop/Activity/SearchResultsActivity.kt:64-65 | A choice in the dialog changes only the pending options |
| Search.SearchScreen.Confirm | app/src/main/java/com/example/techshop/Activity/SearchResultsActivity.kt:341-343 | Applying adopts the pending options and closes the dialog; the sort reruns only if an option changed |
| Search.SearchScreen.Cancel | app/src/main/java/com/example/techshop/Activity/SearchResultsActivity.kt:362-367 | Cancelling closes the dialog and restores the pending options to the applied ones |
| Search.SearchScreen.DismissRequest | app/src/main/java/com/example/techshop/Activity/SearchResultsActivity.kt:156 | Dismissing only closes the dialog |
| Payment.NameError | app/src/main/java/com/example/techshop/Activity/PaymentActivity.kt:316 | The name is rejected exactly when it is blank |
| Payment.AddressError | app/src/main/java/com/example/techshop/Activity/PaymentActivity.kt:317 | The address is rejected exactly when it is blank |
| Payment.PhoneError | app/src/main/java/com/example/techshop/Activity/PaymentActivity.kt:318-322 | "Empty" is reported exactly for a blank phone number |
| Payment.PhoneAccepted | app/src/main/java/com/example/techshop/Activity/PaymentActivity.kt:318-322 | A phone number is accepted exactly when it is 10 or 11 ASCII digits; "invalid" exactly when it is not blank and not of that form |
| Payment.OrderItems | app/src/main/java/com/example/techshop/Activity/PaymentActivity.kt:552-558 | One order line per cart line |
| Payment.OrderItemsCopyCart | app/src/main/java/com/example/techshop/Activity/PaymentActivity.kt:552-558 | Line i of the order copies title, price and quantity of cart line i |
| Payment.OrderItemsKeepTotal | app/src/main/java/com/example/techshop/Activity/PaymentActivity.kt:552-558 | The order's lines are worth the cart's total fee |
| Payment.NewOrder | app/src/main/java/com/example/techshop/Activity/PaymentActivity.kt:560-571 | The order is "Pending", its id is the pushed key, with the user id, the recipient fields, method, total and timestamp passed in; its lines are the cart's lines copied one for one, worth the cart's `TotalFee` |
| Payment.PaymentScreen.constructor | app/src/main/java/com/example/techshop/Activity/PaymentActivity.kt:46-73 | A missing cart extra is an empty list and a missing total is 0; fields empty, cash on delivery, no errors |
| Payment.PaymentScreen.EditName | app/src/main/java/com/example/techshop/Activity/PaymentActivity.kt:187-190 | Typing in the name field re-validates it and changes nothing else |
| Payment.PaymentScreen.EditAddress | app/src/main/java/com/example/techshop/Activity/PaymentActivity.kt:207-210 | Typing in the address field re-validates it and changes nothing else |
| Payment.PaymentScreen.EditPhone | app/src/main/java/com/example/techshop/Activity/PaymentActivity.kt:227-234 | Typing in the phone field re-validates it and changes nothing else |
| Payment.PaymentScreen.SetMethodsExpanded | app/src/main/java/com/example/techshop/Activity/PaymentActivity.kt:280 | The dropdown opens or closes, nothing else |
| Payment.PaymentScreen.PickMethod | app/src/main/java/com/example/techshop/Activity/PaymentActivity.kt:298-305 | Picking entry i selects that method and closes the dropdown |
| Payment.PaymentScreen.ProcessPayment | app/src/main/java/com/example/techshop/Activity/PaymentActivity.kt:526-590 | With no user, "sign in" is shown and no order is written. With no pushed key, nothing happens. Otherwise the new order for the cart is requested under the key. The cart is never touched |
| Payment.PaymentScreen.Submit | app/src/main/java/com/example/techshop/Activity/PaymentActivity.kt:315-348 | All three fields are re-validated. Nothing proceeds unless all errors are absent. Bank transfer and Momo open the QR dialog; any other method processes the payment at once |
| Payment.PaymentScreen.Revalidate | app/src/main/java/com/example/techshop/Activity/PaymentActivity.kt:316-322 | Each field's error becomes the one its validator reports for the current text, and nothing else on the screen changes |
| Payment.PaymentScreen.ConfirmQR | app/src/main/java/com/example/techshop/Activity/PaymentActivity.kt:82-98 | "Paid", available only while the QR dialog is shown, closes it and processes the payment |
| Payment.PaymentScreen.DismissQR | app/src/main/java/com/example/techshop/Activity/PaymentActivity.kt:81 | Dismissing the shown QR dialog only closes it |
| Payment.PaymentScreen.OnWriteSucceeded | app/src/main/java/com/example/techshop/Activity/PaymentActivity.kt:573-584 | A successful write stores the order, clears the cart, shows "order placed" and closes the screen; the form fields, their errors, the method and the dropdown and dialog states stay |
| Payment.PaymentScreen.OnWriteFailed | app/src/main/java/com/example/techshop/Activity/PaymentActivity.kt:585-589 | A failed write stores nothing, leaves the cart alone and shows the failure; the form fields, their errors, the method and the dropdown and dialog states stay |
| ProductForm.FirstErrorChain | app/src/main/java/com/example/techshop/Admin/AddEditProductActivity.kt:200-222 | The form passes exactly when it has a title, a readable non-empty price, a stock that reads as an int, and a category id that is the decimal form of a loaded id. A reported error means every earlier check passed |
| ProductForm.ProductFormScreen.constructor | app/src/main/java/com/example/techshop/Admin/AddEditProductActivity.kt:69-80 | A new product starts with empty fields, stock "0" and not recommended; an edit starts from the product's values and first picture |
| ProductForm.ProductFormScreen.OnCategories | app/src/main/java/com/example/techshop/Admin/AddEditProductActivity.kt:82-96 | The loop keeps one id per decodable category, its key read as an int or 0, in order; the form fields are unchanged |
| ProductForm.ProductFormScreen.Edit | app/src/main/java/com/example/techshop/Admin/AddEditProductActivity.kt:138-193 | The edits set the fields and leave the loaded categories |
| ProductForm.ProductFormScreen.Built | app/src/main/java/com/example/techshop/Admin/AddEditProductActivity.kt:224-235 | The built record keeps the edited product's id (or ""), has picUrl exactly [imageUrl], carries over the model, and has rating 0 when unreadable |
| ProductForm.ProductFormScreen.SaveClicked | app/src/main/java/com/example/techshop/Admin/AddEditProductActivity.kt:198-237 | The first failing check is reported and nothing is saved. With no failure, the built record is handed to `onSave` |
| ProductForm.CategoryIds | app/src/main/java/com/example/techshop/Admin/AddEditProductActivity.kt:86-93 | At most one id per child, each a 32-bit value |
| ProductForm.SaveKey | app/src/main/java/com/example/techshop/Admin/AddEditProductActivity.kt:50 | A non-empty id is kept; otherwise the pushed key, or "" if none |
| ProductForm.SavedUnderOwnId | app/src/main/java/com/example/techshop/Admin/AddEditProductActivity.kt:48-51 | The stored record's id is its key; an edited record replaces itself; no other record changes |
| Profile.RemoveLeadingZero | app/src/main/java/com/example/techshop/Activity/ProfileActivity.kt:331 | `removePrefix("0")` drops exactly one leading zero, if there is one |
| Profile.FormatPhone | app/src/main/java/com/example/techshop/Activity/ProfileActivity.kt:331 | The result starts with "+"; a number starting with "+" is unchanged; otherwise "+84" replaces one leading zero |
| Profile.FormatPhoneIdempotent | app/src/main/java/com/example/techshop/Activity/ProfileActivity.kt:331 | Formatting a formatted number changes nothing |
| Profile.FormatPhoneNational | app/src/main/java/com/example/techshop/Activity/ProfileActivity.kt:331 | A national number loses its trunk zero (length + 2) or only gains the code (length + 3) |
| Profile.FormatPhoneExample | app/src/main/java/com/example/techshop/Activity/ProfileActivity.kt:331 | "0912345678" becomes "+84912345678", which stays as it is |
| Profile.ChangePasswordDialog.constructor | app/src/main/java/com/example/techshop/Activity/ProfileActivity.kt:87-92 | Closed, at select_method, every field empty |
| Profile.ChangePasswordDialog.Open | app/src/main/java/com/example/techshop/Activity/ProfileActivity.kt:267 | The dialog opens where it was left |
| Profile.ChangePasswordDialog.Cancel | app/src/main/java/com/example/techshop/Activity/ProfileActivity.kt:501-508 | Dismiss and cancel close the dialog, return to select_method and clear the code, both passwords and the verification id |
| Profile.ChangePasswordDialog.RequestCode | app/src/main/java/com/example/techshop/Activity/ProfileActivity.kt:328-355 | A code is requested only for a non-empty number, in its "+"-prefixed form |
| Profile.ChangePasswordDialog.RequestResetEmail | app/src/main/java/com/example/techshop/Activity/ProfileActivity.kt:367-378 | A reset e-mail is requested only for a user with an address |
| Profile.ChangePasswordDialog.OnResetEmailSent | app/src/main/java/com/example/techshop/Activity/ProfileActivity.kt:370-373 | The sent e-mail closes the dialog and keeps the rest |
| Profile.ChangePasswordDialog.OnCodeSent | app/src/main/java/com/example/techshop/Activity/ProfileActivity.kt:346-349 | The code being sent records the verification id and moves to enter_otp |
| Profile.ChangePasswordDialog.EditOtp | app/src/main/java/com/example/techshop/Activity/ProfileActivity.kt:395 | The code field never holds more than 6 characters: a longer edit is ignored |
| Profile.ChangePasswordDialog.EditNewPassword | app/src/main/java/com/example/techshop/Activity/ProfileActivity.kt:416 | Sets the new password only |
| Profile.ChangePasswordDialog.EditConfirmPassword | app/src/main/java/com/example/techshop/Activity/ProfileActivity.kt:434 | Sets the confirmation only |
| Profile.ChangePasswordDialog.Confirm | app/src/main/java/com/example/techshop/Activity/ProfileActivity.kt:452-490 | There is no confirm button at select_method. A code is submitted only when it has exactly 6 characters. A password is submitted only when it is non-empty and equals the confirmation |
| Profile.ChangePasswordDialog.OnCodeAccepted | app/src/main/java/com/example/techshop/Activity/ProfileActivity.kt:460-462 | An accepted code moves to enter_password |
| Profile.ChangePasswordDialog.OnPasswordUpdated | app/src/main/java/com/example/techshop/Activity/ProfileActivity.kt:473-481 | A changed password resets the dialog as a cancel does |

## Left out

- Compose rendering is left out: layout, animation, images, toasts, snackbar timing and navigation. Messages and "screen finished" are plain state.
- The Firebase SDKs are not modelled. Snapshots, auth changes, pushed keys and the outcome of the order and sign-in requests are event parameters. Listeners are never detached, as in the source.
- The `setValue` and `removeValue` writes of the favourites (`FavoriteManager.kt:63` and `:72`) are fire-and-forget in the source. The model applies them at once and does not model a failed write.
- `saveProduct` (`AddEditProductActivity.kt:51-57`) is modelled as applied at once. A failed write is not modelled.
- Integers are unbounded. Kotlin's 32-bit `Int` and 64-bit `Long` wrap-around is not modelled: `numberInCart++` in `plusItem` and the values `readInt`/`readLong` give back are plain integers.
- The Parcel is a sequence of typed entries, not bytes. A read at a wrong-kind or missing entry gives 0 or no value, where Android would reinterpret the bytes.
- For a new title, `insertItem` stamps the caller's own item object with the time before appending it (`ManagmentCart.kt:24`). The model works on values, so the caller's item is not changed.
- Floating point is left out:
  - prices and ratings are whole numbers;
  - `Math.round` is real rounding;
  - search scores are exact tenths, not `Float` sums.
- The regex engine is left out. What the brand, RAM and storage patterns find in a description is an input (`Scanner`). Only the post-processing is modelled.
- `toDoubleOrNull` and `Double.toString` are function parameters (`DoubleParser`, `DoubleFormatter`). Their grammar is not modelled.
- Text.ParseInt: accepts ASCII digits only, not the other Unicode decimal digits that `toIntOrNull` also reads.
- Case mapping, `isBlank` and `trim` are over ASCII only.
- TinyDB's serialisation is not part of this model. The store is a map from key to item list.
- `stock` is declared by the admin form but not by `ItemsModel`. It exists only in the admin model, beside the record, and not in the Parcel.
- `SortOption` is declared twice in the source with the same values. It is modelled once.
- Search.SearchScreen.Confirm: as in the source, the sort effect reruns only when an option changes. Results that arrive after a sort was chosen are therefore shown unsorted.
- Profile.ChangePasswordDialog.Confirm: when no user is signed in, the source's `user?.updatePassword` sends nothing. The model still returns the request and leaves the missing user to the caller.
- Profile.ChangePasswordDialog.EditOtp and Profile.ChangePasswordDialog.Confirm: strings are sequences of Unicode code points, so the 6-character limit of the code field and the `otp.length == 6` check count code points, not Kotlin's UTF-16 units. A code with characters outside the Basic Multilingual Plane is measured differently: three emoji are length 6 in the source, which submits them, while `Confirm` reports the code as too short.
- Profile.ChangePasswordDialog.OnCodeSent: as in the source, the code-sent and code-accepted callbacks act in whatever step the dialog is, including after it was dismissed.
- Failure toasts of the phone, e-mail and password requests change no state and are not modelled.
- Editing a product rebuilds the record, so its quantity in cart, timestamp and price digits come from the form and the clock, as in the source.
