# Farm Connect marketplace — page logic and profile export, modelled in Dafny

Farm Connect is a Next.js marketplace that links shoppers with local farms.
Most of it is markup and mock data. This project models the parts that make
decisions:

- **Seller registration** (`Seller`). This covers the six-field form, the
  ordered validator where the first failing check wins, the specialty and
  certification tag lists, submission, and the "Register Another Farm" reset.
- **Profile editor** (`Profile`). A committed `profile` and a working copy
  `editedProfile` are kept side by side. Edits touch only the working copy,
  save commits it, cancel discards it. Export posts the committed profile and
  names the download.
- **Profile export route** (`Export`). `POST /api/exportProfile` turns a
  profile record into an ordered list of named sheets and a file name. It
  answers 500 when the body cannot be read, and when it carries no
  `totalOrders`, whose `toString()` then throws. `GET` returns a usage message.
- **Shop** (`Shop`). This covers the product search and category filter,
  adding an in-stock product to the cart, and the `isInCart` and
  `getCartQuantity` lookups.
- **Find farms** (`FindFarms`). This covers the location search with its
  blank-query guard and its "all" wildcard, and the "Try Another Search" reset.
- **Cart page** (`Cart`). This covers the rules that decide which quantity
  requests reach the cart store, the Remove and Clear Cart buttons, and
  checkout.

Shared modules:

- `Text` models the JavaScript primitives the source relies on:
  - `trim`, over the ECMAScript white-space and line-terminator set;
  - `toLowerCase`;
  - `includes`;
  - `split(c)[0]`;
  - `Number.prototype.toString` on integers;
  - `parseInt` with no radix, which skips white space and reads a sign, a
    `0x` prefix and the longest digit run; `None` stands for NaN.
- `Optional` holds the `Option` type. It stands for a `null` page state,
  an absent JSON field, and the NaN that `parseInt` can return.
- `Seqs` models `Array.prototype.filter` and proves that it returns an
  order-preserving subsequence.
- `Tags` holds the add-trimmed-unless-blank-or-duplicate and
  remove-by-filter rule. The seller's two lists and the profile's
  preferences all share it.
- `CartStore` is the boundary to the shared cart store. The store's reducer
  lives in `src/lib/cartContext`, which is not part of this model. The class
  `CartStore.Cart` therefore records each request a page makes, in order
  (`calls`). It also holds the item list the store last published (`items`).
  It never says what a request does to the items.

How page state is modelled:

- Each page's `useState` fields are fields of a class.
- Each handler is a method.
- An `async` handler is one atomic step. A `fails` parameter chooses the
  `catch` branch. In the seller, profile-save, shop, find-farms and cart
  handlers, the awaited promise is a timer that never rejects. Their
  `catch` branches are modelled as written, although the source never
  reaches them.
- Mock data (the farm catalogue, the product list, the initial profile) is
  passed in as a parameter.
- Clock readings are parameters. The route takes a `Clock` with the locale
  date, the locale time and the ISO timestamp; the page takes its own ISO
  timestamp.

## Model

| member | source | states |
|---|---|---|
| `Text.Trim` | src/app/seller/page.tsx:49 | `trim` returns a slice of its input with only white space cut from each end; the result has no white space at either end, and is empty exactly when the input is all white space |
| `Text.TrimIdempotent` | src/app/seller/page.tsx:49-52 | trimming an entry that was already trimmed gives it back unchanged |
| `Text.ToLower` | src/app/shop/page.tsx:121-123 | `toLowerCase` keeps the length and lower-cases each character in place |
| `Text.Contains` | src/app/shop/page.tsx:121-123 | `includes` finds the empty needle and the string itself in any string, and never finds a needle longer than the string |
| `Text.ContainsChar` | src/app/seller/page.tsx:91 | `includes` on a one-character needle holds exactly when that character occurs in the string |
| `Text.ContainsIff` | src/app/shop/page.tsx:121-123 | `includes` holds exactly when the needle occurs at some position of the string |
| `Text.BeforeFirst` | src/app/api/exportProfile/route.ts:108 | `split(c)[0]` is a prefix of the string that contains no `c` and stops at the first `c` |
| `Text.IntToString` | src/app/api/exportProfile/route.ts:38 | `toString` on an integer gives a non-empty text that starts with `-` exactly for a negative number, followed by decimal digits with no leading zero except in `0` itself |
| `Text.ParseInt` | src/app/cart/page.tsx:135 | `parseInt` gives NaN for blank text and for text whose first character is not white space, a sign or a decimal digit |
| `Text.ParseIntOfIntToString` | src/app/cart/page.tsx:135 | `parseInt(String(n)) === n` for every integer `n`, including negative ones |
| `Seqs.Filter` | src/app/shop/page.tsx:120-126 | `filter` returns no more elements than it was given; an element is in the result exactly when it is in the input and the predicate keeps it, and every kept value keeps all its occurrences |
| `Seqs.FilterIsSubsequence` | src/app/find-farms/page.tsx:83-88 | every filter result is an order-preserving subsequence of its input |
| `Seqs.FilterKeepsAll` | src/app/shop/page.tsx:120-126 | a filter whose predicate keeps every element returns its input unchanged |
| `Seqs.FilterUnchangedIff` | src/app/shop/page.tsx:120-126 | a filter returns its input unchanged exactly when the predicate keeps every element |
| `Seqs.FilterNoDuplicates` | src/app/seller/page.tsx:58-63 | filtering a duplicate-free list gives a duplicate-free list |
| `Seqs.FilterAppend` | src/app/seller/page.tsx:58-63 | filtering a concatenation is the concatenation of the filtered parts |
| `Tags.Add` | src/app/seller/page.tsx:48-56 | an add grows the list by one exactly when the trimmed input is non-blank and not already listed (exact match); it then appends the trimmed text and clears the input box, and otherwise changes neither |
| `Tags.Remove` | src/app/seller/page.tsx:58-63 | a remove deletes every entry equal to the given one, keeps every other entry with all its occurrences, and keeps the order of the rest |
| `Tags.AddKeepsWellFormed` | src/app/seller/page.tsx:48-56 | starting from a duplicate-free list of trimmed non-empty entries, an add keeps it that way |
| `Tags.RemoveKeepsWellFormed` | src/app/seller/page.tsx:58-63 | a remove keeps a well-formed list well-formed |
| `Tags.RemoveAbsent` | src/app/seller/page.tsx:58-63 | removing a value that is not listed changes nothing |
| `Tags.RemoveUndoesAdd` | src/app/seller/page.tsx:48-63 | removing the entry an accepted add appended gives back the earlier list |
| `Tags.AddSameTextTwice` | src/app/seller/page.tsx:49 | once a text has been accepted, typing it again is rejected, so the list never holds it twice |
| `Seller.Set` | src/app/seller/page.tsx:40-46 | the spread update changes exactly the named field; the other five text fields and both tag lists keep their values |
| `Seller.Passes` | src/app/seller/page.tsx:83-106 | one field's check passes exactly when the field is not all white space and, for the email, it contains `@` |
| `Seller.Complete` | src/app/seller/page.tsx:82-108 | the form is complete exactly when every one of the six checks passes |
| `Seller.FirstError` | src/app/seller/page.tsx:82-108 | the validator reports no error exactly when all six fields are non-blank after trimming and the email contains `@` |
| `Seller.FirstErrorIsEarliestFailure` | src/app/seller/page.tsx:83-105 | the reported message is that of field `f` exactly when `f`'s check fails and every check before it, in the order farm name, owner name, email, phone, address, description, passes |
| `Seller.SellerPage.constructor` | src/app/seller/page.tsx:23-38 | the page starts unregistered and not loading, with no error, the all-empty profile and empty input boxes |
| `Seller.SellerPage.HandleInputChange` | src/app/seller/page.tsx:40-46 | one field takes the typed value and the error is cleared; every other state field keeps its value |
| `Seller.SellerPage.SetNewSpecialty` | src/app/seller/page.tsx:318 | the specialty input box holds the typed text |
| `Seller.SellerPage.SetNewCertification` | src/app/seller/page.tsx:355 | the certification input box holds the typed text |
| `Seller.SellerPage.AddSpecialty` | src/app/seller/page.tsx:48-56 | the specialties and their input box follow `Tags.Add`; the certifications, the other fields and the flags keep their values, and both lists stay well-formed |
| `Seller.SellerPage.RemoveSpecialty` | src/app/seller/page.tsx:58-63 | the specialties follow `Tags.Remove`; nothing else in the profile changes |
| `Seller.SellerPage.AddCertification` | src/app/seller/page.tsx:65-73 | the certifications and their input box follow `Tags.Add`; the specialties and everything else keep their values |
| `Seller.SellerPage.RemoveCertification` | src/app/seller/page.tsx:75-80 | the certifications follow `Tags.Remove`; nothing else in the profile changes |
| `Seller.SellerPage.ValidateForm` | src/app/seller/page.tsx:82-108 | it returns true exactly when the form is complete; on failure the error is the first failing check's message, and on success the error is left as it was |
| `Seller.SellerPage.HandleSubmit` | src/app/seller/page.tsx:110-134 | an incomplete form sets only the validation error, leaving the loading and registered flags alone; a complete one ends not loading, and is then registered with no error, or shows the registration failure message |
| `Seller.SellerPage.RegisterAnother` | src/app/seller/page.tsx:148-160 | the page goes back to unregistered with the all-empty profile |
| `Export.ProfileRows` | src/app/api/exportProfile/route.ts:27-39 | the Profile sheet is the `Field`/`Value` header followed by exactly ten two-cell rows labelled First Name through Total Orders, in that order |
| `Export.ProfileSheetRoundTrip` | src/app/api/exportProfile/route.ts:27-39 | looking each label up in the Profile sheet returns the record's value for it, and the Total Orders cell parses back to the order count |
| `Export.ListRows` | src/app/api/exportProfile/route.ts:55-58 | a list sheet is its header row followed by one row per item, row i + 1 being exactly the single cell `items[i]` |
| `Export.ListSheetRoundTrip` | src/app/api/exportProfile/route.ts:54-73 | reading a Preferences or Favorites sheet back below its header gives the original list, in its original order |
| `Export.SummaryRows` | src/app/api/exportProfile/route.ts:76-90 | the Summary sheet has 13 rows: the `Account Summary` title, a blank row, the eight account rows, a blank row and the export date and time, every labelled row holding a label and a value |
| `Export.SummarySheetRoundTrip` | src/app/api/exportProfile/route.ts:76-90 | looking each label up in the Summary sheet returns the value written for it: the full name, email, phone, full address, member-since date, order count, the two list counts and the two clock readings |
| `Export.FullAddress` | src/app/api/exportProfile/route.ts:82 | the full address ends with the zip code, and everything before its first comma is the street whenever the street has no comma |
| `Export.CountText` | src/app/api/exportProfile/route.ts:85-86 | a count cell is the decimal text of the list's length; an absent list is written as a length of 0 |
| `Export.CountTextRoundTrip` | src/app/api/exportProfile/route.ts:85-86 | the Summary count cells read back as the list lengths, and as 0 when a list is absent |
| `Export.FullNameSplits` | src/app/api/exportProfile/route.ts:79 | the Summary full name splits back into first and last name at its first space, whenever the first name has no space |
| `Export.Filename` | src/app/api/exportProfile/route.ts:107-109 | the file name is `profile_<first>_<last>_` followed by the longest start of the ISO timestamp that has no `T`, then `.xlsx` |
| `Export.FilenameDate` | src/app/api/exportProfile/route.ts:107-109 | the file name is `profile_<first>_<last>_<date>.xlsx`, where the date is the calendar part of the ISO timestamp |
| `Export.BuildWorkbook` | src/app/api/exportProfile/route.ts:24-99 | the appended workbook has 2 + [preferences non-empty] + [favorites non-empty] sheets: Profile first, Summary last, and Preferences and Favorites present exactly when their lists are non-empty, in that order; no sheet name repeats |
| `Export.Post` | src/app/api/exportProfile/route.ts:19-132 | status 200 exactly when the body is readable and carries an order count; the response then has the spreadsheet content type, the attachment disposition naming the file, and the workbook above; otherwise it is the 500 `Failed to export profile data` error |
| `Export.Get` | src/app/api/exportProfile/route.ts:135-143 | `GET` always answers 200 with the usage message |
| `Profile.Set` | src/app/profile/page.tsx:53-59 | the spread update changes exactly the named field; the preferences, member-since date, order count and favorites keep their values |
| `Profile.ToRecord` | src/app/profile/page.tsx:117 | the JSON the page posts carries both lists and the order count, so the route never takes its error branch for a body the page sent |
| `Profile.DownloadName` | src/app/profile/page.tsx:131 | the page names the download exactly as the route names the file, for the same clock reading |
| `Profile.ProfilePage.constructor` | src/app/profile/page.tsx:27-51 | the page opens not editing, saving or exporting, with no messages, and with both copies equal to the initial profile |
| `Profile.ProfilePage.StartEditing` | src/app/profile/page.tsx:168 | the Edit Profile button turns editing on |
| `Profile.ProfilePage.HandleInputChange` | src/app/profile/page.tsx:53-59 | only the working copy changes, in one field, and the error is cleared; the committed profile is untouched |
| `Profile.ProfilePage.SetNewPreference` | src/app/profile/page.tsx:303 | the preference input box holds the typed text |
| `Profile.ProfilePage.AddPreference` | src/app/profile/page.tsx:61-69 | the working copy's preferences and the input box follow `Tags.Add`; the committed profile is untouched |
| `Profile.ProfilePage.RemovePreference` | src/app/profile/page.tsx:71-76 | the working copy's preferences follow `Tags.Remove`; the committed profile is untouched |
| `Profile.ProfilePage.HandleSave` | src/app/profile/page.tsx:78-99 | saving always ends with saving off; a completed save commits the working copy, stops editing and shows the success message, and a failed one keeps the committed profile and shows the save error |
| `Profile.ProfilePage.HandleCancel` | src/app/profile/page.tsx:101-105 | the working copy becomes the committed profile again, editing stops and the error is cleared |
| `Profile.ProfilePage.ClearSuccessMessage` | src/app/profile/page.tsx:92 | the success-message timer hides the message |
| `Profile.ProfilePage.HandleExportToExcel` | src/app/profile/page.tsx:107-145 | the page posts the committed profile, not the working copy; the route answers 200 with the profile workbook; the download gets the name built from the committed profile, which is the route's own file name when both clocks agree; a network failure gives no download and the export error |
| `Profile.EditThenCancel` | src/app/profile/page.tsx:53-105 | editing a field and then cancelling leaves the committed profile and the working copy both equal to the initial profile |
| `Profile.EditThenSave` | src/app/profile/page.tsx:53-99 | an edit stays out of the committed profile until save; a completed save commits exactly that one change, and a failed one commits nothing |
| `CartStore.Cart.constructor` | src/app/cart/page.tsx:12 | the store starts publishing the given items, with no request made yet |
| `CartStore.Cart.AddItem` | src/app/shop/page.tsx:138-143 | an `addItem` request is recorded after all earlier requests |
| `CartStore.Cart.UpdateQuantity` | src/app/cart/page.tsx:18 | an `updateQuantity` request is recorded after all earlier requests |
| `CartStore.Cart.RemoveItem` | src/app/cart/page.tsx:162 | a `removeItem` request is recorded after all earlier requests |
| `CartStore.Cart.ClearCart` | src/app/cart/page.tsx:95 | a `clearCart` request is recorded after all earlier requests |
| `Shop.FilteredProducts` | src/app/shop/page.tsx:120-126 | the shown products are an order-preserving subsequence of the catalogue, made of exactly the products that match both the search and the category, each with all its occurrences |
| `Shop.EmptySearchShowsAll` | src/app/shop/page.tsx:121-124 | with an empty search term and the "all" category, every product is shown, in order |
| `Shop.SearchIgnoresCase` | src/app/shop/page.tsx:121-123 | typing the search term in lower case shows the same products as typing it in any case |
| `Shop.CategoryNarrows` | src/app/shop/page.tsx:124 | picking a category never shows a product that the "all" category hides |
| `Shop.IsInCart` | src/app/shop/page.tsx:149-151 | a product is in the cart exactly when some cart line carries its id |
| `Shop.Payload` | src/app/shop/page.tsx:136-141 | the item sent to `addItem` carries the product's id, name, price and farm name |
| `Shop.GetCartQuantity` | src/app/shop/page.tsx:149-156 | the quantity is 0 when no cart line has the id, and otherwise that of the first line that has it |
| `Shop.ShopPage.constructor` | src/app/shop/page.tsx:22-25 | the page starts with an empty search, the "all" category and not loading |
| `Shop.ShopPage.SetSearchTerm` | src/app/shop/page.tsx:188 | the search box holds the typed text |
| `Shop.ShopPage.SelectCategory` | src/app/shop/page.tsx:198 | the selected category is the one clicked |
| `Shop.ShopPage.HandleAddToCart` | src/app/shop/page.tsx:128-147 | an out-of-stock product changes nothing; an in-stock one ends not loading and, unless the wait throws, makes exactly one `addItem` request with the product's id, name, price and farm name |
| `FindFarms.SearchResults` | src/app/find-farms/page.tsx:83-88 | the results are an order-preserving subsequence of the catalogue, made of exactly the farms the filter predicate keeps, each with all its occurrences |
| `FindFarms.FarmMatches` | src/app/find-farms/page.tsx:83-88 | a farm matches exactly when its location or name contains the lower-cased query, the query contains "all", or the query is blank |
| `FindFarms.BlankDisjunctIsDead` | src/app/find-farms/page.tsx:71-88 | for any query that gets past the blank guard, the `trim() === ""` disjunct never decides the result; the location, name and "all" tests alone give the same farms |
| `FindFarms.AllWildcardShowsEverything` | src/app/find-farms/page.tsx:86 | a query containing "all" anywhere, in any letter case, shows every farm |
| `FindFarms.NameSearchFindsFarm` | src/app/find-farms/page.tsx:85 | any query that lower-cases to the same text as a farm's name (the full name typed in any letter case) finds that farm |
| `FindFarms.FindFarmsPage.constructor` | src/app/find-farms/page.tsx:21-24 | the page starts with an empty query and no results, not loading and not yet searched |
| `FindFarms.FindFarmsPage.SetSearchLocation` | src/app/find-farms/page.tsx:133 | the search box holds the typed text |
| `FindFarms.FindFarmsPage.HandleSearch` | src/app/find-farms/page.tsx:70-97 | a blank query leaves the loading flag, the searched flag and the results unchanged; any other query marks the page searched and ends not loading, with the results for that query, or none on the error path |
| `FindFarms.FindFarmsPage.Reset` | src/app/find-farms/page.tsx:228-232 | "Try Another Search" clears the query, the searched flag and the results |
| `Cart.QuantityFromInput` | src/app/cart/page.tsx:135 | `parseInt(text)` or else 1 is never 0: NaN and 0 become 1, and any other parsed number passes through |
| `Cart.TypedCountIsRequested` | src/app/cart/page.tsx:135 | typing a positive count into the box requests exactly that count |
| `Cart.MinusRequest` | src/app/cart/page.tsx:127-128 | the minus button requests something exactly when the quantity is above 1, and what it requests is one less, so never less than 1 |
| `Cart.CartPage.constructor` | src/app/cart/page.tsx:13-14 | the page starts not checking out and with no completed checkout |
| `Cart.CartPage.HandleQuantityChange` | src/app/cart/page.tsx:16-19 | a negative quantity is dropped; every quantity of 0 or more, 0 included, reaches `updateQuantity` unchanged |
| `Cart.CartPage.QuantityTyped` | src/app/cart/page.tsx:135 | typed text reaches the store as `parseInt(text)` or else 1 when that is positive, and is dropped when it is negative |
| `Cart.CartPage.MinusPressed` | src/app/cart/page.tsx:127-128 | at quantity 1 or less nothing is requested; above it, one `updateQuantity` for one less |
| `Cart.CartPage.PlusPressed` | src/app/cart/page.tsx:142 | the plus button requests the quantity plus one |
| `Cart.CartPage.RemovePressed` | src/app/cart/page.tsx:162 | the Remove button requests `removeItem` for that line's id |
| `Cart.CartPage.ClearPressed` | src/app/cart/page.tsx:95 | the Clear Cart button requests `clearCart` |
| `Cart.CartPage.HandleCheckout` | src/app/cart/page.tsx:21-35 | checking out an empty cart changes nothing; otherwise checkout ends not checking out, and a completed checkout marks success and requests `clearCart`, while a failed one leaves the cart alone |

## Left out

- The cart store's reducer (`src/lib/cartContext`) is not part of this model. Its operations are recorded as requests only, and nothing is claimed about how they change the published items.
- CartStore.Cart.AddItem, CartStore.Cart.UpdateQuantity, CartStore.Cart.RemoveItem and CartStore.Cart.ClearCart state only that the request is logged, not its effect on `items`, because that effect is defined in the store, which is not part of this model.
- `src/app/page.tsx` and `src/app/layout.tsx` are left out. They are static navigation and provider wiring, and their only state is a menu toggle.
- JSX rendering, CSS classes, display text and pluralisation are left out. The `disabled` attributes appear only where they decide which request is made (the minus button).
- Simulated latency (`setTimeout`, awaited promises) is left out. Each async handler is one atomic step, so overlapping clicks and the disabled-while-loading buttons are not modelled.
- The three-second timers that hide the success message are modelled as a separate step (`ClearSuccessMessage`) that the model never schedules.
- Money arithmetic is floating point and is left out: line totals, the 8% tax, `toFixed(2)`. Prices are carried as opaque `real` values.
- `fetch`, the response blob, the object URL and the DOM anchor click in `handleExportToExcel` are left out. The model passes the request straight to the route model, and a `networkFails` flag stands for any of them throwing.
- The XLSX library is left out: the workbook byte encoding, `!cols` column widths, `Content-Length`, and the `NextRequest`/`NextResponse` plumbing. A sheet is its name and its rows of string cells.
- `toLocaleDateString`, `toLocaleTimeString` and `toISOString` are left out. Their results are parameters; the page and the route take separate clock readings.
- Text.ToLower: lower-cases ASCII letters only; the full Unicode case mapping of `toLowerCase` is not modelled.
- Text.ParseInt: its own contract states only when the result is NaN. The value read is pinned down by `Text.ParseIntOfIntToString` for the texts `toString` produces, not for arbitrary text.
- Text.ParseIntOfIntToString: treats numbers as unbounded integers; `Number` precision beyond 2^53, fractional values and exponent notation are not modelled.
- Export.Post: the 500 response's `message` field (the thrown error's text) is not modelled; only the status and the `error` string are.
- Export.Post: a body whose text fields are missing or not strings is modelled only by its strings, so the route's rendering of absent fields as `undefined` is not captured. Only an absent `totalOrders` is modelled as throwing, and a non-integral one is not modelled.
- The profile page's `isLoading` state is declared but never set, and is left out.
- `console.log` and `console.error` calls are left out.
- The mock farm, product and profile data are left out. Each appears in the model as a parameter.
- The checkout-success screen and its "Continue Shopping" link are rendering only, and are left out.
