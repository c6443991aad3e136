# Perfume store core, modelled in Dafny

The system is a small Next.js storefront for a perfume shop. It has a static catalog of
products, and each product has up to three bottle sizes. The code modelled here covers:

- the customer side:
  - the home page's search, featured strip and category sections;
  - the product card and the product details modal, with size-based pricing, the image
    fallbacks and the fragrance-note parser;
  - the shopping cart context, which is kept in local storage;
  - the cart drawer's checkout form;
- the order intake route and the Mongoose order schema;
- the admin side:
  - the password login and its session cookie;
  - the route guard (middleware);
  - the paged order listing route;
  - the order card's status buttons;
  - the dashboard: filters, paging, the page-number bar, the statistics strip and revenue;
- the older copies of the home page and the details modal kept under `backup/pageA`.

Each module follows one source file. The pure parts are functions with lemmas about them:

- filters and sorts;
- parsers;
- the schema;
- routing decisions;
- pricing.

The React components and the cart context change state in place, so they are classes:

- `Cart.CartStore`;
- `CartDrawer.Drawer`;
- `ProductDetails.DetailsModal` and `BackupDetails.BackupModal`;
- `ProductCard.Card`;
- `OrderCard.Card`;
- `Dashboard.Page`;
- `Orders.OrderStore`;
- `Session.Jar`.

Each state-changing method states the whole new state in terms of the old one. The
`useEffect` hooks that fire after a state change are folded into the method that causes
them. Examples: saving to local storage, resetting the modal's size selection, resetting
the card's image.

The world outside the code becomes parameters:

- the clock (`now`);
- whether the database connection succeeds (`connected`);
- the answer `fetch` gets back (`FetchResult`, `Reply`);
- the browser's window width;
- the answer to a confirmation dialog;
- the locale string order (`localeLe`).

Modules:

- `Wrappers`, `Seqs` and `Text` are shared helpers. They hold Option/Result, filtering and
  a stable insertion sort, and the JavaScript string operations the code uses (`trim`,
  `/\s+/g` removal, `toLowerCase`, `includes`, `startsWith`, `parseInt`, `Number`).
- `Catalog` holds the 36 catalog products as data, with their categories.
- `Pricing` holds `getVolumePrice`.
- `FragranceNotes` holds the note parser that the card and the modal share.

Some behaviour that the model makes visible:

- The catalog's note strings are labelled "Top:", "Middle:" and "Base:". The parser looks
  for `heart`, not `middle`. So for every catalog product the labelled branch fills the top
  and base tiers and leaves the heart tier empty.
- The backup modal adds the 50ml base price to the cart whatever size is chosen
  (`BackupDetails.BackupUndercharges100ml`). The current modal prices the chosen size.
- The schema trims the contact fields before it checks that they are present. So a
  white-space-only name passes the route's own check and then fails in the schema, which
  the route answers with a 500 (`OrderIntake.BlankNameIsServerError`).
- A total sent as text is coerced the JavaScript way. `"5"` passes and is stored as 5, while
  `"0"`, `"-5"` and `[]` are refused (`OrderIntake.NumericTextTotal`,
  `OrderIntake.EmptyArrayTotalRefused`).
- `parseInt` without a radix reads hexadecimal, so `?page=0x2` lists page 2
  (`AdminOrders.HexPageRead`).
- A password sent as the array `["abc"]` is compared as `"abc"`
  (`AdminLogin.ArrayPasswordAccepted`).

## Model

| member | source | states |
|---|---|---|
| Cart.NewLine | contexts/CartContext.tsx:76-84 | the appended line carries exactly the selection, with quantity 1 and the same (product, volume) key |
| Cart.FindLine | contexts/CartContext.tsx:63-67 | the index found is the first line whose product and volume both match; no index means no line matches |
| Cart.AddExisting | contexts/CartContext.tsx:60-75 | adding a selection already held adds one unit to the first matching line, with the same length and the other lines untouched |
| Cart.AddNew | contexts/CartContext.tsx:76-84 | adding a selection not held appends exactly one line made from it, with quantity 1 |
| Cart.AddKeepsUniqueKeys | contexts/CartContext.tsx:60-86 | the cart keeps at most one line per (product, volume) pair |
| Cart.AddKeepsUniqueIds | contexts/CartContext.tsx:76-84 | line ids stay unique when the clock-based id is not already used |
| Cart.TotalItemsConcat | contexts/CartContext.tsx:106-108 | the item total of two lists joined is the sum of their totals |
| Cart.TotalPriceConcat | contexts/CartContext.tsx:102-104 | the price total of two lists joined is the sum of their totals |
| Cart.TotalsOfReplace | contexts/CartContext.tsx:102-108 | replacing one line changes both totals by exactly that line's difference |
| Cart.AddTotals | contexts/CartContext.tsx:60-86 | every add raises the item count by one, and the total price by the held line's price or, for a new line, by the selection's price |
| Cart.Remove | contexts/CartContext.tsx:88-90 | no remaining line has the id, and every line with another id stays |
| Cart.RemoveAbsent | contexts/CartContext.tsx:88-90 | removing an id that is not present changes nothing |
| Cart.RemovePresent | contexts/CartContext.tsx:88-90 | with unique ids, removing a present id drops exactly that one line |
| Cart.RemoveOrder | contexts/CartContext.tsx:88-90 | removal distributes over concatenation, so the kept lines keep their order |
| Cart.Update | contexts/CartContext.tsx:92-96 | a quantity update sets the quantity of the lines with the id, without clamping it, and changes nothing else |
| Cart.EmptyTotals | contexts/CartContext.tsx:98-108 | the cleared cart has price and item totals 0 |
| Cart.CartStore.constructor | contexts/CartContext.tsx:32-33 | the first render has an empty cart that is not yet hydrated, with storage untouched |
| Cart.CartStore.Hydrate | contexts/CartContext.tsx:36-58 | a saved list replaces the cart, the cart is hydrated, and storage holds the current list |
| Cart.CartStore.Persist | contexts/CartContext.tsx:50-58 | storage is written only after hydration, and then holds the current list |
| Cart.CartStore.AddToCart | contexts/CartContext.tsx:60-86 | the lines become the add transform of the old lines, and are saved only once hydrated |
| Cart.CartStore.RemoveFromCart | contexts/CartContext.tsx:88-90 | the lines become the old lines without the id, and are saved only once hydrated |
| Cart.CartStore.UpdateCartItem | contexts/CartContext.tsx:92-96 | the lines become the old lines with the update merged, and are saved only once hydrated |
| Cart.CartStore.ClearCart | contexts/CartContext.tsx:98-100 | the cart becomes empty, and storage holds the empty list once hydrated |
| CartDrawer.QuantityChangeKeepsPositive | components/CartDrawer.tsx:68-74 | with positive quantities before, they stay positive; a quantity below 1 removes the line, and any other sets it; the copy at backup/pageA/components/CartDrawer.tsx:66-72 behaves the same |
| CartDrawer.PayloadProducts | components/CartDrawer.tsx:99-117 | one payload entry per cart line, in order, each a snapshot of its line under the product id |
| CartDrawer.TotalPricePositive | components/CartDrawer.tsx:99-117 | a non-empty cart of positively priced lines has a positive total |
| CartDrawer.PayloadPassesChecks | components/CartDrawer.tsx:83-117 | a payload the drawer sends passes all three of the order route's checks |
| CartDrawer.FeedbackNeverBlank | components/CartDrawer.tsx:126-133 | whatever the server sends, the error or success message shown is never empty |
| CartDrawer.Drawer.constructor | components/CartDrawer.tsx:30-34 | the form starts empty, not submitting, with no message |
| CartDrawer.Drawer.HandleQuantityChange | components/CartDrawer.tsx:68-74 | the cart lines become the quantity transform of the old lines, and are saved once hydrated |
| CartDrawer.Drawer.HandleSubmit | components/CartDrawer.tsx:76-152 | a missing contact field or an empty cart sends nothing; otherwise the payload is sent; the cart and the form are cleared exactly on success; each failure shows its message; submitting ends off; the copy at backup/pageA/components/CartDrawer.tsx:74-150 behaves the same |
| Catalog.FindProduct | components/ProductDetailsModal.tsx:39 | the product found is the first with the id; none means no product has it |
| Catalog.SizesStandard | data/products.ts:5-16 | the standard size lists are the 50ml list, the 50/100ml list and the 50/100/200ml list |
| Catalog.InCategory | app/page.tsx:85-89 | a category slice holds only products of that category, and is no longer than the list |
| Catalog.InCategoryOfCatalog | data/products.ts:26-432 | the catalog's category slices are exactly its five product lines |
| Catalog.CategoryCounts | data/products.ts:18-25 | the catalog holds 8 eau de parfum, 6 eau de toilette, 8 men's, 8 women's and 6 unisex products, 36 in all |
| Catalog.CatalogListed | data/products.ts:26-432 | every catalog product has a non-empty name, a positive price, a local image, no extra images and the two- or three-size list |
| Catalog.IdsDistinct | data/products.ts:26-432 | no two catalog products share an id |
| FragranceNotes.MatchAtShape | components/ProductCard.tsx:67-69 | a match at a position starts with the label, then a gap, a separator and a capture that holds no separator |
| FragranceNotes.MatchLeftmost | components/ProductCard.tsx:67-69 | the match found is the leftmost one, and no match means none anywhere |
| FragranceNotes.Parts | components/ProductCard.tsx:80 | the parts of the separator split are non-empty and trimmed |
| FragranceNotes.ParseEmpty | components/ProductCard.tsx:64 | missing or empty notes give three empty tiers; the copy at components/ProductDetailsModal.tsx:151 behaves the same |
| FragranceNotes.ParseLabelled | components/ProductCard.tsx:67-77 | a labelled text gives each tier the trimmed capture after its label, and an empty tier for a label not found; the copy at components/ProductDetailsModal.tsx:154-164 behaves the same |
| FragranceNotes.FromPartsShape | components/ProductCard.tsx:80-101 | the first three parts fill the tiers in order, and the count of tiers filled is the smaller of 3 and the number of parts |
| FragranceNotes.ParseUnlabelled | components/ProductCard.tsx:80-101 | an unlabelled text is split on separators and fills the tiers in order; the copy at components/ProductDetailsModal.tsx:167-188 behaves the same |
| FragranceNotes.ParseLabelledClean | components/ProductCard.tsx:67-77 | the labelled tiers are trimmed and hold no separator |
| FragranceNotes.ParseUnlabelledClean | components/ProductCard.tsx:80-101 | the unlabelled tiers are trimmed and hold no separator |
| FragranceNotes.ParseClean | components/ProductCard.tsx:63-102 | every tier the parser returns is trimmed and free of separators |
| Home.BeforeTotal | app/page.tsx:118-125 | the search comparator is a total preorder whenever the locale order is one |
| Home.NormalQueryBlank | app/page.tsx:93-102 | the search ends early exactly for an empty or white-space-only query, and otherwise the query is not empty |
| Home.SearchResults | app/page.tsx:92-128 | a blank query finds nothing; otherwise the results are a permutation of the matching products |
| Home.BlankQueryFindsNothing | app/page.tsx:93-100 | a white-space-only query finds nothing |
| Home.ResultsExactly | app/page.tsx:108-116 | a product is a result exactly when it is listed and its name or category label contains the query, and it appears as often as it is listed; the copy at backup/pageA/app/page.tsx:106-114 behaves the same |
| Home.ResultsSorted | app/page.tsx:118-125 | the results are in comparator order |
| Home.PrefixFirst | app/page.tsx:118-125 | names that start with the query come before those that do not, and follow the locale order within each group; the copy at backup/pageA/app/page.tsx:116-123 behaves the same |
| Home.FeaturedExactly | app/page.tsx:82 | the featured strip is the first eight featured products in catalog order, or all of them when there are fewer; the copy at backup/pageA/app/page.tsx:80 behaves the same |
| Home.CategoriesPartition | app/page.tsx:85-89 | the five category slices together hold each product exactly as often as the list does |
| Home.SectionsPartition | app/page.tsx:920 | the four page sections, with men's and unisex merged, also partition the list |
| Home.CatalogPricesShown | app/page.tsx:76-79 | every catalog product's price passes the guard and is shown unchanged; the copy at backup/pageA/app/page.tsx:74-77 behaves the same |
| BackupHome.Sections | backup/pageA/app/page.tsx:83-87 | five sections, each holding only products of its own category |
| BackupHome.SectionsPartition | backup/pageA/app/page.tsx:83-87 | the five sections together hold each product exactly as often as the list does |
| BackupHome.SectionsMerged | app/page.tsx:920 | the current page's sections are the backup's, with the men's and unisex sections joined |
| ImageUtils.CategoryFallback | lib/imageUtils.ts:12-20 | the fallback is a remote photo: the category's own when there is one, the default otherwise |
| ImageUtils.FallbackOfCategory | lib/imageUtils.ts:12-18 | each of the five category slugs has its own stock photo |
| ImageUtils.GetProductImage | lib/imageUtils.ts:5-21 | a path under /images/ is kept; anything else gets the category fallback; the result is never empty |
| ImageUtils.RemoteNotLocal | lib/imageUtils.ts:7-20 | a stock photo is never taken for a local path |
| ImageUtils.GetProductImageIdempotent | lib/imageUtils.ts:5-21 | resolving an image that is already resolved changes nothing |
| ImageUtils.CatalogImagesUnchanged | lib/imageUtils.ts:7-9 | every catalog product keeps its own local image |
| ImageUtils.EmptyPathFallsBack | lib/imageUtils.ts:7-20 | the empty path always gets the category fallback |
| Pricing.RoundDiv | components/ProductDetailsModal.tsx:100-105 | the result is the integer nearest to the quotient, with halves rounded up |
| Pricing.MlPriceOfZero | components/ProductDetailsModal.tsx:98-105 | every size of a free product is free |
| Pricing.ParseMlOfLabel | components/ProductDetailsModal.tsx:98 | a label "<n>ml" parses back to n |
| Pricing.VolumePriceWithoutVolume | components/ProductDetailsModal.tsx:96 | a missing or empty volume, or a zero base price, gives the base price |
| Pricing.PriceByMl | components/ProductDetailsModal.tsx:98-106 | a labelled volume is priced by the millilitres it parses to |
| Pricing.Price50 | components/ProductDetailsModal.tsx:99 | 50ml costs the base price |
| Pricing.Price100 | components/ProductDetailsModal.tsx:100 | 100ml costs 1.8 times the base price, rounded |
| Pricing.Price200 | components/ProductDetailsModal.tsx:101 | 200ml costs 3.2 times the base price, rounded |
| Pricing.VolumeDiscounts | components/ProductDetailsModal.tsx:92-101 | for a positive base, a larger bottle costs more and costs less per millilitre |
| ProductDetails.ListedVolume | data/products.ts:26-432 | every catalog size is 50ml, 100ml or 200ml |
| ProductDetails.CatalogVolumesPriced | components/ProductDetailsModal.tsx:94-107 | every size a catalog product offers has a positive price |
| ProductDetails.CurrentPriceOfCatalogProduct | components/ProductDetailsModal.tsx:110-114 | with nothing selected a catalog product shows its base price; otherwise it shows the selected size's price |
| ProductDetails.AddDistinct | components/ProductDetailsModal.tsx:69-76 | adding images keeps the images already collected, in order, as a prefix |
| ProductDetails.AddDistinctSpec | components/ProductDetailsModal.tsx:69-76 | the list stays duplicate-free and holds exactly the old and the added images |
| ProductDetails.ImageListShape | components/ProductDetailsModal.tsx:60-90 | the base image comes first; there are one to four images; without extras the base is shown four times; with extras every image is the base or an extra, none twice, and every extra is shown while there is room; the copy at backup/pageA/components/ProductDetailsModal.tsx:58-81 behaves the same |
| ProductDetails.BuildImages | components/ProductDetailsModal.tsx:60-90 | the loop builds exactly the image list |
| ProductDetails.KeysApart | components/ProductDetailsModal.tsx:294-348 | a slide's failure and a thumbnail's failure are remembered under different keys |
| ProductDetails.ShownImage | components/ProductDetailsModal.tsx:277-293 | a failed image shows the remote fallback; otherwise the image itself is shown; never the empty source |
| ProductDetails.Lookup | components/ProductDetailsModal.tsx:39 | no product for a missing or empty id; a product found is listed under that id; none found means no product has the id |
| ProductDetails.EffectSelectsVolume | components/ProductDetailsModal.tsx:117-126 | an open modal on a catalog product always has a size selected |
| ProductDetails.EffectKeepsPrice | components/ProductDetailsModal.tsx:110-126 | the price shown before the effect selects the first size equals the price shown after it |
| ProductDetails.DetailsModal.constructor | components/ProductDetailsModal.tsx:35-37 | the modal starts closed, with no product, no selection and no image errors |
| ProductDetails.DetailsModal.Receive | components/ProductDetailsModal.tsx:117-133 | new props select the looked-up product, run the volume effect, and clear the image errors when the product changes or the modal closes |
| ProductDetails.DetailsModal.SelectVolume | components/ProductDetailsModal.tsx:455 | a size click selects the size while the modal is open, and changes nothing else |
| ProductDetails.DetailsModal.ImageFailed | components/ProductDetailsModal.tsx:294 | a failure adds its key to the remembered errors, and changes nothing else |
| ProductDetails.DetailsModal.HandleAddToCart | components/ProductDetailsModal.tsx:193-214 | it warns, without touching the cart, when sizes exist but none is chosen; otherwise it adds the product at the chosen size's price |
| ProductDetails.FirstSizeAdded | components/ProductDetailsModal.tsx:193-210 | a freshly opened catalog product selects 50ml, and adding it uses 50ml at the base price |
| ProductDetails.OpenThenAdd | components/ProductDetailsModal.tsx:117-214 | opening a catalog product and adding it straight away adds the 50ml size at the base price |
| ProductCard.PrimaryImage | components/ProductCard.tsx:27-30 | a local image is kept, anything else becomes a remote fallback, and the result is never empty |
| ProductCard.CardMatchesModal | components/ProductCard.tsx:27-30 | the card shows the modal's first slide |
| ProductCard.CatalogCardImage | components/ProductCard.tsx:27-30 | a catalog card shows the catalog's own image path |
| ProductCard.Card.constructor | components/ProductCard.tsx:32-33 | the card starts on the primary image, with no error |
| ProductCard.Card.Receive | components/ProductCard.tsx:35-39 | the image resets only when the primary image changes |
| ProductCard.Card.HandleImageError | components/ProductCard.tsx:53-60 | the first failure switches to the remote category fallback, and later ones change nothing |
| ProductCard.FailTwice | components/ProductCard.tsx:53-60 | after two failures the card shows the category fallback, not its local image |
| Orders.ParseStatus | models/Order.ts:41-45 | a string is accepted exactly when it is the spelling of a status, and then that status is returned |
| Orders.ParseStatusName | models/Order.ts:41-45 | each status's spelling parses back to it |
| Orders.StatusNameInjective | models/Order.ts:43 | the four spellings are distinct |
| Orders.Apply | models/Order.ts:3-54 | the schema accepts exactly the drafts with non-blank trimmed contact fields, a known status or none; a stored order holds the trimmed fields and the default status |
| Orders.ApplyStable | models/Order.ts:3-54 | applying the schema to a stored order's fields again gives the same fields |
| Orders.BlankContactRefused | models/Order.ts:6-20 | a white-space-only contact field is refused |
| Orders.OrderStore.constructor | models/Order.ts:52 | the collection starts empty |
| Orders.OrderStore.Create | app/api/orders/route.ts:38-46 | the schema is applied, and the order is appended exactly when the schema accepts it |
| OrderIntake.Check | app/api/orders/route.ts:16-35 | the first failing check in the handler's order, each refusal exactly under its condition; the total test coerces as JavaScript does, so a numeric text or an array is read through `Number` and a value that reads as NaN is not refused there |
| OrderIntake.ChecksPass | app/api/orders/route.ts:16-35 | non-empty string contact fields, a non-empty product list and a positive total pass every check |
| OrderIntake.DraftOf | app/api/orders/route.ts:38-46 | the draft is given status new and always has notes |
| OrderIntake.ProductsOf | models/Order.ts:23-34 | the products array is stored exactly when every element is an object, and then as those objects' product fields, one for one and in order |
| OrderIntake.ProductsOfObjects | app/api/orders/route.ts:42 | an array of product objects is stored as exactly those products |
| OrderIntake.NumericTextTotal | app/api/orders/route.ts:30-43 | a total sent as the text of an integer is read as that integer by the check and by the schema: "5" passes and is stored as 5, "0" and "-5" are refused |
| OrderIntake.EmptyArrayTotalRefused | app/api/orders/route.ts:30-35 | an empty array total reads as 0 and is refused |
| OrderIntake.Post | app/api/orders/route.ts:9-63 | 201 with the new id exactly when the database is reached, the checks pass and the schema accepts, and the order is appended; 400 with the check's message exactly when a check fails; otherwise 500; the store changes only on 201 |
| OrderIntake.CreatedIsNew | app/api/orders/route.ts:44 | a created order is new, whatever status the body carried |
| OrderIntake.CreatedKeepsTotal | app/api/orders/route.ts:42-43 | the stored total is the submitted value as the schema casts it, not recomputed from the products, and the stored products are the submitted objects, in order |
| OrderIntake.DraftCarries | app/api/orders/route.ts:42-43 | the draft carries the schema's casts of the submitted total and products |
| OrderIntake.ApplyCarries | models/Order.ts:23-40 | the schema keeps the draft's total and products |
| OrderIntake.CreatedTrimmed | app/api/orders/route.ts:39-45 | the stored contact fields and notes are the trimmed submitted strings |
| OrderIntake.BlankNameIsServerError | app/api/orders/route.ts:16-46 | a white-space-only name passes the checks but the schema refuses it |
| AdminLogin.Clean | app/api/admin/login/route.ts:32-33 | the cleaned password is the input without its white space, so it has no white space |
| AdminLogin.CleanIdempotent | app/api/admin/login/route.ts:32-33 | cleaning twice is cleaning once |
| AdminLogin.CleanIgnoresSpace | app/api/admin/login/route.ts:32-35 | white space anywhere in a password does not change the comparison |
| AdminLogin.SpacedPasswordMatches | app/api/admin/login/route.ts:32-35 | "ab c" cleans to the same string as "abc" |
| AdminLogin.ArrayPasswordAccepted | app/api/admin/login/route.ts:11-35 | a one-element array holding the password passes the presence check and compares as the password itself |
| AdminLogin.Login | app/api/admin/login/route.ts:8-76 | a body that does not parse gives 500; a falsy password gives 400; a missing or empty secret gives 500; equal cleaned strings set the session cookie, or give 500 when the cookie store fails; a mismatch gives 401; the cookies change only on success |
| AdminLogin.SpacedEntryAccepted | app/api/admin/login/route.ts:11-35 | a password with white space added still passes the presence check and cleans the same |
| AdminLogin.LoginIgnoresSpaces | app/api/admin/login/route.ts:32-49 | a password that differs only in white space logs in and authenticates the session |
| Session.SessionCookie | app/api/admin/login/route.ts:38-44 | the cookie is admin_session=authenticated, httpOnly, sameSite lax, for seven days on path /, and secure only in production |
| Session.Jar.Set | app/api/admin/login/route.ts:38 | the new cookie replaces any earlier one of its name |
| Middleware.ApiNotAdmin | middleware.ts:10-12 | no path is both an API route and an admin route |
| Middleware.ApiAlwaysPasses | middleware.ts:15-17 | API routes always pass, whatever the session |
| Middleware.ToLoginExactly | middleware.ts:20-27 | the guard redirects to the login page exactly for an admin page other than the login page without an authenticated session, and carries the path as the redirect |
| Middleware.ToDashboardExactly | middleware.ts:30-32 | the guard sends to the dashboard exactly the signed-in admin asking for the login page |
| Middleware.AdminPagesGuarded | middleware.ts:20-27 | an admin page other than the login page is let through only with an authenticated session |
| Middleware.PublicPagesPass | middleware.ts:8-35 | pages outside /admin always pass |
| AdminOrders.StatusFilter | app/api/admin/orders/route.ts:28-31 | only a parameter that names a status filters, and by that status |
| AdminOrders.Selected | app/api/admin/orders/route.ts:34 | the selection is no longer than the store |
| AdminOrders.Newest | app/api/admin/orders/route.ts:35 | sorting keeps the same orders, as a permutation |
| AdminOrders.Window | app/api/admin/orders/route.ts:36-37 | a page exists exactly when the skip is not negative |
| AdminOrders.TotalPages | app/api/admin/orders/route.ts:49 | the page count is defined exactly for a non-zero limit, and for a positive one it is the smallest that covers the total |
| AdminOrders.List | app/api/admin/orders/route.ts:10-59 | 401 without the session; 500 without the database, for an unparsable number, or for a negative skip; otherwise the newest-first window of the selection, with its total and page count |
| AdminOrders.Defaults | app/api/admin/orders/route.ts:25-26 | without parameters the limit is 50, the page is 1, and nothing is filtered |
| AdminOrders.DefaultUsed | app/api/admin/orders/route.ts:25-26 | a missing parameter reads as its fallback number |
| AdminOrders.GivenUsed | app/api/admin/orders/route.ts:25-26 | a parameter holding the decimal spelling of a number reads as that number, and an empty one as the fallback |
| AdminOrders.HexPageRead | app/api/admin/orders/route.ts:26 | `page=0x2` reads as page 2, since `parseInt` without a radix reads hexadecimal |
| Text.ParseIntReadsDecimal | app/api/admin/orders/route.ts:25-26 | after white space and an optional sign, `parseInt` reads the decimal digits up to the first non-digit, negated after a minus; also used at components/ProductDetailsModal.tsx:98 |
| Text.ParseIntReadsHex | app/api/admin/orders/route.ts:25-26 | after the sign, `0x` or `0X` makes `parseInt` read the hexadecimal digits that follow |
| Text.ParseIntOfIntToString | app/api/admin/orders/route.ts:25-26 | `parseInt(String(n))` is n for every integer |
| Text.NumberOfIntToString | app/api/orders/route.ts:30 | `Number(String(n))` is n for every integer |
| Text.NumberAgreesWithParseInt | app/api/orders/route.ts:30 | wherever `Number` reads non-blank text as a number, `parseInt` reads the same number |
| AdminOrders.UnknownStatusListsAll | app/api/admin/orders/route.ts:28-31 | a parameter that names no status lists every order |
| AdminOrders.SelectedExactly | app/api/admin/orders/route.ts:28-34 | the selection holds exactly the stored orders with the status, each as often as it is stored |
| AdminOrders.NewestSorted | app/api/admin/orders/route.ts:35 | the sorted orders are newest first |
| AdminOrders.WindowIsSlice | app/api/admin/orders/route.ts:33-38 | a page is the slice of the sorted orders from the skip on, at most the limit long |
| AdminOrders.PageSorted | app/api/admin/orders/route.ts:34-38 | a listed page is newest first |
| AdminOrders.PageMatches | app/api/admin/orders/route.ts:34-38 | a listed page holds only stored orders with the filtered status |
| AdminOrders.PastEndEmpty | app/api/admin/orders/route.ts:36 | a page that starts past the end is empty |
| AdminOrders.PageFilledIff | app/api/admin/orders/route.ts:33-49 | a page has orders exactly when its number is at most the page count |
| AdminOrders.ListAfterLogin | app/api/admin/orders/route.ts:12-51 | after a login, the default listing is the 50 newest orders, with the store's total |
| OrderCard.StatusButtons | components/OrderCard.tsx:85-139 | the buttons built are exactly the moves offered for the status |
| OrderCard.TerminalIffNoButtons | components/OrderCard.tsx:85-139 | a status offers no buttons exactly when it is terminal, and every other status offers to cancel |
| OrderCard.TransitionsMoveForward | components/OrderCard.tsx:85-139 | every offered move goes strictly forward, never to new and never to the current status |
| OrderCard.OfferedPathsAreShort | components/OrderCard.tsx:85-139 | any chain of offered moves is at most two long, and it ends confirmed or terminal |
| OrderCard.Card.constructor | components/OrderCard.tsx:44-45 | the card shows the order's status and is not loading |
| OrderCard.Card.HandleStatusChange | components/OrderCard.tsx:66-83 | an update is requested exactly for a different status, with a cancel confirmed; the shown status follows only a successful update; loading ends off |
| OrderCard.ClickOffered | components/OrderCard.tsx:85-139 | a click on an offered button that the server accepts moves the card strictly forward |
| Dashboard.QueryParams | app/admin/dashboard/page.tsx:45-52 | the query has a status only under a filter, and always ends with page and limit |
| Dashboard.Get | app/api/admin/orders/route.ts:24-26 | a value read is present under that name; nothing read means no parameter has that name |
| Dashboard.ReadQueryOf | app/api/admin/orders/route.ts:24-26 | the route reads a status only when the dashboard filters, and reads back the page and limit it sent |
| Dashboard.QueryReadBack | app/admin/dashboard/page.tsx:45-54 | the listing route reads back exactly the page, size and filter that the dashboard sent |
| Dashboard.SetStatus | app/admin/dashboard/page.tsx:89-93 | exactly the orders with the id get the status, and all else is kept |
| Dashboard.SetStatusOne | app/admin/dashboard/page.tsx:89-93 | with unique ids, a change replaces exactly one order |
| Dashboard.CountsAddUp | app/admin/dashboard/page.tsx:166-172 | the four status counters add up to the total |
| Dashboard.StatsAfterChange | app/admin/dashboard/page.tsx:89-93 | a change moves one order from its old counter to its new one |
| Dashboard.RevenueConcat | app/admin/dashboard/page.tsx:181-183 | the revenue of two lists joined is the sum of their revenues |
| Dashboard.RevenueAfterChange | app/admin/dashboard/page.tsx:181-183 | a change alters the revenue by exactly that order's share before and after |
| Dashboard.TotalPages | app/admin/dashboard/page.tsx:185 | at least one page; the pages cover the total, with no page to spare |
| Dashboard.TotalPagesAgree | app/admin/dashboard/page.tsx:185 | for a non-empty listing this is the route's own page count |
| Dashboard.NarrowNeedsMorePages | app/admin/dashboard/page.tsx:111-123 | the narrow page size never gives fewer pages than the wide one |
| Dashboard.ItemsExactly | app/admin/dashboard/page.tsx:376-388 | the bar shows a page button exactly for the shown pages, and an ellipsis exactly at a gap |
| Dashboard.PageBarButtons | app/admin/dashboard/page.tsx:363-388 | the same for the whole bar, pages 1 to the last, and no entry at all when there is only one page |
| Dashboard.ItemsIncreasing | app/admin/dashboard/page.tsx:376-388 | the entries run in increasing page order |
| Dashboard.PageBarEnds | app/admin/dashboard/page.tsx:363-388 | with one page no bar is drawn; otherwise the bar starts with page 1, ends with the last page, and shows the current page when it is in range |
| Dashboard.PageBarShort | app/admin/dashboard/page.tsx:363-388 | however many pages there are, the bar has at most seven entries |
| Dashboard.Page.constructor | app/admin/dashboard/page.tsx:34-40 | the page starts loading, on page 1 with four items per page, with no orders and zero counters |
| Dashboard.Page.Pages | app/admin/dashboard/page.tsx:185 | the page count is at least 1 |
| Dashboard.Page.FetchOrders | app/admin/dashboard/page.tsx:43-75 | a 401 sends the admin to the login page; a server or network failure shows its message and keeps the orders; a listing replaces the orders and the total, the total falling back to the page's length when it is 0; loading ends off; filter, page, size and counters are kept |
| Dashboard.Page.FetchAllStats | app/admin/dashboard/page.tsx:159-179 | the counters follow a successful listing, and nothing else changes |
| Dashboard.Page.HandleStatusChange | app/admin/dashboard/page.tsx:77-99 | the list changes only when the update succeeds, and a failure is rethrown |
| Dashboard.Page.Resize | app/admin/dashboard/page.tsx:111-123 | the items per page follow the width, and nothing else changes |
| Dashboard.Page.SelectFilter | app/admin/dashboard/page.tsx:125-127 | choosing another filter sets it and returns to page 1; choosing the current filter changes no state, so the effect does not run and the page stays (button at line 287) |
| Dashboard.Page.GoToPage | app/admin/dashboard/page.tsx:188-193 | only a page between 1 and the page count is taken |
| Dashboard.WindowListed | app/api/admin/orders/route.ts:33-40 | for a page of at least 1 and a non-negative size the route's window exists, so its answer is the listing of that window with the selection's size as the total |
| Dashboard.Request | app/admin/dashboard/page.tsx:45-54 | the query the page sends reads back as its own filter, page and size: signed out the answer is 401, not connected 500, otherwise exactly the listing of the newest-first window for the filter, page and size |
| Dashboard.Refresh | app/admin/dashboard/page.tsx:43-75 | a poll keeps the filter, page and size; signed in and connected it shows the newest-first window of the orders for them, with no error, and the selection's size as the total when it is not empty; signed out it sends the admin to the login page |
| Dashboard.ChangeFromCard | app/admin/dashboard/page.tsx:77-99 | a card that agreed with the list before a click agrees with it afterwards, and the list keeps its length |
| Dashboard.StatsRequest | app/admin/dashboard/page.tsx:162 | the `limit=1000` request: signed out 401, not connected 500, otherwise a listing of 1000 orders, or of as many as are stored when there are fewer, with every stored order counted in its total |
| Dashboard.RefreshStats | app/admin/dashboard/page.tsx:159-179 | signed in and connected, the counters count 1000 orders, or every stored order when there are fewer, and the four status counters add up to that total |
| Dashboard.StatsQueryReads | app/admin/dashboard/page.tsx:162 | the statistics request reads as limit 1000, page 1 and no status filter |
| BackupDetails.BackupVolume | backup/pageA/components/ProductDetailsModal.tsx:114 | the volume added is the selected one when there is one, and is never empty |
| BackupDetails.BackupUndercharges100ml | backup/pageA/components/ProductDetailsModal.tsx:104-122 | a catalog product's 100ml size costs more than the base price the backup adds |
| BackupDetails.BackupModal.constructor | backup/pageA/components/ProductDetailsModal.tsx:31-35 | the modal starts closed, with no product, no selection and no image errors |
| BackupDetails.BackupModal.Receive | backup/pageA/components/ProductDetailsModal.tsx:84-88 | new props select the looked-up product; the only effect clears the selection on close |
| BackupDetails.BackupModal.SelectVolume | backup/pageA/components/ProductDetailsModal.tsx:259 | a size click selects the size while the modal is open |
| BackupDetails.BackupModal.ImageFailed | backup/pageA/components/ProductDetailsModal.tsx:189 | a failure adds its key to the remembered errors |
| BackupDetails.BackupModal.HandleAddToCart | backup/pageA/components/ProductDetailsModal.tsx:104-122 | it warns when sizes exist but none is chosen; otherwise it adds the chosen size at the base price |
| BackupDetails.OpenThenAdd | backup/pageA/components/ProductDetailsModal.tsx:84-122 | the backup modal opened on a catalog product selects nothing, so adding at once only warns and leaves the cart unchanged |

## Left out

- I/O is not modelled: `fetch`, MongoDB and Mongoose, local storage and the cookie store. They become parameters (`connected`, `FetchResult`, `Reply`, `Saved`) or small state (`Session.Jar`, `Orders.OrderStore`).
- JSON parsing is not modelled: a body that does not parse is `None`.
- The middleware's `matcher` configuration is not modelled, and nor is the absolute redirect URL built with `new URL`. The decision is modelled on the path and the cookie value.
- Timers are not modelled: the dashboard's 5-second polling interval, the drawer's `setTimeout`s and the toast durations. A poll is one `Dashboard.Refresh` call.
- Toast messages and console logging are not modelled.
- `Intl.NumberFormat` currency formatting is not modelled; only `formatPrice`'s guard is.
- Floating point is not modelled. `Pricing.RoundDiv` is exact rounding of a rational, and `Math.round(x * 1.8)` is modelled as rounding `18x / 10`. Binary floating point can differ in the last place for some prices.
- `toLowerCase` is modelled on ASCII letters only, and the white-space set is a fixed list of characters. Full Unicode case mapping and the full JavaScript white-space set are not modelled.
- `localeCompare(…, 'en')` is a parameter (`localeLe`), assumed to be a total preorder.
- Orders with equal `createdAt` may come back in any order from the database. The model sorts them with a stable insertion sort.
- AdminOrders.List: a `limit` or `page` that parses to NaN reaches the database, which refuses it. The model answers 500 without modelling how MongoDB treats NaN.
- OrderIntake.Check: `Number` of text with a fraction or an exponent (`5.0`, `1e3`), of `Infinity` and of `0b` or `0o` literals is read as NaN, because the model's numbers are integers. Such a total passes the check and then fails the schema's cast, so the model answers 500 where the source may answer 400 or 201.
- OrderIntake.Post: an object in the products array is read through the schema's product fields only. A field of the wrong type is not modelled, and a `null` element is treated as a failed cast.
- ProductDetails.DetailsModal.HandleAddToCart: a size label that does not parse gives `getVolumePrice` a NaN price. The model adds that line at price 0, because cart prices are integers. Every catalog label parses (`ProductDetails.CatalogVolumesPriced`).
- AdminLogin.Login: the `debug` fields of the error responses are not modelled.
- The logout route is not modelled.
- The `PATCH /api/orders/[id]` route is not modelled. The dashboard's status update is given as the outcome `ok`.
- `checkImageExists` is not modelled: it only issues a network request.
- Descriptions, translations, layout, sitemap and styling are not modelled, and nor is the disabled state of buttons.
- `router.push` to the login page is modelled as the `sentToLogin` flag.
- Dashboard.TotalPages requires a positive page size. The page size is always 4 or 20 (`Dashboard.ItemsPerPage`).
- The backup `ProductCard` is not modelled. It differs from the current card only in markup.
- The backup home page's search, featured strip and price guard are the current page's code. They are modelled once, by the members of `Home`.
