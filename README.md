# A Dafny model of the escolaberta storefront's core logic

This project models the parts of the escolaberta storefront and admin panel
whose behaviour is sequential logic, not framework markup, and proves
properties of them:

- **The product editors.**
  - `components/product-form-fixed.tsx` is modelled as the class
    `ProductFormFixed.ProductEditor`. Its fields are the component's state
    cells and its methods are the event handlers.
  - The earlier `components/product-form.tsx` is modelled as
    `ProductForm.ProductEditor`.
  - In both modules, the defaults and the deep merge of an existing product
    into them (`initialValues`) are functions.
- **The server actions** (`actions/product-actions.ts`), modelled in
  `ProductActions`.
  - The zod `productSchema` becomes a function from the received record to
    either the validated record with its defaults or the complete list of
    issues.
  - `createProduct`, `updateProduct` and `deleteProduct` become functions
    that return the action's result record.
- **The sign-up validator** (`app/routes/signup/validate.ts`), modelled in
  `SignupValidate` as a method that fills in an error record field by field.
- **Price presentation** (`ui/shop/product-price.tsx` and
  `ui/shop/product-currency-symbol.tsx`), modelled in `ProductPrice` and
  `ProductCurrencySymbol`. It covers discount detection, the discount amount
  in exact fixed point, the choice of deal component and the currency
  symbol.
- **The comps table** (`lib/data.ts`), modelled in `CompsData`.
  - The database becomes a sequence of comps.
  - It covers the case-insensitive search shared by the count and the
    listing, newest-first order, skip/take paging, the page count and the
    three lookup tables.
- **The admin side bar** (`ui/admin/nav-links.tsx`), modelled in `NavLinks`:
  its links and when each one is highlighted.
- **The comment box** (`ui/posts/comment-section.tsx`), modelled as the class
  `CommentSection.CommentSection`.

`Common` holds the JavaScript operations the others rely on:

- `includes` on strings, as `Contains`;
- a string's `length` in UTF-16 code units, as `Utf16Length`;
- ASCII `toLowerCase`;
- `trim() === ""`, as `IsBlank`;
- the two `filter` forms, by index as `RemoveAt` and by value as `Without`.

`Product` holds the product record shared by the actions and both editors,
the bounds every product schema enforces, and the spread merge.

## Modelling conventions

- **Handlers read a snapshot.** A React handler reads the state of the render
  it was created in. Each handler method therefore reads the fields as they
  were on entry (`old(...)` in the contracts).
  - `onSubmit` computes `hasErrors` from the `showAllErrors` and `images` of
    that render. Its own call to `validateAllFields` does not change them.
  - The form library's field errors at that render are a parameter: the set
    of top-level keys that carry an error.
- **JavaScript numbers.**
  - Numbers the server schema receives are `real`, so that `.int()` is a
    real check (`IsInteger`).
  - Numbers after validation are `int`.
  - Ratings, amounts and percentages stay `real`, on which only comparisons
    are made.
- **String lengths.** A JavaScript `length`, and so zod's `.min(n)` on a
  string, counts UTF-16 code units. `Utf16Length` counts a character outside
  the Basic Multilingual Plane twice.
- **Present keys.** A key that may be absent from an object is an `Option`:
  `Some` means the key is present. A value that may also be `null` is a
  `Nullable`.
- **Outside effects become parameters.**
  - `effectsThrow` says whether the code after validation threw (the delay,
    the log and `revalidatePath`).
  - `isUrl` is the URL parser's verdict.
  - `now` is `Date.now()`.
  - The database is a sequence.

## Model

| member | source | states |
|---|---|---|
| Common.PrefixContained | ui/admin/nav-links.tsx:55 | a string contains each of its prefixes (`includes` of a `startsWith`) |
| Common.ContainsTransitive | ui/admin/nav-links.tsx:55 | an occurrence of an occurrence is an occurrence, so `includes` is transitive |
| Common.NotContainsChar | app/routes/signup/validate.ts:6 | a string with no `@` character does not include `"@"` |
| Common.ToLower | lib/data.ts:27-40 | case folding keeps the length and folds each character on its own |
| Common.Utf16Length | app/routes/signup/validate.ts:12 | `length` counts UTF-16 code units: between one and two per character, exactly one per character inside the Basic Multilingual Plane, and zero only for the empty string |
| Common.AppendFresh | components/product-form-fixed.tsx:387 | appending an element not yet present keeps a list duplicate free |
| Common.RemoveAtSlices | components/product-form-fixed.tsx:394 | filtering out index i yields the list without exactly position i, in order; an index outside the list removes nothing |
| Common.RemoveAtNoDuplicates | components/product-form-fixed.tsx:394 | removing one position keeps a duplicate-free list duplicate free |
| Common.WithoutCounts | components/product-form-fixed.tsx:420 | filtering out a value leaves no occurrence of it and the same number of occurrences of every other value |
| Common.WithoutAppend | components/product-form-fixed.tsx:420 | filtering distributes over concatenation, so the remaining elements keep their relative order |
| Common.WithoutAbsent | components/product-form-fixed.tsx:438 | filtering out a value that is absent changes nothing |
| Common.WithoutUnique | components/product-form-fixed.tsx:420 | in a duplicate-free list, filtering out a present value removes its single position |
| Common.WithoutSingle | components/product-form-fixed.tsx:420 | filtering out a value that occurs exactly once removes that one place and keeps the rest in order |
| Common.WithoutNoDuplicates | components/product-form-fixed.tsx:420 | filtering keeps a duplicate-free list duplicate free |
| Product.DefaultsValid | actions/product-actions.ts:37-54 | the default price (0 at scale 100 in USD/10/2) and the default discount (0 %, no expiry) satisfy the schema bounds |
| Product.MergeCurrency | components/product-form-fixed.tsx:175-178 | with no currency object given, the default currency is kept; with one, each key it gives wins and each absent key keeps its default |
| Product.MergePrice | components/product-form-fixed.tsx:172-179 | with no price object given, the default price is kept; with one, amount and scale come from it when given, and the currency is merged key by key |
| Product.MergeDiscount | components/product-form-fixed.tsx:180-183 | with no discount object given, the default discount is kept; with one, percent and expiry come from it when given |
| Product.MergeWhole | components/product-form-fixed.tsx:172-191 | a given record with every key wins over every default, at both nesting levels |
| Product.MergeEmpty | components/product-form-fixed.tsx:172-191 | a given record with no keys, or with an empty currency, leaves the defaults unchanged |
| Product.MergeIdempotent | components/product-form-fixed.tsx:172-191 | merging the same given record a second time changes nothing |
| ProductActions.CurrencyIssuesEmpty | actions/product-actions.ts:25-35 | a currency contributes no issue exactly when its code is non-empty and its base and exponent are whole |
| ProductActions.PriceIssuesEmpty | actions/product-actions.ts:21-45 | a price contributes no issue exactly when its amount is at least 0, its scale is whole and its currency passes |
| ProductActions.IssuesEmptyIff | actions/product-actions.ts:7-80 | the schema reports no issue exactly when every rule of the schema holds |
| ProductActions.Parse | actions/product-actions.ts:7-80 | accepted exactly when the rules hold; otherwise it fails with the non-empty list of every issue; an accepted record satisfies the product bounds, keeps every top-level value that was given and fills every absent key with its default (empty lists, empty strings, not a best seller, active); inside price, discount and used price each given key is kept and each absent one takes its default (amount 0, scale 100, code "USD", base 10, exponent 2, percent 0, no expiry), and an absent object is the whole default |
| ProductActions.ParseRoundTrip | actions/product-actions.ts:7-80 | a record within the bounds, sent with every key, parses to itself |
| ProductActions.ParseIdempotent | actions/product-actions.ts:88 | what the schema yields, it accepts again unchanged |
| ProductActions.ShortNameReported | actions/product-actions.ts:8 | a name shorter than 2 UTF-16 code units is reported at `name` with the schema's message |
| ProductActions.FractionalStockReported | actions/product-actions.ts:10 | a stock that is not whole is reported at `stock` |
| ProductActions.RatingOutOfRangeReported | actions/product-actions.ts:11 | a rating above 5 is reported at `rating` |
| ProductActions.PercentOutOfRangeReported | actions/product-actions.ts:48 | a percentage above 100 is reported at `discount.percent` |
| ProductActions.CreateProduct | actions/product-actions.ts:85-111 | succeeds exactly when validation passes and nothing after it throws, with the parsed record; rejected with the issue list exactly when validation fails; otherwise fails with "Failed to create product" |
| ProductActions.UpdateProduct | actions/product-actions.ts:114-140 | the same outcomes as creation, with "Failed to update product" |
| ProductActions.UpdateMatchesCreate | actions/product-actions.ts:114-140 | update and create give the same result for every id, except for the wording of the fixed failure message |
| ProductActions.DeleteProduct | actions/product-actions.ts:143-162 | succeeds exactly when nothing throws; otherwise fails with "Failed to delete product" |
| ProductActions.DeleteIgnoresId | actions/product-actions.ts:143-162 | the outcome of a delete does not depend on the id |
| ProductFormFixed.InitialValues | components/product-form-fixed.tsx:165-193 | without a product id the form starts from the defaults; with one, every top-level key the product gives wins over its default and every absent one keeps it, and inside price, discount and used price (and their currencies) the same holds key by key |
| ProductFormFixed.InitialValuesOfWholeProduct | components/product-form-fixed.tsx:165-193 | editing a product that gives every key starts from exactly its values |
| ProductFormFixed.InitialValuesOfBareProduct | components/product-form-fixed.tsx:165-193 | editing a product that gives only its id starts from the defaults |
| ProductFormFixed.InitialPriceKeepsDefaultCurrency | components/product-form-fixed.tsx:172-191 | a price given without a currency keeps USD/10/2 and scale 100; a currency given with only a code keeps base 10 and exponent 2 |
| ProductFormFixed.FilterOptionsSpec | components/product-form-fixed.tsx:453-455 | the category search keeps exactly the options whose label contains the search text, ignoring case, and keeps all of them when all match |
| ProductFormFixed.EmptySearchListsAll | components/product-form-fixed.tsx:453-455 | an empty search lists all twelve options in table order |
| ProductFormFixed.TabWithErrorsIsFirst | components/product-form-fixed.tsx:228-276 | the tab chosen has errors and no tab before it in the order basic, media, pricing, categorization has any; no tab is chosen exactly when no tab has errors |
| ProductFormFixed.FieldErrorSelectsTab | components/product-form-fixed.tsx:228-276 | any field error at all makes navigation choose some tab |
| ProductFormFixed.SubmittedValuesParse | components/product-form-fixed.tsx:314-328 | values the editor accepts, with a datasheet, pass the server schema unchanged, carrying the editor's image and category lists |
| ProductFormFixed.NullDatasheetRejected | components/product-form-fixed.tsx:39 | the editor allows a `null` datasheet, but the server schema rejects it with an issue at `datasheet` |
| ProductFormFixed.ProductEditor.constructor | components/product-form-fixed.tsx:153-168 | lists from the product (or empty), no errors, empty inputs, the basic tab, errors not yet shown |
| ProductFormFixed.ProductEditor.EditNewImage | components/product-form-fixed.tsx:1031-1034 | typing a URL sets the input and clears its error |
| ProductFormFixed.ProductEditor.EditNewCategory | components/product-form-fixed.tsx:1180 | typing sets the new-category input |
| ProductFormFixed.ProductEditor.EditCategorySearch | components/product-form-fixed.tsx:1131 | typing sets the category search text |
| ProductFormFixed.ProductEditor.SelectTab | components/product-form-fixed.tsx:512 | clicking a tab selects it |
| ProductFormFixed.ProductEditor.AddImage | components/product-form-fixed.tsx:360-391 | an empty input gives "Image URL is required" and an unparsable one "Please enter a valid URL"; in these cases and for a URL already listed, the list stays as it was; otherwise the URL is appended at the end and the input and list error are cleared; a duplicate-free list stays duplicate free |
| ProductFormFixed.ProductEditor.NewImageEnter | components/product-form-fixed.tsx:1035-1048 | Enter on a listed URL changes nothing; otherwise it acts as the add button: the input error as `addImage` sets it, and an accepted URL appended with the input and the list error cleared, while a refused one leaves list, input and list error as they were |
| ProductFormFixed.ProductEditor.RemoveImage | components/product-form-fixed.tsx:393-402 | exactly position i is removed and the rest keep their order; the list error is set exactly when the list becomes empty; no duplicates appear |
| ProductFormFixed.ProductEditor.AddCategory | components/product-form-fixed.tsx:404-417 | appends only a non-empty value not yet selected, then clears the input and error and syncs the form field; otherwise nothing changes |
| ProductFormFixed.ProductEditor.NewCategoryEnter | components/product-form-fixed.tsx:1182-1201 | Enter adds only a non-blank value that is neither selected nor, ignoring case, the value or label of a predefined option |
| ProductFormFixed.ProductEditor.RemoveCategory | components/product-form-fixed.tsx:419-433 | every occurrence of the value goes and the count of every other value is kept; the list error is set exactly when the list becomes empty |
| ProductFormFixed.ProductEditor.ToggleCategory | components/product-form-fixed.tsx:435-450 | flips whether the value is selected (removed by filter, or appended at the end), keeping every other selection; clears the error |
| ProductFormFixed.ProductEditor.HandleAddCustomCategory | components/product-form-fixed.tsx:458-477 | adds the search text only when it is non-empty, not selected, and neither the value nor (ignoring case) the label of a predefined option; then clears the search |
| ProductFormFixed.ProductEditor.ValidateAllFields | components/product-form-fixed.tsx:208-225 | shows all errors and sets each list error exactly when that list is empty |
| ProductFormFixed.ProductEditor.NavigateToTabWithErrors | components/product-form-fixed.tsx:228-276 | selects the first tab with errors, or keeps the current tab when there are none |
| ProductFormFixed.ProductEditor.OnSubmit | components/product-form-fixed.tsx:279-329 | sends nothing when the render had errors (and navigates to them), when no category is selected (categorization tab, checked first) or when no image is listed (media tab); otherwise it sends an update in edit mode or a create, with the form data and the editor's own lists |
| ProductForm.InitialValues | components/product-form.tsx:103-131 | any passed product means edit mode: every top-level key it gives wins over its default and every absent one keeps it, and inside price, discount and used price (and their currencies) the same holds key by key; no product means the defaults |
| ProductForm.EmptyProductEditsDefaults | components/product-form.tsx:103 | even an empty product object selects edit mode, which then yields the defaults |
| ProductForm.InitialValuesOfWholeProduct | components/product-form.tsx:103-131 | a product that gives every key is edited with exactly its values |
| ProductForm.CombinedParses | components/product-form.tsx:139-146 | a record the form accepts, combined with the lists, passes the server schema and parses to itself |
| ProductForm.ProductEditor.constructor | components/product-form.tsx:97-101 | lists from the product (or empty), empty inputs, the basic tab |
| ProductForm.ProductEditor.EditNewImage | components/product-form.tsx:584 | typing sets the image URL input |
| ProductForm.ProductEditor.EditNewCategory | components/product-form.tsx:633 | typing sets the category input |
| ProductForm.ProductEditor.SelectTab | components/product-form.tsx:187 | clicking a tab selects it |
| ProductForm.ProductEditor.AddImage | components/product-form.tsx:154-159 | appends only a non-empty URL not yet listed and clears the input; otherwise nothing changes |
| ProductForm.ProductEditor.RemoveImage | components/product-form.tsx:161-163 | exactly position i is removed, the rest in order |
| ProductForm.ProductEditor.AddCategory | components/product-form.tsx:165-170 | appends only a non-empty category not yet listed and clears the input; otherwise nothing changes |
| ProductForm.ProductEditor.RemoveCategory | components/product-form.tsx:172-174 | removes by position, so exactly one element goes even when the same text is listed twice |
| ProductForm.ProductEditor.OnSubmit | components/product-form.tsx:139-146 | the submitted record is the form values with the editor's current image and category lists, within the product bounds when the form's schema accepts the values |
| SignupValidate.EmailError | app/routes/signup/validate.ts:4-8 | no email message exactly when the email contains "@"; "Email is required." when it is empty, "Please enter a valid email address." otherwise |
| SignupValidate.PasswordError | app/routes/signup/validate.ts:10-14 | no password message exactly when the password has at least 8 UTF-16 code units; "Password is required." when it is empty, "Password must be 8 characters or more." otherwise |
| SignupValidate.KeyCount | app/routes/signup/validate.ts:15 | the record has no keys exactly when neither message is set |
| SignupValidate.Validate | app/routes/signup/validate.ts:1-16 | the result is null exactly when the email contains "@" and the password has at least 8 UTF-16 code units; otherwise it holds exactly the two field messages, at least one of them set |
| SignupValidate.Messages | app/routes/signup/validate.ts:4-14 | each message, with the inputs that produce it, the password's length counted in UTF-16 code units |
| SignupValidate.Examples | app/routes/signup/validate.ts:4-14 | "a@b" passes and "ab" is invalid; "secret" is too short and "password" passes |
| SignupValidate.AstralPassword | app/routes/signup/validate.ts:12 | four emoji are a long enough password, as their length is 8 code units, while seven ASCII characters are too short |
| ProductCurrencySymbol.Symbol | ui/shop/product-currency-symbol.tsx:11-26 | "GBP" exactly gives the pound sign, "EUR" exactly gives the euro sign, and every other code gives "$"; never empty |
| ProductCurrencySymbol.CurrencySymbol | ui/shop/product-currency-symbol.tsx:3-29 | the symbol is one of the three signs |
| ProductCurrencySymbol.SymbolIgnoresAmount | ui/shop/product-currency-symbol.tsx:8 | the symbol depends on the currency code alone |
| ProductCurrencySymbol.KnownCodes | ui/shop/product-currency-symbol.tsx:11-26 | GBP, EUR and USD get the pound, euro and dollar signs |
| ProductPrice.PowAdd | ui/shop/product-price.tsx:17-20 | base^(m+n) = base^m · base^n, the law behind adding two places of scale |
| ProductPrice.FormatDiscount | ui/shop/product-price.tsx:11-24 | a formatted discount exists exactly when `percent` is a number; it keeps `expires` and the currency; its value is the price's value times percent over base squared |
| ProductPrice.DiscountValue | ui/shop/product-price.tsx:17-20 | multiplying by `percent` at scale 2 multiplies the value by percent / base² |
| ProductPrice.DecimalDiscount | ui/shop/product-price.tsx:17-20 | in a base-10 currency the discount amount is percent hundredths of the price |
| ProductPrice.ProductPriceView | ui/shop/product-price.tsx:26-52 | the plain price with its symbol exactly when there is no discount; the lightning deal exactly when `expires` is a non-zero number; the plain deal otherwise |
| NavLinks.RenderLinks | ui/admin/nav-links.tsx:42-65 | exactly four links, one per table entry in table order, each highlighted exactly when the active-link predicate holds |
| NavLinks.ActiveOnOwnPage | ui/admin/nav-links.tsx:56 | a link is highlighted on the page whose path equals its href |
| NavLinks.ActiveIffContains | ui/admin/nav-links.tsx:14-56 | no listed href is "/dashboard", so a listed link is highlighted exactly when its href occurs in the path |
| NavLinks.AdminPrefix | ui/admin/nav-links.tsx:14-34 | every href starts with "/admin" |
| NavLinks.DashboardActiveWhenAnyActive | ui/admin/nav-links.tsx:14-55 | Dashboard is highlighted whenever any link is |
| NavLinks.UsersPage | ui/admin/nav-links.tsx:14-56 | on "/admin/users" exactly Dashboard and Users are highlighted |
| CommentSection.Posted | ui/posts/comment-section.tsx:18 | the posted comment carries the draft's author and content, and the timestamp as id |
| CommentSection.CommentSection.constructor | ui/posts/comment-section.tsx:12-13 | no comments and an empty draft |
| CommentSection.CommentSection.Edit | ui/posts/comment-section.tsx:33-48 | editing sets the draft |
| CommentSection.CommentSection.HandleSubmit | ui/posts/comment-section.tsx:15-21 | a draft with author and content is appended as exactly one comment at the end and the draft is reset; otherwise nothing changes; existing comments keep their order |
| CommentSection.EmptyDraftNotPostable | ui/posts/comment-section.tsx:13-17 | the initial empty draft is never posted |
| CompsData.Filter | lib/data.ts:22-45 | the comps kept are exactly the store's comps that match the query, each at most as often as in the store |
| CompsData.FilterCounts | lib/data.ts:22-45 | each matching comp is kept exactly as often as the store holds it, and every other comp not at all |
| CompsData.EmptyQueryMatchesAll | lib/data.ts:22-45 | the empty query keeps every comp, in order |
| CompsData.FilterKeepsAll | lib/data.ts:22-45 | a filter that every comp passes keeps the store as it is |
| CompsData.InsertCounts | lib/data.ts:91-93 | inserting adds exactly one comp, i.e. the multiset grows by that comp |
| CompsData.InsertSorted | lib/data.ts:91-93 | inserting into a newest-first list keeps it newest first |
| CompsData.SortSpec | lib/data.ts:91-93 | sorting yields a newest-first permutation of its input |
| CompsData.ListingSpec | lib/data.ts:68-93 | the listing holds exactly the matching comps, each exactly as often as the store does, newest first |
| CompsData.TotalPages | lib/data.ts:47 | the page count is the ceiling of count / 8: 0 exactly for no comps, pages · 8 ≥ count and (pages − 1) · 8 < count |
| CompsData.Offset | lib/data.ts:63 | page 1 starts at 0 and every page starts at a multiple of 8 |
| CompsData.OffsetStep | lib/data.ts:63 | consecutive pages start 8 apart |
| CompsData.OffsetBelowCount | lib/data.ts:47-63 | every page from 1 to the page count starts inside the listing |
| CompsData.Window | lib/data.ts:94-95 | skip/take returns at most 8 comps, the slice from the skip on, or nothing past the end |
| CompsData.FetchCompsPages | lib/data.ts:18-53 | the page count of the matching comps |
| CompsData.FetchFilteredComps | lib/data.ts:62-101 | page 0 or lower fails with "Failed to fetch comps."; a page holds at most 8 matching comps of the store, newest first, and none past the page count |
| CompsData.WindowSorted | lib/data.ts:91-95 | a window of a newest-first list is newest first and taken from it |
| CompsData.FirstPagesPrefix | lib/data.ts:63-95 | the first n pages, one after another, are the first 8n comps of the listing |
| CompsData.PagesCoverListing | lib/data.ts:47-95 | pages 1 to the page count, concatenated, are the whole listing: the count and the listing agree and pages neither overlap nor leave a gap |
| CompsData.OnSomePage | lib/data.ts:18-101 | a comp is on some page from 1 to the page count exactly when it is in the store and matches |
| CompsData.TablesWellFormed | lib/data.ts:122-258 | the statuses are 1 "Out of Stock" and 2 "In Stock"; the 43 category ids and the 76 type ids are 1, 2, … in order |
| CompsData.TableIdsUnique | lib/data.ts:135-179 | distinct category entries have distinct ids |

## Left out

- Toasts, `router.push`, `startTransition`, `console` logging, the 1000 ms delays and `revalidatePath` are left out. They are effects with no bearing on the state modelled here.
- The server action result that the fixed editor awaits inside `startTransition` is left out. It only chooses a toast and a redirect.
- The Save button's click handler (components/product-form-fixed.tsx:1218-1226) is not modelled. It chains `validateAllFields`, the same `hasErrors` test and react-hook-form's `handleSubmit`, whose validation belongs to the form library.
- `form.trigger()` and react-hook-form's own validation are not modelled.
  - The field errors reach the model as a parameter: a set of top-level keys.
  - A nested error such as `price.amount` counts as an error on `price`, which the source also tests directly.
- `z.coerce.number()` turning strings into numbers is left out, as are NaN and infinities. Numbers arrive as numbers.
- Zod's built-in issue messages are left out. An issue carries its kind and the schema's own message where it sets one.
- Keys present with the value `undefined` are not modelled: such a key overrides a default in a spread. A present key is always defined here, and may be `null` where the schema allows it.
- The form values also receive the `id` and `images` keys that the product spreads into them. These extra keys are not modelled.
- `productTypes` (components/product-form-fixed.tsx:116-127) is not modelled; it is only offered in the markup.
- `toLowerCase` folds only the ASCII letters here, and `trim` strips only the ASCII whitespace.
- CompsData.Matches: Prisma's `contains` with `mode: "insensitive"` (lib/data.ts:24-43) is modelled by the same ASCII folding of both the field and the query. The database's own collation, which also folds letters outside ASCII, is not modelled.
- `new URL(...)` is the parameter `isUrl`, because the URL parser is outside this code.
- CompsData.FetchFilteredComps: database failures other than the refused negative skip are not modelled. Neither is `fetchCompById`, a single database lookup.
  - A fractional page number is not modelled; pages are integers.
  - Comps with the same creation time are ordered by insertion. The database leaves their order open.
  - `escapeRegex` is not part of this model. The query is taken as already escaped.
- CompsData.FetchCompsPages: a failing count ("Failed to fetch total number of comps.") is not modelled.
- The comp fields that the queries do not read (images, price, stock, categories, datasheet, update time) are left out of `Comp`.
- ProductPrice.FormatDiscount: `percent` is an integer, because dinero.js multiplies only by integer amounts.
  - `toDecimal`'s text formatting is left out.
  - The deal components themselves are outside this code; the model stops at which one is chosen.
- `Date.now()` is the parameter `now` of `CommentSection.CommentSection.HandleSubmit`.
- The inputs that would edit the comment draft are commented out in the markup. With them gone, only the initial empty draft can be submitted, which `EmptyDraftNotPostable` shows is never posted.
- Icons, class names, the DOM and the rest of the markup are left out.
