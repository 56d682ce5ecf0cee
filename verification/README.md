# Bewear storefront: addresses, checkout and listings

A Dafny model of the core of the Bewear Bootcamp storefront, a Brazilian
clothing shop written in TypeScript on Next.js, Drizzle and zod. The model
covers:

- the two server actions that create and update a user's shipping address
  (`createShippingAddress`, `updateShippingAddress`). This includes their zod
  schemas, the CEP and CPF normalisation applied before the row is written,
  and the ownership-scoped `UPDATE`;
- the client address form of the identification step: its own schema, the
  CEP autofill on blur, the initial selection, "go to payment", and the edit
  form filled from a stored row;
- the two checkout pages (identification and confirmation). That covers
  their redirect gates, the cart total (a left fold of `price * quantity`)
  and the stepper (`CheckoutSteps`);
- the header cart sheet: the item count, the "9+" badge, and when the footer
  with the checkout button appears;
- the "my orders" list: the `#001` order numbers, the status badges, and
  which card starts open;
- the product search route `GET /api/search`: the query gate, the `LIKE`
  pattern, the limit of 8, and the cheapest variant's image;
- the product listing page: the `where` conditions built from the search
  parameters, the newest-first ordering, the title, and the count line.

The database is modelled as values:

- the address table is a `map` from row id to owner and columns;
- carts and products are sequences in stored order;
- the session is an optional user id.

Services whose code is not part of this model become parameters:

- the CPF check-digit validator and zod's e-mail test, in `Schemas.External`;
- the CEP lookup service (`cep-promise`);
- the SQL `LIKE` comparison;
- the fresh id the database assigns to an inserted row.

Modules, from the bottom up:

- `Wrappers`: `Option` and `Result`.
- `Text`: JavaScript `trim`, ASCII `toUpperCase`, decimal numerals and `padStart`.
- `Patterns`: the regular expressions as predicates.
- `Normalize`: `onlyDigits` and `maskCEP`.
- `Schemas`: the three zod schemas.
- `AddressStore`: the two actions.
- `AddressForm`: the client component logic.
- `Sums`: the `reduce` sums.
- `Checkout` and `CheckoutSteps`: the checkout pages and the stepper.
- `CartSheet`: the header cart sheet.
- `Orders`: the order list.
- `Seqs`: an order-preserving filter.
- `SearchRoute`: the search route.
- `ProductListing`: the listing page.

Where the three address schemas disagree with each other, the disagreement is
proved as a lemma rather than smoothed over:

- the client form's phone pattern accepts `(11)98888-7777`, which the create
  action rejects;
- a whitespace-only name passes the client form and is rejected by both
  actions;
- the update action accepts a four-digit local phone number that create does
  not.

Source paths below are relative to the repository root.

## Model

| member | source | states |
|---|---|---|
| Text.Trim | src/actions/create-shipping-address/schema.ts:11 | `trim()` returns a contiguous slice of the text with no whitespace at either end, and everything it drops before and after that slice is whitespace |
| Text.TrimEmptyIffBlank | src/actions/create-shipping-address/schema.ts:11 | JavaScript `trim()` gives "" exactly when the text is whitespace only, so `trim().min(1)` rejects exactly the blank names |
| Text.TrimIdempotent | src/actions/create-shipping-address/schema.ts:22 | trimming a trimmed string changes nothing |
| Text.ToUpper | src/actions/create-shipping-address/schema.ts:35 | `toUpperCase()` keeps the length, leaves no lowercase ASCII letter, moves each lowercase letter to its uppercase one and leaves every other character alone |
| Text.ToUpperIdempotent | src/actions/create-shipping-address/schema.ts:35 | uppercasing twice is uppercasing once |
| Text.DecimalString | src/app/my-orders/components/orders.tsx:46 | `n.toString()` is a non-empty string of digits with no leading zero unless n is 0 |
| Text.DecimalRoundTrip | src/app/my-orders/components/orders.tsx:46 | the numeral `n.toString()` reads back as `n` |
| Text.LeadingZerosIgnored | src/app/my-orders/components/orders.tsx:46 | zeros put in front of a numeral by `padStart` do not change its value |
| Text.PadStart | src/app/my-orders/components/orders.tsx:46 | `padStart(width, fill)` never truncates: the result has length max(|s|, width), ends with s, and is filled in front |
| Patterns.MaskedPhoneAccepted | src/actions/create-shipping-address/schema.ts:5 | every `(AA) PPPPP-LLLL` built from digit groups of the right sizes matches the create phone pattern |
| Patterns.AcceptedPhoneIsMasked | src/actions/create-shipping-address/schema.ts:5 | every phone the create pattern accepts is that mask applied to its own digit groups |
| Patterns.CreatePhoneIsClientPhone | src/app/cart/identification/components/addresses.tsx:44 | a phone the create action accepts passes the client form's pattern |
| Patterns.ClientPhoneIsUpdatePhone | src/actions/update-shipping-address/schema.ts:7-9 | a phone the client form accepts passes the update action's `isValidPhone` |
| Patterns.CreatePhoneIsUpdatePhone | src/actions/update-shipping-address/schema.ts:7-9 | a phone the create action accepts passes the update action's pattern |
| Patterns.UpdatePhoneAtLeastThirteen | src/actions/update-shipping-address/schema.ts:21-24 | a phone matching the update pattern has at least 13 characters, so the `min(8)` before it never decides anything |
| Patterns.LegacyPhoneOnlyOnUpdate | src/actions/update-shipping-address/schema.ts:9 | `(11) 8888-7777` passes the update pattern and fails both the create and the client patterns |
| Patterns.UnspacedPhoneRejectedByCreate | src/app/cart/identification/components/addresses.tsx:44 | `(11)98888-7777` passes the client form and fails the create pattern |
| Patterns.CanonicalPhoneAcceptedEverywhere | src/actions/create-shipping-address/schema.ts:5 | `(11) 98888-7777` passes all three phone patterns |
| Patterns.ZipIsTrimmed | src/actions/create-shipping-address/schema.ts:19-22 | a CEP matching `^\d{5}-\d{3}$` holds no whitespace, so the `trim` transform after the regex is the identity |
| Patterns.UppercasedStateOk | src/actions/create-shipping-address/schema.ts:32-35 | a valid UF uppercases to two uppercase ASCII letters that still match the pattern |
| Patterns.StateExamples | src/actions/create-shipping-address/schema.ts:7 | "sp" is a valid UF that uppercases to "SP"; "S" and "SPX" are not valid |
| Normalize.OnlyDigits | src/actions/create-shipping-address/index.ts:16 | `replace(/\D/g, "")` keeps only digits and never lengthens the text |
| Normalize.OnlyDigitsAppend | src/actions/create-shipping-address/index.ts:16 | stripping non-digits distributes over concatenation, so the digits keep their order |
| Normalize.OnlyDigitsFixesExactlyDigits | src/actions/create-shipping-address/index.ts:16 | a string is left unchanged exactly when it is all digits |
| Normalize.OnlyDigitsIdempotent | src/actions/update-shipping-address/index.ts:17 | stripping twice is stripping once |
| Normalize.OnlyDigitsKeepsDigits | src/actions/create-shipping-address/index.ts:16 | every digit occurs in the result as often as in the input, and nothing else does |
| Normalize.MaskCep | src/actions/create-shipping-address/index.ts:18-22 | eight characters become five, a dash and three; any other length passes through unchanged |
| Normalize.MaskCepUnmask | src/actions/create-shipping-address/index.ts:18-22 | masking eight digits loses nothing: stripping the result gives the digits back |
| Normalize.ZipDigits | src/actions/create-shipping-address/index.ts:39-42 | the digits of a well-formed CEP are the CEP without its dash, eight digits |
| Normalize.MaskCepRoundTrip | src/actions/update-shipping-address/index.ts:32-34 | a CEP already in `DDDDD-DDD` form is stored exactly as given |
| Normalize.StoredZipWellFormed | src/actions/create-shipping-address/index.ts:18-22 | the stored CEP is well formed exactly when the input had eight digits; any other count is stored bare |
| Normalize.MaskedCepExample | src/actions/create-shipping-address/index.ts:39-42 | "01311-000" is stored unchanged |
| Normalize.BareCepExample | src/actions/create-shipping-address/index.ts:39-42 | "01311000" is stored as "01311-000" |
| Schemas.CreateErrors | src/actions/create-shipping-address/schema.ts:9-36 | the create schema reports exactly the fields whose rule fails |
| Schemas.CreateAcceptsAllFields | src/actions/create-shipping-address/schema.ts:9-36 | the create schema accepts exactly when every field passes its rule |
| Schemas.ParseCreate | src/actions/create-shipping-address/schema.ts:9-36 | the parse succeeds iff every create rule holds; on failure the error set is non-empty and is exactly the failing fields |
| Schemas.CreateTransform | src/actions/create-shipping-address/schema.ts:11-35 | the create transforms leave the name, CEP and number without surrounding whitespace and the UF uppercase, and change no other field |
| Schemas.CreateTransformOk | src/actions/create-shipping-address/schema.ts:11-35 | an accepted value transforms into a non-empty trimmed name, a trimmed number, the phone and CEP verbatim, and a two-letter uppercase UF |
| Schemas.CreateOutput | src/actions/create-shipping-address/schema.ts:9-36 | what a successful create parse returns keeps every one of those promises |
| Schemas.CommonRulesSurviveTransforms | src/actions/create-shipping-address/schema.ts:19-35 | the trim and uppercase transforms of both transforming schemas keep the shared rules |
| Schemas.UpdateErrors | src/actions/update-shipping-address/schema.ts:13-36 | the update schema reports exactly the fields whose rule fails |
| Schemas.UpdateAcceptsAllFields | src/actions/update-shipping-address/schema.ts:13-36 | the update schema accepts exactly when every field passes its rule |
| Schemas.ParseUpdate | src/actions/update-shipping-address/schema.ts:13-36 | the parse succeeds iff every update rule holds and then returns its input untransformed; on failure, exactly the failing fields |
| Schemas.ClientErrors | src/app/cart/identification/components/addresses.tsx:48-77 | the client schema reports exactly the fields whose rule fails |
| Schemas.ClientAcceptsAllFields | src/app/cart/identification/components/addresses.tsx:48-77 | the client schema accepts exactly when every field passes its rule |
| Schemas.ClientTransform | src/app/cart/identification/components/addresses.tsx:50-76 | the client transforms leave the name and CEP without surrounding whitespace and the UF uppercase, and change no other field (the number is not trimmed) |
| Schemas.ClientTransformOk | src/app/cart/identification/components/addresses.tsx:50-76 | an accepted value transforms into a trimmed name, the number verbatim and not blank, the phone and CEP verbatim, and an uppercase UF |
| Schemas.ParseClient | src/app/cart/identification/components/addresses.tsx:48-77 | the parse succeeds iff every client rule holds; on failure, exactly the failing fields |
| Schemas.ClientOutput | src/app/cart/identification/components/addresses.tsx:48-77 | what a successful client parse returns keeps every one of the client schema's promises |
| Schemas.CreateRejectsBlankName | src/actions/create-shipping-address/schema.ts:11 | a whitespace-only name is reported by the create schema because the trim runs before `min(1)` |
| Schemas.CreateBlankNumberBecomesEmpty | src/actions/create-shipping-address/schema.ts:25-28 | a whitespace-only number passes `min(1)` and comes out as "" |
| Schemas.UpdateKeepsBlankNameAndNumber | src/actions/update-shipping-address/schema.ts:16 | the update schema accepts whitespace-only names and numbers unchanged |
| Schemas.ClientRejectsBlankNumber | src/app/cart/identification/components/addresses.tsx:66-69 | the client form reports a whitespace-only number |
| Schemas.CreateRulesImplyUpdateRules | src/actions/update-shipping-address/schema.ts:13-36 | every input the create rules accept, the update rules accept under any non-empty id |
| Schemas.CreateAcceptedIsUpdateAccepted | src/actions/update-shipping-address/schema.ts:13-36 | every input the create schema parses, the update schema parses |
| Schemas.UpdatePhoneSuffices | src/actions/update-shipping-address/schema.ts:21-24 | with the other create rules met, any phone the update pattern accepts makes the update rules pass |
| Schemas.UpdateAcceptsLegacyPhoneCreateRejects | src/actions/update-shipping-address/schema.ts:7-9 | with the legacy phone the update parse succeeds and the create parse fails on the phone alone |
| Schemas.ClientRulesImplyUpdateRules | src/app/cart/identification/components/addresses.tsx:48-77 | the client rules' transformed output passes the update rules unless the name was blank |
| Schemas.ClientOutputAcceptedByUpdate | src/app/cart/identification/components/addresses.tsx:230-237 | what the edit form submits passes the update schema unless the name was blank |
| Schemas.BlankNameBreaksServerRules | src/app/cart/identification/components/addresses.tsx:50-53 | the client trims a blank name to "", which breaks both server schemas' name rule |
| Schemas.ClientBlankNameRejectedByServer | src/app/cart/identification/components/addresses.tsx:50-53 | a blank name passes the client parse, and both server parses report the name |
| Schemas.ClientRulesVersusCreateRules | src/app/cart/identification/components/addresses.tsx:44 | the client rules' output passes the create rules exactly when the phone has the single space the create pattern demands |
| Schemas.ClientOutputAcceptedByCreate | src/app/cart/identification/components/addresses.tsx:44 | a client-parsed value passes the create parse exactly when the phone has that single space |
| AddressStore.ErrorMessage | src/actions/update-shipping-address/index.ts:29-63 | the message is "Unauthorized" exactly for the missing session; a row not found throws "Endereço não encontrado" |
| AddressStore.OrNull | src/actions/create-shipping-address/index.ts:51 | `complement || null`: null exactly when the complement is missing or ""; otherwise it is kept |
| AddressStore.Normalized | src/actions/create-shipping-address/index.ts:39-61 | the written row holds the trimmed name, the uppercased UF, the CPF's digits only, the CEP re-masked from its digits, the complement or null when empty, and country "Brasil"; street, number, city, neighbourhood, phone and e-mail are written as given |
| AddressStore.NormalizedOk | src/actions/update-shipping-address/index.ts:37-52 | normalising accepted values gives a well-formed row, with the CEP and phone stored exactly as validated |
| AddressStore.CreateShippingAddress | src/actions/create-shipping-address/index.ts:28-65 | succeeds iff the schema accepts and a user is signed in; schema errors first, exactly the failing fields; otherwise unauthorized; on success, one row inserted under the new id, owned by the user |
| AddressStore.CreatedRow | src/actions/create-shipping-address/index.ts:44-61 | the inserted columns: trimmed name and number, CEP and phone as typed, uppercased UF, CPF digits only, country "Brasil", complement or null, a well-formed row |
| AddressStore.CreateParsesBeforeSession | src/actions/create-shipping-address/index.ts:28-36 | invalid input fails the same way whoever is signed in |
| AddressStore.CreatePreservesStoreOk | src/actions/create-shipping-address/index.ts:44-61 | creating keeps every row of the table well formed |
| AddressStore.Matching | src/actions/update-shipping-address/index.ts:53-58 | the WHERE clause selects the id's row when the user owns it, and nothing otherwise |
| AddressStore.ApplyUpdate | src/actions/update-shipping-address/index.ts:37-58 | the selected row gets the new columns; keys, owners and every other row are unchanged |
| AddressStore.UpdateShippingAddress | src/actions/update-shipping-address/index.ts:24-67 | parse, then the session check, then "not found" when no row was selected; on success, exactly the owned row is rewritten |
| AddressStore.NotFoundIndistinguishable | src/actions/update-shipping-address/index.ts:61-64 | a missing id and another user's id give the same answer |
| AddressStore.UpdateKeepsOwners | src/actions/update-shipping-address/index.ts:53-58 | an update never adds or removes rows, and never changes an owner |
| AddressStore.UpdateIdempotent | src/actions/update-shipping-address/index.ts:37-58 | repeating a successful update leaves the table as after the first |
| AddressStore.UpdatedRow | src/actions/update-shipping-address/index.ts:37-52 | the columns a successful update writes: trimmed name, number, CEP and phone as typed, uppercased UF, CPF digits only, country "Brasil", complement or null, a well-formed row, same owner |
| AddressStore.UpdatePreservesStoreOk | src/actions/update-shipping-address/index.ts:37-52 | updating keeps every row well formed |
| AddressStore.ForeignUpdateRejected | src/actions/update-shipping-address/index.ts:53-64 | a row created by one user cannot be updated by another: "not found" |
| AddressStore.OwnerUpdateAccepted | src/actions/update-shipping-address/index.ts:53-67 | the owner of a freshly created row can update it |
| AddressForm.RemoveFirstHyphen | src/app/cart/identification/components/addresses.tsx:173 | `replace("-", "")` removes at most one character, and only when a hyphen is present |
| AddressForm.RemoveFirstHyphenAfter | src/app/cart/identification/components/addresses.tsx:194 | with no hyphen before it, exactly the first hyphen is removed |
| AddressForm.OrEmpty | src/app/cart/identification/components/addresses.tsx:174-177 | `x \|\| ""` on a possibly missing answer |
| AddressForm.CepBlur | src/app/cart/identification/components/addresses.tsx:168-206 | the service is asked exactly when the CEP is well formed |
| AddressForm.CepLookupKey | src/app/cart/identification/components/addresses.tsx:170-173 | the service is asked with the CEP's eight digits, and the server's `maskCEP` gives the typed CEP back from them |
| AddressForm.CepBlurEffect | src/app/cart/identification/components/addresses.tsx:174-185 | only street, neighbourhood, city and UF change, and only on an answer; each becomes the answer or "", the UF uppercased |
| AddressForm.CepAutofillStateOk | src/app/cart/identification/components/addresses.tsx:177 | a two-letter answered UF leaves an uppercase UF the client schema accepts |
| AddressForm.InitialSelection | src/app/cart/identification/components/addresses.tsx:91-93 | nothing is selected exactly when the cart has no (or an empty) bound address id; otherwise that id |
| AddressForm.GoToPayment | src/app/cart/identification/components/addresses.tsx:251-259 | an address is bound exactly when the selection is set, non-empty and not "add_new" |
| AddressForm.PreselectedAddressContinues | src/app/cart/identification/page.tsx:61 | continuing with the preselected address binds that same address again |
| AddressForm.EditReset | src/app/cart/identification/components/addresses.tsx:150-164 | the edit form shows each stored column, the missing complement as "", and the stored UF uppercased (an already uppercase UF as stored) |
| AddressForm.EditSubmission | src/app/cart/identification/components/addresses.tsx:230-237 | the update is sent iff the client schema accepts, with the row id and the parsed values |
| AddressForm.StoredZipStable | src/actions/update-shipping-address/index.ts:18-19 | a stored CEP, well formed or not, is its own trim and its own normalisation |
| AddressForm.EditUntouchedSameRow | src/app/cart/identification/components/addresses.tsx:150-164 | opening the edit form on a stored row and saving it untouched writes back exactly that row |
| AddressForm.EditUntouchedKeepsStore | src/app/cart/identification/components/addresses.tsx:230-237 | so an untouched edit the action accepts leaves the whole table as it was |
| Sums.SumLeft | src/app/cart/identification/page.tsx:44-47 | a left fold of non-negative terms is non-negative |
| Sums.SumLeftAppend | src/app/cart/identification/page.tsx:44-47 | the sum of a concatenation is the sum of the parts |
| Sums.SumLeftIsSumRight | src/app/cart/identification/page.tsx:44-47 | folding from the left gives the same total as the right fold |
| Sums.SumLeftBoundsTerms | src/app/cart/identification/page.tsx:44-47 | a sum of non-negative terms bounds each term |
| Checkout.FindCart | src/app/cart/identification/page.tsx:22-36 | the cart found belongs to the user; there is none exactly when no cart is the user's |
| Checkout.LineTotals | src/app/cart/identification/page.tsx:45 | one `price * quantity` per item |
| Checkout.CartTotal | src/app/cart/identification/page.tsx:44-47 | the left-to-right `reduce` equals an independent right fold of the line amounts |
| Checkout.CartTotalBounds | src/app/cart/identification/page.tsx:44-47 | with non-negative prices and quantities, the total is non-negative and at least every line's amount |
| Checkout.CartTotalAppend | src/app/cart/confirmation/page.tsx:43-46 | the total of two item lists together is the sum of their totals |
| Checkout.CartTotalExample | src/app/cart/identification/page.tsx:44-47 | 2 x 5000 + 1 x 3000 = 13000 cents |
| Checkout.AddressesOf | src/app/cart/identification/page.tsx:40-42 | the listed addresses are exactly the user's rows |
| Checkout.IdentificationPage | src/app/cart/identification/page.tsx:19-38 | every redirect of the identification page goes to "/" |
| Checkout.IdentificationGate | src/app/cart/identification/page.tsx:19-38 | the page renders exactly for a signed-in user whose cart has items; everyone else goes to "/" |
| Checkout.IdentificationContents | src/app/cart/identification/page.tsx:40-69 | the rendered page lists only the user's addresses, preselects the cart's bound address, shows subtotal = total = cart total, and marks the identification step |
| Checkout.ConfirmationPage | src/app/cart/confirmation/page.tsx:22-49 | the confirmation page redirects only to "/" or back to "/cart/identification" |
| Checkout.ConfirmationGates | src/app/cart/confirmation/page.tsx:22-49 | signed-out users and empty carts go to "/"; a cart without a bound address goes back to identification |
| Checkout.ConfirmationContents | src/app/cart/confirmation/page.tsx:40-84 | the payment step renders exactly when all three gates pass, with the bound address and subtotal = total = cart total |
| CheckoutSteps.FindIndex | src/components/common/checkout-steps.tsx:25 | `findIndex`: the first position holding the key, or -1 when none does |
| CheckoutSteps.CurrentIndex | src/components/common/checkout-steps.tsx:25 | the current step is always found: the index is within `STEPS` and holds the current key |
| CheckoutSteps.CurrentIndexValues | src/components/common/checkout-steps.tsx:14-25 | bag is at 0, identification at 1, payment at 2 |
| CheckoutSteps.CurrentIndexInRange | src/components/common/checkout-steps.tsx:8-25 | every step key is found, so `currentIndex` is never -1 |
| CheckoutSteps.StatusOf | src/components/common/checkout-steps.tsx:31-32 | completed iff before the current index, current iff at it, pending iff after it |
| CheckoutSteps.ViewOf | src/components/common/checkout-steps.tsx:31-84 | a step links (to its own page) and shows a check exactly when completed, shows its 1-based number otherwise, is `aria-current` exactly when current, has no connector exactly when last, and a highlighted one exactly when completed |
| CheckoutSteps.Render | src/components/common/checkout-steps.tsx:30-32 | one view per step, in `STEPS` order |
| CheckoutSteps.RenderShape | src/components/common/checkout-steps.tsx:48-84 | only completed steps link, each to its own page; only the current step is `aria-current`; the last step has no connector; a connector is highlighted exactly before the current step |
| CheckoutSteps.CountStatus | src/components/common/checkout-steps.tsx:30-32 | a count of views never exceeds their number |
| CheckoutSteps.CountsOfViews | src/components/common/checkout-steps.tsx:31-32 | over any step list, as many steps are completed as the current index says, and exactly one is current |
| CheckoutSteps.CompletedCountIsCurrentIndex | src/components/common/checkout-steps.tsx:31-32 | the rendered stepper completes `currentIndex` steps and has one current step |
| CartSheet.IsEmpty | src/components/common/cart.tsx:43 | a cart that counts as empty has an item count of 0 |
| CartSheet.Quantities | src/components/common/cart.tsx:47 | one quantity per cart line |
| CartSheet.TotalCount | src/components/common/cart.tsx:47 | 0 without a cart or items array; otherwise the left sum of the quantities |
| CartSheet.Badge | src/components/common/cart.tsx:59-61 | a badge exactly for a positive count; "9+" exactly above nine; otherwise the count's numeral |
| CartSheet.BadgeText | src/components/common/cart.tsx:61 | every badge is one character or "9+", and a shown digit reads back as the count |
| CartSheet.EmptyCartHasNoBadge | src/components/common/cart.tsx:43-61 | with non-negative quantities, an empty cart has count 0 and no badge |
| CartSheet.TotalCountAppend | src/components/common/cart.tsx:47 | adding a line adds its quantity to the count |
| CartSheet.Sheet | src/components/common/cart.tsx:78-150 | the footer shows exactly when the body lists rows, there is at least one row then, and subtotal equals total |
| CartSheet.SheetShape | src/components/common/cart.tsx:78-150 | the footer shows exactly when not loading and not empty; the rows show then too; subtotal = total = the server's total or 0; the button leads to identification |
| CartSheet.BadgeExamples | src/components/common/cart.tsx:59-61 | badges for 0, 3, 9, 10 and 42 |
| Orders.FormatOrderNumber | src/app/my-orders/components/orders.tsx:45-47 | "#" followed by digits only, of width max(3, digits of index + 1) |
| Orders.DecimalStringShort | src/app/my-orders/components/orders.tsx:46 | numerals below 10, 100 and 1000 have at most one, two and three digits |
| Orders.OrderNumberWidth | src/app/my-orders/components/orders.tsx:46 | the first 999 order numbers are exactly four characters |
| Orders.OrderNumberRoundTrip | src/app/my-orders/components/orders.tsx:45-47 | the digits after "#" read back as the 1-based position |
| Orders.OrderNumberInjective | src/app/my-orders/components/orders.tsx:45-47 | distinct positions get distinct order numbers |
| Orders.OrderNumberExamples | src/app/my-orders/components/orders.tsx:45-47 | index 0 shows "#001" and index 41 shows "#042" |
| Orders.StatusBadge | src/app/my-orders/components/orders.tsx:125-140 | "Pago" iff paid, "Pagamento pendente" iff pending, "Cancelado" iff canceled, none for any other status |
| Orders.CardOf | src/app/my-orders/components/orders.tsx:100-179 | a card's number reads back as its 1-based position, both amounts are the order total, it keeps the order's id and items, and only the card at index 1 starts open |
| Orders.OrdersPage | src/app/my-orders/components/orders.tsx:76-100 | the empty state iff the list is missing or empty; otherwise one card per order, in order |
| Orders.OrderListShape | src/app/my-orders/components/orders.tsx:100-179 | each card shows its order's total as both subtotal and total; card numbers are distinct and read back as position + 1; only the second card starts open |
| Seqs.FilterMembers | src/app/product/page.tsx:52-56 | the filter keeps exactly the elements the predicate accepts |
| Seqs.FilterAppend | src/app/api/search/route.ts:19-28 | filtering keeps order: the filter of a concatenation is the concatenation of the filters |
| Seqs.FilterKeepsAll | src/app/product/page.tsx:43 | the filter keeps everything exactly when every element is accepted |
| SearchRoute.QueryText | src/app/api/search/route.ts:9 | `(get("q") ?? "").trim()`: trimmed, "" when absent |
| SearchRoute.SearchPattern | src/app/api/search/route.ts:11-16 | no query iff the trimmed text is shorter than two characters; otherwise `%` + text + `%` |
| SearchRoute.CheapestVariant | src/app/api/search/route.ts:22-25 | none iff no variants; otherwise one of them, and no variant is cheaper |
| SearchRoute.Matching | src/app/api/search/route.ts:19-20 | exactly the table rows whose name is `LIKE` the pattern |
| SearchRoute.HitOf | src/app/api/search/route.ts:30-34 | keeps id and name; the image is null iff there is no variant, and otherwise the cheapest variant's |
| SearchRoute.Hits | src/app/api/search/route.ts:30-34 | one hit per row, in order |
| SearchRoute.Search | src/app/api/search/route.ts:11-27 | never more than 8 hits; `[]` for a short query |
| SearchRoute.SearchResults | src/app/api/search/route.ts:19-34 | with a long enough query, the first min(8, matches) matching rows in order, each mapped to its hit |
| SearchRoute.ShortQueryNotSearched | src/app/api/search/route.ts:9-13 | a missing, blank or one-character query answers `[]` whatever the table holds |
| SearchRoute.TwoLettersSearched | src/app/api/search/route.ts:11-16 | any two non-whitespace characters are searched, with pattern `%` + both + `%` |
| ProductListing.HasQueryMeaning | src/app/product/page.tsx:29 | the query counts exactly when `q && q.trim().length > 0` |
| ProductListing.NamePattern | src/app/product/page.tsx:30 | `%` on both ends of the trimmed query |
| ProductListing.NameCondition | src/app/product/page.tsx:29-33 | a name condition exactly when the query is non-blank |
| ProductListing.CategoryCondition | src/app/product/page.tsx:35-37 | a category condition exactly when `category` is truthy |
| ProductListing.ExclusionCondition | src/app/product/page.tsx:39-41 | an exclusion exactly when `excludeProductId` is truthy |
| ProductListing.Pushed | src/app/product/page.tsx:29-41 | `push` adds the condition when there is one, nothing otherwise |
| ProductListing.Conditions | src/app/product/page.tsx:27-41 | one condition per set parameter, nothing else, the name condition first when present |
| ProductListing.Where | src/app/product/page.tsx:43 | no filter at all iff there are no conditions |
| ProductListing.NoParamsNoFilter | src/app/product/page.tsx:43 | with no parameters there is no `where`, and every product is selected |
| ProductListing.SelectedByParts | src/app/product/page.tsx:43 | `and(...conditions)` holds exactly when each pushed condition holds |
| ProductListing.SelectedMeaning | src/app/product/page.tsx:29-43 | a product is selected iff its name matches the non-blank query, it is in the category, and it is not the excluded product, for whichever of these is set |
| ProductListing.InsertNewest | src/app/product/page.tsx:46-48 | inserting into a newest-first list keeps it newest first and adds exactly that product |
| ProductListing.SortNewest | src/app/product/page.tsx:46-48 | `desc(createdAt)`: the same products, as a multiset, newest first |
| ProductListing.OrderingOf | src/app/product/page.tsx:46-50 | newest first exactly for `sort=new` |
| ProductListing.Products | src/app/product/page.tsx:46-56 | the page never lists more products than the table holds, and lists them newest first for `sort=new` |
| ProductListing.ProductsMeaning | src/app/product/page.tsx:43-56 | the page lists exactly the selected products, as often as the table holds them; newest first for `sort=new`, in table order otherwise |
| ProductListing.Title | src/app/product/page.tsx:58-63 | related products for a category without a query; results for the trimmed query when there is one; all products otherwise |
| ProductListing.BlankQueryTitle | src/app/product/page.tsx:29-63 | a blank query filters nothing, yet the title announces results for an empty quotation |
| ProductListing.Noun | src/app/product/page.tsx:74 | "item" exactly for one product, "itens" otherwise |
| ProductListing.CountLine | src/app/product/page.tsx:73-78 | the line starts with the product count's numeral |
| ProductListing.CountLineExamples | src/app/product/page.tsx:73-78 | "1 item", and "12 itens • novos • relacionados" |
| ProductListing.EmptyMessage | src/app/product/page.tsx:81-86 | the message mentions the search exactly when a query was given |

## Left out

- The CPF check-digit validator (`cpf-cnpj-validator`) and zod's e-mail test are parameters (`Schemas.External`). Their own rules are not modelled.
- The CEP lookup (`cep-promise`) is a parameter of `AddressForm.CepBlur`. A rejected lookup is modelled as no answer. The toast and the loading flag are not modelled.
- SQL `LOWER(name) LIKE LOWER(pattern)` is a parameter `like` of the search route and the listing page. The wildcard matching and the case folding are not modelled.
- The database, authentication, `headers()`, `revalidatePath`, `redirect`, the router, toasts and React state are outside the model. Queries become functions of the table values, and a redirect becomes a `Page.Redirect` value.
- AddressStore.CreateShippingAddress: the row id the database generates is a parameter `newId`. The requirement that it is not already in the table stands in for the primary key's uniqueness.
- Zod's error messages are not modelled. A failed parse reports the set of failing fields.
- String lengths count code points, not UTF-16 code units. `toUpperCase` is modelled for ASCII letters only. Every string the schemas uppercase has already passed `^[A-Za-z]{2}$`, except the UF the CEP service returns.
- JavaScript numbers are unbounded integers here. Currency formatting (`Intl.NumberFormat`) and date formatting are not modelled.
- Rows come back from the database in table order when there is no `orderBy`. Ties in `createdAt` keep table order, which SQL does not promise.
- Orders.StatusBadge: the order status is a string. The status enum's definition is not part of this model, so values other than the three shown give no badge.
- The action that binds an address to the cart (`updateCartShippingAddress`) is not part of this model. "Go to payment" and the create flow stop at choosing the id to bind.
- The create dialog's submit (`onSubmitCreate`) only chains the create action, the binder action and UI state. The create action itself is modelled.
- The confirmation page's address text (`formatAddress`) and the product cards are presentation only. The view records the bound address's id and the cart's items.
- The cart sheet takes its items and total from the cart query as given. How the server computes `totalPriceInCents` is not modelled.
- The debounced search box (`search-command.tsx`), the header and the other context components are not modelled.
- ProductListing.CountLine: only the leading numeral is stated in general. The markers are checked on two examples.
